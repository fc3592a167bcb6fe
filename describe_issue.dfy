/** The description step (`DescribeIssueStep`): the text is handed on only
    when its trimmed length passes the guard, and the button and the hint
    follow the same test. */
module DescribeIssue {
  import opened Types
  import opened Strings

  /** The guard: more than ten UTF-16 code units (`length`) once white
      space is trimmed. */
  predicate LongEnough(description: string) {
    Utf16Length(Trim(description)) > 10
  }

  /** `handleNext`: the untrimmed text when the guard passes, no call
      otherwise. */
  function HandleNext(description: string): (sent: Option<string>)
    ensures sent.Some? <==> Utf16Length(Trim(description)) > 10
    ensures sent.Some? ==> sent.value == description
  {
    if LongEnough(description) then Some(description) else None
  }

  /** The button's `disabled` attribute. */
  predicate SubmitDisabled(description: string) {
    Utf16Length(Trim(description)) <= 10
  }

  /** Whether the hint under the button is shown. */
  predicate HintShown(description: string) {
    Utf16Length(Trim(description)) <= 10
  }

  const HintText: string := "Please enter at least 10 characters."

  /** The button, the hint and the handler agree: the button is enabled
      exactly when a click hands the text on, and the hint is shown exactly
      when the button is disabled. */
  lemma ControlsAgree(description: string)
    ensures !SubmitDisabled(description) <==> HandleNext(description).Some?
    ensures HintShown(description) <==> SubmitDisabled(description)
  {
  }

  /** White space around the text never changes whether it can be sent. */
  lemma GuardIgnoresPadding(description: string)
    ensures HandleNext(Trim(description)).Some? <==> HandleNext(description).Some?
  {
    TrimIdempotent(description);
  }

  /** As written, a text of exactly ten code units with no white space at
      its ends is refused while the hint asks for "at least 10 characters". */
  lemma TenCharactersRefused(s: string)
    requires |s| > 0 && Utf16Length(s) == 10 && !IsSpace(s[0]) && !IsSpace(s[|s| - 1])
    ensures Utf16Length(Trim(s)) == 10
    ensures HandleNext(s).None?
    ensures HintShown(s)
  {
    TrimOfTrimmed(s);
  }

  /** `length` counts an astral character, such as an emoji, twice: ten
      characters with one of them astral, like "Big hole \U{1F6A7}", pass
      the guard. */
  lemma AstralCharacterCountsTwice(s: string)
    requires |s| == 10 && !IsSpace(s[0]) && !IsSpace(s[9])
    requires exists i :: 0 <= i < |s| && IsAstral(s[i])
    ensures HandleNext(s).Some?
  {
    TrimOfTrimmed(s);
  }

  /** The guard the hint describes: at least ten code units once white
      space is trimmed. */
  predicate LongEnoughAsHinted(description: string) {
    Utf16Length(Trim(description)) >= 10
  }

  /** `handleNext` with the guard the hint describes. */
  function HandleNextAsHinted(description: string): (sent: Option<string>)
    ensures sent.Some? <==> Utf16Length(Trim(description)) >= 10
    ensures sent.Some? ==> sent.value == description
  {
    if LongEnoughAsHinted(description) then Some(description) else None
  }

  /** The hint with the guard it describes: shown while the text is refused. */
  predicate HintShownAsHinted(description: string) {
    !LongEnoughAsHinted(description)
  }

  /** With that guard, a text of ten code units is accepted and the hint,
      shown exactly when the text is refused, never contradicts the handler. */
  lemma HintedGuardAgrees(description: string)
    ensures HintShownAsHinted(description) <==> HandleNextAsHinted(description).None?
    ensures |description| > 0 && Utf16Length(description) == 10
            && !IsSpace(description[0]) && !IsSpace(description[|description| - 1])
            ==> HandleNextAsHinted(description).Some?
  {
    if |description| > 0 && Utf16Length(description) == 10
       && !IsSpace(description[0]) && !IsSpace(description[|description| - 1]) {
      TrimOfTrimmed(description);
    }
  }
}
