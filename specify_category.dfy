/** The custom-category step (`SpecifyCategoryStep`): the text is handed on
    trimmed, and only when something is left after trimming. */
module SpecifyCategory {
  import opened Types
  import opened Strings

  /** `initialValue || ''`: the value the draft carries, or the empty text. */
  function InitialText(initialValue: Option<string>): (text: string)
    ensures initialValue.Some? ==> text == initialValue.value
    ensures initialValue.None? ==> text == ""
  {
    OrElse(initialValue, "")
  }

  /** `handleNext`: the trimmed text when it is not empty, no call otherwise. */
  function HandleNext(customCategory: string): (sent: Option<string>)
    ensures sent.None? <==> AllSpace(customCategory)
    ensures sent.Some? ==> sent.value == Trim(customCategory) && sent.value != ""
    ensures sent.Some? ==> !IsSpace(sent.value[0]) && !IsSpace(sent.value[|sent.value| - 1])
  {
    var t := Trim(customCategory);
    if t != [] then Some(t) else None
  }

  /** The Next button's `disabled` attribute. */
  predicate NextDisabled(customCategory: string) {
    Trim(customCategory) == []
  }

  /** The button is enabled exactly when a click hands a value on. */
  lemma ButtonMatchesHandler(customCategory: string)
    ensures !NextDisabled(customCategory) <==> HandleNext(customCategory).Some?
  {
  }

  /** Coming back to the step with the value it handed on and pressing Next
      again hands on the same value. */
  lemma ResubmitSameValue(customCategory: string)
    requires HandleNext(customCategory).Some?
    ensures HandleNext(InitialText(HandleNext(customCategory))) == HandleNext(customCategory)
  {
    TrimIdempotent(customCategory);
  }
}
