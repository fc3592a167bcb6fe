/** The details step (`AddDetailsStep`): a recurring toggle and a notes text
    seeded from the draft, handed on as a two-key partial draft. */
module AddDetails {
  import opened Types
  import opened Strings

  /** `initialData.isRecurring || false`. */
  function InitialRecurring(initialData: IssueReport): (b: bool)
    ensures b <==> initialData.isRecurring == Some(true)
  {
    initialData.isRecurring.Some? && initialData.isRecurring.value
  }

  /** `initialData.additionalNotes || ''`. */
  function InitialNotes(initialData: IssueReport): (notes: string)
    ensures initialData.additionalNotes.Some? ==> notes == initialData.additionalNotes.value
    ensures initialData.additionalNotes.None? ==> notes == ""
  {
    OrElse(initialData.additionalNotes, "")
  }

  /** What the step hands on: the toggle as it stands and the notes trimmed;
      no other key of the draft is touched. */
  function DetailsUpdate(isRecurring: bool, additionalNotes: string): (p: Patch)
    ensures p.isRecurring == Some(isRecurring)
    ensures p.additionalNotes == Some(Trim(additionalNotes))
    ensures p == EmptyPatch.(isRecurring := p.isRecurring, additionalNotes := p.additionalNotes)
  {
    EmptyPatch.(isRecurring := Some(isRecurring), additionalNotes := Some(Trim(additionalNotes)))
  }

  class AddDetailsForm {
    var isRecurring: bool
    var additionalNotes: string

    constructor (initialData: IssueReport)
      ensures isRecurring == InitialRecurring(initialData)
      ensures additionalNotes == InitialNotes(initialData)
    {
      isRecurring := InitialRecurring(initialData);
      additionalNotes := InitialNotes(initialData);
    }

    /** The "Yes" button, whatever the toggle held before. */
    method ChooseYes()
      modifies this`isRecurring
      ensures isRecurring
    {
      isRecurring := true;
    }

    /** The "No" button, whatever the toggle held before. */
    method ChooseNo()
      modifies this`isRecurring
      ensures !isRecurring
    {
      isRecurring := false;
    }

    /** Typing in the notes box. */
    method EditNotes(text: string)
      modifies this`additionalNotes
      ensures additionalNotes == text
    {
      additionalNotes := text;
    }

    /** `handleNext`: the form's current values, notes trimmed. */
    method HandleNext() returns (p: Patch)
      ensures p == DetailsUpdate(isRecurring, additionalNotes)
    {
      p := DetailsUpdate(isRecurring, additionalNotes);
    }
  }

  /** Going back to the step after it has handed its values on and pressing
      Next again hands on the same values. */
  lemma ReopenedFormRepeats(d: IssueReport, isRecurring: bool, notes: string)
    ensures var d2 := Merge(d, DetailsUpdate(isRecurring, notes));
      DetailsUpdate(InitialRecurring(d2), InitialNotes(d2)) == DetailsUpdate(isRecurring, notes)
  {
    TrimIdempotent(notes);
  }
}
