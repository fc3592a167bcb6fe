/** The classification step (`CategorizeIssueStep`): shows the classifier's
    answer; on the photo path the generated description can be edited and
    saved back into the draft. */
module CategorizeIssue {
  import opened Types

  const PhotoTitle: string := "AI Analysis from Photo"
  const TextTitle: string := "AI Analysis Complete"

  /** `title`. */
  function Title(isFromImage: bool): string {
    if isFromImage then PhotoTitle else TextTitle
  }

  /** The key the priority badge is styled by: the priority when it is set,
      Medium when it is missing or empty; a priority outside the enum has no
      style entry. */
  function StyleKey(priority: Option<Priority>): (key: Option<Priority>)
    ensures priority.None? ==> key == Some(Medium)
    ensures priority.Some? && priority.value.Listed() ==> key == priority
    ensures key.Some? ==> key.value.Listed()
    ensures priority.Some? && priority.value.Unlisted? ==> (key.Some? <==> priority.value.text == "")
  {
    match priority
    case None => Some(Medium)
    case Some(p) =>
      if PriorityToText(p) == "" then Some(Medium)
      else if p.Listed() then Some(p)
      else None
  }

  /** Every priority the classifier can hand the step has a style. */
  lemma ClassifiedPrioritiesStyled(priority: Option<Priority>)
    requires priority.Some? ==> priority.value.Listed()
    ensures StyleKey(priority).Some?
  {
  }

  class CategorizeForm {
    const isFromImage: bool
    var isEditing: bool
    var editedDescription: string

    constructor (data: IssueReport, isFromImage: bool)
      ensures this.isFromImage == isFromImage
      ensures !isEditing && editedDescription == data.description
    {
      this.isFromImage := isFromImage;
      isEditing := false;
      editedDescription := data.description;
    }

    /** The Back button is disabled on the photo path. */
    predicate BackDisabled()
      reads this
    {
      isFromImage
    }

    /** "Confirm & Continue" is disabled while editing. */
    predicate ConfirmDisabled()
      reads this
    {
      isEditing
    }

    /** The text editor shows only on the photo path while editing; the text
      path shows the summary instead of the description. */
    predicate EditorShown()
      reads this
    {
      isFromImage && isEditing
    }

    /** The Edit button: on the photo path the editor opens and the wizard
      cannot go on until it is closed. */
    method StartEditing()
      modifies this`isEditing
      ensures isEditing && ConfirmDisabled()
      ensures EditorShown() <==> isFromImage
    {
      isEditing := true;
    }

    /** Typing in the editor. */
    method EditText(text: string)
      modifies this`editedDescription
      ensures editedDescription == text
    {
      editedDescription := text;
    }

    /** `handleSaveDescription`: the edited text as the description, and no
      other key; edit mode ends. */
    method Save() returns (update: Patch)
      modifies this`isEditing
      ensures update == EmptyPatch.(description := Some(editedDescription))
      ensures !isEditing && !ConfirmDisabled() && !EditorShown()
    {
      update := EmptyPatch.(description := Some(editedDescription));
      isEditing := false;
    }

    /** Cancel: edit mode ends and nothing is handed on; the unsaved text
      stays in the editor for the next edit. */
    method Cancel()
      modifies this`isEditing
      ensures !isEditing && !ConfirmDisabled() && !EditorShown()
      ensures editedDescription == old(editedDescription)
    {
      isEditing := false;
    }
  }

  /** The step's controls on each path: the photo title, the locked Back
      button and the editor go together; the two titles differ; and while
      the editor is open the wizard cannot go on. */
  lemma PathControls(f: CategorizeForm)
    ensures Title(f.isFromImage) == PhotoTitle <==> f.BackDisabled()
    ensures Title(f.isFromImage) == TextTitle <==> !f.BackDisabled()
    ensures f.EditorShown() ==> f.BackDisabled() && f.ConfirmDisabled()
  {
  }

  /** Saving merges only the description into the draft. */
  lemma SaveChangesOnlyDescription(d: IssueReport, text: string)
    ensures Merge(d, EmptyPatch.(description := Some(text))) == d.(description := text)
  {
  }
}
