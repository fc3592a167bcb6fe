/** The reporting wizard (`IssueReporter`): the step list derived from the
    catalog, the draft it fills in by shallow merges, and the handlers that
    move between steps. Every handler is one atomic transition. */
module Wizard {
  import opened Types
  import opened Constants
  import opened Sequences

  /** `initialIssueState`. */
  const InitialIssueState: IssueReport :=
    IssueReport("", Some(""), "", None, None, None, [], None, Some(""), Some(false), Some(""))

  /** The steps the photo path skips: the classification is already known. */
  const ImageSkippedIds: seq<string> := [SelectCategoryId, SpecifyCategoryId, DescribeId]

  /** Whether a catalog step is shown: on the photo path every step but the
      skipped three; otherwise every step, except that the custom-category
      step needs the manual choice "other". */
  predicate KeepStep(step: StepDescriptor, fromImage: bool, manualCategory: string) {
    if fromImage then step.id !in ImageSkippedIds
    else step.id == SpecifyCategoryId ==> manualCategory == OtherCategoryId
  }

  /** The filter over a list of steps: the kept steps, in their order. */
  function FilterSteps(steps: seq<StepDescriptor>, fromImage: bool, manualCategory: string)
    : (r: seq<StepDescriptor>)
    ensures IsSubsequence(r, steps)
    ensures forall s :: s in r <==> s in steps && KeepStep(s, fromImage, manualCategory)
  {
    if steps == [] then []
    else
      var rest := FilterSteps(steps[1..], fromImage, manualCategory);
      assert forall s :: s in steps <==> s == steps[0] || s in steps[1..];
      if KeepStep(steps[0], fromImage, manualCategory) then [steps[0]] + rest
      else
        SkipOne(rest, steps);
        rest
  }

  /** A sub-list of the tail is a sub-list of the whole list. */
  lemma SkipOne(a: seq<StepDescriptor>, b: seq<StepDescriptor>)
    requires b != [] && IsSubsequence(a, b[1..])
    ensures IsSubsequence(a, b)
  {
  }

  /** `reportingSteps`: the catalog, filtered. */
  function StepsFor(fromImage: bool, manualCategory: string): seq<StepDescriptor> {
    FilterSteps(ReportingSteps, fromImage, manualCategory)
  }

  /** The filter keeps a list whose every step is kept. */
  lemma {:induction false} FilterKeepsAll(steps: seq<StepDescriptor>, fromImage: bool, manualCategory: string)
    requires forall i :: 0 <= i < |steps| ==> KeepStep(steps[i], fromImage, manualCategory)
    ensures FilterSteps(steps, fromImage, manualCategory) == steps
  {
    if steps != [] {
      FilterKeepsAll(steps[1..], fromImage, manualCategory);
      assert [steps[0]] + steps[1..] == steps;
    }
  }

  /** Filtering distributes over concatenation. */
  lemma {:induction false} FilterAppend(a: seq<StepDescriptor>, b: seq<StepDescriptor>, fromImage: bool, manualCategory: string)
    ensures FilterSteps(a + b, fromImage, manualCategory)
         == FilterSteps(a, fromImage, manualCategory) + FilterSteps(b, fromImage, manualCategory)
  {
    if a == [] {
      assert a + b == b;
    } else {
      assert (a + b)[0] == a[0];
      assert (a + b)[1..] == a[1..] + b;
      FilterAppend(a[1..], b, fromImage, manualCategory);
    }
  }

  /** On the photo path the wizard shows exactly the classification, photos,
      details and review steps, whatever the manual category. */
  lemma ImageStepsExact(manualCategory: string)
    ensures StepsFor(true, manualCategory) == ReportingSteps[3..]
  {
    var c := ReportingSteps;
    var m := manualCategory;
    FilterKeepsAll(c[3..], true, m);
    assert c[2..][0] == c[2] && c[2..][1..] == c[3..];
    FilterHead(c[2..], true, m);
    assert FilterSteps(c[2..], true, m) == c[3..];
    assert c[1..][0] == c[1] && c[1..][1..] == c[2..];
    FilterHead(c[1..], true, m);
    assert FilterSteps(c[1..], true, m) == c[3..];
    FilterHead(c, true, m);
  }

  /** With the manual choice "other" every catalog step is shown. */
  lemma ManualStepsOther()
    ensures StepsFor(false, OtherCategoryId) == ReportingSteps
  {
    FilterKeepsAll(ReportingSteps, false, OtherCategoryId);
  }

  /** With any other manual choice every catalog step but the custom-category
      step is shown. */
  lemma ManualStepsNotOther(manualCategory: string)
    requires manualCategory != OtherCategoryId
    ensures StepsFor(false, manualCategory) == [ReportingSteps[0]] + ReportingSteps[2..]
  {
    var c := ReportingSteps;
    var m := manualCategory;
    FilterKeepsAll(c[2..], false, m);
    assert c[1..][0] == c[1] && c[1..][1..] == c[2..];
    FilterHead(c[1..], false, m);
    var rest := FilterSteps(c[1..], false, m);
    assert rest == c[2..];
    FilterHead(c, false, m);
    assert KeepStep(c[0], false, m);
    assert FilterSteps(c, false, m) == [c[0]] + rest;
  }

  /** One step of the filter: the head is kept or dropped by `KeepStep`. */
  lemma FilterHead(steps: seq<StepDescriptor>, fromImage: bool, manualCategory: string)
    requires steps != []
    ensures FilterSteps(steps, fromImage, manualCategory)
         == (if KeepStep(steps[0], fromImage, manualCategory) then [steps[0]] else [])
            + FilterSteps(steps[1..], fromImage, manualCategory)
  {
  }

  /** The derived list always has at least four steps, so index 0 always
      names a step; the custom-category step is in it exactly on the manual
      path with the manual choice "other". */
  lemma StepsShape(fromImage: bool, manualCategory: string)
    ensures |StepsFor(fromImage, manualCategory)| >= 4
    ensures ReportingSteps[1] in StepsFor(fromImage, manualCategory) <==> !fromImage && manualCategory == OtherCategoryId
  {
    if fromImage {
      ImageStepsExact(manualCategory);
    } else if manualCategory == OtherCategoryId {
      ManualStepsOther();
    } else {
      ManualStepsNotOther(manualCategory);
    }
  }

  /** `findIndex` on the id: the first position holding it, or -1. */
  function FindStepIndex(steps: seq<StepDescriptor>, id: string): (k: int)
    ensures -1 <= k < |steps|
    ensures k >= 0 ==> steps[k].id == id && forall j :: 0 <= j < k ==> steps[j].id != id
    ensures k == -1 ==> forall j :: 0 <= j < |steps| ==> steps[j].id != id
  {
    if steps == [] then -1
    else if steps[0].id == id then 0
    else
      var k := FindStepIndex(steps[1..], id);
      if k == -1 then -1 else k + 1
  }

  /** The partial object the photo analysis seeds the draft with. */
  function ImageDataPatch(img: ImageAnalysisResult): Patch {
    EmptyPatch.(
      manualCategory := Some(img.category),
      description := Some(img.description),
      category := Some(img.category),
      priority := Some(img.priority),
      summary := Some(img.summary))
  }

  /** The partial object a classification result is merged as. */
  function ResultPatch(r: CategorizationResult): Patch {
    EmptyPatch.(category := Some(r.category), priority := Some(r.priority), summary := Some(r.summary))
  }

  function DescriptionPatch(description: string): Patch {
    EmptyPatch.(description := Some(description))
  }

  /** The fallback message for a thrown value that is not an `Error`. */
  const UnknownErrorMessage: string := "An unknown error occurred."

  /** The component the wizard renders for the current step. */
  datatype StepScreen =
    | SelectCategoryScreen
    | SpecifyCategoryScreen(initialValue: Option<string>)
    | DescribeScreen(initialDescription: string)
    | CategorizeScreen(data: IssueReport, isFromImage: bool)
    | MediaScreen(images: seq<ImageFile>)
    | DetailsScreen(initialData: IssueReport)
    | ReviewScreen(data: IssueReport)

  /** What the wizard's body shows: the loader, a step, or nothing. */
  datatype Content = Loading | ShowStep(screen: StepScreen) | NoContent

  /** `renderStepContent`'s switch on the step id; an id without a case
      renders nothing. */
  function ScreenFor(id: string, data: IssueReport, isFromImage: bool): Option<StepScreen> {
    if id == SelectCategoryId then Some(SelectCategoryScreen)
    else if id == SpecifyCategoryId then Some(SpecifyCategoryScreen(data.customCategory))
    else if id == DescribeId then Some(DescribeScreen(data.description))
    else if id == CategorizeId then Some(CategorizeScreen(data, isFromImage))
    else if id == MediaId then Some(MediaScreen(data.images))
    else if id == DetailsId then Some(DetailsScreen(data))
    else if id == ReviewId then Some(ReviewScreen(data))
    else None
  }

  /** Every catalog step has a screen: the switch's default case is reached
      only by an id outside the catalog, such as the location step's. */
  lemma CatalogStepsHaveScreens(data: IssueReport, isFromImage: bool)
    ensures forall s :: s in ReportingSteps ==> ScreenFor(s.id, data, isFromImage).Some?
    ensures ScreenFor(LocationId, data, isFromImage).None?
  {
  }

  class IssueReporter {
    /** The photo analysis the wizard was opened with, if any. */
    const initialDataFromImage: Option<ImageAnalysisResult>
    var issueData: IssueReport
    var isLoading: bool
    var error: Option<string>
    var currentStepIndex: nat

    /** The step list of the current render. */
    function Steps(): seq<StepDescriptor>
      reads this
    {
      StepsFor(initialDataFromImage.Some?, issueData.manualCategory)
    }

    /** The step the index points at; none when the index is past the end. */
    function CurrentStep(): (s: Option<StepDescriptor>)
      reads this
      ensures s.Some? <==> currentStepIndex < |Steps()|
      ensures s.Some? ==> s.value in Steps()
    {
      if currentStepIndex < |Steps()| then Some(Steps()[currentStepIndex]) else None
    }

    /** The loader while a request is in flight; otherwise the current step's
      screen, or nothing when there is no current step. */
    function Render(): (c: Content)
      reads this
      ensures isLoading ==> c == Loading
      ensures !isLoading && currentStepIndex >= |Steps()| ==> c == NoContent
      ensures c.ShowStep? ==> !isLoading && CurrentStep().Some?
      ensures !isLoading && CurrentStep().Some? ==>
        (var id := CurrentStep().value.id;
         && (id == SelectCategoryId ==> c == ShowStep(SelectCategoryScreen))
         && (id == SpecifyCategoryId ==> c == ShowStep(SpecifyCategoryScreen(issueData.customCategory)))
         && (id == DescribeId ==> c == ShowStep(DescribeScreen(issueData.description)))
         && (id == CategorizeId ==> c == ShowStep(CategorizeScreen(issueData, initialDataFromImage.Some?)))
         && (id == MediaId ==> c == ShowStep(MediaScreen(issueData.images)))
         && (id == DetailsId ==> c == ShowStep(DetailsScreen(issueData)))
         && (id == ReviewId ==> c == ShowStep(ReviewScreen(issueData)))
         && (id !in {SelectCategoryId, SpecifyCategoryId, DescribeId, CategorizeId, MediaId, DetailsId, ReviewId} ==> c == NoContent))
    {
      if isLoading then Loading
      else match CurrentStep() {
        case None => NoContent
        case Some(step) =>
          match ScreenFor(step.id, issueData, initialDataFromImage.Some?) {
            case None => NoContent
            case Some(screen) => ShowStep(screen)
          }
      }
    }

    constructor (initialDataFromImage: Option<ImageAnalysisResult>)
      ensures this.initialDataFromImage == initialDataFromImage
      ensures issueData == InitialIssueState
      ensures !isLoading && error.None? && currentStepIndex == 0
    {
      this.initialDataFromImage := initialDataFromImage;
      issueData := InitialIssueState;
      isLoading := false;
      error := None;
      currentStepIndex := 0;
    }

    /** The effect that seeds the draft from the photo analysis and anchors
      the index on the classification step. */
    method ApplyImageData()
      modifies this
      ensures initialDataFromImage.None? ==> issueData == old(issueData) && currentStepIndex == old(currentStepIndex)
      ensures initialDataFromImage.Some? ==>
        var img := initialDataFromImage.value;
        && issueData == Merge(old(issueData), ImageDataPatch(img))
        && issueData.manualCategory == img.category && issueData.description == img.description
        && issueData.category == Some(img.category) && issueData.priority == Some(img.priority)
        && issueData.summary == Some(img.summary)
        && currentStepIndex < |Steps()| && Steps()[currentStepIndex].id == CategorizeId
        && forall j :: 0 <= j < currentStepIndex ==> Steps()[j].id != CategorizeId
      ensures isLoading == old(isLoading) && error == old(error)
    {
      if initialDataFromImage.Some? {
        var img := initialDataFromImage.value;
        issueData := Merge(issueData, ImageDataPatch(img));
        var startIndex := FindStepIndex(Steps(), CategorizeId);
        currentStepIndex := if startIndex >= 0 then startIndex else 0;
        ImageStepsExact(issueData.manualCategory);
        assert Steps()[0].id == CategorizeId;
      }
    }

    /** `updateIssueData`: a shallow merge into the draft. */
    method UpdateIssueData(p: Patch)
      modifies this`issueData
      ensures issueData == Merge(old(issueData), p)
    {
      issueData := Merge(issueData, p);
    }

    /** Moves one step on when the index is before the last step of a list of
      `len` steps. */
    method AdvanceWithin(len: nat)
      modifies this`currentStepIndex
      ensures currentStepIndex == if old(currentStepIndex) + 1 < len then old(currentStepIndex) + 1 else old(currentStepIndex)
    {
      if currentStepIndex + 1 < len {
        currentStepIndex := currentStepIndex + 1;
      }
    }

    /** `nextStep`: one step on unless already at the last step, so an index
      within the list stays within it. */
    method NextStep()
      modifies this`currentStepIndex
      ensures old(currentStepIndex) < |Steps()| - 1 ==> currentStepIndex == old(currentStepIndex) + 1
      ensures old(currentStepIndex) >= |Steps()| - 1 ==> currentStepIndex == old(currentStepIndex)
      ensures old(currentStepIndex) < |Steps()| ==> currentStepIndex < |Steps()|
    {
      AdvanceWithin(|Steps()|);
    }

    /** `prevStep`: one step back, clearing the error; nothing at all at the
      first step. */
    method PrevStep()
      modifies this`currentStepIndex, this`error
      ensures old(currentStepIndex) > 0 ==> currentStepIndex == old(currentStepIndex) - 1 && error.None?
      ensures old(currentStepIndex) == 0 ==> currentStepIndex == 0 && error == old(error)
    {
      if currentStepIndex > 0 {
        currentStepIndex := currentStepIndex - 1;
        error := None;
      }
    }

    /** The category step's `onNext`: records the manual choice, then moves on
      within the step list the choice was made on. */
    method SelectCategory(cat: string)
      modifies this
      ensures issueData == Merge(old(issueData), EmptyPatch.(manualCategory := Some(cat)))
      ensures currentStepIndex == if old(currentStepIndex) + 1 < old(|Steps()|) then old(currentStepIndex) + 1 else old(currentStepIndex)
      ensures isLoading == old(isLoading) && error == old(error)
    {
      var len := |Steps()|;
      UpdateIssueData(EmptyPatch.(manualCategory := Some(cat)));
      AdvanceWithin(len);
    }

    /** The custom-category step's `onNext`. */
    method SpecifyCategory(customCategory: string)
      modifies this
      ensures issueData == Merge(old(issueData), EmptyPatch.(customCategory := Some(customCategory)))
      ensures Steps() == old(Steps())
      ensures currentStepIndex == if old(currentStepIndex) + 1 < |Steps()| then old(currentStepIndex) + 1 else old(currentStepIndex)
      ensures isLoading == old(isLoading) && error == old(error)
    {
      UpdateIssueData(EmptyPatch.(customCategory := Some(customCategory)));
      NextStep();
    }

    /** The details step's `onNext`: merges what the step emitted and moves on. */
    method SubmitDetails(details: Patch)
      modifies this
      ensures issueData == Merge(old(issueData), details)
      ensures details.manualCategory.None? ==> Steps() == old(Steps())
      ensures currentStepIndex == if old(currentStepIndex) + 1 < old(|Steps()|) then old(currentStepIndex) + 1 else old(currentStepIndex)
      ensures isLoading == old(isLoading) && error == old(error)
    {
      var len := |Steps()|;
      UpdateIssueData(details);
      AdvanceWithin(len);
    }

    /** `handleDescriptionSubmit`, given what the classification call came
      back with: the description is stored first; a result is merged and
      the wizard moves one step on; a failure is recorded as the error and
      the index and the rest of the draft stay; loading is over either way. */
    method HandleDescriptionSubmit(description: string, outcome: Outcome<CategorizationResult>)
      modifies this
      ensures Steps() == old(Steps())
      ensures !isLoading
      ensures outcome.Returned? ==>
        && issueData == Merge(Merge(old(issueData), DescriptionPatch(description)), ResultPatch(outcome.value))
        && currentStepIndex == (if old(currentStepIndex) + 1 < |Steps()| then old(currentStepIndex) + 1 else old(currentStepIndex))
        && error.None?
      ensures outcome.Threw? ==>
        && issueData == Merge(old(issueData), DescriptionPatch(description))
        && currentStepIndex == old(currentStepIndex)
        && error == Some(ErrorText(outcome.thrown, UnknownErrorMessage))
    {
      isLoading := true;
      error := None;
      UpdateIssueData(DescriptionPatch(description));
      match outcome {
        case Returned(result) =>
          UpdateIssueData(ResultPatch(result));
          NextStep();
        case Threw(e) =>
          error := Some(ErrorText(e, UnknownErrorMessage));
      }
      isLoading := false;
    }

    /** The review step's submit: the wizard shows the loader and hands the
      draft on. */
    method HandleSubmit() returns (report: IssueReport)
      modifies this`isLoading
      ensures report == issueData && isLoading
    {
      isLoading := true;
      report := issueData;
    }
  }

  /** Outside loading, the wizard shows a screen whenever the index names a
      step: every step of the derived list has a case in the switch. */
  lemma RenderShowsStep(w: IssueReporter)
    requires !w.isLoading && w.currentStepIndex < |w.Steps()|
    ensures w.Render().ShowStep?
  {
    CatalogStepsHaveScreens(w.issueData, w.initialDataFromImage.Some?);
    assert w.CurrentStep().value in ReportingSteps;
  }

  /** The photo path end to end: opened with an analysis, the wizard starts
      at index 0, on the classification step, with the analysis in the draft;
      seeding a second time, as the effect does when it runs again, changes
      neither the draft nor the index. */
  method ImagePathScenario(img: ImageAnalysisResult)
    returns (stepId: string, index: nat, draft: IssueReport, reseeded: IssueReport, reseededIndex: nat)
    ensures stepId == CategorizeId && index == 0
    ensures draft.description == img.description && draft.category == Some(img.category)
    ensures draft.manualCategory == img.category && draft.summary == Some(img.summary)
    ensures reseeded == draft && reseededIndex == index
  {
    var w := new IssueReporter(Some(img));
    w.ApplyImageData();
    ImageStepsExact(w.issueData.manualCategory);
    stepId := w.CurrentStep().value.id;
    index := w.currentStepIndex;
    draft := w.issueData;
    w.ApplyImageData();
    MergeIdempotent(InitialIssueState, ImageDataPatch(img));
    reseeded := w.issueData;
    reseededIndex := w.currentStepIndex;
  }
}
