/** The progress bar over the wizard's steps (`StepIndicator`): each step's
    state, its clip shape and its stacking order. */
module StepIndicator {
  import opened Constants

  datatype StepState = Active | Completed | Upcoming
  datatype Clip = FirstClip | MiddleClip | LastClip

  /** The state classes: active wins over completed; neither is upcoming. */
  function StateOf(stepIdx: int, currentStep: int): (s: StepState)
    ensures s == Active <==> stepIdx == currentStep
    ensures s == Completed <==> stepIdx < currentStep
    ensures s == Upcoming <==> stepIdx > currentStep
  {
    var isActive := stepIdx == currentStep;
    var isCompleted := stepIdx < currentStep;
    if isActive then Active else if isCompleted then Completed else Upcoming
  }

  /** The clip shape: the first step's shape wins over the last step's. */
  function ClipOf(stepIdx: int, len: int): (c: Clip)
    ensures c == FirstClip <==> stepIdx == 0
    ensures c == LastClip <==> stepIdx != 0 && stepIdx == len - 1
    ensures c == MiddleClip <==> stepIdx != 0 && stepIdx != len - 1
  {
    var isFirst := stepIdx == 0;
    var isLast := stepIdx == len - 1;
    if isFirst then FirstClip else if isLast then LastClip else MiddleClip
  }

  /** One rendered step. */
  datatype StepView = StepView(title: string, state: StepState, clip: Clip, zIndex: int)

  /** `steps.map(...)`: one view per step, in order. */
  function Views(steps: seq<StepDescriptor>, currentStep: int): (v: seq<StepView>)
    ensures |v| == |steps|
    ensures forall i :: 0 <= i < |steps| ==>
      v[i] == StepView(steps[i].title, StateOf(i, currentStep), ClipOf(i, |steps|), |steps| - i)
  {
    seq(|steps|, i requires 0 <= i < |steps| =>
      StepView(steps[i].title, StateOf(i, currentStep), ClipOf(i, |steps|), |steps| - i))
  }

  /** With the index inside the list exactly one step is active, the ones
      before it are completed and the ones after it upcoming. */
  lemma ExactlyOneActive(steps: seq<StepDescriptor>, currentStep: int)
    requires 0 <= currentStep < |steps|
    ensures var v := Views(steps, currentStep);
      (set i | 0 <= i < |v| && v[i].state == Active) == {currentStep}
    ensures var v := Views(steps, currentStep);
      && (forall i :: 0 <= i < currentStep ==> v[i].state == Completed)
      && (forall i :: currentStep < i < |v| ==> v[i].state == Upcoming)
  {
    var v := Views(steps, currentStep);
    assert v[currentStep].state == Active;
  }

  /** Earlier steps stack above later ones, and every z-index is positive. */
  lemma ZOrderDecreasing(steps: seq<StepDescriptor>, currentStep: int)
    ensures var v := Views(steps, currentStep);
      && (forall i, j :: 0 <= i < j < |v| ==> v[i].zIndex > v[j].zIndex)
      && (forall i :: 0 <= i < |v| ==> v[i].zIndex >= 1)
  {
  }

  /** A one-step list draws its single step with the first step's shape. */
  lemma SingleStepClip(steps: seq<StepDescriptor>, currentStep: int)
    requires |steps| == 1
    ensures Views(steps, currentStep)[0].clip == FirstClip
  {
  }
}
