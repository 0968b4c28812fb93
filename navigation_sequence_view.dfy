/** The navigation logic of `NavigationSequenceView`, one screen of the flow
    showing the step at `currentStepIndex`: what the Continue button does with
    the controller's verdict, when the button is disabled, when the error
    alert shows, and which screen is pushed next. Each screen pushes the
    screen of the following index, so the screens form a chain of indices. */
module NavigationSequenceViews {

  import opened Wrappers
  import opened NavigationSteps
  import opened NavigableSequence
  import opened SettingsNavigation

  /** What the Continue action does once the controller answers. */
  datatype Reaction = Stay | NavigateToNextStep | FinishSequence

  /** The body of the completion closure of the Continue action: a true
      verdict finishes the sequence at the final step and navigates onwards
      anywhere else; a false verdict does nothing. */
  function ReactionTo(steps: seq<NavigationStep>, idx: int, canProceed: bool): (r: Reaction)
    ensures r == FinishSequence <==> canProceed && IsFinalStep(steps, idx)
    ensures r == NavigateToNextStep <==> canProceed && !IsFinalStep(steps, idx)
    ensures r == Stay <==> !canProceed
  {
    if !canProceed then Stay
    else if IsFinalStep(steps, idx) then FinishSequence
    else NavigateToNextStep
  }

  /** The screen the `navigationDestination` of the screen at `idx` pushes:
      the next index, attached only when `idx` is not final. */
  function Destination(steps: seq<NavigationStep>, idx: int): (next: Option<int>)
    ensures next.Some? <==> !IsFinalStep(steps, idx)
    ensures next.Some? ==> next.value == idx + 1
  {
    if IsFinalStep(steps, idx) then None else Some(idx + 1)
  }

  /** The index of the screen `k` pushes deep from the screen at `idx`, if
      the chain of destinations is that long. */
  function DestinationAfter(steps: seq<NavigationStep>, idx: int, k: nat): Option<int>
    decreases k
  {
    if k == 0 then Some(idx)
    else match Destination(steps, idx)
      case None => None
      case Some(next) => DestinationAfter(steps, next, k - 1)
  }

  /** From a valid screen the chain of pushed screens visits the following
      indices one by one and stops at the final step: no screen is ever
      pushed past it. */
  lemma {:induction false} DestinationChainStopsAtFinalStep(steps: seq<NavigationStep>, idx: int, k: nat)
    requires IsValidIndex(steps, idx)
    ensures DestinationAfter(steps, idx, k) == if idx + k < |steps| then Some(idx + k) else None
    decreases k
  {
    if k > 0 && !IsFinalStep(steps, idx) {
      DestinationChainStopsAtFinalStep(steps, idx + 1, k - 1);
    }
  }

  /** Starting from the default index 0, the flow's screens are exactly the
      steps 0 ..< |steps|, in order. */
  lemma FlowFromStartVisitsEveryStep(steps: seq<NavigationStep>, k: nat)
    requires |steps| > 0
    ensures DestinationAfter(steps, 0, k).Some? <==> k < |steps|
    ensures k < |steps| ==> DestinationAfter(steps, 0, k) == Some(k)
  {
    DestinationChainStopsAtFinalStep(steps, 0, k);
  }

  class NavigationSequenceView {
    const viewModel: SetupDeviceSequence
    const currentStepIndex: int
    var navigateToNextStep: bool

    /** `init(viewModel:stepIndex:)`: the first screen shows step 0. */
    constructor (viewModel: SetupDeviceSequence, stepIndex: int := 0)
      ensures this.viewModel == viewModel
      ensures currentStepIndex == stepIndex
      ensures !navigateToNextStep
    {
      this.viewModel := viewModel;
      currentStepIndex := stepIndex;
      navigateToNextStep := false;
    }

    /** The `disabled` gate of the Continue button. Whenever the button is
        enabled, the screen's index is valid, holds a setup page, and no
        validation of it is in flight. */
    predicate IsContinueDisabled()
      reads viewModel
      ensures !IsContinueDisabled() ==>
                && IsValidIndex(viewModel.steps, currentStepIndex)
                && viewModel.steps[currentStepIndex].wrappedValue.SetupPage?
                && !viewModel.steps[currentStepIndex].isLoading
    {
      !viewModel.CanSubmit(currentStepIndex) || IsStepLoading(viewModel.steps, currentStepIndex)
    }

    /** Whether the "Unable to Continue" alert is presented: exactly when the
        step has a non-empty message, which only a valid index can have. */
    predicate IsAlertPresented()
      reads viewModel
      ensures IsAlertPresented() ==> IsValidIndex(viewModel.steps, currentStepIndex)
    {
      GetErrorMessage(viewModel.steps, currentStepIndex) != ""
    }

    /** The alert's Dismiss button: clears this step's message, so the alert
        goes away, and touches no other record. */
    method Dismiss()
      modifies viewModel`steps
      ensures viewModel.steps == WithErrorMessage(old(viewModel.steps), "", currentStepIndex)
      ensures !IsAlertPresented()
    {
      viewModel.ClearErrorMessage(currentStepIndex);
    }

    /** The completion closure of the Continue action, run with the
        controller's verdict. */
    method OnProceedResult(canProceed: bool)
      modifies this`navigateToNextStep, viewModel`steps
      ensures ReactionTo(old(viewModel.steps), currentStepIndex, canProceed) == FinishSequence ==>
                && viewModel.steps == WithLoadingStatus(old(viewModel.steps), true, currentStepIndex)
                && navigateToNextStep == old(navigateToNextStep)
      ensures ReactionTo(old(viewModel.steps), currentStepIndex, canProceed) == NavigateToNextStep ==>
                && viewModel.steps == old(viewModel.steps)
                && navigateToNextStep == !old(navigateToNextStep)
      ensures ReactionTo(old(viewModel.steps), currentStepIndex, canProceed) == Stay ==>
                && viewModel.steps == old(viewModel.steps)
                && navigateToNextStep == old(navigateToNextStep)
    {
      if canProceed {
        if IsFinalStep(viewModel.steps, currentStepIndex) {
          viewModel.FinishedSequence();
        } else {
          navigateToNextStep := !navigateToNextStep;
        }
      }
    }

    /** The Continue button's action: ask the controller whether the step may
        be left, then react to its verdict. On a setup page at a valid index
        the bundled models always succeed, so the step ends idle and the
        screen either navigates onwards or, at the final step, finishes the
        sequence, leaving the final step marked loading. Anywhere else the
        verdict is false and the screen stays. */
    method ContinueTapped()
      modifies this`navigateToNextStep, viewModel`steps
      ensures !IsValidIndex(old(viewModel.steps), currentStepIndex) ==>
                && viewModel.steps == old(viewModel.steps)
                && navigateToNextStep == old(navigateToNextStep)
      ensures IsValidIndex(old(viewModel.steps), currentStepIndex) &&
              old(viewModel.steps)[currentStepIndex].wrappedValue.ForeignStep? ==>
                && viewModel.steps == WithLoadingStatus(old(viewModel.steps), false, currentStepIndex)
                && navigateToNextStep == old(navigateToNextStep)
      ensures IsValidIndex(old(viewModel.steps), currentStepIndex) &&
              old(viewModel.steps)[currentStepIndex].wrappedValue.SetupPage? &&
              !IsFinalStep(old(viewModel.steps), currentStepIndex) ==>
                && viewModel.steps == WithLoadingStatus(old(viewModel.steps), false, currentStepIndex)
                && navigateToNextStep == !old(navigateToNextStep)
      ensures IsValidIndex(old(viewModel.steps), currentStepIndex) &&
              old(viewModel.steps)[currentStepIndex].wrappedValue.SetupPage? &&
              IsFinalStep(old(viewModel.steps), currentStepIndex) ==>
                && viewModel.steps == WithLoadingStatus(old(viewModel.steps), true, currentStepIndex)
                && navigateToNextStep == old(navigateToNextStep)
    {
      var canProceed := viewModel.CanProceedToNextStep(currentStepIndex);
      OnProceedResult(canProceed);
      LoadingStatusOverwrites(old(viewModel.steps), false, true, currentStepIndex);
    }

    /** The index of the screen this one pushes when `navigateToNextStep`
        is set, if it has a destination at all. */
    function NextStepIndex(): (next: Option<int>)
      reads viewModel
      ensures next.Some? <==> !IsFinalStep(viewModel.steps, currentStepIndex)
      ensures next.Some? ==> next.value == currentStepIndex + 1
      ensures next.Some? && IsValidIndex(viewModel.steps, currentStepIndex) ==> IsValidIndex(viewModel.steps, next.value)
    {
      Destination(viewModel.steps, currentStepIndex)
    }
  }
}
