/** Client code driving the sample flow through the controller's and the
    screen's contracts alone: a success, a failure, an out-of-range index,
    completion at the final step, a stale error after a retry, and a walk
    through the whole flow from the first screen. */
module Scenarios {

  import opened Wrappers
  import SetupDevicePages
  import opened NavigationSteps
  import opened NavigableSequence
  import opened SettingsNavigation
  import opened NavigationSequenceViews

  /** Step 0 validates: loading while the model works, idle and true after. */
  method SuccessfulValidation() {
    var c := new SetupDeviceSequence();
    var page := c.BeginProceed(0);
    assert page == Some(SetupDevicePages.Location) && IsStepLoading(c.steps, 0);
    var ok := c.ValidateNavigationStep(c.ValidateFieldsOf(page.value), 0);
    assert ok && !IsStepLoading(c.steps, 0) && GetErrorMessage(c.steps, 0) == "";
    ok := c.CanProceedToNextStep(0);
    assert ok && !IsStepLoading(c.steps, 0);
  }

  /** A model that reports an error for step 1: stored, idle, false. */
  method FailedValidation() {
    var c := new SetupDeviceSequence();
    var page := c.BeginProceed(1);
    assert page.Some? && IsStepLoading(c.steps, 1);
    var ok := c.ValidateNavigationStep(Some("Invalid input"), 1);
    assert !ok && GetErrorMessage(c.steps, 1) == "Invalid input" && !IsStepLoading(c.steps, 1);
    var v := new NavigationSequenceView(c, 1);
    assert v.IsAlertPresented();
    v.Dismiss();
    assert GetErrorMessage(c.steps, 1) == "";
  }

  /** Index 5 of three steps: false at once, no record touched. */
  method OutOfRangeIndex() {
    var c := new SetupDeviceSequence();
    var page := c.BeginProceed(5);
    assert page.None? && c.steps == InitialSteps();
    var ok := c.CanProceedToNextStep(5);
    assert !ok && c.steps == InitialSteps();
    var v := new NavigationSequenceView(c, 5);
    assert v.IsContinueDisabled();
    v.ContinueTapped();
    assert c.steps == InitialSteps() && !v.navigateToNextStep;
  }

  /** Continue at the final step finishes the sequence: the final step shows
      loading and the screen does not navigate. */
  method FinalStepCompletion() {
    var c := new SetupDeviceSequence();
    var v := new NavigationSequenceView(c, 2);
    v.ContinueTapped();
    assert IsStepLoading(c.steps, 2) && v.currentStepIndex == 2 && !v.navigateToNextStep;
    assert v.NextStepIndex() == None;
  }

  /** A failure and then a successful retry: the failure's message stays. */
  method StaleErrorAfterRetry() {
    var c := new SetupDeviceSequence();
    var page := c.BeginProceed(1);
    var ok := c.ValidateNavigationStep(Some("Invalid input"), 1);
    assert !ok;
    page := c.BeginProceed(1);
    assert page.Some? && IsStepLoading(c.steps, 1);
    ok := c.ValidateNavigationStep(None, 1);
    assert ok && GetErrorMessage(c.steps, 1) == "Invalid input";
  }

  /** From the default first screen, Continue on each screen pushes the next
      one until the final screen finishes the sequence. */
  method WalkThroughFlow() {
    var c := new SetupDeviceSequence();
    var first := new NavigationSequenceView(c);
    assert !first.IsContinueDisabled();
    first.ContinueTapped();
    assert first.navigateToNextStep && first.NextStepIndex() == Some(1);
    var second := new NavigationSequenceView(c, 1);
    assert !second.IsContinueDisabled();
    second.ContinueTapped();
    assert second.navigateToNextStep && second.NextStepIndex() == Some(2);
    var last := new NavigationSequenceView(c, 2);
    assert !last.IsContinueDisabled();
    last.ContinueTapped();
    assert !last.navigateToNextStep && IsStepLoading(c.steps, 2);
    assert last.IsContinueDisabled();
    assert forall i | 0 <= i < 3 :: GetErrorMessage(c.steps, i) == "";
  }
}
