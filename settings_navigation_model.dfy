/** `SetupDeviceSequence`, the sample controller: it owns the records of the
    three setup pages, binds each page to its model, and runs the
    validate-then-advance protocol. Its `steps` is a list the methods reassign;
    every mutating method is proved against the update function of
    `NavigableSequence` that describes it. */
module SettingsNavigation {

  import opened Wrappers
  import opened SetupDevicePages
  import opened NavigationSteps
  import opened NavigableSequence
  import opened StepModels

  /** The initial `steps`: `SetupDevicePage.allCases.map(NavigationStep.init)`,
      one fresh record per page, in case order, with ids 0, 1, 2. */
  function InitialSteps(): (steps: seq<NavigationStep>)
    ensures |steps| == |AllCases()| == 3
    ensures forall i | 0 <= i < |steps| :: steps[i] == MakeStep(SetupPage(AllCases()[i]))
    ensures forall i | 0 <= i < |steps| ::
              && steps[i].wrappedValue.Id() == i
              && steps[i].errorMessage == ""
              && !steps[i].isLoading
  {
    seq(|AllCases()|, i requires 0 <= i < |AllCases()| => MakeStep(SetupPage(AllCases()[i])))
  }

  /** The records of the initial `steps` are pairwise distinct under `==`. */
  lemma InitialStepsAreDistinct(i: int, j: int)
    requires 0 <= i < |InitialSteps()| && 0 <= j < |InitialSteps()|
    ensures StepEquals(InitialSteps()[i], InitialSteps()[j]) <==> i == j
  {
  }

  class SetupDeviceSequence {
    var steps: seq<NavigationStep>
    var locationModel: LocationViewModel
    var siriModel: SiriViewModel
    var automaticUpdatesModel: AutomaticUpdatesViewModel

    /** `SetupDeviceSequence()`: one idle, error-free record per page and a
        fresh model for each page. */
    constructor ()
      ensures steps == InitialSteps()
      ensures locationModel == NewLocationViewModel()
      ensures siriModel == NewSiriViewModel()
      ensures automaticUpdatesModel == NewAutomaticUpdatesViewModel()
    {
      steps := InitialSteps();
      locationModel := NewLocationViewModel();
      siriModel := NewSiriViewModel();
      automaticUpdatesModel := NewAutomaticUpdatesViewModel();
    }

    /** `canSubmit(idx:)`: false for an invalid index or a record whose
        identity is not a setup page; otherwise the bound model's readiness.
        Since every bundled model is always ready, that comes to: the index
        is valid and holds a setup page. */
    function CanSubmit(idx: int): (r: bool)
      reads this
      ensures !IsValidIndex(steps, idx) ==> !r
      ensures IsValidIndex(steps, idx) && steps[idx].wrappedValue.AsSetupDevicePage().None? ==> !r
      ensures IsValidIndex(steps, idx) && steps[idx].wrappedValue == SetupPage(Location) ==> r == locationModel.CanSubmit()
      ensures IsValidIndex(steps, idx) && steps[idx].wrappedValue == SetupPage(Siri) ==> r == siriModel.CanSubmit()
      ensures IsValidIndex(steps, idx) && steps[idx].wrappedValue == SetupPage(AutomaticUpdates) ==>
                r == automaticUpdatesModel.CanSubmit()
      ensures r <==> IsValidIndex(steps, idx) && steps[idx].wrappedValue.SetupPage?
    {
      if !IsValidIndex(steps, idx) then false
      else
        match steps[idx].wrappedValue.AsSetupDevicePage()
        case Some(Location) => locationModel.CanSubmit()
        case Some(Siri) => siriModel.CanSubmit()
        case Some(AutomaticUpdates) => automaticUpdatesModel.CanSubmit()
        case None => false
    }

    /** `setErrorMessage(_:for:)` */
    method SetErrorMessage(message: string, idx: int)
      modifies this`steps
      ensures steps == WithErrorMessage(old(steps), message, idx)
    {
      if IsValidIndex(steps, idx) {
        steps := steps[idx := steps[idx].(errorMessage := message)];
      }
    }

    /** `clearErrorMessage(for:)`: the same as setting the empty message. */
    method ClearErrorMessage(idx: int)
      modifies this`steps
      ensures steps == WithErrorMessage(old(steps), "", idx)
    {
      if IsValidIndex(steps, idx) {
        steps := steps[idx := steps[idx].(errorMessage := "")];
      }
    }

    /** `setLoadingStatus(_:for:)` */
    method SetLoadingStatus(isLoading: bool, idx: int)
      modifies this`steps
      ensures steps == WithLoadingStatus(old(steps), isLoading, idx)
    {
      if IsValidIndex(steps, idx) {
        steps := steps[idx := steps[idx].(isLoading := isLoading)];
      }
    }

    /** The completion handler that `validateNavigationStep` hands to the
        step's model, run when the model reports `error`: loading is switched
        off, an error is stored and reported as false, no error is reported
        as true and leaves the stored message alone. */
    method ValidateNavigationStep(error: Option<string>, idx: int) returns (ok: bool)
      modifies this`steps
      ensures steps == Validated(old(steps), idx, error)
      ensures ok <==> error.None?
    {
      SetLoadingStatus(false, idx);
      if error.Some? {
        SetErrorMessage(error.value, idx);
        ok := false;
      } else {
        ok := true;
      }
    }

    /** The model bound to `page`, asked to validate: what it hands to its
        completion. Every bundled model reports no error. */
    function ValidateFieldsOf(page: SetupDevicePage): (error: Option<string>)
      reads this
      ensures page == Location ==> error == locationModel.ValidateFields()
      ensures page == Siri ==> error == siriModel.ValidateFields()
      ensures page == AutomaticUpdates ==> error == automaticUpdatesModel.ValidateFields()
      ensures error.None?
    {
      match page
      case Location => locationModel.ValidateFields()
      case Siri => siriModel.ValidateFields()
      case AutomaticUpdates => automaticUpdatesModel.ValidateFields()
    }

    /** The synchronous first phase of `canProceedToNextStep(idx:completion:)`,
        everything before a model is asked to validate. An invalid index is
        rejected with nothing changed (the source calls `completion(false)` at
        once). A valid index is marked loading; a record that is not a setup
        page is then switched back to idle and rejected (again
        `completion(false)`). For a setup page the step stays loading and the
        page whose model must now validate is returned. */
    method BeginProceed(idx: int) returns (page: Option<SetupDevicePage>)
      modifies this`steps
      ensures !IsValidIndex(old(steps), idx) ==> page.None? && steps == old(steps)
      ensures IsValidIndex(old(steps), idx) && old(steps)[idx].wrappedValue.ForeignStep? ==>
                page.None? && steps == WithLoadingStatus(old(steps), false, idx)
      ensures IsValidIndex(old(steps), idx) && old(steps)[idx].wrappedValue.SetupPage? ==>
                && page == Some(old(steps)[idx].wrappedValue.page)
                && steps == WithLoadingStatus(old(steps), true, idx)
                && IsStepLoading(steps, idx)
    {
      if !IsValidIndex(steps, idx) {
        return None;
      }
      SetLoadingStatus(true, idx);
      page := steps[idx].wrappedValue.AsSetupDevicePage();
      if page.None? {
        SetLoadingStatus(false, idx);
        LoadingStatusOverwrites(old(steps), true, false, idx);
      }
    }

    /** `canProceedToNextStep(idx:completion:)`, with the result handed to
        `completion` returned: the first phase, then the bound model's
        validation, then the completion handler. An invalid index fails at
        once and changes nothing; a record that is not a setup page ends idle
        and fails; a setup page's model always succeeds, so the step ends
        idle, its error message as it was, and the result is true. */
    method CanProceedToNextStep(idx: int) returns (proceed: bool)
      modifies this`steps
      ensures !IsValidIndex(old(steps), idx) ==> !proceed && steps == old(steps)
      ensures IsValidIndex(old(steps), idx) && old(steps)[idx].wrappedValue.ForeignStep? ==>
                !proceed && steps == WithLoadingStatus(old(steps), false, idx)
      ensures IsValidIndex(old(steps), idx) && old(steps)[idx].wrappedValue.SetupPage? ==>
                proceed && steps == WithLoadingStatus(old(steps), false, idx)
    {
      var page := BeginProceed(idx);
      if page.None? {
        return false;
      }
      var error := ValidateFieldsOf(page.value);
      proceed := ValidateNavigationStep(error, idx);
      LoadingStatusOverwrites(old(steps), true, false, idx);
    }

    /** `finishedSequence()`: the final step is marked loading while the host
        finishes the flow; nothing else changes. */
    method FinishedSequence()
      modifies this`steps
      ensures steps == WithLoadingStatus(old(steps), true, FinalStepIndex(old(steps)))
    {
      SetLoadingStatus(true, FinalStepIndex(steps));
    }
  }
}
