/** The `NavigableSequence` protocol extension: index-guarded queries and
    updates over a sequence's `steps`. The queries are functions of `steps`;
    each update is a function from the old `steps` to the new one, which the
    controller's mutating methods are proved against. An index outside
    `0 ..< |steps|` never faults: queries give "" or false and updates
    change nothing. */
module NavigableSequence {

  import opened Wrappers
  import opened NavigationSteps

  /** `finalStepIndex`: the index of the last record (-1 when there are none). */
  function FinalStepIndex(steps: seq<NavigationStep>): (last: int)
    ensures -1 <= last < |steps|
    ensures |steps| > 0 ==> IsValidIndex(steps, last) && !IsValidIndex(steps, last + 1)
    ensures |steps| == 0 ==> !IsValidIndex(steps, last)
  {
    |steps| - 1
  }

  /** `isFinalStep(idx:)` */
  predicate IsFinalStep(steps: seq<NavigationStep>, idx: int)
    ensures IsFinalStep(steps, idx) ==> forall j | IsValidIndex(steps, j) :: j <= idx
    ensures IsFinalStep(steps, idx) && |steps| > 0 ==> IsValidIndex(steps, idx)
  {
    idx == FinalStepIndex(steps)
  }

  /** `isValidIndex(idx:)` */
  predicate IsValidIndex(steps: seq<NavigationStep>, idx: int)
    ensures IsValidIndex(steps, idx) ==> |steps| > 0 && 0 <= idx <= |steps| - 1
    ensures idx < 0 || idx >= |steps| ==> !IsValidIndex(steps, idx)
  {
    idx >= 0 && idx < |steps|
  }

  /** `getErrorMessage(for:)` */
  function GetErrorMessage(steps: seq<NavigationStep>, idx: int): (message: string)
    ensures message != "" ==> IsValidIndex(steps, idx)
    ensures IsValidIndex(steps, idx) ==> message == steps[idx].errorMessage
  {
    if IsValidIndex(steps, idx) then steps[idx].errorMessage else ""
  }

  /** `isStepLoading(for:)` */
  predicate IsStepLoading(steps: seq<NavigationStep>, idx: int)
    ensures IsStepLoading(steps, idx) ==> IsValidIndex(steps, idx)
    ensures IsValidIndex(steps, idx) ==> (IsStepLoading(steps, idx) <==> steps[idx].isLoading)
  {
    IsValidIndex(steps, idx) && steps[idx].isLoading
  }

  /** The steps after `setErrorMessage(message, for: idx)`. */
  function WithErrorMessage(steps: seq<NavigationStep>, message: string, idx: int): (r: seq<NavigationStep>)
    ensures |r| == |steps|
    ensures !IsValidIndex(steps, idx) ==> r == steps
    ensures IsValidIndex(steps, idx) ==>
              && r[idx].errorMessage == message
              && r[idx].isLoading == steps[idx].isLoading
              && r[idx].wrappedValue == steps[idx].wrappedValue
    ensures forall j | 0 <= j < |r| && j != idx :: r[j] == steps[j]
  {
    if IsValidIndex(steps, idx) then steps[idx := steps[idx].(errorMessage := message)] else steps
  }

  /** The steps after `setLoadingStatus(isLoading, for: idx)`. */
  function WithLoadingStatus(steps: seq<NavigationStep>, isLoading: bool, idx: int): (r: seq<NavigationStep>)
    ensures |r| == |steps|
    ensures !IsValidIndex(steps, idx) ==> r == steps
    ensures IsValidIndex(steps, idx) ==>
              && r[idx].isLoading == isLoading
              && r[idx].errorMessage == steps[idx].errorMessage
              && r[idx].wrappedValue == steps[idx].wrappedValue
    ensures forall j | 0 <= j < |r| && j != idx :: r[j] == steps[j]
  {
    if IsValidIndex(steps, idx) then steps[idx := steps[idx].(isLoading := isLoading)] else steps
  }

  /** The steps after the completion handler of `validateNavigationStep` runs
      with the validator's `error`: loading is switched off, then an error,
      if any, is stored. A success leaves the previous message in place. */
  function Validated(steps: seq<NavigationStep>, idx: int, error: Option<string>): (r: seq<NavigationStep>)
    ensures |r| == |steps|
    ensures !IsValidIndex(steps, idx) ==> r == steps
    ensures IsValidIndex(steps, idx) ==>
              && !r[idx].isLoading
              && r[idx].errorMessage == (if error.Some? then error.value else steps[idx].errorMessage)
              && r[idx].wrappedValue == steps[idx].wrappedValue
    ensures forall j | 0 <= j < |r| && j != idx :: r[j] == steps[j]
  {
    var idle := WithLoadingStatus(steps, false, idx);
    if error.Some? then WithErrorMessage(idle, error.value, idx) else idle
  }

  /** The final index is the one valid index with no successor, and it is
      valid exactly when there is at least one step. */
  lemma FinalStepIsLastValidIndex(steps: seq<NavigationStep>, idx: int)
    ensures IsFinalStep(steps, idx) ==> (IsValidIndex(steps, idx) <==> |steps| > 0)
    ensures IsValidIndex(steps, idx) ==> (IsFinalStep(steps, idx) <==> !IsValidIndex(steps, idx + 1))
  {
  }

  /** Queries at an invalid index give their neutral defaults. */
  lemma InvalidIndexQueriesAreNeutral(steps: seq<NavigationStep>, idx: int)
    requires !IsValidIndex(steps, idx)
    ensures GetErrorMessage(steps, idx) == ""
    ensures !IsStepLoading(steps, idx)
  {
  }

  /** Reading back what was just written: error message and loading flag. */
  lemma GetAfterSet(steps: seq<NavigationStep>, idx: int, message: string, isLoading: bool)
    requires IsValidIndex(steps, idx)
    ensures GetErrorMessage(WithErrorMessage(steps, message, idx), idx) == message
    ensures GetErrorMessage(WithErrorMessage(steps, "", idx), idx) == ""
    ensures IsStepLoading(WithLoadingStatus(steps, isLoading, idx), idx) == isLoading
    ensures IsStepLoading(WithErrorMessage(steps, message, idx), idx) == IsStepLoading(steps, idx)
    ensures GetErrorMessage(WithLoadingStatus(steps, isLoading, idx), idx) == GetErrorMessage(steps, idx)
  {
  }

  /** After the completion handler the step is idle; an error is stored and
      reported as failure; no error is reported as success and keeps the
      previous message, however stale. */
  lemma ValidationOutcome(steps: seq<NavigationStep>, idx: int, error: Option<string>)
    requires IsValidIndex(steps, idx)
    ensures !IsStepLoading(Validated(steps, idx, error), idx)
    ensures error.Some? ==> GetErrorMessage(Validated(steps, idx, error), idx) == error.value
    ensures error.None? ==> GetErrorMessage(Validated(steps, idx, error), idx) == GetErrorMessage(steps, idx)
  {
  }

  /** A failure followed by a retry that succeeds leaves the failure's
      message in place: the stale error is not cleared. */
  lemma StaleErrorSurvivesSuccess(steps: seq<NavigationStep>, idx: int, message: string)
    requires IsValidIndex(steps, idx)
    ensures
      var failed := Validated(WithLoadingStatus(steps, true, idx), idx, Some(message));
      var retried := Validated(WithLoadingStatus(failed, true, idx), idx, None);
      GetErrorMessage(retried, idx) == message && !IsStepLoading(retried, idx)
  {
  }

  /** A second loading update of the same step overrides the first. */
  lemma LoadingStatusOverwrites(steps: seq<NavigationStep>, first: bool, second: bool, idx: int)
    ensures WithLoadingStatus(WithLoadingStatus(steps, first, idx), second, idx) == WithLoadingStatus(steps, second, idx)
  {
  }

  /** Every way the protocol mutates `steps`: the three setters and the
      validation completion handler. */
  datatype Mutation =
    | SetErrorMessage(message: string, idx: int)
    | ClearErrorMessage(idx: int)
    | SetLoadingStatus(isLoading: bool, idx: int)
    | CompleteValidation(idx: int, error: Option<string>)
  {
    function Index(): int
    {
      match this
      case SetErrorMessage(_, i) => i
      case ClearErrorMessage(i) => i
      case SetLoadingStatus(_, i) => i
      case CompleteValidation(i, _) => i
    }
  }

  function Apply(steps: seq<NavigationStep>, m: Mutation): seq<NavigationStep>
  {
    match m
    case SetErrorMessage(message, idx) => WithErrorMessage(steps, message, idx)
    case ClearErrorMessage(idx) => WithErrorMessage(steps, "", idx)
    case SetLoadingStatus(isLoading, idx) => WithLoadingStatus(steps, isLoading, idx)
    case CompleteValidation(idx, error) => Validated(steps, idx, error)
  }

  /** The steps after the mutations `ms`, in order. */
  function ApplyAll(steps: seq<NavigationStep>, ms: seq<Mutation>): seq<NavigationStep>
    decreases |ms|
  {
    if ms == [] then steps else ApplyAll(Apply(steps, ms[0]), ms[1..])
  }

  /** However the steps are mutated, their number and every record's identity
      stay as built, so each record still `==` the one it started as. */
  lemma {:induction false} MutationsKeepIdentities(steps: seq<NavigationStep>, ms: seq<Mutation>)
    ensures |ApplyAll(steps, ms)| == |steps|
    ensures forall j | 0 <= j < |steps| :: ApplyAll(steps, ms)[j].wrappedValue == steps[j].wrappedValue
    ensures forall j | 0 <= j < |steps| :: StepEquals(ApplyAll(steps, ms)[j], steps[j])
    decreases |ms|
  {
    if ms != [] {
      var next := Apply(steps, ms[0]);
      MutationsKeepIdentities(next, ms[1..]);
      assert forall j | 0 <= j < |steps| :: next[j].wrappedValue == steps[j].wrappedValue;
    }
  }

  /** A record that no mutation addresses is left exactly as it was. */
  lemma {:induction false} UntouchedStepUnchanged(steps: seq<NavigationStep>, ms: seq<Mutation>, j: int)
    requires 0 <= j < |steps|
    requires forall k | 0 <= k < |ms| :: ms[k].Index() != j
    ensures |ApplyAll(steps, ms)| == |steps|
    ensures ApplyAll(steps, ms)[j] == steps[j]
    decreases |ms|
  {
    if ms != [] {
      var next := Apply(steps, ms[0]);
      assert ms[0].Index() != j;
      assert forall k | 0 <= k < |ms[1..]| :: ms[1..][k].Index() != j by {
        forall k | 0 <= k < |ms[1..]| ensures ms[1..][k].Index() != j {
          assert ms[1..][k] == ms[k + 1];
        }
      }
      UntouchedStepUnchanged(next, ms[1..], j);
    }
  }

  /** Mutations at out-of-range indices leave `steps` entirely unchanged. */
  lemma {:induction false} InvalidMutationsAreNoOps(steps: seq<NavigationStep>, ms: seq<Mutation>)
    requires forall k | 0 <= k < |ms| :: !IsValidIndex(steps, ms[k].Index())
    ensures ApplyAll(steps, ms) == steps
    decreases |ms|
  {
    if ms != [] {
      assert Apply(steps, ms[0]) == steps;
      assert forall k | 0 <= k < |ms[1..]| :: !IsValidIndex(steps, ms[1..][k].Index()) by {
        forall k | 0 <= k < |ms[1..]| ensures !IsValidIndex(steps, ms[1..][k].Index()) {
          assert ms[1..][k] == ms[k + 1];
        }
      }
      InvalidMutationsAreNoOps(steps, ms[1..]);
    }
  }
}
