/** The per-step record of a navigable sequence: a wrapped, type-erased step
    identity plus the two pieces of transient state, an error message and a
    loading flag. Records compare and hash by the wrapped identity's id only. */
module NavigationSteps {

  import opened Wrappers
  import opened SetupDevicePages

  /** A value of type `any NavigableStep`. The only concrete step type of the
      repository is `SetupDevicePage`; a value of any other conforming type is
      known to this layer only through its integer id. */
  datatype AnyStep = SetupPage(page: SetupDevicePage) | ForeignStep(foreignId: int) {

    /** The step's `id`: a sample page's raw value, or the foreign step's id. */
    function Id(): (id: int)
      ensures SetupPage? ==> 0 <= id < |AllCases()| && AllCases()[id] == page
      ensures ForeignStep? ==> id == foreignId
    {
      match this
      case SetupPage(p) => p.Id()
      case ForeignStep(i) => i
    }

    /** The checked cast `as? SetupDevicePage`. */
    function AsSetupDevicePage(): (r: Option<SetupDevicePage>)
      ensures r.Some? <==> SetupPage?
      ensures r.Some? ==> this == SetupPage(r.value) && Id() == r.value.Id()
    {
      match this
      case SetupPage(p) => Some(p)
      case ForeignStep(_) => None
    }
  }

  /** `NavigationStep`: `wrappedValue` is a `let`, so a record's identity is
      fixed when it is built; `errorMessage` and `isLoading` are the only
      fields that change. */
  datatype NavigationStep = NavigationStep(wrappedValue: AnyStep, errorMessage: string, isLoading: bool)

  /** `NavigationStep(value)`: a fresh record carries no error and is idle. */
  function MakeStep(value: AnyStep): (s: NavigationStep)
    ensures s.wrappedValue == value
    ensures s.errorMessage == "" && !s.isLoading
  {
    NavigationStep(value, "", false)
  }

  /** Swift `==` on records: the wrapped ids agree, whatever the transient state. */
  predicate StepEquals(lhs: NavigationStep, rhs: NavigationStep)
    ensures lhs.wrappedValue == rhs.wrappedValue ==> StepEquals(lhs, rhs)
    ensures lhs.wrappedValue.SetupPage? && rhs.wrappedValue.SetupPage? ==>
              (StepEquals(lhs, rhs) <==> lhs.wrappedValue == rhs.wrappedValue)
  {
    lhs.wrappedValue.Id() == rhs.wrappedValue.Id()
  }

  /** The value fed to the hasher: the wrapped id and nothing else. */
  function HashKey(s: NavigationStep): (key: int)
    ensures s.wrappedValue.SetupPage? ==> 0 <= key < |AllCases()| && AllCases()[key] == s.wrappedValue.page
    ensures s.wrappedValue.ForeignStep? ==> key == s.wrappedValue.foreignId
  {
    s.wrappedValue.Id()
  }

  /** `==` ignores the transient fields: a record equals itself with any other
      error message and loading flag. */
  lemma EqualityIgnoresTransientState(s: NavigationStep, message: string, loading: bool)
    ensures StepEquals(s, s.(errorMessage := message, isLoading := loading))
    ensures StepEquals(s.(errorMessage := message, isLoading := loading), s)
  {
  }

  /** `==` is an equivalence relation, as `Hashable` requires. */
  lemma StepEqualsIsEquivalence(a: NavigationStep, b: NavigationStep, c: NavigationStep)
    ensures StepEquals(a, a)
    ensures StepEquals(a, b) ==> StepEquals(b, a)
    ensures StepEquals(a, b) && StepEquals(b, c) ==> StepEquals(a, c)
  {
  }

  /** `Hashable` consistency: equal records hash equally, and for records whose
      identities are sample pages, equal hash keys mean equal identities. */
  lemma HashConsistentWithEquality(a: NavigationStep, b: NavigationStep)
    ensures StepEquals(a, b) <==> HashKey(a) == HashKey(b)
    ensures a.wrappedValue.SetupPage? && b.wrappedValue.SetupPage? && HashKey(a) == HashKey(b)
            ==> a.wrappedValue == b.wrappedValue
  {
    if a.wrappedValue.SetupPage? && b.wrappedValue.SetupPage? {
      IdsAreUnique(a.wrappedValue.page, b.wrappedValue.page);
    }
  }

  /** Type erasure lets records of different step types collide: a record
      wrapping a foreign step whose id is that of a sample page `==` every
      record of that page, although the two identities differ. */
  lemma ForeignStepCanEqualSamplePage(p: SetupDevicePage, a: NavigationStep, b: NavigationStep)
    requires a.wrappedValue == ForeignStep(p.Id()) && b.wrappedValue == SetupPage(p)
    ensures StepEquals(a, b) && StepEquals(b, a)
    ensures a != b && a.wrappedValue != b.wrappedValue
  {
  }
}
