/** The three page models of the sample flow. Each is a step validator: it
    says whether its page may be submitted and validates the page's fields,
    reporting an optional error description. All three are always ready and
    always succeed, and their one stored flag (which no code in the flow ever
    updates) plays no part in either answer. */
module StepModels {

  import opened Wrappers

  /** `LocationViewModel`. */
  datatype LocationViewModel = LocationViewModel(enableLocation: bool) {

    /** `canSubmit`: the page is always ready. */
    function CanSubmit(): (ready: bool)
      ensures ready
    {
      true
    }

    /** `validateFields`: the completion is handed no error. */
    function ValidateFields(): (error: Option<string>)
      ensures error == None
    {
      None
    }
  }

  /** `SiriViewModel`. */
  datatype SiriViewModel = SiriViewModel(enableSiri: bool) {

    /** `canSubmit`: the page is always ready. */
    function CanSubmit(): (ready: bool)
      ensures ready
    {
      true
    }

    /** `validateFields`: the completion is handed no error. */
    function ValidateFields(): (error: Option<string>)
      ensures error == None
    {
      None
    }
  }

  /** `AutomaticUpdatesViewModel`. */
  datatype AutomaticUpdatesViewModel = AutomaticUpdatesViewModel(enableAutomaticUpdates: bool) {

    /** `canSubmit`: the page is always ready. */
    function CanSubmit(): (ready: bool)
      ensures ready
    {
      true
    }

    /** `validateFields`: the completion is handed no error. */
    function ValidateFields(): (error: Option<string>)
      ensures error == None
    {
      None
    }
  }

  /** `LocationViewModel()`: the stored flag starts off. */
  function NewLocationViewModel(): (m: LocationViewModel)
    ensures !m.enableLocation
  {
    LocationViewModel(false)
  }

  /** `SiriViewModel()`: the stored flag starts off. */
  function NewSiriViewModel(): (m: SiriViewModel)
    ensures !m.enableSiri
  {
    SiriViewModel(false)
  }

  /** `AutomaticUpdatesViewModel()`: the stored flag starts off. */
  function NewAutomaticUpdatesViewModel(): (m: AutomaticUpdatesViewModel)
    ensures !m.enableAutomaticUpdates
  {
    AutomaticUpdatesViewModel(false)
  }

  /** `enableLocation` affects neither readiness nor validation. */
  lemma LocationFlagIsIrrelevant(a: LocationViewModel, b: LocationViewModel)
    ensures a.CanSubmit() == b.CanSubmit() && a.ValidateFields() == b.ValidateFields()
  {
  }

  /** `enableSiri` affects neither readiness nor validation. */
  lemma SiriFlagIsIrrelevant(a: SiriViewModel, b: SiriViewModel)
    ensures a.CanSubmit() == b.CanSubmit() && a.ValidateFields() == b.ValidateFields()
  {
  }

  /** `enableAutomaticUpdates` affects neither readiness nor validation. */
  lemma AutomaticUpdatesFlagIsIrrelevant(a: AutomaticUpdatesViewModel, b: AutomaticUpdatesViewModel)
    ensures a.CanSubmit() == b.CanSubmit() && a.ValidateFields() == b.ValidateFields()
  {
  }
}
