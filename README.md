# NavigationSequence: a verified model of the step-sequence controller

This project models the core of NavigationSequence, a SwiftUI component for
linear multi-step "wizard" flows, in Dafny. It covers these parts:

- **Step records** (`NavigationStep`). A record wraps a type-erased step identity
  and holds the two transient fields, `errorMessage` and `isLoading`. Records
  compare and hash by the identity's id alone.
- **Protocol extension** (`NavigableSequence`). It provides index-guarded
  queries and updates over a sequence's `steps`. An out-of-range index never
  faults: it gives `""` or `false`, or changes nothing.
- **Sample controller** (`SetupDeviceSequence`). It holds three setup pages
  (`SetupDevicePage`: location, Siri, automatic updates) and binds each page
  to its page model. It runs the validate-then-advance protocol: mark the step
  loading, ask the model, switch loading off, store any error, report the
  verdict.
- **Page models** (`LocationViewModel`, `SiriViewModel`,
  `AutomaticUpdatesViewModel`). All three are always ready and always
  validate without error.
- **Screen navigation logic** (`NavigationSequenceView`). This covers the
  Continue action, the disabled gate, the error alert with its Dismiss
  button, and the push of the next index. The push never passes the final
  step.

Module layout, one per source file:

| file | module | models |
|---|---|---|
| `wrappers.dfy` | `Wrappers` | Swift optionals |
| `setup_device_page.dfy` | `SetupDevicePages` | the `SetupDevicePage` enum |
| `navigation_step.dfy` | `NavigationSteps` | `NavigationStep` and the type-erased `any NavigableStep` |
| `navigable_sequence.dfy` | `NavigableSequence` | the protocol extension |
| `step_models.dfy` | `StepModels` | the three page models |
| `settings_navigation_model.dfy` | `SettingsNavigation` | `SetupDeviceSequence` |
| `navigation_sequence_view.dfy` | `NavigationSequenceViews` | the navigation decisions of `NavigationSequenceView` |
| `scenarios.dfy` | `Scenarios` | client code driving the flow through the contracts |

`SetupDeviceSequence` and `NavigationSequenceView` are classes, because the
source updates their state in place. `steps` is a `seq` field that the
mutating methods reassign. Each mutating method is proved against a pure
update function of `NavigableSequence`: `WithErrorMessage`,
`WithLoadingStatus` or `Validated`. The lemmas about those functions carry
the read-back, frame and validation-outcome properties.

## Model

| member | source | states |
|---|---|---|
| `SetupDevicePages.AllCases` | NavigationSequence/Sample/ViewModel/SettingsNavigationModel.swift:73-80 | `allCases` lists all three pages, each once, in declaration order; the page at position i has id i |
| `SetupDevicePages.SetupDevicePage.Id` | NavigationSequence/Sample/ViewModel/SettingsNavigationModel.swift:78-80 | the body is the raw value; each case's id is its position 0, 1 or 2, and `AllCases` and `IdsAreUnique` show it indexes `allCases` one-to-one |
| `SetupDevicePages.IdsAreUnique` | NavigationSequence/Sample/ViewModel/SettingsNavigationModel.swift:73-80 | two pages have the same id iff they are the same page |
| `NavigationSteps.AnyStep.Id` | NavigationSequence/Protocols/NavigableStep.swift:16 | the `id` of a type-erased step: a setup page's raw value, which locates it in `allCases`, or a foreign step's own id |
| `NavigationSteps.AnyStep.AsSetupDevicePage` | NavigationSequence/Sample/ViewModel/SettingsNavigationModel.swift:20 | the cast `as? SetupDevicePage` succeeds exactly for a setup page and keeps its id |
| `NavigationSteps.MakeStep` | NavigationSequence/Models/NavigationStep.swift:12-17 | a new record wraps the given identity, has an empty error message and is not loading |
| `NavigationSteps.StepEquals` | NavigationSequence/Models/NavigationStep.swift:19-21 | the body is the source's id comparison; records with the same identity are `==`, and for setup pages `==` holds iff the identities agree; `EqualityIgnoresTransientState` and `StepEqualsIsEquivalence` characterise it further |
| `NavigationSteps.HashKey` | NavigationSequence/Models/NavigationStep.swift:23-25 | the value fed to the hasher is the wrapped id alone: a setup page's position in `allCases` or a foreign step's id; `HashConsistentWithEquality` ties it to `==` |
| `NavigationSteps.EqualityIgnoresTransientState` | NavigationSequence/Models/NavigationStep.swift:19-21 | a record is `==` to itself with any error message and loading flag |
| `NavigationSteps.StepEqualsIsEquivalence` | NavigationSequence/Models/NavigationStep.swift:19-21 | id-only `==` is reflexive, symmetric and transitive |
| `NavigationSteps.HashConsistentWithEquality` | NavigationSequence/Models/NavigationStep.swift:19-25 | two records are `==` iff their hash keys agree; for setup pages equal keys mean equal identities |
| `NavigationSteps.ForeignStepCanEqualSamplePage` | NavigationSequence/Models/NavigationStep.swift:19-21 | for every setup page, any record wrapping a foreign step with that page's id is `==` (both ways) to any record of the page, although the records and their identities differ |
| `NavigableSequence.FinalStepIndex` | NavigationSequence/Protocols/NavigableSequence.swift:26-28 | the body is `count - 1`; it lies in -1 to count-1, is the last valid index when there are steps, and is invalid when there are none; `FinalStepIsLastValidIndex` relates it to `isFinalStep` |
| `NavigableSequence.IsFinalStep` | NavigationSequence/Protocols/NavigableSequence.swift:34-36 | the body is `idx == finalStepIndex`; a final index bounds every valid index and is itself valid whenever there are steps |
| `NavigableSequence.IsValidIndex` | NavigationSequence/Protocols/NavigableSequence.swift:42-44 | the body is the source's range test; a valid index lies in 0 to count-1 of a non-empty sequence and nothing outside that range is valid |
| `NavigableSequence.GetErrorMessage` | NavigationSequence/Protocols/NavigableSequence.swift:50-53 | the body is the guarded read; a non-empty message comes only from a valid index, where it is the stored message; `InvalidIndexQueriesAreNeutral` and `GetAfterSet` characterise it |
| `NavigableSequence.IsStepLoading` | NavigationSequence/Protocols/NavigableSequence.swift:79-82 | the body is the guarded read; loading implies a valid index, where it is the stored flag; `InvalidIndexQueriesAreNeutral` and `GetAfterSet` characterise it |
| `NavigableSequence.FinalStepIsLastValidIndex` | NavigationSequence/Protocols/NavigableSequence.swift:26-44 | the final index is valid iff there is at least one step; a valid index is final iff its successor is invalid |
| `NavigableSequence.InvalidIndexQueriesAreNeutral` | NavigationSequence/Protocols/NavigableSequence.swift:50-82 | at an invalid index `getErrorMessage` gives `""` and `isStepLoading` gives false |
| `NavigableSequence.WithErrorMessage` | NavigationSequence/Protocols/NavigableSequence.swift:60-64 | `setErrorMessage` at a valid index changes only that record's message; at an invalid index it changes nothing; the length never changes |
| `NavigableSequence.WithLoadingStatus` | NavigationSequence/Protocols/NavigableSequence.swift:89-93 | `setLoadingStatus` at a valid index changes only that record's loading flag; at an invalid index it changes nothing |
| `NavigableSequence.Validated` | NavigationSequence/Protocols/NavigableSequence.swift:104-115 | after the completion handler the step is not loading; an error is stored; no error leaves the old message; other records and the identity are unchanged |
| `NavigableSequence.GetAfterSet` | NavigationSequence/Protocols/NavigableSequence.swift:50-93 | reading back after a set gives the value just written; clearing gives `""`; each setter leaves the other field alone |
| `NavigableSequence.ValidationOutcome` | NavigationSequence/Protocols/NavigableSequence.swift:104-115 | after validation the step reads as not loading; the message read back is the error, or the previous message on success |
| `NavigableSequence.StaleErrorSurvivesSuccess` | NavigationSequence/Protocols/NavigableSequence.swift:104-115 | a failure followed by a successful retry still reports the failure's message |
| `NavigableSequence.LoadingStatusOverwrites` | NavigationSequence/Protocols/NavigableSequence.swift:89-93 | a second loading update of the same step overrides the first |
| `NavigableSequence.MutationsKeepIdentities` | NavigationSequence/Protocols/NavigableSequence.swift:60-115 | after any sequence of setter and completion calls the number of steps and every record's identity are unchanged, so each record is still `==` to the one it started as |
| `NavigableSequence.UntouchedStepUnchanged` | NavigationSequence/Protocols/NavigableSequence.swift:60-115 | a record that no call in a sequence of setter and completion calls addresses is left exactly as it was |
| `NavigableSequence.InvalidMutationsAreNoOps` | NavigationSequence/Protocols/NavigableSequence.swift:60-93 | a sequence of calls that all use out-of-range indices leaves `steps` unchanged |
| `StepModels.LocationViewModel.CanSubmit` | NavigationSequence/Sample/ViewModel/LocationViewModel.swift:13-15 | the location page is always ready |
| `StepModels.LocationViewModel.ValidateFields` | NavigationSequence/Sample/ViewModel/LocationViewModel.swift:17-19 | location validation reports no error |
| `StepModels.NewLocationViewModel` | NavigationSequence/Sample/ViewModel/LocationViewModel.swift:11 | `enableLocation` starts false |
| `StepModels.LocationFlagIsIrrelevant` | NavigationSequence/Sample/ViewModel/LocationViewModel.swift:11-19 | `enableLocation` affects neither readiness nor validation |
| `StepModels.SiriViewModel.CanSubmit` | NavigationSequence/Sample/ViewModel/SiriViewModel.swift:13-15 | the Siri page is always ready |
| `StepModels.SiriViewModel.ValidateFields` | NavigationSequence/Sample/ViewModel/SiriViewModel.swift:17-19 | Siri validation reports no error |
| `StepModels.NewSiriViewModel` | NavigationSequence/Sample/ViewModel/SiriViewModel.swift:11 | `enableSiri` starts false |
| `StepModels.SiriFlagIsIrrelevant` | NavigationSequence/Sample/ViewModel/SiriViewModel.swift:11-19 | `enableSiri` affects neither readiness nor validation |
| `StepModels.AutomaticUpdatesViewModel.CanSubmit` | NavigationSequence/Sample/ViewModel/AutomaticUpdatesViewModel.swift:13-15 | the automatic-updates page is always ready |
| `StepModels.AutomaticUpdatesViewModel.ValidateFields` | NavigationSequence/Sample/ViewModel/AutomaticUpdatesViewModel.swift:17-19 | automatic-updates validation reports no error |
| `StepModels.NewAutomaticUpdatesViewModel` | NavigationSequence/Sample/ViewModel/AutomaticUpdatesViewModel.swift:11 | `enableAutomaticUpdates` starts false |
| `StepModels.AutomaticUpdatesFlagIsIrrelevant` | NavigationSequence/Sample/ViewModel/AutomaticUpdatesViewModel.swift:11-19 | `enableAutomaticUpdates` affects neither readiness nor validation |
| `SettingsNavigation.InitialSteps` | NavigationSequence/Sample/ViewModel/SettingsNavigationModel.swift:11 | the initial steps are one record per page, in case order, with ids 0, 1, 2, an empty error and not loading |
| `SettingsNavigation.InitialStepsAreDistinct` | NavigationSequence/Sample/ViewModel/SettingsNavigationModel.swift:11 | two initial records are `==` iff they are at the same index |
| `SettingsNavigation.SetupDeviceSequence.constructor` | NavigationSequence/Sample/ViewModel/SettingsNavigationModel.swift:10-15 | a new controller holds the initial steps and a fresh model per page |
| `SettingsNavigation.SetupDeviceSequence.CanSubmit` | NavigationSequence/Sample/ViewModel/SettingsNavigationModel.swift:17-30 | false for an invalid index or a non-page identity; otherwise the bound model's readiness; so true iff the index is valid and holds a setup page |
| `SettingsNavigation.SetupDeviceSequence.SetErrorMessage` | NavigationSequence/Protocols/NavigableSequence.swift:60-64 | the new steps are `WithErrorMessage` of the old ones |
| `SettingsNavigation.SetupDeviceSequence.ClearErrorMessage` | NavigationSequence/Protocols/NavigableSequence.swift:69-73 | the new steps are those after setting the empty message |
| `SettingsNavigation.SetupDeviceSequence.SetLoadingStatus` | NavigationSequence/Protocols/NavigableSequence.swift:89-93 | the new steps are `WithLoadingStatus` of the old ones |
| `SettingsNavigation.SetupDeviceSequence.ValidateNavigationStep` | NavigationSequence/Protocols/NavigableSequence.swift:104-115 | the new steps are `Validated` of the old ones; the result is true iff no error was reported |
| `SettingsNavigation.SetupDeviceSequence.ValidateFieldsOf` | NavigationSequence/Sample/ViewModel/SettingsNavigationModel.swift:40-46 | each page is validated by its own bound model, and every bundled model reports no error |
| `SettingsNavigation.SetupDeviceSequence.BeginProceed` | NavigationSequence/Sample/ViewModel/SettingsNavigationModel.swift:32-49 | the phase before validation: an invalid index is rejected with nothing changed; a non-page identity is rejected and ends idle; a setup page is returned for validation with only its loading flag changed, to true, so the step is loading when its model is asked |
| `SettingsNavigation.SetupDeviceSequence.CanProceedToNextStep` | NavigationSequence/Sample/ViewModel/SettingsNavigationModel.swift:32-51 | runs `BeginProceed`, the bound model and the completion handler in turn: an invalid index gives false and changes nothing; a non-page identity gives false and ends idle; a setup page gives true, ends idle and keeps its message |
| `SettingsNavigation.SetupDeviceSequence.FinishedSequence` | NavigationSequence/Sample/ViewModel/SettingsNavigationModel.swift:68-70 | only the final step's loading flag changes, to true |
| `NavigationSequenceViews.ReactionTo` | NavigationSequence/Views/NavigationSequenceView.swift:42-50 | a true verdict finishes at the final step and navigates onwards anywhere else; a false verdict stays |
| `NavigationSequenceViews.Destination` | NavigationSequence/Views/NavigationSequenceView.swift:81-85 | a screen has a next screen iff it is not final, and that screen's index is one more |
| `NavigationSequenceViews.DestinationChainStopsAtFinalStep` | NavigationSequence/Views/NavigationSequenceView.swift:81-85 | k pushes from a valid screen reach index idx+k while that is a valid index, and none exist beyond the final step |
| `NavigationSequenceViews.FlowFromStartVisitsEveryStep` | NavigationSequence/Views/NavigationSequenceView.swift:28-85 | from the default start index 0 the screens are exactly the steps 0 to the final one, in order |
| `NavigationSequenceViews.NavigationSequenceView.constructor` | NavigationSequence/Views/NavigationSequenceView.swift:28-31 | a screen starts at the given index, 0 by default, and is not navigating |
| `NavigationSequenceViews.NavigationSequenceView.IsContinueDisabled` | NavigationSequence/Views/NavigationSequenceView.swift:70 | when Continue is enabled, the index is valid, holds a setup page and is not loading |
| `NavigationSequenceViews.NavigationSequenceView.IsAlertPresented` | NavigationSequence/Views/NavigationSequenceView.swift:74 | the alert can only show for a valid index |
| `NavigationSequenceViews.NavigationSequenceView.Dismiss` | NavigationSequence/Views/NavigationSequenceView.swift:75 | Dismiss clears this step's message only, and the alert is then gone |
| `NavigationSequenceViews.NavigationSequenceView.OnProceedResult` | NavigationSequence/Views/NavigationSequenceView.swift:42-50 | finishing marks the final step loading without navigating; navigating toggles `navigateToNextStep` without touching the steps; staying changes nothing |
| `NavigationSequenceViews.NavigationSequenceView.ContinueTapped` | NavigationSequence/Views/NavigationSequenceView.swift:41-51 | an invalid index changes nothing; a non-page ends idle and stays; a non-final page ends idle and navigates; the final page finishes and ends loading |
| `NavigationSequenceViews.NavigationSequenceView.NextStepIndex` | NavigationSequence/Views/NavigationSequenceView.swift:81-85 | a next screen is attached iff this one is not final; it shows index+1, which is valid when this index is |

## Left out

- View rendering is not modelled: `getViewForStep`, the page views, the button's look and animations, and the screen-height frame. They only lay out content.
- Styling helpers are not modelled (`ShapeStyle+Ext.swift`, `View+Ext.swift`). They are presentation glue. The conditional `.if` modifier is modelled only by its effect: a destination is attached exactly when the screen is not final.
- `@MainActor`, `Sendable` and `@Observable` are not modelled. The model assumes one owner on one thread.
- Asynchronous completion is not modelled as concurrency. Validation is split into a first phase (`BeginProceed`), which checks the index and the identity and marks the step loading, and a separate completion handler (`ValidateNavigationStep`). A host can feed a result to that handler at any later time. The three bundled models complete at once, so `CanProceedToNextStep` runs both phases in one call and returns what it would hand to `completion`.
- The "completion is called exactly once, synchronously" promise of the page models holds by construction. `ValidateFields` is a function returning the one value it would pass.
- `NavigableSequence` is a protocol, and traits are not used. Its extension is modelled as functions of `steps` plus methods on `SetupDeviceSequence`, the repository's only conforming type. `NavigationSequenceView` is bound to that class.
- `any NavigableStep` is modelled as a datatype. It holds either a `SetupDevicePage` or a foreign step that is known only by its id. Swift's `Hasher` is not modelled: the hash is represented by the value it is fed, the id.
- Popping back to an earlier screen is the navigation host's job and is not modelled. So is SwiftUI resetting `navigateToNextStep` when a pushed screen is popped. `OnProceedResult` toggles the flag as the source does.
- There is no cancellation, timeout or re-entrancy guard. The source has none, so the model adds none: a second `CanProceedToNextStep` on a loading step is allowed.
