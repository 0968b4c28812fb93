/** The step identities of the sample flow: the `SetupDevicePage` enum, whose
    cases are the steps in order and whose `id` is the case's raw value. */
module SetupDevicePages {

  datatype SetupDevicePage = Location | Siri | AutomaticUpdates {

    /** The stable integer id of the case: its raw value, which is its
        position among the cases. */
    function Id(): (id: int)
      ensures 0 <= id < 3
      ensures id == 0 <==> this == Location
      ensures id == 1 <==> this == Siri
      ensures id == 2 <==> this == AutomaticUpdates
    {
      match this
      case Location => 0
      case Siri => 1
      case AutomaticUpdates => 2
    }
  }

  /** `SetupDevicePage.allCases`: every case exactly once, in declaration
      order, so that the case at position i has id i. */
  function AllCases(): (cases: seq<SetupDevicePage>)
    ensures |cases| == 3
    ensures forall i | 0 <= i < |cases| :: cases[i].Id() == i
    ensures forall p: SetupDevicePage :: 0 <= p.Id() < |cases| && cases[p.Id()] == p
  {
    [Location, Siri, AutomaticUpdates]
  }

  /** Ids are unique: two cases with the same id are the same case. */
  lemma IdsAreUnique(p: SetupDevicePage, q: SetupDevicePage)
    ensures p.Id() == q.Id() <==> p == q
  {
  }
}
