/**
 * The status vocabulary of a piece of baggage (BaggageStatus.java): twelve
 * constants in a fixed declaration order, each with a display name.
 */
module BaggageStatuses {

  datatype Status =
    | DroppedOff
    | SecurityCleared
    | Sorted
    | CbrReady
    | Loaded
    | Transit
    | Arrived
    | Delivered
    | Lost
    | Damaged
    | Misrouted
    | HeldForInspection

  /** The constants in their declaration order. */
  const AllStatuses: seq<Status> :=
    [DroppedOff, SecurityCleared, Sorted, CbrReady, Loaded, Transit,
     Arrived, Delivered, Lost, Damaged, Misrouted, HeldForInspection]

  /** The automated ground-handling stages, in pipeline order. */
  const GroundStages: seq<Status> := [DroppedOff, SecurityCleared, Sorted, CbrReady, Loaded]

  /** The position of a constant in the declaration (Java's ordinal()). */
  function Ordinal(s: Status): (i: nat)
    ensures i < |AllStatuses| && AllStatuses[i] == s
  {
    match s
    case DroppedOff => 0
    case SecurityCleared => 1
    case Sorted => 2
    case CbrReady => 3
    case Loaded => 4
    case Transit => 5
    case Arrived => 6
    case Delivered => 7
    case Lost => 8
    case Damaged => 9
    case Misrouted => 10
    case HeldForInspection => 11
  }

  /** The human-readable name each constant is declared with. */
  function DisplayName(s: Status): (name: string)
    ensures |name| > 0
  {
    match s
    case DroppedOff => "Dropped Off"
    case SecurityCleared => "Security Cleared"
    case Sorted => "Sorted"
    case CbrReady => "CBR Ready (Container/Cart/Bag Ready)"
    case Loaded => "Loaded onto Flight"
    case Transit => "In Transit (On Flight)"
    case Arrived => "Arrived at Destination"
    case Delivered => "Delivered to Passenger"
    case Lost => "Lost"
    case Damaged => "Damaged"
    case Misrouted => "Misrouted"
    case HeldForInspection => "Held for Inspection"
  }

  /** A ground-handling stage: one of the first five constants. */
  predicate IsGroundStage(s: Status) {
    Ordinal(s) < |GroundStages|
  }

  /** A stage from which the pipeline has an automated step: every ground stage but LOADED. */
  predicate HasNextStage(s: Status) {
    Ordinal(s) < |GroundStages| - 1
  }

  /** The stage the pipeline moves to from `s`. */
  function NextStage(s: Status): (t: Status)
    requires HasNextStage(s)
    ensures IsGroundStage(t) && Ordinal(t) == Ordinal(s) + 1
  {
    match s
    case DroppedOff => SecurityCleared
    case SecurityCleared => Sorted
    case Sorted => CbrReady
    case CbrReady => Loaded
  }

  /** The ordinal is a bijection between the constants and 0..11. */
  lemma {:induction false} OrdinalOfIndex(k: nat)
    requires k < |AllStatuses|
    ensures Ordinal(AllStatuses[k]) == k
  {
    if k == 0 {} else if k == 1 {} else if k == 2 {} else if k == 3 {}
    else if k == 4 {} else if k == 5 {} else if k == 6 {} else if k == 7 {}
    else if k == 8 {} else if k == 9 {} else if k == 10 {} else {}
  }

  /** There are exactly twelve constants, pairwise distinct, and every status is one of them. */
  lemma TwelveDistinctStatuses()
    ensures |AllStatuses| == 12
    ensures forall i, j | 0 <= i < j < |AllStatuses| :: AllStatuses[i] != AllStatuses[j]
    ensures forall s: Status :: s in AllStatuses
  {
    forall i, j | 0 <= i < j < |AllStatuses|
      ensures AllStatuses[i] != AllStatuses[j]
    {
      OrdinalOfIndex(i);
      OrdinalOfIndex(j);
    }
    forall s: Status
      ensures s in AllStatuses
    {
      assert AllStatuses[Ordinal(s)] == s;
    }
  }

  /** The ground stages are the first five constants, in declaration order. */
  lemma GroundStagesLeadTheDeclaration()
    ensures GroundStages == AllStatuses[..5]
    ensures forall k | 0 <= k < |GroundStages| :: Ordinal(GroundStages[k]) == k
  {
    forall k | 0 <= k < |GroundStages|
      ensures Ordinal(GroundStages[k]) == k
    {
      OrdinalOfIndex(k);
    }
  }

  /** Display names are pairwise distinct, so a display name identifies its status. */
  lemma DisplayNameInjective(s: Status, t: Status)
    ensures DisplayName(s) == DisplayName(t) ==> s == t
  {
  }
}
