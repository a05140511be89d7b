/**
 * A tracked piece of baggage (Baggage.java).  `Record` is the value of a
 * baggage entity (what the store keeps and what callers receive as a
 * detached copy); `Baggage` is the entity object whose fields its methods
 * update in place.
 */
module BaggageRecords {
  import opened Options
  import opened BaggageStatuses
  import opened HistoryEntries

  /** The parts of a flight this core uses: its identity and its flight number. */
  datatype Flight = Flight(id: nat, flightNumber: string)

  /** The weight in kilograms; stored and returned, never computed on. */
  type Weight = real

  datatype Record = Record(
    id: Option<nat>,
    baggageNumber: string,
    weightKg: Weight,
    status: Status,
    flight: Flight,
    heldForInspection: bool,
    history: seq<Entry>)

  const InitialNote := "Baggage initially dropped off."

  /**
   * The ledger invariant: the history is non-empty, well kept up to the
   * clock reading `clock`, and the current status is the status of its last
   * entry.
   */
  ghost predicate Consistent(r: Record, clock: nat) {
    && |r.history| > 0
    && r.status == r.history[|r.history| - 1].status
    && Ledger(r.baggageNumber, r.history, clock)
  }

  /** Everything but the status and the history is the same in both records. */
  predicate SameFixedFields(r: Record, r': Record) {
    && r'.id == r.id
    && r'.baggageNumber == r.baggageNumber
    && r'.weightKg == r.weightKg
    && r'.flight == r.flight
    && r'.heldForInspection == r.heldForInspection
  }

  /** addHistoryEntry on a value: one new entry at the end, and the status set to it. */
  function Append(r: Record, s: Status, details: Option<string>, now: nat): (r': Record)
    ensures |r'.history| == |r.history| + 1 && r'.history[..|r.history|] == r.history
    ensures r'.history[|r.history|] == Entry(r.baggageNumber, s, now, details)
    ensures r'.status == s && SameFixedFields(r, r')
  {
    r.(history := r.history + [Entry(r.baggageNumber, s, now, details)], status := s)
  }

  /** Appending an entry stamped at the current clock reading keeps the ledger invariant. */
  lemma AppendKeepsConsistent(r: Record, s: Status, details: Option<string>, now: nat)
    requires Ledger(r.baggageNumber, r.history, now)
    ensures Consistent(Append(r, s, details, now), now + 1)
  {
    LedgerAppend(r.baggageNumber, r.history, now, Entry(r.baggageNumber, s, now, details));
  }

  /**
   * setBaggageNumber on a value: the record takes the new tracking number,
   * and its entries, which hold the baggage object itself, now refer back to
   * that number; statuses, timestamps and details are kept.
   */
  function Renumber(r: Record, baggageNumber: string): (r': Record)
    ensures r'.baggageNumber == baggageNumber && r'.history == Restamp(r.history, baggageNumber)
    ensures r'.id == r.id && r'.weightKg == r.weightKg && r'.status == r.status
    ensures r'.flight == r.flight && r'.heldForInspection == r.heldForInspection
  {
    r.(baggageNumber := baggageNumber, history := Restamp(r.history, baggageNumber))
  }

  /** Renumbering keeps the ledger invariant: the entries still refer back to their own baggage. */
  lemma RenumberKeepsConsistent(r: Record, baggageNumber: string, clock: nat)
    requires Consistent(r, clock)
    ensures Consistent(Renumber(r, baggageNumber), clock)
  {
    LedgerRestamp(r.baggageNumber, r.history, clock, baggageNumber);
  }

  /** The record the three-argument constructor builds, before the store assigns it an identity. */
  function Initial(baggageNumber: string, weightKg: Weight, flight: Flight, now: nat): (r: Record)
    ensures r.id == None && r.baggageNumber == baggageNumber && r.weightKg == weightKg && r.flight == flight
    ensures r.status == DroppedOff && !r.heldForInspection
    ensures r.history == [Entry(baggageNumber, DroppedOff, now, Some(InitialNote))]
    ensures Consistent(r, now + 1)
  {
    var empty := Record(None, baggageNumber, weightKg, DroppedOff, flight, false, []);
    AppendKeepsConsistent(empty, DroppedOff, Some(InitialNote), now);
    Append(empty, DroppedOff, Some(InitialNote), now)
  }

  /**
   * equals for two distinct baggage objects: by identity when the receiver
   * has one, otherwise by tracking number.
   */
  function SameBaggage(a: Record, b: Record): (same: bool)
    ensures a.id.Some? && b.id.Some? ==> (same <==> a.id.value == b.id.value)
    ensures a.id.None? ==> (same <==> a.baggageNumber == b.baggageNumber)
    ensures a.id.Some? && b.id.None? ==> !same
  {
    if a.id.Some? then a.id == b.id else a.baggageNumber == b.baggageNumber
  }

  lemma SameBaggageReflexive(a: Record)
    ensures SameBaggage(a, a)
  {
  }

  /**
   * The comparison is not symmetric: a transient copy (no identity yet) equals
   * a persisted record with the same tracking number, but not the other way round.
   */
  lemma SameBaggageNotSymmetric()
    ensures exists a: Record, b: Record :: SameBaggage(a, b) && !SameBaggage(b, a)
  {
    var f := Flight(1, "LH100");
    var a := Initial("AB12345", 20.5, f, 0);
    var b := a.(id := Some(1));
    assert SameBaggage(a, b) && !SameBaggage(b, a);
  }

  class Baggage {
    var id: Option<nat>
    var baggageNumber: string
    var weightKg: Weight
    var status: Status
    var flight: Flight
    var heldForInspection: bool
    var history: seq<Entry>

    /** The current value of this entity (a detached copy). */
    function Snapshot(): (r: Record)
      reads this
      ensures r.id == id && r.baggageNumber == baggageNumber && r.status == status && r.history == history
    {
      Record(id, baggageNumber, weightKg, status, flight, heldForInspection, history)
    }

    /** A new, not yet persisted baggage item, dropped off at clock reading `now`. */
    constructor (baggageNumber: string, weightKg: Weight, flight: Flight, now: nat)
      ensures Snapshot() == Initial(baggageNumber, weightKg, flight, now)
      ensures status == DroppedOff && !heldForInspection
      ensures history == [Entry(baggageNumber, DroppedOff, now, Some(InitialNote))]
    {
      this.id := None;
      this.baggageNumber := baggageNumber;
      this.weightKg := weightKg;
      this.flight := flight;
      this.status := DroppedOff;
      this.heldForInspection := false;
      this.history := [];
      new;
      AddHistoryEntry(DroppedOff, Some(InitialNote), now);
    }

    /**
     * Appends an entry for `newStatus`, stamped `now` and referring back to
     * this baggage, and makes `newStatus` the current status.
     */
    method AddHistoryEntry(newStatus: Status, details: Option<string>, now: nat)
      modifies this
      ensures history == old(history) + [Entry(baggageNumber, newStatus, now, details)]
      ensures status == newStatus
      ensures id == old(id) && baggageNumber == old(baggageNumber) && weightKg == old(weightKg)
      ensures flight == old(flight) && heldForInspection == old(heldForInspection)
      ensures Snapshot() == Append(old(Snapshot()), newStatus, details, now)
    {
      var entry := Entry(baggageNumber, newStatus, now, details);
      history := history + [entry];
      status := newStatus;
    }

    method SetId(id: Option<nat>)
      modifies this
      ensures Snapshot() == old(Snapshot()).(id := id)
    {
      this.id := id;
    }

    /** Renames this baggage; every entry, holding this object, now refers back to the new number. */
    method SetBaggageNumber(baggageNumber: string)
      modifies this
      ensures Snapshot() == Renumber(old(Snapshot()), baggageNumber)
    {
      this.baggageNumber := baggageNumber;
      this.history := Restamp(history, baggageNumber);
    }

    method SetWeightKg(weightKg: Weight)
      modifies this
      ensures Snapshot() == old(Snapshot()).(weightKg := weightKg)
    {
      this.weightKg := weightKg;
    }

    /** Overwrites the status without a history entry; no operation of the store uses it. */
    method SetStatus(status: Status)
      modifies this
      ensures Snapshot() == old(Snapshot()).(status := status)
    {
      this.status := status;
    }

    method SetFlight(flight: Flight)
      modifies this
      ensures Snapshot() == old(Snapshot()).(flight := flight)
    {
      this.flight := flight;
    }

    method SetHeldForInspection(heldForInspection: bool)
      modifies this
      ensures Snapshot() == old(Snapshot()).(heldForInspection := heldForInspection)
    {
      this.heldForInspection := heldForInspection;
    }

    /**
     * equals restricted to baggage objects: the same object, or a non-null
     * one that SameBaggage deems equal.
     */
    function Equals(o: Baggage?): (equal: bool)
      reads this, o
      ensures o == this ==> equal
      ensures o == null ==> !equal
      ensures o != null && o != this ==> (equal <==> SameBaggage(Snapshot(), o.Snapshot()))
    {
      this == o || (o != null && SameBaggage(Snapshot(), o.Snapshot()))
    }
  }
}
