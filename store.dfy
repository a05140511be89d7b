/**
 * The baggage-management bean (BaggageManagementBean.java) as a store of
 * baggage records keyed by tracking number.  Each public operation is one
 * atomic step against the store.  Records are kept and handed out as values,
 * so a returned record is a detached copy.
 */
module BaggageManagement {
  import opened Options
  import opened BaggageStatuses
  import opened HistoryEntries
  import opened BaggageRecords
  import opened BaggagePipeline
  import opened StoreInvariants

  class Store {
    /** The persisted baggage records, by tracking number. */
    var records: map<string, Record>
    /** The flights known to flight management, by identity: their flight numbers. */
    const flights: map<nat, string>
    /** The clock reading the next history entry receives. */
    var clock: nat
    /** The identity the next persisted baggage receives. */
    var nextId: nat
    /** For each identity handed out so far, the tracking number it was given to. */
    ghost var owners: map<nat, string>

    ghost predicate Valid()
      reads this
    {
      StoreInvariant(records, owners, flights, clock, nextId)
    }

    /** An empty store over the given known flights. */
    constructor (knownFlights: map<nat, string>)
      ensures Valid()
      ensures records == map[] && flights == knownFlights && clock == 0 && nextId == 1
    {
      records := map[];
      flights := knownFlights;
      clock := 0;
      nextId := 1;
      owners := map[];
    }

    /** getBaggageByNumber: a copy of the record with this tracking number, if any. */
    function GetBaggageByNumber(n: string): (found: Option<Record>)
      requires Valid()
      reads this
      ensures found.Some? <==> n in records
      ensures found.Some? ==> found.value == records[n] && found.value.baggageNumber == n
      ensures found.Some? ==> Consistent(found.value, clock) && !found.value.heldForInspection
    {
      if n in records then Some(records[n]) else None
    }

    /**
     * getBaggageHistory: the stored ledger in stored order, which is also
     * timestamp order; empty for an unknown tracking number.
     */
    function GetBaggageHistory(n: string): (h: seq<Entry>)
      requires Valid()
      reads this
      ensures n !in records ==> h == []
      ensures n in records ==> h == records[n].history && |h| > 0 && h[|h| - 1].status == records[n].status
      ensures StrictlyAscending(h) && forall i | 0 <= i < |h| :: h[i].timestamp < clock
      ensures forall i | 0 <= i < |h| :: h[i].baggage == n
    {
      if n in records then
        LedgerIsOrdered(n, records[n].history, clock);
        records[n].history
      else []
    }

    /** getAllBaggage: a copy of every record, each exactly once, in no particular order. */
    method GetAllBaggage() returns (all: seq<Record>)
      requires FiledByNumber(records)
      ensures |all| == |records|
      ensures forall i | 0 <= i < |all| :: all[i].baggageNumber in records && records[all[i].baggageNumber] == all[i]
      ensures forall n | n in records :: records[n] in all
      ensures forall i, j | 0 <= i < j < |all| :: all[i].baggageNumber != all[j].baggageNumber
    {
      all := [];
      var pending := records.Keys;
      while pending != {}
        invariant pending <= records.Keys
        invariant |all| + |pending| == |records|
        invariant forall i | 0 <= i < |all| ::
          all[i].baggageNumber in records && all[i].baggageNumber !in pending && records[all[i].baggageNumber] == all[i]
        invariant forall n | n in records && n !in pending :: records[n] in all
        invariant forall i, j | 0 <= i < j < |all| :: all[i].baggageNumber != all[j].baggageNumber
        decreases |pending|
      {
        var n :| n in pending;
        var r := records[n];
        ghost var before := all;
        all := all + [r];
        assert forall i | 0 <= i < |before| :: all[i] == before[i];
        pending := pending - {n};
      }
    }

    /**
     * recordBaggageStatus: for a known tracking number, append an entry and
     * set the status, unless the request is redundant; unknown numbers are ignored.
     */
    method RecordBaggageStatus(n: string, newStatus: Status, details: Option<string>)
      requires Valid()
      modifies this
      ensures Valid() && nextId == old(nextId)
      ensures n !in old(records) ==> records == old(records) && clock == old(clock)
      ensures n in old(records) ==>
        && records == old(records)[n := RecordStatus(old(records)[n], newStatus, details, old(clock))]
        && clock == old(clock) + (if IsRedundant(old(records)[n], newStatus, details) then 0 else 1)
    {
      if n in records {
        var baggage := records[n];
        if baggage.status == newStatus && Blank(details) {
          UpdateSame(records, n);
          return;
        }
        // addHistoryEntry on the loaded entity: Baggage.AddHistoryEntry's last
        // ensures makes the entity's new value exactly this Append.
        var updated := Append(baggage, newStatus, details, clock);
        InvariantAfterAppend(records, owners, flights, clock, nextId, n, newStatus, details);
        records := records[n := updated];
        clock := clock + 1;
      }
    }

    /**
     * startBaggageProcessing: run the processing steps one after the other,
     * each reloading the record, checking that it is not held and is in the
     * stage it expects, and recording the next stage.  Every step is its own
     * update of the store; the bean runs them all inside its caller's one
     * transaction, which the model does not tell apart.
     */
    method StartBaggageProcessing(n: string)
      requires Valid()
      modifies this
      ensures Valid() && nextId == old(nextId)
      ensures n !in old(records) ==> records == old(records) && clock == old(clock)
      ensures n in old(records) ==>
        && records == old(records)[n := StartProcessing(old(records)[n], old(clock))]
        && clock == old(clock) + (|records[n].history| - |old(records)[n].history|)
    {
      if n !in records {
        return;
      }
      ghost var start := records[n];
      ghost var base := records;
      var expected := records[n].status;
      if !HasNextStage(expected) {
        return;
      }
      var running := true;
      while running
        invariant Valid() && nextId == old(nextId)
        invariant n in records && records == base[n := records[n]]
        invariant running ==> HasNextStage(expected)
        invariant |start.history| <= |records[n].history|
        invariant clock == old(clock) + (|records[n].history| - |start.history|)
        invariant StartProcessing(start, old(clock)) ==
          if running then ProcessFrom(expected, records[n], clock) else records[n]
        decreases if running then |GroundStages| - Ordinal(expected) else 0
      {
        var baggage := records[n];
        ProcessFromOneStep(expected, baggage, clock);
        if baggage.status == HeldForInspection || baggage.status != expected {
          running := false;
          assert StartProcessing(start, old(clock)) == records[n];
        } else {
          var next := NextStage(expected);
          ghost var before := clock;
          RecordBaggageStatus(n, next, Some(StepDetails(expected, baggage.flight)));
          UpdateTwice(base, n, baggage, records[n]);
          assert records[n] == RecordStatus(baggage, next, Some(StepDetails(expected, baggage.flight)), before);
          assert clock == before + 1;
          if HasNextStage(next) {
            ProcessFromResumes(start, old(clock), expected, baggage, before, records[n], clock);
            expected := next;
          } else {
            running := false;
            assert StartProcessing(start, old(clock)) == records[n];
          }
        }
      }
    }

    /**
     * Building and persisting a new baggage entity: the constructor records
     * DROPPED_OFF at the current clock reading, the entity receives the next
     * generated identity, and its value is filed under its tracking number.
     */
    method Persist(n: string, weightKg: Weight, managed: Flight)
      requires Valid() && n !in records
      requires managed.id in flights && flights[managed.id] == managed.flightNumber
      modifies this
      ensures Valid() && clock == old(clock) + 1 && nextId == old(nextId) + 1
      ensures records == old(records)[n := Initial(n, weightKg, managed, old(clock)).(id := Some(old(nextId)))]
    {
      var baggage := new Baggage(n, weightKg, managed, clock);
      clock := clock + 1;
      baggage.SetId(Some(nextId));
      InvariantAfterInsert(records, owners, flights, clock - 1, nextId, n, baggage.Snapshot(), clock);
      records := records[n := baggage.Snapshot()];
      owners := owners[nextId := n];
      nextId := nextId + 1;
    }

    /**
     * dropBaggage: a tracking number already in use returns its record
     * untouched; a flight unknown to flight management fails with no record
     * created; otherwise a new record is persisted and processed at once.
     */
    method DropBaggage(n: string, weightKg: Weight, flight: Flight) returns (result: Option<Record>)
      requires Valid()
      modifies this
      ensures Valid()
      ensures n in old(records) ==>
        result == Some(old(records)[n]) && records == old(records) && clock == old(clock) && nextId == old(nextId)
      ensures n !in old(records) && flight.id !in flights ==>
        result == None && records == old(records) && clock == old(clock) && nextId == old(nextId)
      ensures n !in old(records) && flight.id in flights ==>
        var created := Initial(n, weightKg, Flight(flight.id, flights[flight.id]), old(clock)).(id := Some(old(nextId)));
        && records == old(records)[n := StartProcessing(created, old(clock) + 1)]
        && result == Some(records[n])
        && clock == old(clock) + 5 && nextId == old(nextId) + 1
    {
      if n in records {
        return Some(records[n]);
      }
      if flight.id !in flights {
        return None;
      }
      var processed := DropNew(n, weightKg, Flight(flight.id, flights[flight.id]));
      result := Some(processed);
    }

    /**
     * The creating branch of dropBaggage: build the entity (one DROPPED_OFF
     * entry), persist it, then run processing on it and hand back the
     * processed record.
     */
    method DropNew(n: string, weightKg: Weight, managed: Flight) returns (processed: Record)
      requires Valid() && n !in records
      requires managed.id in flights && flights[managed.id] == managed.flightNumber
      modifies this
      ensures Valid()
      ensures var created := Initial(n, weightKg, managed, old(clock)).(id := Some(old(nextId)));
        && records == old(records)[n := StartProcessing(created, old(clock) + 1)]
        && processed == records[n]
        && processed.status == Loaded && Statuses(processed.history) == GroundStages
        && clock == old(clock) + 5 && nextId == old(nextId) + 1
    {
      ghost var base, dropped, id := records, clock, nextId;
      Persist(n, weightKg, managed);
      ghost var filed, released := records, clock;
      assert n in filed;
      StartBaggageProcessing(n);
      DropComposes(base, n, weightKg, managed, dropped, id, filed, released, records, clock);
      processed := records[n];
    }

    /**
     * updateBaggageStatus: the manual override; always appends one entry
     * (its details are never blank) and never starts processing.
     */
    method UpdateBaggageStatus(n: string, newStatus: Status) returns (result: Option<Record>)
      requires Valid()
      modifies this
      ensures Valid() && nextId == old(nextId)
      ensures n !in old(records) ==> result == None && records == old(records) && clock == old(clock)
      ensures n in old(records) ==>
        && records == old(records)[n := RecordStatus(old(records)[n], newStatus, Some(ManualUpdateNote), old(clock))]
        && result == Some(records[n])
        && records[n].status == newStatus
        && |records[n].history| == |old(records)[n].history| + 1
        && clock == old(clock) + 1
    {
      if n !in records {
        return None;
      }
      RecordBaggageStatus(n, newStatus, Some(ManualUpdateNote));
      result := Some(records[n]);
    }

    /**
     * setBaggageHoldStatus: hold an item that is not held, or release a held
     * item and restart processing from DROPPED_OFF; otherwise nothing.
     */
    method SetBaggageHoldStatus(n: string, hold: bool)
      requires Valid()
      modifies this
      ensures Valid() && nextId == old(nextId)
      ensures n !in old(records) ==> records == old(records) && clock == old(clock)
      ensures n in old(records) ==>
        && records == old(records)[n := SetHold(old(records)[n], hold, old(clock))]
        && clock == old(clock) + (|records[n].history| - |old(records)[n].history|)
    {
      if n !in records {
        return;
      }
      ghost var base := records;
      ghost var r := records[n];
      ghost var start := clock;
      ghost var final := SetHold(r, hold, start);
      SetHoldSteps(r, hold, start);
      if hold {
        if records[n].status == HeldForInspection {
          assert final == r && base[n := r] == base;
          return;
        }
        RecordBaggageStatus(n, HeldForInspection, Some(HoldNote));
        assert records == base[n := final] && clock == start + 1;
      } else {
        if records[n].status != HeldForInspection {
          assert final == r && base[n := r] == base;
          return;
        }
        RecordBaggageStatus(n, DroppedOff, Some(ReleaseNote));
        ghost var filed := records;
        ghost var released := clock;
        StartBaggageProcessing(n);
        ReleaseRestarts(base, n, start, filed, released, records, clock);
      }
    }
  }

  /** Tracking numbers are unique across the store: a number names at most one record. */
  lemma NumbersAreUnique(s: Store, a: string, b: string)
    requires s.Valid() && a in s.records && b in s.records
    ensures s.records[a].baggageNumber == s.records[b].baggageNumber ==> a == b
    ensures a != b ==> s.records[a].id != s.records[b].id
  {
    if a != b {
      IdentitiesAreDistinct(s.records, s.owners, s.flights, s.clock, s.nextId, a, b);
    }
  }
}
