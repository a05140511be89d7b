/**
 * The invariant the baggage-management bean keeps over its persisted
 * records between operations, and the two ways an operation changes the
 * records while keeping it: updating a record in place, and filing a new one.
 */
module StoreInvariants {
  import opened Options
  import opened HistoryEntries
  import opened BaggageRecords
  import opened BaggageStatuses
  import opened BaggagePipeline

  /**
   * What holds of the store between operations: each record is filed under
   * its own tracking number, keeps its ledger invariant, has a generated
   * identity that `owners` attributes to it (so no two records share one),
   * refers to a known flight and is not flagged as held.
   */
  ghost predicate StoreInvariant(records: map<string, Record>, owners: map<nat, string>,
                                 flights: map<nat, string>, clock: nat, nextId: nat) {
    forall n | n in records :: WellKept(records[n], n, owners, flights, clock, nextId)
  }

  /** What holds of the record filed under `n`. */
  ghost predicate WellKept(r: Record, n: string, owners: map<nat, string>,
                           flights: map<nat, string>, clock: nat, nextId: nat) {
    && r.baggageNumber == n
    && Consistent(r, clock)
    && r.id.Some? && r.id.value < nextId
    && r.id.value in owners && owners[r.id.value] == n
    && r.flight.id in flights
    && flights[r.flight.id] == r.flight.flightNumber
    && !r.heldForInspection
  }

  /** Distinct tracking numbers have distinct identities. */
  lemma IdentitiesAreDistinct(records: map<string, Record>, owners: map<nat, string>,
                              flights: map<nat, string>, clock: nat, nextId: nat, a: string, b: string)
    requires StoreInvariant(records, owners, flights, clock, nextId)
    requires a in records && b in records && a != b
    ensures records[a].id != records[b].id
  {
  }

  /** Every record is filed under its own tracking number. */
  predicate FiledByNumber(records: map<string, Record>) {
    forall n | n in records :: records[n].baggageNumber == n
  }

  /** So the invariant files every record under its own tracking number. */
  lemma InvariantFilesByNumber(records: map<string, Record>, owners: map<nat, string>,
                               flights: map<nat, string>, clock: nat, nextId: nat)
    requires StoreInvariant(records, owners, flights, clock, nextId)
    ensures FiledByNumber(records)
  {
    forall n | n in records
      ensures records[n].baggageNumber == n
    {
      assert WellKept(records[n], n, owners, flights, clock, nextId);
    }
  }

  /** Replacing a record by a later state of itself, with the clock moved on, keeps the invariant. */
  lemma InvariantAfterUpdate(records: map<string, Record>, owners: map<nat, string>,
                             flights: map<nat, string>, clock: nat, nextId: nat, n: string, r: Record, clock': nat)
    requires StoreInvariant(records, owners, flights, clock, nextId)
    requires n in records && SameFixedFields(records[n], r) && Consistent(r, clock') && clock <= clock'
    ensures StoreInvariant(records[n := r], owners, flights, clock', nextId)
  {
    forall k | k in records && k != n
      ensures Consistent(records[k], clock')
    {
      LedgerLater(k, records[k].history, clock, clock');
    }
  }

  /**
   * Appending a non-redundant entry, stamped at the current clock reading, to
   * a filed record is its recorded status, and keeps the invariant with the
   * clock moved on by one.
   */
  lemma InvariantAfterAppend(records: map<string, Record>, owners: map<nat, string>, flights: map<nat, string>,
                             clock: nat, nextId: nat, n: string, s: Status, details: Option<string>)
    requires StoreInvariant(records, owners, flights, clock, nextId)
    requires n in records && !IsRedundant(records[n], s, details)
    ensures RecordStatus(records[n], s, details, clock) == Append(records[n], s, details, clock)
    ensures StoreInvariant(records[n := Append(records[n], s, details, clock)], owners, flights, clock + 1, nextId)
  {
    AppendKeepsConsistent(records[n], s, details, clock);
    InvariantAfterUpdate(records, owners, flights, clock, nextId, n, Append(records[n], s, details, clock), clock + 1);
  }

  /** Filing a new record under a fresh number, with the next identity, keeps the invariant. */
  lemma InvariantAfterInsert(records: map<string, Record>, owners: map<nat, string>,
                             flights: map<nat, string>, clock: nat, nextId: nat, n: string, r: Record, clock': nat)
    requires StoreInvariant(records, owners, flights, clock, nextId)
    requires n !in records && r.baggageNumber == n && r.id == Some(nextId) && !r.heldForInspection
    requires r.flight.id in flights && flights[r.flight.id] == r.flight.flightNumber
    requires Consistent(r, clock') && clock <= clock'
    ensures StoreInvariant(records[n := r], owners[nextId := n], flights, clock', nextId + 1)
  {
    forall k | k in records
      ensures Consistent(records[k], clock')
    {
      LedgerLater(k, records[k].history, clock, clock');
    }
  }

  /** Filing a record where it already is leaves the map as it was. */
  lemma UpdateSame<K, V>(m: map<K, V>, k: K)
    requires k in m
    ensures m[k := m[k]] == m
  {
  }

  /** Filing twice under one key keeps only the second value. */
  lemma UpdateTwice<K, V>(m: map<K, V>, k: K, a: V, b: V)
    ensures m[k := a][k := b] == m[k := b]
  {
  }

  /**
   * A release of a held record, taken as the two updates of the store the bean
   * performs one after the other (record DROPPED_OFF, then process), is the
   * value-level release.
   */
  lemma ReleaseRestarts(base: map<string, Record>, n: string, start: nat,
                        filed: map<string, Record>, released: nat, records: map<string, Record>, clock: nat)
    requires n in base && base[n].status == HeldForInspection
    requires filed == base[n := RecordStatus(base[n], DroppedOff, Some(ReleaseNote), start)]
    requires released == start + (if IsRedundant(base[n], DroppedOff, Some(ReleaseNote)) then 0 else 1)
    requires records == filed[n := StartProcessing(filed[n], released)]
    requires clock == released + (|records[n].history| - |filed[n].history|)
    ensures records == base[n := SetHold(base[n], false, start)]
    ensures clock == start + (|records[n].history| - |base[n].history|)
  {
    var r := base[n];
    var d := RecordStatus(r, DroppedOff, Some(ReleaseNote), start);
    ReleaseRecordsThenProcesses(r, start, released);
    FileThenProcess(base, n, d, released, filed, records);
  }

  /** Filing a record and then processing it files the processed record. */
  lemma FileThenProcess(base: map<string, Record>, n: string, created: Record, released: nat,
                        filed: map<string, Record>, records: map<string, Record>)
    requires filed == base[n := created]
    requires n in filed && records == filed[n := StartProcessing(filed[n], released)]
    ensures records == base[n := StartProcessing(created, released)]
  {
    UpdateTwice(base, n, created, StartProcessing(created, released));
  }

  /**
   * Filing a freshly dropped-off record and then processing it, taken as the
   * two updates of the store the bean performs one after the other, files the
   * processed record: LOADED,
   * with the five ground stages, four clock readings later.
   */
  lemma DropComposes(base: map<string, Record>, n: string, weightKg: Weight, managed: Flight, dropped: nat, id: nat,
                     filed: map<string, Record>, released: nat, records: map<string, Record>, clock: nat)
    requires filed == base[n := Initial(n, weightKg, managed, dropped).(id := Some(id))] && released == dropped + 1
    requires n in filed && records == filed[n := StartProcessing(filed[n], released)]
    requires clock == released + (|records[n].history| - |filed[n].history|)
    ensures records == base[n := StartProcessing(Initial(n, weightKg, managed, dropped).(id := Some(id)), released)]
    ensures records[n].status == Loaded && Statuses(records[n].history) == GroundStages
    ensures clock == dropped + 5
  {
    var created := Initial(n, weightKg, managed, dropped).(id := Some(id));
    FileThenProcess(base, n, created, released, filed, records);
    NewBaggageIsLoaded(created, released);
  }
}
