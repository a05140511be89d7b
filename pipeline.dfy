/**
 * The logic of the baggage-management bean (BaggageManagementBean.java) on
 * one record: recording a status, the ground-processing chain, and the hold
 * controller.  `now` is the clock reading the next history entry receives;
 * each entry created advances the clock by one.  The store's methods are
 * specified by these functions.
 */
module BaggagePipeline {
  import opened Options
  import opened BaggageStatuses
  import opened HistoryEntries
  import opened BaggageRecords

  const HoldNote := "Held by administrator."
  const ReleaseNote := "Released by administrator."
  const ManualUpdateNote := "Status manually updated."

  /** recordBaggageStatus skips a request that repeats the current status without details. */
  predicate IsRedundant(r: Record, s: Status, details: Option<string>) {
    r.status == s && Blank(details)
  }

  /**
   * recordBaggageStatus on a known record: either nothing, or exactly one new
   * entry for `s` at the end.  Either way the status afterwards is `s`.
   */
  function RecordStatus(r: Record, s: Status, details: Option<string>, now: nat): (r': Record)
    ensures r'.status == s && SameFixedFields(r, r')
    ensures |r'.history| == |r.history| + (if IsRedundant(r, s, details) then 0 else 1)
    ensures r'.history[..|r.history|] == r.history
    ensures !IsRedundant(r, s, details) ==> r'.history[|r.history|] == Entry(r.baggageNumber, s, now, details)
  {
    if IsRedundant(r, s, details) then r else Append(r, s, details, now)
  }

  /** Recording a status keeps the ledger invariant, advancing the clock by one if an entry was added. */
  lemma RecordStatusKeepsConsistent(r: Record, s: Status, details: Option<string>, now: nat)
    requires Consistent(r, now)
    ensures var r' := RecordStatus(r, s, details, now);
      Consistent(r', now + |r'.history| - |r.history|)
  {
    if !IsRedundant(r, s, details) {
      AppendKeepsConsistent(r, s, details, now);
    }
  }

  /** The details the automated step out of stage `pred` records. */
  function StepDetails(pred: Status, f: Flight): (d: string)
    requires HasNextStage(pred)
    ensures |d| > 0
  {
    if pred == DroppedOff then "Cleared by X-ray scan."
    else if pred == SecurityCleared then "Sorted to Gate " + f.flightNumber + " conveyor."
    else if pred == Sorted then "Ready for Container/Cart/Bag Loading."
    else "Loaded onto Flight " + f.flightNumber
  }

  /**
   * The processing step that expects stage `pred` (processSecurity for
   * DROPPED_OFF, processSorting, processCBR, processLoading for CBR_READY),
   * followed by the steps it hands over to.  A step does nothing when the
   * record is held or not in the expected stage; loading ends the chain.
   */
  function ProcessFrom(pred: Status, r: Record, now: nat): (r': Record)
    requires HasNextStage(pred)
    ensures SameFixedFields(r, r')
    ensures |r.history| <= |r'.history| <= |r.history| + (|GroundStages| - 1 - Ordinal(pred))
    ensures r'.history[..|r.history|] == r.history
    decreases |GroundStages| - Ordinal(pred)
  {
    if r.status == HeldForInspection || r.status != pred then r
    else
      var next := NextStage(pred);
      var r1 := RecordStatus(r, next, Some(StepDetails(pred, r.flight)), now);
      if HasNextStage(next) then ProcessFrom(next, r1, now + 1) else r1
  }

  /**
   * startBaggageProcessing on a known record: dispatch on the current status
   * to the step that expects it; held items, items past ground handling and
   * lost, damaged or misrouted items are left alone.
   */
  function StartProcessing(r: Record, now: nat): (r': Record)
    ensures SameFixedFields(r, r')
    ensures |r.history| <= |r'.history| <= |r.history| + |GroundStages| - 1
    ensures r'.history[..|r.history|] == r.history
  {
    if HasNextStage(r.status) then ProcessFrom(r.status, r, now) else r
  }

  /**
   * The entries the automated chain appends, starting from ground stage `from`
   * at clock reading `now`, in closed form: one per later ground stage.
   */
  function Chain(from: Status, baggage: string, f: Flight, now: nat): (c: seq<Entry>)
    requires IsGroundStage(from)
  {
    var k := Ordinal(from);
    seq(|GroundStages| - 1 - k, i requires 0 <= i < |GroundStages| - 1 - k =>
      OrdinalOfIndex(k + i);
      Entry(baggage, AllStatuses[k + 1 + i], now + i, Some(StepDetails(AllStatuses[k + i], f))))
  }

  /** The chain from a stage is its first step followed by the chain from the next stage. */
  lemma ChainUnfolds(from: Status, baggage: string, f: Flight, now: nat)
    requires HasNextStage(from)
    ensures Chain(from, baggage, f, now) ==
      [Entry(baggage, NextStage(from), now, Some(StepDetails(from, f)))] + Chain(NextStage(from), baggage, f, now + 1)
  {
    var c, c' := Chain(from, baggage, f, now), Chain(NextStage(from), baggage, f, now + 1);
    ChainHead(from, baggage, f, now);
    ChainTail(from, baggage, f, now);
    assert c == [c[0]] + c[1..];
  }

  /** The first entry of the chain from a stage with a next stage records that next stage. */
  lemma ChainHead(from: Status, baggage: string, f: Flight, now: nat)
    requires HasNextStage(from)
    ensures var c := Chain(from, baggage, f, now);
      |c| > 0 && c[0] == Entry(baggage, NextStage(from), now, Some(StepDetails(from, f)))
  {
    assert AllStatuses[Ordinal(from)] == from;
    assert AllStatuses[Ordinal(NextStage(from))] == NextStage(from);
  }

  /** After its first entry, the chain from a stage is the chain from the next stage, one clock reading on. */
  lemma ChainTail(from: Status, baggage: string, f: Flight, now: nat)
    requires HasNextStage(from)
    ensures var c := Chain(from, baggage, f, now);
      |c| > 0 && c[1..] == Chain(NextStage(from), baggage, f, now + 1)
  {
    var c, c' := Chain(from, baggage, f, now), Chain(NextStage(from), baggage, f, now + 1);
    forall i | 0 <= i < |c'|
      ensures c[i + 1] == c'[i]
    {
    }
    assert c[1..] == c';
  }

  /** One processing step in the expected stage appends its entry and hands over to the next step. */
  lemma ProcessFromStep(pred: Status, r: Record, now: nat)
    requires HasNextStage(pred) && r.status == pred
    ensures var e := Entry(r.baggageNumber, NextStage(pred), now, Some(StepDetails(pred, r.flight)));
      var r1 := r.(status := NextStage(pred), history := r.history + [e]);
      ProcessFrom(pred, r, now) == if HasNextStage(NextStage(pred)) then ProcessFrom(NextStage(pred), r1, now + 1) else r1
  {
  }

  /**
   * One processing step as the store performs it: in the expected stage it
   * records the next stage (never a redundant request) and hands over, in
   * any other status it does nothing.
   */
  lemma ProcessFromOneStep(pred: Status, r: Record, now: nat)
    requires HasNextStage(pred)
    ensures r.status != pred ==> ProcessFrom(pred, r, now) == r
    ensures r.status == pred ==>
      var r1 := RecordStatus(r, NextStage(pred), Some(StepDetails(pred, r.flight)), now);
      && !IsRedundant(r, NextStage(pred), Some(StepDetails(pred, r.flight)))
      && ProcessFrom(pred, r, now) == if HasNextStage(NextStage(pred)) then ProcessFrom(NextStage(pred), r1, now + 1) else r1
  {
  }

  /** Processing that reached `pred` with `r` goes on from the next stage with the record one step on. */
  lemma ProcessFromResumes(start: Record, startClock: nat, pred: Status, r: Record, now: nat, r1: Record, now1: nat)
    requires HasNextStage(pred) && r.status == pred && HasNextStage(NextStage(pred))
    requires StartProcessing(start, startClock) == ProcessFrom(pred, r, now)
    requires r1 == RecordStatus(r, NextStage(pred), Some(StepDetails(pred, r.flight)), now) && now1 == now + 1
    ensures StartProcessing(start, startClock) == ProcessFrom(NextStage(pred), r1, now1)
  {
    ProcessFromOneStep(pred, r, now);
  }

  /**
   * The inductive step of ProcessFromRunsChain: if the steps after `pred`
   * run their chain, so does the step that expects `pred`.
   */
  lemma ProcessFromRunsChainStep(pred: Status, r: Record, now: nat)
    requires HasNextStage(pred) && r.status == pred
    requires var e := Entry(r.baggageNumber, NextStage(pred), now, Some(StepDetails(pred, r.flight)));
      var r1 := r.(status := NextStage(pred), history := r.history + [e]);
      HasNextStage(NextStage(pred)) ==>
        ProcessFrom(NextStage(pred), r1, now + 1) ==
          r1.(status := Loaded, history := r1.history + Chain(NextStage(pred), r.baggageNumber, r.flight, now + 1))
    ensures ProcessFrom(pred, r, now) ==
      r.(status := Loaded, history := r.history + Chain(pred, r.baggageNumber, r.flight, now))
  {
    var next := NextStage(pred);
    var e := Entry(r.baggageNumber, next, now, Some(StepDetails(pred, r.flight)));
    var rest := Chain(next, r.baggageNumber, r.flight, now + 1);
    var r1 := r.(status := next, history := r.history + [e]);
    ProcessFromStep(pred, r, now);
    ChainUnfolds(pred, r.baggageNumber, r.flight, now);
    AppendRegroups(r.history, e, rest);
    if !HasNextStage(next) {
      assert next == Loaded && rest == [];
      assert r1.history + rest == r1.history;
    }
  }

  /** A one-element sequence is the display of its element. */
  lemma Singleton<T>(s: seq<T>)
    requires |s| == 1
    ensures s == [s[0]]
  {
  }

  /** Appending one element and then a run is appending the run with that element in front. */
  lemma AppendRegroups<T>(h: seq<T>, e: T, rest: seq<T>)
    ensures (h + [e]) + rest == h + ([e] + rest)
  {
  }

  /** A processing step in the expected stage runs the whole closed-form chain and stops at LOADED. */
  lemma {:induction false} ProcessFromRunsChain(pred: Status, r: Record, now: nat)
    requires HasNextStage(pred) && r.status == pred
    ensures ProcessFrom(pred, r, now) ==
      r.(status := Loaded, history := r.history + Chain(pred, r.baggageNumber, r.flight, now))
    decreases |GroundStages| - Ordinal(pred)
  {
    var next := NextStage(pred);
    if HasNextStage(next) {
      var e := Entry(r.baggageNumber, next, now, Some(StepDetails(pred, r.flight)));
      ProcessFromRunsChain(next, r.(status := next, history := r.history + [e]), now + 1);
    }
    ProcessFromRunsChainStep(pred, r, now);
  }

  /**
   * startBaggageProcessing in full: from one of the four stages with an
   * automated step it appends the rest of the chain and ends at LOADED; from
   * any other status (held, past ground handling, lost, damaged, misrouted)
   * it changes nothing.
   */
  lemma StartProcessingOutcome(r: Record, now: nat)
    ensures HasNextStage(r.status) ==>
      StartProcessing(r, now) == r.(status := Loaded, history := r.history + Chain(r.status, r.baggageNumber, r.flight, now))
    ensures !HasNextStage(r.status) ==> StartProcessing(r, now) == r
    ensures !HasNextStage(r.status) <==>
      r.status in {HeldForInspection, Loaded, Transit, Arrived, Delivered, Lost, Damaged, Misrouted}
  {
    if HasNextStage(r.status) {
      ProcessFromRunsChain(r.status, r, now);
    }
  }

  /**
   * The chain only moves forward: entry `i` is the ground stage `i + 1`
   * places after `from`, stamped `now + i`, so a chain has at most four
   * entries, never skips or repeats a stage, and a non-empty chain ends at LOADED.
   */
  lemma ChainMovesForward(from: Status, baggage: string, f: Flight, now: nat)
    requires IsGroundStage(from)
    ensures var c := Chain(from, baggage, f, now);
      && |c| == |GroundStages| - 1 - Ordinal(from) <= 4
      && (forall i | 0 <= i < |c| ::
            && IsGroundStage(c[i].status)
            && Ordinal(c[i].status) == Ordinal(from) + 1 + i
            && c[i].baggage == baggage
            && c[i].timestamp == now + i)
      && (|c| > 0 ==> c[|c| - 1].status == Loaded)
  {
    var c := Chain(from, baggage, f, now);
    forall i | 0 <= i < |c|
      ensures IsGroundStage(c[i].status) && Ordinal(c[i].status) == Ordinal(from) + 1 + i
    {
      OrdinalOfIndex(Ordinal(from) + 1 + i);
    }
  }

  /** The chain from DROPPED_OFF: four entries, with the flight number in the sorting and loading details. */
  lemma ChainFromDroppedOff(baggage: string, f: Flight, now: nat)
    ensures Chain(DroppedOff, baggage, f, now) == [
      Entry(baggage, SecurityCleared, now, Some("Cleared by X-ray scan.")),
      Entry(baggage, Sorted, now + 1, Some("Sorted to Gate " + f.flightNumber + " conveyor.")),
      Entry(baggage, CbrReady, now + 2, Some("Ready for Container/Cart/Bag Loading.")),
      Entry(baggage, Loaded, now + 3, Some("Loaded onto Flight " + f.flightNumber))]
  {
    var c := Chain(DroppedOff, baggage, f, now);
    assert |c| == 4 && Ordinal(DroppedOff) == 0;
    assert AllStatuses[0] == DroppedOff && AllStatuses[1] == SecurityCleared && AllStatuses[2] == Sorted;
    assert AllStatuses[3] == CbrReady && AllStatuses[4] == Loaded;
    assert c[0] == Entry(baggage, SecurityCleared, now, Some(StepDetails(DroppedOff, f)));
    assert c[1] == Entry(baggage, Sorted, now + 1, Some(StepDetails(SecurityCleared, f)));
    assert c[2] == Entry(baggage, CbrReady, now + 2, Some(StepDetails(Sorted, f)));
    assert c[3] == Entry(baggage, Loaded, now + 3, Some(StepDetails(CbrReady, f)));
  }

  /** DROPPED_OFF followed by the chain from it runs through the five ground stages in order. */
  lemma GroundRunStatuses(first: Entry, baggage: string, f: Flight, now: nat)
    requires first.status == DroppedOff
    ensures var s := [first] + Chain(DroppedOff, baggage, f, now);
      |s| == 5 && Statuses(s) == GroundStages
  {
    ChainFromDroppedOff(baggage, f, now);
    var ss := Statuses([first] + Chain(DroppedOff, baggage, f, now));
    assert |ss| == 5;
    forall i | 0 <= i < 5
      ensures ss[i] == GroundStages[i]
    {
    }
  }

  /** In that run the sorting and the loading entry name the flight. */
  lemma GroundRunDetails(first: Entry, baggage: string, f: Flight, now: nat)
    ensures var s := [first] + Chain(DroppedOff, baggage, f, now);
      && |s| == 5
      && s[2].details == Some("Sorted to Gate " + f.flightNumber + " conveyor.")
      && s[4].details == Some("Loaded onto Flight " + f.flightNumber)
  {
    ChainFromDroppedOff(baggage, f, now);
  }

  /**
   * A freshly dropped-off record, processed right after creation, ends at
   * LOADED with exactly the five ground stages in its history.
   */
  lemma {:induction false} NewBaggageIsLoaded(r: Record, now: nat)
    requires r.status == DroppedOff && |r.history| == 1 && r.history[0].status == DroppedOff
    ensures var r' := StartProcessing(r, now);
      && r'.status == Loaded
      && Statuses(r'.history) == GroundStages
      && r'.history[2].details == Some("Sorted to Gate " + r.flight.flightNumber + " conveyor.")
      && r'.history[4].details == Some("Loaded onto Flight " + r.flight.flightNumber)
      && SameFixedFields(r, r')
  {
    ProcessFromRunsChain(DroppedOff, r, now);
    GroundRunStatuses(r.history[0], r.baggageNumber, r.flight, now);
    GroundRunDetails(r.history[0], r.baggageNumber, r.flight, now);
    Singleton(r.history);
  }

  /** Processing keeps the ledger invariant, advancing the clock by one per new entry. */
  lemma {:induction false} ProcessingKeepsConsistent(r: Record, now: nat)
    requires Consistent(r, now)
    ensures var r' := StartProcessing(r, now);
      Consistent(r', now + |r'.history| - |r.history|)
  {
    StartProcessingOutcome(r, now);
    if HasNextStage(r.status) {
      ChainMovesForward(r.status, r.baggageNumber, r.flight, now);
      LedgerExtend(r.baggageNumber, r.history, now, Chain(r.status, r.baggageNumber, r.flight, now));
    }
  }

  /**
   * setBaggageHoldStatus on a known record.  Holding appends one
   * HELD_FOR_INSPECTION entry unless already held; releasing a held item
   * appends DROPPED_OFF and restarts processing from the first stage.
   */
  function SetHold(r: Record, hold: bool, now: nat): (r': Record)
    ensures SameFixedFields(r, r')
    ensures |r.history| <= |r'.history| && r'.history[..|r.history|] == r.history
  {
    if hold then
      if r.status == HeldForInspection then r
      else RecordStatus(r, HeldForInspection, Some(HoldNote), now)
    else
      if r.status != HeldForInspection then r
      else StartProcessing(RecordStatus(r, DroppedOff, Some(ReleaseNote), now), now + 1)
  }

  /** The three ways a hold request goes: nothing to do, one held entry, or a release and a restart. */
  lemma SetHoldSteps(r: Record, hold: bool, now: nat)
    ensures hold && r.status != HeldForInspection ==>
      && !IsRedundant(r, HeldForInspection, Some(HoldNote))
      && SetHold(r, hold, now) == RecordStatus(r, HeldForInspection, Some(HoldNote), now)
    ensures !hold && r.status == HeldForInspection ==>
      && !IsRedundant(r, DroppedOff, Some(ReleaseNote))
      && SetHold(r, hold, now) == StartProcessing(RecordStatus(r, DroppedOff, Some(ReleaseNote), now), now + 1)
    ensures (hold <==> r.status == HeldForInspection) ==> SetHold(r, hold, now) == r
  {
  }

  /** A release records DROPPED_OFF, which is never redundant, and then processes from the next clock reading. */
  lemma ReleaseRecordsThenProcesses(r: Record, now: nat, released: nat)
    requires r.status == HeldForInspection && released == now + 1
    ensures !IsRedundant(r, DroppedOff, Some(ReleaseNote))
    ensures SetHold(r, false, now) == StartProcessing(RecordStatus(r, DroppedOff, Some(ReleaseNote), now), released)
  {
    SetHoldSteps(r, false, now);
  }

  /** Holding a record that is not held appends exactly one entry, from any stage, and processing then stays put. */
  lemma HoldAppendsOneEntry(r: Record, now: nat, later: nat)
    requires r.status != HeldForInspection
    ensures SetHold(r, true, now) ==
      r.(status := HeldForInspection, history := r.history + [Entry(r.baggageNumber, HeldForInspection, now, Some(HoldNote))])
    ensures StartProcessing(SetHold(r, true, now), later) == SetHold(r, true, now)
  {
    StartProcessingOutcome(SetHold(r, true, now), later);
  }

  /** A held record is frozen: processing leaves it unchanged, and holding it again is a no-op. */
  lemma HeldIsFrozen(r: Record, now: nat)
    requires r.status == HeldForInspection
    ensures StartProcessing(r, now) == r
    ensures SetHold(r, true, now) == r
  {
    StartProcessingOutcome(r, now);
  }

  /** Releasing a record that is not held is a no-op. */
  lemma ReleaseNeedsHold(r: Record, now: nat)
    requires r.status != HeldForInspection
    ensures SetHold(r, false, now) == r
  {
  }

  /**
   * Releasing a held record appends DROPPED_OFF and the whole chain again:
   * five new entries ending at LOADED, whatever stage the item had reached.
   */
  lemma {:induction false} ReleaseRestartsChain(r: Record, now: nat)
    requires r.status == HeldForInspection
    ensures var e := Entry(r.baggageNumber, DroppedOff, now, Some(ReleaseNote));
      SetHold(r, false, now) ==
        r.(status := Loaded, history := r.history + [e] + Chain(DroppedOff, r.baggageNumber, r.flight, now + 1))
  {
    var e := Entry(r.baggageNumber, DroppedOff, now, Some(ReleaseNote));
    StartProcessingOutcome(r.(status := DroppedOff, history := r.history + [e]), now + 1);
  }

  /** So a release appends five entries, the ground stages in order, whatever stage the item had reached. */
  lemma {:induction false} ReleaseAppendsGroundStages(r: Record, now: nat)
    requires r.status == HeldForInspection
    ensures var r' := SetHold(r, false, now);
      && r'.status == Loaded
      && |r'.history| == |r.history| + 5
      && r'.history[|r.history|] == Entry(r.baggageNumber, DroppedOff, now, Some(ReleaseNote))
      && Statuses(r'.history[|r.history|..]) == GroundStages
  {
    var e := Entry(r.baggageNumber, DroppedOff, now, Some(ReleaseNote));
    var c := Chain(DroppedOff, r.baggageNumber, r.flight, now + 1);
    ReleaseRestartsChain(r, now);
    GroundRunStatuses(e, r.baggageNumber, r.flight, now + 1);
    AppendedRun(r, SetHold(r, false, now), e, c);
  }

  /** A record that gained a run of entries ends with exactly that run. */
  lemma AppendedRun(r: Record, r': Record, e: Entry, c: seq<Entry>)
    requires r'.history == r.history + [e] + c
    ensures |r'.history| == |r.history| + 1 + |c| && r'.history[|r.history|] == e
    ensures r'.history[|r.history|..] == [e] + c
  {
  }

  /** A manual update always appends one entry, since its details are not blank, and never chains further. */
  lemma ManualUpdateAlwaysAppends(r: Record, s: Status, now: nat)
    ensures RecordStatus(r, s, Some(ManualUpdateNote), now) ==
      r.(status := s, history := r.history + [Entry(r.baggageNumber, s, now, Some(ManualUpdateNote))])
  {
  }

  /** recordBaggageStatus leaves the record unchanged exactly when the request is redundant. */
  lemma RecordStatusSkipsOnlyRedundant(r: Record, s: Status, details: Option<string>, now: nat)
    ensures RecordStatus(r, s, details, now) == r <==> IsRedundant(r, s, details)
  {
  }
}
