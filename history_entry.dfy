/**
 * One entry of a baggage item's history ledger (BaggageHistoryEntry.java).
 * Entries are never changed once created, so an entry is a value.  The
 * back-reference to the owning baggage is its tracking number, the key the
 * store uses; the timestamp is a reading of a monotonic clock.
 */
module HistoryEntries {
  import opened Options
  import opened BaggageStatuses

  datatype Entry = Entry(baggage: string, status: Status, timestamp: nat, details: Option<string>)

  /** Details that are absent (null) or empty: recording such a status change carries no information. */
  predicate Blank(details: Option<string>) {
    details.None? || details.value == ""
  }

  /** The statuses of a ledger, in ledger order. */
  function Statuses(h: seq<Entry>): (ss: seq<Status>)
    ensures |ss| == |h|
    ensures forall i | 0 <= i < |h| :: ss[i] == h[i].status
  {
    if h == [] then [] else [h[0].status] + Statuses(h[1..])
  }

  /** Entries later in the ledger carry later timestamps. */
  ghost predicate StrictlyAscending(h: seq<Entry>) {
    forall i, j | 0 <= i < j < |h| :: h[i].timestamp < h[j].timestamp
  }

  /**
   * A well-kept ledger for the baggage with tracking number `baggage`: read
   * from the end, every entry refers back to it and was stamped before the
   * entry after it, and the last one before the clock reading `clock`.
   */
  ghost predicate Ledger(baggage: string, h: seq<Entry>, clock: nat)
    decreases |h|
  {
    |h| == 0 ||
      var last := h[|h| - 1];
      && last.baggage == baggage
      && last.timestamp < clock
      && Ledger(baggage, h[..|h| - 1], last.timestamp)
  }

  /**
   * In a well-kept ledger every entry refers back to its baggage, precedes
   * the clock, and timestamps are strictly ascending, so reading the ledger
   * back ordered by timestamp gives insertion order.
   */
  lemma {:induction false} LedgerIsOrdered(baggage: string, h: seq<Entry>, clock: nat)
    requires Ledger(baggage, h, clock)
    ensures StrictlyAscending(h)
    ensures forall i | 0 <= i < |h| :: h[i].timestamp < clock && h[i].baggage == baggage
    decreases |h|
  {
    if |h| > 0 {
      var front := h[..|h| - 1];
      LedgerIsOrdered(baggage, front, h[|h| - 1].timestamp);
      assert forall i | 0 <= i < |front| :: front[i] == h[i];
    }
  }

  /** Appending an entry stamped at the current clock reading keeps a ledger well kept. */
  lemma LedgerAppend(baggage: string, h: seq<Entry>, clock: nat, e: Entry)
    requires e.baggage == baggage && e.timestamp == clock
    ensures Ledger(baggage, h, clock) ==> Ledger(baggage, h + [e], clock + 1)
  {
    var h' := h + [e];
    assert h'[..|h'| - 1] == h && h'[|h'| - 1] == e;
    if Ledger(baggage, h, clock) {
      assert Ledger(baggage, h'[..|h'| - 1], e.timestamp);
    }
  }

  /** Appending entries stamped with consecutive clock readings keeps a ledger well kept. */
  lemma {:induction false} LedgerExtend(baggage: string, h: seq<Entry>, clock: nat, c: seq<Entry>)
    requires Ledger(baggage, h, clock)
    requires forall i | 0 <= i < |c| :: c[i].baggage == baggage && c[i].timestamp == clock + i
    ensures Ledger(baggage, h + c, clock + |c|)
    decreases |c|
  {
    if |c| > 0 {
      var front := c[..|c| - 1];
      LedgerExtend(baggage, h, clock, front);
      assert h + c == (h + front) + [c[|c| - 1]];
      LedgerAppend(baggage, h + front, clock + |front|, c[|c| - 1]);
    } else {
      assert h + c == h;
    }
  }

  /**
   * The ledger with every back-reference pointing at `baggage`: an entry holds
   * its baggage object, so renaming the baggage renames what every entry
   * refers back to.
   */
  function Restamp(h: seq<Entry>, baggage: string): (h': seq<Entry>)
    ensures |h'| == |h| && Statuses(h') == Statuses(h)
    ensures forall i | 0 <= i < |h| ::
      h'[i].baggage == baggage && h'[i].timestamp == h[i].timestamp && h'[i].details == h[i].details
  {
    seq(|h|, i requires 0 <= i < |h| => h[i].(baggage := baggage))
  }

  /** A well-kept ledger, re-pointed at another tracking number, is well kept for that number. */
  lemma {:induction false} LedgerRestamp(from: string, h: seq<Entry>, clock: nat, baggage: string)
    requires Ledger(from, h, clock)
    ensures Ledger(baggage, Restamp(h, baggage), clock)
    decreases |h|
  {
    if |h| > 0 {
      var front := h[..|h| - 1];
      var h', front' := Restamp(h, baggage), Restamp(front, baggage);
      LedgerRestamp(from, front, h[|h| - 1].timestamp, baggage);
      assert forall i | 0 <= i < |front| :: h'[i] == front'[i];
      assert h'[..|h| - 1] == front';
    }
  }

  /** A ledger well kept up to one clock reading is well kept up to any later one. */
  lemma LedgerLater(baggage: string, h: seq<Entry>, clock: nat, later: nat)
    requires Ledger(baggage, h, clock) && clock <= later
    ensures Ledger(baggage, h, later)
  {
  }
}
