/** FIFO accounting over all batches of one derivation window: the shared counter neither loses nor
    invents a consumption. */
module WindowConsumption {
  import opened Collections
  import opened MachineInts
  import opened Timestamps
  import opened CrossChain
  import opened Consumption
  import opened Derivation

  function EntriesOf(log: BatchLog): seq<Entry> {
    if log.posted.Some? then log.posted.value.entries else []
  }

  /** All entries posted in a window, in L1 order. */
  function AllEntries(logs: seq<BatchLog>): seq<Entry> {
    if logs == [] then [] else EntriesOf(logs[0]) + AllEntries(logs[1..])
  }

  lemma {:induction false} AllEntriesUpTo(logs: seq<BatchLog>, j: nat)
    requires j < |logs|
    ensures AllEntries(logs[..j + 1]) == AllEntries(logs[..j]) + EntriesOf(logs[j])
  {
    if j == 0 {
      assert logs[..1][1..] == [] && logs[..0] == [];
      assert EntriesOf(logs[0]) + [] == [] + EntriesOf(logs[0]);
    } else {
      AllEntriesUpTo(logs[1..], j - 1);
      assert logs[..j + 1][1..] == logs[1..][..j] && logs[..j][1..] == logs[1..][..j - 1];
      AppendAssociates(EntriesOf(logs[0]), AllEntries(logs[1..][..j - 1]), EntriesOf(logs[j]));
    }
  }

  /** What the window accepts, batch after batch, from the counter each batch finds. */
  function AcceptedIn(logs: seq<BatchLog>, remaining: Counts): seq<Entry> {
    if logs == [] then [] else
      Selected(EntriesOf(logs[0]), remaining) + AcceptedIn(logs[1..], Drain(remaining, EntriesOf(logs[0])))
  }

  lemma DrainNothing(counts: Counts)
    ensures Drain(counts, []) == counts
  {
  }

  lemma {:induction false} BlocksLeaveCounter(
      cfg: RollupConfig, st: PipelineState, ctx: BatchContext, b: Batch, i: nat, p: Progress)
    requires ProcessBlocks(cfg, st, ctx, b, i, p).Ok?
    ensures ProcessBlocks(cfg, st, ctx, b, i, p).value.remaining == p.remaining
    decreases |b.blockNumbers| - i
  {
    if i < |b.blockNumbers| && i < |b.blockTxs| {
      BlocksLeaveCounter(cfg, st, ctx, b, i + 1,
                         ProcessBlock(cfg, st, ctx, i, b.blockNumbers[i], b.blockTxs[i], p).value);
    }
  }

  lemma LogDrainsCounter(
      cfg: RollupConfig, st: PipelineState, view: L1View, actions: seq<Action>, log: BatchLog, p: Progress)
    requires ProcessLog(cfg, st, view, actions, log, p).Ok?
    ensures ProcessLog(cfg, st, view, actions, log, p).value.remaining == Drain(p.remaining, EntriesOf(log))
  {
    DrainNothing(p.remaining);
    if log.posted.Some? {
      var b := log.posted.value;
      var ctx := ContextOf(cfg, actions, log.l1Block, view.headers[log.l1Block], b, p.remaining);
      BlocksLeaveCounter(cfg, st, ctx, b, 0, p.(remaining := Drain(p.remaining, b.entries)));
    }
  }

  /** The loop's counter is the window's consumed counts drained by everything posted so far. */
  lemma {:induction false} LogsDrainCounter(
      cfg: RollupConfig, st: PipelineState, view: L1View, actions: seq<Action>, logs: seq<BatchLog>, p: Progress)
    requires ProcessLogs(cfg, st, view, actions, logs, p).Ok?
    ensures ProcessLogs(cfg, st, view, actions, logs, p).value.remaining == Drain(p.remaining, AllEntries(logs))
  {
    DrainNothing(p.remaining);
    if logs != [] {
      LogDrainsCounter(cfg, st, view, actions, logs[0], p);
      LogsDrainCounter(cfg, st, view, actions, logs[1..], ProcessLog(cfg, st, view, actions, logs[0], p).value);
      DrainCompose(p.remaining, EntriesOf(logs[0]), AllEntries(logs[1..]));
    }
  }

  /** Batch-wise acceptance with the shared counter is acceptance over the concatenation. */
  lemma {:induction false} AcceptedInIsSelected(logs: seq<BatchLog>, remaining: Counts)
    ensures AcceptedIn(logs, remaining) == Selected(AllEntries(logs), remaining)
  {
    if logs != [] {
      AcceptedInIsSelected(logs[1..], Drain(remaining, EntriesOf(logs[0])));
      SelectedAppend(EntriesOf(logs[0]), AllEntries(logs[1..]), remaining);
    }
  }

  function EventsWith(events: seq<ConsumedEvent>, h: ActionHash): nat {
    if events == [] then 0 else (if events[0].actionHash == h then 1 else 0) + EventsWith(events[1..], h)
  }

  lemma {:induction false} CountsAreEvents(events: seq<ConsumedEvent>, h: ActionHash)
    ensures Avail(ConsumedCounts(events), h) == EventsWith(events, h)
  {
    if events != [] {
      CountsAreEvents(events[1..], h);
    }
  }

  // ---- Which events and logs a window holds ----

  /** A window keeps the order of the events: cutting the chain's events anywhere cuts the window's. */
  lemma {:induction false} EventsInAppend(a: seq<ConsumedEvent>, b: seq<ConsumedEvent>, from: U64, to: U64)
    ensures EventsIn(a + b, from, to) == EventsIn(a, from, to) + EventsIn(b, from, to)
  {
    if a == [] {
      assert a + b == b;
    } else {
      EventsInAppend(a[1..], b, from, to);
      assert (a + b)[1..] == a[1..] + b;
      AppendAssociates([a[0]], EventsIn(a[1..], from, to), EventsIn(b, from, to));
    }
  }

  /** A window holds each event in its range, both ends included, exactly as often as L1 emitted it. */
  lemma {:induction false} WindowHoldsEvents(events: seq<ConsumedEvent>, from: U64, to: U64, e: ConsumedEvent)
    ensures multiset(EventsIn(events, from, to))[e] == if from <= e.l1Block <= to then multiset(events)[e] else 0
  {
    if events != [] {
      WindowHoldsEvents(events[1..], from, to, e);
      assert events == [events[0]] + events[1..];
    }
  }

  /** The positions of the events with hash `h` in the L1 blocks after `lo` up to `hi`. */
  function EventsAt(events: seq<ConsumedEvent>, lo: int, hi: int, h: ActionHash): set<nat> {
    set i: nat | i < |events| && lo < events[i].l1Block <= hi && events[i].actionHash == h
  }

  lemma EventsAtSnoc(events: seq<ConsumedEvent>, lo: int, hi: int, h: ActionHash)
    requires events != []
    ensures var n := |events| - 1;
            |EventsAt(events, lo, hi, h)| ==
            |EventsAt(events[..n], lo, hi, h)|
            + if lo < events[n].l1Block <= hi && events[n].actionHash == h then 1 else 0
  {
    var n := |events| - 1;
    var all, prior := EventsAt(events, lo, hi, h), EventsAt(events[..n], lo, hi, h);
    forall i: nat
      ensures i in all <==> i in prior || (i == n && lo < events[n].l1Block <= hi && events[n].actionHash == h)
    {
    }
    OneMoreOrSame(prior, all, n);
  }

  lemma {:induction false} EventsWithAppend(a: seq<ConsumedEvent>, b: seq<ConsumedEvent>, h: ActionHash)
    ensures EventsWith(a + b, h) == EventsWith(a, h) + EventsWith(b, h)
  {
    if a == [] {
      assert a + b == b;
    } else {
      EventsWithAppend(a[1..], b, h);
      assert (a + b)[1..] == a[1..] + b;
    }
  }

  lemma {:induction false} EventsWithAreAt(events: seq<ConsumedEvent>, from: U64, to: U64, h: ActionHash)
    ensures EventsWith(EventsIn(events, from, to), h) == |EventsAt(events, from - 1, to, h)|
  {
    if events != [] {
      var n := |events| - 1;
      EventsWithAreAt(events[..n], from, to, h);
      EventsAtSnoc(events, from - 1, to, h);
      EventsInAppend(events[..n], [events[n]], from, to);
      assert events[..n] + [events[n]] == events;
      EventsInOne(events[n], from, to);
      EventsWithAppend(EventsIn(events[..n], from, to), EventsIn([events[n]], from, to), h);
      EventsWithOne(events[n], h);
    } else {
      assert EventsAt(events, from - 1, to, h) == {};
    }
  }

  lemma EventsInOne(e: ConsumedEvent, from: U64, to: U64)
    ensures EventsIn([e], from, to) == if from <= e.l1Block <= to then [e] else []
  {
    assert [e][1..] == [] && EventsIn([], from, to) == [];
  }

  lemma EventsWithOne(e: ConsumedEvent, h: ActionHash)
    ensures EventsWith([e], h) == if e.actionHash == h then 1 else 0
  {
    assert [e][1..] == [] && EventsWith([], h) == 0;
  }

  /** And that of the batches. */
  lemma {:induction false} LogsInAppend(a: seq<BatchLog>, b: seq<BatchLog>, from: U64, to: U64)
    ensures LogsIn(a + b, from, to) == LogsIn(a, from, to) + LogsIn(b, from, to)
  {
    if a == [] {
      assert a + b == b;
    } else {
      LogsInAppend(a[1..], b, from, to);
      assert (a + b)[1..] == a[1..] + b;
      AppendAssociates([a[0]], LogsIn(a[1..], from, to), LogsIn(b, from, to));
    }
  }

  /** And each posted batch. */
  lemma {:induction false} WindowHoldsLogs(logs: seq<BatchLog>, from: U64, to: U64, log: BatchLog)
    ensures multiset(LogsIn(logs, from, to))[log] == if from <= log.l1Block <= to then multiset(logs)[log] else 0
  {
    if logs != [] {
      WindowHoldsLogs(logs[1..], from, to, log);
      assert logs == [logs[0]] + logs[1..];
    }
  }

  // ---- Conservation over a window ----

  /** The consumption counts of the L1 blocks after `lo` up to `hi`, read off the chain's events. */
  function CountsBetween(events: seq<ConsumedEvent>, lo: int, hi: int): Counts {
    var hashes := set i: nat | i < |events| && lo < events[i].l1Block <= hi :: events[i].actionHash;
    map h | h in hashes :: |EventsAt(events, lo, hi, h)|
  }

  lemma {:induction false} CountedIffSeen(events: seq<ConsumedEvent>, h: ActionHash)
    ensures h in ConsumedCounts(events) <==> Avail(ConsumedCounts(events), h) > 0
  {
    if events != [] {
      CountedIffSeen(events[1..], h);
    }
  }

  lemma CountIsPositive(events: seq<ConsumedEvent>, lo: int, hi: int, h: ActionHash)
    ensures h in CountsBetween(events, lo, hi) <==> |EventsAt(events, lo, hi, h)| > 0
    ensures Avail(CountsBetween(events, lo, hi), h) == |EventsAt(events, lo, hi, h)|
  {
    var at := EventsAt(events, lo, hi, h);
    if at != {} {
      var i :| i in at;
      assert events[i].actionHash == h;
      assert |at| > 0;
    }
    if h in CountsBetween(events, lo, hi) {
      var i: nat :| i < |events| && lo < events[i].l1Block <= hi && events[i].actionHash == h;
      assert i in at;
    }
  }

  lemma CountsInAreBetween(events: seq<ConsumedEvent>, from: U64, to: U64)
    ensures ConsumedCounts(EventsIn(events, from, to)) == CountsBetween(events, from - 1, to)
  {
    var a, b := ConsumedCounts(EventsIn(events, from, to)), CountsBetween(events, from - 1, to);
    forall h
      ensures h in a <==> h in b
      ensures Avail(a, h) == Avail(b, h)
    {
      CountsAreEvents(EventsIn(events, from, to), h);
      EventsWithAreAt(events, from, to, h);
      CountedIffSeen(EventsIn(events, from, to), h);
      CountIsPositive(events, from - 1, to, h);
    }
    assert forall h :: h in a ==> a[h] == Avail(a, h);
    assert forall h :: h in b ==> b[h] == Avail(b, h);
  }

  /** What a window starts from: the logs and the consumption counts of at most 2000 L1 blocks, from
      the one after the last processed; no counts when no contract address is configured. */
  lemma WindowReads(cfg: RollupConfig, st: PipelineState, latest: U64, view: L1View)
    requires st.lastProcessed < latest
    ensures var last := Min(latest, st.lastProcessed + 2000);
            && WindowStart(st) == st.lastProcessed + 1 && WindowEnd(st, latest) == last
            && ConsumedCounts(WindowEvents(cfg, st, latest, view)) ==
               if cfg.rollupsAddressSet then CountsBetween(view.events, st.lastProcessed, last) else map[]
  {
    CountsInAreBetween(view.events, WindowStart(st), WindowEnd(st, latest));
  }

  /** Conservation from any counts: the accepted entries of each hash are its first
      `min(posted, count)` ones, and accepted plus remaining is the count. */
  lemma LogsConserve(
      cfg: RollupConfig, st: PipelineState, view: L1View, actions: seq<Action>, logs: seq<BatchLog>, p: Progress,
      h: ActionHash)
    requires ProcessLogs(cfg, st, view, actions, logs, p).Ok?
    ensures var posted := WithHash(AllEntries(logs), h);
            var taken := WithHash(AcceptedIn(logs, p.remaining), h);
            && taken == posted[..Min(|posted|, Avail(p.remaining, h))]
            && |taken| + Avail(ProcessLogs(cfg, st, view, actions, logs, p).value.remaining, h) == Avail(p.remaining, h)
  {
    LogsDrainCounter(cfg, st, view, actions, logs, p);
    AcceptedInIsSelected(logs, p.remaining);
    FifoConservation(AllEntries(logs), p.remaining, h);
  }

  /** Over a whole window, for every hash: with `consumed` the number of its events in the window's L1
      blocks, the accepted entries are the first `min(posted, consumed)` posted ones in L1 order, and
      accepted plus remaining is `consumed`. */
  lemma WindowConservation(cfg: RollupConfig, st: PipelineState, latest: U64, view: L1View, h: ActionHash)
    requires st.lastProcessed < latest
    requires WindowProgress(cfg, st, latest, view).Ok?
    ensures var last := Min(latest, st.lastProcessed + 2000);
            var counts := if cfg.rollupsAddressSet then CountsBetween(view.events, st.lastProcessed, last) else map[];
            var consumed := if cfg.rollupsAddressSet then |EventsAt(view.events, st.lastProcessed, last, h)| else 0;
            var logs := LogsIn(view.logs, st.lastProcessed + 1, last);
            var posted := WithHash(AllEntries(logs), h);
            var taken := WithHash(AcceptedIn(logs, counts), h);
            && taken == posted[..Min(|posted|, consumed)]
            && |taken| + Avail(WindowProgress(cfg, st, latest, view).value.remaining, h) == consumed
  {
    var events := WindowEvents(cfg, st, latest, view);
    var logs := LogsIn(view.logs, WindowStart(st), WindowEnd(st, latest));
    WindowReads(cfg, st, latest, view);
    LogsConserve(cfg, st, view, ConsumedActions(events), logs, StartProgress(st, events), h);
    CountIsPositive(view.events, st.lastProcessed, WindowEnd(st, latest), h);
  }
}
