/** The cursor over whole runs: what every reachable state keeps, and recovery from L1 reorgs. */
module CursorRuns {
  import opened Wrappers
  import opened MachineInts
  import opened Timestamps
  import opened CrossChain
  import opened Consumption
  import opened StableOrder
  import opened Derivation
  import opened Contiguity
  import opened Provenance

  // ---- Runs ----

  /** L1 may look different at every derivation. */
  datatype Op =
    | DeriveAndCommit(latest: U64, view: L1View)
    | Rollback(l1Block: U64)
    | Prune(finalized: U64)

  function Step(cfg: RollupConfig, st: PipelineState, op: Op): PipelineState {
    match op
    case DeriveAndCommit(latest, view) =>
      var r := Derived(cfg, st, latest, view);
      if r.Ok? then Committed(st, r.value) else st
    case Rollback(b) => RolledBack(st, b)
    case Prune(f) => Pruned(st, f)
  }

  function Run(cfg: RollupConfig, ops: seq<Op>): PipelineState {
    if ops == [] then Initial(cfg) else Step(cfg, Run(cfg, ops[..|ops| - 1]), ops[|ops| - 1])
  }

  /** The cursor is strictly increasing in L2 number, bounded by the derived head, by the processed
      L1 block and in length, and execution never runs ahead of processing. */
  ghost predicate Sound(st: PipelineState) {
    && StrictlyIncreasing(st.cursor, MetaKey)
    && (forall i :: 0 <= i < |st.cursor| ==> st.cursor[i].l2Number <= st.lastDerived)
    && L1Within(st.cursor, 0, st.lastProcessed)
    && |st.cursor| <= 2 * REORG_CHECK_DEPTH
    && st.lastExecution <= st.lastProcessed
  }

  ghost predicate L1Within(cursor: seq<BlockMeta>, lo: int, hi: int) {
    forall i :: 0 <= i < |cursor| ==> lo <= cursor[i].l1Number <= hi
  }

  /** Rolling back keeps exactly the entries at or below the block, pruning exactly those above. */
  lemma {:induction false} KeptMembers(cursor: seq<BlockMeta>, l1Block: U64, m: BlockMeta)
    ensures m in UpTo(cursor, l1Block) <==> m in cursor && m.l1Number <= l1Block
    ensures m in After(cursor, l1Block) <==> m in cursor && m.l1Number > l1Block
  {
    if cursor != [] {
      var n := |cursor| - 1;
      KeptMembers(cursor[..n], l1Block, m);
      assert m in cursor <==> m in cursor[..n] || m == cursor[n];
    }
  }

  lemma {:induction false} UpToMember(cursor: seq<BlockMeta>, b: U64, i: nat) returns (j: nat)
    requires i < |UpTo(cursor, b)|
    ensures j < |cursor| && cursor[j] == UpTo(cursor, b)[i] && cursor[j].l1Number <= b
  {
    var n := |cursor| - 1;
    if i < |UpTo(cursor[..n], b)| {
      j := UpToMember(cursor[..n], b, i);
    } else {
      j := n;
    }
  }

  lemma {:induction false} AfterMember(cursor: seq<BlockMeta>, b: U64, i: nat) returns (j: nat)
    requires i < |After(cursor, b)|
    ensures j < |cursor| && cursor[j] == After(cursor, b)[i] && cursor[j].l1Number > b
  {
    var n := |cursor| - 1;
    if i < |After(cursor[..n], b)| {
      j := AfterMember(cursor[..n], b, i);
    } else {
      j := n;
    }
  }

  lemma StrictSnoc(s: seq<BlockMeta>, m: BlockMeta)
    requires StrictlyIncreasing(s, MetaKey)
    requires forall i :: 0 <= i < |s| ==> MetaKey(s[i]) < MetaKey(m)
    ensures StrictlyIncreasing(s + [m], MetaKey)
  {
  }

  lemma {:induction false} UpToStrict(cursor: seq<BlockMeta>, b: U64)
    requires StrictlyIncreasing(cursor, MetaKey)
    ensures StrictlyIncreasing(UpTo(cursor, b), MetaKey)
    ensures |UpTo(cursor, b)| <= |cursor|
  {
    if cursor != [] {
      var n := |cursor| - 1;
      UpToStrict(cursor[..n], b);
      forall i | 0 <= i < |UpTo(cursor[..n], b)|
        ensures MetaKey(UpTo(cursor[..n], b)[i]) < MetaKey(cursor[n])
      {
        var j := UpToMember(cursor[..n], b, i);
      }
      StrictSnoc(UpTo(cursor[..n], b), cursor[n]);
    }
  }

  lemma {:induction false} AfterStrict(cursor: seq<BlockMeta>, b: U64)
    requires StrictlyIncreasing(cursor, MetaKey)
    ensures StrictlyIncreasing(After(cursor, b), MetaKey)
    ensures |After(cursor, b)| <= |cursor|
  {
    if cursor != [] {
      var n := |cursor| - 1;
      AfterStrict(cursor[..n], b);
      forall i | 0 <= i < |After(cursor[..n], b)|
        ensures MetaKey(After(cursor[..n], b)[i]) < MetaKey(cursor[n])
      {
        var j := AfterMember(cursor[..n], b, i);
      }
      StrictSnoc(After(cursor[..n], b), cursor[n]);
    }
  }

  // ---- New cursor entries lie inside the window ----

  lemma {:induction false} BlocksStayInWindow(
      cfg: RollupConfig, st: PipelineState, ctx: BatchContext, b: Batch, i: nat, p: Progress, lo: int, hi: int)
    requires L1Within(p.metas, lo, hi) && lo <= ctx.l1Block <= hi
    requires ProcessBlocks(cfg, st, ctx, b, i, p).Ok?
    ensures L1Within(ProcessBlocks(cfg, st, ctx, b, i, p).value.metas, lo, hi)
    decreases |b.blockNumbers| - i
  {
    if i < |b.blockNumbers| && i < |b.blockTxs| {
      BlocksStayInWindow(cfg, st, ctx, b, i + 1,
                         ProcessBlock(cfg, st, ctx, i, b.blockNumbers[i], b.blockTxs[i], p).value, lo, hi);
    }
  }

  lemma {:induction false} LogsStayInWindow(
      cfg: RollupConfig, st: PipelineState, view: L1View, actions: seq<Action>, logs: seq<BatchLog>, p: Progress,
      lo: int, hi: int)
    requires L1Within(p.metas, lo, hi)
    requires forall i :: 0 <= i < |logs| ==> lo <= logs[i].l1Block <= hi
    requires ProcessLogs(cfg, st, view, actions, logs, p).Ok?
    ensures L1Within(ProcessLogs(cfg, st, view, actions, logs, p).value.metas, lo, hi)
  {
    if logs != [] {
      if logs[0].posted.Some? {
        var b := logs[0].posted.value;
        var ctx := ContextOf(cfg, actions, logs[0].l1Block, view.headers[logs[0].l1Block], b, p.remaining);
        BlocksStayInWindow(cfg, st, ctx, b, 0, p.(remaining := Drain(p.remaining, b.entries)), lo, hi);
      }
      LogsStayInWindow(cfg, st, view, actions, logs[1..], ProcessLog(cfg, st, view, actions, logs[0], p).value, lo, hi);
    }
  }

  /** New cursor entries name L1 blocks past the processed one, within the new one. */
  lemma NewEntriesAreNew(cfg: RollupConfig, st: PipelineState, latest: U64, view: L1View, r: DerivedBatch)
    requires Derived(cfg, st, latest, view) == Ok(r)
    ensures L1Within(r.update.newEntries, st.lastProcessed + 1, r.update.lastProcessed)
    ensures st.lastProcessed <= r.update.lastProcessed
  {
    DerivedCursorEntries(cfg, st, latest, view);
    if st.lastProcessed < latest {
      var w, metas := WindowOf(cfg, st, latest, view), PushedEntries(cfg, st, latest, view);
      LogsInWindow(view.logs, WindowStart(st), WindowEnd(st, latest));
      LogsStayInWindow(cfg, st, view, w.actions, w.logs, StartProgress(st, WindowEvents(cfg, st, latest, view)),
                       WindowStart(st), WindowEnd(st, latest));
      forall i | 0 <= i < |r.update.newEntries|
        ensures st.lastProcessed + 1 <= r.update.newEntries[i].l1Number <= r.update.lastProcessed
      {
        SurvivorIsFirst(metas, MetaKey, i);
        var j := FirstIsMember(metas, MetaKey, MetaKey(r.update.newEntries[i]));
      }
    }
  }

  lemma CommitKeepsSound(cfg: RollupConfig, st: PipelineState, latest: U64, view: L1View)
    requires Sound(st)
    requires Derived(cfg, st, latest, view).Ok?
    ensures Sound(Committed(st, Derived(cfg, st, latest, view).value))
  {
    DerivedCursorEntries(cfg, st, latest, view);
    DerivedBlocksAreContiguous(cfg, st, latest, view, 0);
    var r := Derived(cfg, st, latest, view).value;
    NewEntriesAreNew(cfg, st, latest, view, r);
    JoinedStrict(st.cursor, r.update.newEntries, st.lastDerived, r.update.lastDerived);
    CapKeeps(st.cursor + r.update.newEntries, r.update.lastDerived, r.update.lastProcessed);
  }

  lemma JoinedStrict(kept: seq<BlockMeta>, added: seq<BlockMeta>, lo: int, hi: int)
    requires StrictlyIncreasing(kept, MetaKey) && StrictlyIncreasing(added, MetaKey)
    requires forall i :: 0 <= i < |kept| ==> kept[i].l2Number <= lo
    requires MetasWithin(added, lo, hi) && lo <= hi
    ensures StrictlyIncreasing(kept + added, MetaKey)
    ensures forall i :: 0 <= i < |kept + added| ==> (kept + added)[i].l2Number <= hi
  {
  }

  lemma CapKeeps(cursor: seq<BlockMeta>, hi: int, processed: int)
    requires StrictlyIncreasing(cursor, MetaKey) && L1Within(cursor, 0, processed)
    requires forall i :: 0 <= i < |cursor| ==> cursor[i].l2Number <= hi
    ensures StrictlyIncreasing(Capped(cursor), MetaKey) && L1Within(Capped(cursor), 0, processed)
    ensures forall i :: 0 <= i < |Capped(cursor)| ==> Capped(cursor)[i].l2Number <= hi
    ensures |Capped(cursor)| <= 2 * REORG_CHECK_DEPTH
  {
  }

  lemma RollbackKeepsSound(st: PipelineState, b: U64)
    requires Sound(st)
    ensures Sound(RolledBack(st, b))
  {
    UpToStrict(st.cursor, b);
    var kept := UpTo(st.cursor, b);
    forall i | 0 <= i < |kept|
      ensures 0 <= kept[i].l1Number <= b
    {
      var j := UpToMember(st.cursor, b, i);
    }
    if kept != [] {
      forall i | 0 <= i < |kept|
        ensures kept[i].l2Number <= kept[|kept| - 1].l2Number
      {
        assert i < |kept| - 1 ==> MetaKey(kept[i]) < MetaKey(kept[|kept| - 1]);
      }
    }
  }

  lemma PruneKeepsSound(st: PipelineState, f: U64)
    requires Sound(st)
    ensures Sound(Pruned(st, f))
  {
    AfterStrict(st.cursor, f);
    forall i | 0 <= i < |After(st.cursor, f)|
      ensures After(st.cursor, f)[i].l2Number <= st.lastDerived
      ensures 0 <= After(st.cursor, f)[i].l1Number <= st.lastProcessed
    {
      var j := AfterMember(st.cursor, f, i);
    }
  }

  /** Every state reached by deriving and committing, rolling back and pruning, in any order and
      against any sequence of L1 views, is sound. */
  lemma {:induction false} RunsAreSound(cfg: RollupConfig, ops: seq<Op>)
    ensures Sound(Run(cfg, ops))
  {
    if ops != [] {
      var st := Run(cfg, ops[..|ops| - 1]);
      RunsAreSound(cfg, ops[..|ops| - 1]);
      match ops[|ops| - 1]
      case DeriveAndCommit(latest, view) =>
        if Derived(cfg, st, latest, view).Ok? {
          CommitKeepsSound(cfg, st, latest, view);
        }
      case Rollback(b) => RollbackKeepsSound(st, b);
      case Prune(f) => PruneKeepsSound(st, f);
    }
  }

  lemma {:induction false} UpToCompose(cursor: seq<BlockMeta>, a: U64, b: U64)
    requires b <= a
    ensures UpTo(UpTo(cursor, a), b) == UpTo(cursor, b)
  {
    if cursor != [] {
      var n := |cursor| - 1;
      UpToCompose(cursor[..n], a, b);
      var kept := UpTo(cursor[..n], a);
      if cursor[n].l1Number <= a {
        assert (kept + [cursor[n]])[..|kept|] == kept;
      } else {
        assert UpTo(cursor, a) == kept;
      }
    }
  }

  /** A rollback takes each execution cursor back to the block, or leaves it if it is behind; it never
      advances one. Rolling back in two steps is rolling back once. */
  lemma RollbackComposes(st: PipelineState, a: U64, b: U64)
    requires b <= a
    ensures RolledBack(st, a).lastExecution == if a < st.lastExecution then a else st.lastExecution
    ensures RolledBack(st, a).builderExecution == if a < st.builderExecution then a else st.builderExecution
    ensures RolledBack(RolledBack(st, a), b) == RolledBack(st, b)
  {
    UpToCompose(st.cursor, a, b);
  }

  // ---- Reorg recovery ----

  type Chain = nat -> Hash

  ghost predicate StoredOn(cursor: seq<BlockMeta>, chain: Chain) {
    forall i :: 0 <= i < |cursor| ==> OnChain(cursor[i], chain)
  }

  predicate OnChain(m: BlockMeta, chain: Chain) {
    m.l1Hash == chain(m.l1Number)
  }

  /** The provider answers with canonical hashes. */
  ghost predicate Shows(headers: map<U64, L1Header>, canonical: Chain) {
    forall n :: n in headers ==> headers[n].hash == canonical(n)
  }

  ghost predicate AgreeAt(a: Chain, b: Chain, n: nat) {
    a(n) == b(n)
  }

  /** Chains that agree at a height agree below it. */
  ghost predicate AgreeDownward(a: Chain, b: Chain) {
    forall i: nat, j: nat :: i <= j && AgreeAt(a, b, j) ==> AgreeAt(a, b, i)
  }

  lemma {:induction false} WalkBackFinds(
      cfg: RollupConfig, entries: seq<BlockMeta>, headers: map<U64, L1Header>, canonical: Chain, i: nat)
    returns (at: nat)
    requires i <= |entries|
    requires Shows(headers, canonical)
    requires WalkBack(cfg, entries, headers, i).Ok?
    ensures WalkBack(cfg, entries, headers, i).value.Some?
    ensures at <= i
    ensures forall k :: at <= k < i ==> !OnChain(entries[k], canonical)
    ensures at == 0 ==> WalkBack(cfg, entries, headers, i).value.value == cfg.deploymentL1Block
    ensures at > 0 ==> OnChain(entries[at - 1], canonical)
                       && WalkBack(cfg, entries, headers, i).value.value == entries[at - 1].l1Number
  {
    at := i;
    if i > 0 && headers[entries[i - 1].l1Number].hash != entries[i - 1].l1Hash {
      at := WalkBackFinds(cfg, entries, headers, canonical, i - 1);
    }
  }

  /** After a detected reorg and the rollback to the reported block, every retained entry is on the
      canonical chain. */
  lemma RollbackLeavesOnlyCanonical(
      cfg: RollupConfig, st: PipelineState, headers: map<U64, L1Header>, stored: Chain, canonical: Chain, b: U64,
      i: nat)
    requires StoredOn(st.cursor, stored) && Shows(headers, canonical)
    requires AgreeDownward(stored, canonical) && AgreeAt(stored, canonical, cfg.deploymentL1Block)
    requires ReorgPoint(cfg, st.cursor, headers) == Ok(Some(b))
    requires i < |RolledBack(st, b).cursor|
    ensures OnChain(RolledBack(st, b).cursor[i], canonical)
  {
    var entries := Checked(st.cursor);
    var at := WalkBackFinds(cfg, entries, headers, canonical, |entries| - 1);
    if at > 0 {
      var shift := |st.cursor| - |entries|;
      assert entries[at - 1] == st.cursor[shift + at - 1];
      assert OnChain(st.cursor[shift + at - 1], stored);
    }
    assert AgreeAt(stored, canonical, b);
    var j := UpToMember(st.cursor, b, i);
    assert OnChain(st.cursor[j], stored);
    assert AgreeAt(stored, canonical, st.cursor[j].l1Number);
  }

  /** The entry `k` places before the last one. */
  function FromEnd(cursor: seq<BlockMeta>, k: nat): BlockMeta
    requires k < |cursor|
  {
    cursor[|cursor| - 1 - k]
  }

  /** The provider shows another hash for it. */
  predicate Orphaned(cursor: seq<BlockMeta>, headers: map<U64, L1Header>, k: nat)
    requires k < |cursor|
  {
    var m := FromEnd(cursor, k);
    m.l1Number in headers && headers[m.l1Number].hash != m.l1Hash
  }

  lemma {:induction false} WalkBackStops(
      cfg: RollupConfig, cursor: seq<BlockMeta>, headers: map<U64, L1Header>, depth: nat, i: nat) returns (k: nat)
    requires i <= depth <= |cursor|
    ensures depth - i <= k <= depth
    ensures forall x :: depth - i <= x < k ==> Orphaned(cursor, headers, x)
    ensures k < depth ==> !Orphaned(cursor, headers, k)
    ensures WalkBack(cfg, cursor[|cursor| - depth..], headers, i) ==
            if k == depth then Ok(Some(cfg.deploymentL1Block))
            else if FromEnd(cursor, k).l1Number in headers then Ok(Some(FromEnd(cursor, k).l1Number))
            else Err(L1BlockNotFound(FromEnd(cursor, k).l1Number))
    decreases i
  {
    k := depth - i;
    if i > 0 {
      var m := cursor[|cursor| - depth..][i - 1];
      assert m == FromEnd(cursor, k);
      if Orphaned(cursor, headers, k) {
        k := WalkBackStops(cfg, cursor, headers, depth, i - 1);
      }
    }
  }

  /** What reorg detection answers. It looks at the last 64 entries, newest first, up to the first one
      the provider does not show to be orphaned. A missing header there is an error. If it is the newest
      of all there is no reorg; otherwise its L1 block is where to roll back to, and the deployment block
      if all are orphaned. */
  lemma ReorgPointIs(cfg: RollupConfig, cursor: seq<BlockMeta>, headers: map<U64, L1Header>) returns (k: nat)
    ensures k <= Min(|cursor|, 64)
    ensures forall x :: 0 <= x < k ==> Orphaned(cursor, headers, x)
    ensures k < Min(|cursor|, 64) ==> !Orphaned(cursor, headers, k)
    ensures ReorgPoint(cfg, cursor, headers) ==
            if cursor == [] then Ok(None)
            else if k == Min(|cursor|, 64) then Ok(Some(cfg.deploymentL1Block))
            else if FromEnd(cursor, k).l1Number !in headers then Err(L1BlockNotFound(FromEnd(cursor, k).l1Number))
            else if k == 0 then Ok(None)
            else Ok(Some(FromEnd(cursor, k).l1Number))
  {
    k := 0;
    if cursor != [] && Orphaned(cursor, headers, 0) {
      k := WalkBackStops(cfg, cursor, headers, Min(|cursor|, 64), Min(|cursor|, 64) - 1);
    }
  }

  ghost predicate L1Ordered(cursor: seq<BlockMeta>) {
    forall i, j :: 0 <= i < j < |cursor| ==> cursor[i].l1Number <= cursor[j].l1Number
  }

  /** The rollback is also no deeper than needed: when L1 numbers follow L2 order and one of the
      checked entries is still canonical, an entry is retained exactly when it is canonical. */
  lemma RollbackIsMinimal(
      cfg: RollupConfig, st: PipelineState, headers: map<U64, L1Header>, stored: Chain, canonical: Chain, b: U64,
      k: nat, i: nat)
    requires StoredOn(st.cursor, stored) && Shows(headers, canonical)
    requires AgreeDownward(stored, canonical)
    requires L1Ordered(st.cursor)
    requires ReorgPoint(cfg, st.cursor, headers) == Ok(Some(b))
    requires k < |Checked(st.cursor)| && OnChain(Checked(st.cursor)[k], canonical)
    requires i < |st.cursor|
    ensures st.cursor[i].l1Number <= b <==> OnChain(st.cursor[i], canonical)
  {
    var entries := Checked(st.cursor);
    var shift := |st.cursor| - |entries|;
    assert entries == st.cursor[shift..];
    var at := WalkBackFinds(cfg, entries, headers, canonical, |entries| - 1);
    assert !OnChain(entries[|entries| - 1], canonical);
    assert at > 0;
    var found := shift + at - 1;
    assert entries[at - 1] == st.cursor[found];
    assert OnChain(st.cursor[found], stored) && AgreeAt(stored, canonical, b);
    assert OnChain(st.cursor[i], stored);
    if i <= found {
      assert st.cursor[i].l1Number <= st.cursor[found].l1Number;
      assert AgreeAt(stored, canonical, st.cursor[i].l1Number);
    } else {
      assert st.cursor[found].l1Number <= st.cursor[i].l1Number;
      assert entries[i - shift] == st.cursor[i];
    }
  }

  /** No entry was included above the last entry's L1 block. */
  ghost predicate LastIsHighest(cursor: seq<BlockMeta>)
    requires cursor != []
  {
    forall i :: 0 <= i < |cursor| ==> cursor[i].l1Number <= cursor[|cursor| - 1].l1Number
  }

  lemma {:induction false} WalkBackReports(
      cfg: RollupConfig, entries: seq<BlockMeta>, headers: map<U64, L1Header>, i: nat)
    requires i <= |entries|
    ensures WalkBack(cfg, entries, headers, i).Ok? ==> WalkBack(cfg, entries, headers, i).value.Some?
  {
    if i > 0 {
      WalkBackReports(cfg, entries, headers, i - 1);
    }
  }

  /** The check is silent exactly when the last entry's hash is the one the provider shows. */
  lemma SilentIffLastMatches(cfg: RollupConfig, cursor: seq<BlockMeta>, headers: map<U64, L1Header>)
    requires cursor != []
    ensures var last := cursor[|cursor| - 1];
            ReorgPoint(cfg, cursor, headers) == Ok(None)
            <==> last.l1Number in headers && headers[last.l1Number].hash == last.l1Hash
  {
    WalkBackReports(cfg, Checked(cursor), headers, |Checked(cursor)| - 1);
  }

  /** `canonical` is a chain on which the check reports no reorg. */
  ghost predicate Unreported(
      cfg: RollupConfig, cursor: seq<BlockMeta>, stored: Chain, canonical: Chain, headers: map<U64, L1Header>)
  {
    && Shows(headers, canonical)
    && AgreeDownward(stored, canonical)
    && ReorgPoint(cfg, cursor, headers) == Ok(None)
  }

  /** A canonical chain that leaves `stored` just above `top`. */
  function ForkAbove(stored: Chain, top: nat): Chain {
    (n: nat) => if n <= top then stored(n) else stored(n) + 1
  }

  lemma ForkIsUnreported(cfg: RollupConfig, cursor: seq<BlockMeta>, stored: Chain)
    requires cursor != [] && StoredOn(cursor, stored)
    ensures var top := cursor[|cursor| - 1].l1Number;
            Unreported(cfg, cursor, stored, ForkAbove(stored, top), map[top := L1Header(stored(top), 0)])
  {
    var top := cursor[|cursor| - 1].l1Number;
    var canonical := ForkAbove(stored, top);
    assert OnChain(cursor[|cursor| - 1], stored);
    forall i: nat, j: nat | i <= j && AgreeAt(stored, canonical, j)
      ensures AgreeAt(stored, canonical, i)
    {
      assert j <= top;
    }
  }

  /** "No reorg" means every stored entry is canonical, on every L1 the check can be shown, exactly
      when no entry lies above the last entry's L1 block. */
  lemma NoReorgIsTrustworthyIff(cfg: RollupConfig, cursor: seq<BlockMeta>, stored: Chain)
    requires cursor != [] && StoredOn(cursor, stored)
    ensures (forall canonical: Chain, headers ::
               Unreported(cfg, cursor, stored, canonical, headers) ==> StoredOn(cursor, canonical))
            <==> LastIsHighest(cursor)
  {
    var last := cursor[|cursor| - 1];
    if LastIsHighest(cursor) {
      forall canonical: Chain, headers | Unreported(cfg, cursor, stored, canonical, headers)
        ensures StoredOn(cursor, canonical)
      {
        SilentIffLastMatches(cfg, cursor, headers);
        assert OnChain(last, stored);
        assert AgreeAt(stored, canonical, last.l1Number);
        forall i | 0 <= i < |cursor|
          ensures OnChain(cursor[i], canonical)
        {
          assert OnChain(cursor[i], stored);
          assert AgreeAt(stored, canonical, cursor[i].l1Number);
        }
      }
    } else {
      var i :| 0 <= i < |cursor| && cursor[i].l1Number > last.l1Number;
      ForkIsUnreported(cfg, cursor, stored);
      assert OnChain(cursor[i], stored);
      assert !OnChain(cursor[i], ForkAbove(stored, last.l1Number));
    }
  }

  // ---- Such a cursor is reachable ----

  /** L1 block 10 submits L2 block 2, and block 11 then submits L2 block 1. */
  function OutOfOrder(first: Payload, second: Payload): L1View {
    L1View(
      [BatchLog(10, Some(Batch([], [2], [first]))), BatchLog(11, Some(Batch([], [1], [second])))],
      [],
      map[10 := L1Header(110, 109), 11 := L1Header(111, 110)])
  }

  lemma OneBlockLog(
      cfg: RollupConfig, st: PipelineState, view: L1View, actions: seq<Action>, log: BatchLog, p: Progress, n: U64,
      txs: Payload)
    requires log.posted == Some(Batch([], [n], [txs])) && log.l1Block in view.headers
    requires !Stale(st, p, n) && L2TimestampChecked(cfg, n).Some? && n <= p.derived + MAX_BLOCK_GAP
    ensures var r := ProcessLog(cfg, st, view, actions, log, p);
            && r.Ok? && r.value.derived == n
            && r.value.metas == p.metas + [BlockMeta(n, log.l1Block, view.headers[log.l1Block].hash)]
  {
    var b := log.posted.value;
    var ctx := ContextOf(cfg, actions, log.l1Block, view.headers[log.l1Block], b, p.remaining);
    var start := p.(remaining := Drain(p.remaining, b.entries));
    var r := ProcessBlock(cfg, st, ctx, 0, n, txs, start);
    assert r.Ok? && r.value.derived == n && r.value.metas == p.metas + [BlockMeta(n, ctx.l1Block, ctx.l1Hash)];
    assert ProcessBlocks(cfg, st, ctx, b, 1, r.value) == Ok(r.value);
    assert ProcessBlocks(cfg, st, ctx, b, 0, start) == Ok(r.value);
  }

  /** What one derivation of that window pushes. */
  lemma OutOfOrderPushes(cfg: RollupConfig, first: Payload, second: Payload)
    requires cfg.deploymentL1Block == 9 && !cfg.rollupsAddressSet
    requires L2TimestampChecked(cfg, 2).Some?
    ensures Derived(cfg, Initial(cfg), 11, OutOfOrder(first, second)).Ok?
    ensures PushedEntries(cfg, Initial(cfg), 11, OutOfOrder(first, second))
            == [BlockMeta(2, 10, 110), BlockMeta(1, 11, 111)]
  {
    var st, view := Initial(cfg), OutOfOrder(first, second);
    CheckedTimestampDownward(cfg, 1, 2);
    var p0, a := StartProgress(st, []), ConsumedActions([]);
    OneBlockLog(cfg, st, view, a, view.logs[0], p0, 2, first);
    var p1 := ProcessLog(cfg, st, view, a, view.logs[0], p0).value;
    OneBlockLog(cfg, st, view, a, view.logs[1], p1, 1, second);
    TwoLogs(cfg, st, view, a, p0);
    AllLogsIn(view.logs, 10, 11);
  }

  lemma {:induction false} AllLogsIn(logs: seq<BatchLog>, from: U64, to: U64)
    requires forall i :: 0 <= i < |logs| ==> from <= logs[i].l1Block <= to
    ensures LogsIn(logs, from, to) == logs
  {
    if logs != [] {
      AllLogsIn(logs[1..], from, to);
      assert [logs[0]] + logs[1..] == logs;
    }
  }

  /** It leaves a cursor whose last entry is not its highest. */
  lemma OutOfOrderCursorIsReachable(cfg: RollupConfig, first: Payload, second: Payload)
    requires cfg.deploymentL1Block == 9 && !cfg.rollupsAddressSet
    requires L2TimestampChecked(cfg, 2).Some?
    ensures var cursor := Run(cfg, [DeriveAndCommit(11, OutOfOrder(first, second))]).cursor;
            cursor == [BlockMeta(1, 11, 111), BlockMeta(2, 10, 110)] && !LastIsHighest(cursor)
  {
    var ops := [DeriveAndCommit(11, OutOfOrder(first, second))];
    assert ops[..0] == [] && Run(cfg, []) == Initial(cfg);
    OutOfOrderPushes(cfg, first, second);
    SwappedMetas(BlockMeta(2, 10, 110), BlockMeta(1, 11, 111));
    var cursor := Run(cfg, ops).cursor;
    assert cursor == [BlockMeta(1, 11, 111), BlockMeta(2, 10, 110)];
    assert cursor[0].l1Number > cursor[|cursor| - 1].l1Number;
  }

  /** And its cursor entry for block 1 names the discarded submission: the block itself is a filler in
      the deployment context, whatever was submitted. */
  lemma EntryOfDiscardedBlockIsReachable(cfg: RollupConfig, first: Payload, second: Payload)
    requires cfg.deploymentL1Block == 9 && !cfg.rollupsAddressSet
    requires L2TimestampChecked(cfg, 2).Some?
    ensures var r := Derived(cfg, Initial(cfg), 11, OutOfOrder(first, second));
            && r.Ok? && r.value.update.newEntries == [BlockMeta(1, 11, 111), BlockMeta(2, 10, 110)]
            && |r.value.blocks| == 2
            && r.value.blocks[0] == GapBlock(1, ExactTimestamp(cfg, 1), L1Info(9, 0))
  {
    var st, view := Initial(cfg), OutOfOrder(first, second);
    OutOfOrderPushes(cfg, first, second);
    SwappedMetas(BlockMeta(2, 10, 110), BlockMeta(1, 11, 111));
    var r, metas := Derived(cfg, st, 11, view).value, PushedEntries(cfg, st, 11, view);
    var at := NewEntry(cfg, st, 11, view, r, 1);
    if |r.blocks| > 2 {
      DerivedBlocksAreContiguous(cfg, st, 11, view, 2);
      ReachNone(metas, 3);
      EveryBlockComesFromL1(cfg, st, 11, view, r, 2);
    }
    DerivedBlocksAreContiguous(cfg, st, 11, view, 0);
    EveryBlockComesFromL1(cfg, st, 11, view, r, 0);
    assert metas[..1] == [BlockMeta(2, 10, 110)] && metas[..1][..0] == [];
    assert Reach(metas[..1], 1) == 0 && Reach(metas, 1) == 0;
  }

  lemma TwoLogs(cfg: RollupConfig, st: PipelineState, view: L1View, actions: seq<Action>, p: Progress)
    requires |view.logs| == 2
    requires ProcessLog(cfg, st, view, actions, view.logs[0], p).Ok?
    ensures ProcessLogs(cfg, st, view, actions, view.logs, p) ==
            ProcessLog(cfg, st, view, actions, view.logs[1], ProcessLog(cfg, st, view, actions, view.logs[0], p).value)
  {
    var p1 := ProcessLog(cfg, st, view, actions, view.logs[0], p).value;
    var r := ProcessLog(cfg, st, view, actions, view.logs[1], p1);
    assert view.logs[1..] == [view.logs[1]] && [view.logs[1]][1..] == [];
    if r.Ok? {
      assert ProcessLogs(cfg, st, view, actions, [], r.value) == Ok(r.value);
    }
    assert ProcessLogs(cfg, st, view, actions, [view.logs[1]], p1) == r;
  }

  lemma SwappedMetas(a: BlockMeta, b: BlockMeta)
    requires b.l2Number < a.l2Number
    ensures SortDedup([a, b], MetaKey) == [b, a]
  {
    assert [a, b][1..] == [b] && [b][1..] == [];
    assert StableSort([b], MetaKey) == [b];
    assert Insert(a, [], MetaKey) == [a];
    assert Insert(a, [b], MetaKey) == [b] + Insert(a, [b][1..], MetaKey);
    assert StableSort([a, b], MetaKey) == Insert(a, [b], MetaKey) == [b, a];
    assert [b, a][..1] == [b] && [b][..0] == [];
    assert Dedup([b], MetaKey) == [b];
  }
}
