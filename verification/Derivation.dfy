/** The derivation pipeline (derivation.rs): one window of L1 into L2 blocks, and the cursor. */
module Derivation {
  import opened Wrappers
  import opened MachineInts
  import opened Timestamps
  import opened CrossChain
  import opened Consumption
  import EntryConversion
  import Continuation
  import opened StableOrder

  const REORG_CHECK_DEPTH: nat := 64
  const MAX_LOG_RANGE: U64 := 2000
  const MAX_BLOCK_GAP: U64 := 1000

  datatype BlockMeta = BlockMeta(l2Number: U64, l1Number: U64, l1Hash: Hash)

  datatype L1Info = L1Info(number: U64, hash: Hash)

  datatype Filtering = Filtering(l1ConsumedRemaining: Counts, allL2Entries: seq<Entry>)

  datatype DerivedBlock = DerivedBlock(
    number: U64,
    timestamp: U64,
    l1Info: L1Info,
    stateRoot: Root,
    transactions: Payload,
    isEmpty: bool,
    executionEntries: seq<Entry>,
    filtering: Option<Filtering>)

  datatype CursorUpdate = CursorUpdate(
    lastProcessed: U64,
    lastExecution: U64,
    lastDerived: U64,
    lastL1Info: Option<L1Info>,
    newEntries: seq<BlockMeta>)

  datatype DerivedBatch = DerivedBatch(blocks: seq<DerivedBlock>, update: CursorUpdate)

  datatype DeriveError = L1BlockNotFound(number: U64) | GapTooLarge(block: U64, expected: U64)

  // ---- What L1 shows ----

  /** A decoded `postBatch` call. */
  datatype Batch = Batch(entries: seq<Entry>, blockNumbers: seq<U64>, blockTxs: seq<Payload>)

  /** A `BatchPosted` log; `posted` is absent when the transaction is missing or does not decode. */
  datatype BatchLog = BatchLog(l1Block: U64, posted: Option<Batch>)

  datatype ConsumedEvent = ConsumedEvent(l1Block: U64, actionHash: ActionHash, action: Action)

  datatype L1Header = L1Header(hash: Hash, parentHash: Hash)

  datatype L1View = L1View(logs: seq<BatchLog>, events: seq<ConsumedEvent>, headers: map<U64, L1Header>)

  function LogsIn(logs: seq<BatchLog>, from: U64, to: U64): seq<BatchLog> {
    if logs == [] then []
    else if from <= logs[0].l1Block <= to then [logs[0]] + LogsIn(logs[1..], from, to)
    else LogsIn(logs[1..], from, to)
  }

  function EventsIn(events: seq<ConsumedEvent>, from: U64, to: U64): seq<ConsumedEvent> {
    if events == [] then []
    else if from <= events[0].l1Block <= to then [events[0]] + EventsIn(events[1..], from, to)
    else EventsIn(events[1..], from, to)
  }

  function ConsumedCounts(events: seq<ConsumedEvent>): Counts {
    if events == [] then map[] else
      var prior := ConsumedCounts(events[1..]);
      prior[events[0].actionHash := Avail(prior, events[0].actionHash) + 1]
  }

  function ConsumedActions(events: seq<ConsumedEvent>): seq<Action> {
    seq(|events|, i requires 0 <= i < |events| => events[i].action)
  }

  // ---- Pipeline state ----

  datatype PipelineState = PipelineState(
    lastProcessed: U64,
    cursor: seq<BlockMeta>,
    lastDerived: U64,
    lastL1Info: Option<L1Info>,
    deploymentHash: Hash,
    lastExecution: U64,
    builderExecution: U64)

  /** The accumulators of the log loop. */
  datatype Progress = Progress(
    derived: U64,
    info: Option<L1Info>,
    execution: U64,
    remaining: Counts,
    blocks: seq<DerivedBlock>,
    metas: seq<BlockMeta>)

  /** What the block loop of one batch reads. */
  datatype BatchContext = BatchContext(
    l1Block: U64,
    l1Hash: Hash,
    parentHash: Hash,
    lastIndex: int,
    effectiveRoot: Root,
    deferred: seq<Entry>,
    filter: bool,
    snapshot: Counts)

  // ---- Specification of the loops ----

  function GapBlock(n: U64, timestamp: U64, info: L1Info): DerivedBlock {
    DerivedBlock(n, timestamp, info, ZERO_ROOT, NoBytes, true, [], None)
  }

  /** Empty blocks from `from` up to but excluding `to`; broken off on timestamp overflow. */
  function GapFill(cfg: RollupConfig, from: U64, to: U64, info: L1Info): seq<DerivedBlock>
    decreases if from < to then to - from else 0
  {
    if from >= to then [] else
      match L2TimestampChecked(cfg, from)
      case None => []
      case Some(t) => [GapBlock(from, t, info)] + GapFill(cfg, from + 1, to, info)
  }

  function GapInfo(cfg: RollupConfig, deploymentHash: Hash, info: Option<L1Info>): L1Info {
    match info
    case Some(i) => i
    case None => L1Info(cfg.deploymentL1Block, deploymentHash)
  }

  predicate EmptyPayload(p: Payload) {
    p == NoBytes || p == RlpList([])
  }

  function SubmittedBlock(ctx: BatchContext, i: nat, n: U64, timestamp: U64, txs: Payload): DerivedBlock {
    var carries := i == 0 || i == ctx.lastIndex;
    var entries := if carries then ctx.deferred else [];
    DerivedBlock(
      n, timestamp, L1Info(SaturatingSub(ctx.l1Block, 1), ctx.parentHash),
      if i == ctx.lastIndex then ctx.effectiveRoot else ZERO_ROOT,
      txs, EmptyPayload(txs), entries,
      if ctx.filter && carries then Some(Filtering(ctx.snapshot, entries)) else None)
  }

  /** The stale test looks at both the committed and the local head. */
  predicate Stale(st: PipelineState, p: Progress, n: U64) {
    n <= st.lastDerived && n <= p.derived
  }

  function ProcessBlock(
      cfg: RollupConfig, st: PipelineState, ctx: BatchContext, i: nat, n: U64, txs: Payload, p: Progress)
    : Result<Progress, DeriveError>
  {
    if Stale(st, p, n) then Ok(p) else
      match L2TimestampChecked(cfg, n)
      case None => Ok(p)
      case Some(timestamp) =>
        var expected := SaturatingAdd(p.derived, 1);
        if n > expected && n - expected > MAX_BLOCK_GAP then Err(GapTooLarge(n, expected)) else
          var gap := if n > expected then GapFill(cfg, expected, n, GapInfo(cfg, st.deploymentHash, p.info)) else [];
          Ok(Progress(
            n, Some(L1Info(SaturatingSub(ctx.l1Block, 1), ctx.parentHash)), p.execution, p.remaining,
            p.blocks + gap + [SubmittedBlock(ctx, i, n, timestamp, txs)],
            p.metas + [BlockMeta(n, ctx.l1Block, ctx.l1Hash)]))
  }

  /** `block_numbers.zip(block_txs)`, from index `i` on. */
  function ProcessBlocks(cfg: RollupConfig, st: PipelineState, ctx: BatchContext, b: Batch, i: nat, p: Progress)
    : Result<Progress, DeriveError>
    decreases |b.blockNumbers| - i
  {
    if i >= |b.blockNumbers| || i >= |b.blockTxs| then Ok(p) else
      match ProcessBlock(cfg, st, ctx, i, b.blockNumbers[i], b.blockTxs[i], p)
      case Err(e) => Err(e)
      case Ok(p') => ProcessBlocks(cfg, st, ctx, b, i + 1, p')
  }

  predicate TxLoadsRevert(tx: Tx) {
    tx.loadsTable.Some? && HasRevert(tx.loadsTable.value)
  }

  predicate PayloadHasRevert(p: Payload) {
    p.RlpList? && exists i :: 0 <= i < |p.txs| && TxLoadsRevert(p.txs[i])
  }

  predicate BatchHasRevert(b: Batch) {
    HasRevert(b.entries) || exists i :: 0 <= i < |b.blockTxs| && PayloadHasRevert(b.blockTxs[i])
  }

  /** The L2 entries the accepted L1 entries stand for. */
  function L2Entries(accepted: seq<Entry>, revert: bool, actions: seq<Action>): seq<Entry> {
    if revert then accepted
    else if actions != [] then
      EntryConversion.L2Pairs(accepted, actions) + Continuation.ContinuationEntries(accepted, actions)
    else accepted
  }

  function ContextOf(
      cfg: RollupConfig, actions: seq<Action>, l1Block: U64, header: L1Header, b: Batch, remaining: Counts)
    : BatchContext
  {
    var accepted := Selected(b.entries, remaining);
    var revert := BatchHasRevert(b);
    BatchContext(
      l1Block, header.hash, header.parentHash, |b.blockNumbers| - 1,
      FoldRoots(FinalRoot(b.entries), accepted, RevertHashes(b.entries, revert), cfg.rollupId),
      L2Entries(accepted, revert, actions),
      AnyRejected(b.entries, remaining) && !revert,
      remaining)
  }

  function ProcessLog(
      cfg: RollupConfig, st: PipelineState, view: L1View, actions: seq<Action>, log: BatchLog, p: Progress)
    : Result<Progress, DeriveError>
  {
    match log.posted
    case None => Ok(p)
    case Some(b) =>
      if log.l1Block !in view.headers then Err(L1BlockNotFound(log.l1Block)) else
        var ctx := ContextOf(cfg, actions, log.l1Block, view.headers[log.l1Block], b, p.remaining);
        match ProcessBlocks(cfg, st, ctx, b, 0, p.(remaining := Drain(p.remaining, b.entries)))
        case Err(e) => Err(e)
        case Ok(p') => Ok(p'.(execution := Max(p'.execution, log.l1Block)))
  }

  function ProcessLogs(
      cfg: RollupConfig, st: PipelineState, view: L1View, actions: seq<Action>, logs: seq<BatchLog>, p: Progress)
    : Result<Progress, DeriveError>
  {
    if logs == [] then Ok(p) else
      match ProcessLog(cfg, st, view, actions, logs[0], p)
      case Err(e) => Err(e)
      case Ok(p') => ProcessLogs(cfg, st, view, actions, logs[1..], p')
  }

  function WindowStart(st: PipelineState): U64 {
    SaturatingAdd(st.lastProcessed, 1)
  }

  function WindowEnd(st: PipelineState, latest: U64): U64 {
    Min(latest, SaturatingAdd(WindowStart(st), MAX_LOG_RANGE - 1))
  }

  function WindowEvents(cfg: RollupConfig, st: PipelineState, latest: U64, view: L1View): seq<ConsumedEvent> {
    if cfg.rollupsAddressSet then EventsIn(view.events, WindowStart(st), WindowEnd(st, latest)) else []
  }

  function StartProgress(st: PipelineState, events: seq<ConsumedEvent>): Progress {
    Progress(st.lastDerived, st.lastL1Info, st.lastExecution, ConsumedCounts(events), [], [])
  }

  /** The accumulators after every log of the window. */
  function WindowProgress(
      cfg: RollupConfig, st: PipelineState, latest: U64, view: L1View): Result<Progress, DeriveError>
  {
    var events := WindowEvents(cfg, st, latest, view);
    ProcessLogs(cfg, st, view, ConsumedActions(events),
                LogsIn(view.logs, WindowStart(st), WindowEnd(st, latest)), StartProgress(st, events))
  }

  function BlockKey(b: DerivedBlock): int {
    b.number
  }

  function MetaKey(m: BlockMeta): int {
    m.l2Number
  }

  function Finish(p: Progress, to: U64): DerivedBatch {
    var blocks := SortDedup(p.blocks, BlockKey);
    DerivedBatch(blocks, CursorUpdate(
      to, p.execution,
      if blocks != [] then blocks[|blocks| - 1].number else p.derived,
      p.info,
      SortDedup(p.metas, MetaKey)))
  }

  function NothingNew(st: PipelineState): DerivedBatch {
    DerivedBatch([], CursorUpdate(st.lastProcessed, st.lastExecution, st.lastDerived, st.lastL1Info, []))
  }

  function Derived(cfg: RollupConfig, st: PipelineState, latest: U64, view: L1View): Result<DerivedBatch, DeriveError> {
    if latest <= st.lastProcessed then Ok(NothingNew(st)) else
      match WindowProgress(cfg, st, latest, view)
      case Err(e) => Err(e)
      case Ok(p) => Ok(Finish(p, WindowEnd(st, latest)))
  }

  // ---- Specification of the cursor operations ----

  function Capped(cursor: seq<BlockMeta>): seq<BlockMeta> {
    if |cursor| > 2 * REORG_CHECK_DEPTH then cursor[|cursor| - REORG_CHECK_DEPTH..] else cursor
  }

  function Committed(st: PipelineState, b: DerivedBatch): PipelineState {
    st.(lastProcessed := b.update.lastProcessed,
        lastExecution := b.update.lastExecution,
        lastDerived := b.update.lastDerived,
        lastL1Info := b.update.lastL1Info,
        cursor := Capped(st.cursor + b.update.newEntries))
  }

  function UpTo(cursor: seq<BlockMeta>, l1Block: U64): seq<BlockMeta> {
    if cursor == [] then [] else
      var n := |cursor| - 1;
      UpTo(cursor[..n], l1Block) + if cursor[n].l1Number <= l1Block then [cursor[n]] else []
  }

  function After(cursor: seq<BlockMeta>, l1Block: U64): seq<BlockMeta> {
    if cursor == [] then [] else
      var n := |cursor| - 1;
      After(cursor[..n], l1Block) + if cursor[n].l1Number > l1Block then [cursor[n]] else []
  }

  function LastL2(cursor: seq<BlockMeta>): Option<U64> {
    if cursor == [] then None else Some(cursor[|cursor| - 1].l2Number)
  }

  function RolledBack(st: PipelineState, l1Block: U64): PipelineState {
    var kept := UpTo(st.cursor, l1Block);
    st.(cursor := kept,
        lastProcessed := l1Block,
        lastExecution := Min(l1Block, st.lastExecution),
        builderExecution := Min(l1Block, st.builderExecution),
        lastDerived := if kept == [] then 0 else kept[|kept| - 1].l2Number,
        lastL1Info := if kept == [] then None
                      else Some(L1Info(kept[|kept| - 1].l1Number, kept[|kept| - 1].l1Hash)))
  }

  function Pruned(st: PipelineState, finalized: U64): PipelineState {
    st.(cursor := After(st.cursor, finalized))
  }

  /** The walk back from position `i` of the checked entries, exclusive. */
  function WalkBack(cfg: RollupConfig, entries: seq<BlockMeta>, headers: map<U64, L1Header>, i: nat)
    : Result<Option<U64>, DeriveError>
    requires i <= |entries|
  {
    if i == 0 then Ok(Some(cfg.deploymentL1Block)) else
      var m := entries[i - 1];
      if m.l1Number !in headers then Err(L1BlockNotFound(m.l1Number))
      else if headers[m.l1Number].hash == m.l1Hash then Ok(Some(m.l1Number))
      else WalkBack(cfg, entries, headers, i - 1)
  }

  function Checked(cursor: seq<BlockMeta>): seq<BlockMeta> {
    cursor[|cursor| - Min(|cursor|, REORG_CHECK_DEPTH)..]
  }

  function ReorgPoint(
      cfg: RollupConfig, cursor: seq<BlockMeta>, headers: map<U64, L1Header>): Result<Option<U64>, DeriveError>
  {
    if cursor == [] then Ok(None) else
      var latest := cursor[|cursor| - 1];
      if latest.l1Number !in headers then Err(L1BlockNotFound(latest.l1Number))
      else if headers[latest.l1Number].hash == latest.l1Hash then Ok(None)
      else WalkBack(cfg, Checked(cursor), headers, |Checked(cursor)| - 1)
  }

  // ---- The pipeline ----

  class DerivationPipeline {
    const config: RollupConfig
    var lastProcessedL1Block: U64
    var cursor: seq<BlockMeta>
    var lastDerivedL2Block: U64
    var lastL1Info: Option<L1Info>
    var deploymentL1BlockHash: Hash
    var lastExecutionL1Block: U64
    var builderExecutionL1Block: U64

    ghost function State(): PipelineState
      reads this
    {
      PipelineState(lastProcessedL1Block, cursor, lastDerivedL2Block, lastL1Info, deploymentL1BlockHash,
                    lastExecutionL1Block, builderExecutionL1Block)
    }

    constructor (config: RollupConfig)
      ensures this.config == config
      ensures State() == Initial(config)
      ensures lastProcessedL1Block == lastExecutionL1Block == config.deploymentL1Block
      ensures builderExecutionL1Block == lastDerivedL2Block == deploymentL1BlockHash == 0
      ensures cursor == [] && lastL1Info == None
    {
      this.config := config;
      lastProcessedL1Block := config.deploymentL1Block;
      cursor := [];
      lastDerivedL2Block := 0;
      lastL1Info := None;
      deploymentL1BlockHash := 0;
      lastExecutionL1Block := config.deploymentL1Block;
      builderExecutionL1Block := 0;
    }

    method DeriveNextBatch(latest: U64, view: L1View) returns (r: Result<DerivedBatch, DeriveError>)
      ensures r == Derived(config, State(), latest, view)
    {
      ghost var st := State();
      if latest <= lastProcessedL1Block {
        return Ok(DerivedBatch([], CursorUpdate(
          lastProcessedL1Block, lastExecutionL1Block, lastDerivedL2Block, lastL1Info, [])));
      }
      var from := SaturatingAdd(lastProcessedL1Block, 1);
      var to := Min(latest, SaturatingAdd(from, MAX_LOG_RANGE - 1));
      var logs := LogsIn(view.logs, from, to);
      var events := if config.rollupsAddressSet then EventsIn(view.events, from, to) else [];
      var actions := ConsumedActions(events);
      var p := Progress(lastDerivedL2Block, lastL1Info, lastExecutionL1Block, ConsumedCounts(events), [], []);
      ghost var p0 := p;
      var i := 0;
      while i < |logs|
        invariant 0 <= i <= |logs|
        invariant ProcessLogs(config, st, view, actions, logs[i..], p)
                  == ProcessLogs(config, st, view, actions, logs, p0)
      {
        assert logs[i..][1..] == logs[i + 1..];
        var step := DeriveLog(view, actions, logs[i], p);
        if step.Err? {
          return Err(step.error);
        }
        p := step.value;
        i := i + 1;
      }
      var blocks := SortDedup(p.blocks, BlockKey);
      var metas := SortDedup(p.metas, MetaKey);
      var head := p.derived;
      if blocks != [] {
        head := blocks[|blocks| - 1].number;
      }
      return Ok(DerivedBatch(blocks, CursorUpdate(to, p.execution, head, p.info, metas)));
    }

    /** The body of the log loop. */
    method DeriveLog(
        view: L1View, actions: seq<Action>, log: BatchLog, p: Progress)
        returns (r: Result<Progress, DeriveError>)
      ensures r == ProcessLog(config, State(), view, actions, log, p)
    {
      if log.posted.None? {
        return Ok(p);
      }
      var b := log.posted.value;
      var snapshot := p.remaining;
      var finalRoot, accepted, unconsumed, remaining := ConsumeEntries(b.entries, p.remaining);
      var batchHasRevert := BatchHasRevert(b);
      var root := EffectiveRoot(finalRoot, b.entries, accepted, batchHasRevert, config.rollupId);
      var deferred := accepted;
      if !batchHasRevert && actions != [] {
        var pairs := EntryConversion.ConvertL1EntriesToL2Pairs(accepted, actions);
        var continuation := Continuation.ReconstructContinuationL2Entries(accepted, actions);
        deferred := pairs + continuation;
      }
      if log.l1Block !in view.headers {
        return Err(L1BlockNotFound(log.l1Block));
      }
      var header := view.headers[log.l1Block];
      var ctx := BatchContext(log.l1Block, header.hash, header.parentHash, |b.blockNumbers| - 1, root, deferred,
                              unconsumed && !batchHasRevert, snapshot);
      var done := DeriveBlocks(ctx, b, p.(remaining := remaining));
      if done.Err? {
        return Err(done.error);
      }
      var after := done.value;
      if log.l1Block > after.execution {
        after := after.(execution := log.l1Block);
      }
      return Ok(after);
    }

    /** The block loop of one batch. */
    method DeriveBlocks(ctx: BatchContext, b: Batch, start: Progress) returns (r: Result<Progress, DeriveError>)
      ensures r == ProcessBlocks(config, State(), ctx, b, 0, start)
    {
      ghost var st := State();
      var p := start;
      var i := 0;
      while i < |b.blockNumbers| && i < |b.blockTxs|
        invariant 0 <= i <= |b.blockNumbers|
        invariant ProcessBlocks(config, st, ctx, b, i, p) == ProcessBlocks(config, st, ctx, b, 0, start)
      {
        var n, txs := b.blockNumbers[i], b.blockTxs[i];
        if n <= lastDerivedL2Block && n <= p.derived {
          i := i + 1;
          continue;
        }
        var checked := L2TimestampChecked(config, n);
        if checked.None? {
          i := i + 1;
          continue;
        }
        var expectedNext := SaturatingAdd(p.derived, 1);
        var gap: seq<DerivedBlock> := [];
        if n > expectedNext {
          if n - expectedNext > MAX_BLOCK_GAP {
            return Err(GapTooLarge(n, expectedNext));
          }
          gap := FillGap(expectedNext, n, GapInfo(config, deploymentL1BlockHash, p.info));
        }
        var info := L1Info(SaturatingSub(ctx.l1Block, 1), ctx.parentHash);
        p := Progress(n, Some(info), p.execution, p.remaining,
                      p.blocks + gap + [SubmittedBlock(ctx, i, n, checked.value, txs)],
                      p.metas + [BlockMeta(n, ctx.l1Block, ctx.l1Hash)]);
        i := i + 1;
      }
      return Ok(p);
    }

    method FillGap(from: U64, to: U64, info: L1Info) returns (blocks: seq<DerivedBlock>)
      requires from <= to
      ensures blocks == GapFill(config, from, to, info)
    {
      blocks := [];
      var g := from;
      while g < to
        invariant from <= g <= to
        invariant blocks + GapFill(config, g, to, info) == GapFill(config, from, to, info)
      {
        var checked := L2TimestampChecked(config, g);
        if checked.None? {
          break;
        }
        blocks := blocks + [GapBlock(g, checked.value, info)];
        g := g + 1;
      }
    }

    method CommitBatch(batch: DerivedBatch)
      modifies this
      ensures State() == Committed(old(State()), batch)
      ensures lastProcessedL1Block == batch.update.lastProcessed && lastDerivedL2Block == batch.update.lastDerived
      ensures lastExecutionL1Block == batch.update.lastExecution && lastL1Info == batch.update.lastL1Info
      ensures builderExecutionL1Block == old(builderExecutionL1Block)
      ensures deploymentL1BlockHash == old(deploymentL1BlockHash)
      ensures var all := old(cursor) + batch.update.newEntries;
              cursor == if |all| <= 128 then all else all[|all| - 64..]
    {
      lastProcessedL1Block := batch.update.lastProcessed;
      lastExecutionL1Block := batch.update.lastExecution;
      lastDerivedL2Block := batch.update.lastDerived;
      lastL1Info := batch.update.lastL1Info;
      cursor := cursor + batch.update.newEntries;
      if |cursor| > 2 * REORG_CHECK_DEPTH {
        var drainCount := |cursor| - REORG_CHECK_DEPTH;
        cursor := cursor[drainCount..];
      }
    }

    method DetectReorg(headers: map<U64, L1Header>) returns (r: Result<Option<U64>, DeriveError>)
      ensures r == ReorgPoint(config, cursor, headers)
    {
      if cursor == [] {
        return Ok(None);
      }
      var checkDepth := Min(|cursor|, REORG_CHECK_DEPTH);
      var entries := cursor[|cursor| - checkDepth..];
      var latest := entries[|entries| - 1];
      if latest.l1Number !in headers {
        return Err(L1BlockNotFound(latest.l1Number));
      }
      if headers[latest.l1Number].hash == latest.l1Hash {
        return Ok(None);
      }
      var i := |entries| - 1;
      while i > 0
        invariant 0 <= i < |entries|
        invariant WalkBack(config, entries, headers, i) == WalkBack(config, entries, headers, |entries| - 1)
      {
        var m := entries[i - 1];
        if m.l1Number !in headers {
          return Err(L1BlockNotFound(m.l1Number));
        }
        if headers[m.l1Number].hash == m.l1Hash {
          return Ok(Some(m.l1Number));
        }
        i := i - 1;
      }
      return Ok(Some(config.deploymentL1Block));
    }

    method RollbackTo(l1Block: U64) returns (lastValidL2: Option<U64>)
      modifies this
      ensures State() == RolledBack(old(State()), l1Block)
      ensures lastProcessedL1Block == l1Block && deploymentL1BlockHash == old(deploymentL1BlockHash)
      ensures lastExecutionL1Block == Min(l1Block, old(lastExecutionL1Block))
      ensures builderExecutionL1Block == Min(l1Block, old(builderExecutionL1Block))
      ensures if cursor == [] then lastValidL2 == None && lastDerivedL2Block == 0 && lastL1Info == None
              else var last := cursor[|cursor| - 1];
                   && lastValidL2 == Some(last.l2Number) && lastDerivedL2Block == last.l2Number
                   && lastL1Info == Some(L1Info(last.l1Number, last.l1Hash))
    {
      cursor := UpTo(cursor, l1Block);
      lastProcessedL1Block := l1Block;
      lastExecutionL1Block := Min(l1Block, lastExecutionL1Block);
      builderExecutionL1Block := Min(l1Block, builderExecutionL1Block);
      lastValidL2 := LastL2(cursor);
      lastDerivedL2Block := if lastValidL2.Some? then lastValidL2.value else 0;
      if cursor != [] {
        var last := cursor[|cursor| - 1];
        lastL1Info := Some(L1Info(last.l1Number, last.l1Hash));
      } else {
        lastL1Info := None;
      }
    }

    method PruneFinalized(finalized: U64)
      modifies this`cursor
      ensures State() == Pruned(old(State()), finalized)
    {
      cursor := After(cursor, finalized);
    }

    /** The window of L1 blocks the builder reads entries from, if there is one; the builder's own
        cursor moves to its end. */
    method FetchWindowForBuilder(upTo: U64) returns (window: Option<(U64, U64)>)
      modifies this`builderExecutionL1Block
      ensures var cur := Max(old(builderExecutionL1Block), lastExecutionL1Block);
              if config.rollupsAddressSet && cur < upTo then
                && window.Some? && window.value.0 == cur + 1
                && window.value.1 == builderExecutionL1Block == Min(upTo, cur + 2000)
              else window.None? && builderExecutionL1Block == old(builderExecutionL1Block)
    {
      if !config.rollupsAddressSet {
        return None;
      }
      var effective := Max(builderExecutionL1Block, lastExecutionL1Block);
      if upTo <= effective {
        return None;
      }
      var from := SaturatingAdd(effective, 1);
      var to := Min(upTo, SaturatingAdd(from, MAX_LOG_RANGE - 1));
      builderExecutionL1Block := to;
      return Some((from, to));
    }
  }

  function Initial(cfg: RollupConfig): PipelineState {
    PipelineState(cfg.deploymentL1Block, [], 0, None, 0, cfg.deploymentL1Block, 0)
  }
}
