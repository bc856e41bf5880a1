/** The deterministic L2 clock (config.rs) and the header rules that enforce it
    (consensus.rs). */
module Timestamps {
  import opened Wrappers
  import opened MachineInts

  datatype RollupConfig = RollupConfig(
    deploymentL1Block: U64,
    deploymentTimestamp: U64,
    blockTime: U64,
    rollupId: U64,
    rollupsAddressSet: bool)

  function L2Timestamp(cfg: RollupConfig, n: U64): U64 {
    SaturatingAdd(cfg.deploymentTimestamp, SaturatingMul(SaturatingAdd(n, 1), cfg.blockTime))
  }

  function L2TimestampChecked(cfg: RollupConfig, n: U64): Option<U64> {
    match CheckedAdd(n, 1)
    case None => None
    case Some(next) =>
      match CheckedMul(next, cfg.blockTime)
      case None => None
      case Some(product) => CheckedAdd(cfg.deploymentTimestamp, product)
  }

  function L2BlockNumberFromTimestamp(cfg: RollupConfig, t: U64): U64 {
    if cfg.blockTime == 0 then 0 else
      QuotientBounds(SaturatingSub(t, cfg.deploymentTimestamp), cfg.blockTime);
      SaturatingSub(SaturatingSub(t, cfg.deploymentTimestamp) / cfg.blockTime, 1)
  }

  /** The documented formula on unbounded integers. */
  function ExactTimestamp(cfg: RollupConfig, n: nat): nat {
    MulNonNegative(n + 1, cfg.blockTime);
    cfg.deploymentTimestamp + (n + 1) * cfg.blockTime
  }

  lemma MulNonNegative(a: nat, b: nat)
    ensures 0 <= a * b
  {
  }

  lemma MulMonotone(a: nat, b: nat, c: nat)
    requires a <= b
    ensures a * c <= b * c
  {
  }

  lemma QuotientBounds(a: nat, b: nat)
    requires b > 0
    ensures 0 <= a / b <= a
    ensures (a / b) * b <= a < (a / b + 1) * b
  {
    var q := a / b;
    assert a == q * b + a % b;
    MulMonotone(1, b, q);
    assert q * b == b * q;
  }

  /** Saturation never shows except at the top: the result is the exact value capped at 2^64 - 1. */
  lemma SaturatingTimestampIsCapped(cfg: RollupConfig, n: U64)
    ensures L2Timestamp(cfg, n) == Min(U64_MAX, ExactTimestamp(cfg, n))
  {
    if n == U64_MAX && cfg.blockTime > 0 {
      MulMonotone(1, cfg.blockTime, U64_MAX);
      assert cfg.blockTime * U64_MAX == U64_MAX * cfg.blockTime;
      MulMonotone(U64_MAX, n + 1, cfg.blockTime);
    }
  }

  /** Whatever the checked form returns is exact, and it returns something exactly when the
      exact value fits, except for the one corner `blockTime == 0 && n == 2^64 - 1`. */
  lemma CheckedTimestampIsExact(cfg: RollupConfig, n: U64)
    ensures L2TimestampChecked(cfg, n).Some? ==> L2TimestampChecked(cfg, n).value == ExactTimestamp(cfg, n)
    ensures (L2TimestampChecked(cfg, n).Some? <==> ExactTimestamp(cfg, n) <= U64_MAX)
            <==> !(cfg.blockTime == 0 && n == U64_MAX)
  {
    if n == U64_MAX && cfg.blockTime > 0 {
      MulMonotone(1, cfg.blockTime, n + 1);
      assert cfg.blockTime * (n + 1) == (n + 1) * cfg.blockTime;
    }
  }

  /** Smaller block numbers overflow no sooner: used to show that gap filling never breaks off. */
  lemma CheckedTimestampDownward(cfg: RollupConfig, m: U64, n: U64)
    requires m <= n
    requires L2TimestampChecked(cfg, n).Some?
    ensures L2TimestampChecked(cfg, m).Some?
  {
    MulMonotone(m + 1, n + 1, cfg.blockTime);
  }

  /** `l2_block_number_from_timestamp` undoes the checked timestamp. */
  lemma NumberFromTimestampInverts(cfg: RollupConfig, n: U64)
    requires cfg.blockTime >= 1
    requires L2TimestampChecked(cfg, n).Some?
    ensures L2BlockNumberFromTimestamp(cfg, L2TimestampChecked(cfg, n).value) == n
  {
    CheckedTimestampIsExact(cfg, n);
    var t := L2TimestampChecked(cfg, n).value;
    MulMonotone(1, n + 1, cfg.blockTime);
    Adjoint(cfg, t, n);
    Adjoint(cfg, t, n + 1);
  }

  /** One instance of the floor adjunction. */
  lemma Adjoint(cfg: RollupConfig, t: U64, n: nat)
    requires cfg.blockTime >= 1
    requires t >= cfg.deploymentTimestamp + cfg.blockTime
    ensures n <= L2BlockNumberFromTimestamp(cfg, t) <==> ExactTimestamp(cfg, n) <= t
  {
    var a, b := t - cfg.deploymentTimestamp, cfg.blockTime;
    QuotientBounds(a, b);
    var q := a / b;
    assert q >= 1 by {
      if q == 0 { assert false; }
    }
    if n + 1 <= q {
      MulMonotone(n + 1, q, b);
    } else {
      MulMonotone(q + 1, n + 1, b);
    }
  }

  /** Block `n` is due by time `t` exactly when `n` is at most the number computed from `t`;
      this holds for every `n` if and only if the first block is due by `t`. */
  lemma NumberFromTimestampIsFloor(cfg: RollupConfig, t: U64)
    requires cfg.blockTime >= 1
    ensures (forall n: U64 :: n <= L2BlockNumberFromTimestamp(cfg, t) <==> ExactTimestamp(cfg, n) <= t)
            <==> t >= cfg.deploymentTimestamp + cfg.blockTime
  {
    if t >= cfg.deploymentTimestamp + cfg.blockTime {
      forall n: U64
        ensures n <= L2BlockNumberFromTimestamp(cfg, t) <==> ExactTimestamp(cfg, n) <= t
      {
        Adjoint(cfg, t, n);
      }
    } else {
      assert ExactTimestamp(cfg, 0) == cfg.deploymentTimestamp + cfg.blockTime;
      var zero: U64 := 0;
      assert !(zero <= L2BlockNumberFromTimestamp(cfg, t) <==> ExactTimestamp(cfg, zero) <= t);
    }
  }

  // ---- Header validation (consensus.rs) ----

  type Hash = nat

  datatype Header = Header(number: U64, timestamp: U64, parentHash: Hash, hash: Hash)

  datatype ConsensusError =
    | TimestampIsInFuture(timestamp: U64, present: U64)
    | ParentBlockNumberMismatch(parentNumber: U64, blockNumber: U64)

  function ExpectedTimestamp(cfg: RollupConfig, n: U64): Result<U64, ConsensusError> {
    match L2TimestampChecked(cfg, n)
    case None => Err(TimestampIsInFuture(U64_MAX, 0))
    case Some(t) => Ok(t)
  }

  function ValidateHeader(cfg: RollupConfig, h: Header): Result<(), ConsensusError> {
    match ExpectedTimestamp(cfg, h.number)
    case Err(e) => Err(e)
    case Ok(t) => if h.timestamp != t then Err(TimestampIsInFuture(h.timestamp, t)) else Ok(())
  }

  function ValidateHeaderAgainstParent(cfg: RollupConfig, h: Header, parent: Header): Result<(), ConsensusError> {
    if h.parentHash != parent.hash then
      Err(ParentBlockNumberMismatch(parent.number, h.number))
    else
      match CheckedAdd(parent.number, 1)
      case None => Err(ParentBlockNumberMismatch(parent.number, h.number))
      case Some(child) =>
        if h.number != child then Err(ParentBlockNumberMismatch(parent.number, h.number))
        else ValidateHeader(cfg, h)
  }

  /** What a refused header is refused for: a wrong parent hash or number first, then a timestamp off the
      formula, or one that does not fit. */
  lemma RefusedBecause(cfg: RollupConfig, h: Header, parent: Header)
    requires cfg.blockTime >= 1
    ensures var linked := h.parentHash == parent.hash && h.number == parent.number + 1;
            var exact := ExactTimestamp(cfg, h.number);
            ValidateHeaderAgainstParent(cfg, h, parent) ==
            if !linked then Err(ParentBlockNumberMismatch(parent.number, h.number))
            else if exact > U64_MAX then Err(TimestampIsInFuture(U64_MAX, 0))
            else if h.timestamp != exact then Err(TimestampIsInFuture(h.timestamp, exact))
            else Ok(())
  {
    CheckedTimestampIsExact(cfg, h.number);
  }

  ghost predicate AcceptedLink(cfg: RollupConfig, hs: seq<Header>, i: nat)
    requires 0 < i < |hs|
  {
    ValidateHeaderAgainstParent(cfg, hs[i], hs[i - 1]).Ok?
  }

  ghost predicate AcceptedChain(cfg: RollupConfig, hs: seq<Header>) {
    forall i :: 0 < i < |hs| ==> AcceptedLink(cfg, hs, i)
  }

  /** Header `i` extends its predecessor's hash, is number `i` after the first, and carries the
      exact formula timestamp. */
  ghost predicate OnTheClock(cfg: RollupConfig, hs: seq<Header>, i: nat)
    requires 0 < i < |hs|
  {
    && hs[i].parentHash == hs[i - 1].hash
    && hs[i].number == hs[0].number + i
    && hs[i].timestamp == ExactTimestamp(cfg, hs[i].number)
  }

  ghost predicate ClockChain(cfg: RollupConfig, hs: seq<Header>) {
    forall i :: 0 < i < |hs| ==> OnTheClock(cfg, hs, i)
  }

  /** A header chain is accepted link by link exactly when it is hash-linked, its numbers count up
      by one from the first, and every later header carries the exact formula timestamp. */
  lemma {:induction false} AcceptedChainIsTheClock(cfg: RollupConfig, hs: seq<Header>)
    requires cfg.blockTime >= 1
    requires |hs| > 0
    ensures AcceptedChain(cfg, hs) <==> ClockChain(cfg, hs)
  {
    if |hs| > 1 {
      var n := |hs| - 1;
      var init := hs[..n];
      AcceptedChainIsTheClock(cfg, init);
      CheckedTimestampIsExact(cfg, hs[n].number);
      assert forall i :: 0 < i < n ==>
        (AcceptedLink(cfg, hs, i) <==> AcceptedLink(cfg, init, i)) &&
        (OnTheClock(cfg, hs, i) <==> OnTheClock(cfg, init, i));
      assert AcceptedChain(cfg, hs) <==> AcceptedChain(cfg, init) && AcceptedLink(cfg, hs, n);
      assert ClockChain(cfg, hs) <==> ClockChain(cfg, init) && OnTheClock(cfg, hs, n);
      assert ClockChain(cfg, init) ==> hs[n - 1].number == hs[0].number + (n - 1) by {
        if ClockChain(cfg, init) && n > 1 { assert OnTheClock(cfg, init, n - 1); }
      }
    }
  }

  /** In an accepted chain consecutive headers are exactly one block time apart. */
  lemma AcceptedChainSteps(cfg: RollupConfig, hs: seq<Header>, i: nat)
    requires cfg.blockTime >= 1
    requires 0 < i && i + 1 < |hs|
    requires AcceptedChain(cfg, hs)
    ensures hs[i + 1].number == hs[i].number + 1
    ensures hs[i + 1].timestamp == hs[i].timestamp + cfg.blockTime
  {
    AcceptedChainIsTheClock(cfg, hs);
    assert OnTheClock(cfg, hs, i) && OnTheClock(cfg, hs, i + 1);
    assert (hs[i].number + 2) * cfg.blockTime == (hs[i].number + 1) * cfg.blockTime + cfg.blockTime;
  }
}
