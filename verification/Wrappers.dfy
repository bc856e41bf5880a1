/** Option and Result, and the unsigned 64-bit arithmetic of the node written out
    on mathematical integers. */
module Wrappers {

  datatype Option<+T> = None | Some(value: T)

  datatype Result<+T, +E> = Ok(value: T) | Err(error: E)
}

module MachineInts {
  import opened Wrappers

  const U64_MAX: nat := 0xFFFF_FFFF_FFFF_FFFF
  const TWO_TO_64: nat := 0x1_0000_0000_0000_0000
  const TWO_TO_255: nat := 0x8000000000000000000000000000000000000000000000000000000000000000

  type U64 = n: int | 0 <= n <= U64_MAX
  type U256 = n: int | 0 <= n < 2 * TWO_TO_255

  function Min(a: int, b: int): int {
    if a <= b then a else b
  }

  function Max(a: int, b: int): int {
    if a <= b then b else a
  }

  /** `a - b`, or zero when there is less than `b`. */
  function Excess(a: nat, b: nat): nat {
    if a < b then 0 else a - b
  }

  function SaturatingAdd(a: U64, b: U64): U64 {
    if a + b > U64_MAX then U64_MAX else a + b
  }

  function SaturatingMul(a: U64, b: U64): U64 {
    if a * b > U64_MAX then U64_MAX else
      assert 0 <= a * b;
      a * b
  }

  function SaturatingSub(a: U64, b: U64): U64 {
    if a < b then 0 else a - b
  }

  function CheckedAdd(a: U64, b: U64): Option<U64> {
    if a + b > U64_MAX then None else Some(a + b)
  }

  function CheckedMul(a: U64, b: U64): Option<U64> {
    if a * b > U64_MAX then None else
      assert 0 <= a * b;
      Some(a * b)
  }

  /** `I256::try_from(value).unwrap_or(ZERO)`: values of 2^255 and above do not fit. */
  function ToI256OrZero(v: U256): int {
    if v < TWO_TO_255 then v else 0
  }
}

/** Small facts about sets and sequences. */
module Collections {

  /** Adding the next number to a set of smaller ones. */
  lemma OneMoreOrSame(prior: set<nat>, all: set<nat>, n: nat)
    requires n !in prior
    requires forall i :: i in all <==> i in prior || (i == n && n in all)
    ensures |all| == |prior| + if n in all then 1 else 0
  {
    if n in all {
      assert all == prior + {n};
    } else {
      assert all == prior;
    }
  }

  lemma AppendAssociates<T>(a: seq<T>, b: seq<T>, c: seq<T>)
    ensures a + (b + c) == (a + b) + c
  {
  }
}
