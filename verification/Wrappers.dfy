/** Small shared datatypes and words. */
module Wrappers {
  datatype Option<+T> = None | Some(value: T)

  /** There is always a number that is not used yet. */
  lemma {:induction false} FreshNumber(used: set<nat>) returns (c: nat)
    ensures forall d <- used :: d < c
    decreases |used|
  {
    c := 0;
    if used != {} {
      var d :| d in used;
      var b := FreshNumber(used - {d});
      c := if d < b then b else d + 1;
      assert forall e <- used :: e == d || e in used - {d};
    }
  }
}

/** Bytes, and unsigned 64-bit words with the wrap-around of Go's uint64. */
module Words {
  const TWO_TO_THE_64: nat := 0x1_0000_0000_0000_0000

  type uint64 = n: int | 0 <= n < TWO_TO_THE_64

  type byte = n: int | 0 <= n < 256

  type Bytes = seq<byte>

  function Add64(a: uint64, b: nat): uint64 { (a + b) % TWO_TO_THE_64 }

  function Sub64(a: uint64, b: nat): uint64 { (a - b) % TWO_TO_THE_64 }

  /** Without wrap-around the unsigned operations are the exact ones. */
  lemma Exact(a: uint64, b: nat)
    ensures a + b < TWO_TO_THE_64 ==> Add64(a, b) == a + b
    ensures b <= a ==> Sub64(a, b) == a - b
  {
  }

  function Max(a: nat, b: nat): nat { if a < b then b else a }

  function Min(a: nat, b: nat): nat { if a < b then a else b }
}
