/** Shared by every other module. */
module Wrappers {
  datatype Option<+T> = None | Some(value: T)

  function Bit(b: bool): nat { if b then 1 else 0 }

  lemma SubsetIsSmaller<T>(a: set<T>, b: set<T>)
    requires a <= b
    ensures |a| <= |b|
  {
    assert b == a + (b - a);
  }

  lemma {:induction false} Unused(names: set<nat>, from: nat) returns (n: nat)
    ensures n !in names && n >= from
    decreases names
  {
    n := from;
    if n in names { n := Unused(names - {from}, from + 1); }
  }
}
