/** Sums of per-thread weights. A protocol's threads are a sequence of program
    counters; a resource is conserved when every step changes the sum over all
    threads exactly as much as it changes the shared state. */
module Tally {

  datatype Option<T> = None | Some(value: T)

  /** One bit of a packed word. */
  datatype Flag = Off | On

  function Bit(b: bool): nat { if b then 1 else 0 }

  function Flagged(b: bool): Flag { if b then On else Off }

  function Min(a: int, b: int): int { if a < b then a else b }

  predicate Distinct<T(==)>(s: seq<T>) { forall i, j :: 0 <= i < j < |s| ==> s[i] != s[j] }

  /** A sequence without its element at index `k`. */
  function Cut<T>(s: seq<T>, k: nat): seq<T>
    requires k < |s|
  {
    s[..k] + s[k + 1..]
  }

  ghost function Sum<T>(s: seq<T>, w: T -> nat): nat {
    if s == [] then 0 else w(s[0]) + Sum(s[1..], w)
  }

  lemma {:induction false} SumUpdate<T>(s: seq<T>, i: nat, x: T, w: T -> nat)
    requires i < |s|
    ensures Sum(s[i := x], w) + w(s[i]) == Sum(s, w) + w(x)
  {
    if i == 0 {
      assert s[i := x][1..] == s[1..];
    } else {
      assert s[i := x][1..] == s[1..][i - 1 := x];
      SumUpdate(s[1..], i - 1, x, w);
    }
  }

  lemma {:induction false} SumAt<T>(s: seq<T>, i: nat, w: T -> nat)
    requires i < |s|
    ensures w(s[i]) <= Sum(s, w)
  {
    if i > 0 {
      SumAt(s[1..], i - 1, w);
    }
  }

  lemma {:induction false} SumTwo<T>(s: seq<T>, i: nat, j: nat, w: T -> nat)
    requires i < |s| && j < |s| && i != j
    ensures w(s[i]) + w(s[j]) <= Sum(s, w)
  {
    if i == 0 {
      SumAt(s[1..], j - 1, w);
    } else if j == 0 {
      SumAt(s[1..], i - 1, w);
    } else {
      SumTwo(s[1..], i - 1, j - 1, w);
    }
  }

  lemma {:induction false} SumWitness<T>(s: seq<T>, w: T -> nat) returns (i: nat)
    requires Sum(s, w) > 0
    ensures i < |s| && w(s[i]) > 0
  {
    if w(s[0]) > 0 {
      i := 0;
    } else {
      i := SumWitness(s[1..], w);
      i := i + 1;
    }
  }

  lemma {:induction false} SumZero<T>(s: seq<T>, w: T -> nat)
    requires forall i :: 0 <= i < |s| ==> w(s[i]) == 0
    ensures Sum(s, w) == 0
  {
    if s != [] {
      assert w(s[0]) == 0;
      SumZero(s[1..], w);
    }
  }

  /** A weight that is pointwise at least the sum of two others is so in total. */
  lemma {:induction false} SumCovers<T>(s: seq<T>, w: T -> nat, v: T -> nat, u: T -> nat)
    requires forall i :: 0 <= i < |s| ==> v(s[i]) + u(s[i]) <= w(s[i])
    ensures Sum(s, v) + Sum(s, u) <= Sum(s, w)
  {
    if s != [] {
      assert v(s[0]) + u(s[0]) <= w(s[0]);
      SumCovers(s[1..], w, v, u);
    }
  }
}
