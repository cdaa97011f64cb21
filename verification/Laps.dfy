/** Positions on a ring: quotient and remainder facts shared by the queues and the pipe. */
module Laps {

  /** One lap less is at least a whole capacity less. */
  lemma {:induction false} Fewer(d: int, q: int, cap: nat)
    ensures d < q ==> d * cap + cap <= q * cap
    decreases q - d
  {
    if d < q {
      if d + 1 < q {
        Fewer(d, q - 1, cap);
      }
      assert q * cap == (q - 1) * cap + cap;
    }
  }

  lemma Split(cap: nat, n: nat)
    requires cap > 0
    ensures n == n / cap * cap + n % cap && n % cap < cap && n / cap >= 0
  {
  }

  lemma Unique(cap: nat, q: nat, r: nat)
    requires r < cap
    ensures (q * cap + r) % cap == r && (q * cap + r) / cap == q
  {
    var n := q * cap + r;
    var d := n / cap;
    assert n == d * cap + n % cap;
    Fewer(d, q, cap);
    Fewer(q, d, cap);
  }

  lemma NextLap(cap: nat, n: nat)
    requires cap > 0
    ensures (n + cap) % cap == n % cap && (n + cap) / cap == n / cap + 1
  {
    Split(cap, n);
    assert (n / cap + 1) * cap == n / cap * cap + cap;
    Unique(cap, n / cap + 1, n % cap);
  }

  /** Moving less than a lap forward wraps at most once. */
  lemma Wrapped(cap: nat, h: nat, i: nat)
    requires cap > 0 && i <= cap
    ensures h % cap + i < cap ==> (h + i) % cap == h % cap + i && (h + i) / cap == h / cap
    ensures h % cap + i >= cap ==> (h + i) % cap == h % cap + i - cap && (h + i) / cap == h / cap + 1
  {
    var q, r := h / cap, h % cap;
    Split(cap, h);
    if r + i < cap {
      Unique(cap, q, r + i);
      assert h + i == q * cap + (r + i);
    } else {
      Unique(cap, q + 1, r + i - cap);
      assert h + i == (q + 1) * cap + (r + i - cap);
    }
  }

  /** Two positions less than a lap apart with the same index are the same. */
  lemma SameIndex(cap: nat, n: nat, m: nat)
    requires cap > 0 && n % cap == m % cap && m < n + cap && n < m + cap
    ensures n == m
  {
    var q, r := n / cap, m / cap;
    Split(cap, n);
    Split(cap, m);
    Fewer(q, r, cap);
    Fewer(r, q, cap);
  }

  lemma TwoLaps(q: nat, cap: nat)
    ensures q * (2 * cap) == 2 * q * cap && (2 * q + 1) * cap == 2 * q * cap + cap
  {
  }

  /** The index of a position, from its index on a ring of width `w`, two laps wide. */
  lemma Folded(cap: nat, w: nat, n: nat)
    requires cap > 0 && w == 2 * cap
    ensures n % cap == if n % w < cap then n % w else n % w - cap
  {
    Split(w, n);
    FoldedParts(cap, w, n / w, n % w, n);
  }

  lemma FoldedParts(cap: nat, w: nat, q: nat, r: nat, n: nat)
    requires cap > 0 && w == 2 * cap && r < w && n == q * w + r
    ensures n % cap == if r < cap then r else r - cap
  {
    TwoLaps(q, cap);
    if r < cap {
      Unique(cap, 2 * q, r);
    } else {
      Unique(cap, 2 * q + 1, r - cap);
    }
  }
}
