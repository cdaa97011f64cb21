/** The packed words of platform/queue/bounded.rs. A word is lap number, close bit and
    slot index side by side; this module shows that the masks and comparisons the
    source makes on words are the comparisons of claim numbers in `BoundedQueue`. */
module BoundedWords {
  import opened Tally
  import opened BoundedQueue
  import Laps

  // ---------------------------------------------------------------- masks

  function Pow2(k: nat): (r: nat)
    ensures r > 0
  {
    if k == 0 then 1 else 2 * Pow2(k - 1)
  }

  /** Bitwise and. */
  function And(x: nat, y: nat): nat {
    if x == 0 || y == 0 then 0 else 2 * And(x / 2, y / 2) + (x % 2) * (y % 2)
  }

  /** Bitwise and with a complement, `x & !y`. */
  function AndNot(x: nat, y: nat): nat {
    if x == 0 then 0 else 2 * AndNot(x / 2, y / 2) + (x % 2) * (1 - y % 2)
  }

  lemma {:induction false} AndSplits(x: nat, y: nat)
    ensures And(x, y) + AndNot(x, y) == x
  {
    if x != 0 {
      if y == 0 {
        AndSplits(x / 2, 0);
      } else {
        AndSplits(x / 2, y / 2);
        assert y % 2 == 0 || y % 2 == 1;
      }
    }
  }

  lemma HalfOf(x: nat, q: nat, b: nat)
    requires x == 2 * q + b && b < 2
    ensures x / 2 == q && x % 2 == b
  {
  }

  /** `x & (2^k - 1)` is the low part of `x`. */
  lemma {:induction false} LowMask(q: nat, k: nat, r: nat)
    requires r < Pow2(k)
    ensures And(q * Pow2(k) + r, Pow2(k) - 1) == r
  {
    if k > 0 {
      Doubled(q, k);
      LowMask(q, k - 1, r / 2);
      AndUnfold(q * Pow2(k) + r, Pow2(k) - 1, q * Pow2(k - 1) + r / 2, Pow2(k - 1) - 1, r % 2, 1);
    }
  }

  /** `x & 2^k` is bit `k` of `x`. */
  lemma {:induction false} BitMask(q: nat, b: nat, k: nat, r: nat)
    requires r < Pow2(k) && b < 2
    ensures And((2 * q + b) * Pow2(k) + r, Pow2(k)) == b * Pow2(k)
  {
    var x := (2 * q + b) * Pow2(k) + r;
    if k == 0 {
      HalfOf(x, q, b);
      assert And(x / 2, 0) == 0;
    } else {
      Doubled(2 * q + b, k);
      Doubled(b, k);
      HalfOf(x, (2 * q + b) * Pow2(k - 1) + r / 2, r % 2);
      HalfOf(Pow2(k), Pow2(k - 1), 0);
      BitMask(q, b, k - 1, r / 2);
      AndUnfold(x, Pow2(k), (2 * q + b) * Pow2(k - 1) + r / 2, Pow2(k - 1), r % 2, 0);
    }
  }

  lemma Doubled(c: nat, k: nat)
    requires k > 0
    ensures c * Pow2(k) == 2 * (c * Pow2(k - 1))
  {
  }

  /** And of two numbers, from their halves and last bits. */
  lemma AndUnfold(x: nat, y: nat, hx: nat, hy: nat, bx: nat, b: nat)
    requires x == 2 * hx + bx && bx < 2 && y == 2 * hy + b && b < 2
    ensures And(x, y) == 2 * And(hx, hy) + bx * b
  {
    HalfOf(x, hx, bx);
    HalfOf(y, hy, b);
  }

  // ---------------------------------------------------------------- layout

  /** `(cap + 1).next_power_of_two()`, as an exponent. */
  function MarkExponent(cap: nat): nat { LeastExponent(cap, 0) }

  function LeastExponent(cap: nat, k: nat): (e: nat)
    requires k == 0 || Pow2(k - 1) <= cap
    ensures e >= k && cap < Pow2(e) && (e == 0 || Pow2(e - 1) <= cap)
    decreases cap - k + 1
  {
    if cap < Pow2(k) then k
    else
      Outgrows(k);
      LeastExponent(cap, k + 1)
  }

  lemma {:induction false} Outgrows(k: nat)
    ensures k < Pow2(k)
  {
    if k > 0 {
      Outgrows(k - 1);
    }
  }

  function MarkBit(cap: nat): (r: nat)
    ensures cap < r
  {
    Pow2(MarkExponent(cap))
  }

  function OneLap(cap: nat): nat { 2 * MarkBit(cap) }

  /** The word of claim number `n`, without the close bit. */
  function Word(cap: nat, n: nat): nat
    requires cap > 0
  {
    n / cap * OneLap(cap) + n % cap
  }

  /** The tail word: the close bit lies between index and lap. */
  function TailWord(cap: nat, n: nat, closed: Flag): nat
    requires cap > 0
  {
    Word(cap, n) + if closed.On? then MarkBit(cap) else 0
  }

  function StampWord(cap: nat, s: Stamp): nat
    requires cap > 0
  {
    match s
    case Free(n) => Word(cap, n)
    case Full(n) => Word(cap, n) + 1
  }

  /** The masks on a word made of lap `q`, close bit `b` and index `r`. */
  lemma Parts(k: nat, q: nat, b: nat, r: nat)
    requires r < Pow2(k) && b < 2
    ensures var w := q * Pow2(k + 1) + r + b * Pow2(k);
            And(w, Pow2(k) - 1) == r && And(w, Pow2(k)) == b * Pow2(k) && AndNot(w, Pow2(k)) == q * Pow2(k + 1) + r
  {
    var w := q * Pow2(k + 1) + r + b * Pow2(k);
    assert w == (2 * q + b) * Pow2(k) + r;
    LowMask(2 * q + b, k, r);
    BitMask(q, b, k, r);
    AndSplits(w, Pow2(k));
  }

  /** Index, close bit, and the word without the close bit come out of a tail word. */
  lemma TailParts(cap: nat, n: nat, closed: Flag)
    requires cap > 0
    ensures And(TailWord(cap, n, closed), MarkBit(cap) - 1) == n % cap
    ensures And(TailWord(cap, n, closed), MarkBit(cap)) != 0 <==> closed.On?
    ensures AndNot(TailWord(cap, n, closed), MarkBit(cap)) == Word(cap, n)
  {
    Parts(MarkExponent(cap), n / cap, Bit(closed.On?), n % cap);
  }

  lemma OpenIndex(k: nat, q: nat, r: nat)
    requires r < Pow2(k)
    ensures And(q * Pow2(k + 1) + r, Pow2(k) - 1) == r
  {
    assert q * Pow2(k + 1) == 2 * q * Pow2(k);
    LowMask(2 * q, k, r);
  }

  lemma LapPart(k: nat, q: nat, r: nat)
    requires r < Pow2(k)
    ensures AndNot(q * Pow2(k) + r, Pow2(k) - 1) == q * Pow2(k)
  {
    LowMask(q, k, r);
    AndSplits(q * Pow2(k) + r, Pow2(k) - 1);
  }

  lemma OneMoreLap(q: nat, l: nat)
    ensures (q + 1) * l == q * l + l
  {
  }

  /** Two numbers below a lap apart in their low part agree only if all parts do. */
  lemma PartsUnique(l: nat, q: nat, r: nat, q': nat, r': nat)
    requires r < l && r' < l && q * l + r == q' * l + r'
    ensures q == q' && r == r'
  {
    Laps.Fewer(q, q', l);
    Laps.Fewer(q', q, l);
  }

  /** Different claim numbers have different words. */
  lemma WordInjective(cap: nat, n: nat, m: nat)
    requires cap > 0
    ensures Word(cap, n) == Word(cap, m) <==> n == m
  {
    var q, q', r, r' := n / cap, m / cap, n % cap, m % cap;
    Laps.Split(cap, n);
    Laps.Split(cap, m);
    if q * OneLap(cap) + r == q' * OneLap(cap) + r' {
      PartsUnique(OneLap(cap), q, r, q', r');
    }
  }

  lemma NotAdjacent(l: nat, q: nat, q': nat, r: nat)
    requires r + 1 < l
    ensures q * l + r != q' * l + r + 1
  {
    if q * l + r == q' * l + r + 1 {
      PartsUnique(l, q, r, q', r + 1);
    }
  }

  /** A word is never one more than the word of a position with the same index. */
  lemma NotOneMore(cap: nat, n: nat, m: nat)
    requires cap > 0 && n % cap == m % cap
    ensures Word(cap, n) != Word(cap, m) + 1
  {
    NotAdjacent(OneLap(cap), n / cap, m / cap, n % cap);
  }

  /** `new_tail` and `new` in the source: the word after `w`. */
  function NextWord(cap: nat, w: nat): nat
    requires cap > 0
  {
    if And(w, MarkBit(cap) - 1) + 1 < cap then w + 1 else AndNot(w, OneLap(cap) - 1) + OneLap(cap)
  }

  /** The successor of a word made of lap `q` and index `r`. */
  lemma NextParts(cap: nat, q: nat, r: nat)
    requires r < cap
    ensures NextWord(cap, q * OneLap(cap) + r) ==
              if r + 1 < cap then q * OneLap(cap) + (r + 1) else (q + 1) * OneLap(cap)
  {
    OpenIndex(MarkExponent(cap), q, r);
    LapPart(MarkExponent(cap) + 1, q, r);
    OneMoreLap(q, OneLap(cap));
  }

  lemma NextIsNext(cap: nat, n: nat)
    requires cap > 0
    ensures NextWord(cap, Word(cap, n)) == Word(cap, n + 1)
  {
    NextParts(cap, n / cap, n % cap);
    Laps.Wrapped(cap, n, 1);
  }

  lemma LapIsCap(cap: nat, n: nat)
    requires cap > 0
    ensures Word(cap, n) + OneLap(cap) == Word(cap, n + cap)
  {
    Laps.NextLap(cap, n);
    OneMoreLap(n / cap, OneLap(cap));
  }

  /** The stamps `Bounded::new` writes are those of free slots of the first lap. */
  lemma InitialStamps(cap: nat, i: nat)
    requires i < cap
    ensures StampWord(cap, Free(i)) == i
  {
    Laps.Unique(cap, 0, i);
  }

  /** The comparisons of `push` and `pop` between a word and the stamp of its slot. */
  lemma StampTests(cap: nat, n: nat, s: Stamp)
    requires cap > 0 && s.n % cap == n % cap
    ensures Word(cap, n) == StampWord(cap, s) <==> s == Free(n)
    ensures Word(cap, n) + 1 == StampWord(cap, s) <==> s == Full(n)
    ensures StampWord(cap, s) + OneLap(cap) == Word(cap, n) + 1 <==> n >= cap && s == Full(n - cap)
  {
    var m := s.n;
    WordInjective(cap, n, m);
    LapIsCap(cap, m);
    WordInjective(cap, n, m + cap);
    Laps.NextLap(cap, m);
    NotOneMore(cap, n, m);
    NotOneMore(cap, m, n);
    NotOneMore(cap, m + cap, n);
  }

  // ---------------------------------------------------------------- the source's branches

  datatype PushBranch = PushClosed | PushClaim(next: nat) | PushMaybeFull | PushRetry

  /** How `push` goes on from a tail word and a stamp word. */
  function PushChoice(cap: nat, tail: nat, stamp: nat): PushBranch
    requires cap > 0
  {
    if And(tail, MarkBit(cap)) != 0 then PushClosed
    else if tail == stamp then PushClaim(NextWord(cap, tail))
    else if stamp + OneLap(cap) == tail + 1 then PushMaybeFull
    else PushRetry
  }

  datatype PopBranch = PopClaim(next: nat) | PopMaybeEmpty | PopRetry

  /** How `pop` goes on from a head word and a stamp word. */
  function PopChoice(cap: nat, head: nat, stamp: nat): PopBranch
    requires cap > 0
  {
    if head + 1 == stamp then PopClaim(NextWord(cap, head))
    else if stamp == head then PopMaybeEmpty
    else PopRetry
  }

  /** The branches on words are the branches of the claim-number machine, and the
      stored words are the words of its new state. */
  lemma PushRefines(a: Shared, i: nat, v: int, t: nat, closed: Flag, c: nat)
    requires Shaped(a) && StampAt(a, t).n % a.cap == Index(a, t)
    ensures And(TailWord(a.cap, t, closed), MarkBit(a.cap) - 1) == Index(a, t)
    ensures DoPush(a, i, PushLoop(v, t, closed), c).pc ==
              match PushChoice(a.cap, TailWord(a.cap, t, closed), StampWord(a.cap, StampAt(a, t))) {
                case PushClosed => Said(WasClosed)
                case PushClaim(_) => OnPush(PushCas(v, t))
                case PushMaybeFull => OnPush(PushFull(v, t))
                case PushRetry => OnPush(PushLoad(v))
              }
    ensures closed.Off? ==> NextWord(a.cap, TailWord(a.cap, t, closed)) == Word(a.cap, t + 1)
    ensures Word(a.cap, a.head) + OneLap(a.cap) == Word(a.cap, t) <==> a.head + a.cap == t
  {
    TailParts(a.cap, t, closed);
    StampTests(a.cap, t, StampAt(a, t));
    NextIsNext(a.cap, t);
    LapIsCap(a.cap, a.head);
    WordInjective(a.cap, a.head + a.cap, t);
  }

  lemma PopRefines(a: Shared, i: nat, h: nat, c: nat)
    requires Shaped(a) && StampAt(a, h).n % a.cap == Index(a, h)
    ensures And(Word(a.cap, h), MarkBit(a.cap) - 1) == Index(a, h)
    ensures DoPop(a, i, PopLoop(h), c).pc ==
              match PopChoice(a.cap, Word(a.cap, h), StampWord(a.cap, StampAt(a, h))) {
                case PopClaim(_) => OnPop(PopCas(h))
                case PopMaybeEmpty => OnPop(PopTail(h))
                case PopRetry => OnPop(PopLoad)
              }
    ensures NextWord(a.cap, Word(a.cap, h)) == Word(a.cap, h + 1)
  {
    TailParts(a.cap, h, Off);
    StampTests(a.cap, h, StampAt(a, h));
    NextIsNext(a.cap, h);
  }

  /** The stamp a popper leaves behind and the test for emptiness. */
  lemma PopWords(a: Shared, h: nat)
    requires a.cap > 0
    ensures Word(a.cap, h) + OneLap(a.cap) == StampWord(a.cap, Free(h + a.cap))
    ensures AndNot(TailWord(a.cap, a.tail, a.closed), MarkBit(a.cap)) == Word(a.cap, h) <==> a.tail == h
  {
    TailParts(a.cap, a.tail, a.closed);
    LapIsCap(a.cap, h);
    WordInjective(a.cap, a.tail, h);
  }
}
