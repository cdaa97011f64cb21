/** The ranged integer functions of utils/rander.rs (`rand_integer!`), for every integer
    type: `size` is two to the power of its width, `m` that of the generator used. */
module RandRange {
  import opened Tally
  import opened Rander
  import Laps

  datatype Kind = Unsigned | Signed

  /** An integer type and its generator: 8, 16 and 32 bit types draw 32 bits, wider
      types their own width. */
  datatype Int = Int(kind: Kind, half: nat, m: nat)

  predicate Sensible(t: Int) { t.half > 0 && (t.m == Size(t) || t.m >= 2 * Size(t)) }

  function Size(t: Int): nat { 2 * t.half }

  function MinOf(t: Int): int { if t.kind.Signed? then 0 - t.half else 0 }

  function MaxOf(t: Int): int { if t.kind.Signed? then t.half - 1 else Size(t) - 1 }

  predicate Has(t: Int, x: int) { MinOf(t) <= x <= MaxOf(t) }

  /** Reduction of any integer to the type: `as`, `wrapping_add`, `wrapping_sub`. */
  function Wrap(t: Int, x: int): int
    requires t.half > 0
  {
    var u := x % Size(t);
    if t.kind.Signed? && u >= t.half then u - Size(t) else u
  }

  /** `len as _`: to the generator's unsigned type, with sign extension. */
  function Widen(t: Int, x: int): int { if x < 0 then x + t.m else x }

  // ---------------------------------------------------------------- bounds

  datatype Bound = Unbounded | Included(x: int) | Excluded(x: int)

  /** The smallest admissible value; None is the panic on an empty range. */
  function LowOf(t: Int, b: Bound): Option<int> {
    match b
    case Unbounded => Some(MinOf(t))
    case Included(x) => Some(x)
    case Excluded(x) => if x == MaxOf(t) then None else Some(x + 1)
  }

  function HighOf(t: Int, b: Bound): Option<int> {
    match b
    case Unbounded => Some(MaxOf(t))
    case Included(x) => Some(x)
    case Excluded(x) => if x == MinOf(t) then None else Some(x - 1)
  }

  function Bounds(t: Int, start: Bound, end: Bound): Option<(int, int)> {
    var low, high := LowOf(t, start), HighOf(t, end);
    if low.None? || high.None? || low.value > high.value then None else Some((low.value, high.value))
  }

  predicate BoundHas(t: Int, b: Bound) { b.Unbounded? || Has(t, b.x) }

  predicate After(b: Bound, x: int) {
    match b
    case Unbounded => true
    case Included(y) => y <= x
    case Excluded(y) => y < x
  }

  predicate Before(b: Bound, x: int) {
    match b
    case Unbounded => true
    case Included(y) => x <= y
    case Excluded(y) => x < y
  }

  /** The call panics exactly on the empty ranges, and otherwise its bounds are exact. */
  lemma BoundsAreExact(t: Int, start: Bound, end: Bound, x: int)
    requires t.half > 0 && BoundHas(t, start) && BoundHas(t, end) && Has(t, x)
    ensures After(start, x) && Before(end, x) <==>
            Bounds(t, start, end).Some? && Bounds(t, start, end).value.0 <= x <= Bounds(t, start, end).value.1
    ensures Bounds(t, start, end).Some? ==>
              var (low, high) := Bounds(t, start, end).value; Has(t, low) && Has(t, high) && low <= high
  {
  }

  // ---------------------------------------------------------------- the result

  predicate Full(t: Int, low: int, high: int) { low == MinOf(t) && high == MaxOf(t) }

  /** The modulus handed to `gen_mod_*`. */
  function Modulus(t: Int, low: int, high: int): int
    requires t.half > 0
  {
    Widen(t, Wrap(t, Wrap(t, high - low) + 1))
  }

  /** The value returned when `gen_mod_*` answers `k`. */
  function Answer(t: Int, low: int, k: int): int
    requires t.half > 0
  {
    Wrap(t, low + Wrap(t, k))
  }

  lemma WrapHas(t: Int, x: int)
    requires t.half > 0
    ensures Has(t, Wrap(t, x))
    ensures Has(t, x) ==> Wrap(t, x) == x
  {
    if 0 <= x < Size(t) {
      Laps.Unique(Size(t), 0, x);
    } else if x < 0 && x + Size(t) >= 0 {
      WrapNegative(Size(t), x);
    }
  }

  lemma WrapNegative(s: nat, x: int)
    requires s > 0 && x < 0 <= x + s
    ensures x % s == x + s
  {
    var q := x / s;
    assert x == q * s + x % s;
    Laps.Fewer(-1, q, s);
    Laps.Fewer(q, -1, s);
  }

  /** Wrapping forgets whole multiples of the size, one step up or down. */
  lemma WrapShift(t: Int, x: int)
    requires t.half > 0
    ensures Wrap(t, x + Size(t)) == Wrap(t, x)
  {
    var s := Size(t);
    var q := x / s;
    assert x == q * s + x % s;
    assert x + s == (q + 1) * s + x % s;
    ModUnique(s, q + 1, x % s);
  }

  lemma ModUnique(s: nat, q: int, r: nat)
    requires r < s
    ensures (q * s + r) % s == r
  {
    var x := q * s + r;
    var d := x / s;
    assert x == d * s + x % s;
    Laps.Fewer(d, q, s);
    Laps.Fewer(q, d, s);
  }

  /** When the ranged functions are right: the length of the range must survive the
      conversion to the generator's type. It does for unsigned types, for signed types
      with a generator of their own width, and for short ranges of the others. */
  predicate Good(t: Int, low: int, high: int) {
    t.kind.Unsigned? || t.m == Size(t) || high - low + 1 < t.half
  }

  predicate Proper(t: Int, low: int, high: int) {
    Sensible(t) && Has(t, low) && Has(t, high) && low <= high && !Full(t, low, high)
  }

  lemma ModulusIs(t: Int, low: int, high: int)
    requires Proper(t, low, high)
    ensures 0 < Modulus(t, low, high) < t.m
    ensures Modulus(t, low, high) == high - low + 1 + if Good(t, low, high) then 0 else t.m - Size(t)
  {
    var d := high - low;
    Reduced(t, d);
    Reduced(t, d + 1);
    if t.kind.Signed? && d >= t.half {
      WrapShift(t, d + 1 - Size(t));
    }
  }

  /** Wrapping a number of a single lap. */
  lemma Reduced(t: Int, d: int)
    requires t.half > 0 && 0 <= d < Size(t)
    ensures Wrap(t, d) == if t.kind.Signed? && d >= t.half then d - Size(t) else d
  {
    Laps.Unique(Size(t), 0, d);
  }

  lemma AnswerIs(t: Int, low: int, k: nat)
    requires t.half > 0 && k < Size(t)
    ensures Answer(t, low, k) == Wrap(t, low + k)
  {
    Reduced(t, k);
    WrapShift(t, low + k - Size(t));
  }

  /** In the good case the answer is the offset into the range. */
  lemma AnswerInRange(t: Int, low: int, high: int, k: nat)
    requires Proper(t, low, high) && low + k <= high
    ensures Answer(t, low, k) == low + k
  {
    AnswerIs(t, low, k);
    WrapHas(t, low + k);
  }

  /** In the bad case the first offset beyond the range is possible and leaves it. */
  lemma AnswerOutside(t: Int, low: int, high: int)
    requires Proper(t, low, high)
    ensures !(low <= Answer(t, low, high - low + 1) <= high)
  {
    AnswerIs(t, low, high - low + 1);
    if high < MaxOf(t) {
      WrapHas(t, high + 1);
    } else {
      WrapShift(t, MinOf(t));
      WrapHas(t, MinOf(t));
    }
  }

  /** Every draw the call may end with keeps the answer in the range. */
  ghost predicate AlwaysInRange(t: Int, low: int, high: int)
    requires Proper(t, low, high)
  {
    ModulusIs(t, low, high);
    var n := Modulus(t, low, high);
    forall r: nat :: r < t.m && Accepted(t.m, n, r) ==> low <= Answer(t, low, High(t.m, n, r)) <= high
  }

  /** The ranged functions stay within their range if and only if `Good` holds. */
  lemma RangeIffGood(t: Int, low: int, high: int)
    requires Proper(t, low, high)
    ensures AlwaysInRange(t, low, high) <==> Good(t, low, high)
  {
    ModulusIs(t, low, high);
    var n := Modulus(t, low, high);
    if Good(t, low, high) {
      forall r: nat | r < t.m && Accepted(t.m, n, r) ensures low <= Answer(t, low, High(t.m, n, r)) <= high {
        HighBelow(t.m, n, r);
        AnswerInRange(t, low, high, High(t.m, n, r));
      }
    } else {
      var k := high - low + 1;
      Unbiased(t.m, n, k);
      var r :| r in Draws(t.m, n, k);
      AnswerOutside(t, low, high);
    }
  }

  /** The accepted draws for which the call returns `v`. */
  ghost function DrawsFor(t: Int, low: int, high: int, v: int): set<nat>
    requires Proper(t, low, high) && Good(t, low, high)
  {
    ModulusIs(t, low, high);
    var n := Modulus(t, low, high);
    set r: nat | r < t.m && Accepted(t.m, n, r) && Answer(t, low, High(t.m, n, r)) == v
  }

  /** And then every value of the range is equally likely. */
  lemma RangeUnbiased(t: Int, low: int, high: int, v: int)
    requires Proper(t, low, high) && Good(t, low, high) && low <= v <= high
    ensures |DrawsFor(t, low, high, v)| == t.m / (high - low + 1)
  {
    ModulusIs(t, low, high);
    var n := Modulus(t, low, high);
    forall r: nat ensures r in DrawsFor(t, low, high, v) <==> r in Draws(t.m, n, v - low) {
      if r < t.m && Accepted(t.m, n, r) {
        HighBelow(t.m, n, r);
        AnswerInRange(t, low, high, High(t.m, n, r));
      }
    }
    assert DrawsFor(t, low, high, v) == Draws(t.m, n, v - low);
    Unbiased(t.m, n, v - low);
  }

  /** The source's types. */
  function I8(): Int { Int(Signed, 0x80, 0x1_0000_0000) }
  function I16(): Int { Int(Signed, 0x8000, 0x1_0000_0000) }
  function I32(): Int { Int(Signed, 0x8000_0000, 0x1_0000_0000) }
  function I64(): Int { Int(Signed, 0x8000_0000_0000_0000, 0x1_0000_0000_0000_0000) }
  function U8(): Int { Int(Unsigned, 0x80, 0x1_0000_0000) }
  function U16(): Int { Int(Unsigned, 0x8000, 0x1_0000_0000) }
  function U32(): Int { Int(Unsigned, 0x8000_0000, 0x1_0000_0000) }
  function U64(): Int { Int(Unsigned, 0x8000_0000_0000_0000, 0x1_0000_0000_0000_0000) }

  function I128(): Int {
    Int(Signed, 0x8000_0000_0000_0000_0000_0000_0000_0000, 0x1_0000_0000_0000_0000_0000_0000_0000_0000)
  }

  function U128(): Int {
    Int(Unsigned, 0x8000_0000_0000_0000_0000_0000_0000_0000, 0x1_0000_0000_0000_0000_0000_0000_0000_0000)
  }

  /** All ranges of the unsigned types and of i32, i64 and i128 are served in range. */
  lemma MostTypesStayInRange(t: Int, low: int, high: int)
    requires t in {U8(), U16(), U32(), U64(), U128(), I32(), I64(), I128()} && Proper(t, low, high)
    ensures AlwaysInRange(t, low, high)
  {
    RangeIffGood(t, low, high);
  }

  /** Ranges of i8 and i16 are served in range exactly if they are shorter than half the type. */
  lemma ShortTypesNeedShortRanges(t: Int, low: int, high: int)
    requires t in {I8(), I16()} && Proper(t, low, high)
    ensures AlwaysInRange(t, low, high) <==> high - low + 1 < t.half
  {
    RangeIffGood(t, low, high);
  }

  /** The others are not: `i8(-100..=100)` answers -128 on the draw 2^31. */
  lemma I8LeavesItsRange()
    ensures Proper(I8(), -100, 100) && !Good(I8(), -100, 100)
    ensures var n := Modulus(I8(), -100, 100);
            && n == 4294967241 && Accepted(I8().m, n, 0x8000_0000)
            && Answer(I8(), -100, High(I8().m, n, 0x8000_0000)) == -128
  {
    ModulusIs(I8(), -100, 100);
    I8Draw();
  }

  lemma I8Draw()
    ensures Low(0x1_0000_0000, 4294967241, 0x8000_0000) == 0x8000_0000 && Threshold(0x1_0000_0000, 4294967241) == 55
    ensures High(0x1_0000_0000, 4294967241, 0x8000_0000) == 2147483620 && Answer(I8(), -100, 2147483620) == -128
  {
    Laps.Unique(0x1_0000_0000, 2147483620, 0x8000_0000);
    Laps.Unique(0x1_0000_0000, 0, 55);
    Laps.Unique(4294967241, 0, 55);
    ModUnique(256, 8388607, 228);
    ModUnique(256, -1, 128);
  }
}
