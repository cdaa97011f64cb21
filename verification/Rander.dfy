/** Bounded random numbers, utils/rander.rs: multiply-and-reject sampling of `gen_mod_*`,
    the 128-bit high multiply, and the ranged integer functions. A draw of the
    underlying generator is a number below `m`, two to the power of its width. */
module Rander {
  import opened Tally
  import Laps

  // ---------------------------------------------------------------- sampling

  /** `mul_high`: the high word of the double-width product. */
  function High(m: nat, n: nat, r: nat): nat
    requires m > 0
  {
    r * n / m
  }

  /** `wrapping_mul`: the low word. */
  function Low(m: nat, n: nat, r: nat): nat
    requires m > 0
  {
    r * n % m
  }

  /** `n.wrapping_neg() % n`. */
  function Threshold(m: nat, n: nat): nat
    requires 0 < n < m
  {
    (m - n) % m % n
  }

  predicate Accepted(m: nat, n: nat, r: nat)
    requires 0 < n < m
  {
    Low(m, n, r) >= n || Low(m, n, r) >= Threshold(m, n)
  }

  /** `gen_mod_*` over the draws the generator would give; None when they run out. */
  method GenMod(m: nat, n: nat, draws: seq<nat>) returns (result: Option<nat>, used: nat)
    requires 0 < n < m && forall i :: 0 <= i < |draws| ==> draws[i] < m
    ensures used <= |draws| && forall i :: 0 <= i < used - 1 ==> !Accepted(m, n, draws[i])
    ensures result.Some? ==> used > 0 && Accepted(m, n, draws[used - 1])
    ensures result.Some? ==> result.value == High(m, n, draws[used - 1])
    ensures result.None? ==> used == |draws| && forall i :: 0 <= i < |draws| ==> !Accepted(m, n, draws[i])
  {
    if |draws| == 0 {
      return None, 0;
    }
    used := 1;
    var hi, lo := High(m, n, draws[0]), Low(m, n, draws[0]);
    AcceptedIs(m, n, draws[0]);
    if lo < n {
      var t := Threshold(m, n);
      while lo < t
        invariant 0 < used <= |draws|
        invariant hi == High(m, n, draws[used - 1]) && (Accepted(m, n, draws[used - 1]) <==> lo >= t)
        invariant forall i :: 0 <= i < used - 1 ==> !Accepted(m, n, draws[i])
        decreases |draws| - used
      {
        if used == |draws| {
          return None, used;
        }
        hi, lo := High(m, n, draws[used]), Low(m, n, draws[used]);
        AcceptedIs(m, n, draws[used]);
        used := used + 1;
      }
    }
    return Some(hi), used;
  }

  lemma AcceptedIs(m: nat, n: nat, r: nat)
    requires 0 < n < m
    ensures Accepted(m, n, r) <==> Low(m, n, r) >= Threshold(m, n)
  {
    ThresholdIs(m, n);
  }

  lemma ThresholdIs(m: nat, n: nat)
    requires 0 < n < m
    ensures Threshold(m, n) == m % n < n
  {
    Laps.Unique(m, 0, m - n);
    Laps.Split(n, m - n);
    Laps.NextLap(n, m - n);
  }

  /** Division as an interval: the quotient of `x` by `m` is `k` with remainder at least `t`. */
  lemma QuotientInterval(x: nat, m: nat, k: nat, t: nat)
    requires m > 0 && t < m
    ensures x / m == k && x % m >= t <==> k * m + t <= x < k * m + m
  {
    Laps.Split(m, x);
    if k * m + t <= x < k * m + m {
      Laps.Unique(m, k, x - k * m);
    }
  }

  /** Smallest `r` with `r * n >= a`. */
  function Ceiling(a: nat, n: nat): nat
    requires n > 0
  {
    (a + n - 1) / n
  }

  lemma CeilingIs(a: nat, n: nat, r: int)
    requires n > 0
    ensures r * n >= a <==> r >= Ceiling(a, n)
  {
    var c := Ceiling(a, n);
    Laps.Split(n, a + n - 1);
    Laps.Fewer(r, c, n);
    Laps.Fewer(c - 1, r, n);
    assert c * n == (c - 1) * n + n;
  }

  /** The first draw that is accepted with result `k`. */
  function FirstDraw(m: nat, n: nat, k: nat): nat
    requires 0 < n < m
  {
    Ceiling(k * m + m % n, n)
  }

  /** The accepted draws with result `k` are `m / n` neighbouring numbers. */
  lemma AcceptedInterval(m: nat, n: nat, k: nat, r: nat)
    requires 0 < n < m && k < n
    ensures r < m && Accepted(m, n, r) && High(m, n, r) == k <==>
            FirstDraw(m, n, k) <= r < FirstDraw(m, n, k) + m / n
  {
    AcceptedProduct(m, n, k, r);
    ProductInterval(m, n, k, r);
    if r >= m {
      TooLarge(m, n, k, r);
    }
  }

  lemma ProductInterval(m: nat, n: nat, k: nat, r: nat)
    requires 0 < n < m
    ensures k * m + m % n <= r * n < k * m + m <==> FirstDraw(m, n, k) <= r < FirstDraw(m, n, k) + m / n
  {
    Laps.Split(n, m);
    MultiplesInInterval(k * m + m % n, n, m / n, r);
  }

  lemma AcceptedProduct(m: nat, n: nat, k: nat, r: nat)
    requires 0 < n < m
    ensures Accepted(m, n, r) && High(m, n, r) == k <==> k * m + m % n <= r * n < k * m + m
  {
    ThresholdIs(m, n);
    AcceptedIs(m, n, r);
    QuotientInterval(r * n, m, k, m % n);
  }

  lemma TooLarge(m: nat, n: nat, k: nat, r: nat)
    requires k < n && r >= m
    ensures r * n >= k * m + m
  {
    Laps.Fewer(m - 1, r, n);
    assert m * n == (m - 1) * n + n;
    Laps.Fewer(k, n, m);
  }

  /** A half-open interval of length `q * n` holds `q` multiples of `n`. */
  lemma MultiplesInInterval(a: nat, n: nat, q: nat, r: nat)
    requires n > 0
    ensures a <= r * n < a + q * n <==> Ceiling(a, n) <= r < Ceiling(a, n) + q
  {
    CeilingIs(a, n, r);
    CeilingIs(a, n, r - q);
    assert (r - q) * n == r * n - q * n;
  }

  ghost function Draws(m: nat, n: nat, k: nat): set<nat>
    requires 0 < n < m
  {
    set r: nat | r < m && Accepted(m, n, r) && High(m, n, r) == k
  }

  ghost function Interval(from: nat, size: nat): (s: set<nat>)
    ensures |s| == size && forall r: nat :: r in s <==> from <= r < from + size
  {
    if size == 0 then {} else Interval(from, size - 1) + {from + size - 1}
  }

  /** Rejection sampling is unbiased: every result below `n` comes from equally many
      accepted draws, namely (m - m mod n) / n, which is at least one. */
  lemma Unbiased(m: nat, n: nat, k: nat)
    requires 0 < n < m && k < n
    ensures |Draws(m, n, k)| == (m - m % n) / n == m / n >= 1
  {
    var from, size := FirstDraw(m, n, k), m / n;
    forall r: nat ensures r in Draws(m, n, k) <==> r in Interval(from, size) {
      AcceptedInterval(m, n, k, r);
    }
    assert Draws(m, n, k) == Interval(from, size);
    Share(m, n);
  }

  lemma Share(m: nat, n: nat)
    requires 0 < n < m
    ensures (m - m % n) / n == m / n >= 1
  {
    Laps.Split(n, m);
    Laps.Unique(n, m / n, 0);
    Laps.NextLap(n, m - n);
  }

  /** Results are below `n`. */
  lemma HighBelow(m: nat, n: nat, r: nat)
    requires m > 0 && r < m && n > 0
    ensures High(m, n, r) < n
  {
    var h := High(m, n, r);
    Laps.Fewer(r, m, n);
    Laps.Split(m, r * n);
    Laps.Fewer(n - 1, h, m);
  }

  // ---------------------------------------------------------------- the high word of a wide product

  function Times(x: nat, y: nat): nat { x * y }

  function Quotient(x: nat, b: nat): nat
    requires b > 0
  {
    x / b
  }

  /** The sums and carries of `mul_high_u128`, from the four products of halves. */
  function Combine(b: nat, p: nat, u: nat, v: nat, w: nat): nat
    requires b > 0
  {
    var carry := Quotient(w, b);
    var carry2 := Quotient(u % b + v % b + carry, b);
    p + Quotient(u, b) + Quotient(v, b) + carry2
  }

  /** `mul_high_u128` on halves of base `b` (two to the 64th), as the source computes it. */
  function MulHigh(b: nat, x: nat, y: nat): nat
    requires b > 0
  {
    var (x0, x1, y0, y1) := (x % b, x / b, y % b, y / b);
    Combine(b, Times(x1, y1), Times(x1, y0), Times(x0, y1), Times(x0, y0))
  }

  lemma TwoDigits(b: nat, high: nat, low: nat)
    requires high < b && low < b
    ensures high * b + low < b * b
  {
    assert high * b <= (b - 1) * b;
  }

  lemma ProductParts(b: nat, x1: nat, x0: nat, y1: nat, y0: nat)
    ensures (x1 * b + x0) * (y1 * b + y0)
         == Times(x1, y1) * (b * b) + Times(x1, y0) * b + Times(x0, y1) * b + Times(x0, y0)
  {
    calc {
      (x1 * b + x0) * (y1 * b + y0);
      (x1 * b) * (y1 * b + y0) + x0 * (y1 * b + y0);
      (x1 * b) * (y1 * b) + (x1 * b) * y0 + x0 * (y1 * b) + x0 * y0;
      x1 * y1 * (b * b) + (x1 * y0) * b + (x0 * y1) * b + x0 * y0;
    }
  }

  /** The carries lose nothing: `Combine` is the high part of the sum of the products. */
  lemma CombineIsHigh(b: nat, p: nat, u: nat, v: nat, w: nat) returns (low: nat)
    requires b > 0
    ensures p * (b * b) + u * b + v * b + w == Combine(b, p, u, v, w) * (b * b) + low && low < b * b
  {
    Laps.Split(b, u);
    Laps.Split(b, v);
    Laps.Split(b, w);
    low := CombineDigits(b, p, u / b, u % b, v / b, v % b, w / b, w % b);
  }

  lemma CombineDigits(b: nat, p: nat, u1: nat, u0: nat, v1: nat, v0: nat, w1: nat, w0: nat) returns (low: nat)
    requires b > 0 && w0 < b
    ensures p * (b * b) + (u1 * b + u0) * b + (v1 * b + v0) * b + (w1 * b + w0)
         == (p + u1 + v1 + (u0 + v0 + w1) / b) * (b * b) + low
    ensures low < b * b
  {
    var mid := u0 + v0 + w1;
    Laps.Split(b, mid);
    Carry(b, p, u1, u0, v1, v0, w1, w0, mid / b, mid % b);
    TwoDigits(b, mid % b, w0);
    low := mid % b * b + w0;
  }

  lemma Carry(b: nat, p: nat, u1: nat, u0: nat, v1: nat, v0: nat, w1: nat, w0: nat, m1: nat, m0: nat)
    requires u0 + v0 + w1 == m1 * b + m0
    ensures p * (b * b) + (u1 * b + u0) * b + (v1 * b + v0) * b + (w1 * b + w0)
         == (p + u1 + v1 + m1) * (b * b) + (m0 * b + w0)
  {
    calc {
      p * (b * b) + (u1 * b + u0) * b + (v1 * b + v0) * b + (w1 * b + w0);
      p * (b * b) + u1 * (b * b) + v1 * (b * b) + (u0 + v0 + w1) * b + w0;
      p * (b * b) + u1 * (b * b) + v1 * (b * b) + m1 * (b * b) + m0 * b + w0;
      (p + u1 + v1 + m1) * (b * b) + (m0 * b + w0);
    }
  }

  lemma HalfBound(b: nat, x: nat)
    requires b > 0 && x < b * b
    ensures x == x / b * b + x % b && x / b < b && x % b < b
  {
    Laps.Split(b, x);
    Laps.Fewer(b - 1, x / b, b);
  }

  /** `mul_high_u128` is exactly the high word of the product. */
  lemma MulHighIsHigh(b: nat, x: nat, y: nat)
    requires b > 0
    ensures b * b > 0 && MulHigh(b, x, y) == High(b * b, y, x)
  {
    Laps.Split(b, x);
    Laps.Split(b, y);
    var x1, x0, y1, y0 := x / b, x % b, y / b, y % b;
    ProductParts(b, x1, x0, y1, y0);
    var low := CombineIsHigh(b, Times(x1, y1), Times(x1, y0), Times(x0, y1), Times(x0, y0));
    Laps.Unique(b * b, MulHigh(b, x, y), low);
  }

  /** What `mul_high_u128` computes with: four products of halves and a sum of three halves. */
  predicate Fits(b: nat, p: nat, u: nat, v: nat, w: nat)
    requires b > 0
  {
    p < b * b && u < b * b && v < b * b && w < b * b && u % b + v % b + w / b < b * b
  }

  lemma SumFits(b: nat, u: nat, v: nat, w: nat)
    requires b >= 3 && w < b * b
    ensures u % b + v % b + w / b < b * b
  {
    Laps.Split(b, u);
    Laps.Split(b, v);
    HalfBound(b, w);
    ThreeHalves(b, u % b, v % b, w / b);
  }

  lemma ThreeHalves(b: nat, x: nat, y: nat, z: nat)
    requires b >= 3 && x < b && y < b && z < b
    ensures x + y + z < b * b
  {
    assert 3 * b <= b * b;
  }

  lemma HalfProduct(b: nat, x: nat, y: nat)
    requires x < b && y < b
    ensures Times(x, y) < b * b
  {
    assert x * y <= x * b <= (b - 1) * b;
  }

  /** No intermediate value of `mul_high_u128` exceeds the width, whatever the halves. */
  lemma MulHighFits(b: nat, x1: nat, x0: nat, y1: nat, y0: nat)
    requires b >= 3 && x1 < b && x0 < b && y1 < b && y0 < b
    ensures Fits(b, Times(x1, y1), Times(x1, y0), Times(x0, y1), Times(x0, y0))
  {
    HalfProduct(b, x0, y0);
    HalfProduct(b, x1, y0);
    HalfProduct(b, x0, y1);
    HalfProduct(b, x1, y1);
    SumFits(b, Times(x1, y0), Times(x0, y1), Times(x0, y0));
  }

  /** Nor does the sum of four terms that is the result, at any of its partial sums. */
  lemma MulHighSumFits(b: nat, x: nat, y: nat)
    requires b > 0 && x < b * b && y < b * b
    ensures var (x0, x1, y0, y1) := (x % b, x / b, y % b, y / b);
            var (p, u, v) := (Times(x1, y1), Quotient(Times(x1, y0), b), Quotient(Times(x0, y1), b));
            p < b * b && p + u < b * b && p + u + v < b * b && MulHigh(b, x, y) < b * b
  {
    MulHighIsHigh(b, x, y);
    HighFits(b * b, y, x);
  }

  lemma HighFits(m: nat, n: nat, r: nat)
    requires 0 < m && r < m && n < m
    ensures High(m, n, r) < m
  {
    if n == 0 {
      Laps.Unique(m, 0, 0);
    } else {
      HighBelow(m, n, r);
    }
  }
}
