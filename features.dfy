/**
 * The feature buffers of the audio processor and the loudness percentage
 * derived from the frequency buffer.
 */
module Features {
  import opened Basics

  /** `analyser.fftSize`. */
  const FftSize: nat := 256

  /** `analyser.frequencyBinCount`, the length of both feature buffers. */
  const BinCount: nat := FftSize / 2

  /** Zero crossing of a waveform sample. */
  const Centre: Byte := 128

  /** Sum of the bytes, accumulated from the left as the level loop does. */
  function Sum(s: seq<Byte>): nat {
    if s == [] then 0 else Sum(s[..|s| - 1]) + s[|s| - 1]
  }

  lemma {:induction false} SumBounded(s: seq<Byte>)
    ensures Sum(s) <= 255 * |s|
  {
    if s != [] {
      SumBounded(s[..|s| - 1]);
    }
  }

  lemma {:induction false} SumOfConstant(s: seq<Byte>, c: Byte)
    requires forall k :: 0 <= k < |s| ==> s[k] == c
    ensures Sum(s) == c * |s|
  {
    if s != [] {
      SumOfConstant(s[..|s| - 1], c);
    }
  }

  /** `a / b` for `0 <= a < k * b` is below `k`. */
  lemma DivBelow(a: int, b: int, k: int)
    requires 0 < b && 0 <= a < k * b
    ensures a / b < k
  {
  }

  lemma MulMonotonic(b: int, x: int, y: int)
    requires 0 < b && x <= y
    ensures b * x <= b * y
  {
    assert b * y - b * x == b * (y - x);
  }

  /** `a / b` for `k * b <= a` is at least `k`. */
  lemma DivAtLeast(a: int, b: int, k: int)
    requires 0 < b && k * b <= a
    ensures k <= a / b
  {
    var q, r := a / b, a % b;
    assert a == b * q + r && r < b;
    if q < k {
      MulMonotonic(b, q + 1, k);
      assert false;
    }
  }

  lemma DivNonNegative(a: int, b: int)
    requires 0 < b && 0 <= a
    ensures 0 <= a / b
  {
  }

  /** The rounded percentage of a total of `n` bytes stays within [0, 100]. */
  lemma RoundedPercentInRange(total: int, n: int)
    requires 0 < n && 0 <= total <= 255 * n
    ensures 0 <= (200 * total + 255 * n) / (510 * n) <= 100
  {
    var a := 200 * total + 255 * n;
    var d := 510 * n;
    assert a < 101 * d;
    DivBelow(a, d, 101);
    DivNonNegative(a, d);
  }

  /**
   * `Math.round((total / len / 255) * 100)` for a non-empty buffer, written
   * over integers as `floor(x + 1/2)` with `x = 100 * total / (255 * len)`;
   * 0 for an empty buffer.
   */
  function Level(s: seq<Byte>): (r: int)
    ensures 0 <= r <= 100
  {
    if |s| == 0 then 0
    else
      SumBounded(s);
      RoundedPercentInRange(Sum(s), |s|);
      (200 * Sum(s) + 255 * |s|) / (510 * |s|)
  }

  lemma FractionBelowOne(r: real, d: real)
    requires 0.0 <= r < d
    ensures 0.0 <= r / d < 1.0
  {
    assert r / d * d == r;
  }

  lemma SplitQuotient(a: real, d: real, q: real, r: real)
    requires d > 0.0 && a == d * q + r
    ensures a / d == q + r / d
  {
    assert (q + r / d) * d == q * d + r;
  }

  /** `x + 1/2` for `x = 100 * t / (255 * n)` as one fraction. */
  lemma HalfUpForm(t: real, n: real)
    requires n > 0.0
    ensures 100.0 * t / (255.0 * n) + 0.5 == (200.0 * t + 255.0 * n) / (510.0 * n)
  {
    var m := 510.0 * n;
    var lhs := 100.0 * t / (255.0 * n) + 0.5;
    var rhs := (200.0 * t + 255.0 * n) / m;
    assert 100.0 * t / (255.0 * n) * (255.0 * n) == 100.0 * t;
    assert lhs * m == 200.0 * t + 255.0 * n;
    assert rhs * m == 200.0 * t + 255.0 * n;
    assert (lhs - rhs) * m == 0.0;
    assert lhs - rhs == ((lhs - rhs) * m) / m;
  }

  lemma CastProduct(x: int, y: int)
    ensures ((x * y) as real) == (x as real) * (y as real)
  {
  }

  /** Integer division seen over the reals: the quotient plus a fraction in [0, 1). */
  lemma DivAsReal(a: int, d: int)
    requires 0 < d && 0 <= a
    ensures (a as real) / (d as real) == ((a / d) as real) + ((a % d) as real) / (d as real)
    ensures 0.0 <= ((a % d) as real) / (d as real) < 1.0
  {
    var q, r := a / d, a % d;
    assert a == d * q + r;
    CastProduct(d, q);
    SplitQuotient(a as real, d as real, q as real, r as real);
    FractionBelowOne(r as real, d as real);
  }

  /** `q = (200 * total + 255 * n) / (510 * n)` is within one half of `100 * total / (255 * n)`. */
  lemma RoundedPercentIsNearest(total: int, n: int)
    requires 0 < n && 0 <= total
    ensures var q := (200 * total + 255 * n) / (510 * n);
      var x := 100.0 * (total as real) / (255.0 * (n as real));
      (q as real) - 0.5 <= x < (q as real) + 0.5
  {
    var a := 200 * total + 255 * n;
    var d := 510 * n;
    assert (a as real) == 200.0 * (total as real) + 255.0 * (n as real);
    assert (d as real) == 510.0 * (n as real);
    HalfUpForm(total as real, n as real);
    DivAsReal(a, d);
  }

  /** The level is the mean byte as a percentage of 255, rounded to the nearest integer (halves up). */
  lemma LevelRoundsMean(s: seq<Byte>)
    requires |s| > 0
    ensures var x := 100.0 * (Sum(s) as real) / (255.0 * (|s| as real));
      (Level(s) as real) - 0.5 <= x < (Level(s) as real) + 0.5
  {
    RoundedPercentIsNearest(Sum(s), |s|);
  }

  /** A silent buffer has level 0. */
  lemma LevelOfSilence(s: seq<Byte>)
    requires forall k :: 0 <= k < |s| ==> s[k] == 0
    ensures Level(s) == 0
  {
    SumOfConstant(s, 0);
  }

  lemma FullScalePercent(n: int)
    requires 0 < n
    ensures (200 * (255 * n) + 255 * n) / (510 * n) == 100
  {
    var a, d := 200 * (255 * n) + 255 * n, 510 * n;
    assert 100 * d <= a < 101 * d;
    DivBelow(a, d, 101);
    DivAtLeast(a, d, 100);
  }

  /** A buffer at full scale has level 100. */
  lemma LevelOfFullScale(s: seq<Byte>)
    requires |s| > 0
    requires forall k :: 0 <= k < |s| ==> s[k] == 255
    ensures Level(s) == 100
  {
    SumOfConstant(s, 255);
    FullScalePercent(|s|);
  }
}
