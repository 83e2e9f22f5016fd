/** The confidence score computed from the distance vector of the clustering
    model (ml_app1.py:104-105), and the two-decimal rounding applied to it
    before it is logged (ml_app1.py:143). Floats are modelled as reals. */
module Scoring {
  import opened Wrappers

  /** The sum of a distance vector, `distances[0].sum()`. */
  function Sum(d: seq<real>): real {
    if d == [] then 0.0 else d[0] + Sum(d[1..])
  }

  /** Distances to centroids are never negative. */
  predicate NonNegative(d: seq<real>) {
    forall j :: 0 <= j < |d| ==> 0.0 <= d[j]
  }

  /** `(1 - d[c] / sum(d)) * 100`. The source has no guard for a zero sum:
      IEEE division then yields NaN (or an infinity), which is `None` here. */
  function Confidence(d: seq<real>, c: int): (r: Option<real>)
    requires 0 <= c < |d|
    ensures r.None? <==> Sum(d) == 0.0
  {
    var s := Sum(d);
    if s == 0.0 then None else Some((1.0 - d[c] / s) * 100.0)
  }

  lemma {:induction false} SumNonNegative(d: seq<real>)
    requires NonNegative(d)
    ensures 0.0 <= Sum(d)
  {
    if d != [] {
      assert NonNegative(d[1..]) by {
        forall j | 0 <= j < |d[1..]| ensures 0.0 <= d[1..][j] { assert d[1..][j] == d[j + 1]; }
      }
      SumNonNegative(d[1..]);
    }
  }

  /** No single distance exceeds the total of a non-negative vector. */
  lemma {:induction false} ElementAtMostSum(d: seq<real>, c: int)
    requires NonNegative(d) && 0 <= c < |d|
    ensures d[c] <= Sum(d)
  {
    assert NonNegative(d[1..]) by {
      forall j | 0 <= j < |d[1..]| ensures 0.0 <= d[1..][j] { assert d[1..][j] == d[j + 1]; }
    }
    if c == 0 {
      SumNonNegative(d[1..]);
    } else {
      ElementAtMostSum(d[1..], c - 1);
    }
  }

  /** For a non-negative vector the confidence is undefined exactly when every
      distance is zero (the point coincides with every centroid). */
  lemma {:induction false} ZeroSumIffAllZero(d: seq<real>)
    requires NonNegative(d)
    ensures Sum(d) == 0.0 <==> forall j :: 0 <= j < |d| ==> d[j] == 0.0
  {
    if d != [] {
      assert NonNegative(d[1..]) by {
        forall j | 0 <= j < |d[1..]| ensures 0.0 <= d[1..][j] { assert d[1..][j] == d[j + 1]; }
      }
      ZeroSumIffAllZero(d[1..]);
      SumNonNegative(d[1..]);
      if forall j :: 0 <= j < |d| ==> d[j] == 0.0 {
        assert forall j :: 0 <= j < |d[1..]| ==> d[1..][j] == 0.0 by {
          forall j | 0 <= j < |d[1..]| ensures d[1..][j] == 0.0 { assert d[1..][j] == d[j + 1]; }
        }
      } else if Sum(d) == 0.0 {
        forall j | 0 <= j < |d| ensures d[j] == 0.0 {
          if j > 0 { assert d[j] == d[1..][j - 1]; }
        }
      }
    }
  }

  /** Dividing by a positive number keeps the order. */
  lemma DivideMonotone(a: real, b: real, s: real)
    requires a <= b && 0.0 < s
    ensures a / s <= b / s
  {
    assert b / s - a / s == (b - a) / s;
  }

  /** A share of a positive total lies in [0, 1], and is 0 only for 0. */
  lemma DivideBounds(a: real, s: real)
    requires 0.0 <= a <= s && 0.0 < s
    ensures 0.0 <= a / s <= 1.0
    ensures a / s == 0.0 <==> a == 0.0
  {
    DivideMonotone(0.0, a, s);
    DivideMonotone(a, s, s);
    assert (a / s) * s == a;
  }

  /** With non-negative distances and a positive total, the confidence lies in
      [0, 100], and it is 100 exactly when the point sits on the chosen centroid. */
  lemma ConfidenceInRange(d: seq<real>, c: int)
    requires NonNegative(d) && 0 <= c < |d| && Sum(d) > 0.0
    ensures Confidence(d, c).Some?
    ensures 0.0 <= Confidence(d, c).value <= 100.0
    ensures Confidence(d, c).value == 100.0 <==> d[c] == 0.0
  {
    ElementAtMostSum(d, c);
    DivideBounds(d[c], Sum(d));
  }

  /** A nearer centroid never gets a lower confidence than a farther one, so
      the nearest centroid is the most confident choice. */
  lemma NearerIsMoreConfident(d: seq<real>, i: int, j: int)
    requires 0 <= i < |d| && 0 <= j < |d| && Sum(d) > 0.0
    requires d[i] <= d[j]
    ensures Confidence(d, j).value <= Confidence(d, i).value
  {
    DivideMonotone(d[i], d[j], Sum(d));
  }

  /** K times the smallest entry is at most the sum. */
  lemma {:induction false} LengthTimesMinAtMostSum(d: seq<real>, m: real)
    requires forall j :: 0 <= j < |d| ==> m <= d[j]
    ensures |d| as real * m <= Sum(d)
  {
    if d != [] {
      assert forall j :: 0 <= j < |d[1..]| ==> m <= d[1..][j] by {
        forall j | 0 <= j < |d[1..]| ensures m <= d[1..][j] { assert d[1..][j] == d[j + 1]; }
      }
      LengthTimesMinAtMostSum(d[1..], m);
      assert |d| as real * m == m + |d[1..]| as real * m;
    }
  }

  /** When the chosen cluster is the nearest one (what `kmeans.predict` picks),
      the confidence is at least 100 - 100/K for K distances. */
  lemma NearestConfidenceLowerBound(d: seq<real>, c: int)
    requires 0 <= c < |d| && Sum(d) > 0.0
    requires forall j :: 0 <= j < |d| ==> d[c] <= d[j]
    ensures 100.0 - 100.0 / |d| as real <= Confidence(d, c).value
  {
    LengthTimesMinAtMostSum(d, d[c]);
    ScaledBound(d[c], Sum(d), |d| as real);
  }

  /** If K times a is at most s, the confidence of a out of s is at least
      100 - 100/K. */
  lemma ScaledBound(a: real, s: real, k: real)
    requires 0.0 < s && 1.0 <= k && k * a <= s
    ensures 100.0 - 100.0 / k <= (1.0 - a / s) * 100.0
  {
    var q := a / s;
    assert q * s == a;
    assert (k * q) * s == k * (q * s);
    if k * q > 1.0 {
      assert (k * q) * s > 1.0 * s;
    }
    if q > 1.0 / k {
      assert q * k > (1.0 / k) * k;
    }
  }

  /** `round(x, 2)` on a NumPy float: scale by 100, round half to even,
      scale back; that is, the nearest multiple of 0.01, ties going to the
      even hundredth. */
  function Round2(x: real): (r: real)
    ensures r * 100.0 == (r * 100.0).Floor as real
    ensures r - x <= 0.005 && x - r <= 0.005
  {
    var y := x * 100.0;
    var f := y.Floor;
    var frac := y - f as real;
    var n := if frac < 0.5 then f
             else if frac > 0.5 then f + 1
             else if f % 2 == 0 then f else f + 1;
    n as real / 100.0
  }

  /** Rounding keeps a confidence in [0, 100]. */
  lemma Round2InRange(x: real)
    requires 0.0 <= x <= 100.0
    ensures 0.0 <= Round2(x) <= 100.0
  {
  }

  /** A value that already has two decimals is left unchanged. */
  lemma Round2Idempotent(x: real)
    ensures Round2(Round2(x)) == Round2(x)
  {
  }

  /** The rounding of the logged confidence; NaN rounds to NaN. */
  function RoundConfidence(c: Option<real>): (r: Option<real>)
    ensures r.Some? == c.Some?
    ensures c.Some? ==> r.value - c.value <= 0.005 && c.value - r.value <= 0.005
  {
    match c
    case None => None
    case Some(v) => Some(Round2(v))
  }
}
