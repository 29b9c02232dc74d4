/** Real-valued arithmetic shared by the controller and the native core:
    absolute value, clamping, sums, means and population variances, and the
    extreme-value searches that numpy's max/min/argmax perform. Floating
    point is modelled by `real`. */
module Stats {

  function Abs(x: real): (r: real)
    ensures r >= 0.0 && (r == x || r == -x)
  {
    if x < 0.0 then -x else x
  }

  function Min(a: real, b: real): (r: real)
    ensures r <= a && r <= b && (r == a || r == b)
  {
    if a <= b then a else b
  }

  function Max(a: real, b: real): (r: real)
    ensures r >= a && r >= b && (r == a || r == b)
  {
    if a >= b then a else b
  }

  /** numpy's clip: the nearest point of [lo, hi]. */
  function Clip(x: real, lo: real, hi: real): (r: real)
    requires lo <= hi
    ensures lo <= r <= hi
    ensures lo <= x <= hi ==> r == x
    ensures x < lo ==> r == lo
    ensures x > hi ==> r == hi
  {
    if x < lo then lo else if x > hi then hi else x
  }

  predicate AllWithin(s: seq<real>, lo: real, hi: real)
  {
    forall i | 0 <= i < |s| :: lo <= s[i] <= hi
  }

  function Sum(s: seq<real>): real
  {
    if s == [] then 0.0 else s[0] + Sum(s[1..])
  }

  /** Sum of squared deviations from `m`; never negative. */
  function SquaredDeviations(s: seq<real>, m: real): (r: real)
    ensures r >= 0.0
  {
    if s == [] then 0.0
    else
      var d := s[0] - m;
      assert d * d >= 0.0;
      d * d + SquaredDeviations(s[1..], m)
  }

  /** The arithmetic mean (numpy's mean, Rust's sum / len). */
  function Mean(s: seq<real>): real
    requires |s| > 0
  {
    Sum(s) / (|s| as real)
  }

  /** The population variance (numpy's var with ddof = 0). */
  function Variance(s: seq<real>): (r: real)
    requires |s| > 0
    ensures r >= 0.0
  {
    SquaredDeviations(s, Mean(s)) / (|s| as real)
  }

  lemma {:induction false} SumWithin(s: seq<real>, lo: real, hi: real)
    requires AllWithin(s, lo, hi)
    ensures (|s| as real) * lo <= Sum(s) <= (|s| as real) * hi
  {
    if s != [] {
      assert AllWithin(s[1..], lo, hi) by {
        forall i | 0 <= i < |s[1..]| ensures lo <= s[1..][i] <= hi {
          assert s[1..][i] == s[i + 1];
        }
      }
      SumWithin(s[1..], lo, hi);
      assert lo <= s[0] <= hi;
    }
  }

  /** A mean of values in [lo, hi] is in [lo, hi]. */
  lemma MeanWithin(s: seq<real>, lo: real, hi: real)
    requires |s| > 0 && AllWithin(s, lo, hi)
    ensures lo <= Mean(s) <= hi
  {
    SumWithin(s, lo, hi);
    QuotientWithin(Sum(s), |s| as real, lo, hi);
  }

  /** Dividing a total of n values in [lo, hi] by n lands in [lo, hi]. */
  lemma QuotientWithin(a: real, n: real, lo: real, hi: real)
    requires n > 0.0 && n * lo <= a <= n * hi
    ensures lo <= a / n <= hi
  {
    var q := a / n;
    assert q * n == a;
    assert (q - lo) * n >= 0.0;
    assert (hi - q) * n >= 0.0;
  }

  /** The first index at which |s[i]| is largest (numpy's argmax of abs). */
  function ArgMaxAbs(s: seq<real>): (k: nat)
    requires |s| > 0
    ensures k < |s|
    ensures forall j | 0 <= j < |s| :: Abs(s[j]) <= Abs(s[k])
    ensures forall j | 0 <= j < k :: Abs(s[j]) < Abs(s[k])
  {
    if |s| == 1 then 0
    else
      var k := ArgMaxAbs(s[..|s| - 1]);
      if Abs(s[|s| - 1]) > Abs(s[k]) then |s| - 1 else k
  }

  /** Python's max(abs(d) for d in s). */
  function MaxAbs(s: seq<real>): (r: real)
    requires |s| > 0
    ensures forall j | 0 <= j < |s| :: Abs(s[j]) <= r
    ensures exists j | 0 <= j < |s| :: Abs(s[j]) == r
  {
    if |s| == 1 then Abs(s[0])
    else
      var rest := MaxAbs(s[1..]);
      assert forall j | 1 <= j < |s| :: Abs(s[j]) <= rest by {
        forall j | 1 <= j < |s| ensures Abs(s[j]) <= rest {
          assert s[j] == s[1..][j - 1];
        }
      }
      assert exists j | 1 <= j < |s| :: Abs(s[j]) == rest by {
        var j :| 0 <= j < |s[1..]| && Abs(s[1..][j]) == rest;
        assert Abs(s[j + 1]) == rest;
      }
      Max(Abs(s[0]), rest)
  }

  /** Python's min(s). */
  function MinOf(s: seq<real>): (r: real)
    requires |s| > 0
    ensures forall j | 0 <= j < |s| :: r <= s[j]
    ensures exists j | 0 <= j < |s| :: s[j] == r
  {
    if |s| == 1 then s[0]
    else
      var rest := MinOf(s[1..]);
      assert forall j | 1 <= j < |s| :: rest <= s[j] by {
        forall j | 1 <= j < |s| ensures rest <= s[j] {
          assert s[j] == s[1..][j - 1];
        }
      }
      assert exists j | 1 <= j < |s| :: s[j] == rest by {
        var j :| 0 <= j < |s[1..]| && s[1..][j] == rest;
        assert s[j + 1] == rest;
      }
      Min(s[0], rest)
  }
}
