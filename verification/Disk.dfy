/** The disk usage predictor: a least-squares line through the samples, over the reals
    (src/policy/disk.rs). */
module Disk {
  import opened Wrappers

  datatype DiskSample = DiskSample(mono: nat, usagePercent: nat)

  /** The forecast before rounding. */
  datatype Prediction = Prediction(percent: real, slope: real, rSquared: real, sampleCount: nat)

  /** The distance from 1 to the next larger double, 2^-52. */
  const EPSILON: real := 1.0 / 4503599627370496.0

  function Total(s: seq<real>, n: nat): real
    requires n <= |s|
  {
    if n == 0 then 0.0 else Total(s, n - 1) + s[n - 1]
  }

  function Times(x: real, y: real): real {
    x * y
  }

  /** The sum of (x - a)(y - b). */
  function Cross(xs: seq<real>, ys: seq<real>, a: real, b: real, n: nat): real
    requires n <= |xs| == |ys|
  {
    if n == 0 then 0.0 else Cross(xs, ys, a, b, n - 1) + Times(xs[n - 1] - a, ys[n - 1] - b)
  }

  /** The squared residual of the line with a slope and an intercept. */
  function Residual(xs: seq<real>, ys: seq<real>, slope: real, intercept: real, n: nat): real
    requires n <= |xs| == |ys|
  {
    if n == 0 then 0.0
    else
      var d := ys[n - 1] - (intercept + Times(slope, xs[n - 1]));
      Residual(xs, ys, slope, intercept, n - 1) + Times(d, d)
  }

  function Mean(s: seq<real>): real
    requires s != []
  {
    Total(s, |s|) / |s| as real
  }

  // ---- The residual of any line, by its distance from the fitted one ----

  /** The residual as a polynomial in the slope `b` and the height `c` of the line above
      the centre (p, q); `syy`, `sxy`, `sxx` are moments about the centre, `tx`, `ty` totals. */
  function Expansion(
      syy: real, sxy: real, sxx: real, tx: real, ty: real, n: real, p: real, q: real, b: real, c: real): real {
    syy - 2.0 * b * sxy + b * b * sxx + n * (c * c) - 2.0 * c * (ty - n * q) + 2.0 * b * c * (tx - n * p)
  }

  lemma ExpansionGrows(
      syy: real, sxy: real, sxx: real, tx: real, ty: real, n: real, p: real, q: real, b: real, c: real, x: real,
      y: real)
    ensures var d := y - (q + c - Times(b, p) + Times(b, x));
            Expansion(syy, sxy, sxx, tx, ty, n, p, q, b, c) + Times(d, d) ==
            Expansion(
              syy + Times(y - q, y - q), sxy + Times(x - p, y - q), sxx + Times(x - p, x - p),
              tx + x, ty + y, n + 1.0, p, q, b, c)
  {
    var u, v := x - p, y - q;
    var d := y - (q + c - b * p + b * x);
    assert d == v - b * u - c;
    assert d * d == v * v - 2.0 * b * (u * v) + b * b * (u * u) + c * c - 2.0 * c * v + 2.0 * b * c * u;
  }

  lemma {:induction false} ResidualExpands(xs: seq<real>, ys: seq<real>, p: real, q: real, b: real, c: real, n: nat)
    requires n <= |xs| == |ys|
    ensures Residual(xs, ys, b, q + c - Times(b, p), n) ==
            Expansion(
              Cross(ys, ys, q, q, n), Cross(xs, ys, p, q, n), Cross(xs, xs, p, p, n),
              Total(xs, n), Total(ys, n), n as real, p, q, b, c)
  {
    hide Expansion, Times;
    if n == 0 {
      ExpansionOfNothing(p, q, b, c);
    } else {
      ResidualExpands(xs, ys, p, q, b, c, n - 1);
      ExpansionGrows(
        Cross(ys, ys, q, q, n - 1), Cross(xs, ys, p, q, n - 1), Cross(xs, xs, p, p, n - 1),
        Total(xs, n - 1), Total(ys, n - 1),
        (n - 1) as real, p, q, b, c, xs[n - 1], ys[n - 1]);
      assert n as real == (n - 1) as real + 1.0;
    }
  }

  lemma ExpansionOfNothing(p: real, q: real, b: real, c: real)
    ensures Expansion(0.0, 0.0, 0.0, 0.0, 0.0, 0.0, p, q, b, c) == 0.0
  {
  }

  lemma TotalIsMean(s: seq<real>)
    requires s != []
    ensures Total(s, |s|) == Times(|s| as real, Mean(s))
  {
  }

  /** About the means the residual is the least residual and two squares, for the `tilt` of
      the line against the best one and the `lift` above the centre. */
  lemma AboutMeans(
      syy: real, sxy: real, sxx: real, tx: real, ty: real, n: real, p: real, q: real, slope: real, tilt: real,
      lift: real)
    requires sxy == Times(slope, sxx) && tx == Times(n, p) && ty == Times(n, q)
    ensures Expansion(syy, sxy, sxx, tx, ty, n, p, q, slope + tilt, lift) ==
            Expansion(syy, sxy, sxx, tx, ty, n, p, q, slope, 0.0)
                + (Times(sxx, Times(tilt, tilt)) + Times(n, Times(lift, lift)))
  {
    var b, c := slope + tilt, lift;
    assert tx - n * p == 0.0 && ty - n * q == 0.0;
    assert Expansion(syy, sxy, sxx, tx, ty, n, p, q, b, c) == syy - 2.0 * b * (slope * sxx) + b * b * sxx + n * (c * c);
    assert b * b * sxx - 2.0 * b * (slope * sxx) == sxx * (tilt * tilt) - slope * slope * sxx;
    assert Expansion(syy, sxy, sxx, tx, ty, n, p, q, slope, 0.0) ==
        syy - 2.0 * slope * (slope * sxx) + slope * slope * sxx;
  }

  /** The residual of any line, over that of the line through the means with slope sxy / sxx. */
  lemma ResidualAboveBest(xs: seq<real>, ys: seq<real>, slope: real, tilt: real, lift: real)
    requires |xs| == |ys| && xs != []
    requires Cross(xs, ys, Mean(xs), Mean(ys), |xs|) == Times(slope, Cross(xs, xs, Mean(xs), Mean(xs), |xs|))
    ensures var p, q, n := Mean(xs), Mean(ys), |xs|;
            Residual(xs, ys, slope + tilt, q + lift - Times(slope + tilt, p), n) ==
            Residual(xs, ys, slope, q + 0.0 - Times(slope, p), n)
            + (Times(Cross(xs, xs, p, p, n), Times(tilt, tilt)) + Times(n as real, Times(lift, lift)))
  {
    hide Cross, Residual, Expansion, Times, Mean, Total;
    var n, p, q := |xs|, Mean(xs), Mean(ys);
    TotalIsMean(xs);
    TotalIsMean(ys);
    ResidualExpands(xs, ys, p, q, slope + tilt, lift, n);
    ResidualExpands(xs, ys, p, q, slope, 0.0, n);
    AboutMeans(
      Cross(ys, ys, q, q, n), Cross(xs, ys, p, q, n), Cross(xs, xs, p, p, n),
      Total(xs, n), Total(ys, n), n as real, p, q, slope, tilt, lift);
  }

  lemma PositiveTimes(x: real, y: real)
    requires x > 0.0 && y >= 0.0
    ensures Times(x, y) >= 0.0 && (y > 0.0 ==> Times(x, y) > 0.0)
  {
  }

  lemma SquareOfNegation(x: real)
    ensures Times(-x, -x) == Times(x, x)
  {
  }

  lemma SquareOfZero()
    ensures Times(0.0, 0.0) == 0.0
  {
  }

  lemma SquareIsPositive(x: real)
    ensures Times(x, x) >= 0.0 && (x != 0.0 ==> Times(x, x) > 0.0)
  {
    hide Times;
    SquareOfNegation(x);
    SquareOfZero();
    if x > 0.0 {
      PositiveTimes(x, x);
    } else if x < 0.0 {
      PositiveTimes(-x, -x);
    }
  }

  /** That line has a smaller squared residual than every other line. */
  lemma LineIsBest(xs: seq<real>, ys: seq<real>, slope: real, b: real, a: real)
    requires |xs| == |ys| && xs != [] && Cross(xs, xs, Mean(xs), Mean(xs), |xs|) > 0.0
    requires Cross(xs, ys, Mean(xs), Mean(ys), |xs|) == Times(slope, Cross(xs, xs, Mean(xs), Mean(xs), |xs|))
    ensures var intercept := Mean(ys) - Times(slope, Mean(xs));
            b != slope || a != intercept ==> Residual(xs, ys, slope, intercept, |xs|) < Residual(xs, ys, b, a, |xs|)
  {
    hide Cross, Residual, Times, Mean;
    var p, q, n := Mean(xs), Mean(ys), |xs|;
    var tilt, lift := b - slope, a - (q - Times(b, p));
    ResidualAboveBest(xs, ys, slope, tilt, lift);
    assert slope + tilt == b && q + lift - Times(b, p) == a && q + 0.0 - Times(slope, p) == q - Times(slope, p);
    SquareIsPositive(tilt);
    SquareIsPositive(lift);
    PositiveTimes(Cross(xs, xs, p, p, n), Times(tilt, tilt));
    PositiveTimes(n as real, Times(lift, lift));
  }

  lemma {:induction false} ResidualIsPositive(xs: seq<real>, ys: seq<real>, b: real, a: real, n: nat)
    requires n <= |xs| == |ys|
    ensures Residual(xs, ys, b, a, n) >= 0.0
  {
    if n == 0 {
    } else {
      ResidualIsPositive(xs, ys, b, a, n - 1);
      SquareIsPositive(ys[n - 1] - (a + Times(b, xs[n - 1])));
    }
  }

  /** The spread of the values is the residual of the flat line through their mean. */
  lemma {:induction false} SpreadIsFlatResidual(xs: seq<real>, ys: seq<real>, q: real, n: nat)
    requires n <= |xs| == |ys|
    ensures Residual(xs, ys, 0.0, q, n) == Cross(ys, ys, q, q, n)
  {
    if n == 0 {
    } else {
      SpreadIsFlatResidual(xs, ys, q, n - 1);
      assert Times(0.0, xs[n - 1]) == 0.0;
    }
  }

  // ---- When the timestamps spread at all, they spread enough ----

  function Hours(samples: seq<DiskSample>): seq<real>
    requires samples != []
  {
    seq(|samples|, i requires 0 <= i < |samples| => (samples[i].mono as real - samples[0].mono as real) / 3600.0)
  }

  function Usages(samples: seq<DiskSample>): seq<real> {
    seq(|samples|, i requires 0 <= i < |samples| => samples[i].usagePercent as real)
  }

  ghost predicate SameTime(samples: seq<DiskSample>) {
    forall i, j :: 0 <= i < j < |samples| ==> samples[i].mono == samples[j].mono
  }

  function Deviation(xs: seq<real>, m: real, i: nat): real
    requires i < |xs|
  {
    Times(xs[i] - m, xs[i] - m)
  }

  lemma {:induction false} SpreadIsPositive(xs: seq<real>, m: real, n: nat)
    requires n <= |xs|
    ensures Cross(xs, xs, m, m, n) >= 0.0
  {
    if n == 0 {
    } else {
      SpreadIsPositive(xs, m, n - 1);
      SquareIsPositive(xs[n - 1] - m);
    }
  }

  lemma {:induction false} SpreadHasOne(xs: seq<real>, m: real, i: nat, n: nat)
    requires i < n <= |xs|
    ensures Cross(xs, xs, m, m, n) >= Deviation(xs, m, i)
  {
    hide Times;
    SquareIsPositive(xs[n - 1] - m);
    if i == n - 1 {
      SpreadIsPositive(xs, m, n - 1);
    } else {
      SpreadHasOne(xs, m, i, n - 1);
    }
  }

  lemma {:induction false} SpreadHasTwo(xs: seq<real>, m: real, i: nat, j: nat, n: nat)
    requires i < j < n <= |xs|
    ensures Cross(xs, xs, m, m, n) >= Deviation(xs, m, i) + Deviation(xs, m, j)
  {
    hide Times;
    SquareIsPositive(xs[n - 1] - m);
    if j == n - 1 {
      SpreadHasOne(xs, m, i, n - 1);
    } else {
      SpreadHasTwo(xs, m, i, j, n - 1);
    }
  }

  lemma {:induction false} SpreadHasThree(xs: seq<real>, m: real, i: nat, j: nat, k: nat, n: nat)
    requires i < j < k < n <= |xs|
    ensures Cross(xs, xs, m, m, n) >= Deviation(xs, m, i) + Deviation(xs, m, j) + Deviation(xs, m, k)
  {
    hide Times;
    SquareIsPositive(xs[n - 1] - m);
    if k == n - 1 {
      SpreadHasTwo(xs, m, i, j, n - 1);
    } else {
      SpreadHasThree(xs, m, i, j, k, n - 1);
    }
  }

  /** Three values deviate from any centre by at least a third of their squared distances. */
  lemma ThreeDeviate(a: real, b: real, c: real, m: real)
    ensures 3.0 * (Times(a - m, a - m) + Times(b - m, b - m) + Times(c - m, c - m)) >=
            Times(a - b, a - b) + Times(b - c, b - c) + Times(a - c, a - c)
  {
    SquareIsPositive(a + b + c - 3.0 * m);
  }

  lemma SquareGrows(x: real, e: real)
    requires x >= e > 0.0
    ensures Times(x, x) >= Times(e, e)
  {
    var d := x - e;
    assert x * x == e * e + 2.0 * (e * d) + d * d;
    PositiveTimes(e, d);
    SquareIsPositive(d);
  }

  const HOUR_SQUARED: real := 12960000.0

  /** Two different whole seconds are at least 1/3600 of an hour apart. */
  lemma SecondsApart(s: nat, t: nat, first: nat)
    ensures var d := (s as real - first as real) / 3600.0 - (t as real - first as real) / 3600.0;
            Times(d, d) >= if s == t then 0.0 else 1.0 / HOUR_SQUARED
  {
    var d := (s as real - first as real) / 3600.0 - (t as real - first as real) / 3600.0;
    assert d == (s as real - t as real) / 3600.0;
    assert Times(1.0 / 3600.0, 1.0 / 3600.0) == 1.0 / HOUR_SQUARED;
    SquareIsPositive(d);
    if s > t {
      SquareGrows(d, 1.0 / 3600.0);
    } else if s < t {
      SquareOfNegation(d);
      SquareGrows(-d, 1.0 / 3600.0);
    }
  }

  lemma ThreeSpread(samples: seq<DiskSample>, m: real, i: nat, j: nat, k: nat)
    requires i < j < k < |samples|
    requires samples[i].mono != samples[j].mono || samples[j].mono != samples[k].mono
            || samples[i].mono != samples[k].mono
    ensures Cross(Hours(samples), Hours(samples), m, m, |samples|) >= 2.0 / 3.0 / HOUR_SQUARED
  {
    hide Times, Cross;
    var xs, first := Hours(samples), samples[0].mono;
    SpreadHasThree(xs, m, i, j, k, |samples|);
    ThreeDeviate(xs[i], xs[j], xs[k], m);
    SecondsApart(samples[i].mono, samples[j].mono, first);
    SecondsApart(samples[j].mono, samples[k].mono, first);
    SecondsApart(samples[i].mono, samples[k].mono, first);
  }

  /** With three samples or more at whole seconds, not all at the same one, the spread of
      the timestamps is far above the threshold of the degeneracy test. */
  lemma SpreadIsLarge(samples: seq<DiskSample>, m: real)
    requires |samples| >= 3 && !SameTime(samples)
    ensures Cross(Hours(samples), Hours(samples), m, m, |samples|) >= 2.0 / 3.0 / HOUR_SQUARED > EPSILON
  {
    hide Cross, Hours;
    var i: nat, j: nat :| i < j < |samples| && samples[i].mono != samples[j].mono;
    if j < |samples| - 1 {
      ThreeSpread(samples, m, i, j, j + 1);
    } else if i < j - 1 {
      ThreeSpread(samples, m, i, i + 1, j);
    } else {
      ThreeSpread(samples, m, i - 1, i, j);
    }
  }

  lemma {:induction false} ZerosHaveNoSpread(xs: seq<real>, n: nat)
    requires n <= |xs| && forall i :: 0 <= i < |xs| ==> xs[i] == 0.0
    ensures Total(xs, n) == 0.0 && Cross(xs, xs, 0.0, 0.0, n) == 0.0
  {
    if n == 0 {
    } else {
      ZerosHaveNoSpread(xs, n - 1);
      SquareOfZero();
    }
  }

  lemma SameTimeHasNoSpread(samples: seq<DiskSample>)
    requires samples != [] && SameTime(samples)
    ensures Cross(Hours(samples), Hours(samples), Mean(Hours(samples)), Mean(Hours(samples)), |samples|) == 0.0
  {
    hide Cross;
    ZerosHaveNoSpread(Hours(samples), |samples|);
  }

  // ---- The predictor ----

  /** The line has a smaller squared residual than every other one. */
  ghost predicate Best(xs: seq<real>, ys: seq<real>, slope: real, intercept: real)
    requires |xs| == |ys|
  {
    forall b, a :: b != slope || a != intercept ==>
        Residual(xs, ys, slope, intercept, |xs|) < Residual(xs, ys, b, a, |xs|)
  }

  function Clamp(x: real): real {
    if x < 0.0 then 0.0 else if x > 100.0 then 100.0 else x
  }

  function Spread(ys: seq<real>): real
    requires ys != []
  {
    Cross(ys, ys, Mean(ys), Mean(ys), |ys|)
  }

  ghost predicate Forecasts(samples: seq<DiskSample>, horizon: real, p: Prediction, intercept: real)
    requires samples != []
  {
    var xs, ys := Hours(samples), Usages(samples);
    && Best(xs, ys, p.slope, intercept)
    && p.percent == Clamp(intercept + Times(p.slope, xs[|xs| - 1] + horizon))
    && 0.0 <= p.rSquared <= 1.0
    && (if Spread(ys) > EPSILON then
          Times(p.rSquared, Spread(ys)) == Spread(ys) - Residual(xs, ys, p.slope, intercept, |xs|)
        else p.rSquared == 0.0)
    && p.sampleCount == |samples|
  }

  lemma DivideBack(a: real, b: real)
    requires b != 0.0
    ensures Times(a / b, b) == a
  {
  }

  lemma FactorIsPositive(x: real, whole: real)
    requires whole > 0.0 && Times(x, whole) >= 0.0
    ensures x >= 0.0
  {
    assert Times(-x, whole) == -Times(x, whole);
    if x < 0.0 {
      PositiveTimes(-x, whole);
    }
  }

  lemma ShareOfWhole(part: real, whole: real)
    requires 0.0 <= part <= whole && whole > 0.0
    ensures 0.0 <= 1.0 - part / whole <= 1.0 && Times(1.0 - part / whole, whole) == whole - part
  {
    var r := part / whole;
    assert Times(r, whole) == part && Times(1.0 - r, whole) == whole - part;
    FactorIsPositive(r, whole);
    FactorIsPositive(1.0 - r, whole);
  }

  /** The fitted line of the predictor is the least-squares line. */
  lemma FitIsBest(xs: seq<real>, ys: seq<real>, slope: real)
    requires |xs| == |ys| && xs != [] && Spread(xs) > 0.0
    requires Cross(xs, ys, Mean(xs), Mean(ys), |xs|) == Times(slope, Spread(xs))
    ensures Best(xs, ys, slope, Mean(ys) - Times(slope, Mean(xs)))
    ensures 0.0 <= Residual(xs, ys, slope, Mean(ys) - Times(slope, Mean(xs)), |xs|) <= Spread(ys)
  {
    hide Cross, Residual, Times, Mean;
    var intercept := Mean(ys) - Times(slope, Mean(xs));
    forall b, a | b != slope || a != intercept
      ensures Residual(xs, ys, slope, intercept, |xs|) < Residual(xs, ys, b, a, |xs|)
    {
      LineIsBest(xs, ys, slope, b, a);
    }
    ResidualIsPositive(xs, ys, slope, intercept, |xs|);
    SpreadIsFlatResidual(xs, ys, Mean(ys), |xs|);
    LineIsBest(xs, ys, slope, 0.0, Mean(ys));
  }

  /** There is a forecast exactly when there are three samples or more, not all of one
      instant, and it follows the least-squares line. */
  method Predict(samples: seq<DiskSample>, horizon: real) returns (r: Option<Prediction>)
    ensures r.None? <==> |samples| < 3 || SameTime(samples)
    ensures r.Some? ==> exists intercept :: Forecasts(samples, horizon, r.value, intercept)
  {
    hide Times, Hours, Usages, Mean, SameTime, Best;
    var n := |samples|;
    if n < 3 {
      return None;
    }
    var xs, ys := Hours(samples), Usages(samples);
    HaveLength(samples);
    var meanX, meanY := Mean(xs), Mean(ys);
    var num, den := 0.0, 0.0;
    for i := 0 to n
      invariant num == Cross(xs, ys, meanX, meanY, i) && den == Cross(xs, xs, meanX, meanX, i)
    {
      var dx, dy := xs[i] - meanX, ys[i] - meanY;
      num, den := num + Times(dx, dy), den + Times(dx, dx);
    }
    if SameTime(samples) {
      SameTimeHasNoSpread(samples);
    } else {
      SpreadIsLarge(samples, meanX);
    }
    if (if den < 0.0 then -den else den) < EPSILON {
      return None;
    }
    var slope := num / den;
    DivideBack(num, den);
    var intercept := meanY - Times(slope, meanX);
    var res, tot := 0.0, 0.0;
    for i := 0 to n
      invariant res == Residual(xs, ys, slope, intercept, i) && tot == Cross(ys, ys, meanY, meanY, i)
    {
      var d, dy := ys[i] - (intercept + Times(slope, xs[i])), ys[i] - meanY;
      res, tot := res + Times(d, d), tot + Times(dy, dy);
    }
    FitIsBest(xs, ys, slope);
    if tot > EPSILON {
      ShareOfWhole(res, tot);
    }
    var rSquared := if tot > EPSILON then 1.0 - res / tot else 0.0;
    var percent := Clamp(intercept + Times(slope, xs[n - 1] + horizon));
    r := Some(Prediction(percent, slope, rSquared, n));
    assert Forecasts(samples, horizon, r.value, intercept);
  }

  // ---- What a forecast says about the samples ----

  /** The hours since the first sample. */
  function HoursAfter(samples: seq<DiskSample>, i: nat): real
    requires i < |samples|
  {
    (samples[i].mono as real - samples[0].mono as real) / 3600.0
  }

  /** A forecast is a percentage: the value of its line, `horizon` hours after the last
      sample, as far as that is one. */
  lemma ForecastIsOnLine(samples: seq<DiskSample>, horizon: real, p: Prediction, intercept: real)
    requires samples != [] && Forecasts(samples, horizon, p, intercept)
    ensures var value := intercept + Times(p.slope, HoursAfter(samples, |samples| - 1) + horizon);
            && 0.0 <= p.percent <= 100.0
            && (0.0 <= value <= 100.0 ==> p.percent == value)
            && (value < 0.0 ==> p.percent == 0.0) && (value > 100.0 ==> p.percent == 100.0)
  {
    hide Best, Times;
  }

  lemma HaveLength(samples: seq<DiskSample>)
    requires samples != []
    ensures |Hours(samples)| == |Usages(samples)| == |samples|
  {
  }

  // ---- Samples on a line ----

  lemma {:induction false} ExactLineHasNoResidual(xs: seq<real>, ys: seq<real>, b: real, a: real, n: nat)
    requires n <= |xs| == |ys| && forall i :: 0 <= i < |xs| ==> ys[i] == a + Times(b, xs[i])
    ensures Residual(xs, ys, b, a, n) == 0.0
  {
    hide Times;
    if n == 0 {
    } else {
      ExactLineHasNoResidual(xs, ys, b, a, n - 1);
      SquareOfZero();
    }
  }

  /** Samples whose percentages lie on a line are forecast along that line. */
  lemma ExactLineIsFound(samples: seq<DiskSample>, horizon: real, p: Prediction, intercept: real, b: real, a: real)
    requires samples != [] && Forecasts(samples, horizon, p, intercept)
    requires forall i :: 0 <= i < |samples| ==>
               samples[i].usagePercent as real == a + Times(b, HoursAfter(samples, i))
    ensures var value := a + Times(b, HoursAfter(samples, |samples| - 1) + horizon);
            && p.slope == b && (0.0 <= value <= 100.0 ==> p.percent == value)
            && (value < 0.0 ==> p.percent == 0.0) && (value > 100.0 ==> p.percent == 100.0)
    ensures Spread(Usages(samples)) > EPSILON ==> p.rSquared == 1.0
  {
    hide Times, Residual, Cross, Mean;
    var xs, ys := Hours(samples), Usages(samples);
    ExactLineHasNoResidual(xs, ys, b, a, |xs|);
    ResidualIsPositive(xs, ys, p.slope, intercept, |xs|);
    if Spread(ys) > EPSILON {
      WholeShare(p.rSquared, Spread(ys));
    }
  }

  lemma WholeShare(r: real, whole: real)
    requires whole > 0.0
    ensures Times(r, whole) == whole ==> r == 1.0
  {
    assert Times(r - 1.0, whole) == Times(r, whole) - whole && Times(1.0 - r, whole) == whole - Times(r, whole);
    if Times(r, whole) == whole {
      FactorIsPositive(r - 1.0, whole);
      FactorIsPositive(1.0 - r, whole);
    }
  }
}
