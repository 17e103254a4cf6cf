/**
 * The scalar Kalman filter of the base node, over exact real numbers (the firmware computes
 * in single precision).
 */
module Kalman {

  datatype Filter = Filter(x: real, p: real, q: real, r: real)

  function Initial(q: real, r: real, x: real): Filter {
    Filter(x, 1.0, q, r)
  }

  /** Predicted covariance, and the gain it leads to. */
  function Predicted(f: Filter): real {
    f.p + f.q
  }

  function Gain(f: Filter): real
    requires Predicted(f) + f.r != 0.0
  {
    Predicted(f) / (Predicted(f) + f.r)
  }

  /** The value a fraction k of the way from a to b. */
  function Mix(k: real, a: real, b: real): real {
    a + k * (b - a)
  }

  function Step(f: Filter, m: real): Filter
    requires Predicted(f) + f.r != 0.0
  {
    Filter(Mix(Gain(f), f.x, m), (1.0 - Gain(f)) * Predicted(f), f.q, f.r)
  }

  class KalmanFilter {
    var x: real
    var p: real
    var q: real
    var r: real

    ghost function View(): Filter
      reads this
    {
      Filter(x, p, q, r)
    }

    constructor (q: real, r: real, initialX: real)
      ensures View() == Initial(q, r, initialX)
    {
      this.x, this.p, this.q, this.r := initialX, 1.0, q, r;
    }

    method Init(q: real, r: real, initialX: real)
      modifies this
      ensures View() == Initial(q, r, initialX)
    {
      this.x, this.p, this.q, this.r := initialX, 1.0, q, r;
    }

    method Update(measurement: real) returns (estimate: real)
      requires p + q + r != 0.0
      modifies this
      ensures View() == Step(old(View()), measurement) && estimate == x
    {
      p := p + q;
      var k := p / (p + r);
      x := x + k * (measurement - x);
      p := (1.0 - k) * p;
      return x;
    }
  }

  /** Parameters for which the filter is well defined for ever. */
  predicate Proper(f: Filter) {
    f.p > 0.0 && f.q >= 0.0 && f.r > 0.0
  }

  lemma ProperStep(f: Filter, m: real)
    requires Proper(f)
    ensures Predicted(f) + f.r > 0.0 && 0.0 < Gain(f) < 1.0
    ensures Proper(Step(f, m))
    ensures Gain(f) * (Predicted(f) + f.r) == Predicted(f)
    ensures Step(f, m).p * (Predicted(f) + f.r) == Predicted(f) * f.r
    ensures Step(f, m).p == f.r * Gain(f)
  {
    var s, k := Predicted(f), Gain(f);
    assert k * (s + f.r) == s;
    assert (1.0 - k) * (s + f.r) == f.r;
    Quotient(s, s + f.r);
    assert (1.0 - k) * s * (s + f.r) == s * f.r;
    assert (1.0 - k) * s == f.r * k by {
      assert s - k * s == k * f.r;
    }
    SameSign(f.r, k);
  }

  lemma Quotient(a: real, b: real)
    requires 0.0 < a < b
    ensures 0.0 < a / b < 1.0
  {
    var k := a / b;
    assert k * b == a && (1.0 - k) * b == b - a;
    SameSign(k, b);
    SameSign(1.0 - k, b);
  }

  /** Multiplying by a positive number keeps the sign. */
  lemma SameSign(a: real, b: real)
    requires b > 0.0
    ensures a * b > 0.0 <==> a > 0.0
    ensures a * b == 0.0 <==> a == 0.0
  {
    if a > 0.0 {
      assert a * b > 0.0;
    } else if a < 0.0 {
      assert (-a) * b > 0.0;
    }
  }

  function Run(f: Filter, ms: seq<real>): (g: Filter)
    requires Proper(f)
    ensures Proper(g) && g.q == f.q && g.r == f.r
  {
    if ms == [] then f
    else
      var before := Run(f, ms[..|ms| - 1]);
      ProperStep(before, ms[|ms| - 1]);
      Step(before, ms[|ms| - 1])
  }

  // ----- Riccati recursion -----

  /** Negative below the steady-state covariance, zero at it, positive above it. */
  function Residual(f: Filter): real {
    ResidualAt(f.p, f.q, f.r)
  }

  /**
   * One update keeps the sign of the residual and moves the covariance towards its root:
   * up from below, down from above, and not at all from the root itself.
   */
  lemma RiccatiStep(f: Filter, m: real)
    requires Proper(f)
    ensures Residual(f) < 0.0 ==> Residual(Step(f, m)) < 0.0 && Step(f, m).p > f.p
    ensures Residual(f) == 0.0 ==> Residual(Step(f, m)) == 0.0 && Step(f, m).p == f.p
    ensures Residual(f) > 0.0 ==> Residual(Step(f, m)) > 0.0 && Step(f, m).p < f.p
  {
    ProperStep(f, m);
    RiccatiReals(f.p, f.q, f.r, Step(f, m).p);
  }

  function ResidualAt(p: real, q: real, r: real): real {
    p * p + q * p - q * r
  }

  lemma RiccatiReals(p: real, q: real, r: real, p': real)
    requires p > 0.0 && q >= 0.0 && r > 0.0 && p' * (p + q + r) == (p + q) * r
    ensures var g, g' := ResidualAt(p, q, r), ResidualAt(p', q, r);
      && (g < 0.0 <==> p' > p) && (g == 0.0 <==> p' == p) && (g > 0.0 <==> p' < p)
      && (g > 0.0 <==> g' > 0.0) && (g == 0.0 <==> g' == 0.0)
  {
    RiccatiSlope(p, q, r, p');
    RiccatiIdentity(p, q, r, p');
    var d := p + q + r;
    SameSign(r, r);
    SameSign(d, d);
    ScaledSign(ResidualAt(p, q, r), r * r, ResidualAt(p', q, r), d * d);
  }

  lemma ScaledSign(a: real, scaleA: real, b: real, scaleB: real)
    requires scaleA > 0.0 && scaleB > 0.0 && b * scaleB == scaleA * a
    ensures (a > 0.0 <==> b > 0.0) && (a == 0.0 <==> b == 0.0)
  {
    SameSign(a, scaleA);
    SameSign(b, scaleB);
  }

  lemma RiccatiSlope(p: real, q: real, r: real, p': real)
    requires p > 0.0 && q >= 0.0 && r > 0.0 && p' * (p + q + r) == (p + q) * r
    ensures var g := ResidualAt(p, q, r);
      (g < 0.0 <==> p' > p) && (g == 0.0 <==> p' == p) && (g > 0.0 <==> p' < p)
  {
    var d := p + q + r;
    assert p * d == p * p + p * q + p * r;
    assert (p - p') * d == p * p + q * p - q * r;
    SameSign(p - p', d);
  }

  lemma RiccatiIdentity(p: real, q: real, r: real, p': real)
    requires p' * (p + q + r) == (p + q) * r
    ensures ResidualAt(p', q, r) * ((p + q + r) * (p + q + r)) == (r * r) * ResidualAt(p, q, r)
  {
    var s := p + q;
    var d := s + r;
    assert (p' * p') * (d * d) == (p' * d) * (p' * d);
    assert (q * p') * (d * d) == (q * d) * (p' * d);
    assert (p' * p' + q * p' - q * r) * (d * d) == (s * r) * (s * r) + (q * d) * (s * r) - q * r * (d * d);
    assert (s * r) * (s * r) == (r * r) * (s * s);
    assert (q * d) * (s * r) == q * r * (s * s) + (r * r) * (q * s);
    assert q * r * (d * d) == q * r * (s * s) + 2.0 * (r * r) * (q * s) + (r * r) * (q * r);
    assert s * s - q * s == p * p + q * p;
  }

  /** Below the steady state and at least at its initial value. */
  predicate Rising(f: Filter) {
    Proper(f) && f.p >= 1.0 && Residual(f) < 0.0
  }

  /** The largest share of an error that survives one update of a rising filter. */
  function Shrink(q: real, r: real): real
    requires q >= 0.0 && r > 0.0
  {
    r / (1.0 + q + r)
  }

  lemma RisingStep(f: Filter, m: real)
    requires Rising(f)
    ensures Predicted(f) + f.r > 0.0
    ensures Rising(Step(f, m)) && Step(f, m).p > f.p
    ensures 0.0 < 1.0 - Gain(f) <= Shrink(f.q, f.r) < 1.0
    ensures Gain(f) < Gain(Step(f, m))
  {
    ProperStep(f, m);
    RiccatiStep(f, m);
    ShareFalls(1.0 + f.q, Predicted(f), f.r);
    ProperStep(Step(f, m), m);
    ShareFalls(Predicted(f), Predicted(Step(f, m)), f.r);
  }

  lemma DivisionIs(a: real, b: real, k: real)
    requires b > 0.0 && k * b == a
    ensures a / b == k
  {
    var c := a / b;
    assert (c - k) * b == 0.0;
    SameSign(c - k, b);
  }

  /** The share r/(s+r) left over by the gain s/(s+r) falls as s grows. */
  lemma ShareFalls(s: real, t: real, r: real)
    requires 0.0 < s <= t && r > 0.0
    ensures 1.0 - t / (t + r) <= r / (s + r) < 1.0
    ensures s < t ==> s / (s + r) < t / (t + r)
    ensures s / (s + r) == 1.0 - r / (s + r)
  {
    Complement(s, r);
    Complement(t, r);
    var a, b := r / (s + r), r / (t + r);
    assert (a - b) * (t + r) == a * (t - s) by {
      assert a * (s + r) == r && b * (t + r) == r;
    }
    SameSign(a - b, t + r);
    if s < t {
      SameSign(t - s, a);
    }
  }

  lemma Complement(s: real, r: real)
    requires s > 0.0 && r > 0.0
    ensures s / (s + r) == 1.0 - r / (s + r) && 0.0 < r / (s + r) < 1.0
  {
    Quotient(r, s + r);
    DivisionIs(s, s + r, 1.0 - r / (s + r));
  }

  lemma {:induction false} RisingRun(f: Filter, ms: seq<real>)
    requires Rising(f)
    ensures Rising(Run(f, ms)) && Run(f, ms).p >= f.p
  {
    if ms != [] {
      RisingRun(f, ms[..|ms| - 1]);
      RisingStep(Run(f, ms[..|ms| - 1]), ms[|ms| - 1]);
    }
  }

  // ----- The estimate as a weighted average -----

  /** The filter after n updates, as far as its covariance goes. */
  function After(f: Filter, n: nat): (g: Filter)
    requires Proper(f)
    ensures Proper(g)
  {
    if n == 0 then f
    else
      ProperStep(After(f, n - 1), 0.0);
      Step(After(f, n - 1), 0.0)
  }

  lemma {:induction false} CovarianceIsBlind(f: Filter, ms: seq<real>)
    requires Proper(f)
    ensures Run(f, ms).(x := 0.0) == After(f, |ms|).(x := 0.0)
  {
    if ms != [] {
      var shorter := ms[..|ms| - 1];
      CovarianceIsBlind(f, shorter);
      ProperStep(Run(f, shorter), ms[|ms| - 1]);
      ProperStep(After(f, |shorter|), 0.0);
      assert Gain(Run(f, shorter)) == Gain(After(f, |shorter|));
    }
  }

  function Scale(c: real, ws: seq<real>): (r: seq<real>)
    ensures |r| == |ws|
    ensures forall i :: 0 <= i < |r| ==> r[i] == c * ws[i]
  {
    seq(|ws|, i requires 0 <= i < |ws| => c * ws[i])
  }

  /** The weights of the initial value and of n measurements: they depend on p, q, r and n only. */
  function Weights(f: Filter, n: nat): (ws: seq<real>)
    requires Proper(f)
    ensures |ws| == n + 1
  {
    if n == 0 then [1.0]
    else
      ProperStep(After(f, n - 1), 0.0);
      var k := Gain(After(f, n - 1));
      Scale(1.0 - k, Weights(f, n - 1)) + [k]
  }

  function Weighted(w: real, v: real): real {
    w * v
  }

  function Dot(ws: seq<real>, vs: seq<real>): real
    requires |ws| == |vs|
  {
    if ws == [] then 0.0
    else Dot(ws[..|ws| - 1], vs[..|vs| - 1]) + Weighted(ws[|ws| - 1], vs[|vs| - 1])
  }

  function Sum(vs: seq<real>): real {
    if vs == [] then 0.0 else Sum(vs[..|vs| - 1]) + vs[|vs| - 1]
  }

  lemma {:induction false} ScaledDot(c: real, ws: seq<real>, vs: seq<real>)
    requires |ws| == |vs|
    ensures Dot(Scale(c, ws), vs) == c * Dot(ws, vs)
    ensures Sum(Scale(c, ws)) == c * Sum(ws)
  {
    if ws != [] {
      var n := |ws| - 1;
      var scaled := Scale(c, ws);
      forall i | 0 <= i < n
        ensures scaled[..n][i] == Scale(c, ws[..n])[i]
      {
        assert scaled[..n][i] == scaled[i] && ws[..n][i] == ws[i];
      }
      assert scaled[..n] == Scale(c, ws[..n]);
      ScaledDot(c, ws[..n], vs[..n]);
      ScaleTerm(c, Dot(ws[..n], vs[..n]), ws[n], vs[n]);
      ScaleSum(c, Sum(ws[..n]), ws[n]);
    }
  }

  lemma ScaleTerm(c: real, rest: real, w: real, v: real)
    ensures c * rest + Weighted(c * w, v) == c * (rest + Weighted(w, v))
  {
  }

  lemma ScaleSum(c: real, rest: real, w: real)
    ensures c * rest + c * w == c * (rest + w)
  {
  }

  predicate AllPositive(ws: seq<real>) {
    forall i :: 0 <= i < |ws| ==> ws[i] > 0.0
  }

  lemma {:induction false} AfterIgnoresEstimate(f: Filter, y: real, n: nat)
    requires Proper(f)
    ensures After(f.(x := y), n).(x := 0.0) == After(f, n).(x := 0.0)
  {
    if n > 0 {
      AfterIgnoresEstimate(f, y, n - 1);
      SameGain(After(f.(x := y), n - 1), After(f, n - 1));
    }
  }

  lemma {:induction false} WeightsIgnoreEstimate(f: Filter, y: real, n: nat)
    requires Proper(f)
    ensures Weights(f.(x := y), n) == Weights(f, n)
  {
    if n > 0 {
      WeightsIgnoreEstimate(f, y, n - 1);
      AfterIgnoresEstimate(f, y, n - 1);
      SameGain(After(f.(x := y), n - 1), After(f, n - 1));
    }
  }

  lemma {:induction false} WeightsCombine(f: Filter, ms: seq<real>)
    requires Proper(f)
    ensures Run(f, ms).x == Dot(Weights(f, |ms|), [f.x] + ms)
    ensures Sum(Weights(f, |ms|)) == 1.0 && AllPositive(Weights(f, |ms|))
  {
    if ms == [] {
      assert [f.x] + ms == [f.x];
      OneWeight(f.x);
    } else {
      var n := |ms| - 1;
      WeightsCombine(f, ms[..n]);
      NextEstimate(f, ms);
      NextWeights(f, n);
      var k := GainAt(f, n);
      AddWeight(Weights(f, n), [f.x] + ms[..n], k, ms[n]);
      assert [f.x] + ms == [f.x] + ms[..n] + [ms[n]];
    }
  }

  /**
   * The estimate is always a convex combination of the initial value and the measurements:
   * positive weights that sum to one and depend neither on what was measured nor on the
   * initial value.
   */
  lemma {:induction false} EstimateIsWeightedAverage(f: Filter, ms: seq<real>, y: real)
    requires Proper(f)
    ensures Run(f, ms).x == Dot(Weights(f, |ms|), [f.x] + ms)
    ensures Sum(Weights(f, |ms|)) == 1.0 && AllPositive(Weights(f, |ms|))
    ensures Weights(f.(x := y), |ms|) == Weights(f, |ms|)
  {
    WeightsCombine(f, ms);
    WeightsIgnoreEstimate(f, y, |ms|);
  }

  /** The gain of the update that follows n updates. */
  function GainAt(f: Filter, n: nat): (k: real)
    requires Proper(f)
    ensures 0.0 < k < 1.0
  {
    ProperStep(After(f, n), 0.0);
    Gain(After(f, n))
  }

  lemma NextEstimate(f: Filter, ms: seq<real>)
    requires Proper(f) && ms != []
    ensures var n := |ms| - 1; Run(f, ms).x == Mix(GainAt(f, n), Run(f, ms[..n]).x, ms[n])
  {
    var n := |ms| - 1;
    CovarianceIsBlind(f, ms[..n]);
    SameGain(Run(f, ms[..n]), After(f, n));
  }

  lemma NextWeights(f: Filter, n: nat)
    requires Proper(f)
    ensures Weights(f, n + 1) == Scale(1.0 - GainAt(f, n), Weights(f, n)) + [GainAt(f, n)]
  {
  }

  lemma OneWeight(x: real)
    ensures Dot([1.0], [x]) == x && Sum([1.0]) == 1.0 && AllPositive([1.0])
  {
    assert [1.0][..0] == [] && [x][..0] == [];
  }

  lemma SameGain(f: Filter, g: Filter)
    requires Proper(f) && f.(x := 0.0) == g.(x := 0.0)
    ensures Predicted(f) + f.r != 0.0 && Gain(f) == Gain(g)
  {
    ProperStep(f, 0.0);
  }

  lemma AddWeight(ws: seq<real>, vs: seq<real>, k: real, m: real)
    requires |ws| == |vs| && 0.0 < k < 1.0
    requires Sum(ws) == 1.0 && AllPositive(ws)
    ensures var all := Scale(1.0 - k, ws) + [k];
      Dot(all, vs + [m]) == Mix(k, Dot(ws, vs), m) && Sum(all) == 1.0 && AllPositive(all)
  {
    var scaled := Scale(1.0 - k, ws);
    ScaledDot(1.0 - k, ws, vs);
    assert (scaled + [k])[..|ws|] == scaled && (vs + [m])[..|vs|] == vs;
    forall i | 0 <= i < |ws|
      ensures scaled[i] > 0.0
    {
      SameSign(1.0 - k, ws[i]);
    }
  }

  lemma StepBetween(f: Filter, m: real, low: real, high: real)
    requires Proper(f) && low <= f.x <= high && low <= m <= high
    ensures Predicted(f) + f.r != 0.0 && low <= Step(f, m).x <= high
  {
    ProperStep(f, m);
    Between(f.x, m, Gain(f), low, high);
  }

  lemma NonNegative(a: real, b: real)
    requires a >= 0.0 && b >= 0.0
    ensures a * b >= 0.0
  {
  }

  lemma Between(x: real, m: real, k: real, low: real, high: real)
    requires 0.0 < k < 1.0 && low <= x <= high && low <= m <= high
    ensures low <= x + k * (m - x) <= high
  {
    NonNegative(1.0 - k, x - low);
    NonNegative(k, m - low);
    NonNegative(1.0 - k, high - x);
    NonNegative(k, high - m);
    assert x + k * (m - x) - low == (1.0 - k) * (x - low) + k * (m - low);
    assert high - (x + k * (m - x)) == (1.0 - k) * (high - x) + k * (high - m);
  }

  /** Larger measurements never lower the estimate. */
  lemma {:induction false} EstimateIsMonotone(f: Filter, g: Filter, ms: seq<real>, ns: seq<real>)
    requires Proper(f) && g == f.(x := g.x) && f.x <= g.x
    requires |ms| == |ns| && forall i :: 0 <= i < |ms| ==> ms[i] <= ns[i]
    ensures Run(f, ms).x <= Run(g, ns).x
    ensures Run(g, ns) == Run(f, ms).(x := Run(g, ns).x)
  {
    if ms != [] {
      var n := |ms| - 1;
      EstimateIsMonotone(f, g, ms[..n], ns[..n]);
      StepIsMonotone(Run(f, ms[..n]), Run(g, ns[..n]), ms[n], ns[n]);
    }
  }

  lemma StepIsMonotone(f: Filter, g: Filter, m: real, m': real)
    requires Proper(f) && g == f.(x := g.x) && f.x <= g.x && m <= m'
    ensures Predicted(f) + f.r != 0.0
    ensures Step(f, m).x <= Step(g, m').x && Step(g, m') == Step(f, m).(x := Step(g, m').x)
  {
    ProperStep(f, m);
    MonotoneUpdate(f.x, g.x, m, m', Gain(f));
  }

  lemma MonotoneUpdate(x: real, x': real, m: real, m': real, k: real)
    requires 0.0 < k < 1.0 && x <= x' && m <= m'
    ensures x + k * (m - x) <= x' + k * (m' - x')
  {
    NonNegative(1.0 - k, x' - x);
    NonNegative(k, m' - m);
    assert (x' + k * (m' - x')) - (x + k * (m - x)) == (1.0 - k) * (x' - x) + k * (m' - m);
  }

  // ----- Optimality -----

  /** Squared distance from the prediction and from the measurement, each over its variance. */
  function Cost(f: Filter, m: real, y: real): real
    requires Predicted(f) > 0.0 && f.r > 0.0
  {
    (y - f.x) * (y - f.x) / Predicted(f) + (y - m) * (y - m) / f.r
  }

  /** Each update returns the unique minimiser of the cost. */
  lemma UpdateIsOptimal(f: Filter, m: real, y: real)
    requires Proper(f)
    ensures Predicted(f) + f.r > 0.0
    ensures Cost(f, m, Step(f, m).x) <= Cost(f, m, y)
    ensures Cost(f, m, y) == Cost(f, m, Step(f, m).x) ==> y == Step(f, m).x
  {
    ProperStep(f, m);
    var best := Step(f, m).x;
    CostGap(f.x, m, Predicted(f), f.r, Gain(f), y);
    CostScaled(f, m, y);
    CostScaled(f, m, best);
    SquaredGap(Cost(f, m, y), Cost(f, m, best), Predicted(f) * f.r, Predicted(f) + f.r, y - best);
  }

  lemma SquaredGap(a: real, b: real, scale: real, d: real, e: real)
    requires scale > 0.0 && d > 0.0 && a * scale - b * scale == d * (e * e)
    ensures b <= a && (a == b ==> e == 0.0)
  {
    assert (a - b) * scale == d * (e * e);
    SameSign(a - b, scale);
    if e != 0.0 {
      if e > 0.0 { SameSign(e, e); } else { SameSign(-e, -e); assert e * e == (-e) * (-e); }
      SameSign(e * e, d);
    }
  }

  lemma CostScaled(f: Filter, m: real, y: real)
    requires Predicted(f) > 0.0 && f.r > 0.0
    ensures Cost(f, m, y) * (Predicted(f) * f.r)
         == f.r * ((y - f.x) * (y - f.x)) + Predicted(f) * ((y - m) * (y - m))
  {
    var s, r := Predicted(f), f.r;
    var a, b := (y - f.x) * (y - f.x), (y - m) * (y - m);
    var u, v := a / s, b / r;
    assert u * s == a && v * r == b;
    assert (u + v) * (s * r) == (u * s) * r + (v * r) * s;
  }

  lemma CostGap(x: real, m: real, s: real, r: real, k: real, y: real)
    requires k * (s + r) == s
    ensures var best := x + k * (m - x);
      r * ((y - x) * (y - x)) + s * ((y - m) * (y - m))
        - (r * ((best - x) * (best - x)) + s * ((best - m) * (best - m))) == (s + r) * ((y - best) * (y - best))
  {
    var best := x + k * (m - x);
    var d := s + r;
    assert d * best == d * x + (k * d) * (m - x) == r * x + s * m;
    assert r * ((y - x) * (y - x)) - r * ((best - x) * (best - x)) == r * ((y - best) * (y + best - 2.0 * x));
    assert s * ((y - m) * (y - m)) - s * ((best - m) * (best - m)) == s * ((y - best) * (y + best - 2.0 * m));
    assert r * ((y - best) * (y + best - 2.0 * x)) + s * ((y - best) * (y + best - 2.0 * m))
        == (y - best) * (d * (y + best) - 2.0 * (r * x + s * m));
    assert (y - best) * (d * (y + best) - 2.0 * (d * best)) == d * ((y - best) * (y - best));
  }

  // ----- Without process noise -----

  /** The filter holds the average of `weight` unit observations that sum to `total`. */
  predicate IsAverage(f: Filter, weight: real, total: real) {
    f.x * weight == total && f.p * weight == f.r
  }

  /** With q = 0 the run is a batch average of the measurements and r copies of the initial value. */
  lemma {:induction false} BatchForm(f: Filter, ms: seq<real>)
    requires Proper(f) && f.q == 0.0 && f.p == 1.0
    ensures IsAverage(Run(f, ms), f.r + |ms| as real, f.r * f.x + Sum(ms))
  {
    if ms != [] {
      var n := |ms| - 1;
      BatchForm(f, ms[..n]);
      BatchUpdate(Run(f, ms[..n]), f.r + n as real, f.r * f.x + Sum(ms[..n]), ms[n]);
      assert f.r + |ms| as real == f.r + n as real + 1.0;
      assert f.r * f.x + Sum(ms) == f.r * f.x + Sum(ms[..n]) + ms[n];
    }
  }

  lemma {:induction false} SumWithout(vs: seq<real>, i: nat)
    requires i < |vs|
    ensures Sum(vs) == Sum(vs[..i] + vs[i + 1..]) + vs[i]
  {
    var n := |vs| - 1;
    if i == n {
      assert vs[..i] + vs[i + 1..] == vs[..n];
    } else {
      SumWithout(vs[..n], i);
      var fewer := vs[..i] + vs[i + 1..];
      assert fewer[..n - 1] == vs[..n][..i] + vs[..n][i + 1..];
      assert fewer[n - 1] == vs[n];
    }
  }

  lemma Removed(vs: seq<real>, i: nat)
    requires i < |vs|
    ensures multiset(vs[..i] + vs[i + 1..]) == multiset(vs) - multiset{vs[i]}
  {
    assert vs == vs[..i] + [vs[i]] + vs[i + 1..];
  }

  lemma {:induction false} SumIgnoresOrder(vs: seq<real>, ws: seq<real>)
    requires multiset(vs) == multiset(ws)
    ensures Sum(vs) == Sum(ws)
    decreases |vs|
  {
    if vs == [] {
      assert |multiset(ws)| == 0;
    } else {
      var n := |vs| - 1;
      assert vs[n] in multiset(ws);
      var i :| 0 <= i < |ws| && ws[i] == vs[n];
      Removed(vs, n);
      Removed(ws, i);
      assert vs[..n] + vs[n + 1..] == vs[..n];
      SumIgnoresOrder(vs[..n], ws[..i] + ws[i + 1..]);
      SumWithout(ws, i);
    }
  }

  /** So without process noise the order of the measurements does not matter. */
  lemma {:induction false} OrderDoesNotMatter(f: Filter, ms: seq<real>, ns: seq<real>)
    requires Proper(f) && f.q == 0.0 && f.p == 1.0 && multiset(ms) == multiset(ns)
    ensures Run(f, ms) == Run(f, ns)
  {
    SumIgnoresOrder(ms, ns);
    assert |multiset(ms)| == |ms| && |multiset(ns)| == |ns|;
    BatchForm(f, ms);
    BatchForm(f, ns);
    SameAverage(Run(f, ms), Run(f, ns), f.r + |ms| as real, f.r * f.x + Sum(ms));
  }

  lemma SameAverage(f: Filter, g: Filter, weight: real, total: real)
    requires weight > 0.0 && IsAverage(f, weight, total) && IsAverage(g, weight, total) && f.r == g.r && f.q == g.q
    ensures f == g
  {
    assert (f.x - g.x) * weight == 0.0 && (f.p - g.p) * weight == 0.0;
    SameSign(f.x - g.x, weight);
    SameSign(f.p - g.p, weight);
  }

  lemma BatchUpdate(f: Filter, weight: real, total: real, m: real)
    requires Proper(f) && f.q == 0.0 && weight >= f.r && IsAverage(f, weight, total)
    ensures Predicted(f) + f.r != 0.0 && IsAverage(Step(f, m), weight + 1.0, total + m)
  {
    ProperStep(f, m);
    BatchStep(f.x, f.p, f.r, weight, m, Gain(f), total);
  }

  lemma BatchStep(x: real, p: real, r: real, d: real, m: real, k: real, total: real)
    requires r > 0.0 && d > 0.0 && p * d == r && k * (p + r) == p && x * d == total
    ensures (x + k * (m - x)) * (d + 1.0) == total + m
    ensures (r * k) * (d + 1.0) == r
  {
    assert (k * (p + r)) * d == p * d;
    assert k * (p * d + r * d) == (k * (p + r)) * d == r;
    assert p * d + r * d == r * (d + 1.0);
    assert k * (p * d) == k * r;
    assert k * (p * d + r * d) == k * (p * d) + k * (r * d);
    assert (k * (d + 1.0)) * r == k * r + k * (r * d);
    assert k * (d + 1.0) == 1.0 by {
      assert (k * (d + 1.0) - 1.0) * r == 0.0;
      SameSign(k * (d + 1.0) - 1.0, r);
    }
    assert (x + k * (m - x)) * (d + 1.0) == x * (d + 1.0) + (k * (d + 1.0)) * (m - x);
  }

  // ----- Tracking a constant input -----

  function Constant(m: real, n: nat): (ms: seq<real>)
    ensures |ms| == n && forall i :: 0 <= i < n ==> ms[i] == m
  {
    seq(n, _ => m)
  }

  function Pow(b: real, n: nat): real {
    if n == 0 then 1.0 else b * Pow(b, n - 1)
  }

  function Distance(a: real, b: real): real {
    if a >= b then a - b else b - a
  }

  /** The error after n updates is at most a share shrink^n of the initial one, on the same side. */
  predicate Tracks(before: real, after: real, m: real, share: real) {
    && Distance(after, m) <= share * Distance(before, m)
    && (before < m <==> after < m) && (before == m <==> after == m)
  }

  lemma StepTracks(f: Filter, m: real)
    requires Rising(f)
    ensures Predicted(f) + f.r != 0.0
    ensures Tracks(f.x, Step(f, m).x, m, Shrink(f.q, f.r))
  {
    RisingStep(f, m);
    MixTracks(Gain(f), f.x, m, Shrink(f.q, f.r));
  }

  lemma MixTracks(k: real, x: real, m: real, share: real)
    requires 0.0 < 1.0 - k <= share
    ensures Tracks(x, Mix(k, x, m), m, share)
  {
    assert Mix(k, x, m) - m == (1.0 - k) * (x - m);
    SameSign(x - m, 1.0 - k);
    NonNegative(share - (1.0 - k), Distance(x, m));
    assert (m - x) * (1.0 - k) == m - Mix(k, x, m);
    SameSign(m - x, 1.0 - k);
  }

  lemma TracksTwice(a: real, b: real, c: real, m: real, share: real, more: real)
    requires Tracks(a, b, m, share) && Tracks(b, c, m, more) && more >= 0.0
    ensures Tracks(a, c, m, more * share)
  {
    NonNegative(more, share * Distance(a, m) - Distance(b, m));
    assert more * (share * Distance(a, m)) == (more * share) * Distance(a, m);
  }

  /** Under a constant input the error shrinks geometrically and never changes sign. */
  lemma {:induction false} ErrorShrinks(f: Filter, m: real, n: nat)
    requires Rising(f)
    ensures Tracks(f.x, Run(f, Constant(m, n)).x, m, Pow(Shrink(f.q, f.r), n))
  {
    if n > 0 {
      assert Constant(m, n)[..n - 1] == Constant(m, n - 1);
      ErrorShrinks(f, m, n - 1);
      var g := Run(f, Constant(m, n - 1));
      RisingRun(f, Constant(m, n - 1));
      StepTracks(g, m);
      RisingStep(f, m);
      TracksTwice(f.x, g.x, Step(g, m).x, m, Pow(Shrink(f.q, f.r), n - 1), Shrink(f.q, f.r));
    }
  }

  lemma {:induction false} PowShrinks(b: real, n: nat, k: nat)
    requires 0.0 <= b <= 1.0 && n <= k
    ensures 0.0 <= Pow(b, k) <= Pow(b, n)
    decreases k
  {
    if n < k {
      PowShrinks(b, n, k - 1);
      NonNegative(b, Pow(b, k - 1));
      NonNegative(1.0 - b, Pow(b, k - 1));
    } else if k > 0 {
      PowShrinks(b, k - 1, k - 1);
      NonNegative(b, Pow(b, k - 1));
    }
  }
}
