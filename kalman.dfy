/** The scalar Kalman filter `kalman_filter` of Software/filtering.py (a
    random-walk model, one forward pass, one estimate per measurement). All
    arithmetic is over `real`. */
module Kalman {

  /** One parameter triple: initial error covariance P0, process variance Q
      and measurement variance R. */
  datatype Params = Params(p0: real, q: real, r: real)

  /** The parameters for which every gain is defined and every covariance
      stays positive. */
  predicate ValidParams(p: Params) {
    p.p0 > 0.0 && p.q >= 0.0 && p.r > 0.0
  }

  /** The filter's private state between two measurements: the estimate
      `x_hat` and its error covariance `P`. */
  datatype State = State(estimate: real, covariance: real)

  /** The state a run starts from: the caller's initial estimate and P = P0. */
  function Initial(x0: real, p: Params): State {
    State(x0, p.p0)
  }

  function Abs(x: real): real {
    if x < 0.0 then -x else x
  }

  /** `a` lies in the closed interval whose ends are `b` and `c`. */
  predicate Between(a: real, b: real, c: real) {
    (b <= a <= c) || (c <= a <= b)
  }

  /** The Kalman gain K = P_minus / (P_minus + R). */
  function Gain(pMinus: real, r: real): (k: real)
    requires pMinus > 0.0 && r > 0.0
    ensures 0.0 < k < 1.0
    ensures k * (pMinus + r) == pMinus
  {
    pMinus / (pMinus + r)
  }

  /** The corrected estimate x + K * (z - x). */
  function Correct(x: real, z: real, k: real): real {
    x + k * (z - x)
  }

  /** The posterior covariance (1 - K) * P_minus. */
  function Posterior(pMinus: real, k: real): real {
    (1.0 - k) * pMinus
  }

  /** One pass of the loop body: predict (P_minus = P + Q, estimate unchanged),
      then correct with the measurement `z`. */
  function Step(s: State, z: real, q: real, r: real): (t: State)
    requires s.covariance > 0.0 && q >= 0.0 && r > 0.0
    ensures 0.0 < t.covariance < s.covariance + q
    ensures t.covariance < r
    ensures Between(t.estimate, s.estimate, z)
    ensures Abs(t.estimate - z) <= Abs(s.estimate - z)
    ensures s.estimate != z ==> Abs(t.estimate - z) < Abs(s.estimate - z)
  {
    var pMinus := s.covariance + q;
    var k := Gain(pMinus, r);
    PosteriorBounds(pMinus, r, k);
    CorrectionBounds(s.estimate, z, k);
    State(Correct(s.estimate, z, k), Posterior(pMinus, k))
  }

  lemma MulNonneg(a: real, b: real)
    requires a >= 0.0 && b >= 0.0
    ensures a * b >= 0.0
  {
  }

  lemma MulPos(a: real, b: real)
    requires a > 0.0 && b > 0.0
    ensures a * b > 0.0
  {
  }

  /** For the gain K of P_minus, the posterior (1 - K) * P_minus equals K * R,
      so it is positive, below P_minus and below R. */
  lemma PosteriorBounds(pMinus: real, r: real, k: real)
    requires pMinus > 0.0 && r > 0.0 && 0.0 < k < 1.0 && k * (pMinus + r) == pMinus
    ensures 0.0 < Posterior(pMinus, k) < pMinus
    ensures Posterior(pMinus, k) < r
  {
    PosteriorIsGainTimesR(pMinus, r, k);
    FractionBelow(k, r);
    FractionBelow(k, pMinus);
    var post := Posterior(pMinus, k);
    var kr := k * r;
    assert post == kr;
    assert kr < r;
    assert post < r;
  }

  lemma PosteriorIsGainTimesR(pMinus: real, r: real, k: real)
    requires k * (pMinus + r) == pMinus
    ensures Posterior(pMinus, k) == k * r
  {
    assert k * (pMinus + r) == k * pMinus + k * r;
  }

  /** A fraction strictly between 0 and 1 of a positive number is positive and
      smaller than it. */
  lemma FractionBelow(k: real, a: real)
    requires 0.0 < k < 1.0 && a > 0.0
    ensures 0.0 < k * a < a
  {
    MulPos(k, a);
    MulPos(1.0 - k, a);
    assert a - k * a == (1.0 - k) * a;
  }

  /** The correction x + K * (z - x) is a convex combination of x and z: it lies
      between them and is (1 - K) times as far from z as x is. */
  lemma CorrectionBounds(x: real, z: real, k: real)
    requires 0.0 < k < 1.0
    ensures Between(Correct(x, z, k), x, z)
    ensures Abs(Correct(x, z, k) - z) == (1.0 - k) * Abs(x - z)
  {
    var d := z - x;
    assert d - k * d == (1.0 - k) * d;
    assert Correct(x, z, k) - z == -((1.0 - k) * d);
    if d >= 0.0 {
      MulNonneg(1.0 - k, d);
      MulNonneg(k, d);
    } else {
      var e := -d;
      MulNonneg(1.0 - k, e);
      MulNonneg(k, e);
      assert (1.0 - k) * d == -((1.0 - k) * e);
      assert k * d == -(k * e);
    }
  }

  /** Reference definition: the state after the first `n` measurements of
      `zs` have been processed, starting from `s`. */
  function After(s: State, q: real, r: real, zs: seq<real>, n: nat): (t: State)
    requires s.covariance > 0.0 && q >= 0.0 && r > 0.0 && n <= |zs|
    ensures t.covariance > 0.0
  {
    if n == 0 then s else Step(After(s, q, r, zs, n - 1), zs[n - 1], q, r)
  }

  /** The list `predicted_values` built by the loop, as a recursive function:
      the estimate after the first measurement, then the rest of the run. */
  function Run(s: State, q: real, r: real, zs: seq<real>): (xs: seq<real>)
    requires s.covariance > 0.0 && q >= 0.0 && r > 0.0
    ensures |xs| == |zs|
    decreases |zs|
  {
    if zs == [] then []
    else
      var t := Step(s, zs[0], q, r);
      [t.estimate] + Run(t, q, r, zs[1..])
  }

  /** `kalman_filter(x_hat, P0, Q, R)` over the measurement list `zs`. */
  function Predictions(x0: real, p: Params, zs: seq<real>): (xs: seq<real>)
    requires ValidParams(p)
    ensures |xs| == |zs|
  {
    Run(Initial(x0, p), p.q, p.r, zs)
  }

  /** Processing n+1 measurements is processing the first one, then n more. */
  lemma {:induction false} AfterShift(s: State, q: real, r: real, zs: seq<real>, n: nat)
    requires s.covariance > 0.0 && q >= 0.0 && r > 0.0 && n < |zs|
    ensures After(s, q, r, zs, n + 1) == After(Step(s, zs[0], q, r), q, r, zs[1..], n)
  {
    if n > 0 {
      AfterShift(s, q, r, zs, n - 1);
    }
  }

  /** Element i of the output is the estimate after measurement i. */
  lemma {:induction false} RunAt(s: State, q: real, r: real, zs: seq<real>, i: nat)
    requires s.covariance > 0.0 && q >= 0.0 && r > 0.0 && i < |zs|
    ensures Run(s, q, r, zs)[i] == After(s, q, r, zs, i + 1).estimate
    decreases i
  {
    if i > 0 {
      var t := Step(s, zs[0], q, r);
      RunAt(t, q, r, zs[1..], i - 1);
      AfterShift(s, q, r, zs, i);
    }
  }

  /** A list holding, at each i, the estimate after measurement i is the run. */
  lemma RunIsAfter(s: State, q: real, r: real, zs: seq<real>, xs: seq<real>)
    requires s.covariance > 0.0 && q >= 0.0 && r > 0.0 && |xs| == |zs|
    requires forall i :: 0 <= i < |zs| ==> xs[i] == After(s, q, r, zs, i + 1).estimate
    ensures xs == Run(s, q, r, zs)
  {
    forall i | 0 <= i < |zs|
      ensures xs[i] == Run(s, q, r, zs)[i]
    {
      RunAt(s, q, r, zs, i);
    }
  }

  /** The loop of `kalman_filter`: `x_hat` and `P` are updated in place and
      each new estimate is appended to `predicted_values`. */
  method KalmanFilter(xHat: real, p0: real, q: real, r: real, measurements: seq<real>)
    returns (predicted: seq<real>)
    requires p0 > 0.0 && q >= 0.0 && r > 0.0
    ensures |predicted| == |measurements|
    ensures forall i :: 0 <= i < |measurements| ==>
      predicted[i] == After(State(xHat, p0), q, r, measurements, i + 1).estimate
    ensures predicted == Predictions(xHat, Params(p0, q, r), measurements)
  {
    var init := State(xHat, p0);
    var x, P := xHat, p0;
    predicted := [];
    var i := 0;
    while i < |measurements|
      invariant 0 <= i <= |measurements|
      invariant State(x, P) == After(init, q, r, measurements, i)
      invariant |predicted| == i
      invariant forall j :: 0 <= j < i ==> predicted[j] == After(init, q, r, measurements, j + 1).estimate
    {
      var z := measurements[i];
      ghost var prev := State(x, P);
      // Prediction update
      var xMinus := x;
      var PMinus := P + q;
      // Measurement update
      var K := Gain(PMinus, r);
      x := Correct(xMinus, z, K);
      P := Posterior(PMinus, K);
      assert State(x, P) == Step(prev, z, q, r);
      predicted := predicted + [x];
      i := i + 1;
    }
    RunIsAfter(init, q, r, measurements, predicted);
  }

  /** With P > 0, Q >= 0 and R > 0, every gain lies strictly between 0 and 1 and
      every posterior covariance is positive and at most P_minus, so P > 0 is
      kept from step to step. */
  lemma {:induction false} CovarianceStaysPositive(s: State, q: real, r: real, zs: seq<real>, n: nat)
    requires s.covariance > 0.0 && q >= 0.0 && r > 0.0 && n < |zs|
    ensures var prev := After(s, q, r, zs, n); var next := After(s, q, r, zs, n + 1);
      && 0.0 < Gain(prev.covariance + q, r) < 1.0
      && 0.0 < next.covariance <= prev.covariance + q
      && next.covariance < r
  {
  }

  /** The covariance schedule does not depend on the measurements or on the
      estimate: only on P0, Q, R and the step count. */
  lemma {:induction false} CovarianceIndependentOfData(s: State, s': State, q: real, r: real,
                                                        zs: seq<real>, zs': seq<real>, n: nat)
    requires s.covariance > 0.0 && s'.covariance == s.covariance && q >= 0.0 && r > 0.0
    requires n <= |zs| && n <= |zs'|
    ensures After(s, q, r, zs, n).covariance == After(s', q, r, zs', n).covariance
  {
    if n > 0 {
      CovarianceIndependentOfData(s, s', q, r, zs, zs', n - 1);
      var c := After(s, q, r, zs, n - 1).covariance;
      assert After(s, q, r, zs, n).covariance == Posterior(c + q, Gain(c + q, r));
      assert After(s', q, r, zs', n).covariance == Posterior(c + q, Gain(c + q, r));
    }
  }

  /** If the initial estimate and every measurement lie in [lo, hi], so does
      every estimate. */
  lemma {:induction false} RunWithin(s: State, q: real, r: real, zs: seq<real>, lo: real, hi: real)
    requires s.covariance > 0.0 && q >= 0.0 && r > 0.0
    requires lo <= s.estimate <= hi
    requires forall i :: 0 <= i < |zs| ==> lo <= zs[i] <= hi
    ensures forall i :: 0 <= i < |zs| ==> lo <= Run(s, q, r, zs)[i] <= hi
    decreases |zs|
  {
    if zs != [] {
      var t := Step(s, zs[0], q, r);
      RunWithin(t, q, r, zs[1..], lo, hi);
      assert Run(s, q, r, zs) == [t.estimate] + Run(t, q, r, zs[1..]);
    }
  }

  /** A correction from a point strictly inside (lo, hi) toward a measurement
      in [lo, hi] stays strictly inside. */
  lemma StepStaysInside(s: State, z: real, q: real, r: real, lo: real, hi: real)
    requires s.covariance > 0.0 && q >= 0.0 && r > 0.0
    requires lo < s.estimate < hi && lo <= z <= hi
    ensures lo < Step(s, z, q, r).estimate < hi
  {
    var x := s.estimate;
    var k := Gain(s.covariance + q, r);
    assert Step(s, z, q, r).estimate == Correct(x, z, k);
    assert Correct(x, z, k) - lo == (1.0 - k) * (x - lo) + k * (z - lo);
    assert hi - Correct(x, z, k) == (1.0 - k) * (hi - x) + k * (hi - z);
    MulPos(1.0 - k, x - lo);
    MulPos(1.0 - k, hi - x);
    MulNonneg(k, z - lo);
    MulNonneg(k, hi - z);
  }

  /** If the initial estimate lies strictly inside (lo, hi) and every
      measurement in [lo, hi], every estimate lies strictly inside (lo, hi). */
  lemma {:induction false} RunStrictlyWithin(s: State, q: real, r: real, zs: seq<real>, lo: real, hi: real)
    requires s.covariance > 0.0 && q >= 0.0 && r > 0.0
    requires lo < s.estimate < hi
    requires forall i :: 0 <= i < |zs| ==> lo <= zs[i] <= hi
    ensures forall i :: 0 <= i < |zs| ==> lo < Run(s, q, r, zs)[i] < hi
    decreases |zs|
  {
    if zs != [] {
      var t := Step(s, zs[0], q, r);
      StepStaysInside(s, zs[0], q, r, lo, hi);
      RunStrictlyWithin(t, q, r, zs[1..], lo, hi);
      assert Run(s, q, r, zs) == [t.estimate] + Run(t, q, r, zs[1..]);
    }
  }

  /** For a constant measurement v, the distance from the estimate to v never
      grows from one step to the next, and shrinks while it is not zero. */
  lemma ConstantInputApproaches(x0: real, p: Params, zs: seq<real>, v: real)
    requires ValidParams(p)
    requires forall i :: 0 <= i < |zs| ==> zs[i] == v
    ensures var xs := Predictions(x0, p, zs);
      && (|zs| > 0 ==> Abs(xs[0] - v) <= Abs(x0 - v))
      && (|zs| > 0 && x0 != v ==> Abs(xs[0] - v) < Abs(x0 - v))
      && (forall i :: 0 <= i < |zs| - 1 ==> Abs(xs[i + 1] - v) <= Abs(xs[i] - v))
      && (forall i :: 0 <= i < |zs| - 1 && xs[i] != v ==> Abs(xs[i + 1] - v) < Abs(xs[i] - v))
  {
    var s := Initial(x0, p);
    var xs := Predictions(x0, p, zs);
    if |zs| > 0 {
      RunAt(s, p.q, p.r, zs, 0);
    }
    forall i | 0 <= i < |zs| - 1
      ensures Abs(xs[i + 1] - v) <= Abs(xs[i] - v)
      ensures xs[i] != v ==> Abs(xs[i + 1] - v) < Abs(xs[i] - v)
    {
      RunAt(s, p.q, p.r, zs, i);
      RunAt(s, p.q, p.r, zs, i + 1);
    }
  }

  /** Each estimate lies between the previous estimate (x0 for the first) and
      the measurement just processed. */
  lemma EstimatesFollowMeasurements(x0: real, p: Params, zs: seq<real>)
    requires ValidParams(p)
    ensures var xs := Predictions(x0, p, zs);
      && (|zs| > 0 ==> Between(xs[0], x0, zs[0]))
      && (forall i :: 0 <= i < |zs| - 1 ==> Between(xs[i + 1], xs[i], zs[i + 1]))
  {
    var s := Initial(x0, p);
    var xs := Predictions(x0, p, zs);
    if |zs| > 0 {
      RunAt(s, p.q, p.r, zs, 0);
    }
    forall i | 0 <= i < |zs| - 1
      ensures Between(xs[i + 1], xs[i], zs[i + 1])
    {
      RunAt(s, p.q, p.r, zs, i);
      RunAt(s, p.q, p.r, zs, i + 1);
    }
  }

  /** The first estimate is x0 + K0 * (z0 - x0) with K0 = (P0 + Q) / (P0 + Q + R). */
  lemma FirstOutput(x0: real, p: Params, zs: seq<real>)
    requires ValidParams(p) && |zs| > 0
    ensures Predictions(x0, p, zs)[0]
         == x0 + (p.p0 + p.q) / (p.p0 + p.q + p.r) * (zs[0] - x0)
  {
  }
}
