/** The exhaustive parameter search of Software/filtering.py (lines 43-62):
    run the filter for every (P0, Q, R) of a Cartesian grid, score each run by
    mean squared error against the measurements, keep the first strictly
    smaller error, then run the filter once more with the winner. */
module Search {
  import opened Wrappers
  import opened Kalman

  /** Element i of `np.linspace(start, stop, count)`. */
  function LinspaceAt(start: real, stop: real, count: nat, i: nat): real
    requires count > 1
  {
    start + (i as real) * (stop - start) / ((count - 1) as real)
  }

  /** `np.linspace(start, stop, count)`: `count` evenly spaced values from
      `start` to `stop` inclusive (a single value is `start`). */
  function Linspace(start: real, stop: real, count: nat): (xs: seq<real>)
    ensures |xs| == count
    ensures count > 0 ==> xs[0] == start
    ensures count > 1 ==> xs[count - 1] == stop
    ensures count > 1 ==> forall i :: 0 <= i < count - 1 ==>
      xs[i + 1] - xs[i] == (stop - start) / ((count - 1) as real)
    ensures start <= stop ==> forall i :: 0 <= i < count ==> start <= xs[i] <= stop
  {
    if count <= 1 then seq(count, i => start)
    else
      var xs := seq(count, i requires 0 <= i < count => LinspaceAt(start, stop, count, i));
      LinspaceEnds(start, stop, count);
      forall i | 0 <= i < count - 1
        ensures xs[i + 1] - xs[i] == (stop - start) / ((count - 1) as real)
      {
        LinspaceSpacing(start, stop, count, i);
      }
      forall i | 0 <= i < count && start <= stop
        ensures start <= xs[i] <= stop
      {
        LinspaceWithin(start, stop, count, i);
      }
      xs
  }

  lemma LinspaceEnds(start: real, stop: real, count: nat)
    requires count > 1
    ensures LinspaceAt(start, stop, count, 0) == start
    ensures LinspaceAt(start, stop, count, count - 1) == stop
  {
    DivCancel((count - 1) as real, stop - start);
  }

  lemma DivCancel(n: real, d: real)
    requires n > 0.0
    ensures n * d / n == d
  {
  }

  lemma LinspaceSpacing(start: real, stop: real, count: nat, i: nat)
    requires count > 1
    ensures LinspaceAt(start, stop, count, i + 1) - LinspaceAt(start, stop, count, i)
         == (stop - start) / ((count - 1) as real)
  {
    var n := (count - 1) as real;
    var d := stop - start;
    assert ((i + 1) as real) * d == (i as real) * d + d;
    assert ((i as real) * d + d) / n == (i as real) * d / n + d / n;
  }

  lemma LinspaceWithin(start: real, stop: real, count: nat, i: nat)
    requires count > 1 && i < count && start <= stop
    ensures start <= LinspaceAt(start, stop, count, i) <= stop
  {
    var n := (count - 1) as real;
    var d := stop - start;
    var t := i as real;
    assert 0.0 <= t <= n;
    MulNonneg(t, d);
    MulNonneg(n - t, d);
    assert n * d - t * d == (n - t) * d;
    DivMonotone(t * d, n * d, n);
    DivCancel(n, d);
    DivNonneg(t * d, n);
  }

  lemma DivMonotone(a: real, b: real, n: real)
    requires a <= b && n > 0.0
    ensures a / n <= b / n
  {
    assert b / n - a / n == (b - a) / n;
  }

  lemma DivNonneg(a: real, n: real)
    requires a >= 0.0 && n > 0.0
    ensures a / n >= 0.0
  {
  }

  /** The three grids of lines 43-45. */
  const P0Range := Linspace(1.0, 100000.0, 10)
  const QRange := Linspace(1e-12, 1e-10, 10)
  const RRange := Linspace(1e-2, 100.0, 10)

  /** Every candidate keeps the filter well defined: P0 > 0, Q >= 0, R > 0. */
  predicate AdmissibleGrid(p0s: seq<real>, qs: seq<real>, rs: seq<real>) {
    && (forall i :: 0 <= i < |p0s| ==> p0s[i] > 0.0)
    && (forall j :: 0 <= j < |qs| ==> qs[j] >= 0.0)
    && (forall k :: 0 <= k < |rs| ==> rs[k] > 0.0)
  }

  /** The literal grids have ten values each and are admissible. */
  lemma LiteralGridsAdmissible()
    ensures |P0Range| == 10 && |QRange| == 10 && |RRange| == 10
    ensures AdmissibleGrid(P0Range, QRange, RRange)
  {
  }

  lemma SquarePositive(d: real)
    ensures d * d >= 0.0
  {
    if d < 0.0 {
      MulPos(-d, -d);
    } else if d > 0.0 {
      MulPos(d, d);
    }
  }

  /** The sum of (z - x) ** 2 over the paired sequences. */
  function SumSquaredErrors(zs: seq<real>, xs: seq<real>): (s: real)
    requires |zs| == |xs|
    ensures s >= 0.0
    ensures zs == xs ==> s == 0.0
  {
    if zs == [] then 0.0
    else
      var d := zs[0] - xs[0];
      var rest := SumSquaredErrors(zs[1..], xs[1..]);
      SquarePositive(d);
      d * d + rest
  }

  /** `np.mean((measurements - predicted) ** 2)`, line 55. */
  function MeanSquaredError(zs: seq<real>, xs: seq<real>): (e: real)
    requires |zs| == |xs| > 0
    ensures e >= 0.0
    ensures zs == xs ==> e == 0.0
  {
    var s := SumSquaredErrors(zs, xs);
    DivNonneg(s, |zs| as real);
    s / (|zs| as real)
  }

  /** The score of one trial: MSE of the run with parameters `p`. */
  function TrialError(x0: real, zs: seq<real>, p: Params): real
    requires |zs| > 0 && ValidParams(p)
  {
    MeanSquaredError(zs, Predictions(x0, p, zs))
  }

  /** The score of grid point (i, j, k). */
  ghost function ErrorAt(x0: real, zs: seq<real>, p0s: seq<real>, qs: seq<real>, rs: seq<real>,
                         i: int, j: int, k: int): real
    requires |zs| > 0 && AdmissibleGrid(p0s, qs, rs)
    requires 0 <= i < |p0s| && 0 <= j < |qs| && 0 <= k < |rs|
  {
    TrialError(x0, zs, Params(p0s[i], qs[j], rs[k]))
  }

  /** (i, j, k) comes before (a, b, c) when P0 is iterated outermost, then Q,
      then R innermost. */
  predicate Before(i: int, j: int, k: int, a: int, b: int, c: int) {
    i < a || (i == a && (j < b || (j == b && k < c)))
  }

  predicate InGrid(p0s: seq<real>, qs: seq<real>, rs: seq<real>, i: int, j: int, k: int) {
    0 <= i < |p0s| && 0 <= j < |qs| && 0 <= k < |rs|
  }

  /** The winner of a search: `b` is the trial at grid point (bi, bj, bk), its
      error is the least of all grid points, every grid point before it has a
      strictly larger error, and `b.predicted` is its run. */
  ghost predicate IsFirstMinimum(x0: real, zs: seq<real>, p0s: seq<real>, qs: seq<real>, rs: seq<real>,
                                 b: Best, bi: int, bj: int, bk: int)
    requires |zs| > 0 && AdmissibleGrid(p0s, qs, rs)
  {
    && InGrid(p0s, qs, rs, bi, bj, bk)
    && b.params == Params(p0s[bi], qs[bj], rs[bk])
    && b.error == ErrorAt(x0, zs, p0s, qs, rs, bi, bj, bk)
    && b.predicted == Predictions(x0, b.params, zs)
    && (forall i, j, k :: InGrid(p0s, qs, rs, i, j, k) ==>
          b.error <= ErrorAt(x0, zs, p0s, qs, rs, i, j, k))
    && (forall i, j, k :: InGrid(p0s, qs, rs, i, j, k) && Before(i, j, k, bi, bj, bk) ==>
          b.error < ErrorAt(x0, zs, p0s, qs, rs, i, j, k))
  }

  /** A scored trial: `best_params` with `best_error`. */
  datatype Trial = Trial(params: Params, error: real)

  /** The search's result: the winning parameters, their error and the
      predictions of the final re-run. */
  datatype Best = Best(params: Params, error: real, predicted: seq<real>)

  /** The loop invariant of the search: `found` is the first minimum among
      the grid points before (a, b, c), or None when there are none. */
  ghost predicate SearchedUpTo(x0: real, zs: seq<real>, p0s: seq<real>, qs: seq<real>, rs: seq<real>,
                               found: Option<Trial>, bi: int, bj: int, bk: int, a: int, b: int, c: int)
    requires |zs| > 0 && AdmissibleGrid(p0s, qs, rs)
  {
    && (found.None? <==> (a == 0 && b == 0 && c == 0) || |qs| == 0 || |rs| == 0)
    && (found.Some? ==>
         && InGrid(p0s, qs, rs, bi, bj, bk)
         && Before(bi, bj, bk, a, b, c)
         && found.value.params == Params(p0s[bi], qs[bj], rs[bk])
         && found.value.error == ErrorAt(x0, zs, p0s, qs, rs, bi, bj, bk)
         && (forall i, j, k :: InGrid(p0s, qs, rs, i, j, k) && Before(i, j, k, a, b, c) ==>
               found.value.error <= ErrorAt(x0, zs, p0s, qs, rs, i, j, k))
         && (forall i, j, k :: InGrid(p0s, qs, rs, i, j, k) && Before(i, j, k, bi, bj, bk) ==>
               found.value.error < ErrorAt(x0, zs, p0s, qs, rs, i, j, k)))
  }

  /** Scoring grid point (a, b, c) extends the invariant past it: it becomes
      the best exactly when nothing was found yet or its error is strictly
      smaller. */
  lemma ScoreNext(x0: real, zs: seq<real>, p0s: seq<real>, qs: seq<real>, rs: seq<real>,
                  found: Option<Trial>, bi: int, bj: int, bk: int, a: int, b: int, c: int, error: real)
    requires |zs| > 0 && AdmissibleGrid(p0s, qs, rs)
    requires SearchedUpTo(x0, zs, p0s, qs, rs, found, bi, bj, bk, a, b, c)
    requires InGrid(p0s, qs, rs, a, b, c)
    requires error == ErrorAt(x0, zs, p0s, qs, rs, a, b, c)
    ensures found.None? || error < found.value.error ==>
      SearchedUpTo(x0, zs, p0s, qs, rs, Some(Trial(Params(p0s[a], qs[b], rs[c]), error)), a, b, c, a, b, c + 1)
    ensures !(found.None? || error < found.value.error) ==>
      SearchedUpTo(x0, zs, p0s, qs, rs, found, bi, bj, bk, a, b, c + 1)
  {
    if found.Some? {
      forall i, j, k | InGrid(p0s, qs, rs, i, j, k) && Before(i, j, k, a, b, c + 1)
        ensures Before(i, j, k, a, b, c) || (i == a && j == b && k == c)
      {
      }
    } else {
      forall i, j, k | InGrid(p0s, qs, rs, i, j, k) && Before(i, j, k, a, b, c + 1)
        ensures i == a && j == b && k == c
      {
      }
    }
  }

  /** Finishing the R loop for (a, b) is starting it for (a, b + 1). */
  lemma NextQ(x0: real, zs: seq<real>, p0s: seq<real>, qs: seq<real>, rs: seq<real>,
              found: Option<Trial>, bi: int, bj: int, bk: int, a: int, b: int)
    requires |zs| > 0 && AdmissibleGrid(p0s, qs, rs) && 0 <= b < |qs|
    requires SearchedUpTo(x0, zs, p0s, qs, rs, found, bi, bj, bk, a, b, |rs|)
    ensures SearchedUpTo(x0, zs, p0s, qs, rs, found, bi, bj, bk, a, b + 1, 0)
  {
  }

  /** Finishing the Q loop for a is starting it for a + 1. */
  lemma NextP0(x0: real, zs: seq<real>, p0s: seq<real>, qs: seq<real>, rs: seq<real>,
               found: Option<Trial>, bi: int, bj: int, bk: int, a: int)
    requires |zs| > 0 && AdmissibleGrid(p0s, qs, rs) && 0 <= a < |p0s|
    requires SearchedUpTo(x0, zs, p0s, qs, rs, found, bi, bj, bk, a, |qs|, 0)
    ensures SearchedUpTo(x0, zs, p0s, qs, rs, found, bi, bj, bk, a + 1, 0, 0)
  {
  }

  /** Lines 47-62: the triple loop over P0 (outer), Q (middle) and R (inner)
      keeps the first triple whose error is strictly below the best so far;
      the winner is then run once more. An empty grid leaves no winner. */
  method GridSearch(x0: real, zs: seq<real>, p0s: seq<real>, qs: seq<real>, rs: seq<real>)
    returns (best: Option<Best>, ghost bi: int, ghost bj: int, ghost bk: int)
    requires |zs| > 0
    requires AdmissibleGrid(p0s, qs, rs)
    ensures best.None? <==> |p0s| == 0 || |qs| == 0 || |rs| == 0
    ensures best.Some? ==> IsFirstMinimum(x0, zs, p0s, qs, rs, best.value, bi, bj, bk)
  {
    var found: Option<Trial> := None;
    bi, bj, bk := 0, 0, 0;
    for a := 0 to |p0s|
      invariant SearchedUpTo(x0, zs, p0s, qs, rs, found, bi, bj, bk, a, 0, 0)
    {
      for b := 0 to |qs|
        invariant SearchedUpTo(x0, zs, p0s, qs, rs, found, bi, bj, bk, a, b, 0)
      {
        for c := 0 to |rs|
          invariant SearchedUpTo(x0, zs, p0s, qs, rs, found, bi, bj, bk, a, b, c)
        {
          var p := Params(p0s[a], qs[b], rs[c]);
          var predicted := KalmanFilter(x0, p.p0, p.q, p.r, zs);
          var error := MeanSquaredError(zs, predicted);
          ScoreNext(x0, zs, p0s, qs, rs, found, bi, bj, bk, a, b, c, error);
          if found.None? || error < found.value.error {
            found := Some(Trial(p, error));
            bi, bj, bk := a, b, c;
          }
        }
        NextQ(x0, zs, p0s, qs, rs, found, bi, bj, bk, a, b);
      }
      NextP0(x0, zs, p0s, qs, rs, found, bi, bj, bk, a);
    }
    match found {
      case None =>
        best := None;
      case Some(t) =>
        var predictedOpt := KalmanFilter(x0, t.params.p0, t.params.q, t.params.r, zs);
        best := Some(Best(t.params, t.error, predictedOpt));
    }
  }

  /** The winner is unique: two results that both satisfy IsFirstMinimum are
      the same grid point with the same parameters, error and predictions. */
  lemma FirstMinimumUnique(x0: real, zs: seq<real>, p0s: seq<real>, qs: seq<real>, rs: seq<real>,
                           b1: Best, i1: int, j1: int, k1: int, b2: Best, i2: int, j2: int, k2: int)
    requires |zs| > 0 && AdmissibleGrid(p0s, qs, rs)
    requires IsFirstMinimum(x0, zs, p0s, qs, rs, b1, i1, j1, k1)
    requires IsFirstMinimum(x0, zs, p0s, qs, rs, b2, i2, j2, k2)
    ensures i1 == i2 && j1 == j2 && k1 == k2 && b1 == b2
  {
    if Before(i1, j1, k1, i2, j2, k2) {
      assert false;
    } else if Before(i2, j2, k2, i1, j1, k1) {
      assert false;
    }
  }
}
