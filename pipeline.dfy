/** The top level of Software/filtering.py: read the samples, search the
    literal grids from the initial estimate 24000, and keep the winner's
    parameters and predictions. */
module Pipeline {
  import opened Wrappers
  import opened Ingest
  import opened Kalman
  import opened Search

  /** `x_hat = 24000`, the initial state estimate of every trial (line 15). */
  const InitialEstimate: real := 24000.0

  /** The ways the script stops without a result: a line that is not two
      numbers, or no reading inside the window (the mean over zero samples is
      undefined and `best_params` stays None). */
  datatype Error = ParseError(line: nat) | NoMeasurements

  /** The measurements kept and the search's winner. */
  datatype Outcome = Outcome(measurements: seq<real>, best: Best)

  /** Lines 5-62 without the file read, plotting and printing. */
  method FilteringScript(lines: seq<Line>) returns (r: Result<Outcome, Error>)
    ensures r.Failure? && r.error.ParseError? ==>
      && r.error.line < |lines|
      && !WellFormed(lines[r.error.line])
      && forall i :: 0 <= i < r.error.line ==> WellFormed(lines[i])
    ensures r.Failure? && r.error.NoMeasurements? ==>
      && (forall i :: 0 <= i < |lines| ==> WellFormed(lines[i]))
      && Filtered(ReadingWindow, Values(lines)) == []
    ensures r.Success? ==>
      && (forall i :: 0 <= i < |lines| ==> WellFormed(lines[i]))
      && r.value.measurements == Filtered(ReadingWindow, Values(lines))
      && |r.value.measurements| > 0
      && AdmissibleGrid(P0Range, QRange, RRange)
      && exists bi, bj, bk :: IsFirstMinimum(InitialEstimate, r.value.measurements,
                                             P0Range, QRange, RRange, r.value.best, bi, bj, bk)
  {
    var read := ReadMeasurements(lines, ReadingWindow);
    if read.Failure? {
      return Failure(ParseError(read.error));
    }
    var measurements := read.value;
    if |measurements| == 0 {
      return Failure(NoMeasurements);
    }
    LiteralGridsAdmissible();
    var best, bi, bj, bk := GridSearch(InitialEstimate, measurements, P0Range, QRange, RRange);
    // The literal grids are not empty, so there is a winner.
    assert best.Some?;
    return Success(Outcome(measurements, best.value));
  }

  /** The script's estimates stay inside the reading window: starting from
      24000 on readings that passed the window check, every estimate lies in
      [10000, 30000], whatever admissible parameters are used. */
  lemma EstimatesInReadingWindow(p: Params, zs: seq<real>)
    requires ValidParams(p)
    requires forall i :: 0 <= i < |zs| ==> InWindow(ReadingWindow, zs[i])
    ensures forall i :: 0 <= i < |zs| ==>
      ReadingWindow.lo <= Predictions(InitialEstimate, p, zs)[i] <= ReadingWindow.hi
  {
    RunWithin(Initial(InitialEstimate, p), p.q, p.r, zs, ReadingWindow.lo, ReadingWindow.hi);
  }

  /** An end-to-end scenario: after dropping 50000, the
      filter run from 24000 on the three kept readings yields three estimates,
      each strictly between 23990 and 24010, whatever admissible parameters
      are used. */
  lemma ExampleRun(p: Params, zs: seq<real>)
    requires ValidParams(p)
    requires zs == [24010.0, 23990.0, 24005.0]
    ensures |Predictions(InitialEstimate, p, zs)| == 3
    ensures forall i :: 0 <= i < 3 ==> 23990.0 < Predictions(InitialEstimate, p, zs)[i] < 24010.0
  {
    RunStrictlyWithin(Initial(InitialEstimate, p), p.q, p.r, zs, 23990.0, 24010.0);
  }
}
