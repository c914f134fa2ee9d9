# Batch Kalman smoothing with grid-searched parameters (perchscale)

This project models the smoothing pipeline of `Software/filtering.py`. The
pipeline reads load-cell samples, keeps the ones inside a validity window and
runs a scalar Kalman filter over them for every parameter triple of a grid. It
keeps the triple with the least mean squared error and runs the filter once
more with it. The model is written in Dafny and verified. All arithmetic is
over `real`.

Modules, leaf to root:

- `Wrappers` (`wrappers.dfy`): `Option` and `Result`.
- `Ingest` (`ingest.dfy`): the read loop (lines 9-13). A line is already split
  and converted field by field. It is accepted only when it has exactly two
  fields and both convert. The first bad line aborts the read with its index.
  Values outside `[10000, 30000]` are dropped. The reference function
  `Filtered` states what is kept.
- `Kalman` (`kalman.dfy`): `kalman_filter` (lines 17-37). `KalmanFilter` is the
  loop that updates `x_hat` and `P` and appends each estimate. Two reference
  definitions specify it. `After` is the state after the first n
  measurements, and `Run`/`Predictions` is the list of estimates. Lemmas prove
  that the two agree. Other lemmas cover the gain, the covariance and the
  convex-combination properties.
- `Search` (`search.dfy`): `np.linspace` (lines 43-45), the MSE score (line 55)
  and the triple loop with its best-so-far tracking and re-run (lines 47-62).
  The `float('inf')` sentinel is an `Option` that is `None` before the first
  trial. The tie-break is stated with `Before`, the lexicographic order of
  grid indices with P0 outermost, then Q, then R innermost.
- `Pipeline` (`pipeline.dfy`): the script's top level with the literal grids
  and the initial estimate 24000.

Error paths and parameter ranges, as the code has them:

- The code raises no error of its own. An empty grid or an empty measurement
  list crashes at line 61, where `None` is unpacked. The model returns `None`
  from the grid search there, and `NoMeasurements` from the script.
- The code accepts any P0, Q and R. The model needs P0 > 0, Q >= 0 and R > 0,
  which every value of the literal grids meets.
- The comment on line 8 mentions readings below 0. The code's bounds are
  10000 and 30000, and the model uses those.

## Model

| member | source | states |
|---|---|---|
| `Ingest.ParseLine` | Software/filtering.py:11 | a line yields a reading exactly when it has two fields that both convert; the reading's value is the second field |
| `Ingest.Filtered` | Software/filtering.py:12-13 | every kept value lies in the window, and no more values are kept than were read |
| `Ingest.FilteredAppend` | Software/filtering.py:9-13 | filtering distributes over concatenation, so whatever is kept from earlier input comes before whatever is kept from later input (relative order preserved) |
| `Ingest.FilteredCounts` | Software/filtering.py:12-13 | each value occurs in the output as often as in the input if it lies in the window, and never otherwise |
| `Ingest.FilteredMembership` | Software/filtering.py:12-13 | a value is in the output iff it is in the input and in the window; no out-of-range value ever appears |
| `Ingest.FilteredIdentity` | Software/filtering.py:12-13 | filtering leaves an input unchanged iff all its values are in the window |
| `Ingest.ReadMeasurements` | Software/filtering.py:9-13 | on success every line is well formed and the result is the in-window values in file order; on failure the index is the first malformed line |
| `Ingest.ExampleFile` | Software/filtering.py:9-13 | the records `0,24010 1,23990 2,50000 3,24005` give `[24010, 23990, 24005]` |
| `Kalman.Gain` | Software/filtering.py:30 | for P_minus > 0 and R > 0 the gain satisfies 0 < K < 1 and K * (P_minus + R) = P_minus |
| `Kalman.CorrectionBounds` | Software/filtering.py:31 | the corrected estimate lies between the prior estimate and the measurement, and its distance to the measurement is (1 - K) times the prior distance |
| `Kalman.PosteriorBounds` | Software/filtering.py:32 | the posterior covariance (1 - K) * P_minus is positive, below P_minus and below R |
| `Kalman.Step` | Software/filtering.py:26-32 | one step keeps P > 0 with P < P_minus and P < R; the new estimate lies between the old one and the measurement and is no farther from the measurement, strictly closer unless they were equal |
| `Kalman.After` | Software/filtering.py:19-35 | the covariance after any number of steps is positive (the loop invariant P > 0) |
| `Kalman.Run` | Software/filtering.py:24-37 | the filter emits exactly one estimate per measurement |
| `Kalman.Predictions` | Software/filtering.py:17-37 | `kalman_filter(x_hat, P0, Q, R)` as a function of the initial estimate, the parameters and the measurements; it returns one estimate per measurement |
| `Kalman.AfterShift` | Software/filtering.py:24-35 | processing n + 1 measurements is processing the first one, then the remaining n from the new state |
| `Kalman.RunAt` | Software/filtering.py:24-37 | element i of the output is the estimate after measurement i has been processed |
| `Kalman.RunIsAfter` | Software/filtering.py:24-37 | a list whose element i is the estimate after measurement i, for every i, is the filter's output |
| `Kalman.KalmanFilter` | Software/filtering.py:17-37 | the loop returns one estimate per measurement, element i is the state after measurement i, and the result equals `Predictions` for the same inputs |
| `Kalman.CovarianceStaysPositive` | Software/filtering.py:27-32 | at every step 0 < K < 1, and the posterior covariance is positive, at most P_minus and below R |
| `Kalman.CovarianceIndependentOfData` | Software/filtering.py:19-32 | the covariance after n steps depends only on P0, Q, R and n, not on the measurements or the estimates |
| `Kalman.RunWithin` | Software/filtering.py:24-35 | if the initial estimate and all measurements lie in [lo, hi], every estimate lies in [lo, hi] |
| `Kalman.StepStaysInside` | Software/filtering.py:26-31 | a step from strictly inside (lo, hi) toward a measurement in [lo, hi] stays strictly inside |
| `Kalman.RunStrictlyWithin` | Software/filtering.py:24-35 | if the initial estimate lies strictly inside (lo, hi) and all measurements in [lo, hi], every estimate lies strictly inside |
| `Kalman.ConstantInputApproaches` | Software/filtering.py:24-35 | for a constant measurement v, the distance from the estimate to v never grows from step to step, and shrinks while it is not zero |
| `Kalman.EstimatesFollowMeasurements` | Software/filtering.py:24-35 | every estimate lies between the previous estimate (x0 for the first) and the measurement just processed at line 31 |
| `Kalman.FirstOutput` | Software/filtering.py:19-31 | the first estimate is x0 + K0 * (z0 - x0) with K0 = (P0 + Q) / (P0 + Q + R) |
| `Search.Linspace` | Software/filtering.py:43-45 | `count` values that start at `start`, end at `stop`, are evenly spaced by (stop - start) / (count - 1), and lie in [start, stop] when start <= stop |
| `Search.LiteralGridsAdmissible` | Software/filtering.py:43-45 | the three literal grids have ten values each, with every P0 > 0, Q >= 0 and R > 0 |
| `Search.SumSquaredErrors` | Software/filtering.py:55 | the sum of squared differences is non-negative and zero when the sequences agree |
| `Search.MeanSquaredError` | Software/filtering.py:55 | the MSE score is non-negative and zero when the predictions equal the measurements |
| `Search.ScoreNext` | Software/filtering.py:54-58 | scoring one more grid point keeps the invariant: the point becomes the best iff nothing was found yet or its error is strictly smaller |
| `Search.NextQ` | Software/filtering.py:52-53 | finishing the R loop for one Q continues the invariant at the next Q |
| `Search.NextP0` | Software/filtering.py:51-52 | finishing the Q loop for one P0 continues the invariant at the next P0 |
| `Search.GridSearch` | Software/filtering.py:47-62 | no winner iff a grid is empty; otherwise the winner is a grid triple whose error is at most every triple's, strictly below every earlier triple's in P0-outer/Q-middle/R-inner order, and whose re-run predictions are exactly that trial's |
| `Search.FirstMinimumUnique` | Software/filtering.py:51-58 | the first-minimum winner is unique: any two results meeting the specification have the same grid point, parameters, error and predictions |
| `Pipeline.FilteringScript` | Software/filtering.py:5-62 | the first malformed line stops the script; no in-window reading gives no result; otherwise the kept readings are the filtered file and the winner is the first minimum over the literal grids from 24000 |
| `Pipeline.EstimatesInReadingWindow` | Software/filtering.py:12-37 | from 24000 on readings inside [10000, 30000], every estimate of any admissible run also lies in [10000, 30000] |
| `Pipeline.ExampleRun` | Software/filtering.py:15-37 | from 24000 on `[24010, 23990, 24005]`, every estimate lies strictly between 23990 and 24010 for any admissible parameters |

## Left out

- Reading `readings.txt` (lines 5-6), `strip`, `split(',')` and the `float`
  conversion (line 11) are file I/O and library calls. A line arrives as its
  fields, each already converted or marked as rejected. Whitespace handling
  and the decimal syntax are therefore not modelled.
- Floating-point rounding, NaN and infinity are not modelled. The model works
  over `real`. The `float('inf')` sentinel (line 47) is the `None` of an `Option`.
- `Kalman.KalmanFilter`: requires P0 > 0, Q >= 0 and R > 0. The code does not
  check them. In floating point, other values could divide by zero or give
  NaN; the model excludes them. `Search.GridSearch` requires the same of every
  candidate, and the literal grids meet it.
- `Search.MeanSquaredError`: does not state the converse, that the error is
  strictly positive when the predictions differ from the measurements. The
  solver would not prove that a nonzero square is positive in this setting.
- An empty measurement list makes `np.mean` return NaN, and line 61 then raises
  while unpacking `None`. An empty grid raises at line 61 too. The model
  returns `NoMeasurements` or `None` instead of crashing. It does not model NaN.
- `Kalman.ConstantInputApproaches`: does not prove that the estimate converges
  to v under constant input. It proves only that the distance to v never grows
  and shrinks while it is not zero.
- Plotting and printing (lines 67-80) and the commented-out code (lines 64-65,
  84-98) are output only.
- `Software/scale.py` is not part of this model. It holds the calibration
  factor, hardware reads and file logging, and its only arithmetic is one
  multiplication. The other files are hardware or I/O wrappers: the real-time
  clock, the camera, the serial reader and the HX711 tests.
- The grid is evaluated sequentially, one triple after another, as the code
  does. No other evaluation order is modelled.
