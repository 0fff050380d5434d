# Scalar Kalman trend filter — a verified Dafny model

This project models the one-dimensional Kalman filter `KalmanFilter1D` of
`src/kalman_filter.py` and the two drivers that run it over a price series:
`run_kf` in `src/kalman_sensitivity.py` and `run_kalman` in
`src/kalman_real_data.py`.

The filter estimates a latent random walk observed with additive noise. Its
state is the estimate `x` and its error variance `p`. It also holds two fixed
hyperparameters: `q`, the process noise variance, and `r`, the observation
noise variance. `predict` adds `q` to `p`. `update(y)` computes the gain
`k = p / (p + r)`, moves `x` the fraction `k` of the way toward `y`, and
multiplies `p` by `1 - k`. A driver seeds a filter with the first sample and
variance 1.0. It then runs predict-then-update once per sample and collects
each post-update estimate, so the output has one entry per input sample.

Arithmetic is exact over Dafny's `real`; the model does not reproduce IEEE
floating point.

Files and modules follow the source:

- `kalman_filter.dfy`, module `KalmanFilter`: the `Filter` datatype and the
  pure transitions `Init`, `Predict`, `Gain` and `Update`. It also holds one
  driver round `Step`, an arbitrary call sequence `Replay`, and the lemmas
  about them.
- `kalman_sensitivity.dfy`, module `KalmanSensitivity`: `run_kf` as
  `RunKf`, which seeds the filter and runs the recursive fold `Filtered`, with the reference definition `FinalState` (the filter
  after `n` rounds) and the lemmas relating the two.
- `kalman_real_data.dfy`, module `KalmanRealData`: `run_kalman` as a method with
  a loop that appends one estimate per price, proved equal to `RunKf`.
- `results.dfy`, module `Results`: the drivers' outcome type.

Error paths. The source has two: indexing `series[0]` of an empty series
(Python's `IndexError`), and dividing by `p + r` when it is zero (Python's
`ZeroDivisionError` on float division). The drivers return
`Failure(EmptySeries)` and `Failure(ZeroDivision)` for them. `Gain` and `Update`
on their own carry the precondition `p + r != 0`. This is exactly the condition
under which the division is defined. Nothing else is demanded of the
hyperparameters: like the source, the model accepts negative `q` and `r`, and
the lemmas state which sign conditions each property needs.
A zero denominator is reported as `ZeroDivision`; no recovery such as
treating the gain as 1 is invented. `q` and `r` are not validated, as in the
code.

`run_kf` is defined twice in `src/kalman_sensitivity.py`, at lines 7-14 and
again at lines 87-99. The two definitions are identical apart from a docstring
and blank lines. `KalmanSensitivity.RunKf` models both, so for identical
arguments both copies yield the same result by construction.

## Model

| member | source | states |
|---|---|---|
| KalmanFilter.Init | src/kalman_filter.py:16-34 | construction stores `q` and `r` unchanged, seeds `x` with the initial state and `p` with 1.0; with `q >= 0` and `r > 0` the new filter satisfies the invariant `Valid` |
| KalmanFilter.Predict | src/kalman_filter.py:36-42 | predict leaves `x`, `q`, `r` alone and raises `p` by exactly `q`, so `p` never decreases when `q >= 0`; it preserves `Valid` |
| KalmanFilter.Gain | src/kalman_filter.py:51 | the gain solves `k (p + r) = p`; it lies in [0, 1] when `p, r >= 0`, is positive when `p > 0` and `r >= 0`, is exactly 1 when `r = 0`, and is 0 when `p = 0` |
| KalmanFilter.Update | src/kalman_filter.py:44-53 | update leaves `q`, `r` alone; the new `x` is the convex blend `(1-k) x + k y`, lies between the old `x` and the observation (for `p, r >= 0`), and equals `x` when the observation does; the new `p` satisfies `p' (p + r) = p r`, lies in [0, p] for `p, r >= 0`, strictly in (0, p) for `p, r > 0`; `Valid` is preserved |
| KalmanFilter.UpdateAddsInformation | src/kalman_filter.py:51-53 | for `p, r > 0` the update is the information-form sum `1/p' = 1/p + 1/r` |
| KalmanFilter.NoiselessUpdate | src/kalman_filter.py:51-53 | with `r = 0` and `p != 0` the update jumps `x` to the observation and leaves variance 0 |
| KalmanFilter.Step | src/kalman_sensitivity.py:11-12 | one driver round, predict then update, defined exactly when `p + q + r != 0` (`CanStep`); it keeps `q` and `r`, moves `x` by the gain `(p + q)/(p + q + r)` toward the sample, leaves a variance `p'` with `p' (p + q + r) = (p + q) r`, lands between the old estimate and the sample with `0 <= p' <= p + q` when `q, r, p >= 0`, and preserves `Valid` |
| KalmanFilter.Replay | src/kalman_filter.py:27-53 | any sequence of predict and update calls, in any order, on a filter with `q >= 0`, `r > 0`, `p >= 0` keeps `p >= 0` and `p + r > 0` (so no update divides by zero) and never changes `q` or `r` |
| KalmanFilter.ConcreteStep | src/kalman_filter.py:42-53 | example step with q = 0.01, r = 1, x = 100: predict gives `p = 1.01`; update(102) gives `k = 1.01/2.01`, `x = 100 + 2k = 203.02/2.01`, `p = (1 - k) 1.01 = 1.01/2.01` |
| KalmanFilter.DegenerateNoise | src/kalman_filter.py:42-53 | with `q = r = 0` the first predict/update round sets `x` to the observation and `p` to 0, after which the next round's update divides zero by zero |
| KalmanSensitivity.Filtered | src/kalman_sensitivity.py:9-14 | the driver loop from a given filter yields one estimate per sample when it succeeds, and fails only with `ZeroDivision` on a non-empty series |
| KalmanSensitivity.FilteredIsRoundByRound | src/kalman_sensitivity.py:10-13 | the driver loop succeeds exactly when every round is defined, and its output `n - 1` is the estimate of the filter after `n` rounds over the first `n` samples |
| KalmanSensitivity.RunKf | src/kalman_sensitivity.py:7-14 | `run_kf` fails with `EmptySeries` exactly on an empty series, fails otherwise only with `ZeroDivision`, and on success returns exactly one estimate per sample |
| KalmanSensitivity.RunKfRounds | src/kalman_sensitivity.py:8-13 | seeded with the first sample and variance 1.0, `run_kf` succeeds exactly when all rounds are defined, and output `n - 1` is the estimate after `n` predict/update rounds, in input order |
| KalmanSensitivity.RunKfSucceeds | src/kalman_sensitivity.py:8-13 | with `q >= 0` and `r > 0`, `run_kf` on a non-empty series never divides by zero |
| KalmanSensitivity.RunKfFirst | src/kalman_sensitivity.py:8-13 | the first output equals the first sample |
| KalmanSensitivity.RunKfConstant | src/kalman_sensitivity.py:8-14 | a constant series is returned unchanged |
| KalmanSensitivity.RunKfWithinRange | src/kalman_sensitivity.py:10-13 | with `q, r >= 0` every output lies within any interval that holds all samples, in particular within [min, max] of the input |
| KalmanSensitivity.RunKfScenarioConstant | src/kalman_sensitivity.py:7-14 | three equal samples with q = 0, r = 1 are returned unchanged |
| KalmanSensitivity.RunKfScenarioDegenerate | src/kalman_sensitivity.py:7-14 | three samples with q = 0, r = 0 fail with `ZeroDivision` in the second round |
| KalmanRealData.RunKalman | src/kalman_real_data.py:31-44 | `run_kalman` returns the same result as `run_kf` for the same series, `q` and `r`: `EmptySeries` exactly on an empty series, otherwise one post-update estimate per price, in order |

## Left out

- Data download and Close-column extraction (`src/kalman_real_data.py:1-25`): network and pandas I/O.
- All plotting and `plt.show()` calls: user-interface side effects.
- Synthetic data generation (`np.random.seed`, `np.random.normal`, `np.linspace`): random numbers from a foreign library.
- `rmse`, both copies (`src/kalman_sensitivity.py:17-20` and `102-108`): floating-point `sqrt` and `mean` over numpy arrays.
- The RMSE table printing: output formatting only.
- `src/test_kalman_filter.py`: a demo script with no assertions; its loop is the same fold as `run_kf`.
- IEEE-754 behaviour: rounding, NaN and infinity propagation are not modelled; values are exact reals, and the `np.array` conversion of the result is a plain sequence.
- Convergence of the estimate toward a constant truth within a given epsilon: the source promises no rate, and the model proves only the per-step facts (convex blend, shrinking variance).
