# Metropolis sampler and signal-detection counts, modelled in Dafny

This project models the two classes of the Metropolis repository.

- `Metropolis` (`metropolis.dfy`, module `Metropolis`) is a single-chain random-walk Metropolis sampler over a real state. The class `Sampler` holds the same fields as the Python class: `logTarget`, `currentState`, `stepSize`, the append-only history `samples`, and `acceptanceRate`. Its methods update them in place:
  - the constructor;
  - `Accept`, one accept/reject decision;
  - `Sample`, a run at a fixed step size;
  - `Adapt`, blocks of iterations with the step size halved or doubled after each block, using `RunBlock` and `AdaptBlock` for one block;
  - `Summary`, the mean and the 2.5th and 97.5th percentiles of the history.

  The random inputs are parameters. Each iteration consumes one `Draw(z, logU)`, where:
  - `z` is the standard-normal draw that scales the proposal `currentState + stepSize * z`;
  - `logU` is the log of the uniform draw the proposal is tested against.

  Once the draws are fixed, every method is proved equal to a pure specification function:
  - `Trajectory`, `EndState` and `AcceptCount` for a run at a fixed step size;
  - `Tune` for adaptation.

  Lemmas about those functions state what the sampler guarantees:
  - the history only grows;
  - a rejection repeats the previous state;
  - the last sample is the current state;
  - the step size changes by a factor 2^k per block, with |k| ≤ 1, and stays positive;
  - only the last block's acceptance fraction is kept.
- `SampleStats` (`sample_stats.dfy`) holds the read-only statistics `summary` uses:
  - the arithmetic mean;
  - percentiles under numpy's default linear interpolation, computed as an insertion sort followed by interpolation at the virtual index (n - 1)·q/100.
- `SignalDetection` (`signal_detection.dfy`, module `Detection`) is the trial-count record.
  - The four counts are held as reals.
  - `Add` and `Mul` are its component-wise sum and scaling.
  - `HitRate` and `FalseAlarmRate` return `None` where the Python class divides by zero.
  - `Simulate` builds one record per response criterion. The normal cdf and the binomial generator are passed in as functions. The generator receives its call number, 2i for the i-th hits draw and 2i + 1 for the i-th false-alarm draw, so that each draw is a definite value.
- `Wrappers` (`wrappers.dfy`) holds the `Option` type, and `RealArith` (`arithmetic.dfy`) two facts about real products and quotients that the other modules share.

Two points about the code worth knowing:
- Adaptation with an empty list of block lengths stores an acceptance rate of 0 (Metropolis.py:37, 48), not the constructor's `None` (Metropolis.py:12).
- The step size changes by the threshold rule of Metropolis.py:44-47 (below 0.1 halve, above 0.6 double), not by the 0.4-target "formula" the docstring at Metropolis.py:32-35 mentions. The model follows the rule.

## Model

| member | source | states |
|---|---|---|
| `Metropolis.Sampler.constructor` | Metropolis.py:7-12 | the history is the one-element list of the initial state, the step size is 1.0, there is no acceptance rate yet, and the sampler invariant holds |
| `Metropolis.Sampler.Accept` | Metropolis.py:20-27 | accepts iff log u < logTarget(proposal) − logTarget(current); on acceptance the state becomes the proposal, otherwise it stays; exactly that state is appended; step size and acceptance rate are untouched; the invariant (non-empty history ending in the current state, positive step size) is kept |
| `Metropolis.Sampler.Step` | Metropolis.py:60-61 | one iteration on the normal proposal current + stepSize·z moves to `NextState` and appends it |
| `Metropolis.Sampler.Sample` | Metropolis.py:59-62 | the history grows by exactly max(n, 0) values, namely the trajectory of the run, and ends in the run's end state; step size and acceptance rate are unchanged, so n ≤ 0 changes nothing |
| `Metropolis.Sampler.RunBlock` | Metropolis.py:39-42 | one block appends its trajectory and returns the number of accepted proposals, `AcceptCount` |
| `Metropolis.Sampler.AdaptBlock` | Metropolis.py:39-47 | one block appends its trajectory; it fails exactly when its length is 0 (the division at line 43); otherwise the new step size is `NewStepSize` of the block's acceptance fraction |
| `Metropolis.Sampler.Adapt` | Metropolis.py:37-48 | state, step size, history and success equal `Tune` of the old state with running rate 0; the acceptance rate becomes the last block's fraction (0 with no blocks) on success and is untouched after a zero-length block; the invariant is kept |
| `Metropolis.Sampler.Summary` | Metropolis.py:70-71 | min ≤ mean ≤ max and min ≤ c025 ≤ c975 ≤ max of the history |
| `Metropolis.Proposal` | Metropolis.py:60 | numpy's normal draw (here and at line 41) with loc the current state and scale the step size, written as current + stepSize·z for the standard-normal draw z; no contract of its own, used by `Sampler.Step` and `NextState` |
| `Metropolis.Iterations` | Metropolis.py:59 | how many times `range(n)` runs (here and at line 40): n for positive n, 0 otherwise; no contract of its own, see `Sampler.Sample` and `TuneHistory` |
| `Metropolis.TotalIterations` | Metropolis.py:38-40 | the iterations all listed blocks run together, the sum of max(L, 0), which is how much a completed adaptation grows the history; no contract of its own, see `TuneHistory` and `TotalIterationsAppend` |
| `Metropolis.Accepts` | Metropolis.py:20-21 | the acceptance test log u < logTarget(proposal) − logTarget(current); no contract of its own, its meaning is carried by `Sampler.Accept` and `TrajectoryStep` |
| `Metropolis.NextState` | Metropolis.py:20-27 | the state after one iteration, the proposal if accepted and the current state otherwise; no contract of its own, see `Sampler.Step`, `TrajectoryStep` and `RunSnoc` |
| `Metropolis.Trajectory` | Metropolis.py:22-27 | the values a run at a fixed step size appends, one per draw (its contract); `TrajectoryStep`, `TrajectoryEnds` and `RunSnoc` state the rest |
| `Metropolis.EndState` | Metropolis.py:59-61 | the state a run at a fixed step size ends in; no contract of its own, see `TrajectoryEnds`, `NoAcceptsStays` and `RunSnoc` |
| `Metropolis.Tune` | Metropolis.py:37-48 | the outcome of adaptation over a list of blocks (success, state, step size, history, last rate); no contract of its own, its properties are `TuneOk`, `TuneHistory`, `TuneEnds`, `TuneStepSize`, `TuneRate`, `TuneCompose` and `TuneLastBlock` |
| `Metropolis.TrajectoryStep` | Metropolis.py:20-27 | each appended value is the accepted proposal or a duplicate of the previous state after a rejection |
| `Metropolis.TrajectoryEnds` | Metropolis.py:22-26 | the last value a run appends is the state the run ends in |
| `Metropolis.RunSnoc` | Metropolis.py:59-61 | one more iteration extends the trajectory by its value and advances the end state and acceptance count accordingly |
| `Metropolis.NoAcceptsStays` | Metropolis.py:25-27 | a run with no accepted proposal only repeats its start state |
| `Metropolis.AcceptCount` | Metropolis.py:39-42 | the accept count of a run is at most its number of iterations |
| `Metropolis.NewStepSize` | Metropolis.py:44-47 | for a positive step size the result is positive, smaller iff the fraction is below 0.1, and larger iff it is above 0.6 |
| `Metropolis.NewStepSizeScale` | Metropolis.py:44-47 | the new step size is the old one times 2^j with j ∈ {−1, 0, 1} |
| `Metropolis.NewStepSizeMonotone` | Metropolis.py:44-47 | a higher acceptance fraction never gives a smaller step size |
| `Metropolis.RescaleCompose` | Metropolis.py:45-47 | rescaling by 2^j and then 2^k is rescaling by 2^(j+k) |
| `Metropolis.BlockRate` | Metropolis.py:43 | the fraction accepts / blockLength of a nonzero block lies in [0, 1], also for a negative length (no iterations) |
| `Metropolis.TuneOk` | Metropolis.py:38-43 | adaptation completes iff no block length is 0 |
| `Metropolis.TuneHistory` | Metropolis.py:38-42 | adaptation only appends: the old history is a prefix, and a completed run appends the sum of max(L, 0) over the blocks |
| `Metropolis.TuneEnds` | Metropolis.py:22-26 | a history ending in the current state still ends in the current state after adaptation |
| `Metropolis.TuneStepSize` | Metropolis.py:44-47 | after all blocks the step size is the start value times 2^k with abs(k) ≤ number of blocks, and it stays positive |
| `Metropolis.TuneRate` | Metropolis.py:37-48 | the reported acceptance fraction lies in [0, 1] |
| `Metropolis.TuneCompose` | Metropolis.py:38-48 | adapting over two lists in sequence equals adapting over their concatenation; nothing runs after a zero-length block |
| `Metropolis.TuneLastBlock` | Metropolis.py:43-48 | appending one block makes the reported rate that block's fraction and the final step size its rule applied to the step size before it |
| `SampleStats.Summarize` | Metropolis.py:70-71 | the mean and both percentiles lie between the minimum and maximum, and the 2.5th percentile is at most the 97.5th |
| `SampleStats.Mean` | Metropolis.py:70 | the sum of the history divided by its length; no contract of its own, see `MeanScaled` and `MeanBounds` |
| `SampleStats.Percentile` | Metropolis.py:70-71 | numpy's linear-rule q-th percentile, the sorted history interpolated at index (n − 1)·q/100; no contract of its own, see `PercentileBounds`, `PercentileEnds` and `PercentileMonotone` |
| `SampleStats.MeanScaled` | Metropolis.py:70 | the mean times the number of samples is their sum |
| `SampleStats.MeanBounds` | Metropolis.py:70 | the mean lies within any bounds that hold of every sample |
| `SampleStats.Sort` | Metropolis.py:70-71 | the sorted history is ascending and a permutation of the history |
| `SampleStats.PercentileBounds` | Metropolis.py:70-71 | every percentile lies between the minimum and the maximum |
| `SampleStats.PercentileEnds` | Metropolis.py:70-71 | the 0th percentile is the minimum and the 100th the maximum |
| `SampleStats.PercentileMonotone` | Metropolis.py:70-71 | a higher percentile is never below a lower one |
| `Detection.Ratio` | SignalDetection.py:31 | the quotient exists iff the denominator is non-zero, and then quotient × denominator = numerator |
| `Detection.HitRate` | SignalDetection.py:27-31 | hits / (hits + misses), `None` for the division by zero; no contract of its own, see `HitRateDefined`, `RatesBounded`, `AddHitRateBetween` and `MulRates` |
| `Detection.FalseAlarmRate` | SignalDetection.py:34-38 | falseAlarms / (falseAlarms + correctRejections), `None` for the division by zero; no contract of its own, see `FalseAlarmRateDefined`, `RatesBounded`, `AddFalseAlarmRateBetween` and `MulRates` |
| `Detection.Add` | SignalDetection.py:56-64 | the component-wise sum of two records; no contract of its own, see `AddCommutative`, `AddAssociative`, `AddTrials`, `AddHitRateBetween` and `AddFalseAlarmRateBetween` |
| `Detection.Mul` | SignalDetection.py:67-75 | every count times the scalar; no contract of its own, see `MulCompose`, `MulDistributes`, `MulTrials` and `MulRates` |
| `Detection.Trial` | SignalDetection.py:85-95 | the record simulated for one criterion: hits and false alarms drawn at the normal tail probabilities, misses and correct rejections their complements; no contract of its own, see `TrialCounts` and `Simulate` |
| `Detection.HitRateDefined` | SignalDetection.py:27-31 | the hit rate exists iff hits + misses ≠ 0, and then it times hits + misses is hits |
| `Detection.FalseAlarmRateDefined` | SignalDetection.py:34-38 | the false-alarm rate exists iff falseAlarms + correctRejections ≠ 0, and then it times that sum is falseAlarms |
| `Detection.RatesBounded` | SignalDetection.py:27-38 | with non-negative counts and a positive denominator both rates lie in [0, 1] |
| `Detection.AddCommutative` | SignalDetection.py:56-64 | pooling is commutative |
| `Detection.AddAssociative` | SignalDetection.py:56-64 | pooling is associative |
| `Detection.AddTrials` | SignalDetection.py:56-64 | pooling adds the signal-trial and noise-trial totals and keeps counts non-negative |
| `Detection.AddHitRateBetween` | SignalDetection.py:56-64 | when both parts have a positive number of signal trials, the pooled hit rate exists and lies between the parts' hit rates |
| `Detection.AddFalseAlarmRateBetween` | SignalDetection.py:56-64 | when both parts have a positive number of noise trials, the pooled false-alarm rate exists and lies between the parts' false-alarm rates |
| `Detection.MulCompose` | SignalDetection.py:67-75 | scaling by k then m is scaling by k·m; scaling by 1 is the identity |
| `Detection.MulDistributes` | SignalDetection.py:67-75 | scaling distributes over pooling |
| `Detection.MulTrials` | SignalDetection.py:67-75 | scaling multiplies both trial totals by the scalar |
| `Detection.MulRates` | SignalDetection.py:67-75 | scaling by a non-zero number leaves both rates (and whether they exist) unchanged; scaling by 0 leaves neither defined |
| `Detection.TrialCounts` | SignalDetection.py:86-95 | each simulated record has hits + misses = signalCount and falseAlarms + correctRejections = noiseCount, and all four counts are non-negative when the draws lie within their trial counts |
| `Detection.Simulate` | SignalDetection.py:78-96 | one record per criterion, in order, the i-th being `Trial` of the i-th criterion, each covering exactly signalCount signal and noiseCount noise trials |

## Left out

- Randomness as distributions. The normal proposal draw, the uniform draw and the binomial draws are inputs: a `Draw(z, logU)` per iteration, and the binomial generator as a function that receives its call number. Nothing is stated about their distributions, about detailed balance or about convergence of the chain.
- The number of draws is fixed by the caller. `Sample` requires exactly one draw per iteration it runs. `Adapt` requires one draw per iteration of every listed block; the draws for blocks after a zero-length block are never consumed.
- Floating point. Reals are exact:
  - rounding in `/ 2`, `* 2` and the divisions is not modelled;
  - `log(0) = -inf` is not modelled, and neither is the NaN that `-inf - (-inf)` gives in the log-ratio;
  - `logTarget` is a total real function;
  - the `-0.0` that `0 / blockLength` gives for a negative length is modelled as 0. Both compare below 0.1, so the step size is halved either way.
- Metropolis.Sampler.Adapt: its failure path is the error the Python class raises. The division by a zero block length raises `ZeroDivisionError` after that block's (empty) run. The model returns `ok == false` and keeps every effect of the earlier blocks. The stored acceptance rate is left as it was.
- Detection.HitRate, Detection.FalseAlarmRate: a zero denominator gives `None`. The Python class raises `ZeroDivisionError` on Python numbers. With numpy integer counts it would instead produce `nan` for 0/0 and ±inf for a non-zero count over a zero total, with a warning; that distinction is not modelled.
- Detection.Simulate: numpy rejects a negative trial count or a probability outside [0, 1]. The model's generator is an arbitrary function, so those errors are not modelled. The non-negativity of the counts is stated under the hypothesis that the draws lie in [0, n].
- The normal cdf is a parameter of `Simulate`. `d_prime` and `criterion` (SignalDetection.py:41-52) use the normal quantile function and are not part of this model. Neither are the ROC functions (SignalDetection.py:116-158): `nLogLikelihood` needs `np.log` (SignalDetection.py:119-122), `rocCurve` needs the normal cdf and quantile function (SignalDetection.py:127), `rocLoss` calls those two, and `fit_roc` calls scipy's optimiser (SignalDetection.py:148).
- Plotting (`plot_roc`, `plot_sdt`, and the plot calls in `fit_roc`) is matplotlib output and is not part of this model.
- `__str__` (SignalDetection.py:19-24) only formats text and is not part of this model.
- `summary` returns a dictionary. The model returns the record `SampleStats.Summary(mean, c025, c975)`.
- Percentiles follow numpy's default linear rule only. Other interpolation methods are not modelled.
