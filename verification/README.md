# SEIR / SIR epidemic models and their calibration search, in Dafny

This project models three Python files of a small epidemic-modelling
repository, with the arithmetic done over exact reals:

- `SEIR.py`: the `SEIR` compartment object. It holds susceptible (S),
  exposed (E), infected (I) and recovered (R) counts, the population N,
  the time T and a residual D. `simulate(dt)` advances it by one explicit
  Euler step, `reset()` restores the initial state, and
  `getReproductionRate()` gives the basic reproduction number. This is
  module `Seir` in `seir.dfy`, with class `Seir.SEIR`.
- `SIR.py`: the `SIR` model and the general fourth-order Runge-Kutta loop
  `rungeKutta4`. That loop fills four stage arrays index by index and
  emits the state every `fetch`-th pass. This is module `Sir` in
  `sir.dfy`, with class `Sir.SIR`.
- `sim.py`: the calibration search.
  - `getSEIRModel` builds a model for India's population.
  - `getError` scores a simulated curve against an observed one.
  - `parameterSpaceExploration` sweeps a four-dimensional linspace grid
    of rates. For each grid point it runs a trial, accumulates the running
    total `I_total` of the sampled infected counts, scores it, and finally
    sorts the scored points by error.
  - The module-level `getReproductionRate` is also covered.
  - This is module `Calibration` in `calibration.dfy`.

Two small shared modules complete the project. `Options` (`options.dfy`)
is an option type for the Python exceptions. `Series` (`series.dfy`) is
the sum of a sequence of reals.

Points where the model follows the code rather than the equations in the
class docstring and the textbook SIR/SEIR equations:

- `SEIR.simulate` updates the compartments one after the other:
  - E is computed from the new S;
  - I is computed from the new E;
  - R is computed from the new S, E and I;
  - D is computed entirely from the new values.

  It therefore does not conserve S + E + I + R (N, the rates and the
  initial values are kept).
  `Seir.SequentialStepChangesTotal` gives a concrete step where the total
  drops.
- The code also has theta terms, which the class docstring omits:
  S → R quarantine and E → R quarantine.
- D is overwritten on every step, never accumulated. It is zero after
  every step of a closed population (no births, deaths or removals),
  whatever the step did to the total.
- `SIR.simulate` never passes its own `h` on, so integration always uses
  step 0.01.
- `SIR.simulate`'s third closure reads `param[0]` (S) where the SIR
  equations read I; see "## Findings".
- `I_total` starts from the global `I0`, which is the raw observed count.
  `getSEIRModel` instead starts the model at a tenth of that count. Both
  are modelled as written.

## Model

| member | source | states |
|---|---|---|
| Seir.Step | SEIR.py:60-69 | one `simulate(dt)` step leaves N unchanged and advances T by exactly dt |
| Seir.SequentialUpdate | SEIR.py:61-64 | each compartment moves by dt times its own right-hand side, evaluated at S, E, I as already updated by the preceding lines (new S for E; new S, E for I; new S, E, I for R) |
| Seir.ResidualIsTotalFlow | SEIR.py:65-68 | D after a step is minus dt times the sum of the four right-hand sides at the post-step S, E, I, R |
| Seir.ResidualIsOverwritten | SEIR.py:65-68 | the step's result does not depend on the previous D: D is overwritten, not accumulated |
| Seir.TotalFlowClosedForm | SEIR.py:61-68 | the four right-hand sides add up to wedge − mu·(S+E+I+R) − alpha·I: infection and quarantine transfers cancel |
| Seir.ResidualVanishesInClosedPopulation | SEIR.py:65-68 | with wedge = mu = alpha = 0 the residual D after any step is 0 |
| Seir.SequentialStepChangesTotal | SEIR.py:61-64 | a concrete closed population whose S + E + I + R changes in one step, and whose new E differs from the simultaneous-update value |
| Seir.InfectionFreeStep | SEIR.py:62-63 | E = I = 0 before a step implies E = I = 0 after it |
| Seir.Trajectory | SEIR.py:60-69 | k steps of `simulate(dt)` keep N and advance T by k·dt |
| Seir.InfectionFreeStaysFree | SEIR.py:62-63 | an infection-free state stays infection-free for any number of steps |
| Seir.ReproductionRate | SEIR.py:57-58 | defined exactly when (eta+mu+theta)(gamma+alpha+mu) ≠ 0, and then times that denominator equals beta·eta |
| Seir.SEIR.constructor | SEIR.py:27-46 | rates and initial values are stored as given; the current state is S0, E0, I0, R0, N0 with T = D = 0 |
| Seir.SEIR.Reset | SEIR.py:48-55 | restores S, E, I, R, N to the stored initial values and T, D to 0; rates and initial values are constants |
| Seir.SEIR.Simulate | SEIR.py:60-69 | fails (ZeroDivisionError) exactly when N = 0, changing nothing; otherwise the new state is Step of the old one |
| Seir.ResetReplaysFreshRun | SEIR.py:27-55 | a model run, reset and run with the same steps ends where a freshly constructed one does |
| Sir.RkStep | SIR.py:43-52 | one Runge-Kutta pass: stages h·f at (x, y), (x + h/2, y + K1/2), (x + h/2, y + K2/2) and (x + h, y + K3), combined with weights 1, 2, 2, 1 over 6; the state keeps its length |
| Sir.ClockIsLinear | SIR.py:39-53 | after n passes x equals x0 + n·h |
| Sir.Solution | SIR.py:42-53 | the state after n passes has the initial state's length |
| Sir.IterationsTruncate | SIR.py:33 | the pass count is int((x−x0)/h), truncated toward zero, and 0 when (x−x0)/h < 1 |
| Sir.CounterIsRemainder | SIR.py:41-57 | the counter after n passes is n mod fetch, or n when fetch < 1 |
| Sir.EmitsOnMultiples | SIR.py:54-57 | pass n emits exactly when fetch ≥ 1 and n is a multiple of fetch |
| Sir.Samples | SIR.py:54-57 | every emitted vector has the initial state's length |
| Sir.SamplesLength | SIR.py:41-57 | the output length is iterations / fetch (integer division) for fetch ≥ 1 |
| Sir.SampleIsSolution | SIR.py:54-57 | output k is the state after (k+1)·fetch passes |
| Sir.NoFetchNoSamples | SIR.py:55 | fetch < 1 gives an empty output |
| Sir.ShortIntervalNoSamples | SIR.py:33-42 | for h > 0, x − x0 < h (including x ≤ x0) gives zero passes and an empty output |
| Sir.FillStage | SIR.py:44-51 | one `for i in range(len(y))` loop leaves the stage array equal to Stage |
| Sir.Pass | SIR.py:43-52 | the four stage arrays are left holding K1 … K4 (stage h·f at (x, y), (x + h/2, y + K1/2), (x + h/2, y + K2/2), (x + h, y + K3)), and their combination is RkStep at (x, y) |
| Sir.RungeKutta4 | SIR.py:31-58 | None exactly when h = 0 (ZeroDivisionError), otherwise the samples of the solution over Iterations passes |
| Sir.Integrate | SIR.py:38-58 | the `for each` loop returns exactly the samples of the first `iterations` passes |
| Sir.SumScaled | SIR.py:44-51 | a stage's sum is h times the field's sum |
| Sir.SumCombined | SIR.py:52 | the combination's sum is the same combination of the stage sums |
| Sir.CombineKeepsTotal | SIR.py:52 | stages summing to zero leave the total unchanged |
| Sir.StageSumsToZero | SIR.py:44-51 | every stage of a field whose right-hand sides sum to zero sums to zero |
| Sir.RkStepKeepsTotal | SIR.py:43-52 | one pass with such a field keeps the total exactly |
| Sir.SolutionKeepsTotal | SIR.py:42-53 | so does every state of the solution |
| Sir.SamplesKeepTotal | SIR.py:54-57 | so does every emitted sample |
| Sir.AsWrittenDerivatives | SIR.py:15-26 | the closures f1, f2, f3 as written accept every three-component state |
| Sir.AsWrittenTotalFlow | SIR.py:15-26 | as written the right-hand sides sum to b·(S − I), not 0 |
| Sir.AsWrittenLeaksPopulation | SIR.py:23-25 | with a = 0, b = 1 and state [1, 0, 0], one pass yields [1, 0, h]: the population grows |
| Sir.CorrectedDerivatives | SIR.py:15-26 | with f3 = b·I the closures accept every three-component state |
| Sir.CorrectedConservesTotal | SIR.py:15-26 | with f3 = b·I the right-hand sides sum to zero |
| Sir.SIR.constructor | SIR.py:5-12 | stores a, b, N and the initial infections; S = N − initial infections, I = initial infections, R = 0 |
| Sir.SIR.Simulate | SIR.py:14-29 | output is the samples of the as-written closures from [S, I, R], x0 = 0, with step 0.01 whatever h is passed |
| Sir.SIR.SimulateCorrected | SIR.py:14-29 | the same with f3 = b·I; every sample has S + I + R equal to the initial total |
| Calibration.InitialState | sim.py:48-62 | N = 1380000000, E = 1000, 10·I = I0, R = R0, S + E + I + R + D0 = N, T = D = 0 |
| Calibration.GetSEIRModel | sim.py:48-62 | a fresh model with the given rates (defaults wedge = mu = 0, theta = 0.01) whose current state is InitialState |
| Calibration.ReproductionRate | sim.py:138-139 | defined exactly when (eta+0.01)(gamma+alpha) ≠ 0, and then times that denominator equals beta·eta |
| Calibration.ReproductionRateAgrees | sim.py:138-139 | equals `SEIR.getReproductionRate` whenever mu = 0 and theta = 0.01 |
| Calibration.Error | sim.py:64-65 | non-negative whenever sqrt is non-negative on non-negative arguments; equal-length series required |
| Calibration.ErrorSymmetric | sim.py:64-65 | getError(a, b) = getError(b, a) |
| Calibration.ErrorZeroExactly | sim.py:64-65 | for a square-root-like sqrt, the error is 0 iff the two series agree square by square |
| Calibration.ErrorOfItself | sim.py:64-65 | a series has error 0 against itself |
| Calibration.Linspace | sim.py:74-77 | num values, the first lo, the last hi, consecutive ones (hi−lo)/(num−1) apart |
| Calibration.StepCountIsLoopBound | sim.py:98 | the `while iterator*dt < days` test holds exactly for iterator below StepCount |
| Calibration.InfectedSeries | sim.py:99-101 | one recorded infected count per sampled pass |
| Calibration.EverySampleRecorded | sim.py:99-101 | when every pass is sampled, entry k is I after k steps |
| Calibration.RunningTotal | sim.py:102-105 | one running total per recorded count |
| Calibration.RunningTotalIsPrefixSum | sim.py:102-105 | entry k is I0 plus the sum of the first k+1 recorded counts |
| Calibration.SampledTotalsAreRunningTotals | sim.py:98-107 | `I_total` built pass by pass equals the running total of the recorded counts: first I0 + I[0], then previous + I[k] |
| Calibration.TrialTotals | sim.py:94-107 | one `I_total` entry per sampled pass |
| Calibration.RunTrial | sim.py:94-107 | building the model and running the `while` loop yields TrialTotals |
| Calibration.Observe | sim.py:96-107 | the `while` loop on a model returns SampledTotals over StepCount passes and leaves the model at the state StepCount steps on from where it started |
| Calibration.Pass | sim.py:99-107 | one loop pass advances the model one step and extends `I_total` by the recurrence |
| Calibration.BeforeHorizon | sim.py:98 | the loop test is true exactly below StepCount |
| Calibration.BlocksLength | sim.py:83-110 | a loop appending a block of width w per item produces Times(n, w) values |
| Calibration.BlocksIndex | sim.py:83-110 | item i's block occupies positions i·w … i·w + w − 1, in order |
| Calibration.SlabLength | sim.py:85-110 | the two inner loops append |etas|·|gammas| values |
| Calibration.CubeLength | sim.py:85-110 | the three inner loops append |betas|·|etas|·|gammas| values |
| Calibration.ProductLength | sim.py:83-110 | the four loops append one value per combination |
| Calibration.SlabIndex | sim.py:85-110 | the two inner loops place (eta_k, gamma_l) at k·|gammas| + l |
| Calibration.CubeIndex | sim.py:85-110 | the three inner loops place (beta_j, eta_k, gamma_l) at row-major position |
| Calibration.ProductIndex | sim.py:83-110 | the four loops place (alpha_i, beta_j, eta_k, gamma_l) at row-major position |
| Calibration.PositionIsRowMajor | sim.py:83-110 | that position is ((i·B + j)·E + k)·G + l |
| Calibration.ProductOrder | sim.py:83-110 | alpha outermost, gamma innermost: element ((i·B+j)·E+k)·G+l is f(alpha_i, beta_j, eta_k, gamma_l) |
| Calibration.GridSize | sim.py:83-110 | `all_values` has |alphas|·|betas|·|etas|·|gammas| entries |
| Calibration.GridOrder | sim.py:83-110 | entry ((i·B+j)·E+k)·G+l scores (alpha_i, beta_j, eta_k, gamma_l) with its trial's error |
| Calibration.SweepRow | sim.py:92-110 | the gamma loop appends one scored value per gamma, in order |
| Calibration.SweepSlab | sim.py:89-110 | the eta loop appends the eta-by-gamma block |
| Calibration.SweepCube | sim.py:86-110 | the beta loop appends the beta-by-eta-by-gamma block |
| Calibration.Insert | sim.py:112 | inserting a value adds exactly that value to the multiset |
| Calibration.SortByError | sim.py:112 | the sorted list is a permutation of its input |
| Calibration.WithError | sim.py:112 | every value kept has the given error |
| Calibration.InsertSorted | sim.py:112 | inserting into a list sorted by error keeps it sorted |
| Calibration.InsertWithError | sim.py:112 | among values of v's error, the inserted v comes first |
| Calibration.SortByErrorSorted | sim.py:112 | the result is sorted by non-decreasing error |
| Calibration.SortByErrorStable | sim.py:112 | values of equal error keep their input order (stable sort) |
| Calibration.ExplorationRanked | sim.py:67-112 | the ranking has gran⁴ values, sorted by error, a permutation of the grid, with ties in enumeration order |
| Calibration.ParameterSpaceExploration | sim.py:67-112 | None exactly when gran < 0 (linspace's ValueError) or dt = 0 (ZeroDivisionError in the progress-bar bound); an empty ranking, with no trial run, when gran = 0; otherwise the stable sort by error of the scored grid, alpha outermost |

## Left out

- `getData`: the HTTP request and table building are I/O. The observed
  series and the initial counts I0, R0, D0 are inputs.
- Plotting, the `__main__` blocks, `Value.print` and the progress bar are
  display only.
- Floating-point behaviour (rounding, convergence order of Euler and
  Runge-Kutta) is left out: all arithmetic is over exact reals, so
  statements such as "the population is conserved" are exact statements
  about the real-valued recurrences.
- Calibration.Error: `np.sqrt` is a parameter `sqrt`.
  - The non-negativity ensures relies only on `sqrt` being non-negative on
    non-negative inputs.
  - ErrorZeroExactly relies only on `sqrt` being zero exactly at zero.
  - No other property of the square root is used.
- Calibration.Error: numpy broadcasting of unequal lengths is not modelled.
  The two series must have one length, which Study.Admissible states for
  the calibration run.
- Calibration.Study: the float sampling test
  `iterator*dt - int(iterator*dt) < dt/2` is an abstract predicate on the
  pass index.
  - It must hold on pass 0 whenever the loop runs. Otherwise Python reads
    `I_total[-1]` of an empty list and raises IndexError, and that path is
    excluded rather than modelled.
  - A negative step is excluded. With days > 0 the `while` loop then
    never ends; with days ≤ 0 it runs no pass, and that empty trial is
    not modelled. A zero step raises ZeroDivisionError in `int(days/dt)`
    (sim.py:78) before any trial, which ParameterSpaceExploration models
    as None.
- The global list `T`, to which each sampled time is appended, is not
  modelled. It is never read by the modelled code.
- Calibration.ParameterSpaceExploration: the nested loops are split into
  one method per loop level (SweepRow, SweepSlab, SweepCube). The `while`
  loop body is split into Observe, Pass and BeforeHorizon. Each helper
  appends to the same list in the same order.
- Sir.RungeKutta4: the closures must accept every state of the right
  length (Defined); numpy's reshaping of nested arrays is reduced to a
  flat vector.
- Sir.Integrate and Sir.RungeKutta4 state their results as sequences. The
  numpy array returned at the end (`np.asarray(out)`) is the same list of
  vectors.
- Seir.SEIR.Simulate: the failure result models Python's
  ZeroDivisionError for N = 0 with plain floats. numpy scalars would give
  infinities instead, and that is not modelled.

## Findings

| source | as written | input that shows it | evidently intended | confidence | as-written member | corrected member |
|---|---|---|---|---|---|---|
| SIR.py:23-25 | the third closure `f3` returns b·param[0], i.e. b·S, so dR/dt follows the susceptibles | a = 0, b = 1, state [S, I, R] = [1, 0, 0]: one Runge-Kutta pass gives [1, 0, h], so the population grows from 1 to 1 + h | dR/dt = b·I, with which S + I + R is conserved by every pass | not executed | Sir.AsWrittenLeaksPopulation | Sir.CorrectedConservesTotal |
