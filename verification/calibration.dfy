/** The calibration search of sim.py: building an SEIR model for India's
    population from observed initial counts, scoring a simulated infection
    curve against an observed one, and sweeping a four-dimensional grid of
    rate parameters, ranked by score.  Arithmetic is over exact reals. */
module Calibration {

  import opened Options
  import opened Series
  import Seir

  /** One scored grid point (the `Value` record). */
  datatype Value = Value(alpha: real, beta: real, eta: real, gamma: real, error: real)

  /** The population and the initial number of exposed people that
      `getSEIRModel` fixes. */
  const Population: real := 1380000000.0
  const InitialExposed: real := 1000.0

  /** The starting compartments `getSEIRModel` derives: a tenth of the
      observed infections count as infected, and everyone not exposed,
      infected, recovered or dead is susceptible. */
  function InitialState(I0: real, R0: real, D0: real): (s: Seir.State)
    ensures s.N == Population && s.E == InitialExposed && s.R == R0
    ensures 10.0 * s.I == I0
    ensures s.S + s.E + s.I + s.R + D0 == s.N
    ensures s.T == 0.0 && s.D == 0.0
  {
    var I := I0 / 10.0;
    Seir.State(Population - (InitialExposed + I + R0 + D0), InitialExposed, I, R0, Population, 0.0, 0.0)
  }

  /** The rate constants of a calibration trial: no births, no natural
      deaths and the default quarantine rate of `getSEIRModel`. */
  function TrialRates(alpha: real, beta: real, eta: real, gamma: real): Seir.Parameters {
    Seir.Parameters(0.0, 0.0, alpha, beta, eta, gamma, 0.01)
  }

  method GetSEIRModel(I0: real, R0: real, D0: real, eta: real := 1.0 / 5.2, gamma: real := 1.0 / 2.9,
                      alpha: real := 0.006, beta: real := 0.75, wedge: real := 0.0,
                      mu: real := 0.0, theta: real := 0.01)
    returns (model: Seir.SEIR)
    ensures fresh(model)
    ensures model.Rates() == Seir.Parameters(wedge, mu, alpha, beta, eta, gamma, theta)
    ensures model.Initial() == InitialState(I0, R0, D0)
    ensures model.Current() == model.Initial()
  {
    var N0 := Population;
    var E0 := InitialExposed;
    var I := I0 / 10.0;
    var S0 := N0 - (E0 + I + R0 + D0);
    model := new Seir.SEIR(wedge, mu, alpha, beta, eta, gamma, theta, N0, S0, E0, I, R0);
  }

  /** The module-level reproduction number; None where Python divides by
      zero. */
  function ReproductionRate(beta: real, eta: real, gamma: real, alpha: real): (r: Option<real>)
    ensures r.Some? <==> (eta + 0.01) * (gamma + alpha) != 0.0
    ensures r.Some? ==> r.value * ((eta + 0.01) * (gamma + alpha)) == beta * eta
  {
    var denominator := (eta + 0.01) * (gamma + alpha);
    if denominator == 0.0 then None else Some((beta * eta) / denominator)
  }

  /** It is the SEIR object's reproduction number for the calibration's
      fixed mu = 0 and theta = 0.01, whatever the birth rate. */
  lemma ReproductionRateAgrees(p: Seir.Parameters)
    requires p.mu == 0.0 && p.theta == 0.01
    ensures ReproductionRate(p.beta, p.eta, p.gamma, p.alpha) == Seir.ReproductionRate(p)
  {
    var d := (p.eta + p.mu + p.theta) * (p.gamma + p.alpha + p.mu);
    assert d == (p.eta + 0.01) * (p.gamma + p.alpha);
    if d != 0.0 {
      assert Seir.ReproductionRate(p).value == (p.beta * p.eta) / d;
      assert ReproductionRate(p.beta, p.eta, p.gamma, p.alpha).value == (p.beta * p.eta) / d;
    }
  }

  function Abs(x: real): real {
    if x < 0.0 then -x else x
  }

  /** What the proofs use of the square root on the non-negative reals:
      it is non-negative there and vanishes exactly at zero. */
  ghost predicate RootLike(sqrt: real -> real) {
    forall x :: 0.0 <= x ==> 0.0 <= sqrt(x) && (sqrt(x) == 0.0 <==> x == 0.0)
  }

  /** `getError`: the sum over the two series of the square roots of the
      absolute differences of their squares. */
  function Error(simulated: seq<real>, observed: seq<real>, sqrt: real -> real): (e: real)
    requires |simulated| == |observed|
    ensures (forall x :: 0.0 <= x ==> 0.0 <= sqrt(x)) ==> 0.0 <= e
    decreases |simulated|
  {
    if |simulated| == 0 then 0.0
    else sqrt(Abs(simulated[0] * simulated[0] - observed[0] * observed[0]))
         + Error(simulated[1..], observed[1..], sqrt)
  }

  lemma {:induction false} ErrorSymmetric(a: seq<real>, b: seq<real>, sqrt: real -> real)
    requires |a| == |b|
    ensures Error(a, b, sqrt) == Error(b, a, sqrt)
    decreases |a|
  {
    if |a| > 0 {
      ErrorSymmetric(a[1..], b[1..], sqrt);
      assert Abs(a[0] * a[0] - b[0] * b[0]) == Abs(b[0] * b[0] - a[0] * a[0]);
    }
  }

  /** The two series agree up to the sign of each entry. */
  predicate SameSquares(a: seq<real>, b: seq<real>)
    requires |a| == |b|
  {
    forall i :: 0 <= i < |a| ==> a[i] * a[i] == b[i] * b[i]
  }

  lemma SameSquaresSplit(a: seq<real>, b: seq<real>)
    requires |a| == |b| > 0
    ensures SameSquares(a, b) <==> a[0] * a[0] == b[0] * b[0] && SameSquares(a[1..], b[1..])
  {
    if a[0] * a[0] == b[0] * b[0] && SameSquares(a[1..], b[1..]) {
      forall i | 0 <= i < |a| ensures a[i] * a[i] == b[i] * b[i] {
        if i > 0 {
          assert a[1..][i - 1] == a[i] && b[1..][i - 1] == b[i];
        }
      }
    }
  }

  /** A perfect fit scores zero, and with a square root only a perfect
      fit (up to sign) does. */
  lemma {:induction false} ErrorZeroExactly(a: seq<real>, b: seq<real>, sqrt: real -> real)
    requires |a| == |b| && RootLike(sqrt)
    ensures Error(a, b, sqrt) == 0.0 <==> SameSquares(a, b)
    decreases |a|
  {
    if |a| > 0 {
      ErrorZeroExactly(a[1..], b[1..], sqrt);
      SameSquaresSplit(a, b);
      var d := Abs(a[0] * a[0] - b[0] * b[0]);
      assert sqrt(d) == 0.0 <==> d == 0.0;
      assert 0.0 <= Error(a[1..], b[1..], sqrt);
    }
  }

  lemma ErrorOfItself(a: seq<real>, sqrt: real -> real)
    requires RootLike(sqrt)
    ensures Error(a, a, sqrt) == 0.0
  {
    ErrorZeroExactly(a, a, sqrt);
  }

  /** `numpy.linspace(lo, hi, num)` for a non-negative count: num values,
      evenly spaced, from lo to hi inclusive. */
  function Linspace(lo: real, hi: real, num: nat): (r: seq<real>)
    ensures |r| == num
    ensures num >= 1 ==> r[0] == lo
    ensures num >= 2 ==> r[num - 1] == hi
    ensures num >= 2 ==> forall k :: 0 <= k < num - 1 ==> r[k + 1] - r[k] == (hi - lo) / (num - 1) as real
  {
    if num == 1 then [lo]
    else
      var step := if num == 0 then 0.0 else (hi - lo) / (num - 1) as real;
      seq(num, k requires 0 <= k < num => lo + k as real * step)
  }

  /** The number of passes of `while step*dt < days`: the least k
      with k * dt >= days. */
  function StepCount(dt: real, days: real): nat
    requires 0.0 < dt
  {
    var q := days / dt;
    if q <= 0.0 then 0 else if q.Floor as real == q then q.Floor else q.Floor + 1
  }

  lemma StepCountIsLoopBound(dt: real, days: real, k: nat)
    requires 0.0 < dt
    ensures k as real * dt < days <==> k < StepCount(dt, days)
  {
    var q := days / dt;
    assert days == q * dt;
    assert k as real * dt - days == (k as real - q) * dt;
    ScaleKeepsSign(k as real - q, dt);
  }

  lemma ScaleKeepsSign(x: real, dt: real)
    requires 0.0 < dt
    ensures x * dt < 0.0 <==> x < 0.0
  {
    if x < 0.0 {
      assert x * dt == -((-x) * dt);
    } else if x > 0.0 {
      assert x * dt > 0.0;
    }
  }

  /** How many of the steps before n the sampling test selects. */
  function SampleCount(sample: nat -> bool, n: nat): nat {
    if n == 0 then 0 else SampleCount(sample, n - 1) + (if sample(n - 1) then 1 else 0)
  }

  /** The list `I` after n passes: the infected count of every sampled
      state, in step order. */
  function InfectedSeries(p: Seir.Parameters, s: Seir.State, dt: real, sample: nat -> bool, n: nat)
    : (r: seq<real>)
    requires s.N != 0.0
    ensures |r| == SampleCount(sample, n)
  {
    if n == 0 then []
    else InfectedSeries(p, s, dt, sample, n - 1)
         + (if sample(n - 1) then [Seir.Trajectory(p, s, dt, n - 1).I] else [])
  }

  /** Sampling every step records the whole infected curve. */
  lemma {:induction false} EverySampleRecorded(p: Seir.Parameters, s: Seir.State, dt: real,
                                               sample: nat -> bool, n: nat, k: nat)
    requires s.N != 0.0 && forall j :: sample(j)
    requires k < n
    ensures k < |InfectedSeries(p, s, dt, sample, n)|
    ensures InfectedSeries(p, s, dt, sample, n)[k] == Seir.Trajectory(p, s, dt, k).I
    decreases n
  {
    AllSampled(sample, n);
    if k < n - 1 {
      AllSampled(sample, n - 1);
      EverySampleRecorded(p, s, dt, sample, n - 1, k);
    }
  }

  lemma {:induction false} AllSampled(sample: nat -> bool, n: nat)
    requires forall j :: sample(j)
    ensures SampleCount(sample, n) == n
  {
    if n > 0 {
      AllSampled(sample, n - 1);
    }
  }

  /** `I_total` built by its recurrence: the first entry adds the observed
      initial infections I0 to the first sample, every later entry adds the
      next sample to the entry before it. */
  function RunningTotal(I0: real, xs: seq<real>): (r: seq<real>)
    ensures |r| == |xs|
    decreases |xs|
  {
    if |xs| == 0 then []
    else
      var before := RunningTotal(I0, xs[..|xs| - 1]);
      before + [(if |before| == 0 then I0 else before[|before| - 1]) + xs[|xs| - 1]]
  }

  /** In closed form, entry k is I0 plus the first k + 1 samples. */
  lemma {:induction false} RunningTotalIsPrefixSum(I0: real, xs: seq<real>, k: nat)
    requires k < |xs|
    ensures RunningTotal(I0, xs)[k] == I0 + Sum(xs[..k + 1])
    decreases |xs|
  {
    var init := xs[..|xs| - 1];
    assert xs[..k + 1] == xs[..k] + [xs[k]];
    SumAppend(xs[..k], xs[k]);
    if k < |xs| - 1 {
      RunningTotalIsPrefixSum(I0, init, k);
      assert init[..k + 1] == xs[..k + 1];
    } else if k > 0 {
      RunningTotalIsPrefixSum(I0, init, k - 1);
      assert init[..k] == xs[..k];
    } else {
      assert xs[..0] == [];
    }
  }

  /** The fixed inputs of one exploration: the observed initial infected,
      recovered and dead counts (module globals in Python), the time step,
      the horizon in days, the sampling test on step indices, the observed
      infection curve and the square root. */
  datatype Study = Study(I0: real, R0: real, D0: real, dt: real, days: real,
                         sample: nat -> bool, observed: seq<real>, sqrt: real -> real)
  {
    /** A trial ends (the while loop only terminates for a positive step)
        and never reads `I_total[-1]` of an empty list (the first pass is
        sampled whenever there is one). */
    predicate Runs() {
      0.0 < dt && (0.0 < days ==> sample(0))
    }

    /** Besides, `getError` is given two series of one length. */
    predicate Admissible() {
      Runs() && |observed| == SampleCount(sample, StepCount(dt, days))
    }
  }

  /** `I_total` after n passes of the loop, built pass by pass: a sampled
      pass appends its infected count to the last entry, or to I0 on the
      first pass. */
  function SampledTotals(I0: real, p: Seir.Parameters, s: Seir.State, dt: real, sample: nat -> bool, n: nat)
    : (r: seq<real>)
    requires s.N != 0.0
    ensures |r| == SampleCount(sample, n)
  {
    if n == 0 then []
    else
      var before := SampledTotals(I0, p, s, dt, sample, n - 1);
      if sample(n - 1) then
        before + [(if |before| == 0 then I0 else before[|before| - 1]) + Seir.Trajectory(p, s, dt, n - 1).I]
      else before
  }

  /** They are the running totals of the sampled infected counts `I`. */
  lemma {:induction false} SampledTotalsAreRunningTotals(I0: real, p: Seir.Parameters, s: Seir.State, dt: real,
                                                         sample: nat -> bool, n: nat)
    requires s.N != 0.0
    ensures SampledTotals(I0, p, s, dt, sample, n) == RunningTotal(I0, InfectedSeries(p, s, dt, sample, n))
  {
    if n > 0 {
      SampledTotalsAreRunningTotals(I0, p, s, dt, sample, n - 1);
      if sample(n - 1) {
        var xs := InfectedSeries(p, s, dt, sample, n - 1);
        var x := Seir.Trajectory(p, s, dt, n - 1).I;
        assert InfectedSeries(p, s, dt, sample, n) == xs + [x];
        assert (xs + [x])[..|xs|] == xs;
      } else {
        var xs := InfectedSeries(p, s, dt, sample, n - 1);
        assert InfectedSeries(p, s, dt, sample, n) == xs + [] == xs;
      }
    }
  }

  /** The `I_total` of the trial with the given rates. */
  function TrialTotals(study: Study, alpha: real, beta: real, eta: real, gamma: real): (r: seq<real>)
    requires study.Runs()
    ensures |r| == SampleCount(study.sample, StepCount(study.dt, study.days))
  {
    SampledTotals(study.I0, TrialRates(alpha, beta, eta, gamma), InitialState(study.I0, study.R0, study.D0),
                  study.dt, study.sample, StepCount(study.dt, study.days))
  }

  /** The body of the innermost loop up to the error: build the model,
      step it until the horizon, and collect the sampled running totals. */
  method RunTrial(study: Study, alpha: real, beta: real, eta: real, gamma: real)
    returns (total: seq<real>)
    requires study.Runs()
    ensures total == TrialTotals(study, alpha, beta, eta, gamma)
  {
    var model := GetSEIRModel(study.I0, study.R0, study.D0, eta, gamma, alpha, beta);
    total := Observe(model, study);
  }

  /** The `while` loop of a trial, on a model fresh from `getSEIRModel`. */
  method Observe(model: Seir.SEIR, study: Study) returns (total: seq<real>)
    requires study.Runs() && model.Current().N != 0.0
    modifies model
    ensures total == SampledTotals(study.I0, model.Rates(), old(model.Current()), study.dt,
                                   study.sample, StepCount(study.dt, study.days))
    ensures model.Current() == Seir.Trajectory(model.Rates(), old(model.Current()), study.dt,
                                               StepCount(study.dt, study.days))
  {
    ghost var p, s := model.Rates(), model.Current();
    var step: nat := 0;
    var infected: seq<real> := [];
    total := [];
    var running := BeforeHorizon(step, study.dt, study.days);
    while running
      invariant running <==> step < StepCount(study.dt, study.days)
      invariant step <= StepCount(study.dt, study.days)
      invariant model.Rates() == p && model.Current() == Seir.Trajectory(p, s, study.dt, step)
      invariant total == SampledTotals(study.I0, p, s, study.dt, study.sample, step)
      invariant 0 < step ==> 0 < |total|
      decreases StepCount(study.dt, study.days) - step
    {
      infected, total := Pass(model, study, p, s, step, infected, total);
      step := step + 1;
      running := BeforeHorizon(step, study.dt, study.days);
    }
  }

  /** One pass of the `while` loop at pass number `step`: record the
      infected count if the pass is sampled, then advance the model. */
  method Pass(model: Seir.SEIR, study: Study, ghost p: Seir.Parameters, ghost s: Seir.State, step: nat,
              infected: seq<real>, total: seq<real>)
    returns (infected': seq<real>, total': seq<real>)
    requires study.Runs() && s.N != 0.0 && (0.0 < study.days || 0 < step)
    requires model.Rates() == p && model.Current() == Seir.Trajectory(p, s, study.dt, step)
    requires total == SampledTotals(study.I0, p, s, study.dt, study.sample, step)
    requires 0 < step ==> 0 < |total|
    modifies model
    ensures model.Current() == Seir.Trajectory(p, s, study.dt, step + 1)
    ensures total' == SampledTotals(study.I0, p, s, study.dt, study.sample, step + 1)
    ensures 0 < |total'|
  {
    infected', total' := infected, total;
    if study.sample(step) {
      infected' := infected' + [model.I];
      if step == 0 {
        total' := total' + [study.I0 + infected'[|infected'| - 1]];
      } else {
        total' := total' + [total'[|total'| - 1] + infected'[|infected'| - 1]];
      }
    }
    var _ := model.Simulate(study.dt);
  }

  /** The loop test `iterator*dt < days`. */
  method BeforeHorizon(step: nat, dt: real, days: real) returns (running: bool)
    requires 0.0 < dt
    ensures running <==> step < StepCount(dt, days)
  {
    StepCountIsLoopBound(dt, days, step);
    running := step as real * dt < days;
  }

  /** n * w as repeated addition; the grid lemmas below stay linear in
      it, and TimesIsProduct converts back. */
  function Times(n: nat, w: nat): nat {
    if n == 0 then 0 else Times(n - 1, w) + w
  }

  lemma {:induction false} TimesIsProduct(n: nat, w: nat)
    ensures Times(n, w) == n * w
  {
    if n > 0 {
      TimesIsProduct(n - 1, w);
    }
  }

  /** Row-major indexing stays inside the table. */
  lemma {:induction false} TimesGrows(i: nat, n: nat, w: nat)
    requires i < n
    ensures Times(i, w) + w <= Times(n, w)
    decreases n
  {
    if i < n - 1 {
      TimesGrows(i, n - 1, w);
    }
  }

  /** The score of one grid point: its rates and the error of its trial. */
  function Score(study: Study, alpha: real, beta: real, eta: real, gamma: real): Value
    requires study.Admissible()
  {
    Value(alpha, beta, eta, gamma, Error(TrialTotals(study, alpha, beta, eta, gamma), study.observed, study.sqrt))
  }

  function Scorer(study: Study): (real, real, real, real) -> Value
    requires study.Admissible()
  {
    (alpha, beta, eta, gamma) => Score(study, alpha, beta, eta, gamma)
  }

  /** The output of a loop over xs whose body appends the block g(x). */
  function Blocks<T>(g: real -> seq<T>, xs: seq<real>): seq<T>
    decreases |xs|
  {
    if |xs| == 0 then [] else Blocks(g, xs[..|xs| - 1]) + g(xs[|xs| - 1])
  }

  lemma {:induction false} BlocksLength<T>(g: real -> seq<T>, xs: seq<real>, w: nat)
    requires forall x :: |g(x)| == w
    ensures |Blocks(g, xs)| == Times(|xs|, w)
    decreases |xs|
  {
    if |xs| > 0 {
      BlocksLength(g, xs[..|xs| - 1], w);
    }
  }

  /** Element j of the block for xs[i] sits at position i * w + j. */
  lemma {:induction false} BlocksIndex<T>(g: real -> seq<T>, xs: seq<real>, w: nat, i: nat, j: nat)
    requires forall x :: |g(x)| == w
    requires i < |xs| && j < w
    ensures j < |g(xs[i])| && Times(i, w) + j < |Blocks(g, xs)|
    ensures Blocks(g, xs)[Times(i, w) + j] == g(xs[i])[j]
    decreases |xs|
  {
    var init := xs[..|xs| - 1];
    var whole, front := Blocks(g, xs), Blocks(g, init);
    assert whole == front + g(xs[|xs| - 1]);
    BlocksLength(g, init, w);
    if i < |xs| - 1 {
      BlocksIndex(g, init, w, i, j);
      TimesGrows(i, |xs| - 1, w);
      assert whole[Times(i, w) + j] == front[Times(i, w) + j];
    } else {
      assert whole[|front| + j] == g(xs[i])[j];
    }
  }

  /** The points of a four-dimensional grid, each mapped by f, in the
      order of four nested loops: first axis outermost, last innermost.
      Row is the innermost loop, Slab the two inner loops, Cube the three
      inner loops and Product all four. */
  function Row<T>(f: (real, real, real, real) -> T, a: real, b: real, e: real, gs: seq<real>): (r: seq<T>)
    ensures |r| == |gs|
  {
    seq(|gs|, l requires 0 <= l < |gs| => f(a, b, e, gs[l]))
  }

  function Slab<T>(f: (real, real, real, real) -> T, a: real, b: real, es: seq<real>, gs: seq<real>): seq<T> {
    Blocks(e => Row(f, a, b, e, gs), es)
  }

  function Cube<T>(f: (real, real, real, real) -> T, a: real, bs: seq<real>, es: seq<real>, gs: seq<real>)
    : seq<T>
  {
    Blocks(b => Slab(f, a, b, es, gs), bs)
  }

  function Product<T>(f: (real, real, real, real) -> T, xs: seq<real>, bs: seq<real>, es: seq<real>,
                      gs: seq<real>): seq<T>
  {
    Blocks(a => Cube(f, a, bs, es, gs), xs)
  }

  /** `all_values` after the four loops. */
  function Grid(study: Study, alphas: seq<real>, betas: seq<real>, etas: seq<real>, gammas: seq<real>)
    : seq<Value>
    requires study.Admissible()
  {
    Product(Scorer(study), alphas, betas, etas, gammas)
  }

  lemma SlabLength<T>(f: (real, real, real, real) -> T, a: real, b: real, es: seq<real>, gs: seq<real>)
    ensures |Slab(f, a, b, es, gs)| == Times(|es|, |gs|)
  {
    BlocksLength(e => Row(f, a, b, e, gs), es, |gs|);
  }

  lemma CubeLength<T>(f: (real, real, real, real) -> T, a: real, bs: seq<real>, es: seq<real>, gs: seq<real>)
    ensures |Cube(f, a, bs, es, gs)| == Times(|bs|, Times(|es|, |gs|))
  {
    var g := b => Slab(f, a, b, es, gs);
    forall b {
      SlabLength(f, a, b, es, gs);
    }
    BlocksLength(g, bs, Times(|es|, |gs|));
  }

  lemma ProductLength<T>(f: (real, real, real, real) -> T, xs: seq<real>, bs: seq<real>, es: seq<real>,
                         gs: seq<real>)
    ensures |Product(f, xs, bs, es, gs)| == Times(|xs|, Times(|bs|, Times(|es|, |gs|)))
  {
    var g := a => Cube(f, a, bs, es, gs);
    forall a {
      CubeLength(f, a, bs, es, gs);
    }
    BlocksLength(g, xs, Times(|bs|, Times(|es|, |gs|)));
  }

  lemma SlabIndex<T>(f: (real, real, real, real) -> T, a: real, b: real, es: seq<real>, gs: seq<real>,
                     k: nat, l: nat)
    requires k < |es| && l < |gs|
    ensures Times(k, |gs|) + l < |Slab(f, a, b, es, gs)|
    ensures Slab(f, a, b, es, gs)[Times(k, |gs|) + l] == f(a, b, es[k], gs[l])
  {
    BlocksIndex(e => Row(f, a, b, e, gs), es, |gs|, k, l);
  }

  lemma CubeIndex<T>(f: (real, real, real, real) -> T, a: real, bs: seq<real>, es: seq<real>, gs: seq<real>,
                     j: nat, k: nat, l: nat)
    requires j < |bs| && k < |es| && l < |gs|
    ensures Times(j, Times(|es|, |gs|)) + (Times(k, |gs|) + l) < |Cube(f, a, bs, es, gs)|
    ensures Cube(f, a, bs, es, gs)[Times(j, Times(|es|, |gs|)) + (Times(k, |gs|) + l)]
         == f(a, bs[j], es[k], gs[l])
  {
    var g := b => Slab(f, a, b, es, gs);
    forall b {
      SlabLength(f, a, b, es, gs);
    }
    SlabIndex(f, a, bs[j], es, gs, k, l);
    BlocksIndex(g, bs, Times(|es|, |gs|), j, Times(k, |gs|) + l);
    assert g(bs[j]) == Slab(f, a, bs[j], es, gs);
  }

  lemma ProductIndex<T>(f: (real, real, real, real) -> T, xs: seq<real>, bs: seq<real>, es: seq<real>,
                        gs: seq<real>, i: nat, j: nat, k: nat, l: nat)
    requires i < |xs| && j < |bs| && k < |es| && l < |gs|
    ensures Position(i, j, k, l, |bs|, |es|, |gs|) < |Product(f, xs, bs, es, gs)|
    ensures Product(f, xs, bs, es, gs)[Position(i, j, k, l, |bs|, |es|, |gs|)] == f(xs[i], bs[j], es[k], gs[l])
  {
    var g := a => Cube(f, a, bs, es, gs);
    forall a {
      CubeLength(f, a, bs, es, gs);
    }
    CubeIndex(f, xs[i], bs, es, gs, j, k, l);
    BlocksIndex(g, xs, Times(|bs|, Times(|es|, |gs|)), i, Times(j, Times(|es|, |gs|)) + (Times(k, |gs|) + l));
    assert g(xs[i]) == Cube(f, xs[i], bs, es, gs);
  }

  /** The row-major position of (i, j, k, l) in a B by E by G grid. */
  function Position(i: nat, j: nat, k: nat, l: nat, B: nat, E: nat, G: nat): nat {
    Times(i, Times(B, Times(E, G))) + (Times(j, Times(E, G)) + (Times(k, G) + l))
  }

  /** The same position in closed form. */
  function RowMajor(i: nat, j: nat, k: nat, l: nat, B: nat, E: nat, G: nat): nat {
    ((i * B + j) * E + k) * G + l
  }

  lemma PositionIsRowMajor(i: nat, j: nat, k: nat, l: nat, B: nat, E: nat, G: nat)
    ensures Position(i, j, k, l, B, E, G) == RowMajor(i, j, k, l, B, E, G)
  {
    TimesIsProduct(E, G);
    TimesIsProduct(B, E * G);
    TimesIsProduct(i, B * (E * G));
    TimesIsProduct(j, E * G);
    TimesIsProduct(k, G);
    Regroup(i, j, k, l, B, E, G);
  }

  /** One value per combination: gran^4 values for four axes of gran. */
  lemma GridSize(study: Study, alphas: seq<real>, betas: seq<real>, etas: seq<real>, gammas: seq<real>)
    requires study.Admissible()
    ensures |Grid(study, alphas, betas, etas, gammas)| == |alphas| * |betas| * |etas| * |gammas|
  {
    ProductLength(Scorer(study), alphas, betas, etas, gammas);
    var A, B, E, G := |alphas|, |betas|, |etas|, |gammas|;
    TimesIsProduct(E, G);
    TimesIsProduct(B, E * G);
    TimesIsProduct(A, B * (E * G));
    Associate(A, B, E, G);
  }

  lemma Associate(A: nat, B: nat, E: nat, G: nat)
    ensures A * (B * (E * G)) == A * B * E * G
  {
  }

  /** The point (xs[i], bs[j], es[k], gs[l]) sits at row-major position
      ((i * |bs| + j) * |es| + k) * |gs| + l of the enumeration. */
  lemma ProductOrder<T>(f: (real, real, real, real) -> T, xs: seq<real>, bs: seq<real>, es: seq<real>,
                        gs: seq<real>, i: nat, j: nat, k: nat, l: nat)
    requires i < |xs| && j < |bs| && k < |es| && l < |gs|
    ensures RowMajor(i, j, k, l, |bs|, |es|, |gs|) < |Product(f, xs, bs, es, gs)|
    ensures Product(f, xs, bs, es, gs)[RowMajor(i, j, k, l, |bs|, |es|, |gs|)] == f(xs[i], bs[j], es[k], gs[l])
  {
    PositionIsRowMajor(i, j, k, l, |bs|, |es|, |gs|);
    ProductIndex(f, xs, bs, es, gs, i, j, k, l);
  }

  /** The combination (alphas[i], betas[j], etas[k], gammas[l]) is scored
      at position ((i * |betas| + j) * |etas| + k) * |gammas| + l. */
  lemma GridOrder(study: Study, alphas: seq<real>, betas: seq<real>, etas: seq<real>, gammas: seq<real>,
                  i: nat, j: nat, k: nat, l: nat)
    requires study.Admissible()
    requires i < |alphas| && j < |betas| && k < |etas| && l < |gammas|
    ensures RowMajor(i, j, k, l, |betas|, |etas|, |gammas|) < |Grid(study, alphas, betas, etas, gammas)|
    ensures Grid(study, alphas, betas, etas, gammas)[RowMajor(i, j, k, l, |betas|, |etas|, |gammas|)]
         == Score(study, alphas[i], betas[j], etas[k], gammas[l])
  {
    ProductOrder(Scorer(study), alphas, betas, etas, gammas, i, j, k, l);
  }

  lemma Regroup(i: nat, j: nat, k: nat, l: nat, B: nat, E: nat, G: nat)
    ensures ((i * B + j) * E + k) * G + l == i * (B * (E * G)) + (j * (E * G) + (k * G + l))
  {
  }

  /** Python's `sorted(all_values, key=lambda elem: elem.error)`: a stable
      sort by error, as an insertion sort from the back.  Insert puts v in
      front of the first value whose error is at least v's, so of two
      values with equal errors the earlier one stays in front. */
  function Insert(v: Value, sorted: seq<Value>): (r: seq<Value>)
    ensures multiset(r) == multiset(sorted) + multiset{v}
    decreases |sorted|
  {
    if |sorted| == 0 || v.error <= sorted[0].error then [v] + sorted
    else
      assert sorted == [sorted[0]] + sorted[1..];
      [sorted[0]] + Insert(v, sorted[1..])
  }

  function SortByError(values: seq<Value>): (r: seq<Value>)
    ensures multiset(r) == multiset(values)
    decreases |values|
  {
    if |values| == 0 then []
    else
      assert values == [values[0]] + values[1..];
      Insert(values[0], SortByError(values[1..]))
  }

  predicate SortedByError(values: seq<Value>) {
    forall i, j :: 0 <= i < j < |values| ==> values[i].error <= values[j].error
  }

  /** The values whose error is e, in their order of appearance. */
  function WithError(values: seq<Value>, e: real): (r: seq<Value>)
    ensures forall k :: 0 <= k < |r| ==> r[k].error == e
    decreases |values|
  {
    if |values| == 0 then []
    else (if values[0].error == e then [values[0]] else []) + WithError(values[1..], e)
  }

  lemma {:induction false} InsertSorted(v: Value, sorted: seq<Value>)
    requires SortedByError(sorted)
    ensures SortedByError(Insert(v, sorted))
    decreases |sorted|
  {
    if |sorted| > 0 && sorted[0].error < v.error {
      var rest := Insert(v, sorted[1..]);
      InsertSorted(v, sorted[1..]);
      forall k | 0 <= k < |rest|
        ensures sorted[0].error <= rest[k].error
      {
        assert rest[k] in multiset(rest);
        assert rest[k] == v || rest[k] in multiset(sorted[1..]);
        if rest[k] != v {
          var m :| 0 <= m < |sorted[1..]| && sorted[1..][m] == rest[k];
          assert sorted[m + 1] == rest[k];
        }
      }
    }
  }

  /** Insertion skips only values with a smaller error, so among the values
      with v's error, v comes first. */
  lemma {:induction false} InsertWithError(v: Value, sorted: seq<Value>, e: real)
    ensures WithError(Insert(v, sorted), e)
         == (if v.error == e then [v] else []) + WithError(sorted, e)
    decreases |sorted|
  {
    if |sorted| == 0 || v.error <= sorted[0].error {
      assert ([v] + sorted)[1..] == sorted;
    } else {
      var rest := sorted[1..];
      InsertWithError(v, rest, e);
      assert ([sorted[0]] + Insert(v, rest))[1..] == Insert(v, rest);
    }
  }

  lemma {:induction false} SortByErrorSorted(values: seq<Value>)
    ensures SortedByError(SortByError(values))
    decreases |values|
  {
    if |values| > 0 {
      SortByErrorSorted(values[1..]);
      InsertSorted(values[0], SortByError(values[1..]));
    }
  }

  /** Stability: the values of any one error keep their relative order. */
  lemma {:induction false} SortByErrorStable(values: seq<Value>, e: real)
    ensures WithError(SortByError(values), e) == WithError(values, e)
    decreases |values|
  {
    if |values| > 0 {
      SortByErrorStable(values[1..], e);
      InsertWithError(values[0], SortByError(values[1..]), e);
    }
  }

  /** The result of `parameterSpaceExploration` for a grid of gran points
      per axis: with no points no trial is run, so the study need not be
      admissible. */
  function Exploration(study: Study, gran: nat): seq<Value>
    requires gran > 0 ==> study.Admissible()
  {
    if gran == 0 then []
    else SortByError(Grid(study, Linspace(0.030, 0.04, gran), Linspace(0.36, 0.40, gran),
                          Linspace(0.043, 0.048, gran), Linspace(0.055, 0.075, gran)))
  }

  /** The ranking holds one value per grid point, best fit first: a stable
      sort of the enumeration by error. */
  lemma ExplorationRanked(study: Study, gran: nat)
    requires study.Admissible()
    ensures |Exploration(study, gran)| == gran * gran * gran * gran
    ensures SortedByError(Exploration(study, gran))
    ensures multiset(Exploration(study, gran))
         == multiset(Grid(study, Linspace(0.030, 0.04, gran), Linspace(0.36, 0.40, gran),
                          Linspace(0.043, 0.048, gran), Linspace(0.055, 0.075, gran)))
    ensures forall e :: WithError(Exploration(study, gran), e)
                     == WithError(Grid(study, Linspace(0.030, 0.04, gran), Linspace(0.36, 0.40, gran),
                                       Linspace(0.043, 0.048, gran), Linspace(0.055, 0.075, gran)), e)
  {
    var grid := Grid(study, Linspace(0.030, 0.04, gran), Linspace(0.36, 0.40, gran),
                     Linspace(0.043, 0.048, gran), Linspace(0.055, 0.075, gran));
    GridSize(study, Linspace(0.030, 0.04, gran), Linspace(0.36, 0.40, gran),
             Linspace(0.043, 0.048, gran), Linspace(0.055, 0.075, gran));
    assert |SortByError(grid)| == |multiset(grid)|;
    SortByErrorSorted(grid);
    forall e {
      SortByErrorStable(grid, e);
    }
  }

  /** The innermost loop, over gamma: run and score one trial per value. */
  method SweepRow(study: Study, alpha: real, beta: real, eta: real, gammas: seq<real>, values: seq<Value>)
    returns (swept: seq<Value>)
    requires study.Admissible()
    ensures swept == values + Row(Scorer(study), alpha, beta, eta, gammas)
  {
    swept := values;
    for l := 0 to |gammas|
      invariant swept == values + Row(Scorer(study), alpha, beta, eta, gammas[..l])
    {
      var total := RunTrial(study, alpha, beta, eta, gammas[l]);
      var error := Error(total, study.observed, study.sqrt);
      swept := swept + [Value(alpha, beta, eta, gammas[l], error)];
      assert Row(Scorer(study), alpha, beta, eta, gammas[..l + 1])
          == Row(Scorer(study), alpha, beta, eta, gammas[..l]) + [Score(study, alpha, beta, eta, gammas[l])];
    }
    assert gammas[..|gammas|] == gammas;
  }

  /** The loop over eta. */
  method SweepSlab(study: Study, alpha: real, beta: real, etas: seq<real>, gammas: seq<real>, values: seq<Value>)
    returns (swept: seq<Value>)
    requires study.Admissible()
    ensures swept == values + Slab(Scorer(study), alpha, beta, etas, gammas)
  {
    swept := values;
    for k := 0 to |etas|
      invariant swept == values + Slab(Scorer(study), alpha, beta, etas[..k], gammas)
    {
      swept := SweepRow(study, alpha, beta, etas[k], gammas, swept);
      assert etas[..k + 1][..k] == etas[..k];
    }
    assert etas[..|etas|] == etas;
  }

  /** The loop over beta. */
  method SweepCube(study: Study, alpha: real, betas: seq<real>, etas: seq<real>, gammas: seq<real>,
                   values: seq<Value>)
    returns (swept: seq<Value>)
    requires study.Admissible()
    ensures swept == values + Cube(Scorer(study), alpha, betas, etas, gammas)
  {
    swept := values;
    for j := 0 to |betas|
      invariant swept == values + Cube(Scorer(study), alpha, betas[..j], etas, gammas)
    {
      swept := SweepSlab(study, alpha, betas[j], etas, gammas, swept);
      assert betas[..j + 1][..j] == betas[..j];
    }
    assert betas[..|betas|] == betas;
  }

  /** `parameterSpaceExploration`: the four nested loops, alpha outermost,
      then the stable sort by error.  None where numpy's linspace rejects
      a negative count, or where the progress bar's bound divides by a zero
      step; an empty ranking when there are no grid points. */
  method ParameterSpaceExploration(observed: seq<real>, I0: real, R0: real, D0: real, sample: nat -> bool,
                                   sqrt: real -> real, dt: real := 0.01, days: real := 52.0, gran: int := 5)
    returns (result: Option<seq<Value>>)
    requires gran > 0 && dt != 0.0 ==> Study(I0, R0, D0, dt, days, sample, observed, sqrt).Admissible()
    ensures result.None? <==> gran < 0 || dt == 0.0
    ensures result.Some? ==> result.value == Exploration(Study(I0, R0, D0, dt, days, sample, observed, sqrt), gran)
  {
    if gran < 0 {
      return None;
    }
    var study := Study(I0, R0, D0, dt, days, sample, observed, sqrt);
    var alphas := Linspace(0.030, 0.04, gran);
    var betas := Linspace(0.36, 0.40, gran);
    var etas := Linspace(0.043, 0.048, gran);
    var gammas := Linspace(0.055, 0.075, gran);
    if dt == 0.0 {
      return None;
    }
    if gran == 0 {
      return Some([]);
    }
    var values := [];
    for i := 0 to |alphas|
      invariant values == Product(Scorer(study), alphas[..i], betas, etas, gammas)
    {
      values := SweepCube(study, alphas[i], betas, etas, gammas, values);
      assert alphas[..i + 1][..i] == alphas[..i];
    }
    assert alphas[..|alphas|] == alphas;
    result := Some(SortByError(values));
  }
}
