/** The SIR model of SIR.py and its general fourth-order Runge-Kutta loop.
    The state is a flat vector of reals; a derivative is a partial function
    of the time and the whole state vector, one per component. */
module Sir {

  import opened Options
  import opened Series

  type Vector = seq<real>

  /** One closure of the list `f`: called as f[i](x, y). */
  type Derivative = (real, Vector) --> real

  /** f has an entry for each of the n components, and every entry accepts
      every state of length n. */
  ghost predicate Defined(f: seq<Derivative>, n: nat) {
    |f| >= n && forall i, x, y :: 0 <= i < n && |y| == n ==> f[i].requires(x, y)
  }

  /** The vector field at (x, y): component i is f[i](x, y). */
  function Field(f: seq<Derivative>, x: real, y: Vector): (r: Vector)
    requires Defined(f, |y|)
    ensures |r| == |y|
  {
    seq(|y|, i requires 0 <= i < |y| => f[i](x, y))
  }

  /** One stage array: K[i] = h * f[i](x, y). */
  function Stage(f: seq<Derivative>, x: real, y: Vector, h: real): (k: Vector)
    requires Defined(f, |y|)
    ensures |k| == |y|
  {
    var v := Field(f, x, y);
    seq(|y|, i requires 0 <= i < |y| => h * v[i])
  }

  /** numpy's `y + K/2`. */
  function AddHalf(y: Vector, k: Vector): (r: Vector)
    requires |k| == |y|
    ensures |r| == |y|
  {
    seq(|y|, i requires 0 <= i < |y| => y[i] + k[i] / 2.0)
  }

  /** numpy's `y + K`. */
  function AddVector(y: Vector, k: Vector): (r: Vector)
    requires |k| == |y|
    ensures |r| == |y|
  {
    seq(|y|, i requires 0 <= i < |y| => y[i] + k[i])
  }

  /** numpy's `y + (1.0/6.0)*(K1 + 2*K2 + 2*K3 + K4)`. */
  function Combine(y: Vector, k1: Vector, k2: Vector, k3: Vector, k4: Vector): (r: Vector)
    requires |k1| == |y| && |k2| == |y| && |k3| == |y| && |k4| == |y|
    ensures |r| == |y|
  {
    seq(|y|, i requires 0 <= i < |y| =>
      y[i] + (1.0 / 6.0) * (k1[i] + 2.0 * k2[i] + 2.0 * k3[i] + k4[i]))
  }

  /** One pass of the loop body of `rungeKutta4` at time x: the four stages
      at (x, y), (x + h/2, y + K1/2), (x + h/2, y + K2/2), (x + h, y + K3),
      then their weighted sum. */
  function RkStep(f: seq<Derivative>, h: real, x: real, y: Vector): (r: Vector)
    requires Defined(f, |y|)
    ensures |r| == |y|
  {
    var k1 := Stage(f, x, y, h);
    var k2 := Stage(f, x + h / 2.0, AddHalf(y, k1), h);
    var k3 := Stage(f, x + h / 2.0, AddHalf(y, k2), h);
    var k4 := Stage(f, x + h, AddVector(y, k3), h);
    Combine(y, k1, k2, k3, k4)
  }

  /** The value of x after n passes: `x = x + h` applied n times. */
  function Clock(x0: real, h: real, n: nat): real
    decreases n
  {
    if n == 0 then x0 else Clock(x0, h, n - 1) + h
  }

  /** x advances by exactly h per pass. */
  lemma {:induction false} ClockIsLinear(x0: real, h: real, n: nat)
    ensures Clock(x0, h, n) == x0 + n as real * h
    decreases n
  {
    if n > 0 {
      ClockIsLinear(x0, h, n - 1);
      assert (n - 1) as real * h + h == n as real * h;
    }
  }

  /** The state after n passes started from y0; pass m runs at the time
      the clock shows after m - 1 passes. */
  function Solution(f: seq<Derivative>, h: real, x0: real, y0: Vector, n: nat): (r: Vector)
    requires n > 0 ==> Defined(f, |y0|)
    ensures |r| == |y0|
    decreases n
  {
    if n == 0 then y0
    else RkStep(f, h, Clock(x0, h, n - 1), Solution(f, h, x0, y0, n - 1))
  }

  /** `int((x - x0)/h)`: Python's int() truncates toward zero, and a range of
      a count that is not positive is empty, so a negative quotient runs no
      pass at all. */
  function Iterations(x0: real, x: real, h: real): nat
    requires h != 0.0
  {
    var q := (x - x0) / h;
    if q < 0.0 then 0 else q.Floor
  }

  /** The pass count is the quotient truncated toward zero, and zero when
      the quotient is below one. */
  lemma IterationsTruncate(x0: real, x: real, h: real)
    requires h != 0.0
    ensures (x - x0) / h >= 0.0 ==>
      Iterations(x0, x, h) as real <= (x - x0) / h < Iterations(x0, x, h) as real + 1.0
    ensures (x - x0) / h < 1.0 ==> Iterations(x0, x, h) == 0
  {
  }

  /** The value of `counter` after n passes: incremented once per pass and
      reset to zero whenever it equals fetch. */
  function Counter(n: nat, fetch: int): int
    decreases n
  {
    if n == 0 then 0
    else if Counter(n - 1, fetch) + 1 == fetch then 0
    else Counter(n - 1, fetch) + 1
  }

  /** The counter is the pass count modulo fetch; a fetch below 1 is never
      reached, so the counter then just counts the passes. */
  lemma {:induction false} CounterIsRemainder(n: nat, fetch: int)
    ensures fetch >= 1 ==> Counter(n, fetch) == n % fetch
    ensures fetch < 1 ==> Counter(n, fetch) == n
    decreases n
  {
    if n > 0 {
      CounterIsRemainder(n - 1, fetch);
      if fetch >= 1 {
        DivModSucc(n - 1, fetch);
      }
    }
  }

  /** Pass n emits its state exactly when n is a positive multiple of
      fetch. */
  lemma EmitsOnMultiples(n: nat, fetch: int)
    requires n > 0
    ensures (Counter(n - 1, fetch) + 1 == fetch) <==> (fetch >= 1 && n % fetch == 0)
  {
    CounterIsRemainder(n - 1, fetch);
    if fetch >= 1 {
      DivModSucc(n - 1, fetch);
    }
  }

  /** What `out` holds after n passes: the state after every pass on which
      the counter reaches fetch. */
  function Samples(f: seq<Derivative>, h: real, x0: real, y0: Vector, n: nat, fetch: int): (r: seq<Vector>)
    requires n > 0 ==> Defined(f, |y0|)
    ensures forall k :: 0 <= k < |r| ==> |r[k]| == |y0|
    decreases n
  {
    if n == 0 then []
    else if Counter(n - 1, fetch) + 1 == fetch then
      Samples(f, h, x0, y0, n - 1, fetch) + [Solution(f, h, x0, y0, n)]
    else Samples(f, h, x0, y0, n - 1, fetch)
  }

  /** The sample count is the pass count divided by fetch, rounded down. */
  lemma {:induction false} SamplesLength(f: seq<Derivative>, h: real, x0: real, y0: Vector, n: nat, fetch: int)
    requires n > 0 ==> Defined(f, |y0|)
    requires fetch >= 1
    ensures |Samples(f, h, x0, y0, n, fetch)| == n / fetch
    decreases n
  {
    if n > 0 {
      SamplesLength(f, h, x0, y0, n - 1, fetch);
      EmitsOnMultiples(n, fetch);
      DivModSucc(n - 1, fetch);
    }
  }

  /** Sample k (counting from 0) is the state after (k + 1) * fetch passes,
      so the samples come out in pass order. */
  lemma {:induction false} SampleIsSolution(f: seq<Derivative>, h: real, x0: real, y0: Vector, n: nat, fetch: int, k: nat)
    requires n > 0 ==> Defined(f, |y0|)
    requires fetch >= 1 && k < n / fetch
    ensures |Samples(f, h, x0, y0, n, fetch)| == n / fetch
    ensures (k + 1) * fetch <= n
    ensures Samples(f, h, x0, y0, n, fetch)[k] == Solution(f, h, x0, y0, (k + 1) * fetch)
    decreases n
  {
    BlockStep(n, fetch, k);
    SamplesLength(f, h, x0, y0, n, fetch);
    SamplesLength(f, h, x0, y0, n - 1, fetch);
    EmitsOnMultiples(n, fetch);
    if k < (n - 1) / fetch {
      SampleIsSolution(f, h, x0, y0, n - 1, fetch, k);
    }
  }

  /** Sample k of the first n passes either was already among the samples
      of the first n - 1 passes, or is the one pass n just emitted. */
  lemma BlockStep(n: nat, fetch: int, k: nat)
    requires fetch >= 1 && k < n / fetch
    ensures n > 0
    ensures k < (n - 1) / fetch || (n % fetch == 0 && k == (n - 1) / fetch && (k + 1) * fetch == n)
  {
    if n > 0 {
      DivModSucc(n - 1, fetch);
      if n % fetch == 0 {
        DivModUnique(n, fetch, n / fetch, 0);
      }
    }
  }

  /** A fetch below 1 yields no output at all. */
  lemma {:induction false} NoFetchNoSamples(f: seq<Derivative>, h: real, x0: real, y0: Vector, n: nat, fetch: int)
    requires n > 0 ==> Defined(f, |y0|)
    requires fetch < 1
    ensures Samples(f, h, x0, y0, n, fetch) == []
    decreases n
  {
    if n > 0 {
      NoFetchNoSamples(f, h, x0, y0, n - 1, fetch);
      EmitsOnMultiples(n, fetch);
    }
  }

  /** With a positive step, an interval shorter than one step (in particular
      x <= x0) runs no pass and yields no output. */
  lemma ShortIntervalNoSamples(f: seq<Derivative>, h: real, x0: real, y0: Vector, x: real, fetch: int)
    requires h > 0.0 && x - x0 < h
    ensures Iterations(x0, x, h) == 0
    ensures Samples(f, h, x0, y0, Iterations(x0, x, h), fetch) == []
  {
    DivBelowOne(x - x0, h);
    IterationsTruncate(x0, x, h);
  }

  lemma DivBelowOne(d: real, h: real)
    requires h > 0.0 && d < h
    ensures d / h < 1.0
  {
    assert d / h * h == d;
  }

  /** Euclidean division is determined by any quotient and remainder that
      fit together. */
  lemma DivModUnique(a: int, m: int, q: int, r: int)
    requires m >= 1 && a == q * m + r && 0 <= r < m
    ensures a / m == q && a % m == r
  {
    var d := a / m - q;
    assert d * m == r - a % m;
    MulSign(d, m);
  }

  lemma MulSign(d: int, m: int)
    requires m >= 1
    ensures d >= 1 ==> d * m >= m
    ensures d <= -1 ==> d * m <= -m
  {
    if d >= 1 {
      assert d * m == (d - 1) * m + m;
    } else if d <= -1 {
      assert d * m == (d + 1) * m - m;
    }
  }

  /** One more pass raises the quotient by one exactly when it completes a
      multiple of m, and then the remainder starts again from zero. */
  lemma DivModSucc(a: nat, m: int)
    requires m >= 1
    ensures a % m + 1 == m ==> (a + 1) / m == a / m + 1 && (a + 1) % m == 0
    ensures a % m + 1 != m ==> (a + 1) / m == a / m && (a + 1) % m == a % m + 1
  {
    var q, r := a / m, a % m;
    if r + 1 == m {
      DivModUnique(a + 1, m, q + 1, 0);
    } else {
      DivModUnique(a + 1, m, q, r + 1);
    }
  }

  /** One of the four `for i in range(len(y))` loops: fills the stage
      array k in place, entry by entry, with h * f[i](x, y). */
  method FillStage(k: array<real>, f: seq<Derivative>, x: real, y: Vector, h: real)
    requires k.Length == |y| && Defined(f, |y|)
    modifies k
    ensures k[..] == Stage(f, x, y, h)
  {
    for i := 0 to k.Length
      invariant forall j :: 0 <= j < i ==> k[j] == h * f[j](x, y)
    {
      k[i] := h * f[i](x, y);
    }
    assert forall j :: 0 <= j < k.Length ==> k[..][j] == Stage(f, x, y, h)[j];
  }

  /** The body of the `for each` loop up to `x = x + h`: the four stage
      arrays are refilled in place and combined into the next state. */
  method Pass(k1: array<real>, k2: array<real>, k3: array<real>, k4: array<real>,
              f: seq<Derivative>, t: real, y: Vector, h: real)
    returns (next: Vector)
    requires k1.Length == |y| && k2.Length == |y| && k3.Length == |y| && k4.Length == |y|
    requires k1 != k2 && k1 != k3 && k1 != k4 && k2 != k3 && k2 != k4 && k3 != k4
    requires Defined(f, |y|)
    modifies k1, k2, k3, k4
    ensures k1[..] == Stage(f, t, y, h)
    ensures k2[..] == Stage(f, t + h / 2.0, AddHalf(y, k1[..]), h)
    ensures k3[..] == Stage(f, t + h / 2.0, AddHalf(y, k2[..]), h)
    ensures k4[..] == Stage(f, t + h, AddVector(y, k3[..]), h)
    ensures next == RkStep(f, h, t, y)
  {
    FillStage(k1, f, t, y, h);
    FillStage(k2, f, t + h / 2.0, AddHalf(y, k1[..]), h);
    FillStage(k3, f, t + h / 2.0, AddHalf(y, k2[..]), h);
    FillStage(k4, f, t + h, AddVector(y, k3[..]), h);
    next := Combine(y, k1[..], k2[..], k3[..], k4[..]);
  }

  /** `SIR.rungeKutta4(x0, y0, f, x, fetch, h)`; None where Python divides
      by h == 0.  The result is Samples at the pass count. */
  method RungeKutta4(x0: real, y0: Vector, f: seq<Derivative>, x: real, fetch: int, h: real := 0.01)
    returns (out: Option<seq<Vector>>)
    requires h != 0.0 && Iterations(x0, x, h) > 0 ==> Defined(f, |y0|)
    ensures out.None? <==> h == 0.0
    ensures out.Some? ==> out.value == Samples(f, h, x0, y0, Iterations(x0, x, h), fetch)
  {
    if h == 0.0 {
      return None;
    }
    var samples := Integrate(x0, y0, f, fetch, h, Iterations(x0, x, h));
    return Some(samples);
  }

  /** The `for each in range(iterations)` loop of `rungeKutta4`, with the
      stage arrays, y, x, counter and out as its local state. */
  method Integrate(x0: real, y0: Vector, f: seq<Derivative>, fetch: int, h: real, iterations: nat)
    returns (out: seq<Vector>)
    requires iterations > 0 ==> Defined(f, |y0|)
    ensures out == Samples(f, h, x0, y0, iterations, fetch)
  {
    var n := |y0|;
    var k1 := new real[n](_ => 0.0);
    var k2 := new real[n](_ => 0.0);
    var k3 := new real[n](_ => 0.0);
    var k4 := new real[n](_ => 0.0);
    var y := y0;
    var x := x0;
    var counter := 0;
    out := [];
    for each := 0 to iterations
      invariant y == Solution(f, h, x0, y0, each)
      invariant x == Clock(x0, h, each)
      invariant counter == Counter(each, fetch)
      invariant out == Samples(f, h, x0, y0, each, fetch)
    {
      y := Pass(k1, k2, k3, k4, f, x, y, h);
      x := x + h;
      counter := counter + 1;
      if counter == fetch {
        out := out + [y];
        counter := 0;
      }
    }
  }

  lemma SumOfThree(v: Vector)
    requires |v| == 3
    ensures Sum(v) == v[0] + v[1] + v[2]
  {
    var t := v[1..];
    var u := t[1..];
    assert u[1..] == [];
    assert Sum(u) == v[2];
    assert Sum(t) == v[1] + Sum(u);
  }

  /** Scaling every component scales the sum. */
  lemma {:induction false} SumScaled(k: Vector, v: Vector, h: real)
    requires |k| == |v| && forall i :: 0 <= i < |v| ==> k[i] == h * v[i]
    ensures Sum(k) == h * Sum(v)
    decreases |v|
  {
    if |v| > 0 {
      SumScaled(k[1..], v[1..], h);
    }
  }

  /** The sum of the weighted combination is the same combination of the
      sums. */
  lemma {:induction false} SumCombined(r: Vector, y: Vector, k1: Vector, k2: Vector, k3: Vector, k4: Vector)
    requires |r| == |y| && |k1| == |y| && |k2| == |y| && |k3| == |y| && |k4| == |y|
    requires forall i :: 0 <= i < |y| ==>
      r[i] == y[i] + (1.0 / 6.0) * (k1[i] + 2.0 * k2[i] + 2.0 * k3[i] + k4[i])
    ensures Sum(r) == Sum(y) + (1.0 / 6.0) * (Sum(k1) + 2.0 * Sum(k2) + 2.0 * Sum(k3) + Sum(k4))
    decreases |y|
  {
    if |y| > 0 {
      SumCombined(r[1..], y[1..], k1[1..], k2[1..], k3[1..], k4[1..]);
    }
  }

  /** The right-hand sides sum to zero at every state of length n: the
      total of the components is a conserved quantity of the ODE. */
  ghost predicate ConservesTotal(f: seq<Derivative>, n: nat) {
    Defined(f, n) && forall x, y :: |y| == n ==> Sum(Field(f, x, y)) == 0.0
  }

  /** Stages that each sum to zero leave the total unchanged. */
  lemma CombineKeepsTotal(y: Vector, k1: Vector, k2: Vector, k3: Vector, k4: Vector)
    requires |k1| == |y| && |k2| == |y| && |k3| == |y| && |k4| == |y|
    requires Sum(k1) == 0.0 && Sum(k2) == 0.0 && Sum(k3) == 0.0 && Sum(k4) == 0.0
    ensures Sum(Combine(y, k1, k2, k3, k4)) == Sum(y)
  {
    SumCombined(Combine(y, k1, k2, k3, k4), y, k1, k2, k3, k4);
  }

  /** Every stage of a conserving field sums to zero. */
  lemma StageSumsToZero(f: seq<Derivative>, x: real, y: Vector, h: real)
    requires ConservesTotal(f, |y|)
    ensures Sum(Stage(f, x, y, h)) == 0.0
  {
    SumScaled(Stage(f, x, y, h), Field(f, x, y), h);
  }

  /** A Runge-Kutta pass keeps the total of a conserving field exactly. */
  lemma RkStepKeepsTotal(f: seq<Derivative>, h: real, x: real, y: Vector)
    requires ConservesTotal(f, |y|)
    ensures Sum(RkStep(f, h, x, y)) == Sum(y)
  {
    forall t: real, z: Vector | |z| == |y|
      ensures Sum(Stage(f, t, z, h)) == 0.0
    {
      StageSumsToZero(f, t, z, h);
    }
    var k1 := Stage(f, x, y, h);
    var k2 := Stage(f, x + h / 2.0, AddHalf(y, k1), h);
    var k3 := Stage(f, x + h / 2.0, AddHalf(y, k2), h);
    var k4 := Stage(f, x + h, AddVector(y, k3), h);
    CombineKeepsTotal(y, k1, k2, k3, k4);
  }

  /** ... and so does every state of the solution. */
  lemma {:induction false} SolutionKeepsTotal(f: seq<Derivative>, h: real, x0: real, y0: Vector, n: nat)
    requires ConservesTotal(f, |y0|)
    ensures Sum(Solution(f, h, x0, y0, n)) == Sum(y0)
    decreases n
  {
    if n > 0 {
      SolutionKeepsTotal(f, h, x0, y0, n - 1);
      RkStepKeepsTotal(f, h, Clock(x0, h, n - 1), Solution(f, h, x0, y0, n - 1));
    }
  }

  /** ... and every emitted sample. */
  lemma {:induction false} SamplesKeepTotal(f: seq<Derivative>, h: real, x0: real, y0: Vector, n: nat, fetch: int)
    requires ConservesTotal(f, |y0|)
    ensures forall k :: 0 <= k < |Samples(f, h, x0, y0, n, fetch)| ==>
      Sum(Samples(f, h, x0, y0, n, fetch)[k]) == Sum(y0)
    decreases n
  {
    if n > 0 {
      SamplesKeepTotal(f, h, x0, y0, n - 1, fetch);
      SolutionKeepsTotal(f, h, x0, y0, n);
    }
  }

  /** The closures f1, f2, f3 of `SIR.simulate`, as written: f3 reads
      param[0], which is S, where the model's dR/dt is b * I. */
  function AsWrittenDerivatives(a: real, b: real): (f: seq<Derivative>)
    ensures Defined(f, 3)
  {
    [(x: real, y: Vector) requires |y| >= 2 => -1.0 * a * y[0] * y[1],
     (x: real, y: Vector) requires |y| >= 2 => a * y[0] * y[1] - b * y[1],
     (x: real, y: Vector) requires |y| >= 1 => b * y[0]]
  }

  /** f3 reading I, as the SIR equations intend. */
  function CorrectedDerivatives(a: real, b: real): (f: seq<Derivative>)
    ensures Defined(f, 3)
  {
    [(x: real, y: Vector) requires |y| >= 2 => -1.0 * a * y[0] * y[1],
     (x: real, y: Vector) requires |y| >= 2 => a * y[0] * y[1] - b * y[1],
     (x: real, y: Vector) requires |y| >= 2 => b * y[1]]
  }

  /** As written, the right-hand sides add up to b * (S - I) instead of 0. */
  lemma AsWrittenTotalFlow(a: real, b: real, x: real, y: Vector)
    requires |y| == 3
    ensures Sum(Field(AsWrittenDerivatives(a, b), x, y)) == b * (y[0] - y[1])
  {
    SumOfThree(Field(AsWrittenDerivatives(a, b), x, y));
  }

  /** With a = 0 and b = 1, a population of one susceptible person gains h
      recovered people in one pass although nobody is infected. */
  lemma AsWrittenLeaksPopulation(a: real, b: real, h: real, x: real, y: Vector)
    requires a == 0.0 && b == 1.0 && y == [1.0, 0.0, 0.0]
    ensures RkStep(AsWrittenDerivatives(a, b), h, x, y) == [1.0, 0.0, h]
  {
    var f := AsWrittenDerivatives(a, b);
    var k := [0.0, 0.0, h];
    assert Field(f, x, y) == [0.0, 0.0, 1.0];
    assert Stage(f, x, y, h) == k;
    var half := [1.0, 0.0, h / 2.0];
    assert AddHalf(y, k) == half;
    assert Field(f, x + h / 2.0, half) == [0.0, 0.0, 1.0];
    assert Stage(f, x + h / 2.0, half, h) == k;
    var full := [1.0, 0.0, h];
    assert AddVector(y, k) == full;
    assert Field(f, x + h, full) == [0.0, 0.0, 1.0];
    assert Stage(f, x + h, full, h) == k;
  }

  /** With f3 corrected the total S + I + R is conserved. */
  lemma CorrectedConservesTotal(a: real, b: real)
    ensures ConservesTotal(CorrectedDerivatives(a, b), 3)
  {
    var f := CorrectedDerivatives(a, b);
    forall x: real, y: Vector | |y| == 3
      ensures Sum(Field(f, x, y)) == 0.0
    {
      SumOfThree(Field(f, x, y));
    }
  }

  /** The SIR model object.  The fields are set once by the constructor;
      Python keeps S, I and R as one-element arrays, here plain reals. */
  class SIR {
    const a: real
    const b: real
    const N: real
    const initialInfections: real
    const S: real
    const I: real
    const R: real

    constructor (a: real, b: real, N: real, initialInfections: real := 1.0)
      ensures this.a == a && this.b == b && this.N == N
      ensures this.initialInfections == initialInfections
      ensures S == N - initialInfections && I == initialInfections && R == 0.0
    {
      this.a, this.b, this.N := a, b, N;
      this.initialInfections := initialInfections;
      S, I, R := N - initialInfections, initialInfections, 0.0;
    }

    /** `simulate(x, h, fetch)`: integrates the closures as written from
        time 0 and state [S, I, R], always with the default step 0.01 of
        `rungeKutta4`, whatever h is. */
    method Simulate(x: real, h: real := 0.1, fetch: int := 5) returns (out: seq<Vector>)
      ensures out == Samples(AsWrittenDerivatives(a, b), 0.01, 0.0, [S, I, R], Iterations(0.0, x, 0.01), fetch)
    {
      var result := RungeKutta4(0.0, [S, I, R], AsWrittenDerivatives(a, b), x, fetch);
      out := result.value;
    }

    /** `simulate` with f3 reading I: every sample keeps S + I + R == N. */
    method SimulateCorrected(x: real, h: real := 0.1, fetch: int := 5) returns (out: seq<Vector>)
      ensures out == Samples(CorrectedDerivatives(a, b), 0.01, 0.0, [S, I, R], Iterations(0.0, x, 0.01), fetch)
      ensures forall k :: 0 <= k < |out| ==> Sum(out[k]) == S + I + R
    {
      CorrectedConservesTotal(a, b);
      var result := RungeKutta4(0.0, [S, I, R], CorrectedDerivatives(a, b), x, fetch);
      out := result.value;
      SamplesKeepTotal(CorrectedDerivatives(a, b), 0.01, 0.0, [S, I, R], Iterations(0.0, x, 0.01), fetch);
      SumOfThree([S, I, R]);
    }
  }
}
