/** The SEIR compartment model of SEIR.py: a mutable object holding the
    Susceptible, Exposed, Infected and Recovered counts, advanced by one
    explicit Euler step at a time.  Arithmetic is over exact reals. */
module Seir {

  import opened Options

  /** The rate constants fixed at construction. */
  datatype Parameters = Parameters(
    wedge: real,   // births per unit time
    mu: real,      // natural death rate
    alpha: real,   // disease-induced removal rate
    beta: real,    // transmission rate
    eta: real,     // incubation-to-infectious rate
    gamma: real,   // recovery rate
    theta: real)   // quarantine rate

  /** The mutable part of the object: compartments, population, clock and
      the per-step residual D. */
  datatype State = State(S: real, E: real, I: real, R: real, N: real, T: real, D: real)

  /** The right-hand sides of the four updates of `simulate` (the class
      docstring's equations plus the quarantine terms in theta), one
      function per compartment, each reading only what its equation uses. */
  function RateS(p: Parameters, S: real, I: real, N: real): real
    requires N != 0.0
  {
    p.wedge - (p.theta + p.mu) * S - p.beta * S * I / N
  }

  function RateE(p: Parameters, S: real, E: real, I: real, N: real): real
    requires N != 0.0
  {
    p.beta * S * I / N - (p.mu + p.eta + p.theta) * E
  }

  function RateI(p: Parameters, E: real, I: real): real {
    p.eta * E - (p.gamma + p.mu + p.alpha) * I
  }

  function RateR(p: Parameters, S: real, E: real, I: real, R: real): real {
    p.gamma * I + p.theta * (S + E) - p.mu * R
  }

  datatype Flows = Flows(dS: real, dE: real, dI: real, dR: real)

  /** The four right-hand sides evaluated at one and the same point. */
  function Derivatives(p: Parameters, S: real, E: real, I: real, R: real, N: real): Flows
    requires N != 0.0
  {
    Flows(RateS(p, S, I, N), RateE(p, S, E, I, N), RateI(p, E, I), RateR(p, S, E, I, R))
  }

  function TotalFlow(f: Flows): real {
    f.dS + f.dE + f.dI + f.dR
  }

  /** The basic reproduction number; None where Python divides by zero. */
  function ReproductionRate(p: Parameters): (r: Option<real>)
    ensures r.Some? <==> (p.eta + p.mu + p.theta) * (p.gamma + p.alpha + p.mu) != 0.0
    ensures r.Some? ==> r.value * ((p.eta + p.mu + p.theta) * (p.gamma + p.alpha + p.mu)) == p.beta * p.eta
  {
    var denominator := (p.eta + p.mu + p.theta) * (p.gamma + p.alpha + p.mu);
    if denominator == 0.0 then None else Some((p.beta * p.eta) / denominator)
  }

  /** One call of `simulate(dt)`.  The four assignments run in order, so
      each line reads the compartments already updated by the lines above
      it; the residual D is computed from the new values only. */
  function Step(p: Parameters, s: State, dt: real): (r: State)
    requires s.N != 0.0
    ensures r.N == s.N && r.T == s.T + dt
  {
    Advance(p, s.S, s.E, s.I, s.R, s.N, s.T, dt)
  }

  /** The step on the fields it reads: the old D is not among them. */
  function Advance(p: Parameters, S0: real, E0: real, I0: real, R0: real, N: real, T: real, dt: real): State
    requires N != 0.0
  {
    var S := S0 + dt * RateS(p, S0, I0, N);
    var E := E0 + dt * RateE(p, S, E0, I0, N);
    var I := I0 + dt * RateI(p, E, I0);
    var R := R0 + dt * RateR(p, S, E, I, R0);
    var D := -(dt * RateS(p, S, I, N) + dt * RateE(p, S, E, I, N)
               + dt * RateI(p, E, I) + dt * RateR(p, S, E, I, R));
    State(S, E, I, R, N, T + dt, D)
  }

  /** Against the right-hand sides of the ODEs: each compartment moves by
      dt times its own flow, evaluated at the compartments as updated by
      the lines before it (not at the state the step started from). */
  lemma SequentialUpdate(p: Parameters, s: State, dt: real)
    requires s.N != 0.0
    ensures var r := Step(p, s, dt);
      && r.S == s.S + dt * Derivatives(p, s.S, s.E, s.I, s.R, s.N).dS
      && r.E == s.E + dt * Derivatives(p, r.S, s.E, s.I, s.R, s.N).dE
      && r.I == s.I + dt * Derivatives(p, r.S, r.E, s.I, s.R, s.N).dI
      && r.R == s.R + dt * Derivatives(p, r.S, r.E, r.I, s.R, s.N).dR
  {
  }

  /** D is minus dt times the total flow at the state after the step. */
  lemma ResidualIsTotalFlow(p: Parameters, s: State, dt: real)
    requires s.N != 0.0
    ensures var r := Step(p, s, dt);
      r.D == -(dt * TotalFlow(Derivatives(p, r.S, r.E, r.I, r.R, r.N)))
  {
  }

  /** D does not accumulate: the step ignores the previous residual. */
  lemma ResidualIsOverwritten(p: Parameters, s: State, dt: real, d: real)
    requires s.N != 0.0
    ensures Step(p, s.(D := d), dt) == Step(p, s, dt)
  {
    var s' := s.(D := d);
    assert s'.S == s.S && s'.E == s.E && s'.I == s.I && s'.R == s.R && s'.N == s.N && s'.T == s.T;
  }

  /** The transmission and transfer terms cancel in the total flow: only
      births, natural deaths and disease removals remain. */
  lemma TotalFlowClosedForm(p: Parameters, S: real, E: real, I: real, R: real, N: real)
    requires N != 0.0
    ensures TotalFlow(Derivatives(p, S, E, I, R, N)) == p.wedge - p.mu * (S + E + I + R) - p.alpha * I
  {
    var incidence := p.beta * S * I / N;
    assert RateS(p, S, I, N) == p.wedge - (p.theta + p.mu) * S - incidence;
    assert RateE(p, S, E, I, N) == incidence - (p.mu + p.eta + p.theta) * E;
    assert TotalFlow(Derivatives(p, S, E, I, R, N))
        == RateS(p, S, I, N) + RateE(p, S, E, I, N) + RateI(p, E, I) + RateR(p, S, E, I, R);
  }

  /** Hence without births, deaths and removals the residual is zero after
      every step, whatever the step did to S + E + I + R. */
  lemma ResidualVanishesInClosedPopulation(p: Parameters, s: State, dt: real)
    requires s.N != 0.0 && p.wedge == 0.0 && p.mu == 0.0 && p.alpha == 0.0
    ensures Step(p, s, dt).D == 0.0
  {
    var r := Step(p, s, dt);
    ResidualIsTotalFlow(p, s, dt);
    TotalFlowClosedForm(p, r.S, r.E, r.I, r.R, r.N);
  }

  /** A population of two, one susceptible and one infected, with beta = 1,
      every other rate 0 and dt = 1.  The step halves S first, so the new
      exposures are computed from S = 1/2 and E becomes 1/4, where
      evaluating every flow at the start of the step gives E = 1/2; and
      S + E + I + R drops from 2 to 7/4 although nobody is born, dies or is
      removed. */
  lemma SequentialStepChangesTotal(p: Parameters, s: State)
    requires p.wedge == 0.0 && p.mu == 0.0 && p.alpha == 0.0 && p.gamma == 0.0 && p.theta == 0.0
    requires p.beta == 1.0 && p.eta == 0.0
    requires s.S == 1.0 && s.E == 0.0 && s.I == 1.0 && s.R == 0.0 && s.N == 2.0
    ensures Step(p, s, 1.0).S == 0.5 && Step(p, s, 1.0).E == 0.25
    ensures Step(p, s, 1.0).I == 1.0 && Step(p, s, 1.0).R == 0.0
    ensures Derivatives(p, s.S, s.E, s.I, s.R, s.N).dE == 0.5
  {
  }

  /** A step from a state with nobody exposed or infected keeps it so. */
  lemma InfectionFreeStep(p: Parameters, s: State, dt: real)
    requires s.N != 0.0 && s.E == 0.0 && s.I == 0.0
    ensures Step(p, s, dt).E == 0.0 && Step(p, s, dt).I == 0.0
  {
    var r := Step(p, s, dt);
    assert RateE(p, r.S, 0.0, 0.0, s.N) == 0.0;
    assert RateI(p, 0.0, 0.0) == 0.0;
  }

  /** The state after k calls of `simulate(dt)`. */
  function Trajectory(p: Parameters, s: State, dt: real, k: nat): (r: State)
    requires s.N != 0.0
    ensures r.N == s.N && r.T == s.T + k as real * dt
    decreases k
  {
    if k == 0 then s else Step(p, Trajectory(p, s, dt, k - 1), dt)
  }

  /** A state with nobody exposed or infected stays so for every step. */
  lemma {:induction false} InfectionFreeStaysFree(p: Parameters, s: State, dt: real, k: nat)
    requires s.N != 0.0 && s.E == 0.0 && s.I == 0.0
    ensures Trajectory(p, s, dt, k).E == 0.0 && Trajectory(p, s, dt, k).I == 0.0
    decreases k
  {
    if k > 0 {
      InfectionFreeStaysFree(p, s, dt, k - 1);
      InfectionFreeStep(p, Trajectory(p, s, dt, k - 1), dt);
    }
  }

  class SEIR {
    const wedge: real
    const mu: real
    const alpha: real
    const beta: real
    const eta: real
    const gamma: real
    const theta: real
    const N0: real
    const S0: real
    const E0: real
    const I0: real
    const R0: real

    var N: real
    var S: real
    var E: real
    var I: real
    var R: real
    var T: real
    var D: real

    function Rates(): Parameters {
      Parameters(wedge, mu, alpha, beta, eta, gamma, theta)
    }

    /** The state that construction and `reset` establish. */
    function Initial(): State {
      State(S0, E0, I0, R0, N0, 0.0, 0.0)
    }

    function Current(): State
      reads this
    {
      State(S, E, I, R, N, T, D)
    }

    constructor (wedge: real, mu: real, alpha: real, beta: real, eta: real, gamma: real,
                 theta: real, N0: real, S0: real, E0: real, I0: real, R0: real)
      ensures Rates() == Parameters(wedge, mu, alpha, beta, eta, gamma, theta)
      ensures Initial() == State(S0, E0, I0, R0, N0, 0.0, 0.0)
      ensures Current() == Initial()
    {
      this.wedge, this.mu, this.alpha, this.beta := wedge, mu, alpha, beta;
      this.eta, this.theta, this.gamma := eta, theta, gamma;
      this.N0, this.S0, this.E0, this.I0, this.R0 := N0, S0, E0, I0, R0;
      N, S, E, I, R := N0, S0, E0, I0, R0;
      T, D := 0.0, 0.0;
    }

    method Reset()
      modifies this
      ensures Current() == Initial()
    {
      N := N0;
      S := S0;
      E := E0;
      I := I0;
      R := R0;
      T := 0.0;
      D := 0.0;
    }

    /** `simulate(dt)`; ok is false where Python raises ZeroDivisionError
        (N == 0), which happens before any field is assigned. */
    method Simulate(dt: real := 0.01) returns (ok: bool)
      modifies this
      ensures ok <==> old(N) != 0.0
      ensures ok ==> Current() == Step(Rates(), old(Current()), dt)
      ensures !ok ==> Current() == old(Current())
    {
      if N == 0.0 {
        return false;
      }
      ok := true;
      var next := Step(Rates(), Current(), dt);
      S, E, I, R, D := next.S, next.E, next.I, next.R, next.D;
      T := T + dt;
    }
  }

  /** A model that is run, reset and run again with the same time steps
      ends in the same state as a freshly constructed one. */
  method ResetReplaysFreshRun(wedge: real, mu: real, alpha: real, beta: real, eta: real,
                              gamma: real, theta: real, N0: real, S0: real, E0: real,
                              I0: real, R0: real, warmup: seq<real>, steps: seq<real>)
    returns (replayed: State, original: State)
    ensures replayed == original
  {
    var used := new SEIR(wedge, mu, alpha, beta, eta, gamma, theta, N0, S0, E0, I0, R0);
    for i := 0 to |warmup| {
      var _ := used.Simulate(warmup[i]);
    }
    used.Reset();
    var unused := new SEIR(wedge, mu, alpha, beta, eta, gamma, theta, N0, S0, E0, I0, R0);
    for i := 0 to |steps|
      invariant used.Current() == unused.Current()
      invariant used.Rates() == unused.Rates()
    {
      var _ := used.Simulate(steps[i]);
      var _ := unused.Simulate(steps[i]);
    }
    replayed, original := used.Current(), unused.Current();
  }
}
