/**
 * The integration loop of one scenario: the per-step update of positions,
 * velocities, time and the three termination flags, under the loop
 * condition as written and under the intended one.
 */
module Scenario {
  import opened Vectors
  import Functions

  /**
   * The helpers the runner calls but whose numerics are not modelled: the
   * spherical/Cartesian conversions, the n-body acceleration, the collision
   * and ejection checks, the time-step rule (at the start from the smallest
   * radius, later from the last displacement), the radial-speed draw for
   * given escape speeds, and the square root.
   */
  datatype Env = Env(
    spc2xyz: seq<Vec3> -> seq<Vec3>,
    xyz2spc: seq<Vec3> -> seq<Vec3>,
    acceleration: (seq<Vec3>, seq<real>) -> seq<Vec3>,
    collided: seq<Vec3> -> bool,
    ejected: (seq<Vec3>, seq<Vec3>, seq<real>) -> bool,
    initialTimeStep: (real, seq<Vec3>) -> real,
    timeStep: (seq<Vec3>, seq<Vec3>) -> real,
    randomRadialSpeed: seq<real> -> seq<real>,
    root: real -> real)

  /** The array helpers keep one row per body. */
  ghost predicate ValidEnv(env: Env)
  {
    (forall y :: |env.spc2xyz(y)| == |y|)
    && (forall y :: |env.xyz2spc(y)| == |y|)
    && (forall y, m :: |env.acceleration(y, m)| == |y|)
    && (forall v :: |env.randomRadialSpeed(v)| == |v|)
  }

  /** The loop variables: positions, velocities, time, step, counter and flags. */
  datatype State = State(
    x: seq<Vec3>, xdot: seq<Vec3>, t: real, dt: real, steps: nat,
    collision: bool, ejection: bool, timeLimit: bool)

  /** The state before the first step: time 0, no steps, no flag set. */
  function Start(x: seq<Vec3>, xdot: seq<Vec3>, dt: real): (s: State)
    ensures s.steps == 0 && s.t == 0.0 && !s.collision && !s.ejection && !s.timeLimit
  {
    State(x, xdot, 0.0, dt, 0, false, false, false)
  }

  /** `all([collision, ejection, timeLimit])` as written, or the intended "none of them". */
  datatype LoopCondition = AsWritten | Intended

  /**
   * Whether the loop runs another pass. As written a single false flag
   * stops it; the intended loop goes on exactly while no flag is set.
   */
  predicate KeepGoing(cond: LoopCondition, s: State)
    ensures cond == AsWritten && (!s.collision || !s.ejection || !s.timeLimit) ==> !KeepGoing(cond, s)
    ensures cond == AsWritten && KeepGoing(cond, s) ==> s.collision && s.ejection && s.timeLimit
    ensures cond == Intended ==> (KeepGoing(cond, s) <==> !s.collision && !s.ejection && !s.timeLimit)
  {
    match cond
    case AsWritten => s.collision && s.ejection && s.timeLimit
    case Intended => !(s.collision || s.ejection || s.timeLimit)
  }

  /**
   * One pass of the loop body: the Runge-Kutta velocity change, the
   * velocity and position updates, the new time, the three checks, the next
   * time step and the counter.
   */
  function Step(env: Env, m: seq<real>, maxT: real, s: State): (r: State)
    requires ValidEnv(env) && |s.xdot| == |s.x|
    ensures |r.x| == |s.x| && |r.xdot| == |s.x|
    ensures r.steps == s.steps + 1
    ensures r.t == s.t + s.dt
    ensures r.timeLimit <==> r.t >= maxT
    ensures r.xdot == AddAll(s.xdot, Functions.RungeKutta4(y => env.acceleration(y, m), s.dt, s.x))
    ensures r.x == AddAll(s.x, ScaleAll(s.dt, r.xdot))
    ensures r.collision == env.collided(r.x) && r.ejection == env.ejected(r.xdot, r.x, m)
    ensures r.dt == env.timeStep(ScaleAll(s.dt, r.xdot), r.xdot)
  {
    var f := y => env.acceleration(y, m);
    var dv := Functions.RungeKutta4(f, s.dt, s.x);
    var xdot := AddAll(s.xdot, dv);
    var dx := ScaleAll(s.dt, xdot);
    var x := AddAll(s.x, dx);
    var t := s.t + s.dt;
    State(x, xdot, t, env.timeStep(dx, xdot), s.steps + 1,
          env.collided(x), env.ejected(xdot, x, m), t >= maxT)
  }

  /** The loop run from `s`, stopped after at most `fuel` passes. */
  function Run(env: Env, m: seq<real>, maxT: real, cond: LoopCondition, s: State, fuel: nat): (r: State)
    requires ValidEnv(env) && |s.xdot| == |s.x|
    ensures |r.x| == |s.x| && |r.xdot| == |s.x|
    ensures s.steps <= r.steps <= s.steps + fuel
    decreases fuel
  {
    if fuel == 0 || !KeepGoing(cond, s) then s
    else Run(env, m, maxT, cond, Step(env, m, maxT, s), fuel - 1)
  }

  /**
   * The `while` loop, updating the loop variables one by one as the runner
   * does. `maxSteps` bounds the number of passes.
   */
  method Integrate(env: Env, m: seq<real>, maxT: real, cond: LoopCondition,
                   x0: seq<Vec3>, xdot0: seq<Vec3>, dt0: real, maxSteps: nat)
    returns (final: State)
    requires ValidEnv(env) && |xdot0| == |x0|
    ensures final == Run(env, m, maxT, cond, Start(x0, xdot0, dt0), maxSteps)
  {
    var x, xdot, t, dt, steps := x0, xdot0, 0.0, dt0, 0;
    var collision, ejection, timeLimit := false, false, false;
    var fuel := maxSteps;
    while fuel > 0 && KeepGoing(cond, State(x, xdot, t, dt, steps, collision, ejection, timeLimit))
      invariant |xdot| == |x|
      invariant Run(env, m, maxT, cond, State(x, xdot, t, dt, steps, collision, ejection, timeLimit), fuel)
             == Run(env, m, maxT, cond, Start(x0, xdot0, dt0), maxSteps)
      decreases fuel
    {
      // velocities first, then positions from the new velocities
      var dv := Functions.RungeKutta4(y => env.acceleration(y, m), dt, x);
      xdot := AddAll(xdot, dv);
      var dx := ScaleAll(dt, xdot);
      x := AddAll(x, dx);
      t := t + dt;
      // the three flags, then the next dt and the counter
      collision := env.collided(x);
      ejection := env.ejected(xdot, x, m);
      timeLimit := t >= maxT;
      dt := env.timeStep(dx, xdot);
      steps := steps + 1;
      fuel := fuel - 1;
    }
    final := State(x, xdot, t, dt, steps, collision, ejection, timeLimit);
  }

  /**
   * As written the body never runs: from the start all three flags are
   * `False`, so `all([...])` is false and the state is returned unchanged.
   */
  lemma AsWrittenLoopNeverRuns(env: Env, m: seq<real>, maxT: real, x0: seq<Vec3>, xdot0: seq<Vec3>, dt0: real, fuel: nat)
    requires ValidEnv(env) && |xdot0| == |x0|
    ensures Run(env, m, maxT, AsWritten, Start(x0, xdot0, dt0), fuel) == Start(x0, xdot0, dt0)
  {
  }

  /**
   * Under the intended condition the loop ends with a termination flag set,
   * unless it used up all of its passes.
   */
  lemma {:induction false} IntendedLoopStops(env: Env, m: seq<real>, maxT: real, s: State, fuel: nat)
    requires ValidEnv(env) && |s.xdot| == |s.x|
    ensures var r := Run(env, m, maxT, Intended, s, fuel);
      r.collision || r.ejection || r.timeLimit || r.steps == s.steps + fuel
    decreases fuel
  {
    if fuel > 0 && KeepGoing(Intended, s) {
      IntendedLoopStops(env, m, maxT, Step(env, m, maxT, s), fuel - 1);
    }
  }

  /**
   * The time-limit flag keeps agreeing with `t >= maxT` through the whole
   * run, so a run that ends on it ends at or after `maxT`.
   */
  lemma {:induction false} IntendedTimeLimit(env: Env, m: seq<real>, maxT: real, s: State, fuel: nat)
    requires ValidEnv(env) && |s.xdot| == |s.x| && (s.timeLimit <==> s.t >= maxT)
    ensures var r := Run(env, m, maxT, Intended, s, fuel);
      r.timeLimit <==> r.t >= maxT
    decreases fuel
  {
    if fuel > 0 && KeepGoing(Intended, s) {
      IntendedTimeLimit(env, m, maxT, Step(env, m, maxT, s), fuel - 1);
    }
  }

  /** The number of passes the loop makes from `s` with `fuel` passes left. */
  function Passes(env: Env, m: seq<real>, maxT: real, cond: LoopCondition, s: State, fuel: nat): (k: nat)
    requires ValidEnv(env) && |s.xdot| == |s.x|
    ensures k <= fuel
    ensures k == 0 <==> fuel == 0 || !KeepGoing(cond, s)
    decreases fuel
  {
    if fuel == 0 || !KeepGoing(cond, s) then 0
    else 1 + Passes(env, m, maxT, cond, Step(env, m, maxT, s), fuel - 1)
  }

  /**
   * Every pass adds exactly one step, so the counter grows by the number of
   * passes, and it is unchanged exactly when the body never runs.
   */
  lemma {:induction false} RunCountsSteps(env: Env, m: seq<real>, maxT: real, cond: LoopCondition, s: State, fuel: nat)
    requires ValidEnv(env) && |s.xdot| == |s.x|
    ensures var r := Run(env, m, maxT, cond, s, fuel);
      r.steps == s.steps + Passes(env, m, maxT, cond, s, fuel)
    ensures var r := Run(env, m, maxT, cond, s, fuel);
      r.steps == s.steps <==> (fuel == 0 || !KeepGoing(cond, s))
    decreases fuel
  {
    if fuel > 0 && KeepGoing(cond, s) {
      RunCountsSteps(env, m, maxT, cond, Step(env, m, maxT, s), fuel - 1);
    }
  }
}
