/**
 * The integration engine: `_integrate_trajectory_impl` fills a preallocated
 * `steps x 3` trajectory and a `steps` time array, one solver step per row;
 * `integrate_system` validates its arguments and picks the plain or compiled
 * functions. Both paths run the same loop, so one method models both.
 */
module Core {
  import opened Errors
  import opened Vectors
  import opened TypeDefs
  import SystemRegistry
  import SolverRegistry

  /** The state after `n` solver steps from `init`, or the first error raised. */
  function Iter(step: SolverCallable, f: SystemCallable, init: Vec3, p: seq<real>, dt: real, n: nat): Result<Vec3>
  {
    if n == 0 then Ok(init)
    else
      var v :- Iter(step, f, init, p, dt, n - 1);
      step(f, v, p, dt)
  }

  /** Row `j` of a trajectory array, as a vector. */
  function Row(a: array2<real>, j: nat): Vec3
    requires j < a.Length0 && a.Length1 == 3
    reads a
  {
    Vec3(a[j, 0], a[j, 1], a[j, 2])
  }

  /**
   * `_integrate_trajectory_impl`: row `i` holds the state after `i + 1` steps
   * and `time[i] == i * dt`; an error raised by a step ends the call with it.
   */
  method IntegrateTrajectoryImpl(f: SystemCallable, step: SolverCallable, init: Vec3, p: seq<real>,
                                 steps: nat, dt: real)
    returns (r: Result<(array2<real>, array<real>)>)
    ensures r.Ok? <==> Iter(step, f, init, p, dt, steps).Ok?
    ensures r.Err? ==> Iter(step, f, init, p, dt, steps) == Err(r.error)
    ensures r.Ok? ==>
      var (trajectory, time) := r.value;
      && fresh(trajectory) && fresh(time)
      && trajectory.Length0 == steps && trajectory.Length1 == 3 && time.Length == steps
      && (forall j :: 0 <= j < steps ==> Iter(step, f, init, p, dt, j + 1) == Ok(Row(trajectory, j)))
      && (forall j :: 0 <= j < steps ==> time[j] == j as real * dt)
  {
    var trajectory := new real[steps, 3];
    var time := new real[steps];
    var current := init;
    var i := 0;
    while i < steps
      invariant 0 <= i <= steps
      invariant Iter(step, f, init, p, dt, i) == Ok(current)
      invariant forall j :: 0 <= j < i ==>
                  Iter(step, f, init, p, dt, j + 1) == Ok(Vec3(trajectory[j, 0], trajectory[j, 1], trajectory[j, 2]))
      invariant forall j :: 0 <= j < i ==> time[j] == j as real * dt
    {
      var next := step(f, current, p, dt);
      if next.Err? {
        ErrorPersists(step, f, init, p, dt, i + 1, steps, next.error);
        return Err(next.error);
      }
      current := next.value;
      trajectory[i, 0] := current.x;
      trajectory[i, 1] := current.y;
      trajectory[i, 2] := current.z;
      time[i] := i as real * dt;
      i := i + 1;
    }
    return Ok((trajectory, time));
  }

  /**
   * `integrate_system`: `steps <= 0` and then `dt <= 0` are rejected before
   * anything else; `use_jit` None means compiled. The initial coordinate is
   * read as a 3-vector, which fails as the system's unpacking does.
   */
  method IntegrateSystem(system: SystemRegistry.System, solver: SolverRegistry.Solver, steps: int, dt: real,
                         useJit: Option<bool>)
    returns (r: Result<(array2<real>, array<real>)>)
    ensures steps <= 0 ==> r == Err(ValueError("Number of steps must be positive"))
    ensures steps > 0 && dt <= 0.0 ==> r == Err(ValueError("Time step must be positive"))
    ensures steps > 0 && dt > 0.0 ==>
      var jit := useJit.None? || useJit.value;
      var run := Start(system.initCoord, solver.GetFunc(jit), system.GetFunc(jit), system.params, steps, dt);
      && (r.Ok? <==> run.Ok?)
      && (r.Err? ==> run == Err(r.error))
      && (r.Ok? ==>
            var (trajectory, time) := r.value;
            && fresh(trajectory) && fresh(time)
            && trajectory.Length0 == steps && trajectory.Length1 == 3 && time.Length == steps
            && (forall j :: 0 <= j < steps ==> run.value[j] == Row(trajectory, j))
            && (forall j :: 0 <= j < steps ==> time[j] == j as real * dt))
  {
    if steps <= 0 {
      return Err(ValueError("Number of steps must be positive"));
    }
    if dt <= 0.0 {
      return Err(ValueError("Time step must be positive"));
    }
    var jit := if useJit.None? then true else useJit.value;
    var systemFunc := system.GetFunc(jit);
    var solverFunc := solver.GetFunc(jit);
    var init := FromSeq(system.initCoord);
    if init.Err? {
      return Err(init.error);
    }
    r := IntegrateTrajectoryImpl(systemFunc, solverFunc, init.value, system.params, steps, dt);
    RowsOk(solverFunc, systemFunc, init.value, system.params, dt, steps);
    if r.Ok? {
      forall j | 0 <= j < steps
        ensures Rows(solverFunc, systemFunc, init.value, system.params, dt, steps).value[j] == Row(r.value.0, j)
      {
        RowsAgree(solverFunc, systemFunc, init.value, system.params, dt, steps, j);
      }
    }
  }

  /** The rows `Iter(1) .. Iter(n)`, or the first error. */
  function Rows(step: SolverCallable, f: SystemCallable, init: Vec3, p: seq<real>, dt: real, n: nat)
    : (r: Result<seq<Vec3>>)
    ensures r.Ok? ==> |r.value| == n
  {
    if n == 0 then Ok([])
    else
      var rows :- Rows(step, f, init, p, dt, n - 1);
      var v :- Iter(step, f, init, p, dt, n);
      Ok(rows + [v])
  }

  /** The trajectory `integrate_system` computes, with the initial coordinate's unpacking. */
  function Start(initCoord: seq<real>, step: SolverCallable, f: SystemCallable, p: seq<real>, steps: nat, dt: real)
    : (r: Result<seq<Vec3>>)
    ensures r.Ok? ==> |r.value| == steps
  {
    var init :- FromSeq(initCoord);
    Rows(step, f, init, p, dt, steps)
  }

  lemma {:induction false} RowsAgree(step: SolverCallable, f: SystemCallable, init: Vec3, p: seq<real>, dt: real,
                                     n: nat, j: nat)
    requires j < n && Rows(step, f, init, p, dt, n).Ok?
    ensures Iter(step, f, init, p, dt, j + 1) == Ok(Rows(step, f, init, p, dt, n).value[j])
  {
    if j < n - 1 {
      RowsAgree(step, f, init, p, dt, n - 1, j);
    }
  }

  lemma {:induction false} RowsOk(step: SolverCallable, f: SystemCallable, init: Vec3, p: seq<real>, dt: real, n: nat)
    ensures Rows(step, f, init, p, dt, n).Ok? <==> Iter(step, f, init, p, dt, n).Ok?
    ensures Rows(step, f, init, p, dt, n).Err? ==> Rows(step, f, init, p, dt, n).error == Iter(step, f, init, p, dt, n).error
  {
    if n > 0 {
      RowsOk(step, f, init, p, dt, n - 1);
      if Iter(step, f, init, p, dt, n - 1).Err? {
        ErrorPersists(step, f, init, p, dt, n - 1, n, Iter(step, f, init, p, dt, n - 1).error);
      }
    }
  }

  /** Once a step raises, every longer run raises the same error. */
  lemma {:induction false} ErrorPersists(step: SolverCallable, f: SystemCallable, init: Vec3, p: seq<real>, dt: real,
                                         n: nat, m: nat, e: Error)
    requires n <= m && Iter(step, f, init, p, dt, n) == Err(e)
    ensures Iter(step, f, init, p, dt, m) == Err(e)
    decreases m - n
  {
    if n < m {
      ErrorPersists(step, f, init, p, dt, n + 1, m, e);
    }
  }

  /** Running `m` steps and then `n` more is running `m + n` steps. */
  lemma {:induction false} IterAdd(step: SolverCallable, f: SystemCallable, init: Vec3, p: seq<real>, dt: real,
                                   m: nat, n: nat)
    requires Iter(step, f, init, p, dt, m).Ok?
    ensures Iter(step, f, Iter(step, f, init, p, dt, m).value, p, dt, n) == Iter(step, f, init, p, dt, m + n)
  {
    if n > 0 {
      IterAdd(step, f, init, p, dt, m, n - 1);
    }
  }

  /** A state the step maps to itself is every row of the trajectory. */
  lemma {:induction false} FixedPointRepeats(step: SolverCallable, f: SystemCallable, init: Vec3, p: seq<real>,
                                             dt: real, n: nat)
    requires step(f, init, p, dt) == Ok(init)
    ensures Iter(step, f, init, p, dt, n) == Ok(init)
  {
    if n > 0 {
      FixedPointRepeats(step, f, init, p, dt, n - 1);
    }
  }
}
