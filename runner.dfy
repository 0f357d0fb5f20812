/**
 * The runner (runner.py): the object that advances a configured model in
 * time. It integrates the ODE processes between discontinuities, applies the
 * Explicit processes, fires Events and Steps at their scheduled times and
 * records every target's values in a trajectory.
 */
module Runners {
  import opened Wrappers
  import opened Entities
  import opened ArrayLayout
  import opened Discontinuities
  import opened TrajectoryRecorder
  import D = Derivatives
  import S = Scheduling

  /** What the ODE solver reports through its output callback: time points and value rows. */
  datatype OdeOutput = OdeOutput(times: seq<Time>, rows: seq<seq<real>>)

  /** One row per time point, each as wide as the initial value array. */
  predicate Shaped(out: OdeOutput, width: nat)
  {
    |out.rows| == |out.times| && forall p :: 0 <= p < |out.rows| ==> |out.rows[p]| == width
  }

  /**
   * The numerical solver (`scipy.integrate.ode` with `dopri5`) as an oracle:
   * given the initial array, the start and end times and the largest step,
   * it reports the time points and rows it produced.
   */
  type Integrator = f: (seq<real>, Time, Time, real) -> OdeOutput | forall y0, ta, tb, dt :: Shaped(f(y0, ta, tb, dt), |y0|)
    witness (y0: seq<real>, ta: Time, tb: Time, dt: real) => OdeOutput([], [])

  /** How `run` ends. */
  datatype RunOutcome =
    | Finished         // the loop condition `t < t_1` became false
    | Terminated       // a termination call signalled
    | OutOfFuel        // the model's bound on loop rounds was reached
    | Failed(failure: Failure)

  /** The termination calls, none when the runner was given `None`. */
  function Signals(cfg: Config): seq<Signal>
  {
    match cfg.terminationCalls
    case None => []
    case Some(calls) => calls
  }

  /**
   * Lines 476 and 493-497 as written: the loop's time after one round. A
   * pending discontinuity sets it to `next`; otherwise only the replay of the
   * solver's time points, which runs only when there are Explicit processes
   * and reuses the name `t`, moves it, to the last replayed time point.
   */
  function AdvanceAsWritten(t: Time, next: Time, due: bool, replayed: seq<Time>): Time
  {
    if due then next else if |replayed| > 0 then replayed[|replayed| - 1] else t
  }

  /**
   * A round with nothing replayed (no ODE or no Explicit processes) and no
   * pending discontinuity keeps its time, so the loop `while t < t_1` repeats
   * such rounds forever.
   */
  lemma AdvanceAsWrittenStalls(t: Time, t1: Time)
    requires t < t1
    ensures AdvanceAsWritten(t, t1, false, []) == t < t1
  {
  }

  /** One row per reported time point, each wide enough for every slice. */
  predicate FitsRows(slices: seq<Slice>, out: OdeOutput)
  {
    |out.rows| == |out.times| && forall p :: 0 <= p < |out.rows| ==> D.Fits(slices, |out.rows[p]|)
  }

  /** The first `j` Events have been scheduled from `st0`, leaving `w`, `draws` and the registrations `sch` added to `base`. */
  predicate EventsScheduled(cfg: Config, st0: S.Progress, t0: Time, sampler: S.Sampler, j: nat, w: World, draws: nat,
                            sch: seq<Scheduled>, table: Table, base: Table)
  {
    && j <= |cfg.events|
    && S.ScheduleEvents(cfg, st0, t0, sampler, j) == Ok(S.Progress(w, draws, sch))
    && table == InsertAll(base, sch)
  }

  /** The first `j` Steps have been scheduled from `st0`, leaving `w`, `draws` and the registrations `sch` added to `base`. */
  predicate StepsScheduled(cfg: Config, st0: S.Progress, t0: Time, j: nat, w: World, draws: nat, sch: seq<Scheduled>,
                           table: Table, base: Table)
  {
    && j <= |cfg.steps|
    && S.ScheduleSteps(cfg, st0, t0, j) == Ok(S.Progress(w, draws, sch))
    && table == InsertAll(base, sch)
  }

  /**
   * Lines 502-560 at the discontinuity `t`: the firings `due` are performed
   * in order, then the Explicit processes complete the state.
   */
  function DiscontinuityEffect(cfg: Config, sampler: S.Sampler, w: World, draws: nat, t: Time, due: seq<Firing>, iter: nat)
    : Result<S.Progress, Failure>
    requires forall m :: 0 <= m < |due| ==> S.Refers(cfg, due[m])
  {
    match S.FireList(cfg, sampler, S.Progress(w, draws, []), t, due, |due|)
    case Err(e) => Err(e)
    case Ok(st) =>
      match D.ApplyExplicits(cfg.explicits, st.world, t, iter, |cfg.explicits|)
      case Err(e) => Err(e)
      case Ok(w') => Ok(st.(world := w'))
  }

  /**
   * The world the solver leaves behind. It calls `get_rhs_array` as its
   * right-hand side (line 324), and dopri5's last evaluation is the last
   * stage of its last step, at the last point it reports; with no point
   * reported nothing is evaluated.
   */
  function Settle(cfg: Config, slices: seq<Slice>, w: World, iter: nat, out: OdeOutput): Result<World, Failure>
    requires cfg.Valid() && |slices| == |cfg.odeTargets| && FitsRows(slices, out)
  {
    if |out.rows| == 0 then Ok(w)
    else
      match D.Rhs(cfg, slices, w, iter, out.times[|out.rows| - 1], out.rows[|out.rows| - 1])
      case Err(e) => Err(e)
      case Ok(r) => Ok(r.world)
  }

  /**
   * Lines 476-486 for the first `n` solver rows: each row is copied into the
   * ODE targets (accumulators kept) and the Explicit processes are applied
   * at its time.
   */
  function ReplayRowWorld(cfg: Config, slices: seq<Slice>, row: seq<real>, time: Time, w: World, iter: nat): Result<World, Failure>
    requires |slices| == |cfg.odeTargets| && D.Fits(slices, |row|)
  {
    D.ApplyExplicits(cfg.explicits, D.Unpack(cfg.odeTargets, slices, row, w, false, |cfg.odeTargets|), time, iter, |cfg.explicits|)
  }

  function ReplayWorld(cfg: Config, slices: seq<Slice>, w: World, out: OdeOutput, iter: nat, n: nat): Result<World, Failure>
    requires |slices| == |cfg.odeTargets| && FitsRows(slices, out) && n <= |out.rows|
  {
    if n == 0 then Ok(w)
    else
      match ReplayWorld(cfg, slices, w, out, iter, n - 1)
      case Err(e) => Err(e)
      case Ok(cur) => ReplayRowWorld(cfg, slices, out.rows[n - 1], out.times[n - 1], cur, iter)
  }

  /** Line 487: after each replayed row every process target is saved from the world that row left. */
  function ReplaySeries(cfg: Config, slices: seq<Slice>, w: World, series: map<VarId, VarSeries<real>>, out: OdeOutput,
                        iter: nat, tlen: nat, n: nat): map<VarId, VarSeries<real>>
    requires |slices| == |cfg.odeTargets| && FitsRows(slices, out) && n <= |out.rows| && tlen >= 1
    requires ReplayWorld(cfg, slices, w, out, iter, n).Ok?
  {
    if n == 0 then series
    else
      SaveAll(ReplaySeries(cfg, slices, w, series, out, iter, tlen, n - 1),
              ReplayWorld(cfg, slices, w, out, iter, n).value, cfg.processTargets, tlen)
  }

  /**
   * Lines 376-487 once the solver has reported `out`: the world it leaves,
   * then, when there are Explicit processes, the replay of its rows.
   */
  function IntervalWorld(cfg: Config, slices: seq<Slice>, w: World, out: OdeOutput, iter: nat): Result<World, Failure>
    requires cfg.Valid() && |slices| == |cfg.odeTargets| && FitsRows(slices, out)
  {
    match Settle(cfg, slices, w, iter, out)
    case Err(e) => Err(e)
    case Ok(w1) => if |cfg.explicits| > 0 then ReplayWorld(cfg, slices, w1, out, iter, |out.rows|) else Ok(w1)
  }

  /**
   * Lines 435-487 once the solver has reported `out`: the series after the
   * solver's columns are saved (for the time axis of length `tlen`) and,
   * when there are Explicit processes, one save per replayed row.
   */
  function IntervalSeries(cfg: Config, slices: seq<Slice>, w: World, series: map<VarId, VarSeries<real>>, out: OdeOutput,
                          iter: nat, tlen: nat): Result<map<VarId, VarSeries<real>>, Failure>
    requires cfg.Valid() && |slices| == |cfg.odeTargets| && FitsRows(slices, out) && tlen >= 1
  {
    match Settle(cfg, slices, w, iter, out)
    case Err(e) => Err(e)
    case Ok(w1) =>
      match SaveOde(series, w1, cfg.odeTargets, slices, out.rows, tlen, |cfg.odeTargets|)
      case Err(e) => Err(e)
      case Ok(s1) =>
        if |cfg.explicits| == 0 then Ok(s1)
        else
          match ReplayWorld(cfg, slices, w1, out, iter, |out.rows|)
          case Err(e) => Err(e)
          case Ok(_) => Ok(ReplaySeries(cfg, slices, w1, s1, out, iter, tlen, |out.rows|))
  }

  /**
   * Lines 375-487: how the smooth interval from `t` to `next` ends, from the
   * world `w`, series `series` and time axis `times` to `w'`, `series'` and
   * `times'`. The axis gains the solver's times. With no ODE process nothing
   * is integrated and the world and series are kept; otherwise the solver's
   * output is what the integrator gives for the packed values of `w`, the
   * ODE targets are laid out end to end, and the world and series are
   * `IntervalWorld`'s and `IntervalSeries`'.
   */
  predicate SmoothEnds(cfg: Config, integrator: Integrator, slices: seq<Slice>, iter: nat, t: Time, next: Time, dt: real,
                       w: World, series: map<VarId, VarSeries<real>>, times: seq<Time>, out: OdeOutput,
                       w': World, series': map<VarId, VarSeries<real>>, times': seq<Time>)
    requires cfg.Valid() && |times| >= 1
  {
    && times' == times + out.times
    && if |cfg.odes| == 0 then out == OdeOutput([], []) && w' == w && series' == series
       else
         && out == integrator(Pack(w, cfg.odeTargets), t, next, dt)
         && |slices| == |cfg.odeTargets| && Contiguous(slices) && FitsRows(slices, out)
         && IntervalWorld(cfg, slices, w, out, iter) == Ok(w')
         && IntervalSeries(cfg, slices, w, series, out, iter, |times'|) == Ok(series')
  }

  /** The first `n` solver rows have been replayed from `w` and `series`, leaving `w'` and `series'`. */
  predicate Replayed(cfg: Config, slices: seq<Slice>, w: World, series: map<VarId, VarSeries<real>>, out: OdeOutput,
                     iter: nat, tlen: nat, n: nat, w': World, series': map<VarId, VarSeries<real>>)
  {
    && |slices| == |cfg.odeTargets| && FitsRows(slices, out) && n <= |out.rows| && tlen >= 1
    && ReplayWorld(cfg, slices, w, out, iter, n) == Ok(w')
    && series' == ReplaySeries(cfg, slices, w, series, out, iter, tlen, n)
  }

  /** A row replayed successfully from the world the rows before it left extends the replay by one row. */
  lemma ReplayAdvances(cfg: Config, slices: seq<Slice>, w: World, series: map<VarId, VarSeries<real>>, out: OdeOutput,
                       iter: nat, tlen: nat, n: nat, cur: World, next: World)
    requires |slices| == |cfg.odeTargets| && FitsRows(slices, out) && n < |out.rows| && tlen >= 1
    requires ReplayWorld(cfg, slices, w, out, iter, n) == Ok(cur)
    requires ReplayRowWorld(cfg, slices, out.rows[n], out.times[n], cur, iter) == Ok(next)
    ensures ReplayWorld(cfg, slices, w, out, iter, n + 1) == Ok(next)
    ensures ReplaySeries(cfg, slices, w, series, out, iter, tlen, n + 1)
         == SaveAll(ReplaySeries(cfg, slices, w, series, out, iter, tlen, n), next, cfg.processTargets, tlen)
  {
  }

  /** A row whose replay fails makes the whole replay fail with its failure. */
  lemma ReplayFails(cfg: Config, slices: seq<Slice>, w: World, out: OdeOutput, iter: nat, n: nat, cur: World, e: Failure)
    requires |slices| == |cfg.odeTargets| && FitsRows(slices, out) && n < |out.rows|
    requires ReplayWorld(cfg, slices, w, out, iter, n) == Ok(cur)
    requires ReplayRowWorld(cfg, slices, out.rows[n], out.times[n], cur, iter) == Err(e)
    ensures ReplayWorld(cfg, slices, w, out, iter, |out.rows|) == Err(e)
  {
    ReplayStaysFailed(cfg, slices, w, out, iter, n + 1, |out.rows|);
  }

  lemma {:induction false} ReplayStaysFailed(cfg: Config, slices: seq<Slice>, w: World, out: OdeOutput, iter: nat, i: nat, n: nat)
    requires |slices| == |cfg.odeTargets| && FitsRows(slices, out) && i <= n <= |out.rows|
    requires ReplayWorld(cfg, slices, w, out, iter, i).Err?
    ensures ReplayWorld(cfg, slices, w, out, iter, n) == ReplayWorld(cfg, slices, w, out, iter, i)
    decreases n
  {
    if n > i {
      ReplayStaysFailed(cfg, slices, w, out, iter, i, n - 1);
    }
  }

  /**
   * The ODE state is carried across a smooth interval: with no Explicit
   * process and only expression-specified ODE processes, a successful
   * interval leaves the instance lists as they were and every ODE target's
   * instance at its entry of the solver's last row.
   */
  lemma IntervalEndsAtLastRow(cfg: Config, slices: seq<Slice>, w: World, out: OdeOutput, iter: nat, j: nat, k: nat)
    requires cfg.Valid() && |slices| == |cfg.odeTargets| && FitsRows(slices, out)
    requires |cfg.explicits| == 0 && D.ExpressionOdes(cfg) && D.DistinctVariables(cfg.odeTargets)
    requires |out.rows| > 0
    requires j < |cfg.odeTargets| && NoDuplicates(Instances(w, cfg.odeTargets[j].cls))
    requires k < |Instances(w, cfg.odeTargets[j].cls)| && k < slices[j].hi - slices[j].lo
    requires IntervalWorld(cfg, slices, w, out, iter).Ok?
    ensures IntervalWorld(cfg, slices, w, out, iter).value.active == w.active
    ensures ValueOf(IntervalWorld(cfg, slices, w, out, iter).value, cfg.odeTargets[j].variable, Instances(w, cfg.odeTargets[j].cls)[k])
         == out.rows[|out.rows| - 1][slices[j].lo + k]
  {
    var last := |out.rows| - 1;
    D.RhsHoldsRow(cfg, slices, w, iter, out.times[last], out.rows[last], j, k);
  }

  /** Rows as wide as an array the slices fit fit the slices. */
  lemma ShapedFits(slices: seq<Slice>, out: OdeOutput, width: nat)
    requires Shaped(out, width) && D.Fits(slices, width)
    ensures FitsRows(slices, out)
  {
  }

  class Runner {
    const cfg: Config
    const sampler: S.Sampler
    const integrator: Integrator
    /** The model's entities, taxa and variable values. */
    var world: World
    /** `_current_iteration`, which marks evaluation caches as outdated. */
    var currentIteration: nat
    /** Each ODE target's `_from`/`_to`. */
    var slices: seq<Slice>
    /** `next_discontinuities`. */
    var table: Table
    /** Number of exponential draws taken so far. */
    var draws: nat
    /** `trajectory_dict['t']`. */
    var times: seq<Time>
    /** The rest of `trajectory_dict`: one series per (variable, instance). */
    var series: map<VarId, VarSeries<real>>

    ghost predicate Valid()
      reads this
    {
      cfg.Valid() && S.TableRefers(cfg, table)
    }

    /** The ODE targets' slices are laid out end to end. */
    predicate LaidOut()
      reads this
    {
      |slices| == |cfg.odeTargets| && Contiguous(slices)
    }

    /** Lines 39-71: the runner holds the model's processes and starts counting at 0. */
    constructor (cfg: Config, sampler: S.Sampler, integrator: Integrator, world: World)
      requires cfg.Valid()
      ensures Valid()
      ensures this.cfg == cfg && this.sampler == sampler && this.integrator == integrator && this.world == world
      ensures currentIteration == 0 && draws == 0 && slices == [] && table == map[] && times == [] && series == map[]
    {
      this.cfg := cfg;
      this.sampler := sampler;
      this.integrator := integrator;
      this.world := world;
      currentIteration := 0;
      draws := 0;
      slices := [];
      table := map[];
      times := [];
      series := map[];
    }

    /**
     * Lines 74-105: every Explicit process in order; an expression list sets
     * each target's values from its expression, a method is called for every
     * instance of the owning class.
     */
    method ApplyExplicits(t: Time) returns (failure: Option<Failure>)
      modifies this`world
      ensures failure.None? ==> D.ApplyExplicits(cfg.explicits, old(world), t, currentIteration, |cfg.explicits|) == Ok(world)
      ensures failure.Some? ==> D.ApplyExplicits(cfg.explicits, old(world), t, currentIteration, |cfg.explicits|) == Err(failure.value)
    {
      ghost var w0 := world;
      for j := 0 to |cfg.explicits|
        invariant D.ApplyExplicits(cfg.explicits, w0, t, currentIteration, j) == Ok(world)
      {
        failure := ApplyExplicit(cfg.explicits[j], t);
        if failure.Some? {
          D.ApplyExplicitsStaysFailed(cfg.explicits, w0, t, currentIteration, j + 1, |cfg.explicits|);
          return;
        }
      }
      return None;
    }

    /** Lines 85-106 for one Explicit process `p`. */
    method ApplyExplicit(p: ExplicitProcess, t: Time) returns (failure: Option<Failure>)
      modifies this`world
      ensures failure.None? ==> D.ApplyExplicit(p, old(world), t, currentIteration) == Ok(world)
      ensures failure.Some? ==> D.ApplyExplicit(p, old(world), t, currentIteration) == Err(failure.value)
    {
      match p.spec {
        case ExplicitExprs(exprs) =>
          failure := SetTargetValues(p.targets, exprs);
        case ExplicitMethod(call) =>
          CallForEach(call, Instances(world, p.owner), t);
          failure := None;
      }
    }

    /** Lines 88-100: each target's values are set from its own expression. */
    method SetTargetValues(targets: seq<Target>, exprs: seq<Expr>) returns (failure: Option<Failure>)
      modifies this`world
      ensures failure.None? ==> D.SetTargets(targets, exprs, old(world), currentIteration, |targets|) == Ok(world)
      ensures failure.Some? ==> D.SetTargets(targets, exprs, old(world), currentIteration, |targets|) == Err(failure.value)
    {
      var i := 0;
      while i < |targets|
        invariant i <= |targets|
        invariant D.SetTargets(targets, exprs, old(world), currentIteration, i) == Ok(world)
      {
        if i >= |exprs| {
          D.SetTargetsStaysFailed(targets, exprs, old(world), currentIteration, i + 1, |targets|);
          return Some(MissingExpression);
        }
        var target := targets[i];
        var values := exprs[i](world, currentIteration);
        world := SetValues(world, target.variable, TargetInstances(world, target), values);
        i := i + 1;
      }
      return None;
    }

    /** Lines 101-105 and 175-181: a process's method is called for each of `insts`, in order. */
    method CallForEach(call: Handler, insts: seq<Inst>, t: Time)
      modifies this`world
      ensures world == D.CallEach(call, insts, old(world), t, |insts|)
    {
      var k := 0;
      while k < |insts|
        invariant k <= |insts|
        invariant world == D.CallEach(call, insts, old(world), t, k)
      {
        world := call(world, insts[k], t);
        k := k + 1;
      }
    }

    /**
     * Lines 109-190: the right-hand side of the composite ODE system at `t`
     * for the value array `arr`, laid out by `slices`. The result and the new
     * world are those of the specification `Rhs`.
     */
    method GetRhsArray(t: Time, arr: seq<real>) returns (r: Result<seq<real>, Failure>)
      requires cfg.Valid() && |slices| == |cfg.odeTargets| && D.Fits(slices, |arr|)
      modifies this`world, this`currentIteration
      ensures currentIteration == old(currentIteration) + 1
      ensures D.Rhs(cfg, slices, old(world), currentIteration, t, arr).Ok? ==>
        r == Ok(D.Rhs(cfg, slices, old(world), currentIteration, t, arr).value.derivs) &&
        world == D.Rhs(cfg, slices, old(world), currentIteration, t, arr).value.world
      ensures D.Rhs(cfg, slices, old(world), currentIteration, t, arr).Err? ==>
        r == Err(D.Rhs(cfg, slices, old(world), currentIteration, t, arr).error)
    {
      currentIteration := currentIteration + 1;
      var failure := ApplyExplicits(t);
      if failure.Some? {
        return Err(failure.value);
      }
      UnpackArray(arr, true);
      var terms := AddOdeTerms(t, D.Zeros(|arr|));
      if terms.Err? {
        return Err(terms.error);
      }
      r := GatherDerivatives(terms.value);
    }

    /**
     * Lines 137-143 (`clear`) and 480-484 (not `clear`): copy the array into
     * the ODE targets, clearing their derivatives only inside the right-hand side.
     */
    method UnpackArray(arr: seq<real>, clear: bool)
      requires |slices| == |cfg.odeTargets| && D.Fits(slices, |arr|)
      modifies this`world
      ensures world == D.Unpack(cfg.odeTargets, slices, arr, old(world), clear, |cfg.odeTargets|)
    {
      var j := 0;
      while j < |cfg.odeTargets|
        invariant j <= |cfg.odeTargets|
        invariant world == D.Unpack(cfg.odeTargets, slices, arr, old(world), clear, j)
      {
        var v := cfg.odeTargets[j].variable;
        world := SetValues(world, v, Instances(world, cfg.odeTargets[j].cls), arr[slices[j].lo..slices[j].hi]);
        if clear {
          world := ClearDerivs(world, v);
        }
        j := j + 1;
      }
    }

    /** Lines 146-181: every ODE process adds its terms, to the array or to the instances. */
    method AddOdeTerms(t: Time, derivs: seq<real>) returns (r: Result<seq<real>, Failure>)
      requires cfg.Valid() && |slices| == |cfg.odeTargets| && D.Fits(slices, |derivs|)
      modifies this`world
      ensures D.OdeTerms(cfg, slices, D.Partial(old(world), derivs), t, currentIteration, |cfg.odes|).Ok? ==>
        var st := D.OdeTerms(cfg, slices, D.Partial(old(world), derivs), t, currentIteration, |cfg.odes|).value;
        r == Ok(st.derivs) && world == st.world
      ensures D.OdeTerms(cfg, slices, D.Partial(old(world), derivs), t, currentIteration, |cfg.odes|).Err? ==>
        r == Err(D.OdeTerms(cfg, slices, D.Partial(old(world), derivs), t, currentIteration, |cfg.odes|).error)
    {
      ghost var st0 := D.Partial(world, derivs);
      var d := derivs;
      var j := 0;
      while j < |cfg.odes|
        invariant j <= |cfg.odes| && |d| == |derivs|
        invariant D.OdeTerms(cfg, slices, st0, t, currentIteration, j) == Ok(D.Partial(world, d))
      {
        ghost var stp := D.Partial(world, d);
        var added := AddProcessTerms(cfg.odes[j], t, d);
        if added.Err? {
          D.OdeTermsStaysFailed(cfg, slices, st0, t, currentIteration, j + 1, |cfg.odes|);
          return Err(added.error);
        }
        d := added.value;
        assert D.OdeTerms(cfg, slices, st0, t, currentIteration, j + 1) == D.OdeTerm(cfg, slices, cfg.odes[j], stp, t, currentIteration);
        j := j + 1;
      }
      return Ok(d);
    }

    /** Lines 148-181 for one ODE process `p`. */
    method AddProcessTerms(p: OdeProcess, t: Time, derivs: seq<real>) returns (r: Result<seq<real>, Failure>)
      requires |slices| == |cfg.odeTargets| && D.Fits(slices, |derivs|)
      requires forall m :: 0 <= m < |p.targets| ==> p.targets[m] < |cfg.odeTargets|
      modifies this`world
      ensures D.OdeTerm(cfg, slices, p, D.Partial(old(world), derivs), t, currentIteration).Ok? ==>
        var st := D.OdeTerm(cfg, slices, p, D.Partial(old(world), derivs), t, currentIteration).value;
        r == Ok(st.derivs) && world == st.world
      ensures D.OdeTerm(cfg, slices, p, D.Partial(old(world), derivs), t, currentIteration).Err? ==>
        r == Err(D.OdeTerm(cfg, slices, p, D.Partial(old(world), derivs), t, currentIteration).error)
    {
      ghost var st0 := D.Partial(world, derivs);
      var d := derivs;
      match p.spec {
        case OdeExprs(exprs) =>
          var i := 0;
          while i < |p.targets|
            invariant i <= |p.targets| && |d| == |derivs|
            invariant D.TermTargets(cfg.odeTargets, slices, p.targets, exprs, st0, currentIteration, i) == Ok(D.Partial(world, d))
          {
            if i >= |exprs| {
              D.TermTargetsStaysFailed(cfg.odeTargets, slices, p.targets, exprs, st0, currentIteration, i + 1, |p.targets|);
              return Err(MissingExpression);
            }
            var ti := p.targets[i];
            var summands := exprs[i](world, currentIteration);
            match cfg.odeTargets[ti] {
              case Plain(_, _) =>
                var added := D.AddSlice(d, slices[ti], summands);
                if added.Err? {
                  D.TermTargetsStaysFailed(cfg.odeTargets, slices, p.targets, exprs, st0, currentIteration, i + 1, |p.targets|);
                  return Err(added.error);
                }
                d := added.value;
              case Dotted(v, _, resolve) =>
                world := AddDerivs(world, v, resolve(world), summands);
            }
            i := i + 1;
          }
          return Ok(d);
        case OdeMethod(call) =>
          CallForEach(call, Instances(world, p.owner), t);
          return Ok(d);
      }
    }

    /** Lines 183-188: each ODE target's derivative attributes are added to its slice. */
    method GatherDerivatives(derivs: seq<real>) returns (r: Result<seq<real>, Failure>)
      requires |slices| == |cfg.odeTargets| && D.Fits(slices, |derivs|)
      ensures r == D.Gather(cfg.odeTargets, slices, world, derivs, |cfg.odeTargets|)
    {
      var d := derivs;
      var j := 0;
      while j < |cfg.odeTargets|
        invariant j <= |cfg.odeTargets| && |d| == |derivs|
        invariant D.Gather(cfg.odeTargets, slices, world, derivs, j) == Ok(d)
      {
        var target := cfg.odeTargets[j];
        var added := D.AddSlice(d, slices[j], Derivs(world, target.variable, Instances(world, target.cls)));
        if added.Err? {
          D.GatherStaysFailed(cfg.odeTargets, slices, world, derivs, j + 1, |cfg.odeTargets|);
          return added;
        }
        d := added.value;
        j := j + 1;
      }
      return Ok(d);
    }

    /**
     * Lines 391-408: the slices are laid end to end with the lengths of the
     * ODE targets' instance lists, and the initial array holds each target's
     * current values in its slice.
     */
    method ComposeInitialArray() returns (initial: seq<real>)
      modifies this`slices
      ensures LaidOut()
      ensures initial == Pack(world, cfg.odeTargets) && |initial| == Extent(slices) && D.Fits(slices, |initial|)
      ensures forall j :: 0 <= j < |slices| ==>
        slices[j].hi - slices[j].lo == |Instances(world, cfg.odeTargets[j].cls)| &&
        initial[slices[j].lo..slices[j].hi] == Values(world, cfg.odeTargets[j].variable, Instances(world, cfg.odeTargets[j].cls))
    {
      slices := CutSlices(Lens(world, cfg.odeTargets));
      var chunks := Chunks(world, cfg.odeTargets);
      initial := [];
      for i := 0 to |cfg.odeTargets|
        invariant initial == Concat(chunks[..i])
      {
        var target := cfg.odeTargets[i];
        initial := initial + Values(world, target.variable, Instances(world, target.cls));
        assert chunks[..i + 1][..i] == chunks[..i];
      }
      assert chunks[..|chunks|] == chunks;
      CumulativeSlices(world, cfg.odeTargets, slices);
      D.ContiguousFits(slices);
    }

    /** Lines 398-409: slice `i` runs from `froms[i]` to `tos[i]`, the running sums of `lens`. */
    static method CutSlices(lens: seq<nat>) returns (slices: seq<Slice>)
      ensures |slices| == |lens|
      ensures forall j :: 0 <= j < |slices| ==> slices[j] == Slice(Sum(lens[..j]), Sum(lens[..j + 1]))
    {
      var froms, tos, arraylen := BuildLayout(lens);
      slices := [];
      for i := 0 to |lens|
        invariant |slices| == i
        invariant forall j :: 0 <= j < i ==> slices[j] == Slice(froms[j], tos[j])
      {
        slices := slices + [Slice(froms[i], tos[i])];
      }
    }

    /**
     * Lines 580-640: every target's current values are recorded for the
     * active instances of its class, and its idle instances are padded.
     */
    method SaveToTraj(targets: seq<Target>)
      requires |times| >= 1
      modifies this`series
      ensures series == SaveAll(old(series), world, targets, |times|)
    {
      for j := 0 to |targets|
        invariant series == SaveAll(old(series), world, targets[..j], |times|)
      {
        var target := targets[j];
        var m := SaveTargetSeries(SeriesOf(series, target.variable), target, |times|);
        series := series[target.variable := m];
        assert targets[..j + 1][..j] == targets[..j];
      }
      assert targets[..|targets|] == targets;
    }

    /** Lines 587-640 for one target. */
    method SaveTargetSeries(m: VarSeries<real>, target: Target, tlen: nat) returns (r: VarSeries<real>)
      requires tlen >= 1
      ensures r == SaveTarget(m, world, target, tlen)
    {
      var active := Instances(world, target.cls);
      var values := Values(world, target.variable, active);
      r := m;
      for k := 0 to |active|
        invariant r == RecordAll(m, active[..k], values[..k], tlen)
      {
        r := RecordActive(r, active[k], values[k], tlen);
        assert active[..k + 1][..k] == active[..k];
        assert values[..k + 1][..k] == values[..k];
      }
      assert active[..|active|] == active && values[..|values|] == values;
      var idle := Idle(world, target.cls);
      ghost var recorded := r;
      for k := 0 to |idle|
        invariant r == PadAll(recorded, idle[..k], tlen)
      {
        r := PadIdle(r, idle[k], tlen);
        assert idle[..k + 1][..k] == idle[..k];
      }
      assert idle[..|idle|] == idle;
    }

    /**
     * Lines 435-458: the solver's time points extend the time axis, and the
     * instance at position `p` of ODE target `j` receives column
     * `slices[j].lo + p` of the solver's rows.
     */
    method SaveOdeResult(out: OdeOutput) returns (failure: Option<Failure>)
      requires |slices| == |cfg.odeTargets|
      modifies this`times, this`series
      ensures times == old(times) + out.times
      ensures failure.None? ==> SaveOde(old(series), world, cfg.odeTargets, slices, out.rows, |times|, |cfg.odeTargets|) == Ok(series)
      ensures failure.Some? ==> SaveOde(old(series), world, cfg.odeTargets, slices, out.rows, |times|, |cfg.odeTargets|) == Err(failure.value)
    {
      times := times + out.times;
      for j := 0 to |cfg.odeTargets|
        invariant times == old(times) + out.times
        invariant SaveOde(old(series), world, cfg.odeTargets, slices, out.rows, |times|, j) == Ok(series)
      {
        var target := cfg.odeTargets[j];
        var insts := Instances(world, target.cls);
        var saved := SaveTargetColumns(SeriesOf(series, target.variable), insts, slices[j].lo, out.rows, |times|);
        if saved.Err? {
          SaveOdeStaysFailed(old(series), world, cfg.odeTargets, slices, out.rows, |times|, j + 1, |cfg.odeTargets|);
          return Some(saved.error);
        }
        series := series[target.variable := saved.value];
      }
      return None;
    }

    /** Lines 444-458 for one ODE target, whose columns start at `lo`. */
    method SaveTargetColumns(m: VarSeries<real>, insts: seq<Inst>, lo: nat, rows: seq<seq<real>>, tlen: nat)
      returns (r: Result<VarSeries<real>, Failure>)
      ensures r == SaveColumns(m, insts, lo, rows, tlen, |insts|)
    {
      var cur := m;
      for k := 0 to |insts|
        invariant SaveColumns(m, insts, lo, rows, tlen, k) == Ok(cur)
      {
        var col := Column(rows, lo + k);
        if col.Err? {
          SaveColumnsStaysFailed(m, insts, lo, rows, tlen, k + 1, |insts|);
          return Err(col.error);
        }
        cur := RecordColumn(cur, insts[k], col.value, tlen);
      }
      return Ok(cur);
    }

    /** Lines 280-283 and 313-317: `f` is appended to the list at key `k`, which is created if absent. */
    method Register(k: Time, f: Firing)
      requires S.Refers(cfg, f)
      modifies this`table
      ensures table == Insert(old(table), k, f)
    {
      if k in table {
        table := table[k := table[k] + [f]];
      } else {
        table := table[k := [f]];
      }
    }

    /**
     * Lines 257-284: every instance of every Event's owning class gets its
     * first occurrence registered: `t0` plus an exponential draw for a rate,
     * `next(t0)` for a time function, which must be later than `t0`.
     */
    method ScheduleEvents(t0: Time) returns (failure: Option<Failure>, ghost sch: seq<Scheduled>)
      modifies this`table, this`draws
      ensures failure.None? ==>
        S.ScheduleEvents(cfg, S.Progress(world, old(draws), []), t0, sampler, |cfg.events|) == Ok(S.Progress(world, draws, sch)) &&
        table == InsertAll(old(table), sch)
      ensures failure.Some? ==>
        S.ScheduleEvents(cfg, S.Progress(world, old(draws), []), t0, sampler, |cfg.events|) == Err(failure.value)
    {
      ghost var st0 := S.Progress(world, draws, []);
      sch := [];
      for j := 0 to |cfg.events|
        invariant EventsScheduled(cfg, st0, t0, sampler, j, world, draws, sch, table, old(table))
      {
        failure, sch := ScheduleEvent(j, t0, st0, old(table), sch);
        if failure.Some? {
          return;
        }
      }
      failure := None;
    }

    /** Event `j` over its class's instances, once the Events before it have been scheduled from `st0`. */
    method ScheduleEvent(j: nat, t0: Time, ghost st0: S.Progress, ghost base: Table, ghost prior: seq<Scheduled>)
      returns (failure: Option<Failure>, ghost sch: seq<Scheduled>)
      requires j < |cfg.events| && EventsScheduled(cfg, st0, t0, sampler, j, world, draws, prior, table, base)
      modifies this`table, this`draws
      ensures failure.None? ==> EventsScheduled(cfg, st0, t0, sampler, j + 1, world, draws, sch, table, base)
      ensures failure.Some? ==> S.ScheduleEvents(cfg, st0, t0, sampler, |cfg.events|) == Err(failure.value)
    {
      ghost var cur := S.Progress(world, draws, prior);
      var insts := Instances(world, cfg.events[j].owner);
      failure, sch := ScheduleEventInstances(j, insts, t0, base, prior);
      if failure.Some? {
        S.ScheduleEventsFails(cfg, st0, t0, sampler, j, cur, failure.value);
        return;
      }
      S.ScheduleEventsAdvances(cfg, st0, t0, sampler, j, cur, S.Progress(world, draws, sch));
    }

    /** Lines 262-283 for Event `pj` over `insts`, after the registrations `prior`. */
    method ScheduleEventInstances(pj: nat, insts: seq<Inst>, t0: Time, ghost base: Table, ghost prior: seq<Scheduled>)
      returns (failure: Option<Failure>, ghost sch: seq<Scheduled>)
      requires pj < |cfg.events| && table == InsertAll(base, prior)
      modifies this`table, this`draws
      ensures failure.None? ==>
        S.ScheduleEventInsts(cfg, pj, insts, S.Progress(world, old(draws), prior), t0, sampler, |insts|) == Ok(S.Progress(world, draws, sch)) &&
        table == InsertAll(base, sch)
      ensures failure.Some? ==>
        S.ScheduleEventInsts(cfg, pj, insts, S.Progress(world, old(draws), prior), t0, sampler, |insts|) == Err(failure.value)
    {
      ghost var stp := S.Progress(world, draws, prior);
      sch := prior;
      for k := 0 to |insts|
        invariant S.ScheduleEventInsts(cfg, pj, insts, stp, t0, sampler, k) == Ok(S.Progress(world, draws, sch))
        invariant table == InsertAll(base, sch)
      {
        S.ScheduleEventInstsNext(cfg, pj, insts, stp, t0, sampler, k, S.Progress(world, draws, sch));
        failure, sch := ScheduleEventInstance(pj, insts[k], t0, base, sch);
        if failure.Some? {
          return;
        }
      }
      failure := None;
    }

    /**
     * Lines 263-283 for one instance: `t0` plus an exponential draw for a
     * positive rate, `next(t0)` for a time function if it is later than `t0`.
     */
    method ScheduleEventInstance(pj: nat, inst: Inst, t0: Time, ghost base: Table, ghost prior: seq<Scheduled>)
      returns (failure: Option<Failure>, ghost sch: seq<Scheduled>)
      requires pj < |cfg.events| && table == InsertAll(base, prior)
      modifies this`table, this`draws
      ensures failure.None? ==>
        S.EventInst(cfg, pj, inst, S.Progress(world, old(draws), prior), t0, sampler) == Ok(S.Progress(world, draws, sch)) &&
        table == InsertAll(base, sch)
      ensures failure.Some? ==>
        S.EventInst(cfg, pj, inst, S.Progress(world, old(draws), prior), t0, sampler) == Err(failure.value)
    {
      var next := t0;
      sch := prior;
      match cfg.events[pj].timing {
        case RateTiming(rate) =>
          if rate <= 0.0 {
            return Some(NonPositiveRate), sch;
          }
          next := t0 + sampler(1.0 / rate, draws);
          draws := draws + 1;
        case TimeTiming(nextTime) =>
          next := nextTime(t0);
          if next <= t0 {
            return Some(NotLater), sch;
          }
        case OtherTiming =>
          return Some(UnsupportedEventType), sch;
      }
      var e := Scheduled(next, EventFiring(pj, inst));
      Register(e.time, e.firing);
      InsertAllSnoc(base, sch, e);
      sch := sch + [e];
      failure := None;
    }

    /**
     * Lines 289-318: every instance of every Step's owning class gets its
     * next stepping time registered; a step due at `t0` is performed first.
     * Each next time must be later than `t0`.
     */
    method ScheduleSteps(t0: Time) returns (failure: Option<Failure>, ghost sch: seq<Scheduled>)
      modifies this`world, this`table
      ensures failure.None? ==>
        S.ScheduleSteps(cfg, S.Progress(old(world), draws, []), t0, |cfg.steps|) == Ok(S.Progress(world, draws, sch)) &&
        table == InsertAll(old(table), sch)
      ensures failure.Some? ==>
        S.ScheduleSteps(cfg, S.Progress(old(world), draws, []), t0, |cfg.steps|) == Err(failure.value)
    {
      ghost var st0 := S.Progress(world, draws, []);
      sch := [];
      for j := 0 to |cfg.steps|
        invariant StepsScheduled(cfg, st0, t0, j, world, draws, sch, table, old(table))
      {
        failure, sch := ScheduleStep(j, t0, st0, old(table), sch);
        if failure.Some? {
          return;
        }
      }
      failure := None;
    }

    /** Step `j` over its class's instances, once the Steps before it have been scheduled from `st0`. */
    method ScheduleStep(j: nat, t0: Time, ghost st0: S.Progress, ghost base: Table, ghost prior: seq<Scheduled>)
      returns (failure: Option<Failure>, ghost sch: seq<Scheduled>)
      requires j < |cfg.steps| && StepsScheduled(cfg, st0, t0, j, world, draws, prior, table, base)
      modifies this`world, this`table
      ensures failure.None? ==> StepsScheduled(cfg, st0, t0, j + 1, world, draws, sch, table, base)
      ensures failure.Some? ==> S.ScheduleSteps(cfg, st0, t0, |cfg.steps|) == Err(failure.value)
    {
      ghost var cur := S.Progress(world, draws, prior);
      var insts := Instances(world, cfg.steps[j].owner);
      failure, sch := ScheduleStepInstances(j, insts, t0, base, prior);
      if failure.Some? {
        S.ScheduleStepsFails(cfg, st0, t0, j, cur, failure.value);
        return;
      }
      S.ScheduleStepsAdvances(cfg, st0, t0, j, cur, S.Progress(world, draws, sch));
    }

    /** Lines 293-317 for Step `pj` over `insts`, after the registrations `prior`. */
    method ScheduleStepInstances(pj: nat, insts: seq<Inst>, t0: Time, ghost base: Table, ghost prior: seq<Scheduled>)
      returns (failure: Option<Failure>, ghost sch: seq<Scheduled>)
      requires pj < |cfg.steps| && table == InsertAll(base, prior)
      modifies this`world, this`table
      ensures failure.None? ==>
        S.ScheduleStepInsts(cfg, pj, insts, S.Progress(old(world), draws, prior), t0, |insts|) == Ok(S.Progress(world, draws, sch)) &&
        table == InsertAll(base, sch)
      ensures failure.Some? ==>
        S.ScheduleStepInsts(cfg, pj, insts, S.Progress(old(world), draws, prior), t0, |insts|) == Err(failure.value)
    {
      ghost var stp := S.Progress(world, draws, prior);
      sch := prior;
      for k := 0 to |insts|
        invariant S.ScheduleStepInsts(cfg, pj, insts, stp, t0, k) == Ok(S.Progress(world, draws, sch))
        invariant table == InsertAll(base, sch)
      {
        S.ScheduleStepInstsNext(cfg, pj, insts, stp, t0, k, S.Progress(world, draws, sch));
        failure, sch := ScheduleStepInstance(pj, insts[k], t0, base, sch);
        if failure.Some? {
          return;
        }
      }
      failure := None;
    }

    /**
     * Lines 300-317 for one instance: a Step due at `t0` is performed at once
     * and asked again, with the same `t0`, for its next time, which must be
     * later than `t0`.
     */
    method ScheduleStepInstance(pj: nat, inst: Inst, t0: Time, ghost base: Table, ghost prior: seq<Scheduled>)
      returns (failure: Option<Failure>, ghost sch: seq<Scheduled>)
      requires pj < |cfg.steps| && table == InsertAll(base, prior)
      modifies this`world, this`table
      ensures failure.None? ==>
        S.StepInst(cfg, pj, inst, S.Progress(old(world), draws, prior), t0) == Ok(S.Progress(world, draws, sch)) &&
        table == InsertAll(base, sch)
      ensures failure.Some? ==>
        S.StepInst(cfg, pj, inst, S.Progress(old(world), draws, prior), t0) == Err(failure.value)
    {
      var p := cfg.steps[pj];
      var next;
      if p.nextTime(world, inst, t0) == t0 {
        world := p.handler(world, inst, t0);
        next := p.nextTime(world, inst, t0);
      } else {
        next := p.nextTime(world, inst, t0);
      }
      sch := prior;
      if next <= t0 {
        return Some(NotLater), sch;
      }
      var e := Scheduled(next, StepFiring(pj, inst));
      Register(e.time, e.firing);
      InsertAllSnoc(base, sch, e);
      sch := sch + [e];
      failure := None;
    }

    /**
     * Lines 493-552 for the discontinuity at `t`: the list due at `t` is
     * popped, and each of its firings is performed and re-registered, in order.
     */
    method FireAt(t: Time) returns (failure: Option<Failure>, due: seq<Firing>, ghost sch: seq<Scheduled>)
      requires S.TableRefers(cfg, table) && t in table
      modifies this`world, this`table, this`draws
      ensures failure.None? ==> S.TableRefers(cfg, table)
      ensures due == old(table)[t] && forall m :: 0 <= m < |due| ==> S.Refers(cfg, due[m])
      ensures failure.None? ==>
        S.FireList(cfg, sampler, S.Progress(old(world), old(draws), []), t, due, |due|) == Ok(S.Progress(world, draws, sch)) &&
        table == InsertAll(old(table) - {t}, sch) &&
        Firings(sch) == due && S.AllLater(cfg, t, sch)
      ensures failure.Some? ==>
        S.FireList(cfg, sampler, S.Progress(old(world), old(draws), []), t, due, |due|) == Err(failure.value)
    {
      due := table[t];
      table := table - {t};
      ghost var st0 := S.Progress(world, draws, []);
      ghost var base := table;
      assert S.TableRefers(cfg, base);
      failure, sch := FireDue(due, t, table);
      if failure.None? {
        S.FireListRegisters(cfg, sampler, st0, t, due, |due|);
        assert due[..|due|] == due;
        S.InsertAllRefers(cfg, base, t, sch);
      }
    }

    /** The loop at lines 502-552: the firings `due` performed in order. */
    method FireDue(due: seq<Firing>, t: Time, ghost base: Table) returns (failure: Option<Failure>, ghost sch: seq<Scheduled>)
      requires table == base
      requires forall m :: 0 <= m < |due| ==> S.Refers(cfg, due[m])
      modifies this`world, this`table, this`draws
      ensures failure.None? ==>
        S.FireList(cfg, sampler, S.Progress(old(world), old(draws), []), t, due, |due|) == Ok(S.Progress(world, draws, sch)) &&
        table == InsertAll(base, sch)
      ensures failure.Some? ==>
        S.FireList(cfg, sampler, S.Progress(old(world), old(draws), []), t, due, |due|) == Err(failure.value)
    {
      ghost var st0 := S.Progress(world, draws, []);
      sch := [];
      for k := 0 to |due|
        invariant S.FireList(cfg, sampler, st0, t, due, k) == Ok(S.Progress(world, draws, sch))
        invariant table == InsertAll(base, sch)
      {
        S.FireListNext(cfg, sampler, st0, t, due, k, S.Progress(world, draws, sch));
        failure, sch := Fire(due[k], t, base, sch);
        if failure.Some? {
          return;
        }
      }
      failure := None;
    }

    /**
     * Lines 508-552 for one firing: the process's method runs on the
     * instance, then its next time is registered; a rate draws `t` plus an
     * exponential variate, a time function or a Step must name a time after `t`.
     */
    method Fire(f: Firing, t: Time, ghost base: Table, ghost prior: seq<Scheduled>)
      returns (failure: Option<Failure>, ghost sch: seq<Scheduled>)
      requires S.Refers(cfg, f) && table == InsertAll(base, prior)
      modifies this`world, this`table, this`draws
      ensures failure.None? ==>
        S.FireOne(cfg, sampler, S.Progress(old(world), old(draws), prior), t, f) == Ok(S.Progress(world, draws, sch)) &&
        table == InsertAll(base, sch)
      ensures failure.Some? ==>
        S.FireOne(cfg, sampler, S.Progress(old(world), old(draws), prior), t, f) == Err(failure.value)
    {
      var next: Time;
      sch := prior;
      match f {
        case EventFiring(j, inst) =>
          var p := cfg.events[j];
          world := p.handler(world, inst, t);
          match p.timing {
            case RateTiming(rate) =>
              if rate <= 0.0 {
                return Some(NonPositiveRate), sch;
              }
              next := t + sampler(1.0 / rate, draws);
              draws := draws + 1;
            case TimeTiming(nextTime) =>
              next := nextTime(t);
              if next <= t {
                return Some(NotLater), sch;
              }
            case OtherTiming =>
              return Some(UnsupportedEventType), sch;
          }
        case StepFiring(j, inst) =>
          var p := cfg.steps[j];
          world := p.handler(world, inst, t);
          next := p.nextTime(world, inst, t);
          if next <= t {
            return Some(NotLater), sch;
          }
      }
      var e := Scheduled(next, f);
      Register(e.time, e.firing);
      InsertAllSnoc(base, sch, e);
      sch := sch + [e];
      failure := None;
    }

    /**
     * Lines 642-662: the runner stops when one of the termination calls
     * holds for its instance; with no calls, or `None`, it never stops.
     */
    method Terminate() returns (stop: bool)
      ensures stop <==> exists m :: 0 <= m < |Signals(cfg)| && Signals(cfg)[m].holds(world, Signals(cfg)[m].inst)
    {
      var calls := Signals(cfg);
      for m := 0 to |calls|
        invariant forall m' :: 0 <= m' < m ==> !calls[m'].holds(world, calls[m'].inst)
      {
        if calls[m].holds(world, calls[m].inst) {
          return true;
        }
      }
      return false;
    }

    /**
     * Lines 376-487: the ODE targets are laid out and the solver runs from
     * `t` to `next`, evaluating the right-hand side last at the last point it
     * reports; its time points and columns are saved, and, when there are
     * Explicit processes, each solver row is copied back into the targets,
     * the Explicit processes are applied at its time and the targets are saved.
     * The world then is the one `IntervalWorld` gives, and a failure of the
     * right-hand side or of an Explicit process is reported.
     */
    method Integrate(t: Time, next: Time, dt: real) returns (failure: Option<Failure>, ghost out: OdeOutput)
      requires cfg.Valid() && |times| >= 1
      modifies this`world, this`slices, this`times, this`series, this`currentIteration
      ensures LaidOut() && out == integrator(Pack(old(world), cfg.odeTargets), t, next, dt) && FitsRows(slices, out)
      ensures forall j :: 0 <= j < |slices| ==> slices[j].hi - slices[j].lo == |Instances(old(world), cfg.odeTargets[j].cls)|
      ensures currentIteration == old(currentIteration) + (if |out.rows| > 0 then 1 else 0)
      ensures |times| >= |old(times)| && times[..|old(times)|] == old(times)
      ensures failure.None? ==> times == old(times) + out.times
      ensures failure.None? ==> IntervalWorld(cfg, slices, old(world), out, currentIteration) == Ok(world)
      ensures failure.None? ==> IntervalSeries(cfg, slices, old(world), old(series), out, currentIteration, |times|) == Ok(series)
      ensures IntervalWorld(cfg, slices, old(world), out, currentIteration).Err? ==> failure.Some?
    {
      var initial := ComposeInitialArray();
      var solved := integrator(initial, t, next, dt);
      out := solved;
      ShapedFits(slices, solved, |initial|);
      failure := FinishInterval(solved, old(world), old(times));
    }

    /**
     * Lines 320-487 once the solver has reported `out`: the world as
     * `IntervalWorld` gives it and the series as `IntervalSeries` does.
     */
    method FinishInterval(out: OdeOutput, ghost w0: World, ghost t0: seq<Time>) returns (failure: Option<Failure>)
      requires cfg.Valid() && |slices| == |cfg.odeTargets| && FitsRows(slices, out) && |times| >= 1
      requires world == w0 && times == t0
      modifies this`world, this`times, this`series, this`currentIteration
      ensures currentIteration == old(currentIteration) + (if |out.rows| > 0 then 1 else 0)
      ensures |times| >= |t0| && times[..|t0|] == t0
      ensures failure.None? ==> times == t0 + out.times
      ensures failure.None? ==> IntervalWorld(cfg, slices, w0, out, currentIteration) == Ok(world)
      ensures failure.None? ==> IntervalSeries(cfg, slices, w0, old(series), out, currentIteration, |times|) == Ok(series)
      ensures IntervalWorld(cfg, slices, w0, out, currentIteration).Err? ==> failure.Some?
    {
      failure := SettleSolver(out);
      if failure.Some? {
        return;
      }
      failure := SaveOdeResult(out);
      assert times[..|t0|] == t0;
      if failure.Some? || |cfg.explicits| == 0 {
        return;
      }
      failure := ReplayRows(out);
    }

    /** The solver's last call of `get_rhs_array` (line 324), at the last point it reports. */
    method SettleSolver(out: OdeOutput) returns (failure: Option<Failure>)
      requires cfg.Valid() && |slices| == |cfg.odeTargets| && FitsRows(slices, out)
      modifies this`world, this`currentIteration
      ensures currentIteration == old(currentIteration) + (if |out.rows| > 0 then 1 else 0)
      ensures failure.None? ==> Settle(cfg, slices, old(world), currentIteration, out) == Ok(world)
      ensures failure.Some? ==> Settle(cfg, slices, old(world), currentIteration, out) == Err(failure.value)
    {
      if |out.rows| > 0 {
        var last := |out.rows| - 1;
        var rhs := GetRhsArray(out.times[last], out.rows[last]);
        if rhs.Err? {
          return Some(rhs.error);
        }
      }
      return None;
    }

    /**
     * Lines 476-487: each solver row is copied into the ODE targets, the
     * Explicit processes are applied at its time and the targets are saved.
     */
    method ReplayRows(out: OdeOutput) returns (failure: Option<Failure>)
      requires cfg.Valid() && |slices| == |cfg.odeTargets| && FitsRows(slices, out) && |times| >= 1
      modifies this`world, this`series
      ensures failure.None? ==> ReplayWorld(cfg, slices, old(world), out, currentIteration, |out.rows|) == Ok(world)
      ensures failure.None? ==> series == ReplaySeries(cfg, slices, old(world), old(series), out, currentIteration, |times|, |out.rows|)
      ensures failure.Some? ==> ReplayWorld(cfg, slices, old(world), out, currentIteration, |out.rows|) == Err(failure.value)
    {
      ghost var w0, s0 := world, series;
      for pos := 0 to |out.rows|
        invariant Replayed(cfg, slices, w0, s0, out, currentIteration, |times|, pos, world, series)
      {
        failure := ReplayNext(out, pos, w0, s0);
        if failure.Some? {
          return;
        }
      }
      return None;
    }

    /** Row `pos` of the replay, once the rows before it have been replayed from `w0` and `s0`. */
    method ReplayNext(out: OdeOutput, pos: nat, ghost w0: World, ghost s0: map<VarId, VarSeries<real>>) returns (failure: Option<Failure>)
      requires pos < |out.rows| && Replayed(cfg, slices, w0, s0, out, currentIteration, |times|, pos, world, series)
      modifies this`world, this`series
      ensures failure.None? ==> Replayed(cfg, slices, w0, s0, out, currentIteration, |times|, pos + 1, world, series)
      ensures failure.Some? ==> ReplayWorld(cfg, slices, w0, out, currentIteration, |out.rows|) == Err(failure.value)
    {
      ghost var cur := world;
      failure := ReplayRow(out.rows[pos], out.times[pos]);
      if failure.Some? {
        ReplayFails(cfg, slices, w0, out, currentIteration, pos, cur, failure.value);
        return;
      }
      ReplayAdvances(cfg, slices, w0, s0, out, currentIteration, |times|, pos, cur, world);
    }

    /** Lines 480-487 for one solver row reported at `time`. */
    method ReplayRow(row: seq<real>, time: Time) returns (failure: Option<Failure>)
      requires |slices| == |cfg.odeTargets| && D.Fits(slices, |row|) && |times| >= 1
      modifies this`world, this`series
      ensures failure.None? ==> ReplayRowWorld(cfg, slices, row, time, old(world), currentIteration) == Ok(world)
      ensures failure.None? ==> series == SaveAll(old(series), world, cfg.processTargets, |times|)
      ensures failure.Some? ==> ReplayRowWorld(cfg, slices, row, time, old(world), currentIteration) == Err(failure.value)
    {
      UnpackArray(row, false);
      failure := ApplyExplicits(time);
      if failure.None? {
        SaveToTraj(cfg.processTargets);
      }
    }

    /**
     * Lines 493-560 at the discontinuity `t`: the time is appended to the
     * axis, the firings due at `t` are performed and re-registered, the
     * Explicit processes are applied and every process target is saved.
     */
    method Discontinuity(t: Time) returns (failure: Option<Failure>, ghost sch: seq<Scheduled>)
      requires Valid() && |times| >= 1 && t in table && forall k :: k in table ==> t <= k
      modifies this`world, this`table, this`draws, this`times, this`series
      ensures times == old(times) + [t]
      ensures failure.None? ==> Valid() && forall k :: k in table ==> t <= k
      ensures failure.None? ==>
        && DiscontinuityEffect(cfg, sampler, old(world), old(draws), t, old(table)[t], currentIteration) == Ok(S.Progress(world, draws, sch))
        && table == InsertAll(old(table) - {t}, sch) && Firings(sch) == old(table)[t] && S.AllLater(cfg, t, sch)
        && series == SaveAll(old(series), world, cfg.processTargets, |times|)
      ensures failure.Some? ==>
        DiscontinuityEffect(cfg, sampler, old(world), old(draws), t, old(table)[t], currentIteration) == Err(failure.value)
    {
      times := times + [t];
      ghost var popped := table;
      var due;
      failure, due, sch := FireAt(t);
      if failure.Some? {
        return;
      }
      S.FiringRescheduledKeys(cfg, popped, t, sch);
      if |cfg.explicits| > 0 {
        failure := ApplyExplicits(t);
        if failure.Some? {
          return;
        }
      }
      SaveToTraj(cfg.processTargets);
    }

    /** Lines 375-487: the smooth interval from `t` to `next`, integrated only when there are ODE processes. */
    method Smooth(t: Time, next: Time, dt: real) returns (failure: Option<Failure>, ghost out: OdeOutput)
      requires cfg.Valid() && |times| >= 1
      modifies this`world, this`slices, this`times, this`series, this`currentIteration
      ensures |times| >= 1 && times[0] == old(times)[0]
      ensures |cfg.odes| == 0 ==> failure.None?
      ensures failure.None? ==>
        SmoothEnds(cfg, integrator, slices, currentIteration, t, next, dt, old(world), old(series), old(times), out, world, series, times)
    {
      out := OdeOutput([], []);
      failure := None;
      if |cfg.odes| > 0 {
        failure, out := Integrate(t, next, dt);
      }
    }

    /**
     * One round of the loop at lines 366-570, after its termination check
     * (lines 362-365), with the corrected advance: the round ends at the next
     * discontinuity, after performing what is due there, or at `t1` when none
     * is pending. `out` is what the solver reported for the smooth interval,
     * `mid` and `saved` the world and the series at its end, and `sch` the
     * re-registrations of the firings due at `t'`.
     */
    method RunRound(t: Time, t1: Time, dt: real)
      returns (failure: Option<Failure>, t': Time, ghost out: OdeOutput, ghost mid: World, ghost saved: map<VarId, VarSeries<real>>,
               ghost sch: seq<Scheduled>)
      requires Valid() && |times| >= 1 && t < t1
      requires forall k :: k in table ==> t <= k
      modifies this`world, this`slices, this`times, this`series, this`table, this`draws, this`currentIteration
      ensures cfg.Valid() && |times| >= 1 && times[0] == old(times)[0]
      ensures t <= t'
      ensures failure.None? ==> Valid() && forall k :: k in table ==> t' <= k
      ensures failure.None? && old(table) == map[] ==> t' == t1
      ensures failure.None? && old(table) != map[] ==> t' in old(table) && forall k :: k in old(table) ==> t' <= k
      ensures failure.None? ==>
        SmoothEnds(cfg, integrator, slices, currentIteration, t, t', dt, old(world), old(series), old(times), out, mid, saved,
                   old(times) + out.times)
      ensures failure.None? && old(table) == map[] ==>
        times == old(times) + out.times && table == map[] && world == mid && series == saved
      ensures failure.None? && old(table) != map[] ==>
        && times == old(times) + out.times + [t']
        && series == SaveAll(saved, world, cfg.processTargets, |times|)
        && DiscontinuityEffect(cfg, sampler, mid, old(draws), t', old(table)[t'], currentIteration) == Ok(S.Progress(world, draws, sch))
        && table == InsertAll(old(table) - {t'}, sch) && Firings(sch) == old(table)[t'] && S.AllLater(cfg, t', sch)
    {
      t' := t;
      out := OdeOutput([], []);
      mid := world;
      saved := series;
      sch := [];
      var next := NextTime(table, t1);
      failure, out := Smooth(t, next, dt);
      mid := world;
      saved := series;
      if failure.None? {
        t' := next;
        if table.Keys != {} {
          failure, sch := Discontinuity(t');
        }
      }
    }

    /**
     * Lines 192-578: the initial state is saved and completed by the
     * Explicit processes, Events and Steps are scheduled, and rounds run
     * until `t1` is reached, a termination call holds, or a process fails.
     * `fuel` bounds the number of rounds.
     */
    method Run(t0: Time, t1: Time, dt: real, fuel: nat) returns (outcome: RunOutcome, t: Time, rounds: nat)
      requires cfg.Valid()
      modifies this`world, this`slices, this`times, this`series, this`table, this`draws, this`currentIteration
      ensures cfg.Valid() && |times| >= 1 && times[0] == t0 && t0 <= t && rounds <= fuel
      ensures outcome.Finished? ==> t1 <= t
      ensures outcome.Terminated? ==>
        t < t1 && exists m :: 0 <= m < |Signals(cfg)| && Signals(cfg)[m].holds(world, Signals(cfg)[m].inst)
      ensures outcome.OutOfFuel? ==>
        t < t1 && rounds == fuel && !exists m :: 0 <= m < |Signals(cfg)| && Signals(cfg)[m].holds(world, Signals(cfg)[m].inst)
      ensures !outcome.Failed? ==> Valid() && forall k :: k in table ==> t <= k
    {
      t := t0;
      ghost var events, steps;
      var failure;
      failure, events, steps := Start(t0);
      if failure.Some? {
        return Failed(failure.value), t, 0;
      }
      rounds := 0;
      while t < t1
        invariant Valid() && |times| >= 1 && times[0] == t0 && t0 <= t
        invariant forall k :: k in table ==> t <= k
        invariant rounds <= fuel
        decreases fuel - rounds
      {
        var stop := Terminate();
        if stop {
          return Terminated, t, rounds;
        }
        if rounds == fuel {
          return OutOfFuel, t, rounds;
        }
        rounds := rounds + 1;
        ghost var out, mid, saved, sch;
        failure, t, out, mid, saved, sch := RunRound(t, t1, dt);
        if failure.Some? {
          return Failed(failure.value), t, rounds;
        }
      }
      return Finished, t, rounds;
    }

    /**
     * Lines 192-319: the trajectory starts at `t0` with the initial values,
     * the Explicit processes complete the state, and every Event and Step is
     * scheduled at a time not before `t0`: the table holds exactly the Event
     * registrations `events`, then the Step registrations `steps`.
     */
    method Start(t0: Time) returns (failure: Option<Failure>, ghost events: seq<Scheduled>, ghost steps: seq<Scheduled>)
      requires cfg.Valid()
      modifies this`world, this`slices, this`times, this`series, this`table, this`draws
      ensures cfg.Valid() && times == [t0] && series == SaveAll(map[], old(world), cfg.processTargets, 1)
      ensures failure.None? ==> Valid() && forall k :: k in table ==> t0 <= k
      ensures failure.None? ==>
        && D.ApplyExplicits(cfg.explicits, old(world), t0, currentIteration, |cfg.explicits|).Ok?
        && table == InsertAll(InsertAll(map[], events), steps)
        && Firings(events) == S.EventPairs(cfg, D.ApplyExplicits(cfg.explicits, old(world), t0, currentIteration, |cfg.explicits|).value, |cfg.events|)
        && Firings(steps) == S.StepPairs(cfg, D.ApplyExplicits(cfg.explicits, old(world), t0, currentIteration, |cfg.explicits|).value, t0, |cfg.steps|)
        && world == S.StepWorld(cfg, D.ApplyExplicits(cfg.explicits, old(world), t0, currentIteration, |cfg.explicits|).value, t0, |cfg.steps|)
        && S.AllLater(cfg, t0, events) && S.AllLater(cfg, t0, steps)
    {
      times := [t0];
      series := map[];
      SaveToTraj(cfg.processTargets);
      table := map[];
      events, steps := [], [];
      failure := ApplyExplicits(t0);
      if failure.Some? {
        return;
      }
      failure, events, steps := ScheduleInitial(t0);
    }

    /**
     * Lines 255-318: all Events, then all Steps, into an empty table. The
     * table holds exactly the Event registrations `events`, one per (Event,
     * instance) pair, followed by the Step registrations `steps`, one per
     * (Step, instance) pair, none of them before `t0`.
     */
    method ScheduleInitial(t0: Time) returns (failure: Option<Failure>, ghost events: seq<Scheduled>, ghost steps: seq<Scheduled>)
      requires table == map[]
      modifies this`world, this`table, this`draws
      ensures failure.None? ==>
        && table == InsertAll(InsertAll(map[], events), steps)
        && Firings(events) == S.EventPairs(cfg, old(world), |cfg.events|)
        && Firings(steps) == S.StepPairs(cfg, old(world), t0, |cfg.steps|)
        && world == S.StepWorld(cfg, old(world), t0, |cfg.steps|)
        && S.AllLater(cfg, t0, events) && S.AllLater(cfg, t0, steps)
        && S.TableRefers(cfg, table) && forall k :: k in table ==> t0 <= k
    {
      ghost var d0, w0 := draws, world;
      failure, events := ScheduleEvents(t0);
      steps := [];
      if failure.Some? {
        return;
      }
      S.ScheduleEventsRegisters(cfg, S.Progress(w0, d0, []), t0, sampler, |cfg.events|);
      assert Firings([]) == [];
      assert Firings(events) == S.EventPairs(cfg, w0, |cfg.events|) && S.AllLater(cfg, t0, events);
      ghost var d1 := draws;
      failure, steps := ScheduleSteps(t0);
      if failure.Some? {
        return;
      }
      S.ScheduleStepsRegisters(cfg, S.Progress(w0, d1, []), t0, |cfg.steps|);
      assert Firings(steps) == S.StepPairs(cfg, w0, t0, |cfg.steps|) && S.AllLater(cfg, t0, steps);
      S.InitialTable(cfg, t0, events, steps);
    }
  }
}
