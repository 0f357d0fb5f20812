/**
 * Scheduling Events and Steps (runner.py, lines 255-318) and firing the
 * discontinuities due at one time (lines 493-552), as functions of the world,
 * the number of random draws taken so far and the registrations made.
 */
module Scheduling {
  import opened Wrappers
  import opened Entities
  import opened Discontinuities

  /** `np.random.exponential(scale)` as an oracle: the k-th draw for a scale, never negative. */
  type Sampler = f: (real, nat) -> real | forall scale, k :: f(scale, k) >= 0.0
    witness (scale: real, k: nat) => 0.0

  /** The world, the number of random draws so far, and the registrations made so far. */
  datatype Progress = Progress(world: World, draws: nat, scheduled: seq<Scheduled>)

  /** The firing names an existing Event or Step process. */
  predicate Refers(cfg: Config, f: Firing)
  {
    match f
    case EventFiring(j, _) => j < |cfg.events|
    case StepFiring(j, _) => j < |cfg.steps|
  }

  /** Every registered firing names an existing Event or Step. */
  ghost predicate TableRefers(cfg: Config, table: Table)
  {
    forall k, m :: k in table && 0 <= m < |table[k]| ==> Refers(cfg, table[k][m])
  }

  lemma InsertRefers(cfg: Config, table: Table, k: Time, f: Firing)
    requires TableRefers(cfg, table) && Refers(cfg, f)
    ensures TableRefers(cfg, Insert(table, k, f))
  {
    var r := Insert(table, k, f);
    forall k', m | k' in r && 0 <= m < |r[k']| ensures Refers(cfg, r[k'][m]) {
      assert r[k'] == Entries(r, k');
      if k' == k {
        assert Entries(r, k) == Entries(table, k) + [f];
      } else {
        InsertElsewhere(table, k, f, k');
      }
    }
  }

  /** Registering firings made at `t` keeps every firing in the table naming an existing process. */
  lemma {:induction false} InsertAllRefers(cfg: Config, table: Table, t: Time, es: seq<Scheduled>)
    requires TableRefers(cfg, table) && AllLater(cfg, t, es)
    ensures TableRefers(cfg, InsertAll(table, es))
    decreases |es|
  {
    if |es| > 0 {
      var n := |es|;
      InsertAllRefers(cfg, table, t, es[..n - 1]);
      InsertRefers(cfg, InsertAll(table, es[..n - 1]), es[n - 1].time, es[n - 1].firing);
    }
  }

  /** Two batches registered at `t0` into an empty table leave only keys not before `t0`, each naming existing processes. */
  lemma InitialTable(cfg: Config, t0: Time, events: seq<Scheduled>, steps: seq<Scheduled>)
    requires AllLater(cfg, t0, events) && AllLater(cfg, t0, steps)
    ensures var table := InsertAll(InsertAll(map[], events), steps);
      TableRefers(cfg, table) && forall k :: k in table ==> t0 <= k
  {
    RegisteredNotEarlier(cfg, map[], t0, events);
    InsertAllRefers(cfg, map[], t0, events);
    RegisteredNotEarlier(cfg, InsertAll(map[], events), t0, steps);
    InsertAllRefers(cfg, InsertAll(map[], events), t0, steps);
  }

  /** The initial table holds at each time the Events registered for it, then the Steps, in registration order. */
  lemma InitialEntries(events: seq<Scheduled>, steps: seq<Scheduled>, k: Time)
    ensures Entries(InsertAll(InsertAll(map[], events), steps), k) == At(events, k) + At(steps, k)
  {
    InsertAllEntries(map[], events, k);
    InsertAllEntries(InsertAll(map[], events), steps, k);
    assert Entries(map[], k) == [];
  }

  /** A rate-based Event firing. */
  predicate RateBased(cfg: Config, f: Firing)
    requires Refers(cfg, f)
  {
    f.EventFiring? && cfg.events[f.process].timing.RateTiming?
  }

  /**
   * A registration made at time `t` is strictly later than `t`, except that
   * a rate-based Event (whose draw carries no assertion) is only not earlier.
   */
  predicate Later(cfg: Config, t: Time, e: Scheduled)
  {
    Refers(cfg, e.firing) && (if RateBased(cfg, e.firing) then e.time >= t else e.time > t)
  }

  /**
   * Lines 264-279 and 519-527: an Event's next occurrence after `t`. A rate
   * draws `t + exponential(1/rate)`; a time function is asked for `next(t)`.
   */
  function EventTime(timing: EventTiming, t: Time, sampler: Sampler, draws: nat): (r: Result<(Time, nat), Failure>)
    ensures r.Err? <==>
      (timing.RateTiming? && timing.rate <= 0.0) || (timing.TimeTiming? && timing.next(t) <= t) || timing.OtherTiming?
    ensures r.Ok? && timing.RateTiming? ==> r.value.0 >= t && r.value.1 == draws + 1
    ensures r.Ok? && timing.TimeTiming? ==> r.value.0 > t && r.value.1 == draws
  {
    match timing
    case RateTiming(rate) =>
      if rate > 0.0 then Ok((t + sampler(1.0 / rate, draws), draws + 1)) else Err(NonPositiveRate)
    case TimeTiming(next) =>
      if next(t) > t then Ok((next(t), draws)) else Err(NotLater)
    case OtherTiming => Err(UnsupportedEventType)
  }

  /** Lines 262-283: the first `k` instances of Event `pj` get their first occurrence. */
  function ScheduleEventInsts(cfg: Config, pj: nat, insts: seq<Inst>, st: Progress, t: Time, sampler: Sampler, k: nat): Result<Progress, Failure>
    requires pj < |cfg.events| && k <= |insts|
  {
    if k == 0 then Ok(st)
    else
      match ScheduleEventInsts(cfg, pj, insts, st, t, sampler, k - 1)
      case Err(e) => Err(e)
      case Ok(cur) => EventInst(cfg, pj, insts[k - 1], cur, t, sampler)
  }

  /** Lines 263-283 for one instance of Event `pj`. */
  function EventInst(cfg: Config, pj: nat, inst: Inst, cur: Progress, t: Time, sampler: Sampler): Result<Progress, Failure>
    requires pj < |cfg.events|
  {
    match EventTime(cfg.events[pj].timing, t, sampler, cur.draws)
    case Err(e) => Err(e)
    case Ok(next) => Ok(Progress(cur.world, next.1, cur.scheduled + [Scheduled(next.0, EventFiring(pj, inst))]))
  }

  /** Lines 257-284: the first `j` Event processes, each over the instances of its owning class. */
  function ScheduleEvents(cfg: Config, st: Progress, t: Time, sampler: Sampler, j: nat): Result<Progress, Failure>
    requires j <= |cfg.events|
  {
    if j == 0 then Ok(st)
    else
      match ScheduleEvents(cfg, st, t, sampler, j - 1)
      case Err(e) => Err(e)
      case Ok(cur) =>
        var insts := Instances(cur.world, cfg.events[j - 1].owner);
        ScheduleEventInsts(cfg, j - 1, insts, cur, t, sampler, |insts|)
  }

  /**
   * Lines 300-310 for one instance of a Step: when `next_time_func(inst, t0)`
   * is `t0` the step fires at once and the function is asked again, with the
   * same `t0`, in the changed world; otherwise its answer is used as it is.
   */
  function StepFirst(p: StepProcess, w: World, inst: Inst, t0: Time): (World, Time)
  {
    if p.nextTime(w, inst, t0) == t0 then
      var w' := p.handler(w, inst, t0);
      (w', p.nextTime(w', inst, t0))
    else (w, p.nextTime(w, inst, t0))
  }

  /** Lines 293-317: the first `k` instances of Step `pj`. */
  function ScheduleStepInsts(cfg: Config, pj: nat, insts: seq<Inst>, st: Progress, t0: Time, k: nat): Result<Progress, Failure>
    requires pj < |cfg.steps| && k <= |insts|
  {
    if k == 0 then Ok(st)
    else
      match ScheduleStepInsts(cfg, pj, insts, st, t0, k - 1)
      case Err(e) => Err(e)
      case Ok(cur) => StepInst(cfg, pj, insts[k - 1], cur, t0)
  }

  /** Lines 300-317 for one instance of Step `pj`. */
  function StepInst(cfg: Config, pj: nat, inst: Inst, cur: Progress, t0: Time): Result<Progress, Failure>
    requires pj < |cfg.steps|
  {
    var first := StepFirst(cfg.steps[pj], cur.world, inst, t0);
    if first.1 > t0 then
      Ok(Progress(first.0, cur.draws, cur.scheduled + [Scheduled(first.1, StepFiring(pj, inst))]))
    else Err(NotLater)
  }

  /** Lines 289-318: the first `j` Step processes, each over its owning class's instances at that point. */
  function ScheduleSteps(cfg: Config, st: Progress, t0: Time, j: nat): Result<Progress, Failure>
    requires j <= |cfg.steps|
  {
    if j == 0 then Ok(st)
    else
      match ScheduleSteps(cfg, st, t0, j - 1)
      case Err(e) => Err(e)
      case Ok(cur) =>
        var insts := Instances(cur.world, cfg.steps[j - 1].owner);
        ScheduleStepInsts(cfg, j - 1, insts, cur, t0, |insts|)
  }

  /** One firing per instance of `insts`, in order. */
  function EventFirings(pj: nat, insts: seq<Inst>): (r: seq<Firing>)
    ensures |r| == |insts| && forall m :: 0 <= m < |insts| ==> r[m] == EventFiring(pj, insts[m])
  {
    seq(|insts|, m requires 0 <= m < |insts| => EventFiring(pj, insts[m]))
  }

  function StepFirings(pj: nat, insts: seq<Inst>): (r: seq<Firing>)
    ensures |r| == |insts| && forall m :: 0 <= m < |insts| ==> r[m] == StepFiring(pj, insts[m])
  {
    seq(|insts|, m requires 0 <= m < |insts| => StepFiring(pj, insts[m]))
  }

  /** Every (Event, instance of its owning class) pair for the first `j` Events, in scheduling order. */
  function EventPairs(cfg: Config, w: World, j: nat): seq<Firing>
    requires j <= |cfg.events|
  {
    if j == 0 then [] else EventPairs(cfg, w, j - 1) + EventFirings(j - 1, Instances(w, cfg.events[j - 1].owner))
  }

  /** Lines 300-310 on the world alone: the first `k` instances of a Step performed at `t0` when due then. */
  function StepInstsWorld(p: StepProcess, insts: seq<Inst>, w: World, t0: Time, k: nat): World
    requires k <= |insts|
  {
    if k == 0 then w else StepFirst(p, StepInstsWorld(p, insts, w, t0, k - 1), insts[k - 1], t0).0
  }

  /** The world once the first `j` Steps are scheduled: the one in which Step `j` reads its class. */
  function StepWorld(cfg: Config, w: World, t0: Time, j: nat): World
    requires j <= |cfg.steps|
  {
    if j == 0 then w
    else
      var before := StepWorld(cfg, w, t0, j - 1);
      var insts := Instances(before, cfg.steps[j - 1].owner);
      StepInstsWorld(cfg.steps[j - 1], insts, before, t0, |insts|)
  }

  /** Every (Step, instance of its owning class) pair for the first `j` Steps, in scheduling order. */
  function StepPairs(cfg: Config, w: World, t0: Time, j: nat): seq<Firing>
    requires j <= |cfg.steps|
  {
    if j == 0 then []
    else StepPairs(cfg, w, t0, j - 1) + StepFirings(j - 1, Instances(StepWorld(cfg, w, t0, j - 1), cfg.steps[j - 1].owner))
  }

  ghost predicate AllLater(cfg: Config, t: Time, es: seq<Scheduled>)
  {
    forall m :: 0 <= m < |es| ==> Later(cfg, t, es[m])
  }

  lemma {:induction false} ScheduleEventInstsRegisters(cfg: Config, pj: nat, insts: seq<Inst>, st: Progress, t: Time, sampler: Sampler, k: nat)
    requires pj < |cfg.events| && k <= |insts|
    requires AllLater(cfg, t, st.scheduled)
    ensures ScheduleEventInsts(cfg, pj, insts, st, t, sampler, k).Ok? ==>
      var r := ScheduleEventInsts(cfg, pj, insts, st, t, sampler, k).value;
      && r.world == st.world
      && Firings(r.scheduled) == Firings(st.scheduled) + EventFirings(pj, insts[..k])
      && AllLater(cfg, t, r.scheduled)
    decreases k
  {
    if k > 0 {
      ScheduleEventInstsRegisters(cfg, pj, insts, st, t, sampler, k - 1);
      assert EventFirings(pj, insts[..k]) == EventFirings(pj, insts[..k - 1]) + [EventFiring(pj, insts[k - 1])];
    }
  }

  /**
   * Scheduling the Events changes no instance and registers every (Event,
   * instance of its owning class) pair exactly once, in declaration and
   * instance order; rate-based ones no earlier than `t`, time-based ones
   * strictly after `t`.
   */
  lemma {:induction false} ScheduleEventsRegisters(cfg: Config, st: Progress, t: Time, sampler: Sampler, j: nat)
    requires j <= |cfg.events|
    requires AllLater(cfg, t, st.scheduled)
    ensures ScheduleEvents(cfg, st, t, sampler, j).Ok? ==>
      var r := ScheduleEvents(cfg, st, t, sampler, j).value;
      && r.world == st.world
      && Firings(r.scheduled) == Firings(st.scheduled) + EventPairs(cfg, st.world, j)
      && AllLater(cfg, t, r.scheduled)
    decreases j
  {
    if j > 0 {
      ScheduleEventsRegisters(cfg, st, t, sampler, j - 1);
      match ScheduleEvents(cfg, st, t, sampler, j - 1)
      case Err(_) =>
      case Ok(cur) =>
        var insts := Instances(cur.world, cfg.events[j - 1].owner);
        ScheduleEventInstsRegisters(cfg, j - 1, insts, cur, t, sampler, |insts|);
        assert insts[..|insts|] == insts;
        assert Firings(st.scheduled) + EventPairs(cfg, st.world, j)
            == Firings(st.scheduled) + EventPairs(cfg, st.world, j - 1) + EventFirings(j - 1, insts);
    }
  }

  /**
   * Scheduling the first `k` instances of a Step registers each of them
   * exactly once, in order, strictly after `t0`.
   */
  lemma {:induction false} ScheduleStepInstsRegisters(cfg: Config, pj: nat, insts: seq<Inst>, st: Progress, t0: Time, k: nat)
    requires pj < |cfg.steps| && k <= |insts|
    requires AllLater(cfg, t0, st.scheduled)
    ensures ScheduleStepInsts(cfg, pj, insts, st, t0, k).Ok? ==>
      var r := ScheduleStepInsts(cfg, pj, insts, st, t0, k).value;
      && r.world == StepInstsWorld(cfg.steps[pj], insts, st.world, t0, k)
      && r.draws == st.draws
      && Firings(r.scheduled) == Firings(st.scheduled) + StepFirings(pj, insts[..k])
      && AllLater(cfg, t0, r.scheduled)
    decreases k
  {
    if k > 0 {
      ScheduleStepInstsRegisters(cfg, pj, insts, st, t0, k - 1);
      assert StepFirings(pj, insts[..k]) == StepFirings(pj, insts[..k - 1]) + [StepFiring(pj, insts[k - 1])];
    }
  }

  /**
   * Scheduling the Steps registers every (Step, instance of its owning class)
   * pair exactly once, in declaration and instance order, strictly after
   * `t0`; each class is read in the world the earlier Steps left, and only
   * the Steps due at `t0` change the world.
   */
  lemma {:induction false} ScheduleStepsRegisters(cfg: Config, st: Progress, t0: Time, j: nat)
    requires j <= |cfg.steps|
    requires AllLater(cfg, t0, st.scheduled)
    ensures ScheduleSteps(cfg, st, t0, j).Ok? ==>
      var r := ScheduleSteps(cfg, st, t0, j).value;
      && r.world == StepWorld(cfg, st.world, t0, j)
      && r.draws == st.draws
      && Firings(r.scheduled) == Firings(st.scheduled) + StepPairs(cfg, st.world, t0, j)
      && AllLater(cfg, t0, r.scheduled)
    decreases j
  {
    if j > 0 {
      ScheduleStepsRegisters(cfg, st, t0, j - 1);
      match ScheduleSteps(cfg, st, t0, j - 1)
      case Err(_) =>
      case Ok(cur) => ScheduleStepRegisters(cfg, st, t0, j, cur);
    }
  }

  /** Step `j - 1` scheduled after the Steps before it, which registered their pairs from `st`. */
  lemma ScheduleStepRegisters(cfg: Config, st: Progress, t0: Time, j: nat, cur: Progress)
    requires 0 < j <= |cfg.steps|
    requires ScheduleSteps(cfg, st, t0, j - 1) == Ok(cur)
    requires cur.world == StepWorld(cfg, st.world, t0, j - 1) && cur.draws == st.draws
    requires Firings(cur.scheduled) == Firings(st.scheduled) + StepPairs(cfg, st.world, t0, j - 1)
    requires AllLater(cfg, t0, cur.scheduled)
    ensures ScheduleSteps(cfg, st, t0, j).Ok? ==>
      var r := ScheduleSteps(cfg, st, t0, j).value;
      && r.world == StepWorld(cfg, st.world, t0, j)
      && r.draws == st.draws
      && Firings(r.scheduled) == Firings(st.scheduled) + StepPairs(cfg, st.world, t0, j)
      && AllLater(cfg, t0, r.scheduled)
  {
    var insts := Instances(cur.world, cfg.steps[j - 1].owner);
    ScheduleStepInstsRegisters(cfg, j - 1, insts, cur, t0, |insts|);
    assert insts[..|insts|] == insts;
    assert Firings(st.scheduled) + StepPairs(cfg, st.world, t0, j)
        == Firings(st.scheduled) + StepPairs(cfg, st.world, t0, j - 1) + StepFirings(j - 1, insts);
  }

  /**
   * Lines 508-552 for one firing at `t`: the handler runs on the instance,
   * then the next occurrence is computed and registered.
   */
  function FireOne(cfg: Config, sampler: Sampler, st: Progress, t: Time, f: Firing): Result<Progress, Failure>
    requires Refers(cfg, f)
  {
    match f
    case EventFiring(j, inst) =>
      var p := cfg.events[j];
      var w := p.handler(st.world, inst, t);
      (match EventTime(p.timing, t, sampler, st.draws)
       case Err(e) => Err(e)
       case Ok(next) => Ok(Progress(w, next.1, st.scheduled + [Scheduled(next.0, f)])))
    case StepFiring(j, inst) =>
      var p := cfg.steps[j];
      var w := p.handler(st.world, inst, t);
      var next := p.nextTime(w, inst, t);
      if next > t then Ok(Progress(w, st.draws, st.scheduled + [Scheduled(next, f)])) else Err(NotLater)
  }

  /** Line 506: the first `k` firings of the popped list, in list order. */
  function FireList(cfg: Config, sampler: Sampler, st: Progress, t: Time, fs: seq<Firing>, k: nat): Result<Progress, Failure>
    requires k <= |fs|
    requires forall m :: 0 <= m < |fs| ==> Refers(cfg, fs[m])
  {
    if k == 0 then Ok(st)
    else
      match FireList(cfg, sampler, st, t, fs, k - 1)
      case Err(e) => Err(e)
      case Ok(cur) => FireOne(cfg, sampler, cur, t, fs[k - 1])
  }

  /**
   * Firing the first `k` due firings re-registers each of them exactly once,
   * in list order, at a time allowed by `Later`.
   */
  lemma {:induction false} FireListRegisters(cfg: Config, sampler: Sampler, st: Progress, t: Time, fs: seq<Firing>, k: nat)
    requires k <= |fs|
    requires forall m :: 0 <= m < |fs| ==> Refers(cfg, fs[m])
    requires AllLater(cfg, t, st.scheduled)
    ensures FireList(cfg, sampler, st, t, fs, k).Ok? ==>
      var r := FireList(cfg, sampler, st, t, fs, k).value;
      Firings(r.scheduled) == Firings(st.scheduled) + fs[..k] && AllLater(cfg, t, r.scheduled)
    decreases k
  {
    if k > 0 {
      FireListRegisters(cfg, sampler, st, t, fs, k - 1);
      assert fs[..k] == fs[..k - 1] + [fs[k - 1]];
    }
  }

  /**
   * Popping the minimum key `t` and registering the re-scheduled firings
   * `es`: every other key keeps its list and gains only the firings of `es`
   * for it, in order, and key `t` holds only the firings of `es` for `t`.
   */
  lemma FiringRescheduledEntries(table: Table, t: Time, es: seq<Scheduled>, k: Time)
    ensures k != t ==> Entries(InsertAll(table - {t}, es), k) == Entries(table, k) + At(es, k)
    ensures Entries(InsertAll(table - {t}, es), t) == At(es, t)
  {
    InsertAllEntries(table - {t}, es, k);
    InsertAllEntries(table - {t}, es, t);
    assert Entries(table - {t}, t) == [];
    assert k != t ==> Entries(table - {t}, k) == Entries(table, k);
  }

  /** Registrations allowed by `Later` bring no key before `t`. */
  lemma RegisteredNotEarlier(cfg: Config, table: Table, t: Time, es: seq<Scheduled>)
    requires forall k' :: k' in table ==> t <= k'
    requires AllLater(cfg, t, es)
    ensures forall k' :: k' in InsertAll(table, es) ==> t <= k'
  {
    InsertAllKeys(table, es);
    forall k' | k' in Times(es) ensures t <= k' {
      var e :| e in es && e.time == k';
      var m :| 0 <= m < |es| && es[m] == e;
      assert Later(cfg, t, es[m]);
    }
  }

  /**
   * When `t` is the minimum key, no key lies before `t` after the
   * re-registrations, and only rate-based firings are registered at `t` itself.
   */
  lemma FiringRescheduledKeys(cfg: Config, table: Table, t: Time, es: seq<Scheduled>)
    requires forall k' :: k' in table ==> t <= k'
    requires AllLater(cfg, t, es)
    ensures forall k' :: k' in InsertAll(table - {t}, es) ==> k' >= t
    ensures forall m :: 0 <= m < |es| && es[m].time == t ==> RateBased(cfg, es[m].firing)
  {
    RegisteredNotEarlier(cfg, table - {t}, t, es);
  }

  // ----- a failure is final: the later steps pass it on unchanged -----

  lemma {:induction false} ScheduleEventInstsStaysFailed(cfg: Config, pj: nat, insts: seq<Inst>, st: Progress, t: Time, sampler: Sampler, k: nat, n: nat)
    requires pj < |cfg.events| && k <= n <= |insts|
    requires ScheduleEventInsts(cfg, pj, insts, st, t, sampler, k).Err?
    ensures ScheduleEventInsts(cfg, pj, insts, st, t, sampler, n) == ScheduleEventInsts(cfg, pj, insts, st, t, sampler, k)
    decreases n
  {
    if n > k {
      ScheduleEventInstsStaysFailed(cfg, pj, insts, st, t, sampler, k, n - 1);
    }
  }

  lemma {:induction false} ScheduleEventsStaysFailed(cfg: Config, st: Progress, t: Time, sampler: Sampler, j: nat, n: nat)
    requires j <= n <= |cfg.events| && ScheduleEvents(cfg, st, t, sampler, j).Err?
    ensures ScheduleEvents(cfg, st, t, sampler, n) == ScheduleEvents(cfg, st, t, sampler, j)
    decreases n
  {
    if n > j {
      ScheduleEventsStaysFailed(cfg, st, t, sampler, j, n - 1);
    }
  }

  lemma {:induction false} ScheduleStepInstsStaysFailed(cfg: Config, pj: nat, insts: seq<Inst>, st: Progress, t0: Time, k: nat, n: nat)
    requires pj < |cfg.steps| && k <= n <= |insts|
    requires ScheduleStepInsts(cfg, pj, insts, st, t0, k).Err?
    ensures ScheduleStepInsts(cfg, pj, insts, st, t0, n) == ScheduleStepInsts(cfg, pj, insts, st, t0, k)
    decreases n
  {
    if n > k {
      ScheduleStepInstsStaysFailed(cfg, pj, insts, st, t0, k, n - 1);
    }
  }

  lemma {:induction false} ScheduleStepsStaysFailed(cfg: Config, st: Progress, t0: Time, j: nat, n: nat)
    requires j <= n <= |cfg.steps| && ScheduleSteps(cfg, st, t0, j).Err?
    ensures ScheduleSteps(cfg, st, t0, n) == ScheduleSteps(cfg, st, t0, j)
    decreases n
  {
    if n > j {
      ScheduleStepsStaysFailed(cfg, st, t0, j, n - 1);
    }
  }

  lemma {:induction false} FireListStaysFailed(cfg: Config, sampler: Sampler, st: Progress, t: Time, fs: seq<Firing>, k: nat, n: nat)
    requires k <= n <= |fs|
    requires forall m :: 0 <= m < |fs| ==> Refers(cfg, fs[m])
    requires FireList(cfg, sampler, st, t, fs, k).Err?
    ensures FireList(cfg, sampler, st, t, fs, n) == FireList(cfg, sampler, st, t, fs, k)
    decreases n
  {
    if n > k {
      FireListStaysFailed(cfg, sampler, st, t, fs, k, n - 1);
    }
  }

  // ----- one more step of each loop, and where its failure ends up -----

  lemma ScheduleEventInstsNext(cfg: Config, pj: nat, insts: seq<Inst>, st: Progress, t: Time, sampler: Sampler, k: nat, cur: Progress)
    requires pj < |cfg.events| && k < |insts|
    requires ScheduleEventInsts(cfg, pj, insts, st, t, sampler, k) == Ok(cur)
    ensures var r := EventInst(cfg, pj, insts[k], cur, t, sampler);
      && ScheduleEventInsts(cfg, pj, insts, st, t, sampler, k + 1) == r
      && (r.Err? ==> ScheduleEventInsts(cfg, pj, insts, st, t, sampler, |insts|) == r)
  {
    if EventInst(cfg, pj, insts[k], cur, t, sampler).Err? {
      ScheduleEventInstsStaysFailed(cfg, pj, insts, st, t, sampler, k + 1, |insts|);
    }
  }

  /** Event `j` scheduled successfully after the Events before it extends the scheduling by one Event. */
  lemma ScheduleEventsAdvances(cfg: Config, st: Progress, t: Time, sampler: Sampler, j: nat, cur: Progress, next: Progress)
    requires j < |cfg.events|
    requires ScheduleEvents(cfg, st, t, sampler, j) == Ok(cur)
    requires ScheduleEventInsts(cfg, j, Instances(cur.world, cfg.events[j].owner), cur, t, sampler,
                                |Instances(cur.world, cfg.events[j].owner)|) == Ok(next)
    ensures ScheduleEvents(cfg, st, t, sampler, j + 1) == Ok(next)
  {
  }

  /** An Event whose scheduling fails makes the whole Event scheduling fail with its failure. */
  lemma ScheduleEventsFails(cfg: Config, st: Progress, t: Time, sampler: Sampler, j: nat, cur: Progress, e: Failure)
    requires j < |cfg.events|
    requires ScheduleEvents(cfg, st, t, sampler, j) == Ok(cur)
    requires ScheduleEventInsts(cfg, j, Instances(cur.world, cfg.events[j].owner), cur, t, sampler,
                                |Instances(cur.world, cfg.events[j].owner)|) == Err(e)
    ensures ScheduleEvents(cfg, st, t, sampler, |cfg.events|) == Err(e)
  {
    ScheduleEventsStaysFailed(cfg, st, t, sampler, j + 1, |cfg.events|);
  }

  lemma ScheduleStepInstsNext(cfg: Config, pj: nat, insts: seq<Inst>, st: Progress, t0: Time, k: nat, cur: Progress)
    requires pj < |cfg.steps| && k < |insts|
    requires ScheduleStepInsts(cfg, pj, insts, st, t0, k) == Ok(cur)
    ensures var r := StepInst(cfg, pj, insts[k], cur, t0);
      && ScheduleStepInsts(cfg, pj, insts, st, t0, k + 1) == r
      && (r.Err? ==> ScheduleStepInsts(cfg, pj, insts, st, t0, |insts|) == r)
  {
    if StepInst(cfg, pj, insts[k], cur, t0).Err? {
      ScheduleStepInstsStaysFailed(cfg, pj, insts, st, t0, k + 1, |insts|);
    }
  }

  /** Step `j` scheduled successfully after the Steps before it extends the scheduling by one Step. */
  lemma ScheduleStepsAdvances(cfg: Config, st: Progress, t0: Time, j: nat, cur: Progress, next: Progress)
    requires j < |cfg.steps|
    requires ScheduleSteps(cfg, st, t0, j) == Ok(cur)
    requires ScheduleStepInsts(cfg, j, Instances(cur.world, cfg.steps[j].owner), cur, t0, |Instances(cur.world, cfg.steps[j].owner)|)
          == Ok(next)
    ensures ScheduleSteps(cfg, st, t0, j + 1) == Ok(next)
  {
  }

  /** A Step whose scheduling fails makes the whole Step scheduling fail with its failure. */
  lemma ScheduleStepsFails(cfg: Config, st: Progress, t0: Time, j: nat, cur: Progress, e: Failure)
    requires j < |cfg.steps|
    requires ScheduleSteps(cfg, st, t0, j) == Ok(cur)
    requires ScheduleStepInsts(cfg, j, Instances(cur.world, cfg.steps[j].owner), cur, t0, |Instances(cur.world, cfg.steps[j].owner)|)
          == Err(e)
    ensures ScheduleSteps(cfg, st, t0, |cfg.steps|) == Err(e)
  {
    ScheduleStepsStaysFailed(cfg, st, t0, j + 1, |cfg.steps|);
  }

  lemma FireListNext(cfg: Config, sampler: Sampler, st: Progress, t: Time, fs: seq<Firing>, k: nat, cur: Progress)
    requires k < |fs|
    requires forall m :: 0 <= m < |fs| ==> Refers(cfg, fs[m])
    requires FireList(cfg, sampler, st, t, fs, k) == Ok(cur)
    ensures var r := FireOne(cfg, sampler, cur, t, fs[k]);
      && FireList(cfg, sampler, st, t, fs, k + 1) == r
      && (r.Err? ==> FireList(cfg, sampler, st, t, fs, |fs|) == r)
  {
    if FireOne(cfg, sampler, cur, t, fs[k]).Err? {
      FireListStaysFailed(cfg, sampler, st, t, fs, k + 1, |fs|);
    }
  }
}
