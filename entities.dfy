/**
 * The slice of the model layer that the runner sees: instances grouped by
 * owning class, per-instance variable values, per-instance derivative
 * accumulators, targets and the four process kinds.
 *
 * The attribute-storage system of the original is replaced by plain maps
 * held in one `World` value; user callables become functions on it.
 */
module Entities {
  import opened Wrappers

  /** Identity of an entity or process-taxon instance. */
  type Inst = nat
  /** Identity of a Variable (an attribute descriptor shared by a class). */
  type VarId = nat
  /** Identity of an owning class (an entity type or a process taxon). */
  type ClassId = nat
  type Time = real

  /**
   * `active[c]` lists the active instances of class `c` in their stable order;
   * `idle` has a key exactly for the entity classes (process taxa cannot be
   * deactivated) and lists their deactivated instances.
   */
  datatype World = World(
    active: map<ClassId, seq<Inst>>,
    idle: map<ClassId, seq<Inst>>,
    value: map<VarId, map<Inst, real>>,
    deriv: map<VarId, map<Inst, real>>)

  function Instances(w: World, c: ClassId): seq<Inst>
  {
    if c in w.active then w.active[c] else []
  }

  predicate NoDuplicates(s: seq<Inst>)
  {
    forall i, j :: 0 <= i < j < |s| ==> s[i] != s[j]
  }

  /** Current value of `v` at `i`; an attribute never written reads as 0. */
  function ValueOf(w: World, v: VarId, i: Inst): real
  {
    if v in w.value && i in w.value[v] then w.value[v][i] else 0.0
  }

  /** Derivative accumulator of `v` at `i`; a cleared accumulator reads as 0. */
  function DerivOf(w: World, v: VarId, i: Inst): real
  {
    if v in w.deriv && i in w.deriv[v] then w.deriv[v][i] else 0.0
  }

  function SetValue(w: World, v: VarId, i: Inst, x: real): (r: World)
    ensures ValueOf(r, v, i) == x
    ensures r.active == w.active && r.idle == w.idle && r.deriv == w.deriv
  {
    var m := if v in w.value then w.value[v] else map[];
    w.(value := w.value[v := m[i := x]])
  }

  /** Setting one value leaves every other (variable, instance) pair as it was. */
  lemma SetValueElsewhere(w: World, v: VarId, i: Inst, x: real, v': VarId, i': Inst)
    requires v' != v || i' != i
    ensures ValueOf(SetValue(w, v, i, x), v', i') == ValueOf(w, v', i')
  {
  }

  function AddDeriv(w: World, v: VarId, i: Inst, x: real): (r: World)
    ensures DerivOf(r, v, i) == DerivOf(w, v, i) + x
    ensures forall v': VarId, i': Inst :: (v', i') != (v, i) ==> DerivOf(r, v', i') == DerivOf(w, v', i')
    ensures r.active == w.active && r.idle == w.idle && r.value == w.value
  {
    var m := if v in w.deriv then w.deriv[v] else map[];
    w.(deriv := w.deriv[v := m[i := DerivOf(w, v, i) + x]])
  }

  /**
   * Bulk set (`fast_set_values`): the k-th value goes to the k-th instance,
   * for as many positions as both sequences have.
   */
  function SetValues(w: World, v: VarId, insts: seq<Inst>, xs: seq<real>): (r: World)
    ensures r.active == w.active && r.idle == w.idle && r.deriv == w.deriv
    decreases |insts|
  {
    if |insts| == 0 || |xs| == 0 then w
    else SetValues(SetValue(w, v, insts[0], xs[0]), v, insts[1..], xs[1..])
  }

  /** A bulk set leaves every other variable, and every instance it does not reach, unchanged. */
  lemma {:induction false} SetValuesFrame(w: World, v: VarId, insts: seq<Inst>, xs: seq<real>, v': VarId, i': Inst)
    requires v' != v || i' !in insts
    ensures ValueOf(SetValues(w, v, insts, xs), v', i') == ValueOf(w, v', i')
    decreases |insts|
  {
    if |insts| > 0 && |xs| > 0 {
      assert i' !in insts ==> i' !in insts[1..];
      SetValueElsewhere(w, v, insts[0], xs[0], v', i');
      SetValuesFrame(SetValue(w, v, insts[0], xs[0]), v, insts[1..], xs[1..], v', i');
    }
  }

  /** On duplicate-free instances, a bulk set stores the k-th value at the k-th instance. */
  lemma {:induction false} SetValuesAt(w: World, v: VarId, insts: seq<Inst>, xs: seq<real>, k: nat)
    requires NoDuplicates(insts)
    requires k < |insts| && k < |xs|
    ensures ValueOf(SetValues(w, v, insts, xs), v, insts[k]) == xs[k]
    decreases |insts|
  {
    var w1 := SetValue(w, v, insts[0], xs[0]);
    if k == 0 {
      assert insts[0] !in insts[1..] by {
        forall j | 0 <= j < |insts[1..]| ensures insts[1..][j] != insts[0] {
          assert insts[1..][j] == insts[j + 1];
        }
      }
      SetValuesFrame(w1, v, insts[1..], xs[1..], v, insts[0]);
    } else {
      assert insts[1..][k - 1] == insts[k];
      SetValuesAt(w1, v, insts[1..], xs[1..], k - 1);
    }
  }

  /** `add_derivatives`: the k-th summand is added to the k-th instance's accumulator. */
  function AddDerivs(w: World, v: VarId, insts: seq<Inst>, xs: seq<real>): (r: World)
    ensures r.active == w.active && r.idle == w.idle && r.value == w.value
    decreases |insts|
  {
    if |insts| == 0 || |xs| == 0 then w
    else AddDerivs(AddDeriv(w, v, insts[0], xs[0]), v, insts[1..], xs[1..])
  }

  /** `clear_derivatives`: every accumulator of `v` reads 0 afterwards. */
  function ClearDerivs(w: World, v: VarId): (r: World)
    ensures r.active == w.active && r.idle == w.idle && r.value == w.value
  {
    w.(deriv := w.deriv[v := map[]])
  }

  /** After clearing `v`, its accumulators read 0 and every other variable's are as they were. */
  lemma ClearDerivsAt(w: World, v: VarId, v': VarId, i: Inst)
    ensures DerivOf(ClearDerivs(w, v), v', i) == if v' == v then 0.0 else DerivOf(w, v', i)
  {
  }

  /** Bulk get (`eval(instances)`): the value of `v` at each instance, in order. */
  function Values(w: World, v: VarId, insts: seq<Inst>): (r: seq<real>)
    ensures |r| == |insts|
    ensures forall k :: 0 <= k < |insts| ==> r[k] == ValueOf(w, v, insts[k])
  {
    seq(|insts|, k requires 0 <= k < |insts| => ValueOf(w, v, insts[k]))
  }

  /** `get_derivatives(instances)`: the accumulator of `v` at each instance, in order. */
  function Derivs(w: World, v: VarId, insts: seq<Inst>): (r: seq<real>)
    ensures |r| == |insts|
    ensures forall k :: 0 <= k < |insts| ==> r[k] == DerivOf(w, v, insts[k])
  {
    seq(|insts|, k requires 0 <= k < |insts| => DerivOf(w, v, insts[k]))
  }

  /**
   * A process target: a plain Variable of an owning class, or a composite
   * (dot-construct) reference whose target instances are resolved through
   * relations of the current world, possibly with repetitions (broadcasting).
   */
  datatype Target =
    | Plain(variable: VarId, cls: ClassId)
    | Dotted(variable: VarId, cls: ClassId, resolve: World -> seq<Inst>)

  /** The instances a bulk write or derivative addition on `t` reaches. */
  function TargetInstances(w: World, t: Target): seq<Inst>
  {
    match t
    case Plain(_, c) => Instances(w, c)
    case Dotted(_, _, resolve) => resolve(w)
  }

  /** A symbolic expression, evaluated over its instances for a cache iteration. */
  type Expr = (World, nat) -> seq<real>

  /** A process implementation method called as `method(inst, t)`. */
  type Handler = (World, Inst, Time) -> World

  datatype ExplicitSpec = ExplicitExprs(exprs: seq<Expr>) | ExplicitMethod(call: Handler)

  datatype ExplicitProcess = ExplicitProcess(owner: ClassId, targets: seq<Target>, spec: ExplicitSpec)

  datatype OdeSpec = OdeExprs(exprs: seq<Expr>) | OdeMethod(call: Handler)

  /** `targets` holds indices into the runner's list of ODE targets. */
  datatype OdeProcess = OdeProcess(owner: ClassId, targets: seq<nat>, spec: OdeSpec)

  /** The first two items of an Event specification `[eventtype, rate_or_timefunc, method]`. */
  datatype EventTiming =
    | RateTiming(rate: real)
    | TimeTiming(next: Time -> Time)
    | OtherTiming

  datatype EventProcess = EventProcess(owner: ClassId, timing: EventTiming, handler: Handler)

  /** A Step specification `[next_time_func, method]`. */
  datatype StepProcess = StepProcess(owner: ClassId, nextTime: (World, Inst, Time) -> Time, handler: Handler)

  /** A termination call `[method, inst]`: the run stops early when `holds(world, inst)`. */
  datatype Signal = Signal(holds: (World, Inst) -> bool, inst: Inst)

  /**
   * What the runner takes from the model and its own constructor: the
   * processes of each kind in declaration order, the ODE targets (the order
   * of the value array), the targets recorded in the trajectory, and the
   * optional termination calls.
   */
  datatype Config = Config(
    explicits: seq<ExplicitProcess>,
    odes: seq<OdeProcess>,
    events: seq<EventProcess>,
    steps: seq<StepProcess>,
    odeTargets: seq<Target>,
    processTargets: seq<Target>,
    terminationCalls: Option<seq<Signal>>)
  {
    /** Every target of an ODE process is one of the ODE targets. */
    predicate Valid()
    {
      forall i, j :: 0 <= i < |odes| && 0 <= j < |odes[i].targets| ==> odes[i].targets[j] < |odeTargets|
    }
  }

  /** The exceptions the runner's own code can raise. */
  datatype Failure =
    | MissingExpression     // fewer expressions than targets (an IndexError)
    | ShapeMismatch         // array operands that do not broadcast, or a column beyond the solution
    | UnsupportedEventType  // "unsupported type of Event"
    | NonPositiveRate       // "zero, negative, or varying rates not supported yet."
    | NotLater              // "next time must be > t"
}
