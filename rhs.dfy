/**
 * Explicit-process application (runner.py, lines 74-106) and the right-hand
 * side of the composite ODE system (lines 109-189), as functions of the world,
 * the slice layout, the cache iteration, the time and the value array.
 */
module Derivatives {
  import opened Wrappers
  import opened Entities
  import opened ArrayLayout

  // ----- Explicit processes -----

  /** Lines 90-100: the first `i` targets of an expression-specified process, each set from its expression. */
  function SetTargets(targets: seq<Target>, exprs: seq<Expr>, w: World, iter: nat, i: nat): Result<World, Failure>
    requires i <= |targets|
  {
    if i == 0 then Ok(w)
    else
      match SetTargets(targets, exprs, w, iter, i - 1)
      case Err(e) => Err(e)
      case Ok(w') =>
        if i - 1 < |exprs| then
          var target := targets[i - 1];
          Ok(SetValues(w', target.variable, TargetInstances(w', target), exprs[i - 1](w', iter)))
        else Err(MissingExpression)
  }

  /** Lines 105-106 and 179-180: `spec(inst, t)` on the first `k` instances of a snapshot. */
  function CallEach(call: Handler, insts: seq<Inst>, w: World, t: Time, k: nat): World
    requires k <= |insts|
  {
    if k == 0 then w else call(CallEach(call, insts, w, t, k - 1), insts[k - 1], t)
  }

  function ApplyExplicit(p: ExplicitProcess, w: World, t: Time, iter: nat): Result<World, Failure>
  {
    match p.spec
    case ExplicitExprs(exprs) => SetTargets(p.targets, exprs, w, iter, |p.targets|)
    case ExplicitMethod(call) =>
      var insts := Instances(w, p.owner);
      Ok(CallEach(call, insts, w, t, |insts|))
  }

  /** Lines 85-106: the first `j` Explicit processes, in declaration order. */
  function ApplyExplicits(procs: seq<ExplicitProcess>, w: World, t: Time, iter: nat, j: nat): Result<World, Failure>
    requires j <= |procs|
  {
    if j == 0 then Ok(w)
    else
      match ApplyExplicits(procs, w, t, iter, j - 1)
      case Err(e) => Err(e)
      case Ok(w') => ApplyExplicit(procs[j - 1], w', t, iter)
  }

  /** An expression-specified process with fewer expressions than targets. */
  predicate LacksExpression(p: ExplicitProcess)
  {
    p.spec.ExplicitExprs? && |p.spec.exprs| < |p.targets|
  }

  lemma {:induction false} SetTargetsFails(targets: seq<Target>, exprs: seq<Expr>, w: World, iter: nat, i: nat)
    requires i <= |targets|
    ensures SetTargets(targets, exprs, w, iter, i).Err? <==> |exprs| < i
    ensures SetTargets(targets, exprs, w, iter, i).Err? ==> SetTargets(targets, exprs, w, iter, i).error == MissingExpression
    decreases i
  {
    if i > 0 {
      SetTargetsFails(targets, exprs, w, iter, i - 1);
    }
  }

  /**
   * Applying the Explicit processes fails exactly when one of them lists fewer
   * expressions than targets (an IndexError in the source); callables never fail here.
   */
  lemma {:induction false} ApplyExplicitsFails(procs: seq<ExplicitProcess>, w: World, t: Time, iter: nat, j: nat)
    requires j <= |procs|
    ensures ApplyExplicits(procs, w, t, iter, j).Err? <==> exists q :: 0 <= q < j && LacksExpression(procs[q])
    decreases j
  {
    if j > 0 {
      ApplyExplicitsFails(procs, w, t, iter, j - 1);
      match ApplyExplicits(procs, w, t, iter, j - 1)
      case Err(_) =>
      case Ok(w') =>
        var p := procs[j - 1];
        if p.spec.ExplicitExprs? {
          SetTargetsFails(p.targets, p.spec.exprs, w', iter, |p.targets|);
        }
    }
  }

  /** No target of process `p` is variable `v`. */
  predicate Untargeted(p: ExplicitProcess, v: VarId)
  {
    forall k :: 0 <= k < |p.targets| ==> p.targets[k].variable != v
  }

  lemma {:induction false} SetTargetsFrame(targets: seq<Target>, exprs: seq<Expr>, w: World, iter: nat, i: nat, v: VarId, inst: Inst)
    requires i <= |targets|
    requires forall k :: 0 <= k < i ==> targets[k].variable != v
    ensures SetTargets(targets, exprs, w, iter, i).Ok? ==>
      var r := SetTargets(targets, exprs, w, iter, i).value;
      r.active == w.active && r.idle == w.idle && r.deriv == w.deriv && ValueOf(r, v, inst) == ValueOf(w, v, inst)
    decreases i
  {
    if i > 0 {
      SetTargetsFrame(targets, exprs, w, iter, i - 1, v, inst);
      match SetTargets(targets, exprs, w, iter, i - 1)
      case Err(_) =>
      case Ok(w') =>
        if i - 1 < |exprs| {
          var target := targets[i - 1];
          SetValuesFrame(w', target.variable, TargetInstances(w', target), exprs[i - 1](w', iter), v, inst);
        }
    }
  }

  /**
   * Expression-specified Explicit processes write only their target variables:
   * instance membership, derivative accumulators and every other variable are
   * left as they were.
   */
  lemma {:induction false} ApplyExplicitsFrame(procs: seq<ExplicitProcess>, w: World, t: Time, iter: nat, j: nat, v: VarId, inst: Inst)
    requires j <= |procs|
    requires forall q :: 0 <= q < j ==> procs[q].spec.ExplicitExprs? && Untargeted(procs[q], v)
    ensures ApplyExplicits(procs, w, t, iter, j).Ok? ==>
      var r := ApplyExplicits(procs, w, t, iter, j).value;
      r.active == w.active && r.idle == w.idle && r.deriv == w.deriv && ValueOf(r, v, inst) == ValueOf(w, v, inst)
    decreases j
  {
    if j > 0 {
      ApplyExplicitsFrame(procs, w, t, iter, j - 1, v, inst);
      match ApplyExplicits(procs, w, t, iter, j - 1)
      case Err(_) =>
      case Ok(w') =>
        var p := procs[j - 1];
        SetTargetsFrame(p.targets, p.spec.exprs, w', iter, |p.targets|, v, inst);
    }
  }

  // ----- the ODE right-hand side -----

  /** Every slice lies within a vector of length `len`. */
  predicate Fits(slices: seq<Slice>, len: nat)
  {
    forall j :: 0 <= j < |slices| ==> slices[j].lo <= slices[j].hi <= len
  }

  lemma ContiguousFits(slices: seq<Slice>)
    requires Contiguous(slices)
    ensures Fits(slices, Extent(slices))
  {
    forall j | 0 <= j < |slices| ensures slices[j].hi <= Extent(slices) {
      ContiguousWithin(slices, j);
    }
  }

  function Zeros(n: nat): (r: seq<real>)
    ensures |r| == n && forall k :: 0 <= k < n ==> r[k] == 0.0
  {
    seq(n, k => 0.0)
  }

  /** `d[s.lo:s.hi] += xs`, which numpy accepts for equal lengths and broadcasts from one summand. */
  function AddSlice(d: seq<real>, s: Slice, xs: seq<real>): (r: Result<seq<real>, Failure>)
    requires s.lo <= s.hi <= |d|
    ensures r.Ok? <==> |xs| == s.hi - s.lo || |xs| == 1
    ensures r.Ok? ==> |r.value| == |d|
    ensures r.Ok? ==> forall k :: 0 <= k < |d| && !(s.lo <= k < s.hi) ==> r.value[k] == d[k]
    ensures r.Ok? && |xs| == s.hi - s.lo ==> forall k :: s.lo <= k < s.hi ==> r.value[k] == d[k] + xs[k - s.lo]
    ensures r.Ok? && |xs| == 1 ==> forall k :: s.lo <= k < s.hi ==> r.value[k] == d[k] + xs[0]
  {
    if |xs| == s.hi - s.lo then
      Ok(seq(|d|, k requires 0 <= k < |d| => if s.lo <= k < s.hi then d[k] + xs[k - s.lo] else d[k]))
    else if |xs| == 1 then
      Ok(seq(|d|, k requires 0 <= k < |d| => if s.lo <= k < s.hi then d[k] + xs[0] else d[k]))
    else Err(ShapeMismatch)
  }

  /**
   * Lines 138-143 (`clear`) and 480-484 (not `clear`) for the first `j` ODE
   * targets: the target's slice of the value array is written into its
   * variable; inside the right-hand side its derivative accumulators are
   * then cleared, while the replay of the solver's rows leaves them alone.
   */
  function Unpack(targets: seq<Target>, slices: seq<Slice>, arr: seq<real>, w: World, clear: bool, j: nat): (r: World)
    requires |slices| == |targets| && Fits(slices, |arr|) && j <= |targets|
    ensures r.active == w.active && r.idle == w.idle
    ensures !clear ==> r.deriv == w.deriv
  {
    if j == 0 then w
    else
      var w' := Unpack(targets, slices, arr, w, clear, j - 1);
      var v := targets[j - 1].variable;
      var written := SetValues(w', v, Instances(w', targets[j - 1].cls), arr[slices[j - 1].lo..slices[j - 1].hi]);
      if clear then ClearDerivs(written, v) else written
  }

  /** The ODE targets bind pairwise different variables. */
  predicate DistinctVariables(targets: seq<Target>)
  {
    forall a, b :: 0 <= a < b < |targets| ==> targets[a].variable != targets[b].variable
  }

  /**
   * After unpacking, before any derivative term is computed, every ODE
   * target's variable holds its slice of the value array at the active
   * instances of its class.
   */
  lemma {:induction false} UnpackValue(targets: seq<Target>, slices: seq<Slice>, arr: seq<real>, w: World, clear: bool, n: nat, j: nat, k: nat)
    requires |slices| == |targets| && Fits(slices, |arr|) && n <= |targets|
    requires DistinctVariables(targets)
    requires j < n
    requires NoDuplicates(Instances(w, targets[j].cls))
    requires k < |Instances(w, targets[j].cls)| && k < slices[j].hi - slices[j].lo
    ensures ValueOf(Unpack(targets, slices, arr, w, clear, n), targets[j].variable, Instances(w, targets[j].cls)[k])
         == arr[slices[j].lo + k]
    decreases n
  {
    if j == n - 1 {
      UnpackLast(targets, slices, arr, w, clear, n, k);
    } else {
      UnpackValue(targets, slices, arr, w, clear, n - 1, j, k);
      assert targets[j].variable != targets[n - 1].variable;
      UnpackOther(targets, slices, arr, w, clear, n, targets[j].variable, Instances(w, targets[j].cls)[k]);
    }
  }

  /** The `n`-th target's variable holds its slice after unpacking it. */
  lemma UnpackLast(targets: seq<Target>, slices: seq<Slice>, arr: seq<real>, w: World, clear: bool, n: nat, k: nat)
    requires |slices| == |targets| && Fits(slices, |arr|) && 0 < n <= |targets|
    requires NoDuplicates(Instances(w, targets[n - 1].cls))
    requires k < |Instances(w, targets[n - 1].cls)| && k < slices[n - 1].hi - slices[n - 1].lo
    ensures ValueOf(Unpack(targets, slices, arr, w, clear, n), targets[n - 1].variable, Instances(w, targets[n - 1].cls)[k])
         == arr[slices[n - 1].lo + k]
  {
    var last := targets[n - 1];
    UnpackStep(targets, slices, arr, w, clear, n, last.variable, Instances(w, last.cls)[k]);
    SetValuesAt(Unpack(targets, slices, arr, w, clear, n - 1), last.variable, Instances(w, last.cls), arr[slices[n - 1].lo..slices[n - 1].hi], k);
  }

  /** Unpacking the `n`-th target leaves every other variable as it was. */
  lemma UnpackOther(targets: seq<Target>, slices: seq<Slice>, arr: seq<real>, w: World, clear: bool, n: nat, v: VarId, inst: Inst)
    requires |slices| == |targets| && Fits(slices, |arr|) && 0 < n <= |targets|
    requires v != targets[n - 1].variable
    ensures ValueOf(Unpack(targets, slices, arr, w, clear, n), v, inst) == ValueOf(Unpack(targets, slices, arr, w, clear, n - 1), v, inst)
  {
    var last := targets[n - 1];
    UnpackStep(targets, slices, arr, w, clear, n, v, inst);
    SetValuesFrame(Unpack(targets, slices, arr, w, clear, n - 1), last.variable, Instances(w, last.cls), arr[slices[n - 1].lo..slices[n - 1].hi], v, inst);
  }

  /** Unpacking the `n`-th target writes its slice into its variable over its class's instances. */
  lemma UnpackStep(targets: seq<Target>, slices: seq<Slice>, arr: seq<real>, w: World, clear: bool, n: nat, v: VarId, inst: Inst)
    requires |slices| == |targets| && Fits(slices, |arr|) && 0 < n <= |targets|
    ensures ValueOf(Unpack(targets, slices, arr, w, clear, n), v, inst)
         == ValueOf(SetValues(Unpack(targets, slices, arr, w, clear, n - 1), targets[n - 1].variable,
                              Instances(w, targets[n - 1].cls), arr[slices[n - 1].lo..slices[n - 1].hi]), v, inst)
  {
  }

  /** After unpacking, every derivative accumulator of every ODE target's variable reads 0. */
  lemma {:induction false} UnpackCleared(targets: seq<Target>, slices: seq<Slice>, arr: seq<real>, w: World, n: nat, j: nat, i: Inst)
    requires |slices| == |targets| && Fits(slices, |arr|) && n <= |targets|
    requires DistinctVariables(targets)
    requires j < n
    ensures DerivOf(Unpack(targets, slices, arr, w, true, n), targets[j].variable, i) == 0.0
    decreases n
  {
    var w' := Unpack(targets, slices, arr, w, true, n - 1);
    var last := targets[n - 1];
    var w'' := SetValues(w', last.variable, Instances(w', last.cls), arr[slices[n - 1].lo..slices[n - 1].hi]);
    ClearDerivsAt(w'', last.variable, targets[j].variable, i);
    if j < n - 1 {
      UnpackCleared(targets, slices, arr, w, n - 1, j, i);
    }
  }

  /** Derivative vector and world while the ODE processes add their terms. */
  datatype Partial = Partial(world: World, derivs: seq<real>)

  /**
   * Lines 151-174 for the first `i` targets of an expression-specified ODE
   * process: a plain Variable target adds its summands to its slice of the
   * derivative vector, a composite target adds them to the accumulators of
   * the instances it resolves to.
   */
  function TermTargets(odeTargets: seq<Target>, slices: seq<Slice>, ptargets: seq<nat>, exprs: seq<Expr>,
                       st: Partial, iter: nat, i: nat): (r: Result<Partial, Failure>)
    requires i <= |ptargets|
    requires |slices| == |odeTargets| && Fits(slices, |st.derivs|)
    requires forall m :: 0 <= m < |ptargets| ==> ptargets[m] < |odeTargets|
    ensures r.Ok? ==> |r.value.derivs| == |st.derivs|
  {
    if i == 0 then Ok(st)
    else
      match TermTargets(odeTargets, slices, ptargets, exprs, st, iter, i - 1)
      case Err(e) => Err(e)
      case Ok(cur) =>
        if i - 1 >= |exprs| then Err(MissingExpression)
        else
          var ti := ptargets[i - 1];
          var summands := exprs[i - 1](cur.world, iter);
          match odeTargets[ti]
          case Plain(_, _) =>
            (match AddSlice(cur.derivs, slices[ti], summands)
             case Err(e) => Err(e)
             case Ok(d) => Ok(Partial(cur.world, d)))
          case Dotted(v, _, resolve) =>
            Ok(Partial(AddDerivs(cur.world, v, resolve(cur.world), summands), cur.derivs))
  }

  function OdeTerm(cfg: Config, slices: seq<Slice>, p: OdeProcess, st: Partial, t: Time, iter: nat): (r: Result<Partial, Failure>)
    requires |slices| == |cfg.odeTargets| && Fits(slices, |st.derivs|)
    requires forall m :: 0 <= m < |p.targets| ==> p.targets[m] < |cfg.odeTargets|
    ensures r.Ok? ==> |r.value.derivs| == |st.derivs|
  {
    match p.spec
    case OdeExprs(exprs) => TermTargets(cfg.odeTargets, slices, p.targets, exprs, st, iter, |p.targets|)
    case OdeMethod(call) =>
      var insts := Instances(st.world, p.owner);
      Ok(Partial(CallEach(call, insts, st.world, t, |insts|), st.derivs))
  }

  /** Lines 147-180: the first `j` ODE processes, in declaration order. */
  function OdeTerms(cfg: Config, slices: seq<Slice>, st: Partial, t: Time, iter: nat, j: nat): (r: Result<Partial, Failure>)
    requires cfg.Valid() && j <= |cfg.odes|
    requires |slices| == |cfg.odeTargets| && Fits(slices, |st.derivs|)
    ensures r.Ok? ==> |r.value.derivs| == |st.derivs|
  {
    if j == 0 then Ok(st)
    else
      match OdeTerms(cfg, slices, st, t, iter, j - 1)
      case Err(e) => Err(e)
      case Ok(cur) => OdeTerm(cfg, slices, cfg.odes[j - 1], cur, t, iter)
  }

  /** Lines 184-187 for the first `j` ODE targets: the accumulators of the class's instances, added into the slice. */
  function Gather(targets: seq<Target>, slices: seq<Slice>, w: World, d: seq<real>, j: nat): (r: Result<seq<real>, Failure>)
    requires |slices| == |targets| && Fits(slices, |d|) && j <= |targets|
    ensures r.Ok? ==> |r.value| == |d|
  {
    if j == 0 then Ok(d)
    else
      match Gather(targets, slices, w, d, j - 1)
      case Err(e) => Err(e)
      case Ok(d') =>
        var target := targets[j - 1];
        AddSlice(d', slices[j - 1], Derivs(w, target.variable, Instances(w, target.cls)))
  }

  /**
   * With contiguous slices, each of exactly its class's size, the gathered
   * vector is the input plus, position by position, the accumulator of the
   * instance that position stands for.
   */
  lemma {:induction false} GatherAt(targets: seq<Target>, slices: seq<Slice>, w: World, d: seq<real>, n: nat, j: nat, k: nat)
    requires |slices| == |targets| && Fits(slices, |d|) && n <= |targets|
    requires Contiguous(slices)
    requires forall m :: 0 <= m < n ==> |Instances(w, targets[m].cls)| == slices[m].hi - slices[m].lo
    requires j < n && k < slices[j].hi - slices[j].lo
    ensures Gather(targets, slices, w, d, n).Ok?
    ensures Gather(targets, slices, w, d, n).value[slices[j].lo + k]
         == d[slices[j].lo + k] + DerivOf(w, targets[j].variable, Instances(w, targets[j].cls)[k])
    decreases n
  {
    GatherOk(targets, slices, w, d, n);
    if j == n - 1 {
      GatherLastInside(targets, slices, w, d, n, k);
    } else {
      GatherAt(targets, slices, w, d, n - 1, j, k);
      ContiguousDisjoint(slices, j, n - 1);
      GatherLastOutside(targets, slices, w, d, n, slices[j].lo + k);
    }
  }

  /** The `n`-th target adds nothing to a position before its slice. */
  lemma GatherLastOutside(targets: seq<Target>, slices: seq<Slice>, w: World, d: seq<real>, n: nat, pos: nat)
    requires |slices| == |targets| && Fits(slices, |d|) && 0 < n <= |targets|
    requires Gather(targets, slices, w, d, n).Ok?
    requires pos < slices[n - 1].lo
    ensures Gather(targets, slices, w, d, n - 1).Ok?
    ensures Gather(targets, slices, w, d, n).value[pos] == Gather(targets, slices, w, d, n - 1).value[pos]
  {
  }

  /** The `n`-th target adds its accumulators to its own slice, which no earlier target touched. */
  lemma GatherLastInside(targets: seq<Target>, slices: seq<Slice>, w: World, d: seq<real>, n: nat, k: nat)
    requires |slices| == |targets| && Fits(slices, |d|) && 0 < n <= |targets|
    requires Contiguous(slices)
    requires Gather(targets, slices, w, d, n).Ok?
    requires |Instances(w, targets[n - 1].cls)| == slices[n - 1].hi - slices[n - 1].lo
    requires k < slices[n - 1].hi - slices[n - 1].lo
    ensures Gather(targets, slices, w, d, n).value[slices[n - 1].lo + k]
         == d[slices[n - 1].lo + k] + DerivOf(w, targets[n - 1].variable, Instances(w, targets[n - 1].cls)[k])
  {
    var pos := slices[n - 1].lo + k;
    if n > 1 {
      GatherUntouched(targets, slices, w, d, n - 1, pos);
    }
  }

  /** Gathering succeeds when every class still has as many instances as its slice is wide. */
  lemma {:induction false} GatherOk(targets: seq<Target>, slices: seq<Slice>, w: World, d: seq<real>, n: nat)
    requires |slices| == |targets| && Fits(slices, |d|) && n <= |targets|
    requires forall m :: 0 <= m < n ==> |Instances(w, targets[m].cls)| == slices[m].hi - slices[m].lo
    ensures Gather(targets, slices, w, d, n).Ok?
    decreases n
  {
    if n > 0 {
      GatherOk(targets, slices, w, d, n - 1);
    }
  }

  /** Positions at or beyond the first `n` slices are not changed by gathering them. */
  lemma {:induction false} GatherUntouched(targets: seq<Target>, slices: seq<Slice>, w: World, d: seq<real>, n: nat, pos: nat)
    requires |slices| == |targets| && Fits(slices, |d|) && n <= |targets|
    requires Contiguous(slices)
    requires n > 0 ==> slices[n - 1].hi <= pos
    requires pos < |d|
    ensures Gather(targets, slices, w, d, n).Ok? ==> Gather(targets, slices, w, d, n).value[pos] == d[pos]
    decreases n
  {
    if n > 1 {
      assert slices[n - 2].hi == slices[n - 1].lo <= slices[n - 1].hi;
      GatherUntouched(targets, slices, w, d, n - 1, pos);
    }
  }

  /**
   * Lines 129-189 after the counter increment: Explicit processes, unpacking,
   * the ODE processes' terms added into a zero vector, then the gathered
   * accumulators. The result has one derivative per entry of the value array.
   */
  function Rhs(cfg: Config, slices: seq<Slice>, w: World, iter: nat, t: Time, arr: seq<real>): (r: Result<Partial, Failure>)
    requires cfg.Valid() && |slices| == |cfg.odeTargets| && Fits(slices, |arr|)
    ensures r.Ok? ==> |r.value.derivs| == |arr|
  {
    match ApplyExplicits(cfg.explicits, w, t, iter, |cfg.explicits|)
    case Err(e) => Err(e)
    case Ok(w1) =>
      var w2 := Unpack(cfg.odeTargets, slices, arr, w1, true, |cfg.odeTargets|);
      match OdeTerms(cfg, slices, Partial(w2, Zeros(|arr|)), t, iter, |cfg.odes|)
      case Err(e) => Err(e)
      case Ok(st) =>
        match Gather(cfg.odeTargets, slices, st.world, st.derivs, |cfg.odeTargets|)
        case Err(e) => Err(e)
        case Ok(d) => Ok(Partial(st.world, d))
  }

  // ----- what the ODE processes put into the vector -----

  /** Summands that an expression produced for the plain Variable target `target` (an index into the ODE targets). */
  datatype Term = Term(target: nat, summands: seq<real>)

  /**
   * Lines 151-174 without the vector: how the first `i` targets of an
   * expression-specified process change the world, and the summands
   * meant for plain Variable targets, in evaluation order.
   */
  function TargetsLog(odeTargets: seq<Target>, ptargets: seq<nat>, exprs: seq<Expr>, w: World, iter: nat, i: nat): Result<(World, seq<Term>), Failure>
    requires i <= |ptargets|
    requires forall m :: 0 <= m < |ptargets| ==> ptargets[m] < |odeTargets|
  {
    if i == 0 then Ok((w, []))
    else
      match TargetsLog(odeTargets, ptargets, exprs, w, iter, i - 1)
      case Err(e) => Err(e)
      case Ok(cur) =>
        if i - 1 >= |exprs| then Err(MissingExpression)
        else
          var ti := ptargets[i - 1];
          var summands := exprs[i - 1](cur.0, iter);
          match odeTargets[ti]
          case Plain(_, _) => Ok((cur.0, cur.1 + [Term(ti, summands)]))
          case Dotted(v, _, resolve) => Ok((AddDerivs(cur.0, v, resolve(cur.0), summands), cur.1))
  }

  function ProcessLog(cfg: Config, p: OdeProcess, w: World, t: Time, iter: nat): Result<(World, seq<Term>), Failure>
    requires forall m :: 0 <= m < |p.targets| ==> p.targets[m] < |cfg.odeTargets|
  {
    match p.spec
    case OdeExprs(exprs) => TargetsLog(cfg.odeTargets, p.targets, exprs, w, iter, |p.targets|)
    case OdeMethod(call) =>
      var insts := Instances(w, p.owner);
      Ok((CallEach(call, insts, w, t, |insts|), []))
  }

  /** Lines 147-180 without the vector, for the first `j` ODE processes. */
  function OdeLog(cfg: Config, w: World, t: Time, iter: nat, j: nat): Result<(World, seq<Term>), Failure>
    requires cfg.Valid() && j <= |cfg.odes|
  {
    if j == 0 then Ok((w, []))
    else
      match OdeLog(cfg, w, t, iter, j - 1)
      case Err(e) => Err(e)
      case Ok(cur) =>
        match ProcessLog(cfg, cfg.odes[j - 1], cur.0, t, iter)
        case Err(e) => Err(e)
        case Ok(next) => Ok((next.0, cur.1 + next.1))
  }

  /** The `k`-th summand of a slice, numpy broadcasting a single summand over the whole slice. */
  function SummandAt(xs: seq<real>, k: nat): real
  {
    if k < |xs| then xs[k] else if |xs| > 0 then xs[0] else 0.0
  }

  /** The summands fit the target's slice, or broadcast from one. */
  predicate Broadcasts(slices: seq<Slice>, e: Term)
  {
    e.target < |slices| && (|e.summands| == slices[e.target].hi - slices[e.target].lo || |e.summands| == 1)
  }

  predicate AllBroadcast(slices: seq<Slice>, log: seq<Term>)
  {
    forall m :: 0 <= m < |log| ==> Broadcasts(slices, log[m])
  }

  /** What the terms together add at position `pos` of the vector. */
  function AddedAt(slices: seq<Slice>, log: seq<Term>, pos: nat): real
  {
    if |log| == 0 then 0.0
    else
      var e := log[|log| - 1];
      AddedAt(slices, log[..|log| - 1], pos)
        + (if e.target < |slices| && slices[e.target].lo <= pos < slices[e.target].hi
           then SummandAt(e.summands, pos - slices[e.target].lo) else 0.0)
  }

  /** The sum of the `k`-th summands of the terms for target `j`, in order. */
  function TargetSum(log: seq<Term>, j: nat, k: nat): real
  {
    if |log| == 0 then 0.0
    else TargetSum(log[..|log| - 1], j, k) + (if log[|log| - 1].target == j then SummandAt(log[|log| - 1].summands, k) else 0.0)
  }

  /** Every term is for a plain Variable target. */
  predicate PlainTerms(odeTargets: seq<Target>, log: seq<Term>)
  {
    forall m :: 0 <= m < |log| ==> log[m].target < |odeTargets| && odeTargets[log[m].target].Plain?
  }

  lemma {:induction false} AddedAtAppend(slices: seq<Slice>, a: seq<Term>, b: seq<Term>, pos: nat)
    ensures AddedAt(slices, a + b, pos) == AddedAt(slices, a, pos) + AddedAt(slices, b, pos)
    decreases |b|
  {
    if |b| == 0 {
      assert a + b == a;
    } else {
      assert (a + b)[..|a + b| - 1] == a + b[..|b| - 1];
      assert (a + b)[|a + b| - 1] == b[|b| - 1];
      AddedAtAppend(slices, a, b[..|b| - 1], pos);
    }
  }

  /**
   * Adding the first `i` targets' terms of one process to the vector `d` in
   * world `w`: it succeeds exactly when the summands are computed and every
   * plain target's summands fit its slice; the world is then the one of the
   * log, and each position holds its old entry plus what the logged terms add there.
   */
  lemma {:induction false} TermTargetsLog(odeTargets: seq<Target>, slices: seq<Slice>, ptargets: seq<nat>, exprs: seq<Expr>,
                                          w: World, d: seq<real>, iter: nat, i: nat)
    requires i <= |ptargets|
    requires |slices| == |odeTargets| && Fits(slices, |d|)
    requires forall m :: 0 <= m < |ptargets| ==> ptargets[m] < |odeTargets|
    ensures var r := TermTargets(odeTargets, slices, ptargets, exprs, Partial(w, d), iter, i);
      var l := TargetsLog(odeTargets, ptargets, exprs, w, iter, i);
      && (r.Ok? <==> l.Ok? && AllBroadcast(slices, l.value.1))
      && (l.Ok? ==> PlainTerms(odeTargets, l.value.1))
      && (r.Ok? ==> r.value.world == l.value.0 && forall pos :: 0 <= pos < |d| ==> r.value.derivs[pos] == d[pos] + AddedAt(slices, l.value.1, pos))
    decreases i
  {
    if i > 0 {
      TermTargetsLog(odeTargets, slices, ptargets, exprs, w, d, iter, i - 1);
      var r := TermTargets(odeTargets, slices, ptargets, exprs, Partial(w, d), iter, i - 1);
      var l := TargetsLog(odeTargets, ptargets, exprs, w, iter, i - 1);
      if l.Ok? && i - 1 < |exprs| {
        var ti := ptargets[i - 1];
        var summands := exprs[i - 1](l.value.0, iter);
        if odeTargets[ti].Plain? {
          TermStep(slices, l.value.1, Term(ti, summands));
          if r.Ok? && AddSlice(r.value.derivs, slices[ti], summands).Ok? {
            forall pos | 0 <= pos < |d|
              ensures AddSlice(r.value.derivs, slices[ti], summands).value[pos] == d[pos] + AddedAt(slices, l.value.1 + [Term(ti, summands)], pos)
            {
              PlainStep(slices, d, r.value.derivs, l.value.1, Term(ti, summands), pos);
            }
          }
        }
      }
    }
  }

  /** Adding one plain term's summands to its slice adds, at each position, what the term adds there. */
  lemma PlainStep(slices: seq<Slice>, d: seq<real>, cur: seq<real>, log: seq<Term>, e: Term, pos: nat)
    requires e.target < |slices| && slices[e.target].lo <= slices[e.target].hi <= |cur| && pos < |cur|
    requires AddSlice(cur, slices[e.target], e.summands).Ok?
    requires pos < |d| && cur[pos] == d[pos] + AddedAt(slices, log, pos)
    ensures AddSlice(cur, slices[e.target], e.summands).value[pos] == d[pos] + AddedAt(slices, log + [e], pos)
  {
    assert (log + [e])[..|log|] == log;
  }

  /** One more plain term broadcasts exactly when the log did and the term does. */
  lemma TermStep(slices: seq<Slice>, log: seq<Term>, e: Term)
    ensures AllBroadcast(slices, log + [e]) <==> AllBroadcast(slices, log) && Broadcasts(slices, e)
  {
    if AllBroadcast(slices, log + [e]) {
      assert (log + [e])[|log|] == e;
      forall m | 0 <= m < |log| ensures Broadcasts(slices, log[m]) {
        assert (log + [e])[m] == log[m];
      }
    }
  }

  /** One process's terms, added to `d` in world `w`: the counterpart of `TermTargetsLog`. */
  lemma OdeTermLog(cfg: Config, slices: seq<Slice>, p: OdeProcess, w: World, d: seq<real>, t: Time, iter: nat)
    requires |slices| == |cfg.odeTargets| && Fits(slices, |d|)
    requires forall m :: 0 <= m < |p.targets| ==> p.targets[m] < |cfg.odeTargets|
    ensures var r := OdeTerm(cfg, slices, p, Partial(w, d), t, iter);
      var l := ProcessLog(cfg, p, w, t, iter);
      && (r.Ok? <==> l.Ok? && AllBroadcast(slices, l.value.1))
      && (l.Ok? ==> PlainTerms(cfg.odeTargets, l.value.1))
      && (r.Ok? ==> r.value.world == l.value.0 && forall pos :: 0 <= pos < |d| ==> r.value.derivs[pos] == d[pos] + AddedAt(slices, l.value.1, pos))
  {
    if p.spec.OdeExprs? {
      TermTargetsLog(cfg.odeTargets, slices, p.targets, p.spec.exprs, w, d, iter, |p.targets|);
    }
  }

  /**
   * The first `j` ODE processes, adding into `d` in world `w`: they succeed
   * exactly when every summand is computed and every plain target's summands
   * fit its slice; then the world is the one of `OdeLog`, and every position
   * of the vector holds its old entry plus what the logged terms add there.
   */
  lemma {:induction false} OdeTermsLog(cfg: Config, slices: seq<Slice>, w: World, d: seq<real>, t: Time, iter: nat, j: nat)
    requires cfg.Valid() && j <= |cfg.odes|
    requires |slices| == |cfg.odeTargets| && Fits(slices, |d|)
    ensures var r := OdeTerms(cfg, slices, Partial(w, d), t, iter, j);
      var l := OdeLog(cfg, w, t, iter, j);
      && (r.Ok? <==> l.Ok? && AllBroadcast(slices, l.value.1))
      && (l.Ok? ==> PlainTerms(cfg.odeTargets, l.value.1))
      && (r.Ok? ==> r.value.world == l.value.0 && forall pos :: 0 <= pos < |d| ==> r.value.derivs[pos] == d[pos] + AddedAt(slices, l.value.1, pos))
    decreases j
  {
    if j > 0 {
      OdeTermsLog(cfg, slices, w, d, t, iter, j - 1);
      var r := OdeTerms(cfg, slices, Partial(w, d), t, iter, j - 1);
      var l := OdeLog(cfg, w, t, iter, j - 1);
      if r.Ok? {
        var cur := r.value;
        OdeTermLog(cfg, slices, cfg.odes[j - 1], cur.world, cur.derivs, t, iter);
        var lp := ProcessLog(cfg, cfg.odes[j - 1], cur.world, t, iter);
        if lp.Ok? {
          BroadcastAppend(slices, l.value.1, lp.value.1);
          PlainAppend(cfg.odeTargets, l.value.1, lp.value.1);
          forall pos | 0 <= pos < |d|
            ensures AddedAt(slices, l.value.1 + lp.value.1, pos) == AddedAt(slices, l.value.1, pos) + AddedAt(slices, lp.value.1, pos)
          {
            AddedAtAppend(slices, l.value.1, lp.value.1, pos);
          }
        }
      } else if l.Ok? {
        OdeLogBroadcast(cfg, slices, w, t, iter, j - 1, j);
        OdeTermLog(cfg, slices, cfg.odes[j - 1], l.value.0, d, t, iter);
        var lp := ProcessLog(cfg, cfg.odes[j - 1], l.value.0, t, iter);
        if lp.Ok? {
          PlainAppend(cfg.odeTargets, l.value.1, lp.value.1);
        }
      }
    }
  }

  lemma BroadcastAppend(slices: seq<Slice>, a: seq<Term>, b: seq<Term>)
    ensures AllBroadcast(slices, a + b) <==> AllBroadcast(slices, a) && AllBroadcast(slices, b)
  {
    if AllBroadcast(slices, a + b) {
      forall m | 0 <= m < |a| ensures Broadcasts(slices, a[m]) {
        assert (a + b)[m] == a[m];
      }
      forall m | 0 <= m < |b| ensures Broadcasts(slices, b[m]) {
        assert (a + b)[|a| + m] == b[m];
      }
    }
  }

  lemma PlainAppend(odeTargets: seq<Target>, a: seq<Term>, b: seq<Term>)
    requires PlainTerms(odeTargets, a) && PlainTerms(odeTargets, b)
    ensures PlainTerms(odeTargets, a + b)
  {
  }

  /** The log after more processes starts with the log before them; so does its failure to broadcast. */
  lemma {:induction false} OdeLogBroadcast(cfg: Config, slices: seq<Slice>, w: World, t: Time, iter: nat, j: nat, n: nat)
    requires cfg.Valid() && j <= n <= |cfg.odes|
    requires OdeLog(cfg, w, t, iter, j).Ok? && !AllBroadcast(slices, OdeLog(cfg, w, t, iter, j).value.1)
    ensures OdeLog(cfg, w, t, iter, n).Ok? ==> !AllBroadcast(slices, OdeLog(cfg, w, t, iter, n).value.1)
    decreases n
  {
    if n > j {
      OdeLogBroadcast(cfg, slices, w, t, iter, j, n - 1);
      var l := OdeLog(cfg, w, t, iter, n - 1);
      if l.Ok? {
        var lp := ProcessLog(cfg, cfg.odes[n - 1], l.value.0, t, iter);
        if lp.Ok? {
          BroadcastAppend(slices, l.value.1, lp.value.1);
        }
      }
    }
  }

  /** With contiguous slices, what lands at offset `k` of target j's slice is the sum of the terms for j. */
  lemma {:induction false} AddedInSlice(slices: seq<Slice>, log: seq<Term>, j: nat, k: nat)
    requires Contiguous(slices)
    requires j < |slices| && k < slices[j].hi - slices[j].lo
    ensures AddedAt(slices, log, slices[j].lo + k) == TargetSum(log, j, k)
    decreases |log|
  {
    if |log| > 0 {
      AddedInSlice(slices, log[..|log| - 1], j, k);
      var m := log[|log| - 1].target;
      if m < |slices| && m < j {
        ContiguousDisjoint(slices, m, j);
      } else if m < |slices| && j < m {
        ContiguousDisjoint(slices, j, m);
      }
    }
  }

  /** Terms go to plain Variable targets only, so a composite target's sum is 0. */
  lemma {:induction false} TargetSumDotted(odeTargets: seq<Target>, log: seq<Term>, j: nat, k: nat)
    requires PlainTerms(odeTargets, log)
    requires j < |odeTargets| && odeTargets[j].Dotted?
    ensures TargetSum(log, j, k) == 0.0
    decreases |log|
  {
    if |log| > 0 {
      assert PlainTerms(odeTargets, log[..|log| - 1]) by {
        forall m | 0 <= m < |log| - 1 ensures log[..|log| - 1][m] == log[m] {
        }
      }
      TargetSumDotted(odeTargets, log[..|log| - 1], j, k);
    }
  }

  /** The summands the ODE processes compute while `Rhs` evaluates, none when it fails before them. */
  function RhsLog(cfg: Config, slices: seq<Slice>, w: World, iter: nat, t: Time, arr: seq<real>): seq<Term>
    requires cfg.Valid() && |slices| == |cfg.odeTargets| && Fits(slices, |arr|)
  {
    match ApplyExplicits(cfg.explicits, w, t, iter, |cfg.explicits|)
    case Err(_) => []
    case Ok(w1) =>
      match OdeLog(cfg, Unpack(cfg.odeTargets, slices, arr, w1, true, |cfg.odeTargets|), t, iter, |cfg.odes|)
      case Err(_) => []
      case Ok(l) => l.1
  }

  /**
   * The right-hand side slice by slice: with contiguous slices as wide as
   * the instance lists, offset `k` of target j's slice is the sum of the k-th
   * summands the ODE processes computed for j (none for a composite target)
   * plus the derivative accumulator of j's k-th instance.
   */
  lemma RhsAt(cfg: Config, slices: seq<Slice>, w: World, iter: nat, t: Time, arr: seq<real>, j: nat, k: nat)
    requires cfg.Valid() && |slices| == |cfg.odeTargets| && Fits(slices, |arr|) && Contiguous(slices)
    requires j < |slices| && k < slices[j].hi - slices[j].lo
    requires Rhs(cfg, slices, w, iter, t, arr).Ok?
    requires forall m :: 0 <= m < |slices| ==>
      |Instances(Rhs(cfg, slices, w, iter, t, arr).value.world, cfg.odeTargets[m].cls)| == slices[m].hi - slices[m].lo
    ensures var r := Rhs(cfg, slices, w, iter, t, arr).value;
      var target := cfg.odeTargets[j];
      r.derivs[slices[j].lo + k]
        == TargetSum(RhsLog(cfg, slices, w, iter, t, arr), j, k) + DerivOf(r.world, target.variable, Instances(r.world, target.cls)[k])
    ensures cfg.odeTargets[j].Dotted? ==> TargetSum(RhsLog(cfg, slices, w, iter, t, arr), j, k) == 0.0
  {
    var w1 := ApplyExplicits(cfg.explicits, w, t, iter, |cfg.explicits|).value;
    var w2 := Unpack(cfg.odeTargets, slices, arr, w1, true, |cfg.odeTargets|);
    var zeros := Zeros(|arr|);
    OdeTermsLog(cfg, slices, w2, zeros, t, iter, |cfg.odes|);
    var st := OdeTerms(cfg, slices, Partial(w2, zeros), t, iter, |cfg.odes|).value;
    var log := OdeLog(cfg, w2, t, iter, |cfg.odes|).value.1;
    var pos := slices[j].lo + k;
    GatherAt(cfg.odeTargets, slices, st.world, st.derivs, |cfg.odeTargets|, j, k);
    AddedInSlice(slices, log, j, k);
    if cfg.odeTargets[j].Dotted? {
      TargetSumDotted(cfg.odeTargets, log, j, k);
    }
  }

  // ----- where the right-hand side leaves the values -----

  /** Every ODE process is specified by expressions, none by a method. */
  predicate ExpressionOdes(cfg: Config)
  {
    forall m :: 0 <= m < |cfg.odes| ==> cfg.odes[m].spec.OdeExprs?
  }

  /** An expression-specified process's targets change derivative accumulators only. */
  lemma {:induction false} TargetsLogKeeps(odeTargets: seq<Target>, ptargets: seq<nat>, exprs: seq<Expr>, w: World, iter: nat, i: nat)
    requires i <= |ptargets|
    requires forall m :: 0 <= m < |ptargets| ==> ptargets[m] < |odeTargets|
    ensures var l := TargetsLog(odeTargets, ptargets, exprs, w, iter, i);
      l.Ok? ==> l.value.0.active == w.active && l.value.0.value == w.value
    decreases i
  {
    if i > 0 {
      TargetsLogKeeps(odeTargets, ptargets, exprs, w, iter, i - 1);
    }
  }

  /** With expression-specified ODE processes only, their terms change no value and no instance list. */
  lemma {:induction false} OdeLogKeeps(cfg: Config, w: World, t: Time, iter: nat, j: nat)
    requires cfg.Valid() && j <= |cfg.odes| && ExpressionOdes(cfg)
    ensures var l := OdeLog(cfg, w, t, iter, j);
      l.Ok? ==> l.value.0.active == w.active && l.value.0.value == w.value
    decreases j
  {
    if j > 0 {
      OdeLogKeeps(cfg, w, t, iter, j - 1);
      match OdeLog(cfg, w, t, iter, j - 1)
      case Err(_) =>
      case Ok(cur) =>
        var p := cfg.odes[j - 1];
        TargetsLogKeeps(cfg.odeTargets, p.targets, p.spec.exprs, cur.0, iter, |p.targets|);
    }
  }

  /**
   * With no Explicit process and only expression-specified ODE processes,
   * the right-hand side leaves the instance lists as they were and every
   * ODE target's variable at its slice of the array it was evaluated at.
   */
  lemma RhsHoldsRow(cfg: Config, slices: seq<Slice>, w: World, iter: nat, t: Time, arr: seq<real>, j: nat, k: nat)
    requires cfg.Valid() && |slices| == |cfg.odeTargets| && Fits(slices, |arr|)
    requires |cfg.explicits| == 0 && ExpressionOdes(cfg) && DistinctVariables(cfg.odeTargets)
    requires j < |cfg.odeTargets| && NoDuplicates(Instances(w, cfg.odeTargets[j].cls))
    requires k < |Instances(w, cfg.odeTargets[j].cls)| && k < slices[j].hi - slices[j].lo
    requires Rhs(cfg, slices, w, iter, t, arr).Ok?
    ensures Rhs(cfg, slices, w, iter, t, arr).value.world.active == w.active
    ensures ValueOf(Rhs(cfg, slices, w, iter, t, arr).value.world, cfg.odeTargets[j].variable, Instances(w, cfg.odeTargets[j].cls)[k])
         == arr[slices[j].lo + k]
  {
    var w2 := Unpack(cfg.odeTargets, slices, arr, w, true, |cfg.odeTargets|);
    OdeTermsLog(cfg, slices, w2, Zeros(|arr|), t, iter, |cfg.odes|);
    OdeLogKeeps(cfg, w2, t, iter, |cfg.odes|);
    UnpackValue(cfg.odeTargets, slices, arr, w, true, |cfg.odeTargets|, j, k);
  }

  // ----- a failure is final: the later steps pass it on unchanged -----

  lemma {:induction false} SetTargetsStaysFailed(targets: seq<Target>, exprs: seq<Expr>, w: World, iter: nat, i: nat, n: nat)
    requires i <= n <= |targets| && SetTargets(targets, exprs, w, iter, i).Err?
    ensures SetTargets(targets, exprs, w, iter, n) == SetTargets(targets, exprs, w, iter, i)
    decreases n
  {
    if n > i {
      SetTargetsStaysFailed(targets, exprs, w, iter, i, n - 1);
    }
  }

  lemma {:induction false} ApplyExplicitsStaysFailed(procs: seq<ExplicitProcess>, w: World, t: Time, iter: nat, j: nat, n: nat)
    requires j <= n <= |procs| && ApplyExplicits(procs, w, t, iter, j).Err?
    ensures ApplyExplicits(procs, w, t, iter, n) == ApplyExplicits(procs, w, t, iter, j)
    decreases n
  {
    if n > j {
      ApplyExplicitsStaysFailed(procs, w, t, iter, j, n - 1);
    }
  }

  lemma {:induction false} TermTargetsStaysFailed(odeTargets: seq<Target>, slices: seq<Slice>, ptargets: seq<nat>, exprs: seq<Expr>,
                                                  st: Partial, iter: nat, i: nat, n: nat)
    requires i <= n <= |ptargets|
    requires |slices| == |odeTargets| && Fits(slices, |st.derivs|)
    requires forall m :: 0 <= m < |ptargets| ==> ptargets[m] < |odeTargets|
    requires TermTargets(odeTargets, slices, ptargets, exprs, st, iter, i).Err?
    ensures TermTargets(odeTargets, slices, ptargets, exprs, st, iter, n) == TermTargets(odeTargets, slices, ptargets, exprs, st, iter, i)
    decreases n
  {
    if n > i {
      TermTargetsStaysFailed(odeTargets, slices, ptargets, exprs, st, iter, i, n - 1);
    }
  }

  lemma {:induction false} OdeTermsStaysFailed(cfg: Config, slices: seq<Slice>, st: Partial, t: Time, iter: nat, j: nat, n: nat)
    requires cfg.Valid() && j <= n <= |cfg.odes|
    requires |slices| == |cfg.odeTargets| && Fits(slices, |st.derivs|)
    requires OdeTerms(cfg, slices, st, t, iter, j).Err?
    ensures OdeTerms(cfg, slices, st, t, iter, n) == OdeTerms(cfg, slices, st, t, iter, j)
    decreases n
  {
    if n > j {
      OdeTermsStaysFailed(cfg, slices, st, t, iter, j, n - 1);
    }
  }

  lemma {:induction false} GatherStaysFailed(targets: seq<Target>, slices: seq<Slice>, w: World, d: seq<real>, j: nat, n: nat)
    requires |slices| == |targets| && Fits(slices, |d|) && j <= n <= |targets|
    requires Gather(targets, slices, w, d, j).Err?
    ensures Gather(targets, slices, w, d, n) == Gather(targets, slices, w, d, j)
    decreases n
  {
    if n > j {
      GatherStaysFailed(targets, slices, w, d, j, n - 1);
    }
  }
}
