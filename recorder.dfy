/**
 * The trajectory recorder `save_to_traj` (runner.py, lines 580-640): for each
 * target it appends the current value of every active instance whose series is
 * shorter than the time axis, starts a first-seen instance with padding, and
 * pads the series of idle instances up to the length of the time axis.
 */
module TrajectoryRecorder {
  import opened Wrappers
  import opened Entities
  import opened ArrayLayout

  /** One (variable, instance) series; `None` is the padding marker. */
  type Series<V> = seq<Option<V>>

  /** `trajectory_dict[var]`: the series of one variable, per instance. */
  type VarSeries<V> = map<Inst, Series<V>>

  function Nones<V>(n: nat): (r: Series<V>)
    ensures |r| == n
    ensures forall k :: 0 <= k < n ==> r[k] == None
  {
    seq(n, k => None)
  }

  /** Lines 606-619 for one active instance holding value `x`. */
  function RecordActive<V>(m: VarSeries<V>, inst: Inst, x: V, tlen: nat): VarSeries<V>
    requires tlen >= 1
  {
    if inst in m then
      if |m[inst]| < tlen then m[inst := m[inst] + [Some(x)]] else m
    else
      m[inst := Nones(tlen - 1) + [Some(x)]]
  }

  /** Lines 605-619: the active instances in order, with their values. */
  function RecordAll<V>(m: VarSeries<V>, insts: seq<Inst>, xs: seq<V>, tlen: nat): VarSeries<V>
    requires |xs| == |insts| && tlen >= 1
  {
    if |insts| == 0 then m
    else
      var n := |insts|;
      RecordActive(RecordAll(m, insts[..n - 1], xs[..n - 1], tlen), insts[n - 1], xs[n - 1], tlen)
  }

  /** Lines 625-635 for one idle instance, with a new series made of `tlen` padding markers. */
  function PadIdle<V>(m: VarSeries<V>, inst: Inst, tlen: nat): VarSeries<V>
  {
    if inst in m then
      if |m[inst]| < tlen then m[inst := m[inst] + Nones(tlen - |m[inst]|)] else m
    else
      m[inst := Nones(tlen)]
  }

  function PadAll<V>(m: VarSeries<V>, insts: seq<Inst>, tlen: nat): VarSeries<V>
  {
    if |insts| == 0 then m
    else PadIdle(PadAll(m, insts[..|insts| - 1], tlen), insts[|insts| - 1], tlen)
  }

  /** The idle instances of class `c`: its deactivated entities, none for a process taxon. */
  function Idle(w: World, c: ClassId): seq<Inst>
  {
    if c in w.idle then w.idle[c] else []
  }

  /** Lines 594-635 for one target, on the series of its variable. */
  function SaveTarget(m: VarSeries<real>, w: World, target: Target, tlen: nat): VarSeries<real>
    requires tlen >= 1
  {
    var active := Instances(w, target.cls);
    var recorded := RecordAll(m, active, Values(w, target.variable, active), tlen);
    PadAll(recorded, Idle(w, target.cls), tlen)
  }

  function SeriesOf(series: map<VarId, VarSeries<real>>, v: VarId): VarSeries<real>
  {
    if v in series then series[v] else map[]
  }

  /** Lines 591-635: every target in order. */
  function SaveAll(series: map<VarId, VarSeries<real>>, w: World, targets: seq<Target>, tlen: nat): map<VarId, VarSeries<real>>
    requires tlen >= 1
  {
    if |targets| == 0 then series
    else
      var before := SaveAll(series, w, targets[..|targets| - 1], tlen);
      var target := targets[|targets| - 1];
      before[target.variable := SaveTarget(SeriesOf(before, target.variable), w, target, tlen)]
  }

  // ----- properties -----

  /** Every series has one entry per recorded time point, or lacks only the newest one. */
  ghost predicate NearlyAligned<V>(m: VarSeries<V>, tlen: nat)
  {
    forall i :: i in m ==> tlen <= |m[i]| + 1 && |m[i]| <= tlen
  }

  lemma {:induction false} RecordAllFrame<V>(m: VarSeries<V>, insts: seq<Inst>, xs: seq<V>, tlen: nat, i: Inst)
    requires |xs| == |insts| && tlen >= 1
    requires i !in insts
    ensures (i in RecordAll(m, insts, xs, tlen)) == (i in m)
    ensures i in m ==> RecordAll(m, insts, xs, tlen)[i] == m[i]
    decreases |insts|
  {
    if |insts| > 0 {
      var n := |insts|;
      assert i != insts[n - 1];
      assert i !in insts[..n - 1];
      RecordAllFrame(m, insts[..n - 1], xs[..n - 1], tlen, i);
    }
  }

  /**
   * For duplicate-free active instances, the series of the k-th instance is
   * extended by its own value exactly when it is shorter than the time axis,
   * and a first-seen instance gets `tlen - 1` padding markers before its value.
   */
  lemma {:induction false} RecordAllAt<V>(m: VarSeries<V>, insts: seq<Inst>, xs: seq<V>, tlen: nat, k: nat)
    requires |xs| == |insts| && tlen >= 1
    requires NoDuplicates(insts)
    requires k < |insts|
    ensures insts[k] in RecordAll(m, insts, xs, tlen)
    ensures RecordAll(m, insts, xs, tlen)[insts[k]]
         == if insts[k] !in m then Nones(tlen - 1) + [Some(xs[k])]
            else if |m[insts[k]]| < tlen then m[insts[k]] + [Some(xs[k])]
            else m[insts[k]]
    decreases |insts|
  {
    var n := |insts|;
    var prefix := insts[..n - 1];
    if k == n - 1 {
      assert insts[n - 1] !in prefix by {
        forall j | 0 <= j < n - 1 ensures prefix[j] != insts[n - 1] {
          assert prefix[j] == insts[j];
        }
      }
      RecordAllFrame(m, prefix, xs[..n - 1], tlen, insts[n - 1]);
    } else {
      assert prefix[k] == insts[k] && xs[..n - 1][k] == xs[k];
      RecordAllAt(m, prefix, xs[..n - 1], tlen, k);
      assert insts[k] != insts[n - 1];
    }
  }

  /** Recording preserves near-alignment and completes the series of every active instance. */
  lemma {:induction false} RecordAllAligned<V>(m: VarSeries<V>, insts: seq<Inst>, xs: seq<V>, tlen: nat)
    requires |xs| == |insts| && tlen >= 1
    requires NearlyAligned(m, tlen)
    ensures NearlyAligned(RecordAll(m, insts, xs, tlen), tlen)
    ensures forall i :: i in m ==> i in RecordAll(m, insts, xs, tlen)
    ensures forall i :: i in insts ==> i in RecordAll(m, insts, xs, tlen) && |RecordAll(m, insts, xs, tlen)[i]| == tlen
    decreases |insts|
  {
    if |insts| > 0 {
      var n := |insts|;
      RecordAllAligned(m, insts[..n - 1], xs[..n - 1], tlen);
      forall i | i in insts
        ensures i in RecordAll(m, insts, xs, tlen) && |RecordAll(m, insts, xs, tlen)[i]| == tlen
      {
        if i != insts[n - 1] {
          var j :| 0 <= j < n && insts[j] == i;
          assert insts[..n - 1][j] == i;
        }
      }
    }
  }

  lemma {:induction false} PadAllAligned<V>(m: VarSeries<V>, insts: seq<Inst>, tlen: nat)
    requires NearlyAligned(m, tlen)
    ensures NearlyAligned(PadAll(m, insts, tlen), tlen)
    ensures forall i :: i in m ==> i in PadAll(m, insts, tlen)
    ensures forall i :: i in insts ==> i in PadAll(m, insts, tlen) && |PadAll(m, insts, tlen)[i]| == tlen
    ensures forall i :: i in m && i !in insts ==> PadAll(m, insts, tlen)[i] == m[i]
    ensures forall i :: i in PadAll(m, insts, tlen) ==> i in m || i in insts
    decreases |insts|
  {
    if |insts| > 0 {
      var n := |insts|;
      PadAllAligned(m, insts[..n - 1], tlen);
      forall i | i in insts
        ensures i in PadAll(m, insts, tlen) && |PadAll(m, insts, tlen)[i]| == tlen
      {
        if i != insts[n - 1] {
          var j :| 0 <= j < n && insts[j] == i;
          assert insts[..n - 1][j] == i;
        }
      }
      forall i | i in PadAll(m, insts, tlen) ensures i in m || i in insts {
        if i != insts[n - 1] && i !in m {
          assert i in insts[..n - 1];
        }
      }
    }
  }

  /**
   * Saving one target at a time axis of length `tlen` when every series lacks
   * at most the newest point: afterwards every active and every idle instance
   * of the target's class has exactly `tlen` entries, and series of other
   * instances are left as they were.
   */
  lemma SaveTargetAligned(m: VarSeries<real>, w: World, target: Target, tlen: nat)
    requires tlen >= 1
    requires NearlyAligned(m, tlen)
    ensures NearlyAligned(SaveTarget(m, w, target, tlen), tlen)
    ensures forall i :: i in Instances(w, target.cls) || i in Idle(w, target.cls) ==>
      i in SaveTarget(m, w, target, tlen) && |SaveTarget(m, w, target, tlen)[i]| == tlen
    ensures forall i :: i in SaveTarget(m, w, target, tlen) ==>
      i in m || i in Instances(w, target.cls) || i in Idle(w, target.cls)
  {
    var active := Instances(w, target.cls);
    var xs := Values(w, target.variable, active);
    var recorded := RecordAll(m, active, xs, tlen);
    RecordAllAligned(m, active, xs, tlen);
    PadAllAligned(recorded, Idle(w, target.cls), tlen);
    forall i | i in recorded ensures i in m || i in active {
      if i !in active {
        RecordAllFrame(m, active, xs, tlen, i);
      }
    }
  }

  // ----- findings in lines 598-600, 623 and 638-640 -----

  /**
   * Line 639 as written: a first-seen idle instance gets the one-element list
   * `[none_list]`, whose only entry is the whole padding list.
   */
  function NewIdleSeriesAsWritten<V>(tlen: nat): seq<Series<V>>
  {
    [Nones(tlen)]
  }

  /** Unless exactly one time point is recorded, the assertion of line 640 fails. */
  lemma NewIdleSeriesAsWrittenMisaligned<V>(tlen: nat)
    requires tlen != 1
    ensures |NewIdleSeriesAsWritten<V>(tlen)| != tlen
  {
  }

  /**
   * The value of `idle_instances` when target j reaches line 623, as written:
   * it is only bound for entity classes (lines 598-600), so a process-taxon
   * target sees the binding left by the latest earlier entity target, and
   * `None` stands for the local never having been bound (an UnboundLocalError).
   */
  function IdleBindingAsWritten(w: World, targets: seq<Target>, j: nat): Option<seq<Inst>>
    requires j < |targets|
  {
    if targets[j].cls in w.idle then Some(w.idle[targets[j].cls])
    else if j == 0 then None
    else IdleBindingAsWritten(w, targets, j - 1)
  }

  /**
   * As written, a process-taxon target right after an entity target pads its
   * variable's series with the idle entities of that other class, although
   * its own class has none; a taxon target listed first reads an unbound local.
   */
  lemma IdleBindingAsWrittenLeaks(w: World, targets: seq<Target>, j: nat)
    requires j < |targets| && targets[j].cls !in w.idle
    ensures j == 0 ==> IdleBindingAsWritten(w, targets, j) == None
    ensures j > 0 && targets[j - 1].cls in w.idle ==>
      IdleBindingAsWritten(w, targets, j) == Some(w.idle[targets[j - 1].cls]) && Idle(w, targets[j].cls) == []
  {
  }

  /** The corrected recorder pads with the idle instances of the target's own class only. */
  lemma SaveTargetPadsOwnClass(m: VarSeries<real>, w: World, target: Target, tlen: nat, i: Inst)
    requires tlen >= 1
    requires i !in Instances(w, target.cls) && i !in Idle(w, target.cls)
    ensures (i in SaveTarget(m, w, target, tlen)) == (i in m)
    ensures i in m ==> SaveTarget(m, w, target, tlen)[i] == m[i]
  {
    var active := Instances(w, target.cls);
    var xs := Values(w, target.variable, active);
    RecordAllFrame(m, active, xs, tlen, i);
    PadAllFrame(RecordAll(m, active, xs, tlen), Idle(w, target.cls), tlen, i);
  }

  lemma {:induction false} PadAllFrame<V>(m: VarSeries<V>, insts: seq<Inst>, tlen: nat, i: Inst)
    requires i !in insts
    ensures (i in PadAll(m, insts, tlen)) == (i in m)
    ensures i in m ==> PadAll(m, insts, tlen)[i] == m[i]
    decreases |insts|
  {
    if |insts| > 0 {
      assert i !in insts[..|insts| - 1];
      PadAllFrame(m, insts[..|insts| - 1], tlen, i);
    }
  }

  /** The corrected first-seen idle series is made of `tlen` padding markers. */
  lemma NewIdleSeriesAligned<V>(m: VarSeries<V>, inst: Inst, tlen: nat)
    requires inst !in m
    ensures PadIdle(m, inst, tlen)[inst] == Nones(tlen)
    ensures |PadIdle(m, inst, tlen)[inst]| == tlen
  {
  }

  // ----- saving the ODE solver's output (runner.py, lines 436-458) -----

  /** Recorded values, none of them padding. */
  function Somes<V>(xs: seq<V>): (r: Series<V>)
    ensures |r| == |xs| && forall k :: 0 <= k < |xs| ==> r[k] == Some(xs[k])
  {
    seq(|xs|, k requires 0 <= k < |xs| => Some(xs[k]))
  }

  /**
   * `ode_trajectory[:, c]`: column `c` of the solver's rows; indexing fails
   * when there are no rows (the array is then one-dimensional) or when `c`
   * lies beyond a row.
   */
  function Column(rows: seq<seq<real>>, c: nat): (r: Result<seq<real>, Failure>)
    ensures r.Ok? <==> |rows| > 0 && forall p :: 0 <= p < |rows| ==> c < |rows[p]|
    ensures r.Ok? ==> |r.value| == |rows| && forall p :: 0 <= p < |rows| ==> r.value[p] == rows[p][c]
  {
    if |rows| > 0 && forall p :: 0 <= p < |rows| ==> c < |rows[p]| then
      Ok(seq(|rows|, p requires 0 <= p < |rows| && c < |rows[p]| => rows[p][c]))
    else Err(ShapeMismatch)
  }

  /**
   * One instance's column: appended to a known series shorter than the time
   * axis, ignored for a series already that long, and stored as it is, with
   * no padding, for an instance seen for the first time.
   */
  function RecordColumn<V>(m: VarSeries<V>, inst: Inst, col: seq<V>, tlen: nat): VarSeries<V>
  {
    if inst in m then
      if |m[inst]| < tlen then m[inst := m[inst] + Somes(col)] else m
    else
      m[inst := Somes(col)]
  }

  /** The first `k` instances of one ODE target, whose columns start at `lo`. */
  function SaveColumns(m: VarSeries<real>, insts: seq<Inst>, lo: nat, rows: seq<seq<real>>, tlen: nat, k: nat): Result<VarSeries<real>, Failure>
    requires k <= |insts|
  {
    if k == 0 then Ok(m)
    else
      match SaveColumns(m, insts, lo, rows, tlen, k - 1)
      case Err(e) => Err(e)
      case Ok(cur) =>
        match Column(rows, lo + (k - 1))
        case Err(e) => Err(e)
        case Ok(col) => Ok(RecordColumn(cur, insts[k - 1], col, tlen))
  }

  /** The first `j` ODE targets, each over the active instances of its class. */
  function SaveOde(series: map<VarId, VarSeries<real>>, w: World, targets: seq<Target>, slices: seq<Slice>,
                   rows: seq<seq<real>>, tlen: nat, j: nat): Result<map<VarId, VarSeries<real>>, Failure>
    requires |slices| == |targets| && j <= |targets|
  {
    if j == 0 then Ok(series)
    else
      match SaveOde(series, w, targets, slices, rows, tlen, j - 1)
      case Err(e) => Err(e)
      case Ok(cur) =>
        var target := targets[j - 1];
        var insts := Instances(w, target.cls);
        match SaveColumns(SeriesOf(cur, target.variable), insts, slices[j - 1].lo, rows, tlen, |insts|)
        case Err(e) => Err(e)
        case Ok(m) => Ok(cur[target.variable := m])
  }

  lemma {:induction false} SaveColumnsFrame(m: VarSeries<real>, insts: seq<Inst>, lo: nat, rows: seq<seq<real>>, tlen: nat, k: nat, i: Inst)
    requires k <= |insts|
    requires i !in insts[..k]
    ensures SaveColumns(m, insts, lo, rows, tlen, k).Ok? ==>
      var r := SaveColumns(m, insts, lo, rows, tlen, k).value;
      (i in r <==> i in m) && (i in m ==> r[i] == m[i])
    decreases k
  {
    if k > 0 {
      assert insts[..k - 1] <= insts[..k];
      assert insts[..k][k - 1] == insts[k - 1];
      SaveColumnsFrame(m, insts, lo, rows, tlen, k - 1, i);
    }
  }

  /**
   * The instance at position `p` of an ODE target receives column `lo + p` of
   * the solver's rows: a series that was aligned with the time axis before the
   * `|rows|` new time points were appended is extended by exactly that column
   * and is aligned again.
   */
  lemma {:induction false} SaveColumnsAt(m: VarSeries<real>, insts: seq<Inst>, lo: nat, rows: seq<seq<real>>, tlen: nat, k: nat, p: nat)
    requires k <= |insts| && p < k && NoDuplicates(insts)
    requires |rows| >= 1 && tlen >= |rows|
    requires insts[p] in m && |m[insts[p]]| == tlen - |rows|
    ensures SaveColumns(m, insts, lo, rows, tlen, k).Ok? ==>
      && Column(rows, lo + p).Ok?
      && var r := SaveColumns(m, insts, lo, rows, tlen, k).value;
      && insts[p] in r
      && r[insts[p]] == m[insts[p]] + Somes(Column(rows, lo + p).value)
      && |r[insts[p]]| == tlen
    decreases k
  {
    if SaveColumns(m, insts, lo, rows, tlen, k).Ok? {
      if p == k - 1 {
        assert insts[p] !in insts[..k - 1];
        SaveColumnsFrame(m, insts, lo, rows, tlen, k - 1, insts[p]);
      } else {
        SaveColumnsAt(m, insts, lo, rows, tlen, k - 1, p);
        assert insts[k - 1] != insts[p];
      }
    }
  }

  lemma {:induction false} SaveColumnsStaysFailed(m: VarSeries<real>, insts: seq<Inst>, lo: nat, rows: seq<seq<real>>, tlen: nat, k: nat, n: nat)
    requires k <= n <= |insts| && SaveColumns(m, insts, lo, rows, tlen, k).Err?
    ensures SaveColumns(m, insts, lo, rows, tlen, n) == SaveColumns(m, insts, lo, rows, tlen, k)
    decreases n
  {
    if n > k {
      SaveColumnsStaysFailed(m, insts, lo, rows, tlen, k, n - 1);
    }
  }

  lemma {:induction false} SaveOdeStaysFailed(series: map<VarId, VarSeries<real>>, w: World, targets: seq<Target>, slices: seq<Slice>,
                                              rows: seq<seq<real>>, tlen: nat, j: nat, n: nat)
    requires |slices| == |targets| && j <= n <= |targets|
    requires SaveOde(series, w, targets, slices, rows, tlen, j).Err?
    ensures SaveOde(series, w, targets, slices, rows, tlen, n) == SaveOde(series, w, targets, slices, rows, tlen, j)
    decreases n
  {
    if n > j {
      SaveOdeStaysFailed(series, w, targets, slices, rows, tlen, j, n - 1);
    }
  }
}
