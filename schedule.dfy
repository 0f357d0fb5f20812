/**
 * The discontinuity table of the runner (runner.py, lines 242, 257-318,
 * 370-373, 493-552): a dictionary from a time to the list of
 * (process, instance) firings due at that time, in insertion order.
 */
module Discontinuities {
  import opened Entities

  /** A pending (process, instance) pair; the process is an index into the Event or Step list. */
  datatype Firing = EventFiring(process: nat, inst: Inst) | StepFiring(process: nat, inst: Inst)

  type Table = map<Time, seq<Firing>>

  /** The list due at `k`, empty when `k` is not a key. */
  function Entries(table: Table, k: Time): seq<Firing>
  {
    if k in table then table[k] else []
  }

  /** `table[k].append(f)`, falling back to `table[k] = [f]` on a KeyError. */
  function Insert(table: Table, k: Time, f: Firing): (r: Table)
    ensures Entries(r, k) == Entries(table, k) + [f]
    ensures r.Keys == table.Keys + {k}
  {
    if k in table then table[k := table[k] + [f]] else table[k := [f]]
  }

  /** Inserting at `k` leaves every other key's list as it was. */
  lemma InsertElsewhere(table: Table, k: Time, f: Firing, k': Time)
    requires k' != k
    ensures Entries(Insert(table, k, f), k') == Entries(table, k')
  {
  }

  /** One registration: `f` inserted at `time`. */
  datatype Scheduled = Scheduled(time: Time, firing: Firing)

  /** The registrations `es`, inserted one after the other. */
  function InsertAll(table: Table, es: seq<Scheduled>): Table
  {
    if |es| == 0 then table
    else Insert(InsertAll(table, es[..|es| - 1]), es[|es| - 1].time, es[|es| - 1].firing)
  }

  /** The firings of `es` registered at `k`, in registration order. */
  function At(es: seq<Scheduled>, k: Time): seq<Firing>
  {
    if |es| == 0 then []
    else At(es[..|es| - 1], k) + (if es[|es| - 1].time == k then [es[|es| - 1].firing] else [])
  }

  /** The firings of `es`, in registration order. */
  function Firings(es: seq<Scheduled>): (r: seq<Firing>)
    ensures |r| == |es|
    ensures forall j :: 0 <= j < |es| ==> r[j] == es[j].firing
  {
    seq(|es|, j requires 0 <= j < |es| => es[j].firing)
  }

  function Times(es: seq<Scheduled>): set<Time>
  {
    set e | e in es :: e.time
  }

  /**
   * Registering a batch appends, at every key, exactly the batch's firings for
   * that key in batch order, and nothing at any other key.
   */
  lemma {:induction false} InsertAllEntries(table: Table, es: seq<Scheduled>, k: Time)
    ensures Entries(InsertAll(table, es), k) == Entries(table, k) + At(es, k)
    decreases |es|
  {
    if |es| > 0 {
      var n := |es|;
      var e := es[n - 1];
      var prev := InsertAll(table, es[..n - 1]);
      InsertAllEntries(table, es[..n - 1], k);
      assert InsertAll(table, es) == Insert(prev, e.time, e.firing);
      assert At(es, k) == At(es[..n - 1], k) + (if e.time == k then [e.firing] else []);
      if e.time != k {
        InsertElsewhere(prev, e.time, e.firing, k);
      }
    }
  }

  /** The keys after a batch are the old keys plus the batch's times. */
  lemma {:induction false} InsertAllKeys(table: Table, es: seq<Scheduled>)
    ensures InsertAll(table, es).Keys == table.Keys + Times(es)
    decreases |es|
  {
    if |es| > 0 {
      var n := |es|;
      InsertAllKeys(table, es[..n - 1]);
      assert es == es[..n - 1] + [es[n - 1]];
      assert Times(es) == Times(es[..n - 1]) + {es[n - 1].time};
    }
  }

  /** Every firing of `es` is registered at `k` exactly as often as `es` has it at `k`. */
  lemma {:induction false} AtCount(es: seq<Scheduled>, k: Time, f: Firing)
    ensures multiset(At(es, k))[f] == multiset(es)[Scheduled(k, f)]
    decreases |es|
  {
    if |es| > 0 {
      var n := |es|;
      AtCount(es[..n - 1], k, f);
      assert es == es[..n - 1] + [es[n - 1]];
    }
  }

  lemma PickExists(s: set<Time>)
    requires s != {}
    ensures exists k :: k in s
  {
    assert (forall k :: k !in s) ==> s == {};
  }

  /** `next` is the end of the next smooth interval: the minimum key, or `t1` with no key. */
  ghost predicate IsNextTime(table: Table, t1: Time, next: Time)
  {
    && (table.Keys == {} ==> next == t1)
    && (table.Keys != {} ==> next in table && forall k :: k in table ==> next <= k)
  }

  /** `min(next_discontinuities.keys())`, or `t_1` when `min` raises on an empty table. */
  method NextTime(table: Table, t1: Time) returns (next: Time)
    ensures table.Keys == {} ==> next == t1
    ensures table.Keys != {} ==> next in table && forall k :: k in table ==> next <= k
  {
    if table.Keys == {} {
      return t1;
    }
    PickExists(table.Keys);
    var first :| first in table.Keys;
    next := first;
    var rest := table.Keys - {first};
    while rest != {}
      invariant rest <= table.Keys
      invariant next in table
      invariant forall k :: k in table && k !in rest ==> next <= k
      decreases rest
    {
      PickExists(rest);
      var k :| k in rest;
      if k < next {
        next := k;
      }
      rest := rest - {k};
    }
  }

  /** Registering one more firing after a sequence of them. */
  lemma InsertAllSnoc(table: Table, es: seq<Scheduled>, e: Scheduled)
    ensures InsertAll(table, es + [e]) == Insert(InsertAll(table, es), e.time, e.firing)
  {
    assert (es + [e])[..|es|] == es;
  }
}
