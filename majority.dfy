/**
 * The majority-decision component's society (majority_decision society.py):
 * an explicit process that counts, for every opinion the culture allows, the
 * society's individuals holding it, and adopts the opinion with the largest
 * count, the earliest such opinion on a tie.
 */
module Majority {
  import opened Wrappers

  /** Python's `ValueError` from `max` over an empty sequence. */
  datatype MajorityError = EmptyOpinions

  /** `sum(1 for _ in filter(lambda ind: ind.opinion == o, individuals))`. */
  function Count<O(==)>(opinions: seq<O>, o: O): nat
  {
    if |opinions| == 0 then 0
    else Count(opinions[..|opinions| - 1], o) + (if opinions[|opinions| - 1] == o then 1 else 0)
  }

  /** A count is the number of individuals holding the opinion. */
  lemma {:induction false} CountIsMultiplicity<O>(opinions: seq<O>, o: O)
    ensures Count(opinions, o) == multiset(opinions)[o]
    decreases |opinions|
  {
    if |opinions| > 0 {
      var n := |opinions|;
      CountIsMultiplicity(opinions[..n - 1], o);
      assert opinions == opinions[..n - 1] + [opinions[n - 1]];
    }
  }

  /**
   * `max(..., key=itemgetter(1))`: the index of the first largest count, as
   * `max` only replaces its candidate by a strictly larger one.
   */
  function FirstMax(counts: seq<nat>): (i: nat)
    requires |counts| > 0
    ensures i < |counts|
    ensures forall j :: 0 <= j < |counts| ==> counts[j] <= counts[i]
    ensures forall j :: 0 <= j < i ==> counts[j] < counts[i]
  {
    if |counts| == 1 then 0
    else
      var k := FirstMax(counts[..|counts| - 1]);
      if counts[|counts| - 1] > counts[k] then |counts| - 1 else k
  }

  /**
   * `o` is the majority opinion among `possible`: it is one of them, no
   * possible opinion is held more often, and every opinion listed before it
   * is held strictly less often.
   */
  ghost predicate FirstMajority<O>(possible: seq<O>, opinions: seq<O>, o: O)
  {
    exists i :: 0 <= i < |possible| && possible[i] == o
      && (forall j :: 0 <= j < |possible| ==> Count(opinions, possible[j]) <= Count(opinions, o))
      && (forall j :: 0 <= j < i ==> Count(opinions, possible[j]) < Count(opinions, o))
  }

  /** There is at most one majority opinion: the tie-break makes the choice unique. */
  lemma MajorityUnique<O>(possible: seq<O>, opinions: seq<O>, o1: O, o2: O)
    requires FirstMajority(possible, opinions, o1) && FirstMajority(possible, opinions, o2)
    ensures o1 == o2
  {
    var i1 :| 0 <= i1 < |possible| && possible[i1] == o1
      && (forall j :: 0 <= j < |possible| ==> Count(opinions, possible[j]) <= Count(opinions, o1))
      && (forall j :: 0 <= j < i1 ==> Count(opinions, possible[j]) < Count(opinions, o1));
    var i2 :| 0 <= i2 < |possible| && possible[i2] == o2
      && (forall j :: 0 <= j < |possible| ==> Count(opinions, possible[j]) <= Count(opinions, o2))
      && (forall j :: 0 <= j < i2 ==> Count(opinions, possible[j]) < Count(opinions, o2));
    assert Count(opinions, possible[i1]) == Count(opinions, possible[i2]);
    assert i1 == i2;
  }

  /** The loop filling `opinion_count`: one count per possible opinion, in order. */
  method CountOpinions<O(==)>(possible: seq<O>, opinions: seq<O>) returns (counts: seq<nat>)
    ensures |counts| == |possible|
    ensures forall j :: 0 <= j < |possible| ==> counts[j] == multiset(opinions)[possible[j]]
  {
    counts := [];
    for k := 0 to |possible|
      invariant |counts| == k
      invariant forall j :: 0 <= j < k ==> counts[j] == Count(opinions, possible[j])
    {
      counts := counts + [Count(opinions, possible[k])];
    }
    forall j | 0 <= j < |possible| ensures counts[j] == multiset(opinions)[possible[j]] {
      CountIsMultiplicity(opinions, possible[j]);
    }
  }

  class Society<O(==)> {
    /** The society's current majority opinion. */
    var opinion: O
    /** The opinions of the society's individuals, in list order. */
    var individuals: seq<O>

    constructor(opinion: O, individuals: seq<O>)
      ensures this.opinion == opinion && this.individuals == individuals
    {
      this.opinion := opinion;
      this.individuals := individuals;
    }

    /**
     * `get_majority_opinion`: adopts the first most frequent of the culture's
     * `possible` opinions; with none, `max` raises and nothing is written.
     */
    method GetMajorityOpinion(possible: seq<O>) returns (err: Option<MajorityError>)
      modifies this`opinion
      ensures |possible| == 0 ==> err == Some(EmptyOpinions) && opinion == old(opinion)
      ensures |possible| > 0 ==> err.None? && FirstMajority(possible, individuals, opinion)
    {
      var counts := CountOpinions(possible, individuals);
      if |possible| == 0 {
        return Some(EmptyOpinions);
      }
      var i := FirstMax(counts);
      opinion := possible[i];
      forall j | 0 <= j < |possible| ensures Count(individuals, possible[j]) == counts[j] {
        CountIsMultiplicity(individuals, possible[j]);
      }
      assert 0 <= i < |possible| && possible[i] == opinion;
      err := None;
    }
  }
}
