/**
 * The exodus component's social system (exodus social_system.py): the
 * population count, the step that pulls individual incomes or farm sizes
 * halfway towards the system's target mean, and the averages recomputed
 * after every step. Floats are exact reals here.
 */
module Exodus {
  import opened Wrappers

  /** The attributes of an individual that the social system reads or rescales. */
  datatype Attribute = GrossIncome | FarmSize | Liquidity | Utility

  /** An individual of the social system, as the values of its attributes. */
  datatype Person = Person(grossIncome: real, farmSize: real, liquidity: real, utility: real)

  /**
   * The value of `municipality_like`: the source tests it with `is True`,
   * `is False` and plain truthiness, so any other object is `Other`, with its
   * truth value.
   */
  datatype Kind = IsTrue | IsFalse | Other(truthy: bool)

  /** `SocialSystemTypeError`, and Python's `ZeroDivisionError`. */
  datatype ExodusError = SocialSystemTypeError | ZeroDivision

  /** The adjustment speed `factor` of both update rules. */
  const Factor: real := 0.5

  predicate Truthy(k: Kind)
  {
    match k
    case IsTrue => true
    case IsFalse => false
    case Other(b) => b
  }

  function Get(p: Person, a: Attribute): real
  {
    match a
    case GrossIncome => p.grossIncome
    case FarmSize => p.farmSize
    case Liquidity => p.liquidity
    case Utility => p.utility
  }

  /** `ind.<a> *= c`. */
  function Scale(p: Person, a: Attribute, c: real): Person
  {
    match a
    case GrossIncome => p.(grossIncome := c * p.grossIncome)
    case FarmSize => p.(farmSize := c * p.farmSize)
    case Liquidity => p.(liquidity := c * p.liquidity)
    case Utility => p.(utility := c * p.utility)
  }

  /** Every individual with attribute `a` multiplied by `c`. */
  function ScaleAll(ps: seq<Person>, a: Attribute, c: real): (r: seq<Person>)
    ensures |r| == |ps|
  {
    seq(|ps|, i requires 0 <= i < |ps| => Scale(ps[i], a, c))
  }

  /** The sum of attribute `a` over the individuals, in list order. */
  function Total(ps: seq<Person>, a: Attribute): real
  {
    if |ps| == 0 then 0.0 else Total(ps[..|ps| - 1], a) + Get(ps[|ps| - 1], a)
  }

  /** `adaption_rate + (1 - adaption_rate) * factor` with `adaption_rate = target / realMean`. */
  function Adaption(target: real, realMean: real): real
    requires realMean != 0.0
  {
    var r := target / realMean;
    r + (1.0 - r) * Factor
  }

  /**
   * What one update of attribute `a` does: with a zero population or a zero
   * sum one of the two divisions raises and nothing changes; otherwise every
   * individual's `a` is multiplied by the adaption factor.
   */
  ghost predicate Adjusted(before: seq<Person>, after: seq<Person>, a: Attribute, population: nat, target: real, err: Option<ExodusError>)
  {
    if population == 0 || Total(before, a) == 0.0 then
      err == Some(ZeroDivision) && after == before
    else
      err.None? && after == ScaleAll(before, a, Adaption(target, Total(before, a) / population as real))
  }

  /** Scaling attribute `a` scales its sum by the same factor. */
  lemma TotalScaled(ps: seq<Person>, a: Attribute, c: real)
    ensures Total(ScaleAll(ps, a, c), a) == c * Total(ps, a)
  {
    var qs := ScaleAll(ps, a, c);
    forall i | 0 <= i < |ps|
      ensures Get(qs[i], a) == c * Get(ps[i], a)
    {
    }
    TotalOfScaled(ps, qs, a, c);
  }

  /** Any individuals whose `a` values are `c` times those of `ps` have `c` times their sum. */
  lemma {:induction false} TotalOfScaled(ps: seq<Person>, qs: seq<Person>, a: Attribute, c: real)
    requires |qs| == |ps| && forall i :: 0 <= i < |ps| ==> Get(qs[i], a) == c * Get(ps[i], a)
    ensures Total(qs, a) == c * Total(ps, a)
    decreases |ps|
  {
    if |ps| > 0 {
      var n := |ps|;
      var init, qinit := ps[..n - 1], qs[..n - 1];
      ScaledPrefix(ps, qs, a, c, init, qinit);
      TotalOfScaled(init, qinit, a, c);
      Combine(c, Total(init, a), Get(ps[n - 1], a), Total(ps, a), Total(qinit, a), Total(qs, a));
    }
  }

  /** The relation `TotalOfScaled` assumes holds between the prefixes `init` and `qinit` and at the last position. */
  lemma ScaledPrefix(ps: seq<Person>, qs: seq<Person>, a: Attribute, c: real, init: seq<Person>, qinit: seq<Person>)
    requires |qs| == |ps| > 0 && forall i :: 0 <= i < |ps| ==> Get(qs[i], a) == c * Get(ps[i], a)
    requires init == ps[..|ps| - 1] && qinit == qs[..|ps| - 1]
    ensures |qinit| == |init| && forall i :: 0 <= i < |init| ==> Get(qinit[i], a) == c * Get(init[i], a)
    ensures Get(qs[|ps| - 1], a) == c * Get(ps[|ps| - 1], a)
  {
  }

  /** The inductive step of `TotalOfScaled`, on the sums alone. */
  lemma Combine(c: real, s: real, x: real, total: real, scaledInit: real, scaledTotal: real)
    requires total == s + x && scaledInit == c * s && scaledTotal == scaledInit + c * x
    ensures scaledTotal == c * total
  {
  }

  /** Scaling attribute `a` leaves every other attribute of every individual as it was. */
  lemma ScaleKeepsOthers(ps: seq<Person>, a: Attribute, c: real, b: Attribute, i: nat)
    requires b != a && i < |ps|
    ensures Get(ScaleAll(ps, a, c)[i], b) == Get(ps[i], b)
  {
  }

  /** The ratio between any two individuals' values of `a` is kept. */
  lemma ScaleKeepsRatios(ps: seq<Person>, a: Attribute, c: real, i: nat, j: nat)
    requires i < |ps| && j < |ps|
    ensures Get(ScaleAll(ps, a, c)[i], a) * Get(ps[j], a) == Get(ScaleAll(ps, a, c)[j], a) * Get(ps[i], a)
  {
    var x, y := Get(ps[i], a), Get(ps[j], a);
    assert Get(ScaleAll(ps, a, c)[i], a) == c * x;
    assert Get(ScaleAll(ps, a, c)[j], a) == c * y;
    assert (c * x) * y == (c * y) * x;
  }

  /** The adaption factor moves a mean `m` halfway to the target. */
  lemma AdaptionHalfway(target: real, m: real)
    requires m != 0.0
    ensures Adaption(target, m) * m == (m + target) / 2.0
  {
    var r := target / m;
    assert r * m == target;
    assert Adaption(target, m) == (r + 1.0) / 2.0;
    assert (r + 1.0) / 2.0 * m == (r * m + m) / 2.0;
  }

  /** At the target the factor is 1, so a system already at its target mean is left alone. */
  lemma AdaptionAtTarget(m: real)
    requires m != 0.0
    ensures Adaption(m, m) == 1.0
  {
  }

  /**
   * With `population == len(individuals)`, an update moves the mean of `a`
   * halfway from its old value to the target mean.
   */
  lemma AdjustedMean(ps: seq<Person>, a: Attribute, target: real)
    requires |ps| > 0 && Total(ps, a) != 0.0
    ensures var m := Total(ps, a) / |ps| as real;
      Total(ScaleAll(ps, a, Adaption(target, m)), a) / |ps| as real == (m + target) / 2.0
  {
    var n := |ps| as real;
    var total := Total(ps, a);
    var m := total / n;
    var c := Adaption(target, m);
    TotalScaled(ps, a, c);
    MeanNonZero(total, n);
    AdaptionHalfway(target, m);
    ScaledMean(c, total, n);
  }

  lemma MeanNonZero(total: real, n: real)
    requires total != 0.0 && n > 0.0
    ensures total / n != 0.0
  {
  }

  lemma ScaledMean(c: real, total: real, n: real)
    requires n > 0.0
    ensures c * total / n == c * (total / n)
  {
  }

  /** Bounds on every value of `a` bound the sum. */
  lemma {:induction false} TotalBounds(ps: seq<Person>, a: Attribute, lo: real, hi: real)
    requires forall i :: 0 <= i < |ps| ==> lo <= Get(ps[i], a) <= hi
    ensures |ps| as real * lo <= Total(ps, a) <= |ps| as real * hi
    decreases |ps|
  {
    if |ps| > 0 {
      var n := |ps|;
      var init := ps[..n - 1];
      BoundedPrefix(ps, a, lo, hi, init);
      TotalBounds(init, a, lo, hi);
      StepBounds(|ps| as real, |init| as real, lo, hi, Total(init, a), Get(ps[n - 1], a), Total(ps, a));
    }
  }

  /** The bounds hold for the prefix `init` as well. */
  lemma BoundedPrefix(ps: seq<Person>, a: Attribute, lo: real, hi: real, init: seq<Person>)
    requires |ps| > 0 && init == ps[..|ps| - 1]
    requires forall i :: 0 <= i < |ps| ==> lo <= Get(ps[i], a) <= hi
    ensures forall i :: 0 <= i < |init| ==> lo <= Get(init[i], a) <= hi
  {
  }

  /** The inductive step of `TotalBounds`, on the sums alone. */
  lemma StepBounds(m: real, k: real, lo: real, hi: real, s: real, x: real, total: real)
    requires k == m - 1.0 && k * lo <= s <= k * hi && lo <= x <= hi && total == s + x
    ensures m * lo <= total <= m * hi
  {
  }

  /** With `population == len(individuals)`, an average lies between the smallest and largest value. */
  lemma AverageWithin(ps: seq<Person>, a: Attribute, lo: real, hi: real)
    requires |ps| > 0
    requires forall i :: 0 <= i < |ps| ==> lo <= Get(ps[i], a) <= hi
    ensures lo <= Total(ps, a) / |ps| as real <= hi
  {
    TotalBounds(ps, a, lo, hi);
    var n := |ps| as real;
    assert Total(ps, a) / n * n == Total(ps, a);
  }

  /** `update_timing`: the next update is one time unit later, so strictly after `t`. */
  function UpdateTiming(t: real): (next: real)
    ensures next > t
    ensures next - t == 1.0
  {
    t + 1.0
  }

  class SocialSystem {
    var individuals: seq<Person>
    var population: nat
    var isActive: bool
    var municipalityLike: Kind
    var meanIncomeOrFarmsize: real
    var averageLiquidity: real
    var averageUtility: real

    constructor(municipalityLike: Kind, individuals: seq<Person>, population: nat, meanIncomeOrFarmsize: real)
      ensures this.municipalityLike == municipalityLike && this.individuals == individuals
      ensures this.population == population && this.meanIncomeOrFarmsize == meanIncomeOrFarmsize
      ensures isActive
    {
      this.municipalityLike := municipalityLike;
      this.individuals := individuals;
      this.population := population;
      this.meanIncomeOrFarmsize := meanIncomeOrFarmsize;
      isActive := true;
      averageLiquidity := 0.0;
      averageUtility := 0.0;
    }

    /**
     * `calc_population`: the number of individuals, or 1 for a system that
     * died out, which is deactivated; afterwards the averages cannot divide
     * by zero.
     */
    method CalcPopulation()
      modifies this`population, this`isActive
      ensures |individuals| == 0 ==> !isActive && population == 1
      ensures |individuals| > 0 ==> isActive == old(isActive) && population == |individuals|
      ensures population >= 1
    {
      if |individuals| == 0 {
        isActive := false;
        population := 1;
      } else {
        population := |individuals|;
      }
    }

    /** The loop `sum += ind.<a>` over the individuals. */
    method SumOf(a: Attribute) returns (sum: real)
      ensures sum == Total(individuals, a)
    {
      sum := 0.0;
      for k := 0 to |individuals|
        invariant sum == Total(individuals[..k], a)
      {
        assert individuals[..k + 1][..k] == individuals[..k];
        sum := sum + Get(individuals[k], a);
      }
      assert individuals[..|individuals|] == individuals;
    }

    /** The shared body of `update_incomes` and `update_farmsizes`, after the type check. */
    method Adjust(a: Attribute) returns (err: Option<ExodusError>)
      modifies this`individuals
      ensures Adjusted(old(individuals), individuals, a, population, meanIncomeOrFarmsize, err)
    {
      var sum := SumOf(a);
      if population == 0 || sum == 0.0 {
        return Some(ZeroDivision);
      }
      var realMean := sum / population as real;
      var adaption := Adaption(meanIncomeOrFarmsize, realMean);
      ghost var before := individuals;
      for k := 0 to |individuals|
        invariant |individuals| == |before|
        invariant forall i :: 0 <= i < k ==> individuals[i] == Scale(before[i], a, adaption)
        invariant forall i :: k <= i < |before| ==> individuals[i] == before[i]
      {
        individuals := individuals[k := Scale(individuals[k], a, adaption)];
      }
      assert individuals == ScaleAll(before, a, adaption);
      err := None;
    }

    /** `update_incomes`: only a municipality (`is True`) adjusts its incomes. */
    method UpdateIncomes() returns (err: Option<ExodusError>)
      modifies this`individuals
      ensures municipalityLike != IsTrue ==> err == Some(SocialSystemTypeError) && individuals == old(individuals)
      ensures municipalityLike == IsTrue ==> Adjusted(old(individuals), individuals, GrossIncome, population, meanIncomeOrFarmsize, err)
    {
      if municipalityLike != IsTrue {
        return Some(SocialSystemTypeError);
      }
      err := Adjust(GrossIncome);
    }

    /** `update_farmsizes`: only a county (`is False`) adjusts its farm sizes. */
    method UpdateFarmsizes() returns (err: Option<ExodusError>)
      modifies this`individuals
      ensures municipalityLike != IsFalse ==> err == Some(SocialSystemTypeError) && individuals == old(individuals)
      ensures municipalityLike == IsFalse ==> Adjusted(old(individuals), individuals, FarmSize, population, meanIncomeOrFarmsize, err)
    {
      if municipalityLike != IsFalse {
        return Some(SocialSystemTypeError);
      }
      err := Adjust(FarmSize);
    }

    /** `do_update`: the step's action, dispatching on the kind of an active system. */
    method DoUpdate() returns (err: Option<ExodusError>)
      modifies this`individuals
      ensures !isActive ==> err.None? && individuals == old(individuals)
      ensures isActive && municipalityLike == IsTrue ==>
        Adjusted(old(individuals), individuals, GrossIncome, population, meanIncomeOrFarmsize, err)
      ensures isActive && municipalityLike == IsFalse ==>
        Adjusted(old(individuals), individuals, FarmSize, population, meanIncomeOrFarmsize, err)
      ensures isActive && municipalityLike.Other? ==>
        err == Some(SocialSystemTypeError) && individuals == old(individuals)
    {
      err := None;
      if isActive {
        if municipalityLike == IsTrue {
          err := UpdateIncomes();
        } else if municipalityLike == IsFalse {
          err := UpdateFarmsizes();
        } else {
          err := Some(SocialSystemTypeError);
        }
      }
    }

    /**
     * The county branch of `calculate_mean_income_or_farmsize`: each direct
     * cell in turn overwrites the mean with its land area per head, so the
     * last cell's value stays.
     */
    method CalculateMeanIncomeOrFarmsize(landAreas: seq<real>) returns (err: Option<ExodusError>)
      modifies this`meanIncomeOrFarmsize
      ensures !isActive ==> err.None? && meanIncomeOrFarmsize == old(meanIncomeOrFarmsize)
      ensures isActive && !Truthy(municipalityLike) && |landAreas| == 0 ==>
        err.None? && meanIncomeOrFarmsize == old(meanIncomeOrFarmsize)
      ensures isActive && !Truthy(municipalityLike) && |landAreas| > 0 && population == 0 ==>
        err == Some(ZeroDivision) && meanIncomeOrFarmsize == old(meanIncomeOrFarmsize)
      ensures isActive && !Truthy(municipalityLike) && |landAreas| > 0 && population > 0 ==>
        err.None? && meanIncomeOrFarmsize == landAreas[|landAreas| - 1] / population as real
    {
      err := None;
      if isActive && !Truthy(municipalityLike) {
        for k := 0 to |landAreas|
          invariant k == 0 ==> meanIncomeOrFarmsize == old(meanIncomeOrFarmsize)
          invariant k > 0 ==> population > 0 && meanIncomeOrFarmsize == landAreas[k - 1] / population as real
        {
          if population == 0 {
            return Some(ZeroDivision);
          }
          meanIncomeOrFarmsize := landAreas[k] / population as real;
        }
      }
    }

    /** `calculate_average_liquidity`: the liquidity per head when active, 1 otherwise. */
    method CalculateAverageLiquidity() returns (err: Option<ExodusError>)
      modifies this`averageLiquidity
      ensures !isActive ==> err.None? && averageLiquidity == 1.0
      ensures isActive && population == 0 ==> err == Some(ZeroDivision) && averageLiquidity == old(averageLiquidity)
      ensures isActive && population > 0 ==> err.None? && averageLiquidity == Total(individuals, Liquidity) / population as real
    {
      if isActive {
        var sum := SumOf(Liquidity);
        if population == 0 {
          return Some(ZeroDivision);
        }
        averageLiquidity := sum / population as real;
      } else {
        averageLiquidity := 1.0;
      }
      err := None;
    }

    /** `calculate_average_utility`: the utility per head, written only when active. */
    method CalculateAverageUtility() returns (err: Option<ExodusError>)
      modifies this`averageUtility
      ensures !isActive ==> err.None? && averageUtility == old(averageUtility)
      ensures isActive && population == 0 ==> err == Some(ZeroDivision) && averageUtility == old(averageUtility)
      ensures isActive && population > 0 ==> err.None? && averageUtility == Total(individuals, Utility) / population as real
    {
      err := None;
      if isActive {
        var sum := SumOf(Utility);
        if population == 0 {
          return Some(ZeroDivision);
        }
        averageUtility := sum / population as real;
      }
    }
  }
}
