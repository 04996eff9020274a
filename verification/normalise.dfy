/** The normaliser: each optional salary range becomes one ruble estimate, a
    `None` placeholder, or nothing at all. */
module Normalise {
  import opened Salary

  /** The single-value estimate of a range, by which bounds are truthy: the
      midpoint of two bounds, 0.8 of a lone upper bound, 1.2 of a lone lower
      bound. A falsy lower bound with no upper bound at all multiplies `None`
      by 0.8, which raises a TypeError. */
  function Estimate(s: SalaryRange): (r: Result<real>)
    ensures r.Failure? <==> !Truthy(s.from) && s.to.None?
    ensures r.Failure? ==> r.error == TypeError
    ensures Truthy(s.from) && Truthy(s.to) ==>
      r.Success? && 2.0 * r.value == (s.from.value + s.to.value) as real
    ensures !Truthy(s.from) && s.to.Some? ==>
      r.Success? && 5.0 * r.value == 4.0 * s.to.value as real
    ensures Truthy(s.from) && !Truthy(s.to) ==>
      r.Success? && 5.0 * r.value == 6.0 * s.from.value as real
  {
    if Truthy(s.from) && Truthy(s.to) then
      Success((s.from.value + s.to.value) as real / 2.0)
    else if !Truthy(s.from) then
      if s.to.None? then Failure(TypeError) else Success(s.to.value as real * 0.8)
    else
      Success(s.from.value as real * 1.2)
  }

  /** A present range in a currency other than the ruble is dropped. */
  predicate Foreign(salary: Option<SalaryRange>)
  {
    salary.Some? && !IsRuble(salary.value.currency)
  }

  /** A ruble range whose estimate raises. */
  predicate Crashes(salary: Option<SalaryRange>)
  {
    salary.Some? && IsRuble(salary.value.currency) && Estimate(salary.value).Failure?
  }

  /** Some ruble range in the list cannot be estimated. */
  predicate SomeCrash(salaries: seq<Option<SalaryRange>>)
  {
    exists i :: 0 <= i < |salaries| && Crashes(salaries[i])
  }

  /** What one salary adds to the output: a placeholder, nothing, or one estimate. */
  function Contribution(salary: Option<SalaryRange>): (r: Result<seq<Option<real>>>)
    ensures r.Failure? <==> Crashes(salary)
    ensures r.Success? ==> |r.value| == (if Foreign(salary) then 0 else 1)
    ensures salary.None? ==> r == Success([None])
    ensures r.Success? && |r.value| == 1 && salary.Some? ==>
      r.value[0] == Some(Estimate(salary.value).value)
  {
    match salary
    case None => Success([None])
    case Some(s) =>
      if !IsRuble(s.currency) then Success([])
      else match Estimate(s)
        case Failure(e) => Failure(e)
        case Success(v) => Success([Some(v)])
  }

  /** An entry that is `None`. */
  predicate Missing<T>(x: Option<T>)
  {
    x.None?
  }

  /** The normaliser: concatenates every salary's contribution, in order, and
      fails with TypeError as soon as one ruble range cannot be estimated. */
  function RubAverages(salaries: seq<Option<SalaryRange>>): (r: Result<seq<Option<real>>>)
    ensures r.Failure? <==> SomeCrash(salaries)
    ensures r.Failure? ==> r.error == TypeError
    ensures r.Success? ==> |r.value| == |salaries| - Count(salaries, Foreign)
  {
    if |salaries| == 0 then Success([])
    else
      match Contribution(salaries[0])
      case Failure(e) => Failure(e)
      case Success(head) =>
        match RubAverages(salaries[1..])
        case Failure(e) =>
          var i :| 0 <= i < |salaries| - 1 && Crashes(salaries[1..][i]);
          assert Crashes(salaries[i + 1]);
          Failure(e)
        case Success(tail) =>
          assert forall i :: 1 <= i < |salaries| ==> salaries[i] == salaries[1..][i - 1];
          Success(head + tail)
  }

  /** Reference definition of the filter step: the entries that are not
      dropped for their currency, in their original order. */
  function Kept(salaries: seq<Option<SalaryRange>>): (ks: seq<Option<SalaryRange>>)
    ensures |ks| == |salaries| - Count(salaries, Foreign)
    ensures forall k :: k in ks ==> k in salaries && !Foreign(k)
  {
    if |salaries| == 0 then []
    else if Foreign(salaries[0]) then Kept(salaries[1..])
    else [salaries[0]] + Kept(salaries[1..])
  }

  /** Reference definition of the map step on a kept entry. */
  function Placeholder(salary: Option<SalaryRange>): Option<real>
    requires !Crashes(salary) && !Foreign(salary)
  {
    match salary
    case None => None
    case Some(s) => Some(Estimate(s).value)
  }

  /** `out` is `kept` with each entry mapped to its placeholder or estimate. */
  predicate MapsKept(out: seq<Option<real>>, kept: seq<Option<SalaryRange>>)
  {
    |out| == |kept| &&
    forall i :: 0 <= i < |kept| ==>
      !Crashes(kept[i]) && !Foreign(kept[i]) && out[i] == Placeholder(kept[i])
  }

  /** The normaliser is "filter out foreign currencies, then map each kept
      entry to its placeholder or estimate": output position i corresponds to
      the i-th kept input, so relative order is preserved. */
  lemma {:induction false} RubAveragesFilterThenMap(salaries: seq<Option<SalaryRange>>)
    requires RubAverages(salaries).Success?
    ensures MapsKept(RubAverages(salaries).value, Kept(salaries))
  {
    if |salaries| > 0 {
      var tail := salaries[1..];
      RubAveragesFilterThenMap(tail);
      var out := RubAverages(salaries).value;
      var rest := RubAverages(tail).value;
      var head := Contribution(salaries[0]).value;
      assert out == head + rest;
      if !Foreign(salaries[0]) {
        var kept := Kept(salaries);
        assert kept == [salaries[0]] + Kept(tail);
        assert head == [Placeholder(salaries[0])];
        forall i | 0 <= i < |kept|
          ensures !Crashes(kept[i]) && !Foreign(kept[i]) && out[i] == Placeholder(kept[i])
        {
          if i > 0 {
            assert kept[i] == Kept(tail)[i - 1];
            assert out[i] == rest[i - 1];
          }
        }
      }
    }
  }

  /** `None` placeholders pass through unchanged in number: every missing
      salary yields exactly one `None`, and no estimate is `None`. */
  lemma {:induction false} PlaceholdersPreserved(salaries: seq<Option<SalaryRange>>)
    requires RubAverages(salaries).Success?
    ensures Count(RubAverages(salaries).value, Missing) == Count(salaries, Missing)
  {
    if |salaries| > 0 {
      var tail := salaries[1..];
      PlaceholdersPreserved(tail);
      CountAppend(Contribution(salaries[0]).value, RubAverages(tail).value, Missing);
    }
  }

  /** The worked examples of the normaliser, including the one where a ruble
      range with no bounds at all raises instead of yielding "no data". */
  lemma EstimateExamples()
    ensures Estimate(SalaryRange("rub", Some(100000), Some(200000))) == Success(150000.0)
    ensures Estimate(SalaryRange("RUR", None, Some(100000))) == Success(80000.0)
    ensures Estimate(SalaryRange("RUR", Some(100000), None)) == Success(120000.0)
    ensures Estimate(SalaryRange("RUR", Some(0), Some(0))) == Success(0.0)
    ensures Estimate(SalaryRange("RUR", None, None)) == Failure(TypeError)
    ensures RubAverages([Some(SalaryRange("USD", Some(1000), None))]) == Success([])
  {
  }
}
