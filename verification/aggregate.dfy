/** The aggregator: the number of truthy estimates and the floor of their mean. */
module Aggregate {
  import opened Salary

  /** An estimate is counted when it is present and non-zero, the way a
      Python `if salary:` test reads a float or `None`. */
  predicate Counted(e: Option<real>)
  {
    e.Some? && e.value != 0.0
  }

  /** Number of counted estimates. */
  function TruthyCount(es: seq<Option<real>>): (n: nat)
    ensures n <= |es|
    ensures n == 0 <==> forall i :: 0 <= i < |es| ==> !Counted(es[i])
    decreases |es|
  {
    if |es| == 0 then 0
    else TruthyCount(es[..|es| - 1]) + (if Counted(es[|es| - 1]) then 1 else 0)
  }

  /** Sum of the counted estimates. */
  function TruthySum(es: seq<Option<real>>): real
    decreases |es|
  {
    if |es| == 0 then 0.0
    else TruthySum(es[..|es| - 1]) + (if Counted(es[|es| - 1]) then es[|es| - 1].value else 0.0)
  }

  /** The pair `(average, counter)` the aggregator returns. */
  datatype AverageAndCount = AverageAndCount(average: int, counter: nat)

  lemma FloorBounds(s: real, n: nat)
    requires n > 0
    ensures (s / n as real).Floor as real * n as real <= s
    ensures s < ((s / n as real).Floor + 1) as real * (n as real)
  {
    var m := n as real;
    var q := s / m;
    var f := q.Floor as real;
    var g := (q.Floor + 1) as real;
    assert g == f + 1.0;
    assert q * m == s;
    assert f * m <= q * m;
    assert q < g;
    assert q * m < g * m;
    assert s < g * m;
  }

  /** `average` is the floor of `sum / count`: the largest integer whose
      product with `count` does not exceed `sum`. */
  predicate IsFloorMean(average: int, count: nat, sum: real)
  {
    average as real * count as real <= sum < (average + 1) as real * count as real
  }

  /** The aggregator: counts the truthy estimates and returns the largest
      integer whose product with that count does not exceed their sum, i.e.
      the floor of the mean. With nothing to count it divides by zero. */
  function AverageSalary(es: seq<Option<real>>): (r: Result<AverageAndCount>)
    ensures r.Failure? <==> forall i :: 0 <= i < |es| ==> !Counted(es[i])
    ensures r.Failure? ==> r.error == ZeroDivisionError
    ensures r.Success? ==> 0 < r.value.counter == TruthyCount(es) <= |es|
    ensures r.Success? ==> IsFloorMean(r.value.average, r.value.counter, TruthySum(es))
  {
    var n := TruthyCount(es);
    if n == 0 then Failure(ZeroDivisionError)
    else
      FloorBounds(TruthySum(es), n);
      Success(AverageAndCount((TruthySum(es) / n as real).Floor, n))
  }

  /** The aggregator as the program writes it: one pass that accumulates the
      sum and the counter, then a floor division. */
  method AverageSalaryLoop(es: seq<Option<real>>) returns (r: Result<AverageAndCount>)
    ensures r == AverageSalary(es)
  {
    var sum := 0.0;
    var counter := 0;
    var i := 0;
    while i < |es|
      invariant 0 <= i <= |es|
      invariant sum == TruthySum(es[..i])
      invariant counter == TruthyCount(es[..i])
    {
      assert es[..i + 1][..i] == es[..i];
      if es[i].Some? && es[i].value != 0.0 {
        sum := sum + es[i].value;
        counter := counter + 1;
      }
      i := i + 1;
    }
    assert es[..i] == es;
    if counter == 0 {
      return Failure(ZeroDivisionError);
    }
    r := Success(AverageAndCount((sum / counter as real).Floor, counter));
  }

  /** Counting distributes over concatenation. */
  lemma {:induction false} TruthyCountAppend(xs: seq<Option<real>>, ys: seq<Option<real>>)
    ensures TruthyCount(xs + ys) == TruthyCount(xs) + TruthyCount(ys)
    decreases |ys|
  {
    if |ys| == 0 {
      assert xs + ys == xs;
    } else {
      var ys' := ys[..|ys| - 1];
      assert (xs + ys)[..|xs + ys| - 1] == xs + ys';
      TruthyCountAppend(xs, ys');
    }
  }

  /** Summing distributes over concatenation. */
  lemma {:induction false} TruthySumAppend(xs: seq<Option<real>>, ys: seq<Option<real>>)
    ensures TruthySum(xs + ys) == TruthySum(xs) + TruthySum(ys)
    decreases |ys|
  {
    if |ys| == 0 {
      assert xs + ys == xs;
    } else {
      var ys' := ys[..|ys| - 1];
      assert (xs + ys)[..|xs + ys| - 1] == xs + ys';
      TruthySumAppend(xs, ys');
    }
  }

  /** Worked examples: placeholders are skipped, and a list with only
      placeholders and zeros divides by zero. */
  lemma AverageSalaryExamples()
    ensures AverageSalary([Some(100.0), Some(200.0), None, Some(300.0)]) == Success(AverageAndCount(200, 3))
    ensures AverageSalary([Some(0.0), None]) == Failure(ZeroDivisionError)
  {
    var e1 := [Some(100.0)];
    var e2 := e1 + [Some(200.0)];
    var e3 := e2 + [None];
    var e4 := e3 + [Some(300.0)];
    assert e1[..0] == [] && e2[..1] == e1 && e3[..2] == e2 && e4[..3] == e3;
    assert TruthySum(e1) == 100.0 && TruthyCount(e1) == 1;
    assert TruthySum(e2) == 300.0 && TruthyCount(e2) == 2;
    assert TruthySum(e3) == 300.0 && TruthyCount(e3) == 2;
    assert TruthySum(e4) == 600.0 && TruthyCount(e4) == 3;
    assert e4 == [Some(100.0), Some(200.0), None, Some(300.0)];
    assert (600.0 / 3 as real).Floor == 200;
    assert !Counted(Some(0.0));
  }
}
