/** Shared vocabulary of the salary pipeline: optional values, the errors the
    pipeline can raise, salary ranges and the notion of a "truthy" bound. */
module Salary {

  /** An optional value; `None` plays the role of the program's `None`. */
  datatype Option<T> = None | Some(value: T)

  /** The exceptions the pipeline can raise once vacancies are fetched. */
  datatype Error =
    | TypeError          // `None * 0.8` when the upper bound is missing
    | ZeroDivisionError  // averaging over no truthy estimate
    | KeyError(key: string)  // a language absent from a per-language dictionary

  /** Either a value or the error that aborted the computation. */
  datatype Result<T> = Success(value: T) | Failure(error: Error)

  /** A salary record `{currency, from, to}`; either bound may be missing. */
  datatype SalaryRange = SalaryRange(currency: string, from: Option<int>, to: Option<int>)

  /** A bound counts as present only when it is set and non-zero, the way a
      Python `if bound:` test reads an integer or `None`. */
  predicate Truthy(bound: Option<int>)
  {
    bound.Some? && bound.value != 0
  }

  /** The two spellings of the ruble currency code that are accepted, compared
      as exact strings. */
  predicate IsRuble(currency: string)
  {
    currency == "RUR" || currency == "rub"
  }

  /** Number of elements of `xs` that satisfy `p`. */
  function Count<T>(xs: seq<T>, p: T -> bool): (n: nat)
    ensures n <= |xs|
  {
    if |xs| == 0 then 0
    else (if p(xs[0]) then 1 else 0) + Count(xs[1..], p)
  }

  /** Counting distributes over concatenation. */
  lemma {:induction false} CountAppend<T>(xs: seq<T>, ys: seq<T>, p: T -> bool)
    ensures Count(xs + ys, p) == Count(xs, p) + Count(ys, p)
  {
    if |xs| > 0 {
      assert (xs + ys)[1..] == xs[1..] + ys;
      CountAppend(xs[1..], ys, p);
    } else {
      assert xs + ys == ys;
    }
  }
}
