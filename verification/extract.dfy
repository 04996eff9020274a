/** The two extractors that turn fetched vacancy records into optional salary
    ranges, one per job board. */
module Extract {
  import opened Salary

  /** A SuperJob vacancy: flat `currency`, `payment_from` and `payment_to` fields. */
  datatype SjVacancy = SjVacancy(currency: string, paymentFrom: Option<int>, paymentTo: Option<int>)

  /** A HeadHunter vacancy: a nested `salary` object, possibly `None`. */
  datatype HhVacancy = HhVacancy(salary: Option<SalaryRange>)

  /** SuperJob extraction: a vacancy whose bounds are both falsy becomes a
      `None` placeholder; any other vacancy is copied field by field. */
  function ExtractSj(vacancies: seq<SjVacancy>): (salaries: seq<Option<SalaryRange>>)
    ensures |salaries| == |vacancies|
    ensures forall i :: 0 <= i < |vacancies| ==>
      (salaries[i].None? <==> !Truthy(vacancies[i].paymentFrom) && !Truthy(vacancies[i].paymentTo))
    ensures forall i :: 0 <= i < |vacancies| && salaries[i].Some? ==>
      salaries[i].value == SalaryRange(vacancies[i].currency, vacancies[i].paymentFrom, vacancies[i].paymentTo)
  {
    if |vacancies| == 0 then []
    else
      var v := vacancies[0];
      var head := if !Truthy(v.paymentFrom) && !Truthy(v.paymentTo) then None
                  else Some(SalaryRange(v.currency, v.paymentFrom, v.paymentTo));
      [head] + ExtractSj(vacancies[1..])
  }

  /** HeadHunter extraction: a projection onto the `salary` field. */
  function ExtractHh(vacancies: seq<HhVacancy>): (salaries: seq<Option<SalaryRange>>)
    ensures |salaries| == |vacancies|
    ensures forall i :: 0 <= i < |vacancies| ==> salaries[i] == vacancies[i].salary
  {
    if |vacancies| == 0 then []
    else [vacancies[0].salary] + ExtractHh(vacancies[1..])
  }
}
