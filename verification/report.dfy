/** Per-language assembly for both job boards and the rows of the report
    table, starting from vacancies that have already been fetched. */
module Report {
  import opened Salary
  import opened Extract
  import opened Normalise
  import opened Aggregate

  /** What the collector gathered for one language: every fetched item and
      the total the job board reported. */
  datatype Fetched<V> = Fetched(items: seq<V>, vacanciesFound: int)

  /** The per-language record `{vacancies_found, vacancies_processed, average_salary}`. */
  datatype LanguageStats = LanguageStats(vacanciesFound: int, vacanciesProcessed: nat, averageSalary: int)

  /** A salary the aggregator counts: a ruble range with a non-zero estimate. */
  predicate Usable(salary: Option<SalaryRange>)
  {
    salary.Some? && IsRuble(salary.value.currency)
    && Estimate(salary.value).Success? && Estimate(salary.value).value != 0.0
  }

  /** Sum of the estimates of the usable salaries. */
  function SumUsable(salaries: seq<Option<SalaryRange>>): real
  {
    if |salaries| == 0 then 0.0
    else (if Usable(salaries[0]) then Estimate(salaries[0].value).value else 0.0) + SumUsable(salaries[1..])
  }

  /** The aggregator's counter over the normalised list is the number of
      usable salaries: placeholders, dropped currencies and zero estimates
      are not counted. */
  lemma {:induction false} ProcessedCountsUsable(salaries: seq<Option<SalaryRange>>)
    requires RubAverages(salaries).Success?
    ensures TruthyCount(RubAverages(salaries).value) == Count(salaries, Usable)
  {
    if |salaries| > 0 {
      var head := Contribution(salaries[0]).value;
      var tail := RubAverages(salaries[1..]).value;
      ProcessedCountsUsable(salaries[1..]);
      TruthyCountAppend(head, tail);
      if |head| == 1 {
        assert head[..0] == [];
      } else {
        assert head == [];
      }
    }
  }

  /** The aggregator's sum over the normalised list is the sum of the
      estimates of the usable salaries. */
  lemma {:induction false} ProcessedSumUsable(salaries: seq<Option<SalaryRange>>)
    requires RubAverages(salaries).Success?
    ensures TruthySum(RubAverages(salaries).value) == SumUsable(salaries)
  {
    if |salaries| > 0 {
      var head := Contribution(salaries[0]).value;
      var tail := RubAverages(salaries[1..]).value;
      ProcessedSumUsable(salaries[1..]);
      TruthySumAppend(head, tail);
      if |head| == 1 {
        assert head[..0] == [];
      } else {
        assert head == [];
      }
    }
  }

  /** The record of a language cannot be built from `salaries`: a ruble
      salary raises, or no salary is usable and the average divides by zero. */
  predicate RecordFails(salaries: seq<Option<SalaryRange>>)
  {
    SomeCrash(salaries) || Count(salaries, Usable) == 0
  }

  /** `stats` is the record of a language with reported total `found` and
      extracted `salaries`: the total is copied, the processed count is the
      number of usable salaries, and the average is the floor of the mean of
      their estimates. */
  predicate Summarises(stats: LanguageStats, found: int, salaries: seq<Option<SalaryRange>>)
  {
    && stats.vacanciesFound == found
    && 0 < stats.vacanciesProcessed == Count(salaries, Usable) <= |salaries|
    && IsFloorMean(stats.averageSalary, stats.vacanciesProcessed, SumUsable(salaries))
  }

  /** The body of the per-language loop once salaries are extracted:
      normalise, aggregate, and pair the result with the reported total. */
  function LanguageStatsOf(found: int, salaries: seq<Option<SalaryRange>>): (r: Result<LanguageStats>)
    ensures r.Failure? <==> SomeCrash(salaries) || Count(salaries, Usable) == 0
    ensures r.Failure? ==> r.error == (if SomeCrash(salaries) then TypeError else ZeroDivisionError)
    ensures r.Success? ==> r.value.vacanciesFound == found
    ensures r.Success? ==> 0 < r.value.vacanciesProcessed == Count(salaries, Usable) <= |salaries|
    ensures r.Success? ==> IsFloorMean(r.value.averageSalary, r.value.vacanciesProcessed, SumUsable(salaries))
  {
    match RubAverages(salaries)
    case Failure(e) => Failure(e)
    case Success(es) =>
      ProcessedCountsUsable(salaries);
      ProcessedSumUsable(salaries);
      match AverageSalary(es)
      case Failure(e) => Failure(e)
      case Success(a) => Success(LanguageStats(found, a.counter, a.average))
  }

  /** HeadHunter per-language record from the fetched items: it raises
      TypeError when a ruble salary cannot be estimated, ZeroDivisionError
      when none is usable, and otherwise summarises the items' salaries. */
  function HhLanguageStats(f: Fetched<HhVacancy>): (r: Result<LanguageStats>)
    ensures r.Failure? <==> RecordFails(ExtractHh(f.items))
    ensures r.Failure? ==>
      r.error == (if SomeCrash(ExtractHh(f.items)) then TypeError else ZeroDivisionError)
    ensures r.Success? ==> Summarises(r.value, f.vacanciesFound, ExtractHh(f.items))
  {
    LanguageStatsOf(f.vacanciesFound, ExtractHh(f.items))
  }

  /** SuperJob per-language record from the fetched items. The TypeError of
      the normaliser cannot happen here, because the extractor already turned
      every record without a truthy bound into a placeholder: the record fails
      only by dividing by zero, exactly when no salary is usable. */
  function SjLanguageStats(f: Fetched<SjVacancy>): (r: Result<LanguageStats>)
    ensures r.Failure? <==> Count(ExtractSj(f.items), Usable) == 0
    ensures r.Failure? ==> r.error == ZeroDivisionError
    ensures r.Success? ==> Summarises(r.value, f.vacanciesFound, ExtractSj(f.items))
  {
    var salaries := ExtractSj(f.items);
    assert !SomeCrash(salaries);
    LanguageStatsOf(f.vacanciesFound, salaries)
  }

  /** A bound that is missing or not negative, as job boards report them. */
  predicate NonNegative(bound: Option<int>)
  {
    bound.None? || bound.value >= 0
  }

  /** A SuperJob vacancy that passes both checks: ruble currency and at least
      one truthy bound. */
  predicate SjAccepted(v: SjVacancy)
  {
    IsRuble(v.currency) && (Truthy(v.paymentFrom) || Truthy(v.paymentTo))
  }

  lemma {:induction false} CountUsableSj(vacancies: seq<SjVacancy>)
    requires forall i :: 0 <= i < |vacancies| ==>
      NonNegative(vacancies[i].paymentFrom) && NonNegative(vacancies[i].paymentTo)
    ensures Count(ExtractSj(vacancies), Usable) == Count(vacancies, SjAccepted)
  {
    if |vacancies| > 0 {
      var v := vacancies[0];
      assert ExtractSj(vacancies)[1..] == ExtractSj(vacancies[1..]);
      CountUsableSj(vacancies[1..]);
      var s := ExtractSj(vacancies)[0];
      if s.Some? && IsRuble(v.currency) {
        var e := Estimate(s.value);
        if Truthy(v.paymentFrom) && Truthy(v.paymentTo) {
          assert 2.0 * e.value > 0.0;
        } else if !Truthy(v.paymentFrom) {
          assert 5.0 * e.value > 0.0;
        } else {
          assert 5.0 * e.value > 0.0;
        }
      }
    }
  }

  /** With non-negative payments, SuperJob's processed count is exactly the
      number of fetched vacancies in rubles with at least one non-zero bound,
      and the record fails (by dividing by zero) exactly when there is none. */
  lemma SjProcessedIsAccepted(f: Fetched<SjVacancy>)
    requires forall i :: 0 <= i < |f.items| ==>
      NonNegative(f.items[i].paymentFrom) && NonNegative(f.items[i].paymentTo)
    ensures SjLanguageStats(f).Failure? <==> Count(f.items, SjAccepted) == 0
    ensures SjLanguageStats(f).Success? ==>
      SjLanguageStats(f).value.vacanciesProcessed == Count(f.items, SjAccepted)
  {
    CountUsableSj(f.items);
  }

  /** On the HeadHunter path the TypeError is reachable: a ruble salary whose
      lower bound is zero and whose upper bound is missing. */
  lemma HhTypeErrorExample()
    ensures HhLanguageStats(Fetched([HhVacancy(Some(SalaryRange("RUR", Some(0), None)))], 1))
      == Failure(TypeError)
  {
  }

  /** A language whose record cannot be built: it was not collected, or
      building its record raised. */
  predicate Fails<V>(l: string, fetched: map<string, Fetched<V>>, stats: Fetched<V> -> Result<LanguageStats>)
  {
    l !in fetched || stats(fetched[l]).Failure?
  }

  /** The error a failing language raises. */
  function ErrorFor<V>(l: string, fetched: map<string, Fetched<V>>, stats: Fetched<V> -> Result<LanguageStats>): Error
    requires Fails(l, fetched, stats)
  {
    if l !in fetched then KeyError(l) else stats(fetched[l]).error
  }

  /** The per-language loop shared by both job boards: one record per
      language, each built from that language's own fetched items only; the
      first language that raises aborts the loop with its error. */
  function ByLanguage<V>(languages: seq<string>, fetched: map<string, Fetched<V>>,
                         stats: Fetched<V> -> Result<LanguageStats>): (r: Result<map<string, LanguageStats>>)
    ensures r.Success? <==> forall l :: l in languages ==> !Fails(l, fetched, stats)
    ensures r.Success? ==> r.value.Keys == set l | l in languages
    ensures r.Success? ==> forall l :: l in languages ==> r.value[l] == stats(fetched[l]).value
    ensures r.Failure? ==>
      exists i :: 0 <= i < |languages| && Fails(languages[i], fetched, stats)
        && (forall j :: 0 <= j < i ==> !Fails(languages[j], fetched, stats))
        && r.error == ErrorFor(languages[i], fetched, stats)
  {
    if |languages| == 0 then Success(map[])
    else
      var l := languages[0];
      if l !in fetched then
        assert l in languages;
        Failure(KeyError(l))
      else match stats(fetched[l])
        case Failure(e) =>
          assert l in languages && Fails(l, fetched, stats);
          Failure(e)
        case Success(s) =>
          match ByLanguage(languages[1..], fetched, stats)
          case Failure(e) =>
            var i :| 0 <= i < |languages[1..]| && Fails(languages[1..][i], fetched, stats)
              && (forall j :: 0 <= j < i ==> !Fails(languages[1..][j], fetched, stats))
              && e == ErrorFor(languages[1..][i], fetched, stats);
            assert languages[i + 1] == languages[1..][i];
            assert forall j :: 1 <= j < i + 1 ==> languages[j] == languages[1..][j - 1];
            Failure(e)
          case Success(m) =>
            assert forall k :: k in languages <==> k == l || k in languages[1..];
            Success(m[l := s])
  }

  /** `hh_get_salary_by_language` after collection: it succeeds exactly when
      every language was collected and its record builds, and then each
      language's record summarises its own fetched salaries. */
  function HhSalaryByLanguage(languages: seq<string>, fetched: map<string, Fetched<HhVacancy>>)
    : (r: Result<map<string, LanguageStats>>)
    ensures r.Success? <==> forall l :: l in languages ==>
      l in fetched && !RecordFails(ExtractHh(fetched[l].items))
    ensures r.Success? ==> r.value.Keys == set l | l in languages
    ensures r.Success? ==> forall l :: l in languages ==>
      l in fetched && Summarises(r.value[l], fetched[l].vacanciesFound, ExtractHh(fetched[l].items))
  {
    ByLanguage(languages, fetched, HhLanguageStats)
  }

  /** `sj_get_salary_by_language` after collection: it succeeds exactly when
      every language was collected and has a usable salary, then each
      language's record summarises its own fetched salaries; a failure is a
      missing language or a division by zero, never a TypeError. */
  function SjSalaryByLanguage(languages: seq<string>, fetched: map<string, Fetched<SjVacancy>>)
    : (r: Result<map<string, LanguageStats>>)
    ensures r.Success? <==> forall l :: l in languages ==>
      l in fetched && Count(ExtractSj(fetched[l].items), Usable) > 0
    ensures r.Success? ==> r.value.Keys == set l | l in languages
    ensures r.Success? ==> forall l :: l in languages ==>
      l in fetched && Summarises(r.value[l], fetched[l].vacanciesFound, ExtractSj(fetched[l].items))
    ensures r.Failure? ==> r.error.KeyError? || r.error == ZeroDivisionError
  {
    ByLanguage(languages, fetched, SjLanguageStats)
  }

  /** A table cell: a header or language name, or a number. */
  datatype Cell = Text(text: string) | Number(number: int)

  /** One row of the four-column table. */
  datatype Row = Row(language: Cell, found: Cell, processed: Cell, salary: Cell)

  /** The fixed header row. */
  const Header := Row(Text("Язык программирования"), Text("Вакансий найдено"),
                      Text("Вакансий обработано"), Text("Средняя зарплата"))

  /** The row of one language. */
  function StatsRow(language: string, s: LanguageStats): Row
  {
    Row(Text(language), Number(s.vacanciesFound), Number(s.vacanciesProcessed), Number(s.averageSalary))
  }

  /** The data rows, one per language in the given order; a language with no
      record raises KeyError. */
  function DataRows(packed: map<string, LanguageStats>, languages: seq<string>): (r: Result<seq<Row>>)
    ensures r.Success? <==> forall l :: l in languages ==> l in packed
    ensures r.Failure? ==>
      exists i :: 0 <= i < |languages| && languages[i] !in packed
        && (forall j :: 0 <= j < i ==> languages[j] in packed)
        && r.error == KeyError(languages[i])
    ensures r.Success? ==> |r.value| == |languages|
    ensures r.Success? ==> forall i :: 0 <= i < |languages| ==>
      r.value[i] == StatsRow(languages[i], packed[languages[i]])
  {
    if |languages| == 0 then Success([])
    else if languages[0] !in packed then Failure(KeyError(languages[0]))
    else
      match DataRows(packed, languages[1..])
      case Failure(e) =>
        var i :| 0 <= i < |languages[1..]| && languages[1..][i] !in packed
          && (forall j :: 0 <= j < i ==> languages[1..][j] in packed)
          && e == KeyError(languages[1..][i]);
        assert forall j :: 1 <= j < i + 1 ==> languages[j] == languages[1..][j - 1];
        Failure(e)
      case Success(rows) =>
        assert forall k :: k in languages <==> k == languages[0] || k in languages[1..];
        Success([StatsRow(languages[0], packed[languages[0]])] + rows)
  }

  /** The list `create_table` hands to the table renderer: the header row,
      then exactly one row per language in the given order. */
  function TableRows(packed: map<string, LanguageStats>, languages: seq<string>): (r: Result<seq<Row>>)
    ensures r.Success? <==> forall l :: l in languages ==> l in packed
    ensures r.Failure? ==>
      exists i :: 0 <= i < |languages| && languages[i] !in packed
        && (forall j :: 0 <= j < i ==> languages[j] in packed)
        && r.error == KeyError(languages[i])
    ensures r.Success? ==> |r.value| == |languages| + 1 && r.value[0] == Header
    ensures r.Success? ==> forall i :: 0 <= i < |languages| ==>
      r.value[i + 1] == StatsRow(languages[i], packed[languages[i]])
  {
    match DataRows(packed, languages)
    case Failure(e) => Failure(e)
    case Success(rows) => Success([Header] + rows)
  }

  /** End to end: when every language's record is built, the table never
      misses a key, and row i + 1 reports language i's collected total and
      its own processed count and average. */
  lemma PipelineTable<V>(languages: seq<string>, fetched: map<string, Fetched<V>>,
                         stats: Fetched<V> -> Result<LanguageStats>)
    requires ByLanguage(languages, fetched, stats).Success?
    ensures TableRows(ByLanguage(languages, fetched, stats).value, languages).Success?
    ensures forall i :: 0 <= i < |languages| ==>
      TableRows(ByLanguage(languages, fetched, stats).value, languages).value[i + 1]
        == StatsRow(languages[i], stats(fetched[languages[i]]).value)
  {
  }
}
