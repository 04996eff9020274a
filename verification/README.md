# Language salary collector — salary pipeline model

A Dafny model of the salary pipeline of `language-salary.py`, the script that
collects programming-language vacancies from HeadHunter and SuperJob and
reports, per language, how many vacancies were found, how many had a usable
ruble salary, and their average salary. The model starts after the vacancies
have been fetched; from there every step is pure:

- `Salary` (salary.dfy): optional values, the exceptions the pipeline can raise
  (`TypeError`, `ZeroDivisionError`, `KeyError`), the `{currency, from, to}`
  salary record, Python truthiness of a bound (`None` and `0` are falsy), and the
  two accepted ruble spellings `"RUR"` and `"rub"`.
- `Extract` (extract.dfy): the SuperJob and HeadHunter extractors.
- `Normalise` (normalise.dfy): `get_rub_average_salaries` — one estimate, one
  `None` placeholder, or nothing per salary; the 1/2, 0.8 and 1.2 rule.
- `Aggregate` (aggregate.dfy): `get_average_salary` — count of truthy
  estimates and the floor of their mean, both as a recursive definition and as
  the program's single accumulating loop.
- `Report` (report.dfy): the per-language loop bodies of
  `hh_get_salary_by_language` / `sj_get_salary_by_language`, shared as one
  loop parameterised by the per-language step, and the row list built by
  `create_table`.

Exceptions are modelled as a `Result` whose failure carries the Python
exception; nothing is a precondition. Bounds are `Option<int>`, estimates are
exact `real`s, and `int(x // n)` on the sum is `.Floor` of the exact quotient.

The code behaves as follows where a reader might expect otherwise:

- A ruble salary whose lower bound is falsy and whose upper bound is `None`
  is not treated as a missing salary: the code evaluates `None * 0.8` and
  raises `TypeError` (line 125). On the SuperJob path this cannot happen,
  because the extractor has already turned every record without a truthy
  bound into a placeholder (`SjLanguageStats`); on the HeadHunter path it can
  (`HhTypeErrorExample`).
- A missing salary becomes a `None` placeholder before the currency is looked
  at, while a present salary in another currency is dropped entirely.
- A falsy lower bound with an upper bound of `0` yields the estimate `0.0`,
  which the aggregator then skips as falsy.

## Model

| member | source | states |
|---|---|---|
| `Extract.ExtractSj` | language-salary.py:49-66 | same length as the input; entry i is `None` exactly when both payment bounds of vacancy i are falsy, and otherwise carries its currency and bounds unchanged |
| `Extract.ExtractHh` | language-salary.py:102-107 | same length as the input; entry i is exactly vacancy i's `salary` field, `None` included |
| `Normalise.Estimate` | language-salary.py:121-128 | the three estimate branches are exhaustive: it fails (with TypeError) exactly when `from` is falsy and `to` is `None`; two truthy bounds give a value twice which is their sum, a lone upper bound gives four fifths of it, a lone truthy lower bound gives six fifths of it |
| `Normalise.Contribution` | language-salary.py:113-128 | a missing salary adds one `None`, a non-ruble salary adds nothing, a ruble salary adds exactly its estimate or raises |
| `Normalise.Kept` | language-salary.py:118-119 | the entries that survive the currency filter: their number is the input length minus the non-ruble count, and each is a non-foreign input entry |
| `Normalise.RubAverages` | language-salary.py:110-130 | fails with TypeError exactly when some ruble salary cannot be estimated; otherwise the output length is the input length minus the number of non-ruble salaries |
| `Normalise.RubAveragesFilterThenMap` | language-salary.py:113-128 | the normaliser equals "filter out other currencies, then map each kept entry to `None` or its estimate", so relative order is preserved |
| `Normalise.PlaceholdersPreserved` | language-salary.py:114-116 | the output has exactly as many `None` placeholders as the input has missing salaries |
| `Normalise.EstimateExamples` | language-salary.py:121-128 | worked values: rub 100000..200000 gives 150000, RUR upper 100000 gives 80000, RUR lower 100000 gives 120000, RUR 0..0 gives 0, RUR with no bounds raises TypeError, a USD salary is dropped |
| `Aggregate.TruthyCount` | language-salary.py:137-140 | the counter never exceeds the list length, and is zero exactly when no entry is truthy |
| `Aggregate.AverageSalary` | language-salary.py:133-143 | raises ZeroDivisionError exactly when no entry is truthy; otherwise the counter is the number of truthy entries and the average is the integer whose product with the counter is at most the truthy sum and whose successor's product exceeds it (the floor of the mean) |
| `Aggregate.AverageSalaryLoop` | language-salary.py:133-143 | the program's single accumulating loop computes the same result as the recursive definition |
| `Aggregate.AverageSalaryExamples` | language-salary.py:133-143 | worked values: `[100, 200, None, 300]` gives average 200 over 3, and `[0, None]` divides by zero |
| `Report.ProcessedCountsUsable` | language-salary.py:113-143 | the aggregator's counter over the normalised list equals the number of ruble salaries with a non-zero estimate |
| `Report.ProcessedSumUsable` | language-salary.py:137-139 | the aggregator's sum over the normalised list equals the sum of the estimates of the usable salaries |
| `Report.LanguageStatsOf` | language-salary.py:156-164 | the per-language record copies the reported total, its processed count is exactly the number of usable salaries (at least one, at most the number of items), and its average is the floor of the mean of their estimates; it fails with TypeError when a ruble salary crashes, else with ZeroDivisionError when none is usable |
| `Report.HhLanguageStats` | language-salary.py:152-164 | HeadHunter record: fails exactly when a ruble salary crashes (TypeError) or none is usable (ZeroDivisionError); otherwise the found total is copied, the processed count is the number of usable salaries, and the average is the floor of their mean estimate |
| `Report.SjLanguageStats` | language-salary.py:175-187 | SuperJob record: fails exactly when no salary is usable, and then only by dividing by zero, never with TypeError; otherwise the same found total, processed count and floor-of-mean average as for HeadHunter |
| `Report.SjProcessedIsAccepted` | language-salary.py:175-187 | with non-negative payments, SuperJob's processed count is exactly the number of ruble vacancies with a non-zero bound, and the record fails exactly when there is none |
| `Report.HhTypeErrorExample` | language-salary.py:124-125 | a HeadHunter ruble salary with lower bound 0 and no upper bound raises TypeError |
| `Report.ByLanguage` | language-salary.py:151-166 | succeeds exactly when every language was collected and its record builds; the result has exactly the given languages as keys, each mapped to the record built from its own items alone; otherwise the error is that of the first failing language |
| `Report.HhSalaryByLanguage` | language-salary.py:146-166 | succeeds exactly when every language was collected and its record builds; then the keys are exactly the languages, and each record copies that language's found total, counts its usable salaries and averages them (floor of the mean) |
| `Report.SjSalaryByLanguage` | language-salary.py:169-189 | succeeds exactly when every language was collected and has a usable salary; then each record is as for HeadHunter; a failure is a missing language or a division by zero |
| `Report.DataRows` | language-salary.py:196-204 | one row `(language, found, processed, salary)` per language in the given order, or KeyError for the first language without a record |
| `Report.TableRows` | language-salary.py:192-204 | the fixed four-column header followed by exactly one row per language, in order; otherwise KeyError for the first language without a record |
| `Report.PipelineTable` | language-salary.py:196-204 | after a successful per-language loop the table never misses a key, and row i + 1 reports language i's own record |

## Left out

- Vacancy collection (`collect_vacancies_sj`, `collect_vacancies_hh`): HTTP requests, the API key from the environment, `raise_for_status` and pagination driven by totals the remote server reports. The model takes their output (`Fetched`: items and reported total per language) as input.
- `AsciiTable` rendering and the title argument of `create_table`, all printing, `load_dotenv` and the `__main__` block with its fixed language list: library calls and I/O.
- Normalise.Estimate: uses exact reals, not IEEE-754 doubles, so `/ 2`, `* 0.8` and `* 1.2` do not round.
- Aggregate.AverageSalary: the floor is taken of the exact mean rather than of a floating-point sum divided by the counter.
- Report.SjProcessedIsAccepted: assumes non-negative payments; with a negative bound the midpoint can be zero and that vacancy is not counted.
- Report.ByLanguage: the per-language record has named fields; the reliance of `create_table` on the insertion order of the record dictionary's values is not modelled.
- Vacancy and salary records are Dafny datatypes that always carry every field the code reads. A dictionary missing `currency`, `payment_from`, `payment_to`, `salary`, `from` or `to` would raise KeyError (lines 53-55, 105, 118, 121-128), and an empty HeadHunter salary dictionary `{}` would be falsy at line 114 and become a `None` placeholder; neither case can be expressed, so neither is modelled. Only the per-language dictionary lookups raise KeyError in the model.
- The `gross` flag and other fields of a HeadHunter salary object, and every vacancy field other than the salary ones, are ignored by the code and not modelled.
