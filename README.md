# Extractive-industry revenue data: reconciliation, BEA jobs and rollup checks

This project models three parts of the data pipeline of the extractive-industries
revenue site in Dafny, and proves properties of the models.

- **Reconciliation field map** (`Reconciliation`, `data/reconciliation/transform.js`).
  A raw reconciliation row (column name to cell text) becomes a canonical record.
  A literal `N/A` becomes null. Other values go to the number parser.
  The company-reported text is kept as a note when it is not numeric.
  A per-revenue-type rule table (threshold percent, dollar floor) decides whether
  the variance between government- and company-reported figures is material.
  A type the table lacks is an error, not a silent 0.
- **BEA self-employment series** (`BeaJobs`, `data/jobs/get-bea-jobs.js`).
  Each of three result sets is collected through `mapRow`, which drops FIPS
  prefixes above 90. Its row objects are then tagged in place into
  Overall/Industry/Value columns. The sets are concatenated in the fixed order
  0, 1, 2, grouped by (Region, Year), and reduced by a loop. The loop sums the
  coerced columns and derives Jobs = industry − wageSalary and Share = Jobs / overall.
  The row objects are a class whose fields the tagging loops overwrite.
- **Rollup consistency checks** (`RevenueChecks`, `test/data/revenue.js`).
  These are the four checks of the revenue test:
  - every yearly pivot row agrees with its rollup value within 1, inclusive;
  - every visited rollup entry comes from exactly one pivot row and agrees with it;
  - every state's "All" figures are the sum of its other commodities, within the
    number of summed entries;
  - the national civil penalties agree with their pivot table.

  Each check stops at its first failed assertion, as a mocha test does, and
  reports that failure.

`Js` holds the JavaScript value model: numbers that may be NaN, properties that
may be `undefined`, NaN-false comparisons and `String.prototype.trim`. `Grouping`
models the grouping service `util.group` provides: buckets by exact key equality,
in first-seen order, each keeping input order.

The conversions `Number(string)`, `parse.number` and `parse.dollars` are
parameters of the model, of type `string -> Number` or `JsValue -> Number`.

Doubles are exact reals. Share keeps the exact quotient, or a sentinel for a
zero divisor. It does not round to four places.

The model follows the code in these points:
- The checks stop at the first failure, as mocha does at a failed assertion.
- The slack of the "All" check is the number of non-"All" (commodity, year)
  entries of the state over all years, not the number of commodities.
- In the "All" check `(totalsByYear[year] || 0) + revenue` turns a sum that is
  NaN back into 0, so a revenue that is not a number drops every revenue
  summed before it for that year.

## Model

| member | source | states |
|---|---|---|
| Js.Trim | test/data/revenue.js:45 | the result is an infix of the input with only white space around it, and neither starts nor ends with white space |
| Reconciliation.ParseNA | data/reconciliation/transform.js:12-19 | null exactly when the field holds the literal `N/A`; otherwise the number parser's result on the field's value |
| Reconciliation.ReportedNote | data/reconciliation/transform.js:90-93 | the raw Company Reported value exactly when it converts to NaN (an absent column counts as NaN), null otherwise |
| Reconciliation.Classify | data/reconciliation/transform.js:106 | 0 or 1; 1 exactly when both limits are numbers and the percent and the delta are numbers strictly above them |
| Reconciliation.IsMaterialVariance | data/reconciliation/transform.js:100-107 | an error exactly for a type without a rule; otherwise 0 or 1, and 1 iff gov, co and percent are numbers, the signed percent is above the threshold and abs(gov − co) is above the floor, both strictly |
| Reconciliation.Transform | data/reconciliation/transform.js:84-108 | fails exactly when the rule lookup fails; otherwise every field of the record is the field map's value for that column |
| Reconciliation.ThresholdsPositive | data/reconciliation/transform.js:21-82 | every numeric threshold of the table is at least 1 percent |
| Reconciliation.NonPositivePercentNeverMaterial | data/reconciliation/transform.js:103-106 | a variance percent of zero or below is never material, whatever the delta |
| Reconciliation.RenewablesNeverMaterial | data/reconciliation/transform.js:62-66 | a Renewables row classifies as 0 for every input |
| Reconciliation.NaNNeverMaterial | data/reconciliation/transform.js:101-106 | fail closed: with a rule present, a NaN gov, co or percent classifies as 0 |
| Reconciliation.MaterialIsMonotonic | data/reconciliation/transform.js:106 | raising the percent or the delta of a material variance keeps it material |
| Reconciliation.OsmreCivilPenaltiesAnyDelta | data/reconciliation/transform.js:72-76 | with floor 0, any nonzero gov − co with percent above 3 is material |
| Reconciliation.NoteExcludesCompanyFigure | data/reconciliation/transform.js:88-93 | for a non-`N/A` company figure on which `parse.number` and `Number` agree about NaN, the record has a numeric company figure or a note, never both and never neither |
| Reconciliation.BothFigureAndNote | data/reconciliation/transform.js:88-93 | when `parse.number` reads a company figure that `Number` rejects, the record carries both the parsed figure and the raw text as the note |
| Js.ToNumber | data/reconciliation/transform.js:101-103 | `Number(x)`: NaN for `undefined`, the number itself for a number, the string conversion for a string |
| BeaJobs.FipsPrefix | data/jobs/get-bea-jobs.js:175 | the first two characters of the FIPS code, or all of a shorter one |
| BeaJobs.MapRow | data/jobs/get-bea-jobs.js:174-184 | drops a row exactly when its FIPS prefix is a number above 90; a kept row is exactly {Region: GeoName, Year: TimePeriod, Value: DataValue} |
| BeaJobs.CoerceNumber | data/jobs/get-bea-jobs.js:186-188 | the numeric value of its input, or 0 when that is NaN |
| BeaJobs.Collect | data/jobs/get-bea-jobs.js:102-108 | one new, distinct row object per kept row, in arrival order, holding exactly the reshaped row |
| BeaJobs.Tag | data/jobs/get-bea-jobs.js:117-132 | tagging keeps Region and Year; the set's own figure lands in its target column (Overall, Industry, Value for sets 0, 1, 2) and the other two columns are 0 |
| BeaJobs.TagSet | data/jobs/get-bea-jobs.js:117-132 | every row object of the set holds the tagged version of its old fields: set 0 moves Value to Overall, set 1 moves Value to Industry, set 2 keeps Value; the other columns become 0 |
| BeaJobs.CollectSet | data/jobs/get-bea-jobs.js:117-132 | after collecting and tagging, row k of a set holds the tag of the set's k-th kept row |
| BeaJobs.ConcatAll | data/jobs/get-bea-jobs.js:134-136 | the fold keeps the accumulator as its prefix and grows it by the length of every set |
| BeaJobs.ConcatAllIsFlatten | data/jobs/get-bea-jobs.js:134-136 | the concatenating fold is the accumulator followed by every set in order |
| BeaJobs.FlattenLength | data/jobs/get-bea-jobs.js:134-136 | the concatenation is as long as all sets together |
| BeaJobs.ConcatThree | data/jobs/get-bea-jobs.js:134-136 | folding the three sets gives set 0, then set 1, then set 2, with no row lost or added |
| BeaJobs.CollectAndTag | data/jobs/get-bea-jobs.js:117-136 | the concatenated row objects hold exactly the tagged kept rows of sets 0, 1 and 2, in that order |
| BeaJobs.Reduce | data/jobs/get-bea-jobs.js:140-157 | Jobs is the sum of coerced Industry minus the sum of coerced Value over the group, and Share is Jobs over the sum of coerced Overall |
| BeaJobs.ShareIsQuotient | data/jobs/get-bea-jobs.js:156 | for nonzero overall the share is the exact quotient; for zero overall it is an infinity, or NaN only for 0 / 0 |
| BeaJobs.Summarize | data/jobs/get-bea-jobs.js:159-161 | `extend(entry.key, entry.value)`: the output row keeps the group's (Region, Year); its metrics are those of BeaJobs.Reduce |
| BeaJobs.ReduceGroups | data/jobs/get-bea-jobs.js:139-161 | one output row per group, in group order, each the group key merged with the reducer's metrics over that group |
| BeaJobs.Assemble | data/jobs/get-bea-jobs.js:134-161 | the whole pipeline yields the summaries of the (Region, Year) groups of the concatenated tagged rows |
| BeaJobs.SumColumnAppend | data/jobs/get-bea-jobs.js:144-148 | the running sum over two lists of rows is the sum of their sums |
| BeaJobs.TaggedColumnSums | data/jobs/get-bea-jobs.js:117-132 | after tagging, a set's figures sum into its own column and the other two columns sum to 0 |
| BeaJobs.SelectTagAll | data/jobs/get-bea-jobs.js:117-139 | tagging keeps (Region, Year), so taking a key's rows commutes with tagging |
| BeaJobs.SumSelectTagged | data/jobs/get-bea-jobs.js:144-148 | over one tagged set's rows of a key, only the set's own column is nonzero, and it sums the set's values |
| BeaJobs.CombinedColumnSums | data/jobs/get-bea-jobs.js:144-148 | over a key's concatenated rows, overall sums set 0's values only, industry set 1's only and wageSalary set 2's only |
| BeaJobs.GroupMetricsBySet | data/jobs/get-bea-jobs.js:140-156 | a (Region, Year) group's Jobs is set 1's total minus set 2's total for that key, and its Share divides Jobs by set 0's total for that key |
| BeaJobs.AssembledRow | data/jobs/get-bea-jobs.js:138-161 | output row i is the reducer applied to all concatenated rows of its own Region and Year |
| BeaJobs.AssembledBySet | data/jobs/get-bea-jobs.js:117-161 | every output row's Jobs and Share are computed from the three sets' kept rows of that row's (Region, Year) alone |
| BeaJobs.AssembledKeys | data/jobs/get-bea-jobs.js:138-161 | no two output rows share a (Region, Year); every concatenated row's (Region, Year) has an output row, and every output row's (Region, Year) is that of at least one concatenated row |
| BeaJobs.SummaryKeys | data/jobs/get-bea-jobs.js:139-161 | for any rows, the summaries of their groups have distinct keys, one for each key of a row, and each key selects at least one row |
| Grouping.GroupBy | data/jobs/get-bea-jobs.js:139 | groups have distinct keys; each holds exactly the rows of its key, in input order, and is not empty; every row's key has a group |
| Grouping.SelectFrom | data/jobs/get-bea-jobs.js:139 | a group's values are rows of the input |
| Grouping.GroupByPartition | data/jobs/get-bea-jobs.js:139 | the groups' values together are a permutation of the input rows |
| RevenueChecks.Get | test/data/revenue.js:42-50 | a property read yields nothing exactly when no entry has the key, and otherwise a value stored under it |
| RevenueChecks.Dig | test/data/revenue.js:42-53 | the chained read `[St][Commodity][Type][CY]`: throws when the state, commodity or type is absent; otherwise the year's value, or `undefined` when the year is absent |
| RevenueChecks.CheckPivotRow | test/data/revenue.js:32-61 | passes exactly for a " Total" row, or a numeric Total with a rollup value within 1; fails NaN exactly when the Total is NaN and no-data exactly when the rollup lookup throws |
| RevenueChecks.FirstFailure | test/data/revenue.js:63-66 | no failure iff every row passes; otherwise the first failing row's index and its discrepancy |
| RevenueChecks.CheckPivotRows | test/data/revenue.js:31-67 | the state value check fails exactly when some pivot row fails, and reports the first |
| RevenueChecks.CheckNationalRow | test/data/revenue.js:205-229 | only rows whose type ends in "Civil Penalties" are compared, with `US.All[type][CY]`, within 1 inclusive, with the same NaN and no-data failures |
| RevenueChecks.CheckNationalRows | test/data/revenue.js:231-234 | the national check fails exactly when some row fails, and reports the first |
| RevenueChecks.Filter | test/data/revenue.js:80-85 | the rows kept are exactly those whose state, trimmed commodity, type and year equal the key's |
| RevenueChecks.CheckEntry | test/data/revenue.js:104-119 | passes iff exactly one pivot row matches and its Total is within 1 of the entry; a row-count failure exactly when the match count is not 1, carrying that count |
| RevenueChecks.CheckYears | test/data/revenue.js:103-120 | passes iff every year entry passes; otherwise reports the first failing entry |
| RevenueChecks.CheckTypes | test/data/revenue.js:92-121 | passes iff every type but All, Civil Penalties and Other Revenues passes; otherwise reports the first failure of the first failing such type, in visiting order |
| RevenueChecks.CheckCommodities | test/data/revenue.js:88-122 | passes iff every commodity but All passes; otherwise reports the first failure of the first failing such commodity |
| RevenueChecks.CheckReverse | test/data/revenue.js:87-123 | passes iff every visited rollup entry passes; otherwise reports the first failing entry in `for...in` order of states, commodities, types and years |
| RevenueChecks.PaddedRollupCommodityMatchesNothing | test/data/revenue.js:82 | a rollup commodity starting with white space matches no pivot row, since only the pivot side is trimmed |
| RevenueChecks.FilterNone | test/data/revenue.js:105 | no matching row gives an empty filter result |
| RevenueChecks.FilterUnique | test/data/revenue.js:105 | exactly one matching row gives just that row |
| RevenueChecks.FilterTwo | test/data/revenue.js:105 | two matching rows give at least two |
| RevenueChecks.EntryWithoutRowFails | test/data/revenue.js:105-111 | a rollup entry no pivot row matches fails with row count 0 |
| RevenueChecks.EntryWithDuplicateRowsFails | test/data/revenue.js:105-111 | a rollup entry two pivot rows match fails on the row count, never picking one |
| RevenueChecks.EntryWithUniqueRow | test/data/revenue.js:105-119 | with a unique matching row, the entry passes iff that row's Total is within 1 |
| RevenueChecks.MissingRowFailsReverse | test/data/revenue.js:87-111 | one visited rollup entry without a pivot row makes the reverse check fail |
| RevenueChecks.ToleranceIsInclusive | test/data/revenue.js:54-60 | a Total 1 away from the rollup value passes; one 2 away fails with that value mismatch |
| RevenueChecks.MissingYearFails | test/data/revenue.js:41-60 | a rollup without the row's year fails on the value, the missing value reading as NaN |
| RevenueChecks.OrZero | test/data/revenue.js:157 | `x \|\| 0` is always a number, and is `x` for a numeric `x` |
| RevenueChecks.AddEntry | test/data/revenue.js:153-159 | one pass of the loop body: an All revenue replaces the year's All figure; any other adds one to count and adds to the year's sum, which stays a number iff the revenue is one; other years are untouched |
| RevenueChecks.SumState | test/data/revenue.js:151-161 | the nested loops over a state's commodities and years build the fold of the loop body over the entries in order |
| RevenueChecks.YearAgrees | test/data/revenue.js:165-167 | `Math.abs(allByYear[year] - totalsByYear[year]) <= count`, an absent side reading as NaN and so failing |
| RevenueChecks.StateAgrees | test/data/revenue.js:164-182 | every year with a sum and every year with an All figure agrees; characterised by RevenueChecks.StateAgreesIff |
| RevenueChecks.CheckAllSums | test/data/revenue.js:139-184 | passes iff every state but None agrees; otherwise names the first state that does not |
| RevenueChecks.AddYearsCount | test/data/revenue.js:158 | one commodity's years add one to count per entry unless the commodity is All |
| RevenueChecks.SumsCount | test/data/revenue.js:145-158 | count is the number of non-All entries of the state over all years, not per year |
| RevenueChecks.AddYearsKeys | test/data/revenue.js:152-157 | after one commodity a year has a sum iff it had one or the non-All commodity lists it; its All figure is the commodity's last when it is All |
| RevenueChecks.SumsKeys | test/data/revenue.js:151-160 | a year has a sum iff some non-All commodity lists it, and its All figure is the last one given |
| RevenueChecks.AddYearsTotals | test/data/revenue.js:157 | one non-All commodity adds its entries for a year to that year's sum, keeping sums numeric |
| RevenueChecks.AddCommoditiesTotals | test/data/revenue.js:157 | with numeric revenues, a year's sum is the sum of that year's non-All revenues |
| RevenueChecks.StateAgreesIff | test/data/revenue.js:151-182 | for a state whose non-All revenues are all numbers: the state passes iff every year present anywhere has both an All figure and a sum, and the last All figure is within count of the sum |
| RevenueChecks.NaNRevenueRestartsSum | test/data/revenue.js:157 | a NaN revenue makes the year's sum NaN, and the next revenue for that year restarts the sum at its own value |
| RevenueChecks.NaNRevenueHidesDiscrepancy | test/data/revenue.js:151-182 | commodities A (500), B (NaN) and C (7) with an All figure of 7 for 2015 pass the check |
| RevenueChecks.DiscrepancyWithoutNaNRevenue | test/data/revenue.js:151-182 | the same state without B fails: 500 + 7 is not within 2 of 7 |
| RevenueChecks.AllYearWithoutCommoditiesFails | test/data/revenue.js:175-182 | a year under All but under no other commodity fails the state, its sum being undefined |

## Left out

- The BEA fetch, the JSON and TSV stream parsers, `stream-array` and the output file (get-bea-jobs.js:54-67, 99-109, 166-171): network and stream I/O. The three result sets are inputs.
- `yargs` options, `util.range` and the request parameters (get-bea-jobs.js:4-52): configuration.
- `async.mapSeries` and its error path, which passes on the rows collected before a fetch error (get-bea-jobs.js:84-97, 110-113). The model takes whatever each set delivered.
- Logging through `console`, and the text of assertion messages.
- YAML loading, `loadPivot` and the mocha harness. The rollups and pivot rows are inputs.
- `lib/parse` (`parse.number`, `parse.dollars`) and the string-to-number conversion of `Number` are not part of this model. They are parameters. Each property holds for every choice of them that meets its `requires`; a property that needs the conversions to agree says so there.
- `lib/util`'s `group` is not part of this model. `Grouping` gives it a concrete definition: exact key equality, first-seen key order, input order within a group.
- BeaJobs.Reduce: Share is the exact quotient `Ratio(jobs, overall)`, or a sentinel when overall is 0. The four-place string of `toFixed(4)` and floating-point rounding are not modelled.
- BeaJobs.Collect: the set is collected first and then tagged as a whole. The source collects all three sets before tagging any. The sets are disjoint objects, so the order does not change any row's final fields.
- All numbers are exact reals. Floating-point rounding is not modelled, and infinities are not modelled except as the Share sentinels.
- Reconciliation.IsMaterialVariance: keys inherited from `Object.prototype` (such as `constructor`) are not modelled as rule-table entries.
- RevenueChecks.Get: a loaded object is a list of entries in `for...in` order. The list type does not exclude duplicate keys; a read takes the first.
- The `.commodities` and `.revenue` wrappers of the "All" data (revenue.js:142, 153) are flattened away. A missing revenue is NaN, which behaves in the sums and differences as `undefined` does.
- Reconciliation.NoteExcludesCompanyFigure: holds only when `parse.number` and `Number` agree on whether the company figure is NaN. When `parse.number` reads a figure that `Number` rejects, the record has both (Reconciliation.BothFigureAndNote).
- RevenueChecks.StateAgreesIff: characterises the "All" check only for states whose non-All revenues are all numbers. A NaN revenue resets the year's running sum, which RevenueChecks.NaNRevenueRestartsSum and RevenueChecks.NaNRevenueHidesDiscrepancy show.
- RevenueChecks.CheckAllSums: reports the failing state, not the failing year.
- Pivot rows always have every column as a string. A missing column would make `trim` or `match` throw, and that is not modelled.
