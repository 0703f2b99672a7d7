/** Assembly of the BEA self-employment series for mining: three result
    sets (total employment, total mining employment, mining wage-and-salary
    employment) are reshaped, tagged into Overall/Industry/Value columns,
    concatenated, grouped by (Region, Year) and reduced to the number of
    self-employed jobs and their share of overall employment. */
module BeaJobs {
  import opened Js
  import Grouping

  /** One data row of a BEA regional-income response. */
  datatype BeaRow = BeaRow(geoFips: string, geoName: string, timePeriod: string, dataValue: string)

  /** A row object once reshaped, as a value: Region, Year, Value and the
      two columns tagging adds (undefined until then). */
  datatype Row = Row(region: string, year: string, value: JsValue, overall: JsValue, industry: JsValue)

  /** `s.substr(0, 2)` */
  function FipsPrefix(fips: string): (p: string)
    ensures |p| == if |fips| < 2 then |fips| else 2
    ensures p == fips[..|p|]
  {
    if |fips| < 2 then fips else fips[..2]
  }

  /** `mapRow`: rows whose FIPS prefix is numerically above 90 (regions,
      not states) are dropped; a kept row carries GeoName, TimePeriod and
      DataValue and nothing else. */
  function MapRow(row: BeaRow, stringToNumber: string -> Number): (r: Option<Row>)
    ensures r.None? <==> exists v :: stringToNumber(FipsPrefix(row.geoFips)) == Finite(v) && v > 90.0
    ensures r.Some? ==> r.value == Row(row.geoName, row.timePeriod, Str(row.dataValue), Undefined, Undefined)
  {
    var fips := FipsPrefix(row.geoFips);
    if GreaterThan(stringToNumber(fips), 90.0) then None
    else Some(Row(row.geoName, row.timePeriod, Str(row.dataValue), Undefined, Undefined))
  }

  /** The kept, reshaped rows of one result set, in arrival order. */
  function KeptRows(raw: seq<BeaRow>, stringToNumber: string -> Number): (rows: seq<Row>)
    ensures |rows| <= |raw|
  {
    if raw == [] then []
    else
      var m := MapRow(raw[|raw| - 1], stringToNumber);
      KeptRows(raw[..|raw| - 1], stringToNumber) + (if m.Some? then [m.value] else [])
  }

  /** `coerceNumber`: `Number(x) || 0`, so NaN (and 0) become 0. */
  function CoerceNumber(v: JsValue, stringToNumber: string -> Number): (r: real)
    ensures ToNumber(v, stringToNumber).NaN? ==> r == 0.0
    ensures ToNumber(v, stringToNumber).Finite? ==> r == ToNumber(v, stringToNumber).value
  {
    match ToNumber(v, stringToNumber)
    case NaN => 0.0
    case Finite(x) => if x == 0.0 then 0.0 else x
  }

  /** A row object of one result set, whose columns tagging overwrites. */
  class JobRow {
    var region: string
    var year: string
    var value: JsValue
    var overall: JsValue
    var industry: JsValue

    constructor (d: Row)
      ensures Snap(this) == d
    {
      region, year, value, overall, industry := d.region, d.year, d.value, d.overall, d.industry;
    }
  }

  function Snap(r: JobRow): Row
    reads r
  {
    Row(r.region, r.year, r.value, r.overall, r.industry)
  }

  /** The current field values of a list of row objects. */
  function Snapshot(rows: seq<JobRow>): (s: seq<Row>)
    reads set r | r in rows
    ensures |s| == |rows|
    ensures forall i :: 0 <= i < |rows| ==> s[i] == Snap(rows[i])
  {
    if rows == [] then [] else Snapshot(rows[..|rows| - 1]) + [Snap(rows[|rows| - 1])]
  }

  /** The rows pushed by a result set's data handler: each arriving row
      goes through `mapRow`, and a kept row becomes a new object. */
  method Collect(raw: seq<BeaRow>, stringToNumber: string -> Number)
    returns (rows: seq<JobRow>)
    ensures |rows| == |KeptRows(raw, stringToNumber)|
    ensures forall k :: 0 <= k < |rows| ==> Snap(rows[k]) == KeptRows(raw, stringToNumber)[k]
    ensures Grouping.Distinct(rows)
    ensures forall k :: 0 <= k < |rows| ==> fresh(rows[k])
  {
    rows := [];
    for i := 0 to |raw|
      invariant |rows| == |KeptRows(raw[..i], stringToNumber)|
      invariant forall k :: 0 <= k < |rows| ==> Snap(rows[k]) == KeptRows(raw[..i], stringToNumber)[k]
      invariant Grouping.Distinct(rows)
      invariant forall k :: 0 <= k < |rows| ==> fresh(rows[k])
    {
      assert raw[..i + 1][..i] == raw[..i];
      var m := MapRow(raw[i], stringToNumber);
      if m.Some? {
        var d := new JobRow(m.value);
        rows := rows + [d];
      }
    }
    assert raw[..|raw|] == raw;
  }

  /** Which of the three result sets a row came from. */
  datatype SetIndex = AllTotal | AllMining | SubMining

  const ZERO: JsValue := Num(Finite(0.0))

  /** The columns a set's `forEach` writes. */
  function Tag(which: SetIndex, d: Row): (r: Row)
    ensures RowKey(r) == RowKey(d)
    ensures forall c :: Cell(r, c) == if c == TargetColumn(which) then d.value else ZERO
  {
    match which
    case AllTotal => d.(overall := d.value, industry := ZERO, value := ZERO)
    case AllMining => d.(overall := ZERO, industry := d.value, value := ZERO)
    case SubMining => d.(overall := ZERO, industry := ZERO)
  }

  function TagAll(which: SetIndex, rows: seq<Row>): (t: seq<Row>)
    ensures |t| == |rows|
    ensures forall i :: 0 <= i < |rows| ==> t[i] == Tag(which, rows[i])
  {
    if rows == [] then [] else TagAll(which, rows[..|rows| - 1]) + [Tag(which, rows[|rows| - 1])]
  }

  /** `sets[n].forEach(...)`: overwrites the tag columns of every row of
      one set in place; the rows must be distinct objects, as `mapRow`
      makes them. */
  method TagSet(rows: seq<JobRow>, which: SetIndex)
    requires Grouping.Distinct(rows)
    modifies set r | r in rows
    ensures forall i :: 0 <= i < |rows| ==> Snap(rows[i]) == Tag(which, old(Snap(rows[i])))
  {
    for i := 0 to |rows|
      invariant forall k :: 0 <= k < i ==> Snap(rows[k]) == Tag(which, old(Snap(rows[k])))
      invariant forall k :: i <= k < |rows| ==> Snap(rows[k]) == old(Snap(rows[k]))
    {
      var d := rows[i];
      match which {
        case AllTotal =>
          d.overall := d.value;
          d.industry := ZERO;
          d.value := ZERO;
        case AllMining =>
          d.overall := ZERO;
          d.industry := d.value;
          d.value := ZERO;
        case SubMining =>
          d.overall := ZERO;
          d.industry := ZERO;
      }
    }
  }

  /** `sets.reduce((list, set) => list.concat(set), acc)` */
  function ConcatAll<T>(acc: seq<T>, sets: seq<seq<T>>): (r: seq<T>)
    ensures |r| == |acc| + TotalLength(sets)
    ensures r[..|acc|] == acc
    decreases |sets|
  {
    if sets == [] then acc else ConcatAll(acc + sets[0], sets[1..])
  }

  /** Every set's elements one set after the other: the reference the fold
      is compared with. */
  function Flatten<T>(sets: seq<seq<T>>): seq<T> {
    if sets == [] then [] else sets[0] + Flatten(sets[1..])
  }

  function TotalLength<T>(sets: seq<seq<T>>): nat {
    if sets == [] then 0 else |sets[0]| + TotalLength(sets[1..])
  }

  lemma {:induction false} ConcatAllIsFlatten<T>(acc: seq<T>, sets: seq<seq<T>>)
    ensures ConcatAll(acc, sets) == acc + Flatten(sets)
    decreases |sets|
  {
    if sets != [] {
      ConcatAllIsFlatten(acc + sets[0], sets[1..]);
    }
  }

  lemma {:induction false} FlattenLength<T>(sets: seq<seq<T>>)
    ensures |Flatten(sets)| == TotalLength(sets)
  {
    if sets != [] {
      FlattenLength(sets[1..]);
    }
  }

  /** The three sets are concatenated in the fixed order 0, 1, 2, each in
      its own order, and no row is lost or added. */
  lemma ConcatThree<T>(s0: seq<T>, s1: seq<T>, s2: seq<T>)
    ensures ConcatAll([], [s0, s1, s2]) == s0 + s1 + s2
    ensures |ConcatAll([], [s0, s1, s2])| == |s0| + |s1| + |s2|
  {
    ConcatAllIsFlatten([], [s0, s1, s2]);
    assert [s2][1..] == [];
    assert Flatten([s2]) == s2;
    assert [s1, s2][1..] == [s2];
    assert Flatten([s1, s2]) == s1 + s2;
    assert [s0, s1, s2][1..] == [s1, s2];
  }

  /** The group key of a row: Region and Year, compared exactly. */
  function RowKey(d: Row): (string, string) {
    (d.region, d.year)
  }

  datatype Column = OverallColumn | IndustryColumn | ValueColumn

  function Cell(d: Row, c: Column): JsValue {
    match c
    case OverallColumn => d.overall
    case IndustryColumn => d.industry
    case ValueColumn => d.value
  }

  /** The column a set's own figure lands in after tagging. */
  function TargetColumn(which: SetIndex): Column {
    match which
    case AllTotal => OverallColumn
    case AllMining => IndustryColumn
    case SubMining => ValueColumn
  }

  /** The sum of the coerced values of one column. */
  function SumColumn(rows: seq<Row>, c: Column, stringToNumber: string -> Number): real {
    if rows == [] then 0.0
    else SumColumn(rows[..|rows| - 1], c, stringToNumber) + CoerceNumber(Cell(rows[|rows| - 1], c), stringToNumber)
  }

  /** `(selfEmployed / overall)`, before `toFixed(4)`: a quotient kept as
      its two operands, or, for a zero divisor, the infinity or NaN the
      division gives. */
  datatype Share = Ratio(dividend: real, divisor: real) | PositiveInfinity | NegativeInfinity | NotANumber

  function ShareOf(jobs: real, overall: real): Share {
    if overall != 0.0 then Ratio(jobs, overall)
    else if jobs > 0.0 then PositiveInfinity
    else if jobs < 0.0 then NegativeInfinity
    else NotANumber
  }

  /** The value of a finite share. */
  function Quotient(s: Share): real
    requires s.Ratio? && s.divisor != 0.0
  {
    s.dividend / s.divisor
  }

  /** The share is the exact quotient whenever total employment is not
      zero; otherwise the division gives no ratio, and NaN only for 0 / 0. */
  lemma ShareIsQuotient(jobs: real, overall: real)
    ensures overall != 0.0 ==>
      var s := ShareOf(jobs, overall);
      s.Ratio? && s.divisor != 0.0 && Quotient(s) * overall == jobs
    ensures overall == 0.0 ==> !ShareOf(jobs, overall).Ratio?
    ensures ShareOf(jobs, overall).NotANumber? <==> overall == 0.0 && jobs == 0.0
  {
  }

  datatype Metrics = Metrics(jobs: real, share: Share)

  /** One output row: the group key merged with the reducer's metrics. */
  datatype OutputRow = OutputRow(region: string, year: string, jobs: real, share: Share)

  /** The reducer's loop: running sums of the three coerced columns, then
      Jobs = industry - wageSalary and Share = Jobs / overall. */
  method Reduce(values: seq<Row>, stringToNumber: string -> Number) returns (m: Metrics)
    ensures m.jobs == SumColumn(values, IndustryColumn, stringToNumber) - SumColumn(values, ValueColumn, stringToNumber)
    ensures m.share == ShareOf(m.jobs, SumColumn(values, OverallColumn, stringToNumber))
  {
    var overall, industry, wageSalary := 0.0, 0.0, 0.0;
    for i := 0 to |values|
      invariant overall == SumColumn(values[..i], OverallColumn, stringToNumber)
      invariant industry == SumColumn(values[..i], IndustryColumn, stringToNumber)
      invariant wageSalary == SumColumn(values[..i], ValueColumn, stringToNumber)
    {
      assert values[..i + 1][..i] == values[..i];
      overall := overall + CoerceNumber(values[i].overall, stringToNumber);
      industry := industry + CoerceNumber(values[i].industry, stringToNumber);
      wageSalary := wageSalary + CoerceNumber(values[i].value, stringToNumber);
    }
    assert values[..|values|] == values;
    var selfEmployed := industry - wageSalary;
    m := Metrics(selfEmployed, ShareOf(selfEmployed, overall));
  }

  /** `Object.assign({}, key, metrics)`: the group's key with its metrics. */
  function Summarize(g: Grouping.Group<(string, string), Row>, stringToNumber: string -> Number): (r: OutputRow)
    ensures (r.region, r.year) == g.key
  {
    var jobs := SumColumn(g.values, IndustryColumn, stringToNumber) - SumColumn(g.values, ValueColumn, stringToNumber);
    OutputRow(g.key.0, g.key.1, jobs, ShareOf(jobs, SumColumn(g.values, OverallColumn, stringToNumber)))
  }

  /** The tagged rows of the three sets, concatenated in order. */
  function Combined(raw0: seq<BeaRow>, raw1: seq<BeaRow>, raw2: seq<BeaRow>, stringToNumber: string -> Number): seq<Row> {
    TagAll(AllTotal, KeptRows(raw0, stringToNumber))
    + TagAll(AllMining, KeptRows(raw1, stringToNumber))
    + TagAll(SubMining, KeptRows(raw2, stringToNumber))
  }

  /** The output series: one row per (Region, Year) group. */
  function Assembled(raw0: seq<BeaRow>, raw1: seq<BeaRow>, raw2: seq<BeaRow>, stringToNumber: string -> Number)
    : seq<OutputRow>
  {
    Summaries(Grouping.GroupBy(Combined(raw0, raw1, raw2, stringToNumber), RowKey), stringToNumber)
  }

  function Summaries(gs: seq<Grouping.Group<(string, string), Row>>, stringToNumber: string -> Number): (out: seq<OutputRow>)
    ensures |out| == |gs|
    ensures forall i :: 0 <= i < |gs| ==> out[i] == Summarize(gs[i], stringToNumber)
  {
    seq(|gs|, i requires 0 <= i < |gs| => Summarize(gs[i], stringToNumber))
  }

  /** One result set collected and then tagged in place. */
  method CollectSet(raw: seq<BeaRow>, which: SetIndex, stringToNumber: string -> Number)
    returns (rows: seq<JobRow>)
    ensures |rows| == |KeptRows(raw, stringToNumber)|
    ensures forall k :: 0 <= k < |rows| ==> Snap(rows[k]) == Tag(which, KeptRows(raw, stringToNumber)[k])
  {
    rows := Collect(raw, stringToNumber);
    TagSet(rows, which);
  }

  /** The three result sets collected and tagged, then concatenated in the
      fixed order 0, 1, 2. */
  method CollectAndTag(raw0: seq<BeaRow>, raw1: seq<BeaRow>, raw2: seq<BeaRow>, stringToNumber: string -> Number)
    returns (rows: seq<JobRow>)
    ensures Snapshot(rows) == Combined(raw0, raw1, raw2, stringToNumber)
  {
    var set0 := CollectSet(raw0, AllTotal, stringToNumber);
    var set1 := CollectSet(raw1, AllMining, stringToNumber);
    var set2 := CollectSet(raw2, SubMining, stringToNumber);
    ghost var t0 := TagAll(AllTotal, KeptRows(raw0, stringToNumber));
    ghost var t1 := TagAll(AllMining, KeptRows(raw1, stringToNumber));
    ghost var t2 := TagAll(SubMining, KeptRows(raw2, stringToNumber));
    rows := ConcatAll([], [set0, set1, set2]);
    ConcatThree(set0, set1, set2);
    ghost var combined := Combined(raw0, raw1, raw2, stringToNumber);
    assert forall k :: 0 <= k < |rows| ==> Snap(rows[k]) == combined[k] by {
      forall k | 0 <= k < |rows| ensures Snap(rows[k]) == combined[k] {
        if k < |set0| {
          assert rows[k] == set0[k] && combined[k] == t0[k];
        } else if k < |set0| + |set1| {
          assert rows[k] == set1[k - |set0|] && combined[k] == t1[k - |set0|];
        } else {
          assert rows[k] == set2[k - |set0| - |set1|] && combined[k] == t2[k - |set0| - |set1|];
        }
      }
    }
  }

  /** The reducer applied to every group, each group's key merged with
      its metrics. */
  method ReduceGroups(groups: seq<Grouping.Group<(string, string), Row>>, stringToNumber: string -> Number)
    returns (result: seq<OutputRow>)
    ensures result == Summaries(groups, stringToNumber)
  {
    result := [];
    for i := 0 to |groups|
      invariant |result| == i
      invariant forall j :: 0 <= j < i ==> result[j] == Summarize(groups[j], stringToNumber)
    {
      var m := Reduce(groups[i].values, stringToNumber);
      result := result + [OutputRow(groups[i].key.0, groups[i].key.1, m.jobs, m.share)];
    }
  }

  /** The whole pipeline after the three fetches: collect and tag each set,
      concatenate, group by (Region, Year) and reduce every group. */
  method Assemble(raw0: seq<BeaRow>, raw1: seq<BeaRow>, raw2: seq<BeaRow>, stringToNumber: string -> Number)
    returns (result: seq<OutputRow>)
    ensures result == Assembled(raw0, raw1, raw2, stringToNumber)
  {
    var rows := CollectAndTag(raw0, raw1, raw2, stringToNumber);
    var groups := Grouping.GroupBy(Snapshot(rows), RowKey);
    result := ReduceGroups(groups, stringToNumber);
  }

  lemma {:induction false} SumColumnAppend(a: seq<Row>, b: seq<Row>, c: Column, stringToNumber: string -> Number)
    ensures SumColumn(a + b, c, stringToNumber) == SumColumn(a, c, stringToNumber) + SumColumn(b, c, stringToNumber)
    decreases |b|
  {
    if b == [] {
      assert a + b == a;
    } else {
      var b' := b[..|b| - 1];
      assert (a + b)[..|a + b| - 1] == a + b';
      SumColumnAppend(a, b', c, stringToNumber);
    }
  }

  /** Tagging keeps a row's key, so selecting a key commutes with tagging. */
  lemma {:induction false} SelectTagAll(which: SetIndex, rows: seq<Row>, k: (string, string))
    ensures Grouping.Select(TagAll(which, rows), RowKey, k) == TagAll(which, Grouping.Select(rows, RowKey, k))
    decreases |rows|
  {
    if rows != [] {
      var prefix := rows[..|rows| - 1];
      var last := rows[|rows| - 1];
      SelectTagAll(which, prefix, k);
      var sel := Grouping.Select(prefix, RowKey, k);
      assert TagAll(which, rows) == TagAll(which, prefix) + [Tag(which, last)];
      Grouping.SelectSnoc(TagAll(which, prefix), Tag(which, last), RowKey, k);
      if RowKey(last) == k {
        assert Grouping.Select(rows, RowKey, k) == sel + [last];
        assert (sel + [last])[..|sel|] == sel;
      } else {
        assert Grouping.Select(rows, RowKey, k) == sel;
      }
    }
  }

  /** After tagging, a set's figures are all in its own column and the
      other two columns sum to zero. */
  lemma {:induction false} TaggedColumnSums(which: SetIndex, rows: seq<Row>, c: Column, stringToNumber: string -> Number)
    ensures SumColumn(TagAll(which, rows), c, stringToNumber)
         == if c == TargetColumn(which) then SumColumn(rows, ValueColumn, stringToNumber) else 0.0
    decreases |rows|
  {
    if rows != [] {
      var prefix := rows[..|rows| - 1];
      TaggedColumnSums(which, prefix, c, stringToNumber);
    }
  }

  lemma {:induction false} SelectAppend(a: seq<Row>, b: seq<Row>, k: (string, string))
    ensures Grouping.Select(a + b, RowKey, k) == Grouping.Select(a, RowKey, k) + Grouping.Select(b, RowKey, k)
    decreases |b|
  {
    if b == [] {
      assert a + b == a;
    } else {
      var b' := b[..|b| - 1];
      assert (a + b)[..|a + b| - 1] == a + b';
      SelectAppend(a, b', k);
    }
  }

  /** Summing a column over one tagged set's rows of key `k`. */
  lemma SumSelectTagged(which: SetIndex, rows: seq<Row>, k: (string, string), c: Column, stringToNumber: string -> Number)
    ensures SumColumn(Grouping.Select(TagAll(which, rows), RowKey, k), c, stringToNumber)
         == if c == TargetColumn(which) then SumColumn(Grouping.Select(rows, RowKey, k), ValueColumn, stringToNumber) else 0.0
  {
    SelectTagAll(which, rows, k);
    TaggedColumnSums(which, Grouping.Select(rows, RowKey, k), c, stringToNumber);
  }

  /** Summing a column over the tagged rows of key `k` of the three sets,
      concatenated, is summing the values of key `k` of the one set tagged
      into that column. */
  lemma CombinedColumnSums(k0: seq<Row>, k1: seq<Row>, k2: seq<Row>, stringToNumber: string -> Number, k: (string, string))
    ensures var sel := Grouping.Select(TagAll(AllTotal, k0) + TagAll(AllMining, k1) + TagAll(SubMining, k2), RowKey, k);
      && SumColumn(sel, OverallColumn, stringToNumber) == SumColumn(Grouping.Select(k0, RowKey, k), ValueColumn, stringToNumber)
      && SumColumn(sel, IndustryColumn, stringToNumber) == SumColumn(Grouping.Select(k1, RowKey, k), ValueColumn, stringToNumber)
      && SumColumn(sel, ValueColumn, stringToNumber) == SumColumn(Grouping.Select(k2, RowKey, k), ValueColumn, stringToNumber)
  {
    var t0, t1, t2 := TagAll(AllTotal, k0), TagAll(AllMining, k1), TagAll(SubMining, k2);
    SelectAppend(t0 + t1, t2, k);
    SelectAppend(t0, t1, k);
    var s0, s1, s2 := Grouping.Select(t0, RowKey, k), Grouping.Select(t1, RowKey, k), Grouping.Select(t2, RowKey, k);
    forall c: Column
      ensures SumColumn(s0 + s1 + s2, c, stringToNumber)
           == SumColumn(s0, c, stringToNumber) + SumColumn(s1, c, stringToNumber) + SumColumn(s2, c, stringToNumber)
    {
      SumColumnAppend(s0 + s1, s2, c, stringToNumber);
      SumColumnAppend(s0, s1, c, stringToNumber);
    }
    forall c: Column
      ensures SumColumn(s0, c, stringToNumber) == if c == OverallColumn then SumColumn(Grouping.Select(k0, RowKey, k), ValueColumn, stringToNumber) else 0.0
      ensures SumColumn(s1, c, stringToNumber) == if c == IndustryColumn then SumColumn(Grouping.Select(k1, RowKey, k), ValueColumn, stringToNumber) else 0.0
      ensures SumColumn(s2, c, stringToNumber) == if c == ValueColumn then SumColumn(Grouping.Select(k2, RowKey, k), ValueColumn, stringToNumber) else 0.0
    {
      SumSelectTagged(AllTotal, k0, k, c, stringToNumber);
      SumSelectTagged(AllMining, k1, k, c, stringToNumber);
      SumSelectTagged(SubMining, k2, k, c, stringToNumber);
    }
  }

  /** Output row `i` summarizes the combined rows of its own (Region, Year). */
  lemma AssembledRow(raw0: seq<BeaRow>, raw1: seq<BeaRow>, raw2: seq<BeaRow>, stringToNumber: string -> Number, i: nat)
    ensures i < |Assembled(raw0, raw1, raw2, stringToNumber)| ==>
      var out := Assembled(raw0, raw1, raw2, stringToNumber)[i];
      var k := (out.region, out.year);
      out == Summarize(Grouping.Group(k, Grouping.Select(Combined(raw0, raw1, raw2, stringToNumber), RowKey, k)), stringToNumber)
  {
    if i < |Assembled(raw0, raw1, raw2, stringToNumber)| {
      var g := SummaryOfGroup(Combined(raw0, raw1, raw2, stringToNumber), i, stringToNumber);
    }
  }

  /** What each output row means: for its (Region, Year), Jobs is the
      mining total minus mining wage-and-salary employment, and Share
      divides it by total employment, each summed over that set's kept rows
      of the key only. */
  lemma AssembledBySet(raw0: seq<BeaRow>, raw1: seq<BeaRow>, raw2: seq<BeaRow>, stringToNumber: string -> Number, i: nat)
    ensures i < |Assembled(raw0, raw1, raw2, stringToNumber)| ==>
      var out := Assembled(raw0, raw1, raw2, stringToNumber)[i];
      var k := (out.region, out.year);
      var overall := SumColumn(Grouping.Select(KeptRows(raw0, stringToNumber), RowKey, k), ValueColumn, stringToNumber);
      var industry := SumColumn(Grouping.Select(KeptRows(raw1, stringToNumber), RowKey, k), ValueColumn, stringToNumber);
      var wageSalary := SumColumn(Grouping.Select(KeptRows(raw2, stringToNumber), RowKey, k), ValueColumn, stringToNumber);
      out.jobs == industry - wageSalary && out.share == ShareOf(out.jobs, overall)
  {
    if i < |Assembled(raw0, raw1, raw2, stringToNumber)| {
      AssembledRow(raw0, raw1, raw2, stringToNumber, i);
      var out := Assembled(raw0, raw1, raw2, stringToNumber)[i];
      GroupMetricsBySet(KeptRows(raw0, stringToNumber), KeptRows(raw1, stringToNumber), KeptRows(raw2, stringToNumber),
        stringToNumber, (out.region, out.year));
    }
  }

  /** The metrics of the tagged rows of one (Region, Year), from any three
      sets: Jobs is the second set's figures minus the third's, and Share
      divides it by the first's, each summed over that set's rows of the key
      only. */
  lemma GroupMetricsBySet(k0: seq<Row>, k1: seq<Row>, k2: seq<Row>, stringToNumber: string -> Number, k: (string, string))
    ensures
      var sel := Grouping.Select(TagAll(AllTotal, k0) + TagAll(AllMining, k1) + TagAll(SubMining, k2), RowKey, k);
      var out := Summarize(Grouping.Group(k, sel), stringToNumber);
      var overall := SumColumn(Grouping.Select(k0, RowKey, k), ValueColumn, stringToNumber);
      var industry := SumColumn(Grouping.Select(k1, RowKey, k), ValueColumn, stringToNumber);
      var wageSalary := SumColumn(Grouping.Select(k2, RowKey, k), ValueColumn, stringToNumber);
      out.jobs == industry - wageSalary && out.share == ShareOf(out.jobs, overall)
  {
    var sel := Grouping.Select(TagAll(AllTotal, k0) + TagAll(AllMining, k1) + TagAll(SubMining, k2), RowKey, k);
    CombinedColumnSums(k0, k1, k2, stringToNumber, k);
    SummarizeBySums(Grouping.Group(k, sel), stringToNumber,
      SumColumn(Grouping.Select(k0, RowKey, k), ValueColumn, stringToNumber),
      SumColumn(Grouping.Select(k1, RowKey, k), ValueColumn, stringToNumber),
      SumColumn(Grouping.Select(k2, RowKey, k), ValueColumn, stringToNumber));
  }

  /** The reducer's metrics from the three column sums of a group. */
  lemma SummarizeBySums(g: Grouping.Group<(string, string), Row>, stringToNumber: string -> Number,
                        overall: real, industry: real, wageSalary: real)
    requires SumColumn(g.values, OverallColumn, stringToNumber) == overall
    requires SumColumn(g.values, IndustryColumn, stringToNumber) == industry
    requires SumColumn(g.values, ValueColumn, stringToNumber) == wageSalary
    ensures Summarize(g, stringToNumber).jobs == industry - wageSalary
    ensures Summarize(g, stringToNumber).share == ShareOf(Summarize(g, stringToNumber).jobs, overall)
  {
  }

  /** Summary `i` of the groups of `rows` is the key of group `i` merged
      with the reducer's metrics over that key's rows. */
  lemma SummaryOfGroup(rows: seq<Row>, i: nat, stringToNumber: string -> Number)
    returns (g: Grouping.Group<(string, string), Row>)
    requires i < |Grouping.GroupBy(rows, RowKey)|
    ensures g == Grouping.Group(g.key, Grouping.Select(rows, RowKey, g.key))
    ensures Summaries(Grouping.GroupBy(rows, RowKey), stringToNumber)[i] == Summarize(g, stringToNumber)
  {
    g := Grouping.GroupBy(rows, RowKey)[i];
  }

  /** The output has one row per distinct (Region, Year) of the combined
      rows, and only such rows: each output row's key selects some of them. */
  lemma AssembledKeys(raw0: seq<BeaRow>, raw1: seq<BeaRow>, raw2: seq<BeaRow>, stringToNumber: string -> Number)
    ensures var out := Assembled(raw0, raw1, raw2, stringToNumber);
      && (forall i, j :: 0 <= i < j < |out| ==> (out[i].region, out[i].year) != (out[j].region, out[j].year))
      && (forall d :: d in Combined(raw0, raw1, raw2, stringToNumber) ==>
            exists i :: 0 <= i < |out| && out[i].region == d.region && out[i].year == d.year)
      && (forall i :: 0 <= i < |out| ==>
            Grouping.Select(Combined(raw0, raw1, raw2, stringToNumber), RowKey, (out[i].region, out[i].year)) != [])
  {
    SummaryKeys(Combined(raw0, raw1, raw2, stringToNumber), stringToNumber);
  }

  /** The keys of the summaries of any rows' groups: distinct, one per key
      of the rows, and each selecting at least one row. */
  lemma SummaryKeys(rows: seq<Row>, stringToNumber: string -> Number)
    ensures var out := Summaries(Grouping.GroupBy(rows, RowKey), stringToNumber);
      && (forall i, j :: 0 <= i < j < |out| ==> (out[i].region, out[i].year) != (out[j].region, out[j].year))
      && (forall d :: d in rows ==> exists i :: 0 <= i < |out| && out[i].region == d.region && out[i].year == d.year)
      && (forall i :: 0 <= i < |out| ==> Grouping.Select(rows, RowKey, (out[i].region, out[i].year)) != [])
  {
    var gs := Grouping.GroupBy(rows, RowKey);
    var out := Summaries(gs, stringToNumber);
    assert forall i :: 0 <= i < |out| ==> (out[i].region, out[i].year) == gs[i].key;
  }
}
