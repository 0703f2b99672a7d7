/** The consistency checks between the revenue rollups and the pivot
    tables they were built from: each pivot row must agree with its rollup
    entry, each rollup entry must come from exactly one pivot row, every
    state's "All" figures must be the sum of its commodities, and the
    national civil penalties must agree with their pivot table. A check
    stops at its first failed assertion and reports it. */
module RevenueChecks {
  import opened Js

  /** One property of a loaded object, in `for...in` order. */
  datatype Entry<V> = Entry(key: string, val: V)

  /** A loaded object: its properties in `for...in` order. */
  type Obj<V> = seq<Entry<V>>

  /** `obj[key]`: the value stored under `key`, if any. */
  function Get<V>(obj: Obj<V>, key: string): (r: Option<V>)
    ensures r.None? <==> forall i :: 0 <= i < |obj| ==> obj[i].key != key
    ensures r.Some? ==> exists i :: 0 <= i < |obj| && obj[i] == Entry(key, r.value)
  {
    if obj == [] then None
    else if obj[0].key == key then Some(obj[0].val)
    else Get(obj[1..], key)
  }

  /** A rollup by type: state, commodity, revenue type, year, revenue. */
  type Years = Obj<Number>
  type Types = Obj<Years>
  type Commodities = Obj<Types>
  type TypeRollup = Obj<Commodities>

  /** A row of a pivot table. */
  datatype PivotRow = PivotRow(st: string, commodity: string, revenueType: string, cy: string, total: string)

  /** The four keys that locate a rollup value. */
  datatype Key = Key(st: string, commodity: string, revenueType: string, year: string)

  /** Reading `rollup[st][commodity][type][year]`: indexing `undefined`
      throws, a missing year reads `undefined`. */
  datatype Lookup = Throws | Missing | Found(value: Number)

  function Dig(rollup: TypeRollup, k: Key): Lookup {
    match Get(rollup, k.st)
    case None => Throws
    case Some(commodities) =>
      match Get(commodities, k.commodity)
      case None => Throws
      case Some(types) =>
        match Get(types, k.revenueType)
        case None => Throws
        case Some(years) =>
          match Get(years, k.year)
          case None => Missing
          case Some(v) => Found(v)
  }

  /** The number a lookup that did not throw yields; `undefined` is NaN in
      the subtraction. */
  function Actual(l: Lookup): Number {
    if l.Found? then l.value else NaN
  }

  /** The failed assertion that stops a check. */
  datatype Discrepancy =
    | NaNRevenue(row: PivotRow)
    | NoData(row: PivotRow)
    | ValueMismatch(key: Key, actual: Number, expected: Number)
    | RowCount(key: Key, count: nat)

  const TOLERANCE: real := 1.0

  /** The rollup key of a pivot row: only its commodity is trimmed. */
  function PivotKey(d: PivotRow): Key {
    Key(d.st, Trim(d.commodity), d.revenueType, d.cy)
  }

  /** `testRow` of the state value check: a yearly row (not a " Total"
      row) must have a numeric Total, a rollup entry, and a rollup value
      within 1 of the Total, inclusive. */
  function CheckPivotRow(d: PivotRow, rollup: TypeRollup, parseDollars: string -> Number): (r: Option<Discrepancy>)
    ensures r.None? <==>
      || EndsWith(d.cy, " Total")
      || (&& parseDollars(d.total).Finite?
          && Dig(rollup, PivotKey(d)).Found?
          && Within(parseDollars(d.total), Dig(rollup, PivotKey(d)).value, TOLERANCE))
    ensures r == Some(NaNRevenue(d)) <==> !EndsWith(d.cy, " Total") && parseDollars(d.total).NaN?
    ensures r == Some(NoData(d)) <==>
      !EndsWith(d.cy, " Total") && parseDollars(d.total).Finite? && Dig(rollup, PivotKey(d)).Throws?
  {
    if EndsWith(d.cy, " Total") then None
    else
      var expected := parseDollars(d.total);
      if expected.NaN? then Some(NaNRevenue(d))
      else
        var found := Dig(rollup, PivotKey(d));
        if found.Throws? then Some(NoData(d))
        else
          var actual := Actual(found);
          if Within(expected, actual, TOLERANCE) then None
          else Some(ValueMismatch(PivotKey(d), actual, expected))
  }

  /** `testRow` of the national check: only a row whose Revenue Type ends
      in "Civil Penalties" is compared, with `US.All[type][CY]`. */
  function CheckNationalRow(d: PivotRow, national: TypeRollup, parseDollars: string -> Number): (r: Option<Discrepancy>)
    ensures r.None? <==>
      || !EndsWith(d.revenueType, "Civil Penalties")
      || (&& parseDollars(d.total).Finite?
          && Dig(national, NationalKey(d)).Found?
          && Within(parseDollars(d.total), Dig(national, NationalKey(d)).value, TOLERANCE))
    ensures r == Some(NaNRevenue(d)) <==> EndsWith(d.revenueType, "Civil Penalties") && parseDollars(d.total).NaN?
    ensures r == Some(NoData(d)) <==>
      EndsWith(d.revenueType, "Civil Penalties") && parseDollars(d.total).Finite? && Dig(national, NationalKey(d)).Throws?
  {
    if !EndsWith(d.revenueType, "Civil Penalties") then None
    else
      var expected := parseDollars(d.total);
      if expected.NaN? then Some(NaNRevenue(d))
      else
        var found := Dig(national, NationalKey(d));
        if found.Throws? then Some(NoData(d))
        else
          var actual := Actual(found);
          if Within(expected, actual, TOLERANCE) then None
          else Some(ValueMismatch(NationalKey(d), actual, expected))
  }

  function NationalKey(d: PivotRow): Key {
    Key("US", "All", d.revenueType, d.cy)
  }

  /** The failed assertion of a row-by-row check, with the row's index. */
  datatype RowFailure = RowFailure(index: nat, discrepancy: Discrepancy)

  /** `rows.forEach(testRow)`: the first row whose check fails stops the
      test. */
  method FirstFailure(rows: seq<PivotRow>, testRow: PivotRow -> Option<Discrepancy>) returns (failure: Option<RowFailure>)
    ensures failure.None? <==> forall i :: 0 <= i < |rows| ==> testRow(rows[i]).None?
    ensures failure.Some? ==>
      && failure.value.index < |rows|
      && testRow(rows[failure.value.index]) == Some(failure.value.discrepancy)
      && forall j :: 0 <= j < failure.value.index ==> testRow(rows[j]).None?
  {
    for i := 0 to |rows|
      invariant forall j :: 0 <= j < i ==> testRow(rows[j]).None?
    {
      var outcome := testRow(rows[i]);
      if outcome.Some? {
        return Some(RowFailure(i, outcome.value));
      }
    }
    return None;
  }

  /** The state value check over the onshore pivot table. */
  method CheckPivotRows(rows: seq<PivotRow>, rollup: TypeRollup, parseDollars: string -> Number)
    returns (failure: Option<RowFailure>)
    ensures failure.None? <==> forall i :: 0 <= i < |rows| ==> CheckPivotRow(rows[i], rollup, parseDollars).None?
    ensures failure.Some? ==>
      && failure.value.index < |rows|
      && CheckPivotRow(rows[failure.value.index], rollup, parseDollars) == Some(failure.value.discrepancy)
      && forall j :: 0 <= j < failure.value.index ==> CheckPivotRow(rows[j], rollup, parseDollars).None?
  {
    failure := FirstFailure(rows, d => CheckPivotRow(d, rollup, parseDollars));
  }

  /** The national check over the civil penalties pivot table. */
  method CheckNationalRows(rows: seq<PivotRow>, national: TypeRollup, parseDollars: string -> Number)
    returns (failure: Option<RowFailure>)
    ensures failure.None? <==> forall i :: 0 <= i < |rows| ==> CheckNationalRow(rows[i], national, parseDollars).None?
    ensures failure.Some? ==>
      && failure.value.index < |rows|
      && CheckNationalRow(rows[failure.value.index], national, parseDollars) == Some(failure.value.discrepancy)
      && forall j :: 0 <= j < failure.value.index ==> CheckNationalRow(rows[j], national, parseDollars).None?
  {
    failure := FirstFailure(rows, d => CheckNationalRow(d, national, parseDollars));
  }

  // ----- The reverse check: every rollup entry comes from one pivot row -----

  /** `filter`: a pivot row matches a key when its state, trimmed
      commodity, revenue type and year are all equal to the key's. */
  predicate Matches(d: PivotRow, k: Key) {
    d.st == k.st && Trim(d.commodity) == k.commodity && d.revenueType == k.revenueType && d.cy == k.year
  }

  /** `rows.filter(filter)`: the matching rows, in order. */
  function Filter(rows: seq<PivotRow>, k: Key): (found: seq<PivotRow>)
    ensures |found| <= |rows|
    ensures forall d :: d in found <==> d in rows && Matches(d, k)
  {
    if rows == [] then []
    else
      var last := rows[|rows| - 1];
      Filter(rows[..|rows| - 1], k) + (if Matches(last, k) then [last] else [])
  }

  /** Commodity types the reverse check does not visit. */
  predicate ExcludedType(revenueType: string) {
    revenueType == "All" || revenueType == "Civil Penalties" || revenueType == "Other Revenues"
  }

  /** The two assertions made for one rollup entry: exactly one pivot row
      matches its key, and that row's Total is within 1 of the entry. */
  function CheckEntry(rows: seq<PivotRow>, k: Key, actual: Number, parseDollars: string -> Number): (r: Option<Discrepancy>)
    ensures r.None? <==> |Filter(rows, k)| == 1 && Within(parseDollars(Filter(rows, k)[0].total), actual, TOLERANCE)
    ensures r.Some? && r.value.RowCount? <==> |Filter(rows, k)| != 1
    ensures r.Some? && r.value.RowCount? ==> r.value == RowCount(k, |Filter(rows, k)|)
  {
    var found := Filter(rows, k);
    if |found| != 1 then Some(RowCount(k, |found|))
    else
      var expected := parseDollars(found[0].total);
      if Within(expected, actual, TOLERANCE) then None
      else Some(ValueMismatch(k, actual, expected))
  }

  predicate YearsPass(rows: seq<PivotRow>, st: string, c: string, t: string, years: Years, parseDollars: string -> Number) {
    forall i :: 0 <= i < |years| ==> CheckEntry(rows, Key(st, c, t, years[i].key), years[i].val, parseDollars).None?
  }

  predicate TypesPass(rows: seq<PivotRow>, st: string, c: string, types: Types, parseDollars: string -> Number) {
    forall i :: 0 <= i < |types| && !ExcludedType(types[i].key) ==>
      YearsPass(rows, st, c, types[i].key, types[i].val, parseDollars)
  }

  predicate CommoditiesPass(rows: seq<PivotRow>, st: string, commodities: Commodities, parseDollars: string -> Number) {
    forall i :: 0 <= i < |commodities| && commodities[i].key != "All" ==>
      TypesPass(rows, st, commodities[i].key, commodities[i].val, parseDollars)
  }

  /** Every visited rollup entry passes both assertions. */
  predicate ReversePass(rows: seq<PivotRow>, rollup: TypeRollup, parseDollars: string -> Number) {
    forall i :: 0 <= i < |rollup| ==> CommoditiesPass(rows, rollup[i].key, rollup[i].val, parseDollars)
  }

  /** `f` is the failure of the first failing year entry, in visiting order. */
  predicate YearsFail(rows: seq<PivotRow>, st: string, c: string, t: string, years: Years, parseDollars: string -> Number, f: Discrepancy) {
    exists i :: (
      && 0 <= i < |years|
      && CheckEntry(rows, Key(st, c, t, years[i].key), years[i].val, parseDollars) == Some(f)
      && forall j :: 0 <= j < i ==> CheckEntry(rows, Key(st, c, t, years[j].key), years[j].val, parseDollars).None?)
  }

  /** `f` is the first failure of the first failing visited type. */
  predicate TypesFail(rows: seq<PivotRow>, st: string, c: string, types: Types, parseDollars: string -> Number, f: Discrepancy) {
    exists i :: (
      && 0 <= i < |types| && !ExcludedType(types[i].key)
      && YearsFail(rows, st, c, types[i].key, types[i].val, parseDollars, f)
      && forall j :: 0 <= j < i && !ExcludedType(types[j].key) ==> YearsPass(rows, st, c, types[j].key, types[j].val, parseDollars))
  }

  /** `f` is the first failure of the first failing visited commodity. */
  predicate CommoditiesFail(rows: seq<PivotRow>, st: string, commodities: Commodities, parseDollars: string -> Number, f: Discrepancy) {
    exists i :: (
      && 0 <= i < |commodities| && commodities[i].key != "All"
      && TypesFail(rows, st, commodities[i].key, commodities[i].val, parseDollars, f)
      && forall j :: 0 <= j < i && commodities[j].key != "All" ==>
           TypesPass(rows, st, commodities[j].key, commodities[j].val, parseDollars))
  }

  /** `f` is the failure of the first failing visited rollup entry, in
      `for...in` order of states, commodities, types and years. */
  predicate ReverseFail(rows: seq<PivotRow>, rollup: TypeRollup, parseDollars: string -> Number, f: Discrepancy) {
    exists i :: (
      && 0 <= i < |rollup|
      && CommoditiesFail(rows, rollup[i].key, rollup[i].val, parseDollars, f)
      && forall j :: 0 <= j < i ==> CommoditiesPass(rows, rollup[j].key, rollup[j].val, parseDollars))
  }

  /** The innermost loop, over the years of one (state, commodity, type). */
  method CheckYears(rows: seq<PivotRow>, st: string, c: string, t: string, years: Years, parseDollars: string -> Number)
    returns (r: Option<Discrepancy>)
    ensures r.None? <==> YearsPass(rows, st, c, t, years, parseDollars)
    ensures r.Some? ==> YearsFail(rows, st, c, t, years, parseDollars, r.value)
  {
    for i := 0 to |years|
      invariant forall j :: 0 <= j < i ==> CheckEntry(rows, Key(st, c, t, years[j].key), years[j].val, parseDollars).None?
    {
      var k := Key(st, c, t, years[i].key);
      var actual := years[i].val;
      var found := Filter(rows, k);
      if |found| != 1 {
        return Some(RowCount(k, |found|));
      }
      var expected := parseDollars(found[0].total);
      if !Within(expected, actual, TOLERANCE) {
        return Some(ValueMismatch(k, actual, expected));
      }
    }
    return None;
  }

  method CheckTypes(rows: seq<PivotRow>, st: string, c: string, types: Types, parseDollars: string -> Number)
    returns (r: Option<Discrepancy>)
    ensures r.None? <==> TypesPass(rows, st, c, types, parseDollars)
    ensures r.Some? ==> TypesFail(rows, st, c, types, parseDollars, r.value)
  {
    for i := 0 to |types|
      invariant forall j :: 0 <= j < i && !ExcludedType(types[j].key) ==>
        YearsPass(rows, st, c, types[j].key, types[j].val, parseDollars)
    {
      if !ExcludedType(types[i].key) {
        r := CheckYears(rows, st, c, types[i].key, types[i].val, parseDollars);
        if r.Some? {
          return;
        }
      }
    }
    return None;
  }

  method CheckCommodities(rows: seq<PivotRow>, st: string, commodities: Commodities, parseDollars: string -> Number)
    returns (r: Option<Discrepancy>)
    ensures r.None? <==> CommoditiesPass(rows, st, commodities, parseDollars)
    ensures r.Some? ==> CommoditiesFail(rows, st, commodities, parseDollars, r.value)
  {
    for i := 0 to |commodities|
      invariant forall j :: 0 <= j < i && commodities[j].key != "All" ==>
        TypesPass(rows, st, commodities[j].key, commodities[j].val, parseDollars)
    {
      if commodities[i].key != "All" {
        r := CheckTypes(rows, st, commodities[i].key, commodities[i].val, parseDollars);
        if r.Some? {
          return;
        }
      }
    }
    return None;
  }

  /** The reverse check: no rollup value that is not in the pivot table. */
  method CheckReverse(rows: seq<PivotRow>, rollup: TypeRollup, parseDollars: string -> Number)
    returns (r: Option<Discrepancy>)
    ensures r.None? <==> ReversePass(rows, rollup, parseDollars)
    ensures r.Some? ==> ReverseFail(rows, rollup, parseDollars, r.value)
  {
    for i := 0 to |rollup|
      invariant forall j :: 0 <= j < i ==> CommoditiesPass(rows, rollup[j].key, rollup[j].val, parseDollars)
    {
      r := CheckCommodities(rows, rollup[i].key, rollup[i].val, parseDollars);
      if r.Some? {
        return;
      }
    }
    return None;
  }

  // ----- The "All" check: a state's All figures sum its commodities -----

  /** Revenue by year, by commodity, by state. */
  type YearRevenues = Obj<Number>
  type StateCommodities = Obj<YearRevenues>
  type StateRollup = Obj<StateCommodities>

  /** What the loops over one state build: the "All" revenue of each year,
      the sum of the other commodities' revenue of each year, and the
      number of entries summed. */
  datatype Sums = Sums(allByYear: map<string, Number>, totalsByYear: map<string, Number>, count: nat)

  const NO_SUMS := Sums(map[], map[], 0)

  function MapGet(m: map<string, Number>, k: string): Option<Number> {
    if k in m then Some(m[k]) else None
  }

  /** `x || 0`: undefined, NaN and 0 all become 0. */
  function OrZero(x: Option<Number>): (r: Number)
    ensures r.Finite?
    ensures x.Some? && x.value.Finite? ==> r == x.value
  {
    if x.Some? && x.value.Finite? then x.value else Finite(0.0)
  }

  /** `undefined` is NaN in the subtraction. */
  function OrNaN(x: Option<Number>): Number {
    if x.Some? then x.value else NaN
  }

  /** One pass of the inner loop body. */
  function AddEntry(s: Sums, commodity: string, year: string, revenue: Number): (r: Sums)
    ensures r.count == if commodity == "All" then s.count else s.count + 1
    ensures forall y :: y != year ==>
      MapGet(r.allByYear, y) == MapGet(s.allByYear, y) && MapGet(r.totalsByYear, y) == MapGet(s.totalsByYear, y)
    ensures commodity == "All" ==> MapGet(r.allByYear, year) == Some(revenue) && r.totalsByYear == s.totalsByYear
    ensures commodity != "All" ==> r.allByYear == s.allByYear && year in r.totalsByYear
    ensures commodity != "All" ==>
      (r.totalsByYear[year].Finite? <==> revenue.Finite?) &&
      (revenue.Finite? ==> r.totalsByYear[year].value == OrZero(MapGet(s.totalsByYear, year)).value + revenue.value)
  {
    if commodity == "All" then s.(allByYear := s.allByYear[year := revenue])
    else s.(totalsByYear := s.totalsByYear[year := Add(OrZero(MapGet(s.totalsByYear, year)), revenue)], count := s.count + 1)
  }

  function AddYears(s: Sums, commodity: string, years: YearRevenues): Sums {
    if years == [] then s
    else
      var last := years[|years| - 1];
      AddEntry(AddYears(s, commodity, years[..|years| - 1]), commodity, last.key, last.val)
  }

  function AddCommodities(s: Sums, commodities: StateCommodities): Sums {
    if commodities == [] then s
    else
      var last := commodities[|commodities| - 1];
      AddYears(AddCommodities(s, commodities[..|commodities| - 1]), last.key, last.val)
  }

  /** The nested loops over one state's commodities and years. */
  method SumState(commodities: StateCommodities) returns (s: Sums)
    ensures s == AddCommodities(NO_SUMS, commodities)
  {
    s := NO_SUMS;
    for i := 0 to |commodities|
      invariant s == AddCommodities(NO_SUMS, commodities[..i])
    {
      assert commodities[..i + 1][..i] == commodities[..i];
      var commodity := commodities[i].key;
      var years := commodities[i].val;
      ghost var before := s;
      for j := 0 to |years|
        invariant s == AddYears(before, commodity, years[..j])
      {
        assert years[..j + 1][..j] == years[..j];
        s := AddEntry(s, commodity, years[j].key, years[j].val);
      }
      assert years[..|years|] == years;
    }
    assert commodities[..|commodities|] == commodities;
  }

  /** `Math.abs(allByYear[year] - totalsByYear[year]) <= count` */
  predicate YearAgrees(s: Sums, year: string) {
    Within(OrNaN(MapGet(s.allByYear, year)), OrNaN(MapGet(s.totalsByYear, year)), s.count as real)
  }

  /** The two loops over the years of the sums, and over the years of the
      "All" figures. */
  predicate StateAgrees(s: Sums) {
    && (forall y :: y in s.totalsByYear ==> YearAgrees(s, y))
    && (forall y :: y in s.allByYear ==> YearAgrees(s, y))
  }

  /** The "All" check over every state but "None"; the first failing state
      stops it. */
  method CheckAllSums(states: StateRollup) returns (failure: Option<string>)
    ensures failure.None? <==>
      forall i :: 0 <= i < |states| && states[i].key != "None" ==> StateAgrees(AddCommodities(NO_SUMS, states[i].val))
    ensures failure.Some? ==> exists i :: (
      && 0 <= i < |states|
      && states[i].key == failure.value && failure.value != "None"
      && !StateAgrees(AddCommodities(NO_SUMS, states[i].val))
      && forall j :: 0 <= j < i && states[j].key != "None" ==> StateAgrees(AddCommodities(NO_SUMS, states[j].val)))
  {
    for i := 0 to |states|
      invariant forall j :: 0 <= j < i && states[j].key != "None" ==> StateAgrees(AddCommodities(NO_SUMS, states[j].val))
    {
      if states[i].key != "None" {
        var s := SumState(states[i].val);
        if !StateAgrees(s) {
          return Some(states[i].key);
        }
      }
    }
    return None;
  }

  // ----- What the reverse check's row matching means -----

  /** A rollup commodity that itself starts with white space matches no
      pivot row, since only the pivot side is trimmed. */
  lemma PaddedRollupCommodityMatchesNothing(rows: seq<PivotRow>, k: Key)
    requires k.commodity != [] && IsWhitespace(k.commodity[0])
    ensures Filter(rows, k) == []
  {
  }

  /** When no row matches a key, the filter yields nothing. */
  lemma {:induction false} FilterNone(rows: seq<PivotRow>, k: Key)
    requires forall j :: 0 <= j < |rows| ==> !Matches(rows[j], k)
    ensures Filter(rows, k) == []
    decreases |rows|
  {
    if rows != [] {
      FilterNone(rows[..|rows| - 1], k);
    }
  }

  /** When exactly one row matches a key, the filter yields that row. */
  lemma {:induction false} FilterUnique(rows: seq<PivotRow>, k: Key, i: nat)
    requires i < |rows| && Matches(rows[i], k)
    requires forall j :: 0 <= j < |rows| && j != i ==> !Matches(rows[j], k)
    ensures Filter(rows, k) == [rows[i]]
    decreases |rows|
  {
    var prefix := rows[..|rows| - 1];
    if i == |rows| - 1 {
      FilterNone(prefix, k);
    } else {
      FilterUnique(prefix, k, i);
    }
  }

  /** Two matching rows make the filter yield at least two. */
  lemma {:induction false} FilterTwo(rows: seq<PivotRow>, k: Key, i: nat, j: nat)
    requires i < j < |rows| && Matches(rows[i], k) && Matches(rows[j], k)
    ensures |Filter(rows, k)| >= 2
    decreases |rows|
  {
    var prefix := rows[..|rows| - 1];
    if j < |rows| - 1 {
      FilterTwo(prefix, k, i, j);
    } else {
      assert rows[i] in prefix && Matches(rows[i], k);
      assert Filter(prefix, k) != [];
    }
  }

  /** A rollup entry no pivot row matches fails with a row count of 0. */
  lemma EntryWithoutRowFails(rows: seq<PivotRow>, k: Key, actual: Number, parseDollars: string -> Number)
    requires forall j :: 0 <= j < |rows| ==> !Matches(rows[j], k)
    ensures CheckEntry(rows, k, actual, parseDollars) == Some(RowCount(k, 0))
  {
    FilterNone(rows, k);
  }

  /** A rollup entry two pivot rows match fails on the row count. */
  lemma EntryWithDuplicateRowsFails(rows: seq<PivotRow>, k: Key, actual: Number, parseDollars: string -> Number, i: nat, j: nat)
    requires i < j < |rows| && Matches(rows[i], k) && Matches(rows[j], k)
    ensures CheckEntry(rows, k, actual, parseDollars) == Some(RowCount(k, |Filter(rows, k)|))
  {
    FilterTwo(rows, k, i, j);
  }

  /** A rollup entry exactly one pivot row matches passes exactly when
      that row's Total is within 1 of it. */
  lemma EntryWithUniqueRow(rows: seq<PivotRow>, k: Key, actual: Number, parseDollars: string -> Number, i: nat)
    requires i < |rows| && Matches(rows[i], k)
    requires forall j :: 0 <= j < |rows| && j != i ==> !Matches(rows[j], k)
    ensures CheckEntry(rows, k, actual, parseDollars).None? <==> Within(parseDollars(rows[i].total), actual, TOLERANCE)
  {
    FilterUnique(rows, k, i);
  }

  /** One visited rollup entry without a pivot row makes the whole reverse
      check fail. */
  lemma MissingRowFailsReverse(rows: seq<PivotRow>, rollup: TypeRollup, parseDollars: string -> Number,
                               a: nat, b: nat, c: nat, e: nat)
    requires a < |rollup| && b < |rollup[a].val| && c < |rollup[a].val[b].val| && e < |rollup[a].val[b].val[c].val|
    requires rollup[a].val[b].key != "All" && !ExcludedType(rollup[a].val[b].val[c].key)
    requires forall j :: 0 <= j < |rows| ==>
      !Matches(rows[j], Key(rollup[a].key, rollup[a].val[b].key, rollup[a].val[b].val[c].key, rollup[a].val[b].val[c].val[e].key))
    ensures !ReversePass(rows, rollup, parseDollars)
  {
    var commodity := rollup[a].val[b];
    var types := commodity.val;
    var years := types[c].val;
    var k := Key(rollup[a].key, commodity.key, types[c].key, years[e].key);
    EntryWithoutRowFails(rows, k, years[e].val, parseDollars);
    assert !YearsPass(rows, rollup[a].key, commodity.key, types[c].key, years, parseDollars);
    assert !TypesPass(rows, rollup[a].key, commodity.key, types, parseDollars);
    assert !CommoditiesPass(rows, rollup[a].key, rollup[a].val, parseDollars);
  }

  /** The inclusive tolerance: a pivot Total exactly 1 away from its rollup
      value passes, one 2 away fails. */
  lemma ToleranceIsInclusive(d: PivotRow, rollup: TypeRollup, parseDollars: string -> Number, v: real)
    requires !EndsWith(d.cy, " Total") && Dig(rollup, PivotKey(d)) == Found(Finite(v))
    ensures parseDollars(d.total) == Finite(v + 1.0) ==> CheckPivotRow(d, rollup, parseDollars).None?
    ensures parseDollars(d.total) == Finite(v - 1.0) ==> CheckPivotRow(d, rollup, parseDollars).None?
    ensures parseDollars(d.total) == Finite(v + 2.0) ==>
      CheckPivotRow(d, rollup, parseDollars) == Some(ValueMismatch(PivotKey(d), Finite(v), Finite(v + 2.0)))
  {
  }

  /** A yearly row whose rollup lacks the year fails on the value, since
      the missing value reads as NaN. */
  lemma MissingYearFails(d: PivotRow, rollup: TypeRollup, parseDollars: string -> Number)
    requires !EndsWith(d.cy, " Total") && parseDollars(d.total).Finite? && Dig(rollup, PivotKey(d)) == Missing
    ensures CheckPivotRow(d, rollup, parseDollars) == Some(ValueMismatch(PivotKey(d), NaN, parseDollars(d.total)))
  {
  }

  // ----- What the "All" check's sums mean -----

  /** The number of year entries under commodities other than "All". */
  function NonAllEntries(commodities: StateCommodities): nat {
    if commodities == [] then 0
    else
      var last := commodities[|commodities| - 1];
      NonAllEntries(commodities[..|commodities| - 1]) + (if last.key == "All" then 0 else |last.val|)
  }

  /** Some commodity, "All" or not as `all` says, has an entry for `year`. */
  predicate HasYear(commodities: StateCommodities, year: string, all: bool) {
    exists i, j :: 0 <= i < |commodities| && 0 <= j < |commodities[i].val|
      && (commodities[i].key == "All") == all && commodities[i].val[j].key == year
  }

  /** The last entry for `year`. */
  function LastEntry(years: YearRevenues, year: string): (r: Option<Number>)
    ensures r.Some? <==> exists j :: 0 <= j < |years| && years[j].key == year
  {
    if years == [] then None
    else if years[|years| - 1].key == year then Some(years[|years| - 1].val)
    else LastEntry(years[..|years| - 1], year)
  }

  /** The revenue of `year` in the last "All" commodity that has it. */
  function LastAll(commodities: StateCommodities, year: string): (r: Option<Number>)
    ensures r.Some? <==> HasYear(commodities, year, true)
  {
    if commodities == [] then None
    else
      var prefix := commodities[..|commodities| - 1];
      var last := commodities[|commodities| - 1];
      assert forall i :: 0 <= i < |prefix| ==> prefix[i] == commodities[i];
      if last.key == "All" && LastEntry(last.val, year).Some? then LastEntry(last.val, year)
      else LastAll(prefix, year)
  }

  /** The sum of the revenue entries for `year`. */
  function EntrySum(years: YearRevenues, year: string): real {
    if years == [] then 0.0
    else
      var last := years[|years| - 1];
      EntrySum(years[..|years| - 1], year) + (if last.key == year && last.val.Finite? then last.val.value else 0.0)
  }

  /** The sum of the revenue of `year` over the commodities other than
      "All". */
  function YearTotal(commodities: StateCommodities, year: string): real {
    if commodities == [] then 0.0
    else
      var last := commodities[|commodities| - 1];
      YearTotal(commodities[..|commodities| - 1], year) + (if last.key == "All" then 0.0 else EntrySum(last.val, year))
  }

  /** Every revenue the sums add up is a number. */
  predicate NonAllFinite(commodities: StateCommodities) {
    forall i, j :: 0 <= i < |commodities| && 0 <= j < |commodities[i].val| && commodities[i].key != "All" ==>
      commodities[i].val[j].val.Finite?
  }

  predicate FiniteTotals(s: Sums) {
    forall y :: y in s.totalsByYear ==> s.totalsByYear[y].Finite?
  }

  function TotalOf(s: Sums, year: string): real {
    if year in s.totalsByYear && s.totalsByYear[year].Finite? then s.totalsByYear[year].value else 0.0
  }

  lemma {:induction false} AddYearsCount(s: Sums, commodity: string, years: YearRevenues)
    ensures AddYears(s, commodity, years).count == s.count + (if commodity == "All" then 0 else |years|)
    decreases |years|
  {
    if years != [] {
      AddYearsCount(s, commodity, years[..|years| - 1]);
    }
  }

  /** `count` is the number of non-"All" entries over all years of the
      state, not over one year. */
  lemma {:induction false} SumsCount(s: Sums, commodities: StateCommodities)
    ensures AddCommodities(s, commodities).count == s.count + NonAllEntries(commodities)
    decreases |commodities|
  {
    if commodities != [] {
      var last := commodities[|commodities| - 1];
      SumsCount(s, commodities[..|commodities| - 1]);
      AddYearsCount(AddCommodities(s, commodities[..|commodities| - 1]), last.key, last.val);
    }
  }

  lemma {:induction false} AddYearsKeys(s: Sums, commodity: string, years: YearRevenues, year: string)
    ensures year in AddYears(s, commodity, years).totalsByYear <==>
      year in s.totalsByYear || (commodity != "All" && exists j :: 0 <= j < |years| && years[j].key == year)
    ensures MapGet(AddYears(s, commodity, years).allByYear, year) ==
      if commodity == "All" && LastEntry(years, year).Some? then LastEntry(years, year) else MapGet(s.allByYear, year)
    decreases |years|
  {
    if years != [] {
      var prefix := years[..|years| - 1];
      AddYearsKeys(s, commodity, prefix, year);
      assert forall j :: 0 <= j < |prefix| ==> prefix[j] == years[j];
    }
  }

  /** A year has a sum exactly when a non-"All" commodity has it, and its
      "All" figure is the last one given. */
  lemma {:induction false} SumsKeys(s: Sums, commodities: StateCommodities, year: string)
    ensures year in AddCommodities(s, commodities).totalsByYear <==>
      year in s.totalsByYear || HasYear(commodities, year, false)
    ensures MapGet(AddCommodities(s, commodities).allByYear, year) ==
      if LastAll(commodities, year).Some? then LastAll(commodities, year) else MapGet(s.allByYear, year)
    decreases |commodities|
  {
    if commodities != [] {
      var prefix := commodities[..|commodities| - 1];
      var last := commodities[|commodities| - 1];
      SumsKeys(s, prefix, year);
      AddYearsKeys(AddCommodities(s, prefix), last.key, last.val, year);
      assert forall i :: 0 <= i < |prefix| ==> prefix[i] == commodities[i];
      if HasYear(commodities, year, false) && !HasYear(prefix, year, false) {
        var i, j :| 0 <= i < |commodities| && 0 <= j < |commodities[i].val|
          && commodities[i].key != "All" && commodities[i].val[j].key == year;
        assert i == |commodities| - 1;
      }
    }
  }

  lemma {:induction false} AddYearsTotals(s: Sums, commodity: string, years: YearRevenues, year: string)
    requires FiniteTotals(s)
    requires commodity != "All" ==> forall j :: 0 <= j < |years| ==> years[j].val.Finite?
    ensures FiniteTotals(AddYears(s, commodity, years))
    ensures TotalOf(AddYears(s, commodity, years), year)
         == TotalOf(s, year) + (if commodity == "All" then 0.0 else EntrySum(years, year))
    decreases |years|
  {
    if years != [] {
      var prefix := years[..|years| - 1];
      AddYearsTotals(s, commodity, prefix, year);
    }
  }

  lemma {:induction false} AddCommoditiesTotals(s: Sums, commodities: StateCommodities, year: string)
    requires FiniteTotals(s) && NonAllFinite(commodities)
    ensures FiniteTotals(AddCommodities(s, commodities))
    ensures TotalOf(AddCommodities(s, commodities), year) == TotalOf(s, year) + YearTotal(commodities, year)
    decreases |commodities|
  {
    if commodities != [] {
      var prefix := commodities[..|commodities| - 1];
      var last := commodities[|commodities| - 1];
      assert NonAllFinite(prefix) by {
        assert forall i :: 0 <= i < |prefix| ==> prefix[i] == commodities[i];
      }
      AddCommoditiesTotals(s, prefix, year);
      AddYearsTotals(AddCommodities(s, prefix), last.key, last.val, year);
    }
  }

  /** What the "All" check decides for one state, in terms of its data:
      every year that has an "All" figure or a commodity figure has both,
      and the last "All" figure is within the number of summed entries of
      the sum of the other commodities' figures for that year. */
  lemma StateAgreesIff(commodities: StateCommodities)
    requires NonAllFinite(commodities)
    ensures StateAgrees(AddCommodities(NO_SUMS, commodities)) <==>
      forall y :: HasYear(commodities, y, true) || HasYear(commodities, y, false) ==>
        && HasYear(commodities, y, true) && HasYear(commodities, y, false)
        && Within(LastAll(commodities, y).value, Finite(YearTotal(commodities, y)), NonAllEntries(commodities) as real)
  {
    var s := AddCommodities(NO_SUMS, commodities);
    SumsCount(NO_SUMS, commodities);
    forall y
      ensures (y in s.totalsByYear <==> HasYear(commodities, y, false))
      ensures (y in s.allByYear <==> HasYear(commodities, y, true))
      ensures y in s.allByYear ==> s.allByYear[y] == LastAll(commodities, y).value
      ensures y in s.totalsByYear ==> s.totalsByYear[y] == Finite(YearTotal(commodities, y))
    {
      SumsKeys(NO_SUMS, commodities, y);
      AddCommoditiesTotals(NO_SUMS, commodities, y);
    }
  }

  /** A year present under "All" but under no other commodity fails the
      check: its sum is undefined. */
  lemma AllYearWithoutCommoditiesFails(commodities: StateCommodities, year: string)
    requires HasYear(commodities, year, true) && !HasYear(commodities, year, false)
    ensures !StateAgrees(AddCommodities(NO_SUMS, commodities))
  {
    var s := AddCommodities(NO_SUMS, commodities);
    SumsKeys(NO_SUMS, commodities, year);
    assert year in s.allByYear && !YearAgrees(s, year);
  }

  /** `(totalsByYear[year] || 0) + revenue`: a revenue that is not a number
      makes the sum NaN, and the next revenue for that year restarts the sum
      from zero, so every revenue before it is dropped. */
  lemma NaNRevenueRestartsSum(s: Sums, before: string, after: string, year: string, v: real)
    requires before != "All" && after != "All"
    ensures AddEntry(s, before, year, NaN).totalsByYear[year] == NaN
    ensures AddEntry(AddEntry(s, before, year, NaN), after, year, Finite(v)).totalsByYear[year] == Finite(v)
  {
  }

  /** Commodities A (500), B (not a number) and C (7) with an "All" figure
      of 7 for 2015, and the same state without B. */
  const A_2015: Entry<YearRevenues> := Entry("A", [Entry("2015", Finite(500.0))])
  const B_2015: Entry<YearRevenues> := Entry("B", [Entry("2015", NaN)])
  const C_2015: Entry<YearRevenues> := Entry("C", [Entry("2015", Finite(7.0))])
  const ALL_2015: Entry<YearRevenues> := Entry("All", [Entry("2015", Finite(7.0))])

  /** The state with the NaN revenue passes the check: the sum restarts at C. */
  lemma NaNRevenueHidesDiscrepancy()
    ensures StateAgrees(AddCommodities(NO_SUMS, [A_2015, B_2015, C_2015, ALL_2015]))
  {
    var cs := [A_2015, B_2015, C_2015, ALL_2015];
    assert cs[..3] == [A_2015, B_2015, C_2015] && cs[..3][..2] == [A_2015, B_2015] && cs[..3][..2][..1] == [A_2015];
    assert [A_2015][..0] == [];
    assert AddCommodities(NO_SUMS, [A_2015]) == Sums(map[], map["2015" := Finite(500.0)], 1);
    assert AddCommodities(NO_SUMS, [A_2015, B_2015]) == Sums(map[], map["2015" := NaN], 2);
    assert AddCommodities(NO_SUMS, [A_2015, B_2015, C_2015]) == Sums(map[], map["2015" := Finite(7.0)], 3);
    var s := AddCommodities(NO_SUMS, cs);
    assert s == Sums(map["2015" := Finite(7.0)], map["2015" := Finite(7.0)], 3);
    assert YearAgrees(s, "2015");
    assert s.allByYear.Keys == {"2015"} && s.totalsByYear.Keys == {"2015"};
  }

  /** Without the NaN revenue the same figures fail: 507 is not within 2 of 7. */
  lemma DiscrepancyWithoutNaNRevenue()
    ensures !StateAgrees(AddCommodities(NO_SUMS, [A_2015, C_2015, ALL_2015]))
  {
    var cs := [A_2015, C_2015, ALL_2015];
    assert cs[..2] == [A_2015, C_2015] && cs[..2][..1] == [A_2015];
    assert [A_2015][..0] == [];
    assert AddCommodities(NO_SUMS, [A_2015]) == Sums(map[], map["2015" := Finite(500.0)], 1);
    assert AddCommodities(NO_SUMS, [A_2015, C_2015]) == Sums(map[], map["2015" := Finite(507.0)], 2);
    var s := AddCommodities(NO_SUMS, cs);
    assert s == Sums(map["2015" := Finite(7.0)], map["2015" := Finite(507.0)], 2);
    assert !YearAgrees(s, "2015");
  }
}
