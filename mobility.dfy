/** The mobility loader: Google's community mobility report, cut down to the UK and the Scottish
    council areas, grouped by area and date and averaged per date. */
module Mobility {
  import opened Common
  import opened Strings

  /** The council areas that make up Scotland in the report's sub-region column. */
  const SCOTLAND_REGIONS: seq<string> := [
    "Aberdeen City", "Aberdeenshire", "Angus Council", "Argyll and Bute Council",
    "Clackmannanshire", "Dumfries and Galloway", "Dundee City Council", "East Ayrshire Council",
    "East Dunbartonshire Council", "East Lothian Council", "East Renfrewshire Council", "Edinburgh",
    "Falkirk", "Fife", "Glasgow City", "Highland Council",
    "Inverclyde", "Midlothian", "Moray", "Na h-Eileanan an Iar",
    "North Ayrshire Council", "North Lanarkshire", "Orkney", "Perth and Kinross",
    "Renfrewshire", "Scottish Borders", "Shetland Islands", "South Ayrshire Council",
    "South Lanarkshire", "Stirling", "West Dunbartonshire Council", "West Lothian"]

  const UK: string := "UK"
  const SCOTLAND: string := "Scotland"

  /** The number of mobility categories: retail and recreation, grocery and pharmacy, parks,
      transit stations, workplaces and residential. */
  const CATEGORIES: nat := 6

  /** Neither group name is a council area, so no row is stored twice under one key. */
  lemma GroupNamesAreNotRegions()
    ensures UK !in SCOTLAND_REGIONS && SCOTLAND !in SCOTLAND_REGIONS
  {
    forall i | 0 <= i < |SCOTLAND_REGIONS|
      ensures SCOTLAND_REGIONS[i] != UK && SCOTLAND_REGIONS[i] != SCOTLAND
    {
      var r := SCOTLAND_REGIONS[i];
      assert |r| != 2 && (|r| != 8 || r[1] != 'c');
    }
  }

  /** One line of the report file: its raw text and the fields the CSV parser splits it into. */
  datatype Line = Line(text: string, fields: seq<Cell>)

  predicate StartsWith(s: string, prefix: string)
  {
    |prefix| <= |s| && s[..|prefix|] == prefix
  }

  /** The line filter: the raw text starts with 'GB,' and the sub-region is empty (the country as
      a whole) or one of the Scottish council areas. */
  predicate Selected(line: Line)
  {
    StartsWith(line.text, "GB,") && (At(line.fields, 2).None? || At(line.fields, 2).value in SCOTLAND_REGIONS)
  }

  /** `line[9..14].map { |v| v&.to_i }`: the up to six category fields, each to_i, nil kept nil.
      A line of fewer than nine fields has no such slice, and the `map` on nil raises. */
  function CategoryValues(fields: seq<Cell>): (r: Result<seq<Option<int>>>)
    ensures r.Ok? <==> |fields| >= 9
    ensures r.Ok? ==> |r.value| == if |fields| >= 15 then CATEGORIES else |fields| - 9
    ensures r.Ok? ==> forall c :: 0 <= c < |r.value| ==>
      (r.value[c].None? <==> fields[9 + c].None?) &&
      (r.value[c].Some? ==> r.value[c].value == ToI(fields[9 + c].value))
  {
    if |fields| < 9 then Err("undefined method 'map' for nil")
    else
      var hi := if |fields| >= 15 then 15 else |fields|;
      Ok(seq(hi - 9, c requires 0 <= c < hi - 9 =>
        if fields[9 + c].Some? then Some(ToI(fields[9 + c].value)) else None))
  }

  /** A selected line read: the group it counts towards ('UK' for the country as a whole, else
      'Scotland'), its own sub-region, its date and its category values. */
  datatype Reading = Reading(group: string, region: Option<string>, date: Date, values: seq<Option<int>>)

  /** One line: `None` when the filter skips it, an error when its fields do not read. */
  function ReadLine(line: Line, parse: DateParser): (r: Result<Option<Reading>>)
    ensures !Selected(line) ==> r == Ok(None)
    ensures Selected(line) ==> (r.Ok? <==> |line.fields| >= 9 && ParseDate(At(line.fields, 8), parse).Ok?)
    ensures Selected(line) && r.Ok? ==> (r.value.Some? &&
      r.value.value.region == At(line.fields, 2) &&
      r.value.value.group == (if At(line.fields, 2).None? then UK else SCOTLAND) &&
      r.value.value.date == ParseDate(At(line.fields, 8), parse).value &&
      r.value.value.values == CategoryValues(line.fields).value)
  {
    if !Selected(line) then Ok(None)
    else
      var region := At(line.fields, 2);
      match CategoryValues(line.fields)
      case Err(e) => Err(e)
      case Ok(values) =>
        match ParseDate(At(line.fields, 8), parse)
        case Err(e) => Err(e)
        case Ok(date) => Ok(Some(Reading(if region.None? then UK else SCOTLAND, region, date, values)))
  }

  /** The selected lines read, in file order; the first failure is the result. */
  function Readings(lines: seq<Line>, parse: DateParser): Result<seq<Reading>>
    decreases |lines|
  {
    if |lines| == 0 then Ok([])
    else
      var n := |lines| - 1;
      match Readings(lines[..n], parse)
      case Err(e) => Err(e)
      case Ok(rs) =>
        match ReadLine(lines[n], parse)
        case Err(e) => Err(e)
        case Ok(None) => Ok(rs)
        case Ok(Some(r)) => Ok(rs + [r])
  }

  /** The category rows of one date, in the order they were read. */
  datatype DayRows = DayRows(date: Date, rows: seq<seq<Option<int>>>)

  /** The dates of one key, in the order they first appeared: a Hash keeps insertion order. */
  datatype Group = Group(key: Option<string>, days: seq<DayRows>)

  function GroupKeys(groups: seq<Group>): (ks: seq<Option<string>>)
    ensures |ks| == |groups| && forall i :: 0 <= i < |groups| ==> ks[i] == groups[i].key
  {
    seq(|groups|, i requires 0 <= i < |groups| => groups[i].key)
  }

  function DayDates(days: seq<DayRows>): (ds: seq<Date>)
    ensures |ds| == |days| && forall i :: 0 <= i < |days| ==> ds[i] == days[i].date
  {
    seq(|days|, i requires 0 <= i < |days| => days[i].date)
  }

  /** Every key once, every date once within its key, and no date without a row. */
  predicate WellFormed(groups: seq<Group>)
  {
    Distinct(GroupKeys(groups)) &&
    forall i :: 0 <= i < |groups| ==> DaysWellFormed(groups[i].days)
  }

  predicate DaysWellFormed(days: seq<DayRows>)
  {
    Distinct(DayDates(days)) && forall j :: 0 <= j < |days| ==> |days[j].rows| > 0
  }

  /** `hash[date].push row` on the dates of one key. */
  function PushDay(days: seq<DayRows>, date: Date, row: seq<Option<int>>): seq<DayRows>
  {
    var j := FirstIndex(DayDates(days), date);
    if j < 0 then days + [DayRows(date, [row])]
    else days[j := DayRows(date, days[j].rows + [row])]
  }

  /** `@@data[key][date].push row`: the default blocks create the key and the date on first use. */
  function PushRow(groups: seq<Group>, key: Option<string>, date: Date, row: seq<Option<int>>): seq<Group>
  {
    var i := FirstIndex(GroupKeys(groups), key);
    if i < 0 then groups + [Group(key, [DayRows(date, [row])])]
    else groups[i := Group(key, PushDay(groups[i].days, date, row))]
  }

  /** `@@data[key][date]`: the rows stored under a key and a date, none when either is missing. */
  function RowsAt(groups: seq<Group>, key: Option<string>, date: Date): seq<seq<Option<int>>>
  {
    var i := FirstIndex(GroupKeys(groups), key);
    if i < 0 then []
    else
      var j := FirstIndex(DayDates(groups[i].days), date);
      if j < 0 then [] else groups[i].days[j].rows
  }

  lemma {:induction false} PushDaySpec(days: seq<DayRows>, date: Date, row: seq<Option<int>>, d: Date)
    requires DaysWellFormed(days)
    ensures DaysWellFormed(PushDay(days, date, row))
    ensures var j := FirstIndex(DayDates(days), d);
      var j' := FirstIndex(DayDates(PushDay(days, date, row)), d);
      (j' >= 0 <==> j >= 0 || d == date) &&
      (j' >= 0 ==> PushDay(days, date, row)[j'].rows == (if j >= 0 then days[j].rows else []) + (if d == date then [row] else []))
  {
    var ds := DayDates(days);
    var j := FirstIndex(ds, date);
    var pushed := PushDay(days, date, row);
    if j < 0 {
      assert DayDates(pushed) == ds + [date];
      FirstIndexAppend(ds, date, d);
      FirstIndexAppend(ds, date, date);
    } else {
      assert DayDates(pushed) == ds;
    }
  }

  /** Pushing a row keeps every key once, every date once within its key, and no date empty. */
  lemma PushRowWellFormed(groups: seq<Group>, key: Option<string>, date: Date, row: seq<Option<int>>)
    requires WellFormed(groups)
    ensures WellFormed(PushRow(groups, key, date, row))
  {
    var ks := GroupKeys(groups);
    var i := FirstIndex(ks, key);
    var pushed := PushRow(groups, key, date, row);
    if i < 0 {
      assert GroupKeys(pushed) == ks + [key];
      assert DayDates([DayRows(date, [row])]) == [date];
    } else {
      assert GroupKeys(pushed) == ks;
      PushDaySpec(groups[i].days, date, row, date);
    }
  }

  /** Pushing a row adds it to the rows under its own key and date, and changes no other rows. */
  lemma PushRowAt(groups: seq<Group>, key: Option<string>, date: Date, row: seq<Option<int>>, k: Option<string>, d: Date)
    requires WellFormed(groups)
    ensures RowsAt(PushRow(groups, key, date, row), k, d) ==
      RowsAt(groups, k, d) + (if k == key && d == date then [row] else [])
  {
    if FirstIndex(GroupKeys(groups), key) < 0 {
      PushRowAtNewKey(groups, key, date, row, k, d);
    } else {
      var i := FirstIndex(GroupKeys(groups), key);
      assert GroupKeys(PushRow(groups, key, date, row)) == GroupKeys(groups);
      PushDaySpec(groups[i].days, date, row, d);
    }
  }

  /** The case of PushRowAt where the key is new: a group holding the one row is appended. */
  lemma PushRowAtNewKey(groups: seq<Group>, key: Option<string>, date: Date, row: seq<Option<int>>, k: Option<string>, d: Date)
    requires FirstIndex(GroupKeys(groups), key) < 0
    ensures RowsAt(PushRow(groups, key, date, row), k, d) ==
      RowsAt(groups, k, d) + (if k == key && d == date then [row] else [])
  {
    var ks := GroupKeys(groups);
    var pushed := PushRow(groups, key, date, row);
    assert pushed == groups + [Group(key, [DayRows(date, [row])])];
    assert GroupKeys(pushed) == ks + [key];
    FirstIndexAppend(ks, key, k);
    if k == key {
      assert DayDates(pushed[|groups|].days) == [date];
      assert FirstIndex(DayDates(pushed[|groups|].days), d) == if d == date then 0 else -1;
    } else if FirstIndex(ks, k) >= 0 {
      assert pushed[FirstIndex(ks, k)] == groups[FirstIndex(ks, k)];
    }
  }

  /** Pushing a row adds its key, and only its key. */
  lemma PushRowKeys(groups: seq<Group>, key: Option<string>, date: Date, row: seq<Option<int>>, k: Option<string>)
    ensures k in GroupKeys(PushRow(groups, key, date, row)) <==> k in GroupKeys(groups) || k == key
  {
    var ks := GroupKeys(groups);
    var pushed := PushRow(groups, key, date, row);
    if FirstIndex(ks, key) < 0 {
      assert GroupKeys(pushed) == ks + [key];
    } else {
      assert GroupKeys(pushed) == ks;
    }
  }

  /** Store a reading under its group and under its own sub-region. */
  function Store(groups: seq<Group>, r: Reading): (g: seq<Group>)
    requires WellFormed(groups)
    ensures WellFormed(g)
  {
    var mid := PushRow(groups, Some(r.group), r.date, r.values);
    PushRowWellFormed(groups, Some(r.group), r.date, r.values);
    PushRowWellFormed(mid, r.region, r.date, r.values);
    PushRow(mid, r.region, r.date, r.values)
  }

  /** The grouping pass over the whole file. */
  function Grouped(lines: seq<Line>, parse: DateParser): (r: Result<seq<Group>>)
    ensures r.Ok? ==> WellFormed(r.value)
    decreases |lines|
  {
    if |lines| == 0 then Ok([])
    else
      var n := |lines| - 1;
      match Grouped(lines[..n], parse)
      case Err(e) => Err(e)
      case Ok(groups) =>
        match ReadLine(lines[n], parse)
        case Err(e) => Err(e)
        case Ok(None) => Ok(groups)
        case Ok(Some(r)) => Ok(Store(groups, r))
  }

  /** The rows a reading contributes to a key and a date: once for its group, once for its
      sub-region. */
  function Contribution(r: Reading, k: Option<string>, d: Date): seq<seq<Option<int>>>
  {
    if r.date != d then []
    else (if Some(r.group) == k then [r.values] else []) + (if r.region == k then [r.values] else [])
  }

  /** The rows every reading contributes to a key and a date, in reading order. */
  function Matching(rs: seq<Reading>, k: Option<string>, d: Date): seq<seq<Option<int>>>
    decreases |rs|
  {
    if |rs| == 0 then [] else Matching(rs[..|rs| - 1], k, d) + Contribution(rs[|rs| - 1], k, d)
  }

  predicate Contributes(r: Reading, k: Option<string>)
  {
    Some(r.group) == k || r.region == k
  }

  /** Some reading is stored under the key, as its group or its sub-region. */
  predicate AnyContributes(rs: seq<Reading>, k: Option<string>)
    decreases |rs|
  {
    |rs| > 0 && (AnyContributes(rs[..|rs| - 1], k) || Contributes(rs[|rs| - 1], k))
  }

  lemma {:induction false} AnyContributesIff(rs: seq<Reading>, k: Option<string>)
    ensures AnyContributes(rs, k) <==> exists i :: 0 <= i < |rs| && Contributes(rs[i], k)
    decreases |rs|
  {
    if |rs| > 0 {
      var init := rs[..|rs| - 1];
      AnyContributesIff(init, k);
      if exists i :: 0 <= i < |rs| && Contributes(rs[i], k) {
        var i :| 0 <= i < |rs| && Contributes(rs[i], k);
        if i < |init| {
          assert init[i] == rs[i];
        }
      }
      if exists i :: 0 <= i < |init| && Contributes(init[i], k) {
        var i :| 0 <= i < |init| && Contributes(init[i], k);
        assert rs[i] == init[i];
      }
    }
  }

  /** Storing a reading adds its contribution to the rows under each key and date. */
  lemma StoreRows(groups: seq<Group>, r: Reading, k: Option<string>, d: Date)
    requires WellFormed(groups)
    ensures RowsAt(Store(groups, r), k, d) == RowsAt(groups, k, d) + Contribution(r, k, d)
  {
    var mid := PushRow(groups, Some(r.group), r.date, r.values);
    var stored := PushRow(mid, r.region, r.date, r.values);
    assert Store(groups, r) == stored;
    var a := if k == Some(r.group) && d == r.date then [r.values] else [];
    var b := if k == r.region && d == r.date then [r.values] else [];
    PushStep(groups, Some(r.group), r.date, r.values, k, d, mid);
    PushStep(mid, r.region, r.date, r.values, k, d, stored);
    assert Contribution(r, k, d) == a + b;
    AppendAssociates(RowsAt(groups, k, d), a, b);
  }

  lemma AppendAssociates<T>(x: seq<T>, a: seq<T>, b: seq<T>)
    ensures (x + a) + b == x + (a + b)
  {
  }

  /** One push, as StoreRows uses it: the result is well formed and gains the row where it belongs. */
  lemma PushStep(groups: seq<Group>, key: Option<string>, date: Date, row: seq<Option<int>>, k: Option<string>, d: Date, pushed: seq<Group>)
    requires WellFormed(groups) && pushed == PushRow(groups, key, date, row)
    ensures WellFormed(pushed)
    ensures RowsAt(pushed, k, d) == RowsAt(groups, k, d) + (if k == key && d == date then [row] else [])
  {
    PushRowWellFormed(groups, key, date, row);
    PushRowAt(groups, key, date, row, k, d);
  }

  /** The grouping pass fails exactly when reading the selected lines fails. */
  lemma {:induction false} GroupedOk(lines: seq<Line>, parse: DateParser)
    ensures Grouped(lines, parse).Ok? <==> Readings(lines, parse).Ok?
    decreases |lines|
  {
    if |lines| > 0 {
      GroupedOk(lines[..|lines| - 1], parse);
    }
  }

  /** Under each key and date the grouping holds exactly the rows of the selected lines of that
      date whose group or sub-region is the key, in file order. */
  lemma {:induction false} GroupedRows(lines: seq<Line>, parse: DateParser, k: Option<string>, d: Date)
    requires Grouped(lines, parse).Ok?
    ensures Readings(lines, parse).Ok?
    ensures RowsAt(Grouped(lines, parse).value, k, d) == Matching(Readings(lines, parse).value, k, d)
    decreases |lines|
  {
    GroupedOk(lines, parse);
    var n := |lines| - 1;
    if |lines| > 0 {
      GroupedRows(lines[..n], parse, k, d);
      var g := Grouped(lines[..n], parse).value;
      var line := ReadLine(lines[n], parse).value;
      if line.Some? {
        var r := line.value;
        StoreRows(g, r, k, d);
        var rs := Readings(lines[..n], parse).value;
        assert (rs + [r])[..|rs|] == rs;
      }
    }
  }

  /** The grouping's keys are exactly the groups and sub-regions of the selected lines. */
  lemma {:induction false} GroupedKeys(lines: seq<Line>, parse: DateParser, k: Option<string>)
    requires Grouped(lines, parse).Ok?
    ensures Readings(lines, parse).Ok?
    ensures k in GroupKeys(Grouped(lines, parse).value) <==>
      exists i :: 0 <= i < |Readings(lines, parse).value| && Contributes(Readings(lines, parse).value[i], k)
    decreases |lines|
  {
    GroupedOk(lines, parse);
    AnyContributesIff(Readings(lines, parse).value, k);
    GroupedAnyKeys(lines, parse, k);
  }

  lemma {:induction false} GroupedAnyKeys(lines: seq<Line>, parse: DateParser, k: Option<string>)
    requires Grouped(lines, parse).Ok? && Readings(lines, parse).Ok?
    ensures k in GroupKeys(Grouped(lines, parse).value) <==> AnyContributes(Readings(lines, parse).value, k)
    decreases |lines|
  {
    var n := |lines| - 1;
    if |lines| > 0 {
      GroupedAnyKeys(lines[..n], parse, k);
      var g := Grouped(lines[..n], parse).value;
      var line := ReadLine(lines[n], parse).value;
      if line.Some? {
        var r := line.value;
        StoreKeys(g, r, k);
        var rs := Readings(lines[..n], parse).value;
        assert Readings(lines, parse).value == rs + [r];
        assert (rs + [r])[..|rs|] == rs;
      }
    }
  }

  /** Storing a reading adds a key exactly when the reading contributes to it. */
  lemma StoreKeys(groups: seq<Group>, r: Reading, k: Option<string>)
    requires WellFormed(groups)
    ensures k in GroupKeys(Store(groups, r)) <==> k in GroupKeys(groups) || Contributes(r, k)
  {
    var mid := PushRow(groups, Some(r.group), r.date, r.values);
    PushRowKeys(groups, Some(r.group), r.date, r.values, k);
    PushRowKeys(mid, r.region, r.date, r.values, k);
    assert Store(groups, r) == PushRow(mid, r.region, r.date, r.values);
  }

  /** The sum of the values present in one category column; a row too short for the column or
      holding nil there adds nothing. */
  function ColumnSum(rows: seq<seq<Option<int>>>, c: nat): int
    decreases |rows|
  {
    if |rows| == 0 then 0
    else
      var last := rows[|rows| - 1];
      ColumnSum(rows[..|rows| - 1], c) + (if c < |last| && last[c].Some? then last[c].value else 0)
  }

  /** The averaged figures of one date: each category's present values summed and floor-divided
      by the number of rows, nil rows included, as Ruby's Integer `/` does for a positive count. */
  function Averages(rows: seq<seq<Option<int>>>): (avg: seq<int>)
    requires |rows| > 0
    ensures |avg| == CATEGORIES
  {
    seq(CATEGORIES, c requires 0 <= c < CATEGORIES => ColumnSum(rows, c) / |rows|)
  }

  /** The average is the floor of the exact mean: average * count <= sum < (average + 1) * count. */
  lemma AveragesFloor(rows: seq<seq<Option<int>>>, c: nat)
    requires |rows| > 0 && c < CATEGORIES
    ensures Averages(rows)[c] * |rows| <= ColumnSum(rows, c) < (Averages(rows)[c] + 1) * |rows|
  {
    var q, s, n := Averages(rows)[c], ColumnSum(rows, c), |rows|;
    assert q == s / n;
    assert s == q * n + s % n;
  }

  /** A column sum is bounded by the count of rows times the largest value, when every row holds
      a value in [lo, hi] in that column. */
  lemma {:induction false} ColumnSumBounds(rows: seq<seq<Option<int>>>, c: nat, lo: int, hi: int)
    requires forall i :: 0 <= i < |rows| ==> c < |rows[i]| && rows[i][c].Some? && lo <= rows[i][c].value <= hi
    ensures lo * |rows| <= ColumnSum(rows, c) <= hi * |rows|
    decreases |rows|
  {
    if |rows| > 0 {
      var n := |rows| - 1;
      var init := rows[..n];
      assert forall i :: 0 <= i < |init| ==> init[i] == rows[i];
      ColumnSumBounds(init, c, lo, hi);
      var v := rows[n][c].value;
      assert ColumnSum(rows, c) == ColumnSum(init, c) + v;
      assert lo * |rows| == lo * n + lo && hi * |rows| == hi * n + hi;
    }
  }

  lemma {:induction false} MulMonotonic(a: int, b: int, n: nat)
    ensures a <= b ==> a * n <= b * n
    decreases n
  {
    if n > 0 {
      MulMonotonic(a, b, n - 1);
      assert a * n == a * (n - 1) + a;
      assert b * n == b * (n - 1) + b;
    }
  }

  /** When every row of a date holds a value in [lo, hi] for a category, so does the average. */
  lemma AveragesBounds(rows: seq<seq<Option<int>>>, c: nat, lo: int, hi: int)
    requires |rows| > 0 && c < CATEGORIES
    requires forall i :: 0 <= i < |rows| ==> c < |rows[i]| && rows[i][c].Some? && lo <= rows[i][c].value <= hi
    ensures lo <= Averages(rows)[c] <= hi
  {
    ColumnSumBounds(rows, c, lo, hi);
    AveragesFloor(rows, c);
    var q, n := Averages(rows)[c], |rows|;
    MulMonotonic(q + 1, lo, n);
    MulMonotonic(hi + 1, q, n);
  }

  /** A nil value still counts in the divisor: 10 and nil average to 5, not 10. */
  lemma NilCountsInDivisor()
    ensures Averages([[Some(10)], [None]])[0] == 5
  {
    var rows: seq<seq<Option<int>>> := [[Some(10)], [None]];
    assert rows[..1] == [[Some(10)]];
    assert ColumnSum(rows, 0) == 10;
  }

  /** The running sums of the `reduce`: a buffer of six integers, one per category. */
  method SumColumns(rows: seq<seq<Option<int>>>) returns (sums: array<int>)
    ensures fresh(sums) && sums.Length == CATEGORIES
    ensures forall c :: 0 <= c < CATEGORIES ==> sums[c] == ColumnSum(rows, c)
  {
    sums := new int[CATEGORIES](_ => 0);
    var i := 0;
    while i < |rows|
      invariant 0 <= i <= |rows|
      invariant forall c :: 0 <= c < CATEGORIES ==> sums[c] == ColumnSum(rows[..i], c)
    {
      assert rows[..i + 1][..i] == rows[..i];
      var items := rows[i];
      var c := 0;
      while c < CATEGORIES
        invariant 0 <= c <= CATEGORIES
        invariant forall e :: 0 <= e < c ==> sums[e] == ColumnSum(rows[..i + 1], e)
        invariant forall e :: c <= e < CATEGORIES ==> sums[e] == ColumnSum(rows[..i], e)
      {
        if c < |items| && items[c].Some? {
          sums[c] := sums[c] + items[c].value;
        }
        c := c + 1;
      }
      i := i + 1;
    }
    assert rows[..|rows|] == rows;
  }

  /** One averaged entry: a date and exactly six values. */
  datatype Point = Point(date: Date, values: seq<int>)

  /** One key of the loaded data with its averaged entries, in the order its dates appeared. */
  datatype Series = Series(key: Option<string>, points: seq<Point>)

  function AveragedDays(days: seq<DayRows>): (ps: seq<Point>)
    requires forall j :: 0 <= j < |days| ==> |days[j].rows| > 0
    ensures |ps| == |days|
    ensures forall j :: 0 <= j < |days| ==> ps[j].date == days[j].date && ps[j].values == Averages(days[j].rows)
  {
    seq(|days|, j requires 0 <= j < |days| => Point(days[j].date, Averages(days[j].rows)))
  }

  /** `transform_values!`: each key's dates turned into `[date, *averages]` entries. */
  function Averaged(groups: seq<Group>): (table: seq<Series>)
    requires WellFormed(groups)
    ensures |table| == |groups|
    ensures forall i :: 0 <= i < |groups| ==> table[i].key == groups[i].key && table[i].points == AveragedDays(groups[i].days)
  {
    seq(|groups|, i requires 0 <= i < |groups| => Series(groups[i].key, AveragedDays(groups[i].days)))
  }

  /** One averaged entry, computed with the sums buffer. */
  method AverageDay(day: DayRows) returns (p: Point)
    requires |day.rows| > 0
    ensures p == Point(day.date, Averages(day.rows))
  {
    var sums := SumColumns(day.rows);
    var count := |day.rows|;
    p := Point(day.date, seq(CATEGORIES, c requires 0 <= c < CATEGORIES reads sums => sums[c] / count));
  }

  /** The loop of `File.foreach`: each line read and stored in turn; a line that fails to read
      stops the pass. */
  method GroupLines(lines: seq<Line>, parse: DateParser) returns (groups: seq<Group>, failure: Option<string>)
    ensures failure.None? <==> Grouped(lines, parse).Ok?
    ensures failure.None? ==> groups == Grouped(lines, parse).value
  {
    groups := [];
    failure := None;
    var i := 0;
    while i < |lines| && failure.None?
      invariant 0 <= i <= |lines|
      invariant failure.None? ==> Grouped(lines[..i], parse) == Ok(groups)
      invariant failure.Some? ==> i < |lines| && Grouped(lines[..i + 1], parse).Err?
      decreases |lines| - i, failure.None?
    {
      ghost var prefix := lines[..i + 1];
      assert prefix[..i] == lines[..i] && prefix[i] == lines[i];
      match ReadLine(lines[i], parse) {
        case Err(e) =>
          assert Grouped(prefix, parse).Err?;
          failure := Some(e);
        case Ok(None) =>
          assert Grouped(prefix, parse) == Ok(groups);
          i := i + 1;
        case Ok(Some(r)) =>
          assert Grouped(prefix, parse) == Ok(Store(groups, r));
          var mid := PushRow(groups, Some(r.group), r.date, r.values);
          groups := PushRow(mid, r.region, r.date, r.values);
          assert Grouped(prefix, parse) == Ok(groups);
          i := i + 1;
      }
    }
    if failure.Some? {
      GroupedErrPropagates(lines, parse, i + 1);
    } else {
      assert lines[..|lines|] == lines;
    }
  }

  /** A failure on a prefix of the file is a failure of the whole file. */
  lemma {:induction false} GroupedErrPropagates(lines: seq<Line>, parse: DateParser, i: nat)
    requires i <= |lines| && Grouped(lines[..i], parse).Err?
    ensures Grouped(lines, parse).Err?
    decreases |lines| - i
  {
    if i < |lines| {
      assert lines[..i + 1][..i] == lines[..i];
      GroupedErrPropagates(lines, parse, i + 1);
    } else {
      assert lines[..i] == lines;
    }
  }

  /** The averaging pass, entry by entry. */
  method AverageGroups(groups: seq<Group>) returns (table: seq<Series>)
    requires WellFormed(groups)
    ensures table == Averaged(groups)
  {
    table := [];
    var i := 0;
    while i < |groups|
      invariant 0 <= i <= |groups|
      invariant table == Averaged(groups)[..i]
    {
      var days := groups[i].days;
      assert DaysWellFormed(days);
      var points: seq<Point> := [];
      var j := 0;
      while j < |days|
        invariant 0 <= j <= |days|
        invariant points == AveragedDays(days)[..j]
      {
        var p := AverageDay(days[j]);
        points := points + [p];
        j := j + 1;
      }
      assert points == AveragedDays(days);
      table := table + [Series(groups[i].key, points)];
      i := i + 1;
    }
  }

  /** The first capture of `Reports created (\d{4}-\d{2}-\d{2})` on the mobility page. */
  predicate IsDateText(s: string)
  {
    |s| == 10 && s[4] == '-' && s[7] == '-' &&
    forall k :: 0 <= k < 10 && k != 4 && k != 7 ==> IsDigit(s[k])
  }

  const VERSION_PREFIX: string := "Reports created "

  predicate VersionAt(page: string, i: nat)
  {
    i + |VERSION_PREFIX| + 10 <= |page| && page[i..i + |VERSION_PREFIX|] == VERSION_PREFIX &&
    IsDateText(page[i + |VERSION_PREFIX|..i + |VERSION_PREFIX| + 10])
  }

  /** The leftmost position at or after `from` where the pattern matches. */
  function FindVersion(page: string, from: nat): (r: Option<nat>)
    ensures r.Some? ==> from <= r.value && VersionAt(page, r.value)
    ensures forall j :: from <= j && (r.None? || j < r.value) ==> !VersionAt(page, j)
    decreases |page| - from
  {
    if from + |VERSION_PREFIX| + 10 > |page| then None
    else if VersionAt(page, from) then Some(from)
    else FindVersion(page, from + 1)
  }

  /** The version a page announces; a page without the pattern has no match, and `[1]` on nil
      raises. */
  function ExtractVersion(page: string): (r: Result<string>)
    ensures r.Err? <==> forall i: nat :: !VersionAt(page, i)
    ensures r.Ok? ==> (IsDateText(r.value) &&
      exists i: nat :: VersionAt(page, i) && r.value == page[i + |VERSION_PREFIX|..i + |VERSION_PREFIX| + 10] &&
        forall j: nat :: j < i ==> !VersionAt(page, j))
  {
    match FindVersion(page, 0)
    case None => Err("undefined method '[]' for nil")
    case Some(i) => Ok(page[i + |VERSION_PREFIX|..i + |VERSION_PREFIX| + 10])
  }

  /** A page that starts with the phrase yields the date that follows it. */
  lemma ExtractVersionOfPrefix(v: string, rest: string)
    requires IsDateText(v)
    ensures ExtractVersion(VERSION_PREFIX + v + rest) == Ok(v)
  {
    var page := VERSION_PREFIX + v + rest;
    assert page[..|VERSION_PREFIX|] == VERSION_PREFIX;
    assert page[|VERSION_PREFIX|..|VERSION_PREFIX| + 10] == v;
    assert VersionAt(page, 0);
  }

  /** The loader's state: the report and version files on disk, when the report was fetched,
      and the loaded table. */
  class GoogleMobilityData {
    var dataFile: Option<seq<Line>>
    var versionFile: Option<string>
    var accessedAt: Option<int>
    var data: seq<Series>

    constructor (dataFile: Option<seq<Line>>, versionFile: Option<string>)
      ensures this.dataFile == dataFile && this.versionFile == versionFile
      ensures accessedAt == None && data == []
    {
      this.dataFile := dataFile;
      this.versionFile := versionFile;
      accessedAt := None;
      data := [];
    }

    /** `current_version`: the version file's text, nil when there is no version file. */
    function CurrentVersion(): Option<string>
      reads this
    {
      versionFile
    }

    /** `update_available?`: the page's version differs from the stored one. */
    function UpdateAvailable(page: string): (r: Result<bool>)
      reads this
      ensures r.Err? <==> ExtractVersion(page).Err?
      ensures r.Ok? ==> (r.value <==> CurrentVersion() != Some(ExtractVersion(page).value))
    {
      match ExtractVersion(page)
      case Err(e) => Err(e)
      case Ok(v) => Ok(CurrentVersion() != Some(v))
    }

    /** Fetches the report whatever `force` says, then records the time and the page's version.
      `force ||= update_available?` consults the page only when not forced, and its answer is
      never used. */
    method Download(force: bool, report: seq<Line>, page: string, now: int) returns (result: Result<()>, fetched: bool)
      modifies this
      ensures fetched <==> force || ExtractVersion(page).Ok?
      ensures fetched ==> dataFile == Some(report) && accessedAt == Some(now)
      ensures !fetched ==> dataFile == old(dataFile) && accessedAt == old(accessedAt)
      ensures result.Ok? <==> ExtractVersion(page).Ok?
      ensures versionFile == if result.Ok? then Some(ExtractVersion(page).value) else old(versionFile)
      ensures result.Ok? ==> UpdateAvailable(page) == Ok(false)
      ensures data == old(data)
    {
      fetched := false;
      if !force {
        var available := UpdateAvailable(page);
        if available.Err? {
          return Err(available.msg), fetched;
        }
      }
      dataFile := Some(report);
      fetched := true;
      accessedAt := Some(now);
      match ExtractVersion(page) {
        case Err(e) =>
          result := Err(e);
        case Ok(v) =>
          versionFile := Some(v);
          result := Ok(());
      }
    }

    /** `load`: downloads the report first when there is none, then groups and averages it. A
      failure leaves the loaded table as it was. */
    method Load(report: seq<Line>, page: string, now: int, parse: DateParser) returns (result: Result<()>)
      modifies this
      ensures old(dataFile).None? && !ExtractVersion(page).Ok? ==> result.Err? && data == old(data)
      ensures old(dataFile).Some? || ExtractVersion(page).Ok? ==>
        var lines := if old(dataFile).Some? then old(dataFile).value else report;
        var g := Grouped(lines, parse);
        if g.Err? then result.Err? && data == old(data)
        else result.Ok? && data == Averaged(g.value)
      ensures old(dataFile).Some? || !ExtractVersion(page).Ok? ==>
        dataFile == old(dataFile) && versionFile == old(versionFile) && accessedAt == old(accessedAt)
      ensures old(dataFile).None? && ExtractVersion(page).Ok? ==>
        dataFile == Some(report) && versionFile == Some(ExtractVersion(page).value) && accessedAt == Some(now)
    {
      if dataFile.None? {
        var downloaded, _ := Download(false, report, page, now);
        if downloaded.Err? {
          return Err(downloaded.msg);
        }
      }
      var groups, failure := GroupLines(dataFile.value, parse);
      if failure.Some? {
        return Err(failure.value);
      }
      data := AverageGroups(groups);
      result := Ok(());
    }
  }
}
