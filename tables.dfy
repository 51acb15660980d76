/** The table builders the site's plots and downloads draw on: each turns the loaded date-keyed
    data into rows ordered by date, over the sorted keys or over a calendar range. */
module Tables {
  import opened Common
  import opened Dates
  import opened HealthBoards
  import opened ScotlandData
  import opened UkData
  import opened Mobility

  // ---------------------------------------------------------------- per-board tables

  /** A row of a per-board table: the date, then one value per column. */
  datatype Row<V> = Row(date: Option<Date>, values: seq<Option<V>>)

  /** `record[name]`: nil for a name the record does not hold. */
  function Lookup<V>(m: map<string, Option<V>>, k: string): Option<V>
  {
    if k in m then m[k] else None
  }

  /** `values_at(*names)`. */
  function ValuesAt<V>(m: map<string, Option<V>>, names: seq<string>): (vs: seq<Option<V>>)
    ensures |vs| == |names| && forall j :: 0 <= j < |names| ==> vs[j] == Lookup(m, names[j])
  {
    seq(|names|, j requires 0 <= j < |names| => Lookup(m, names[j]))
  }

  /** The columns of the cases and deaths tables: every board, then the Grand Total. */
  function BoardColumns(boards: seq<string>): seq<string>
  {
    boards + [GRAND_TOTAL]
  }

  /** The columns of the intensive-care table: the boards, the national hospital, the total. */
  function IcuTableColumns(boards: seq<string>): seq<string>
  {
    boards + [GOLDEN_JUBILEE, GRAND_TOTAL]
  }

  /** `keys.sort.map { |date| [date, *table.fetch(date).values_at(*columns)] }` over a table with
      date keys. */
  function ByDate<V>(table: map<Date, map<string, Option<V>>>, columns: seq<string>): seq<Row<V>>
  {
    var ds := SortedDates(table.Keys);
    seq(|ds|, i requires 0 <= i < |ds| => Row(Some(ds[i]), ValuesAt(table[ds[i]], columns)))
  }

  /** One row per key of the table, in strictly ascending date order, each holding the record's
      values at the columns. */
  ghost predicate RowsOfTable<V>(rows: seq<Row<V>>, table: map<Date, map<string, Option<V>>>, columns: seq<string>)
  {
    |rows| == |table| &&
    (forall i :: 0 <= i < |rows| ==>
      rows[i].date.Some? && rows[i].date.value in table &&
      rows[i].values == ValuesAt(table[rows[i].date.value], columns)) &&
    (forall i, j :: 0 <= i < j < |rows| ==> rows[i].date.Some? && rows[j].date.Some? && rows[i].date.value < rows[j].date.value) &&
    (forall d :: d in table ==> exists i :: 0 <= i < |rows| && rows[i].date == Some(d))
  }

  lemma ByDateSpec<V>(table: map<Date, map<string, Option<V>>>, columns: seq<string>)
    ensures RowsOfTable(ByDate(table, columns), table, columns)
  {
    var ds := SortedDates(table.Keys);
    var rows := ByDate(table, columns);
    ByDateDates(table, columns);
    assert |rows| == |table| by {
      assert |ds| == |table.Keys|;
    }
    forall i, j | 0 <= i < j < |rows|
      ensures rows[i].date.Some? && rows[j].date.Some? && rows[i].date.value < rows[j].date.value
    {
      assert rows[i].date == Some(ds[i]) && rows[j].date == Some(ds[j]);
    }
    ByDateComplete(table, columns);
  }

  lemma ByDateDates<V>(table: map<Date, map<string, Option<V>>>, columns: seq<string>)
    ensures forall i :: 0 <= i < |ByDate(table, columns)| ==> ByDate(table, columns)[i].date == Some(SortedDates(table.Keys)[i])
  {
  }

  lemma ByDateComplete<V>(table: map<Date, map<string, Option<V>>>, columns: seq<string>)
    ensures forall d :: d in table ==> exists i :: 0 <= i < |ByDate(table, columns)| && ByDate(table, columns)[i].date == Some(d)
  {
    var ds := SortedDates(table.Keys);
    var rows := ByDate(table, columns);
    forall d | d in table ensures exists i :: 0 <= i < |rows| && rows[i].date == Some(d) {
      var i :| 0 <= i < |ds| && ds[i] == d;
      assert rows[i].date == Some(d);
    }
  }

  /** The date keys of a table whose keys may be nil; empty when a nil key is present. */
  function DaysOf<V>(m: map<Option<Date>, V>): set<Date>
  {
    if None in m then {} else DateKeys(m.Keys).value
  }

  lemma DaysOfMembers<V>(m: map<Option<Date>, V>)
    requires None !in m
    ensures forall d :: d in DaysOf(m) <==> Some(d) in m
  {
  }

  /** Without a nil key, a table has dates exactly when it has keys. */
  lemma DaysOfEmpty<V>(m: map<Option<Date>, V>)
    requires None !in m
    ensures DaysOf(m) == {} <==> |m| == 0
  {
    DaysOfMembers(m);
    if |m| > 0 {
      var k :| k in m;
      assert k.value in DaysOf(m);
    }
  }

  /** A table whose only key is nil. */
  lemma SingleKey<V>(m: map<Option<Date>, V>)
    requires None in m && |m| == 1
    ensures m.Keys == {None}
  {
    var rest := m.Keys - {None};
    assert m.Keys == rest + {None};
    assert |rest| == 0;
  }

  /** `keys.sort` on a table whose keys may be nil. */
  function SortKeys<V>(m: map<Option<Date>, V>): (r: Result<seq<Option<Date>>>)
    ensures r.Ok? <==> KeysSortable(m)
  {
    if None in m then
      if |m| == 1 then Ok([None]) else Err("comparison of Date with nil failed")
    else
      var ds := SortedDates(DaysOf(m));
      Ok(seq(|ds|, i requires 0 <= i < |ds| => Some(ds[i])))
  }

  /** Every key of the table, each once, in strictly ascending date order. */
  ghost predicate SortedKeysOf<V>(ks: seq<Option<Date>>, m: map<Option<Date>, V>)
  {
    (forall i :: 0 <= i < |ks| ==> ks[i] in m) &&
    (forall i, j :: 0 <= i < j < |ks| ==> ks[i].Some? && ks[j].Some? && ks[i].value < ks[j].value) &&
    (forall k :: k in m ==> k in ks)
  }

  /** Ruby's sort cannot compare nil with a date, so the keys sort exactly when a nil key is the
      only key; they then come out each once, in ascending order. */
  lemma SortKeysSpec<V>(m: map<Option<Date>, V>)
    requires KeysSortable(m)
    ensures SortedKeysOf(SortKeys(m).value, m)
  {
    var ks := SortKeys(m).value;
    if None in m {
      SingleKey(m);
    } else {
      DaysOfMembers(m);
      var ds := SortedDates(DaysOf(m));
      assert forall i :: 0 <= i < |ks| ==> ks[i] == Some(ds[i]);
      forall k | k in m ensures k in ks {
        var i :| 0 <= i < |ds| && ds[i] == k.value;
        assert ks[i] == k;
      }
    }
  }

  function RowDates<V>(rows: seq<Row<V>>): (ds: seq<Option<Date>>)
    ensures |ds| == |rows| && forall i :: 0 <= i < |rows| ==> ds[i] == rows[i].date
  {
    seq(|rows|, i requires 0 <= i < |rows| => rows[i].date)
  }

  /** `scotland_cases_by_health_board`. */
  function CasesByHealthBoard(data: ScotlandCovid19Data): Result<seq<Row<real>>>
    reads data
  {
    var cases := data.cases;
    var columns := BoardColumns(data.healthBoards);
    match SortKeys(cases)
    case Err(e) => Err(e)
    case Ok(ks) =>
      SortKeysSpec(cases);
      Ok(seq(|ks|, i requires 0 <= i < |ks| => Row(ks[i], ValuesAt(cases[ks[i]], columns))))
  }

  /** The cases table has one row per date key, in ascending order, each holding every board's
      figure and the Grand Total. A nil key fails the sort unless it is the only key. */
  lemma CasesByHealthBoardSpec(data: ScotlandCovid19Data)
    ensures var r := CasesByHealthBoard(data);
      (r.Ok? <==> KeysSortable(data.cases)) &&
      (r.Ok? ==> SortedKeysOf(RowDates(r.value), data.cases)) &&
      (r.Ok? ==> forall i :: 0 <= i < |r.value| ==>
        r.value[i].date in data.cases &&
        r.value[i].values == ValuesAt(data.cases[r.value[i].date], BoardColumns(data.healthBoards)))
  {
    if KeysSortable(data.cases) {
      SortKeysSpec(data.cases);
      assert RowDates(CasesByHealthBoard(data).value) == SortKeys(data.cases).value;
    }
  }

  /** `scotland_deaths_by_health_board`. */
  function DeathsByHealthBoard(data: ScotlandCovid19Data): seq<Row<real>>
    reads data
  {
    ByDate(data.deaths, BoardColumns(data.healthBoards))
  }

  /** The deaths table has one row per date, ascending, each holding every board's figure and the
      Grand Total. */
  lemma DeathsByHealthBoardSpec(data: ScotlandCovid19Data)
    ensures RowsOfTable(DeathsByHealthBoard(data), data.deaths, BoardColumns(data.healthBoards))
  {
    ByDateSpec(data.deaths, BoardColumns(data.healthBoards));
  }

  /** `scotland_icus`. */
  function Icus(data: ScotlandCovid19Data): seq<Row<int>>
    reads data
  {
    ByDate(data.intensiveCares, IcuTableColumns(data.healthBoards))
  }

  /** The intensive-care table has one row per date, ascending, with a column for every board,
      the Golden Jubilee National Hospital and the Grand Total. */
  lemma IcusSpec(data: ScotlandCovid19Data)
    ensures RowsOfTable(Icus(data), data.intensiveCares, IcuTableColumns(data.healthBoards))
    ensures forall i :: 0 <= i < |Icus(data)| ==> |Icus(data)[i].values| == |data.healthBoards| + 2
  {
    ByDateSpec(data.intensiveCares, IcuTableColumns(data.healthBoards));
  }

  // ---------------------------------------------------------------- tables over a day range

  /** `hash[date]`: nil for an absent date. */
  function Get<V>(m: map<Date, Option<V>>, d: Date): Option<V>
  {
    if d in m then m[d] else None
  }

  /** The same look-up in a table whose keys may be nil. */
  function GetAt<V>(m: map<Option<Date>, Option<V>>, d: Date): Option<V>
  {
    if Some(d) in m then m[Some(d)] else None
  }

  datatype IcuDeceasedRow = IcuDeceasedRow(date: Date, intensiveCare: Option<int>, deceased: Option<NumericField>)

  function RowDays(rows: seq<IcuDeceasedRow>): (ds: seq<Date>)
    ensures |ds| == |rows| && forall i :: 0 <= i < |rows| ==> ds[i] == rows[i].date
  {
    seq(|rows|, i requires 0 <= i < |rows| => rows[i].date)
  }

  /** `scotland_icu_deceased`. */
  function IcuDeceased(data: ScotlandCovid19Data): Result<seq<IcuDeceasedRow>>
    reads data
  {
    var icu, deceased := data.intensiveCare, data.deceased;
    var ks := [DaysOf(deceased), icu.Keys];
    if None in deceased || !AllNonEmpty(ks) then Err("comparison of NilClass with Date failed")
    else
      var days := UnionRange(ks).value;
      Ok(seq(|days|, i requires 0 <= i < |days| => IcuDeceasedRow(days[i], Get(icu, days[i]), GetAt(deceased, days[i]))))
  }

  /** The table covers every calendar day from the earlier of the two first dates to the later of
      the two last dates, with the patients in intensive care and the deceased count of that day,
      nil where the day is absent. `keys.min` of an empty table is nil and nil cannot be compared
      with a date, so an empty table or a nil key is an error. */
  lemma IcuDeceasedSpec(data: ScotlandCovid19Data)
    ensures var r := IcuDeceased(data);
      (r.Ok? <==> None !in data.deceased && |data.deceased| > 0 && |data.intensiveCare| > 0) &&
      (r.Ok? ==> SpansUnion(RowDays(r.value), [DaysOf(data.deceased), data.intensiveCare.Keys])) &&
      (r.Ok? ==> forall i :: 0 <= i < |r.value| ==>
        r.value[i].intensiveCare == Get(data.intensiveCare, r.value[i].date) &&
        r.value[i].deceased == GetAt(data.deceased, r.value[i].date))
  {
    var ks := [DaysOf(data.deceased), data.intensiveCare.Keys];
    AllNonEmptyPair(DaysOf(data.deceased), data.intensiveCare.Keys);
    if None !in data.deceased {
      DaysOfEmpty(data.deceased);
      if AllNonEmpty(ks) {
        UnionRangeSpans(ks);
        assert RowDays(IcuDeceased(data).value) == UnionRange(ks).value;
      }
    }
  }

  /** `board_value ? board_value / total : nil`: nil when the value is nil; a Float divided by a
      nil total raises. */
  function Share(v: Option<real>, total: Option<real>): (r: Result<Option<Ratio>>)
    ensures r == Ok(None) <==> v.None?
    ensures r.Err? <==> v.Some? && total.None?
    ensures r.Ok? && r.value.Some? ==> r.value.value == Divide(v.value, total.value)
  {
    if v.None? then Ok(None)
    else if total.None? then Err("nil can't be coerced into Float")
    else Ok(Some(Divide(v.value, total.value)))
  }

  /** A row of a board's or a nation's table: its figures and each one's share of the total. */
  datatype ShareRow = ShareRow(date: Date, cases: Option<real>, deaths: Option<real>, casesShare: Option<Ratio>, deathsShare: Option<Ratio>)

  function ShareDays(rows: seq<ShareRow>): (ds: seq<Date>)
    ensures |ds| == |rows| && forall i :: 0 <= i < |rows| ==> ds[i] == rows[i].date
  {
    seq(|rows|, i requires 0 <= i < |rows| => rows[i].date)
  }

  /** `table.dig(date, name)` on a table with date keys. */
  function Dig(m: map<Date, BoardFigures>, d: Date, name: string): Option<real>
  {
    if d in m then Lookup(m[d], name) else None
  }

  /** `table.dig(date, name)` on a table whose keys may be nil. */
  function DigAt(m: map<Option<Date>, BoardFigures>, d: Date, name: string): Option<real>
  {
    if Some(d) in m then Lookup(m[Some(d)], name) else None
  }

  /** One day of a board's table. */
  function BoardDay(cases: map<Option<Date>, BoardFigures>, deaths: map<Date, BoardFigures>, name: string, d: Date): Result<ShareRow>
  {
    var c, dt := DigAt(cases, d, name), Dig(deaths, d, name);
    var cs, ds := Share(c, DigAt(cases, d, GRAND_TOTAL)), Share(dt, Dig(deaths, d, GRAND_TOTAL));
    if cs.Err? then Err(cs.msg)
    else if ds.Err? then Err(ds.msg)
    else Ok(ShareRow(d, c, dt, cs.value, ds.value))
  }

  /** The totals are present wherever the board's figure is. */
  predicate TotalsCover(cases: map<Option<Date>, BoardFigures>, deaths: map<Date, BoardFigures>, name: string)
  {
    (forall k :: k in cases && Lookup(cases[k], name).Some? ==> Lookup(cases[k], GRAND_TOTAL).Some?) &&
    (forall d :: d in deaths && Lookup(deaths[d], name).Some? ==> Lookup(deaths[d], GRAND_TOTAL).Some?)
  }

  /** A day's row of a board's table reads, where the totals cover the board's figures. */
  lemma BoardDayOk(cases: map<Option<Date>, BoardFigures>, deaths: map<Date, BoardFigures>, name: string, d: Date)
    requires TotalsCover(cases, deaths, name)
    ensures BoardDay(cases, deaths, name, d).Ok?
  {
    if Some(d) in cases {
      assert Lookup(cases[Some(d)], name).Some? ==> Lookup(cases[Some(d)], GRAND_TOTAL).Some?;
    }
    if d in deaths {
      assert Lookup(deaths[d], name).Some? ==> Lookup(deaths[d], GRAND_TOTAL).Some?;
    }
  }

  /** `health_board(name)`. */
  function HealthBoard(data: ScotlandCovid19Data, name: string): Result<seq<ShareRow>>
    reads data
  {
    var cases, deaths := data.cases, data.deaths;
    var ks := [DaysOf(cases), deaths.Keys];
    if name !in data.healthBoards then Err(name + " is not a known health board")
    else if None in cases || !AllNonEmpty(ks) then Err("comparison of NilClass with Date failed")
    else MapResult(UnionRange(ks).value, d => BoardDay(cases, deaths, name, d))
  }

  /** A board's table fails for a name that is not a board, and for a nil date key or an empty
      table, since `keys.min` of an empty table is nil and nil cannot be compared with a date. */
  lemma HealthBoardFails(data: ScotlandCovid19Data, name: string)
    ensures HealthBoard(data, name).Ok? ==>
      name in data.healthBoards && None !in data.cases && |data.cases| > 0 && |data.deaths| > 0
  {
    AllNonEmptyPair(DaysOf(data.cases), data.deaths.Keys);
    if name in data.healthBoards && None !in data.cases {
      DaysOfEmpty(data.cases);
    }
  }

  /** It reads for a known board with dated, non-empty tables whose totals are present wherever
      the board's figures are. */
  lemma HealthBoardReads(data: ScotlandCovid19Data, name: string)
    requires name in data.healthBoards && None !in data.cases && |data.cases| > 0 && |data.deaths| > 0
    requires TotalsCover(data.cases, data.deaths, name)
    ensures HealthBoard(data, name).Ok?
  {
    var cases, deaths := data.cases, data.deaths;
    DaysOfEmpty(cases);
    AllNonEmptyPair(DaysOf(cases), deaths.Keys);
    var days := UnionRange([DaysOf(cases), deaths.Keys]).value;
    forall i | 0 <= i < |days| ensures BoardDay(cases, deaths, name, days[i]).Ok? {
      BoardDayOk(cases, deaths, name, days[i]);
    }
  }

  /** It covers every calendar day from the earlier of the first case and death dates to the
      later of the last ones. */
  lemma HealthBoardDays(data: ScotlandCovid19Data, name: string)
    requires HealthBoard(data, name).Ok?
    ensures SpansUnion(ShareDays(HealthBoard(data, name).value), [DaysOf(data.cases), data.deaths.Keys])
  {
    var cases, deaths := data.cases, data.deaths;
    var ks := [DaysOf(cases), deaths.Keys];
    UnionRangeSpans(ks);
    assert ShareDays(HealthBoard(data, name).value) == UnionRange(ks).value;
  }

  /** Each row is the board's row of its day. */
  lemma HealthBoardRows(data: ScotlandCovid19Data, name: string)
    requires HealthBoard(data, name).Ok?
    ensures forall i :: 0 <= i < |HealthBoard(data, name).value| ==>
      BoardDay(data.cases, data.deaths, name, HealthBoard(data, name).value[i].date) == Ok(HealthBoard(data, name).value[i])
  {
  }

  /** The row of a board's table, field by field. */
  lemma BoardDayFields(cases: map<Option<Date>, BoardFigures>, deaths: map<Date, BoardFigures>, name: string, d: Date)
    ensures var r := BoardDay(cases, deaths, name, d);
      r.Ok? ==> (r.value.date == d && r.value.cases == DigAt(cases, d, name) && r.value.deaths == Dig(deaths, d, name) &&
        (r.value.casesShare.None? <==> r.value.cases.None?) &&
        (r.value.casesShare.Some? ==> r.value.casesShare.value == Divide(r.value.cases.value, DigAt(cases, d, GRAND_TOTAL).value)) &&
        (r.value.deathsShare.None? <==> r.value.deaths.None?) &&
        (r.value.deathsShare.Some? ==> r.value.deathsShare.value == Divide(r.value.deaths.value, Dig(deaths, d, GRAND_TOTAL).value)))
  {
  }

  // ---------------------------------------------------------------- national tables

  /** A figure a table builder asks a national record for. The records hold only tests,
      confirmed cases and deaths; every other key reads as nil. */
  datatype FieldKey = TestsKey | ConfirmedCasesKey | DeathsKey
    | DailyCasesKey | DailyDeathsKey | CumulativeCasesKey | CumulativeDeathsKey

  function Field(r: UkRecord, k: FieldKey): Option<real>
  {
    match k
    case TestsKey => r.tests
    case ConfirmedCasesKey => r.confirmedCases
    case DeathsKey => r.deaths
    case _ => None
  }

  /** `table.dig(date, key)`. */
  function Figure(m: map<Option<Date>, UkRecord>, d: Date, k: FieldKey): Option<real>
  {
    if Some(d) in m then Field(m[Some(d)], k) else None
  }

  /** The nations `country` accepts; the UK as a whole is not one of them. */
  function CountryNamed(name: string): (n: Option<Nation>)
    ensures n.Some? ==> n.value != Uk
  {
    if name == "England" then Some(England)
    else if name == "Scotland" then Some(Scotland)
    else if name == "Wales" then Some(Wales)
    else if name == "Northern Ireland" then Some(NorthernIreland)
    else None
  }

  /** `a && b ? x / y : nil`. */
  function Ratio2(x: Option<real>, y: Option<real>): (r: Option<Ratio>)
    ensures r.Some? <==> x.Some? && y.Some?
    ensures r.Some? ==> r.value == Divide(x.value, y.value)
  {
    if x.Some? && y.Some? then Some(Divide(x.value, y.value)) else None
  }

  /** One day of a nation's table. */
  function CountryDay(uk: map<Option<Date>, UkRecord>, t: map<Option<Date>, UkRecord>, d: Date, casesKey: FieldKey, deathsKey: FieldKey): ShareRow
  {
    ShareRow(d, Figure(t, d, casesKey), Figure(t, d, deathsKey),
      Ratio2(Figure(t, d, casesKey), Figure(uk, d, casesKey)),
      Ratio2(Figure(t, d, deathsKey), Figure(uk, d, deathsKey)))
  }

  /** The days a nation's table covers, from the UK's table and the nation's: the later of the
      two first dates to the earlier of the two last dates. */
  function CountryRange(uk: map<Option<Date>, UkRecord>, t: map<Option<Date>, UkRecord>): Result<seq<Date>>
  {
    var ks := [DaysOf(uk), DaysOf(t)];
    if None in uk || None in t || !AllNonEmpty(ks) then Err("comparison of NilClass with Date failed")
    else IntersectionRange(ks)
  }

  /** The rows of a nation's table, one per day of its range. */
  function CountryTable(uk: map<Option<Date>, UkRecord>, t: map<Option<Date>, UkRecord>, casesKey: FieldKey, deathsKey: FieldKey): Result<seq<ShareRow>>
  {
    match CountryRange(uk, t)
    case Err(e) => Err(e)
    case Ok(days) => Ok(seq(|days|, i requires 0 <= i < |days| => CountryDay(uk, t, days[i], casesKey, deathsKey)))
  }

  /** `country(name)`, with the figure keys it reads. */
  function Country(data: UkCovid19Data, name: string, casesKey: FieldKey, deathsKey: FieldKey): Result<seq<ShareRow>>
    reads data
  {
    match CountryNamed(name)
    case None => Err(name + " is not a known country")
    case Some(n) => CountryTable(data.uk, data.TableOf(n), casesKey, deathsKey)
  }

  /** A nation's range exists exactly when both tables are dated and non-empty. */
  lemma CountryRangeOk(uk: map<Option<Date>, UkRecord>, t: map<Option<Date>, UkRecord>)
    ensures CountryRange(uk, t).Ok? <==> None !in uk && None !in t && |uk| > 0 && |t| > 0
  {
    AllNonEmptyPair(DaysOf(uk), DaysOf(t));
    if None !in uk && None !in t {
      DaysOfEmpty(uk);
      DaysOfEmpty(t);
    }
  }

  /** A nation's table reads exactly for one of the four nations, with dated, non-empty tables
      for the UK and the nation. */
  lemma CountryOk(data: UkCovid19Data, name: string, casesKey: FieldKey, deathsKey: FieldKey)
    ensures Country(data, name, casesKey, deathsKey).Ok? <==> (CountryNamed(name).Some? &&
      None !in data.uk && None !in data.TableOf(CountryNamed(name).value) &&
      |data.uk| > 0 && |data.TableOf(CountryNamed(name).value)| > 0)
  {
    if CountryNamed(name).Some? {
      CountryRangeOk(data.uk, data.TableOf(CountryNamed(name).value));
    }
  }

  /** It covers every calendar day from the later of the UK's and the nation's first dates to the
      earlier of their last dates, each row holding the nation's figures that day and their
      ratios to the UK's, present only where both figures are. */
  lemma CountryRows(data: UkCovid19Data, name: string, casesKey: FieldKey, deathsKey: FieldKey)
    requires Country(data, name, casesKey, deathsKey).Ok?
    ensures CountryNamed(name).Some?
    ensures var rows, t := Country(data, name, casesKey, deathsKey).value, data.TableOf(CountryNamed(name).value);
      SpansIntersection(ShareDays(rows), [DaysOf(data.uk), DaysOf(t)]) &&
      forall i :: 0 <= i < |rows| ==> rows[i] == CountryDay(data.uk, t, rows[i].date, casesKey, deathsKey)
  {
    var ks := [DaysOf(data.uk), DaysOf(data.TableOf(CountryNamed(name).value))];
    IntersectionRangeSpans(ks);
    assert ShareDays(Country(data, name, casesKey, deathsKey).value) == IntersectionRange(ks).value;
  }

  /** The keys make/data.rb passes are ones the national records do not hold, so every figure and
      every ratio of its `country` table is nil. */
  lemma CountryAsWrittenIsBlank(data: UkCovid19Data, name: string)
    requires Country(data, name, DailyCasesKey, DailyDeathsKey).Ok?
    ensures forall row :: row in Country(data, name, DailyCasesKey, DailyDeathsKey).value ==>
      row.cases.None? && row.deaths.None? && row.casesShare.None? && row.deathsShare.None?
  {
  }

  /** With the keys the records do hold, a figure is the nation's scaled confirmed cases or deaths
      of that day, and a ratio is present exactly when both the nation's and the UK's figure
      are. */
  lemma CountryWithRecordKeys(data: UkCovid19Data, name: string, i: nat)
    requires Country(data, name, ConfirmedCasesKey, DeathsKey).Ok?
    requires i < |Country(data, name, ConfirmedCasesKey, DeathsKey).value|
    ensures var row := Country(data, name, ConfirmedCasesKey, DeathsKey).value[i];
      var t := data.TableOf(CountryNamed(name).value);
      (row.cases.Some? ==> Some(row.date) in t && row.cases == t[Some(row.date)].confirmedCases) &&
      (row.deaths.Some? ==> Some(row.date) in t && row.deaths == t[Some(row.date)].deaths) &&
      (row.casesShare.Some? <==> row.cases.Some? && Some(row.date) in data.uk && data.uk[Some(row.date)].confirmedCases.Some?)
  {
  }

  /** A row of the cases or deaths table of the UK: the date, then five cumulative figures and five
      daily figures, each group in the order England, Scotland, Wales, Northern Ireland, UK. */
  datatype DayRow = DayRow(date: Date, values: seq<Option<real>>)

  function DayRowDays(rows: seq<DayRow>): (ds: seq<Date>)
    ensures |ds| == |rows| && forall i :: 0 <= i < |rows| ==> ds[i] == rows[i].date
  {
    seq(|rows|, i requires 0 <= i < |rows| => rows[i].date)
  }

  /** The four nations whose dates set the range of a UK table. */
  function NationDays(data: UkCovid19Data): seq<set<Date>>
    reads data
  {
    [DaysOf(data.england), DaysOf(data.scotland), DaysOf(data.wales), DaysOf(data.northernIreland)]
  }

  predicate NationKeysDated(data: UkCovid19Data)
    reads data
  {
    None !in data.england && None !in data.scotland && None !in data.wales && None !in data.northernIreland
  }

  /** The ten figures of one day of a UK table. */
  function UkDay(data: UkCovid19Data, d: Date, cumulativeKey: FieldKey, dailyKey: FieldKey): seq<Option<real>>
    reads data
  {
    [Figure(data.england, d, cumulativeKey), Figure(data.scotland, d, cumulativeKey), Figure(data.wales, d, cumulativeKey),
     Figure(data.northernIreland, d, cumulativeKey), Figure(data.uk, d, cumulativeKey),
     Figure(data.england, d, dailyKey), Figure(data.scotland, d, dailyKey), Figure(data.wales, d, dailyKey),
     Figure(data.northernIreland, d, dailyKey), Figure(data.uk, d, dailyKey)]
  }

  /** `uk_cases` and `uk_deaths`, with the figure keys they read. */
  function UkTable(data: UkCovid19Data, cumulativeKey: FieldKey, dailyKey: FieldKey): Result<seq<DayRow>>
    reads data
  {
    var ks := NationDays(data);
    if !NationKeysDated(data) || !AllNonEmpty(ks) then Err("comparison of NilClass with Date failed")
    else
      var days := UnionRange(ks).value;
      Ok(seq(|days|, i requires 0 <= i < |days| reads data => DayRow(days[i], UkDay(data, days[i], cumulativeKey, dailyKey))))
  }

  /** A UK table reads exactly when the four nations' tables are dated and non-empty; the UK's
      own table takes no part. */
  lemma UkTableOk(data: UkCovid19Data, cumulativeKey: FieldKey, dailyKey: FieldKey)
    ensures UkTable(data, cumulativeKey, dailyKey).Ok? <==> (NationKeysDated(data) &&
      |data.england| > 0 && |data.scotland| > 0 && |data.wales| > 0 && |data.northernIreland| > 0)
  {
    if NationKeysDated(data) {
      FourNationsDays(data.england, data.scotland, data.wales, data.northernIreland);
    }
  }

  lemma AllNonEmptyPair(a: set<Date>, b: set<Date>)
    ensures AllNonEmpty([a, b]) <==> a != {} && b != {}
  {
    var ks := [a, b];
    assert ks[0] == a && ks[1] == b;
  }

  lemma AllNonEmptyFour(a: set<Date>, b: set<Date>, c: set<Date>, d: set<Date>)
    ensures AllNonEmpty([a, b, c, d]) <==> a != {} && b != {} && c != {} && d != {}
  {
    var ks := [a, b, c, d];
    assert ks[0] == a && ks[1] == b && ks[2] == c && ks[3] == d;
  }

  lemma FourNationsDays(e: map<Option<Date>, UkRecord>, s: map<Option<Date>, UkRecord>,
                        w: map<Option<Date>, UkRecord>, n: map<Option<Date>, UkRecord>)
    requires None !in e && None !in s && None !in w && None !in n
    ensures AllNonEmpty([DaysOf(e), DaysOf(s), DaysOf(w), DaysOf(n)]) <==> |e| > 0 && |s| > 0 && |w| > 0 && |n| > 0
  {
    AllNonEmptyFour(DaysOf(e), DaysOf(s), DaysOf(w), DaysOf(n));
    DaysOfEmpty(e);
    DaysOfEmpty(s);
    DaysOfEmpty(w);
    DaysOfEmpty(n);
  }

  /** It covers every calendar day from the earliest first date of the four nations to the latest
      last date, each row holding the ten figures of its day, nil where a table has no record
      that day. */
  lemma UkTableRows(data: UkCovid19Data, cumulativeKey: FieldKey, dailyKey: FieldKey)
    requires UkTable(data, cumulativeKey, dailyKey).Ok?
    ensures var rows := UkTable(data, cumulativeKey, dailyKey).value;
      SpansUnion(DayRowDays(rows), NationDays(data)) &&
      forall i :: 0 <= i < |rows| ==> |rows[i].values| == 10 && rows[i].values == UkDay(data, rows[i].date, cumulativeKey, dailyKey)
  {
    var ks := NationDays(data);
    UnionRangeSpans(ks);
    assert DayRowDays(UkTable(data, cumulativeKey, dailyKey).value) == UnionRange(ks).value;
  }

  /** A figure key the national records hold. */
  predicate HeldKey(k: FieldKey)
  {
    k == TestsKey || k == ConfirmedCasesKey || k == DeathsKey
  }

  /** The keys make/data.rb's `uk_cases` and `uk_deaths` pass, `:cumulative_cases`,
      `:daily_cases`, `:cumulative_deaths` and `:daily_deaths`, are ones the national records do
      not hold, so every figure of every row is nil. */
  lemma UkTableAsWrittenIsBlank(data: UkCovid19Data, cumulativeKey: FieldKey, dailyKey: FieldKey)
    requires !HeldKey(cumulativeKey) && !HeldKey(dailyKey)
    requires UkTable(data, cumulativeKey, dailyKey).Ok?
    ensures var rows := UkTable(data, cumulativeKey, dailyKey).value;
      forall i, j :: 0 <= i < |rows| && 0 <= j < |rows[i].values| ==> rows[i].values[j].None?
  {
    UkTableRows(data, cumulativeKey, dailyKey);
  }

  /** Read with a key the records hold, the cumulative half of a row is each nation's own figure,
      then the UK's, present exactly when that table has a record that day with the figure. */
  lemma UkTableWithRecordKeys(data: UkCovid19Data, key: FieldKey, dailyKey: FieldKey, i: nat)
    requires HeldKey(key)
    requires UkTable(data, key, dailyKey).Ok? && i < |UkTable(data, key, dailyKey).value|
    ensures var row := UkTable(data, key, dailyKey).value[i];
      var tables := [data.england, data.scotland, data.wales, data.northernIreland, data.uk];
      forall j :: 0 <= j < 5 ==>
        (row.values[j].Some? <==> Some(row.date) in tables[j] && Field(tables[j][Some(row.date)], key).Some?) &&
        (row.values[j].Some? ==> row.values[j] == Field(tables[j][Some(row.date)], key))
  {
    UkTableRows(data, key, dailyKey);
    var row := UkTable(data, key, dailyKey).value[i];
    var tables := [data.england, data.scotland, data.wales, data.northernIreland, data.uk];
    forall j | 0 <= j < 5
      ensures row.values[j] == Figure(tables[j], row.date, key)
    {
      assert row.values == UkDay(data, row.date, key, dailyKey);
    }
  }

  // ---------------------------------------------------------------- tests and mobility

  /** `scotland_tests`: the records in ascending date order, each as Date, Today Positive, Today
      Negative, Today Positive Rate, Total Positive and Total Negative, which is the record's own
      field order. Every stored record carries its key as its date, so sorting by the record's
      date is sorting by the key. */
  function ScotlandTests(data: ScotlandCovid19Data): seq<TestRecord>
    reads data
  {
    var ds := SortedDates(data.tests.Keys);
    var tests := data.tests;
    seq(|ds|, i requires 0 <= i < |ds| => tests[ds[i]])
  }

  /** When every record carries its key as its date, the rows hold every record once, in strictly
      ascending date order. */
  lemma ScotlandTestsOrdered(data: ScotlandCovid19Data)
    requires forall d :: d in data.tests ==> data.tests[d].date == Some(d)
    ensures |ScotlandTests(data)| == |data.tests|
    ensures forall i, j :: 0 <= i < j < |ScotlandTests(data)| ==>
      ScotlandTests(data)[i].date.Some? && ScotlandTests(data)[j].date.Some? &&
      ScotlandTests(data)[i].date.value < ScotlandTests(data)[j].date.value
    ensures forall d :: d in data.tests ==> data.tests[d] in ScotlandTests(data)
  {
    ScotlandTestsDates(data);
    ScotlandTestsComplete(data);
  }

  lemma ScotlandTestsDates(data: ScotlandCovid19Data)
    requires forall d :: d in data.tests ==> data.tests[d].date == Some(d)
    ensures forall i :: 0 <= i < |ScotlandTests(data)| ==> ScotlandTests(data)[i].date == Some(SortedDates(data.tests.Keys)[i])
  {
  }

  lemma ScotlandTestsComplete(data: ScotlandCovid19Data)
    ensures forall d :: d in data.tests ==> data.tests[d] in ScotlandTests(data)
  {
    var ds := SortedDates(data.tests.Keys);
    var rows := ScotlandTests(data);
    forall d | d in data.tests ensures data.tests[d] in rows {
      var i :| 0 <= i < |ds| && ds[i] == d;
      assert rows[i] == data.tests[d];
    }
  }

  function SeriesKeys(series: seq<Series>): (ks: seq<Option<string>>)
    ensures |ks| == |series| && forall i :: 0 <= i < |series| ==> ks[i] == series[i].key
  {
    seq(|series|, i requires 0 <= i < |series| => series[i].key)
  }

  /** `GoogleMobilityData.data[key]`: the series stored under the key, nil when there is none. */
  function MobilityOf(data: GoogleMobilityData, key: Option<string>): (r: Option<seq<Point>>)
    reads data
    ensures r.Some? <==> exists i :: 0 <= i < |data.data| && data.data[i].key == key
    ensures r.Some? ==> exists i :: 0 <= i < |data.data| && data.data[i].key == key && data.data[i].points == r.value
  {
    var i := FirstIndex(SeriesKeys(data.data), key);
    if i < 0 then
      assert forall j :: 0 <= j < |data.data| ==> data.data[j].key != key by {
        forall j | 0 <= j < |data.data| ensures data.data[j].key != key {
          assert SeriesKeys(data.data)[j] == data.data[j].key;
        }
      }
      None
    else Some(data.data[i].points)
  }
}
