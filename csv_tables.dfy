/** The CSV downloads (make/csv.rb): each writer pushes one line per date onto a table under a
    fixed header. The lines are what the writers compute; writing the text to a file is not
    part of this model. */
module CsvTables {
  import opened Common
  import opened Dates
  import opened ScotlandData
  import opened UkData
  import opened Tables

  /** A value as a CSV line holds it; nil is written as an empty field. */
  datatype CsvValue = NilValue | DateValue(date: Date) | RealValue(x: real) | IntValue(n: int) | RatioValue(ratio: Ratio)
    | TextValue(text: string)

  function OptDate(d: Option<Date>): CsvValue
  {
    if d.Some? then DateValue(d.value) else NilValue
  }

  function OfReal(v: Option<real>): CsvValue
  {
    if v.Some? then RealValue(v.value) else NilValue
  }

  function OfInt(v: Option<int>): CsvValue
  {
    if v.Some? then IntValue(v.value) else NilValue
  }

  /** A field the `:numeric` converter left: an Integer, a Float, or the text it could not read. */
  function OfNumeric(v: Option<NumericField>): CsvValue
  {
    match v
    case None => NilValue
    case Some(NumField(IntNum(i))) => IntValue(i)
    case Some(NumField(FloatNum(x))) => RealValue(x)
    case Some(TextField(t)) => TextValue(t)
  }

  function OfRatio(v: Option<Ratio>): CsvValue
  {
    if v.Some? then RatioValue(v.value) else NilValue
  }

  /** `CSV::Table.new([], headers: ...)`, filled by `push`. */
  class CsvTable {
    const headers: seq<string>
    var lines: seq<seq<CsvValue>>

    constructor (headers: seq<string>)
      ensures this.headers == headers && lines == []
    {
      this.headers := headers;
      lines := [];
    }

    method Push(line: seq<CsvValue>)
      modifies this
      ensures lines == old(lines) + [line]
    {
      lines := lines + [line];
    }

    /** Push every line, in order. */
    method PushAll(ls: seq<seq<CsvValue>>)
      modifies this
      ensures lines == old(lines) + ls
    {
      var i := 0;
      while i < |ls|
        invariant 0 <= i <= |ls|
        invariant lines == old(lines) + ls[..i]
      {
        assert ls[..i + 1] == ls[..i] + [ls[i]];
        Push(ls[i]);
        i := i + 1;
      }
      assert ls[..|ls|] == ls;
    }
  }

  /** A table holding exactly these lines under these headers. */
  method NewTable(headers: seq<string>, ls: seq<seq<CsvValue>>) returns (table: CsvTable)
    ensures fresh(table) && table.headers == headers && table.lines == ls
  {
    table := new CsvTable(headers);
    table.PushAll(ls);
  }

  // ---------------------------------------------------------------- cases and deaths

  function BoardHeaders(boards: seq<string>): seq<string>
  {
    ["Date"] + boards + [GRAND_TOTAL]
  }

  /** `[date, *record.values_at(*health_boards, 'Grand Total')]`. */
  function BoardLine(row: Row<real>): seq<CsvValue>
  {
    [OptDate(row.date)] + seq(|row.values|, j requires 0 <= j < |row.values| => OfReal(row.values[j]))
  }

  function BoardLines(rows: seq<Row<real>>): seq<seq<CsvValue>>
  {
    seq(|rows|, i requires 0 <= i < |rows| => BoardLine(rows[i]))
  }

  /** `scotland_cases`: one line per key of the cases table, over its sorted keys. */
  function CasesLines(data: ScotlandCovid19Data): Result<seq<seq<CsvValue>>>
    reads data
  {
    match CasesByHealthBoard(data)
    case Err(e) => Err(e)
    case Ok(rows) => Ok(BoardLines(rows))
  }

  /** `scotland_deaths`, and `uk_deaths_OLD`, which builds the same lines. */
  function DeathsLines(data: ScotlandCovid19Data): seq<seq<CsvValue>>
    reads data
  {
    BoardLines(DeathsByHealthBoard(data))
  }

  /** The line of a per-board table for a record: the date, every board's figure, then the Grand
      Total, one field per header. */
  predicate BoardLineOf(line: seq<CsvValue>, date: Option<Date>, boards: seq<string>, m: map<string, Option<real>>)
  {
    |line| == |BoardHeaders(boards)| && line[0] == OptDate(date) &&
    (forall j :: 0 <= j < |boards| ==> line[j + 1] == OfReal(Lookup(m, boards[j]))) &&
    line[|boards| + 1] == OfReal(Lookup(m, GRAND_TOTAL))
  }

  lemma BoardLineFields(row: Row<real>, boards: seq<string>, m: map<string, Option<real>>)
    requires row.values == ValuesAt(m, BoardColumns(boards))
    ensures BoardLineOf(BoardLine(row), row.date, boards, m)
  {
    var columns := BoardColumns(boards);
    assert forall j :: 0 <= j < |boards| ==> columns[j] == boards[j];
    assert columns[|boards|] == GRAND_TOTAL;
  }

  /** The cases download has a line for every key of the cases table, each key once and in
      ascending date order, holding the date, every board's figure and the Grand Total under the
      matching header. */
  lemma CasesLinesSpec(data: ScotlandCovid19Data)
    ensures CasesLines(data).Ok? <==> KeysSortable(data.cases)
    ensures CasesLines(data).Ok? ==>
      var lines, ks := CasesLines(data).value, SortKeys(data.cases).value;
      SortedKeysOf(ks, data.cases) && |lines| == |ks| &&
      forall i :: 0 <= i < |lines| ==> BoardLineOf(lines[i], ks[i], data.healthBoards, data.cases[ks[i]])
  {
    CasesByHealthBoardSpec(data);
    if KeysSortable(data.cases) {
      var rows, ks := CasesByHealthBoard(data).value, SortKeys(data.cases).value;
      assert RowDates(rows) == ks;
      forall i | 0 <= i < |rows| ensures BoardLineOf(BoardLine(rows[i]), ks[i], data.healthBoards, data.cases[ks[i]]) {
        assert rows[i].date == RowDates(rows)[i];
        BoardLineFields(rows[i], data.healthBoards, data.cases[ks[i]]);
      }
    }
  }

  /** The deaths download has a line for every row of the deaths table, which holds every date
      once in strictly ascending order, with the date, every board's figure and the Grand Total
      under the matching header. */
  lemma DeathsLinesSpec(data: ScotlandCovid19Data)
    ensures var lines, rows := DeathsLines(data), DeathsByHealthBoard(data);
      RowsOfTable(rows, data.deaths, BoardColumns(data.healthBoards)) && |lines| == |rows| &&
      forall i :: 0 <= i < |lines| ==> BoardLineOf(lines[i], rows[i].date, data.healthBoards, data.deaths[rows[i].date.value])
  {
    var rows := DeathsByHealthBoard(data);
    DeathsByHealthBoardSpec(data);
    forall i | 0 <= i < |rows| ensures BoardLineOf(BoardLine(rows[i]), rows[i].date, data.healthBoards, data.deaths[rows[i].date.value]) {
      BoardLineFields(rows[i], data.healthBoards, data.deaths[rows[i].date.value]);
    }
  }

  method WriteScotlandCases(data: ScotlandCovid19Data) returns (r: Result<CsvTable>)
    ensures r.Ok? <==> KeysSortable(data.cases)
    ensures r.Ok? ==> fresh(r.value) && r.value.headers == BoardHeaders(data.healthBoards) && r.value.lines == CasesLines(data).value
  {
    CasesLinesSpec(data);
    var lines := CasesLines(data);
    if lines.Err? {
      return Err(lines.msg);
    }
    var table := NewTable(BoardHeaders(data.healthBoards), lines.value);
    return Ok(table);
  }

  method WriteScotlandDeaths(data: ScotlandCovid19Data) returns (table: CsvTable)
    ensures fresh(table) && table.headers == BoardHeaders(data.healthBoards) && table.lines == DeathsLines(data)
  {
    table := NewTable(BoardHeaders(data.healthBoards), DeathsLines(data));
  }

  // ---------------------------------------------------------------- intensive care and deceased

  const ICU_DECEASED_HEADERS: seq<string> := ["Date", "Patients in intensive care", "Cumulative deceased"]

  function IcuDeceasedLine(row: IcuDeceasedRow): seq<CsvValue>
  {
    [DateValue(row.date), OfInt(row.intensiveCare), OfNumeric(row.deceased)]
  }

  /** `scotland_icu_deceased`: one line per day of the two tables' union range. */
  function IcuDeceasedLines(data: ScotlandCovid19Data): Result<seq<seq<CsvValue>>>
    reads data
  {
    match IcuDeceased(data)
    case Err(e) => Err(e)
    case Ok(rows) => Ok(seq(|rows|, i requires 0 <= i < |rows| => IcuDeceasedLine(rows[i])))
  }

  /** The download covers every day from the earlier first date of the two tables to the later
      last date, each line holding the day, the patients in intensive care and the deceased
      count, empty where the day is absent. */
  lemma IcuDeceasedLinesSpec(data: ScotlandCovid19Data)
    ensures IcuDeceasedLines(data).Ok? <==> None !in data.deceased && |data.deceased| > 0 && |data.intensiveCare| > 0
    ensures IcuDeceasedLines(data).Ok? ==>
      var lines, days := IcuDeceasedLines(data).value, RowDays(IcuDeceased(data).value);
      SpansUnion(days, [DaysOf(data.deceased), data.intensiveCare.Keys]) && |lines| == |days| &&
      forall i :: 0 <= i < |lines| ==>
        |lines[i]| == |ICU_DECEASED_HEADERS| && lines[i][0] == DateValue(days[i]) &&
        lines[i][1] == OfInt(Get(data.intensiveCare, days[i])) && lines[i][2] == OfNumeric(GetAt(data.deceased, days[i]))
  {
    IcuDeceasedSpec(data);
  }

  method WriteScotlandIcuDeceased(data: ScotlandCovid19Data) returns (r: Result<CsvTable>)
    ensures r.Ok? <==> IcuDeceasedLines(data).Ok?
    ensures r.Ok? ==> fresh(r.value) && r.value.headers == ICU_DECEASED_HEADERS && r.value.lines == IcuDeceasedLines(data).value
  {
    var lines := IcuDeceasedLines(data);
    if lines.Err? {
      return Err(lines.msg);
    }
    var table := NewTable(ICU_DECEASED_HEADERS, lines.value);
    return Ok(table);
  }

  // ---------------------------------------------------------------- tests

  const TESTS_HEADERS: seq<string> := ["Date", "Positive", "Negative", "Cumulative Positive", "Cumulative Negative"]

  /** `record.values_at('Date', 'Today Positive', 'Today Negative', 'Total Positive',
      'Total Negative')`: the positivity rate is not written. */
  function TestLine(r: TestRecord): seq<CsvValue>
  {
    [OptDate(r.date), OfNumeric(r.todayPositive), OfNumeric(r.todayNegative), OfNumeric(r.totalPositive), OfNumeric(r.totalNegative)]
  }

  /** `scotland_tests`: the records sorted by date. */
  function TestsLines(data: ScotlandCovid19Data): seq<seq<CsvValue>>
    reads data
  {
    var rows := ScotlandTests(data);
    seq(|rows|, i requires 0 <= i < |rows| => TestLine(rows[i]))
  }

  /** Every line of the download is a stored record without its rate, and every stored record
      is written. */
  lemma TestsLinesSpec(data: ScotlandCovid19Data)
    ensures forall line :: line in TestsLines(data) ==> exists d :: d in data.tests && line == TestLine(data.tests[d])
    ensures forall d :: d in data.tests ==> TestLine(data.tests[d]) in TestsLines(data)
  {
    var lines, rows, ds := TestsLines(data), ScotlandTests(data), SortedDates(data.tests.Keys);
    forall line | line in lines ensures exists d :: d in data.tests && line == TestLine(data.tests[d]) {
      var i :| 0 <= i < |lines| && lines[i] == line;
      assert ds[i] in data.tests && rows[i] == data.tests[ds[i]];
    }
    forall d | d in data.tests ensures TestLine(data.tests[d]) in lines {
      var i :| 0 <= i < |ds| && ds[i] == d;
      assert lines[i] == TestLine(data.tests[d]);
    }
  }

  /** When every record carries its key as its date, there is one line per record, with the dates
      strictly ascending. */
  lemma TestsLinesOrdered(data: ScotlandCovid19Data)
    requires forall d :: d in data.tests ==> data.tests[d].date == Some(d)
    ensures var lines := TestsLines(data);
      |lines| == |data.tests| &&
      forall i, j :: 0 <= i < j < |lines| ==>
        lines[i][0].DateValue? && lines[j][0].DateValue? && lines[i][0].date < lines[j][0].date
  {
    ScotlandTestsOrdered(data);
    var lines: seq<seq<CsvValue>>, rows := TestsLines(data), ScotlandTests(data);
    forall i, j | 0 <= i < j < |lines|
      ensures lines[i][0].DateValue? && lines[j][0].DateValue? && lines[i][0].date < lines[j][0].date
    {
      assert lines[i] == TestLine(rows[i]) && lines[j] == TestLine(rows[j]);
    }
  }

  method WriteScotlandTests(data: ScotlandCovid19Data) returns (table: CsvTable)
    ensures fresh(table) && table.headers == TESTS_HEADERS && table.lines == TestsLines(data)
  {
    table := NewTable(TESTS_HEADERS, TestsLines(data));
  }

  // ---------------------------------------------------------------- one health board

  const SHARE_HEADERS: seq<string> := ["Date", "Cases", "Deaths", "Cases Ratio", "Deaths Ratio"]

  /** `cases.dig(date, name)`. */
  function DigKey(cases: map<Option<Date>, map<string, Option<real>>>, k: Option<Date>, name: string): Option<real>
  {
    if k in cases then Lookup(cases[k], name) else None
  }

  /** `deaths.dig(date, name)` at a key of the cases table: the deaths table has no nil key. */
  function DeathsAt(deaths: map<Date, map<string, Option<real>>>, k: Option<Date>, name: string): Option<real>
  {
    if k.Some? then Dig(deaths, k.value, name) else None
  }

  /** The line of a board's download at a key of the cases table. */
  function CaseLine(cases: map<Option<Date>, map<string, Option<real>>>, deaths: map<Date, map<string, Option<real>>>,
                    name: string, k: Option<Date>): Result<seq<CsvValue>>
  {
    var c, dt := DigKey(cases, k, name), DeathsAt(deaths, k, name);
    var cs, ds := Share(c, DigKey(cases, k, GRAND_TOTAL)), Share(dt, DeathsAt(deaths, k, GRAND_TOTAL));
    if cs.Err? then Err(cs.msg)
    else if ds.Err? then Err(ds.msg)
    else Ok([OptDate(k), OfReal(c), OfReal(dt), OfRatio(cs.value), OfRatio(ds.value)])
  }

  /** `health_board(name)`: one line per key of the cases table, over its sorted keys. */
  function HealthBoardLines(data: ScotlandCovid19Data, name: string): Result<seq<seq<CsvValue>>>
    reads data
  {
    var cases, deaths := data.cases, data.deaths;
    if name !in data.healthBoards then Err(name + " is not a known health board")
    else
      match SortKeys(cases)
      case Err(e) => Err(e)
      case Ok(ks) => MapResult(ks, k => CaseLine(cases, deaths, name, k))
  }

  /** The totals are present at a case key where the board's case or death figure is. */
  predicate KeyCovered(cases: map<Option<Date>, map<string, Option<real>>>, deaths: map<Date, map<string, Option<real>>>,
                       name: string, k: Option<Date>)
  {
    (DigKey(cases, k, name).Some? ==> DigKey(cases, k, GRAND_TOTAL).Some?) &&
    (DeathsAt(deaths, k, name).Some? ==> DeathsAt(deaths, k, GRAND_TOTAL).Some?)
  }

  predicate CaseTotalsCover(cases: map<Option<Date>, map<string, Option<real>>>, deaths: map<Date, map<string, Option<real>>>, name: string)
  {
    forall k :: k in cases ==> KeyCovered(cases, deaths, name, k)
  }

  /** A line of a board's download: the key's date, the board's cases and deaths that day, and
      each ratio, empty exactly when the figure is and otherwise the figure over the Grand Total. */
  predicate CaseLineOf(line: seq<CsvValue>, cases: map<Option<Date>, map<string, Option<real>>>, deaths: map<Date, map<string, Option<real>>>,
                       name: string, k: Option<Date>)
  {
    var c, dt := DigKey(cases, k, name), DeathsAt(deaths, k, name);
    |line| == |SHARE_HEADERS| && line[0] == OptDate(k) && line[1] == OfReal(c) && line[2] == OfReal(dt) &&
    (line[3] == NilValue <==> c.None?) &&
    (c.Some? ==> DigKey(cases, k, GRAND_TOTAL).Some? && line[3] == RatioValue(Divide(c.value, DigKey(cases, k, GRAND_TOTAL).value))) &&
    (line[4] == NilValue <==> dt.None?) &&
    (dt.Some? ==> DeathsAt(deaths, k, GRAND_TOTAL).Some? && line[4] == RatioValue(Divide(dt.value, DeathsAt(deaths, k, GRAND_TOTAL).value)))
  }

  /** A line is written exactly where the totals cover the figures, and then has its fields. */
  lemma CaseLineSpec(cases: map<Option<Date>, map<string, Option<real>>>, deaths: map<Date, map<string, Option<real>>>,
                     name: string, k: Option<Date>)
    ensures CaseLine(cases, deaths, name, k).Ok? <==> KeyCovered(cases, deaths, name, k)
    ensures CaseLine(cases, deaths, name, k).Ok? ==> CaseLineOf(CaseLine(cases, deaths, name, k).value, cases, deaths, name, k)
  {
  }

  /** A board's download fails for a name that is not a board, for keys that cannot be sorted and
      for a missing total beside a figure; otherwise it is written. */
  lemma HealthBoardLinesOk(data: ScotlandCovid19Data, name: string)
    ensures HealthBoardLines(data, name).Ok? <==>
      name in data.healthBoards && KeysSortable(data.cases) && CaseTotalsCover(data.cases, data.deaths, name)
  {
    if name in data.healthBoards && KeysSortable(data.cases) {
      SortKeysSpec(data.cases);
      if CaseTotalsCover(data.cases, data.deaths, name) {
        CoveredLinesRead(data.cases, data.deaths, name, SortKeys(data.cases).value);
      } else {
        UncoveredLineFails(data.cases, data.deaths, name, SortKeys(data.cases).value);
      }
    }
  }

  lemma CoveredLinesRead(cases: map<Option<Date>, map<string, Option<real>>>, deaths: map<Date, map<string, Option<real>>>,
                         name: string, ks: seq<Option<Date>>)
    requires forall i :: 0 <= i < |ks| ==> ks[i] in cases
    requires CaseTotalsCover(cases, deaths, name)
    ensures MapResult(ks, k => CaseLine(cases, deaths, name, k)).Ok?
  {
    forall i | 0 <= i < |ks| ensures CaseLine(cases, deaths, name, ks[i]).Ok? {
      assert KeyCovered(cases, deaths, name, ks[i]);
      CaseLineSpec(cases, deaths, name, ks[i]);
    }
  }

  lemma UncoveredLineFails(cases: map<Option<Date>, map<string, Option<real>>>, deaths: map<Date, map<string, Option<real>>>,
                           name: string, ks: seq<Option<Date>>)
    requires forall k :: k in cases ==> k in ks
    requires !CaseTotalsCover(cases, deaths, name)
    ensures MapResult(ks, k => CaseLine(cases, deaths, name, k)).Err?
  {
    var k :| k in cases && !KeyCovered(cases, deaths, name, k);
    var i :| 0 <= i < |ks| && ks[i] == k;
    CaseLineSpec(cases, deaths, name, k);
  }

  /** The download has a line for every key of the cases table only, each key once and in
      ascending date order; the deaths are read at the case dates, nil where the deaths table
      has none. */
  lemma HealthBoardLinesSpec(data: ScotlandCovid19Data, name: string)
    requires HealthBoardLines(data, name).Ok?
    ensures KeysSortable(data.cases)
    ensures var lines, ks := HealthBoardLines(data, name).value, SortKeys(data.cases).value;
      SortedKeysOf(ks, data.cases) && |lines| == |ks| &&
      forall i :: 0 <= i < |lines| ==> CaseLineOf(lines[i], data.cases, data.deaths, name, ks[i])
  {
    var cases, deaths := data.cases, data.deaths;
    SortKeysSpec(cases);
    var ks := SortKeys(cases).value;
    var f := k => CaseLine(cases, deaths, name, k);
    assert HealthBoardLines(data, name) == MapResult(ks, f);
    var lines := HealthBoardLines(data, name).value;
    forall i | 0 <= i < |lines| ensures CaseLineOf(lines[i], cases, deaths, name, ks[i]) {
      CaseLineSpec(cases, deaths, name, ks[i]);
      assert lines[i] == f(ks[i]).value;
    }
  }

  /** `[date, cases, deaths, cases_ratio, deaths_ratio]`. */
  function ShareLine(row: ShareRow): seq<CsvValue>
  {
    [DateValue(row.date), OfReal(row.cases), OfReal(row.deaths), OfRatio(row.casesShare), OfRatio(row.deathsShare)]
  }

  /** At a dated key the download's line is the row of the same day in the board's table of
      make/data.rb, which covers the union of the case and death ranges instead. */
  lemma HealthBoardLineMatchesTable(data: ScotlandCovid19Data, name: string, d: Date)
    requires Some(d) in data.cases
    ensures CaseLine(data.cases, data.deaths, name, Some(d)).Ok? <==> BoardDay(data.cases, data.deaths, name, d).Ok?
    ensures CaseLine(data.cases, data.deaths, name, Some(d)).Ok? ==>
      CaseLine(data.cases, data.deaths, name, Some(d)).value == ShareLine(BoardDay(data.cases, data.deaths, name, d).value)
  {
  }

  method WriteHealthBoard(data: ScotlandCovid19Data, name: string) returns (r: Result<CsvTable>)
    ensures r.Ok? <==> name in data.healthBoards && KeysSortable(data.cases) && CaseTotalsCover(data.cases, data.deaths, name)
    ensures r.Ok? ==> fresh(r.value) && r.value.headers == SHARE_HEADERS && r.value.lines == HealthBoardLines(data, name).value
  {
    HealthBoardLinesOk(data, name);
    var lines := HealthBoardLines(data, name);
    if lines.Err? {
      return Err(lines.msg);
    }
    var table := NewTable(SHARE_HEADERS, lines.value);
    return Ok(table);
  }

  // ---------------------------------------------------------------- one nation

  /** The four figures a country line needs are present that day. */
  predicate CountryFull(uk: map<Option<Date>, UkRecord>, t: map<Option<Date>, UkRecord>, d: Date)
  {
    Figure(uk, d, ConfirmedCasesKey).Some? && Figure(uk, d, DeathsKey).Some? &&
    Figure(t, d, ConfirmedCasesKey).Some? && Figure(t, d, DeathsKey).Some?
  }

  function FullDays(uk: map<Option<Date>, UkRecord>, t: map<Option<Date>, UkRecord>): Date -> bool
  {
    d => CountryFull(uk, t, d)
  }

  function CountryLine(uk: map<Option<Date>, UkRecord>, t: map<Option<Date>, UkRecord>, d: Date): seq<CsvValue>
    requires CountryFull(uk, t, d)
  {
    var c, dt := Figure(t, d, ConfirmedCasesKey).value, Figure(t, d, DeathsKey).value;
    [DateValue(d), RealValue(c), RealValue(dt),
     RatioValue(Divide(c, Figure(uk, d, ConfirmedCasesKey).value)), RatioValue(Divide(dt, Figure(uk, d, DeathsKey).value))]
  }

  function CountryLinesOf(uk: map<Option<Date>, UkRecord>, t: map<Option<Date>, UkRecord>, days: seq<Date>): seq<seq<CsvValue>>
    requires forall i :: 0 <= i < |days| ==> CountryFull(uk, t, days[i])
  {
    seq(|days|, i requires 0 <= i < |days| => CountryLine(uk, t, days[i]))
  }

  /** The days of a nation's download: the days of its range with all four figures. */
  function CountryDays(data: UkCovid19Data, n: Nation): Result<seq<Date>>
    reads data
  {
    var uk, t := data.uk, data.TableOf(n);
    match CountryRange(uk, t)
    case Err(e) => Err(e)
    case Ok(days) => Ok(Filter(days, FullDays(uk, t)))
  }

  /** `country(name)`. */
  function CountryLines(data: UkCovid19Data, name: string): Result<seq<seq<CsvValue>>>
    reads data
  {
    match CountryNamed(name)
    case None => Err(name + " is not a known country")
    case Some(n) =>
      match CountryDays(data, n)
      case Err(e) => Err(e)
      case Ok(days) => Ok(CountryLinesOf(data.uk, data.TableOf(n), days))
  }

  lemma {:induction false} FilterAscending(xs: seq<Date>, keep: Date -> bool)
    requires Ascending(xs)
    ensures Ascending(Filter(xs, keep))
  {
    if |xs| > 0 {
      var init := xs[..|xs| - 1];
      FilterAscending(init, keep);
      assert forall j :: 0 <= j < |init| ==> init[j] < xs[|xs| - 1];
    }
  }

  /** A nation's download fails exactly as its table does: for a name that is not one of the
      four nations, and for a nil date key or an empty table. */
  lemma CountryLinesOk(data: UkCovid19Data, name: string)
    ensures CountryLines(data, name).Ok? <==> (CountryNamed(name).Some? &&
      None !in data.uk && None !in data.TableOf(CountryNamed(name).value) &&
      |data.uk| > 0 && |data.TableOf(CountryNamed(name).value)| > 0)
  {
    if CountryNamed(name).Some? {
      CountryRangeOk(data.uk, data.TableOf(CountryNamed(name).value));
    }
  }

  /** The download's days are the days of the nation's intersection range on which the nation's
      and the UK's cases and deaths are all present, in ascending order. */
  lemma CountryDaysSpec(data: UkCovid19Data, n: Nation)
    requires CountryDays(data, n).Ok?
    ensures CountryRange(data.uk, data.TableOf(n)).Ok?
    ensures var uk, t := data.uk, data.TableOf(n);
      var range, days := CountryRange(uk, t).value, CountryDays(data, n).value;
      Ascending(days) && forall d :: d in days <==> d in range && CountryFull(uk, t, d)
  {
    var uk, t := data.uk, data.TableOf(n);
    var range := CountryRange(uk, t).value;
    assert Ascending(range) by {
      var ks := [DaysOf(uk), DaysOf(t)];
      assert range == IntersectionRange(ks).value;
    }
    FilterAscending(range, FullDays(uk, t));
    var days := Filter(range, FullDays(uk, t));
    forall d ensures d in days <==> d in range && CountryFull(uk, t, d) {
      if d in range && CountryFull(uk, t, d) {
        var j :| 0 <= j < |range| && range[j] == d;
        assert FullDays(uk, t)(range[j]);
      }
    }
  }

  /** A line of a nation's download: the day, the nation's cases and deaths and their ratios to
      the UK's. */
  predicate CountryLineOf(line: seq<CsvValue>, uk: map<Option<Date>, UkRecord>, t: map<Option<Date>, UkRecord>, d: Date)
    requires CountryFull(uk, t, d)
  {
    var c, dt := Figure(t, d, ConfirmedCasesKey).value, Figure(t, d, DeathsKey).value;
    |line| == |SHARE_HEADERS| && line[0] == DateValue(d) && line[1] == RealValue(c) && line[2] == RealValue(dt) &&
    line[3] == RatioValue(Divide(c, Figure(uk, d, ConfirmedCasesKey).value)) &&
    line[4] == RatioValue(Divide(dt, Figure(uk, d, DeathsKey).value))
  }

  /** A nation's download has one line per day of its days, with that day's figures. */
  lemma CountryLinesSpec(data: UkCovid19Data, name: string)
    requires CountryLines(data, name).Ok?
    ensures CountryNamed(name).Some? && CountryDays(data, CountryNamed(name).value).Ok?
    ensures var n := CountryNamed(name).value;
      var days, lines := CountryDays(data, n).value, CountryLines(data, name).value;
      |lines| == |days| &&
      forall i :: 0 <= i < |lines| ==>
        (CountryFull(data.uk, data.TableOf(n), days[i]) && CountryLineOf(lines[i], data.uk, data.TableOf(n), days[i]))
  {
    var n := CountryNamed(name).value;
    var uk, t := data.uk, data.TableOf(n);
    var days := CountryDays(data, n).value;
    assert CountryLines(data, name).value == CountryLinesOf(uk, t, days);
    CountryLinesOfSpec(uk, t, days);
  }

  lemma CountryLinesOfSpec(uk: map<Option<Date>, UkRecord>, t: map<Option<Date>, UkRecord>, days: seq<Date>)
    requires forall i :: 0 <= i < |days| ==> CountryFull(uk, t, days[i])
    ensures |CountryLinesOf(uk, t, days)| == |days|
    ensures forall i :: 0 <= i < |days| ==> CountryLineOf(CountryLinesOf(uk, t, days)[i], uk, t, days[i])
  {
  }

  /** Each line is the row of the same day in the nation's table of make/data.rb read with the
      keys the records hold, and that row has both figures and both ratios. */
  lemma CountryLinesMatchTable(data: UkCovid19Data, name: string, i: nat)
    requires CountryLines(data, name).Ok? && i < |CountryLines(data, name).value|
    ensures CountryNamed(name).Some? && CountryDays(data, CountryNamed(name).value).Ok?
    ensures var n := CountryNamed(name).value;
      var row := CountryDay(data.uk, data.TableOf(n), CountryDays(data, n).value[i], ConfirmedCasesKey, DeathsKey);
      row.cases.Some? && row.deaths.Some? && row.casesShare.Some? && row.deathsShare.Some? &&
      CountryLines(data, name).value[i] == ShareLine(row)
  {
  }

  lemma FilterStep(xs: seq<Date>, i: nat, keep: Date -> bool)
    requires i < |xs|
    ensures Filter(xs[..i + 1], keep) == if keep(xs[i]) then Filter(xs[..i], keep) + [xs[i]] else Filter(xs[..i], keep)
  {
    assert xs[..i + 1][..i] == xs[..i];
  }

  lemma CountryLinesOfAppend(uk: map<Option<Date>, UkRecord>, t: map<Option<Date>, UkRecord>, days: seq<Date>, d: Date)
    requires forall i :: 0 <= i < |days| ==> CountryFull(uk, t, days[i])
    requires CountryFull(uk, t, d)
    ensures CountryLinesOf(uk, t, days + [d]) == CountryLinesOf(uk, t, days) + [CountryLine(uk, t, d)]
  {
  }

  /** One day of CollectCountryLines' loop: a full day is kept and its line appended, any other
      day is skipped. */
  lemma CollectStep(uk: map<Option<Date>, UkRecord>, t: map<Option<Date>, UkRecord>, days: seq<Date>, i: nat, kept: seq<Date>)
    requires i < |days| && kept == Filter(days[..i], FullDays(uk, t))
    requires forall j :: 0 <= j < |kept| ==> CountryFull(uk, t, kept[j])
    ensures CountryFull(uk, t, days[i]) ==>
      Filter(days[..i + 1], FullDays(uk, t)) == kept + [days[i]] &&
      CountryLinesOf(uk, t, kept + [days[i]]) == CountryLinesOf(uk, t, kept) + [CountryLine(uk, t, days[i])]
    ensures !CountryFull(uk, t, days[i]) ==> Filter(days[..i + 1], FullDays(uk, t)) == kept
  {
    FilterStep(days, i, FullDays(uk, t));
    if CountryFull(uk, t, days[i]) {
      CountryLinesOfAppend(uk, t, kept, days[i]);
    }
  }

  /** The loop over a nation's range that skips the days lacking a figure. */
  method CollectCountryLines(uk: map<Option<Date>, UkRecord>, t: map<Option<Date>, UkRecord>, days: seq<Date>)
    returns (lines: seq<seq<CsvValue>>)
    ensures lines == CountryLinesOf(uk, t, Filter(days, FullDays(uk, t)))
  {
    var keep := FullDays(uk, t);
    lines := [];
    ghost var kept: seq<Date> := [];
    var i := 0;
    while i < |days|
      invariant 0 <= i <= |days|
      invariant kept == Filter(days[..i], keep)
      invariant forall j :: 0 <= j < |kept| ==> CountryFull(uk, t, kept[j])
      invariant lines == CountryLinesOf(uk, t, kept)
    {
      var d := days[i];
      CollectStep(uk, t, days, i, kept);
      if CountryFull(uk, t, d) {
        lines := lines + [CountryLine(uk, t, d)];
        kept := kept + [d];
      }
      i := i + 1;
    }
    assert days[..|days|] == days;
  }

  /** `country(name)`: the nation's lines pushed onto a table under the share headers. */
  method WriteCountry(data: UkCovid19Data, name: string) returns (r: Result<CsvTable>)
    ensures r.Ok? <==> CountryLines(data, name).Ok?
    ensures r.Ok? ==> fresh(r.value) && r.value.headers == SHARE_HEADERS && r.value.lines == CountryLines(data, name).value
  {
    var n := CountryNamed(name);
    if n.None? {
      return Err(name + " is not a known country");
    }
    var uk, t := data.uk, data.TableOf(n.value);
    var range := CountryRange(uk, t);
    if range.Err? {
      return Err(range.msg);
    }
    var lines := CollectCountryLines(uk, t, range.value);
    assert CountryLines(data, name) == Ok(lines);
    var table := NewTable(SHARE_HEADERS, lines);
    return Ok(table);
  }

  // ---------------------------------------------------------------- the UK

  const UK_HEADERS: seq<string> := ["Date", "England", "Scotland", "Wales", "Northern", "Grand Total"]

  /** One day of `uk_cases` or `uk_deaths`: the four nations' and the UK's figure. */
  function UkLine(data: UkCovid19Data, d: Date, key: FieldKey): seq<CsvValue>
    reads data
  {
    [DateValue(d), OfReal(Figure(data.england, d, key)), OfReal(Figure(data.scotland, d, key)),
     OfReal(Figure(data.wales, d, key)), OfReal(Figure(data.northernIreland, d, key)), OfReal(Figure(data.uk, d, key))]
  }

  /** `uk_cases` (confirmed cases) and `uk_deaths` (deaths): one line per day of the four nations'
      union range. */
  function UkLines(data: UkCovid19Data, key: FieldKey): Result<seq<seq<CsvValue>>>
    reads data
  {
    var ks := NationDays(data);
    if !NationKeysDated(data) || !AllNonEmpty(ks) then Err("comparison of NilClass with Date failed")
    else
      var days := UnionRange(ks).value;
      Ok(seq(|days|, i requires 0 <= i < |days| reads data => UkLine(data, days[i], key)))
  }

  /** The UK downloads exist exactly when the four nations' tables are dated and non-empty; the
      UK's own table takes no part in the range. */
  lemma UkLinesOk(data: UkCovid19Data, key: FieldKey)
    ensures UkLines(data, key).Ok? <==> (NationKeysDated(data) &&
      |data.england| > 0 && |data.scotland| > 0 && |data.wales| > 0 && |data.northernIreland| > 0)
  {
    if NationKeysDated(data) {
      FourNationsDays(data.england, data.scotland, data.wales, data.northernIreland);
    }
  }

  /** They cover every day from the earliest first date of the four nations to the latest last
      date, each line holding the day and the figure of England, Scotland, Wales, Northern
      Ireland and the UK, empty where a table has no record that day. */
  lemma UkLinesSpec(data: UkCovid19Data, key: FieldKey)
    requires UkLines(data, key).Ok?
    ensures AllNonEmpty(NationDays(data))
    ensures var lines, days := UkLines(data, key).value, UnionRange(NationDays(data)).value;
      SpansUnion(days, NationDays(data)) && |lines| == |days| &&
      forall i :: 0 <= i < |lines| ==> UkLineAt(lines[i], data, days[i], key)
  {
    UnionRangeSpans(NationDays(data));
    var lines, days := UkLines(data, key).value, UnionRange(NationDays(data)).value;
    forall i | 0 <= i < |lines|
      ensures UkLineAt(lines[i], data, days[i], key)
    {
      UkLineSpec(data, days[i], key);
    }
  }

  predicate UkLineAt(line: seq<CsvValue>, data: UkCovid19Data, d: Date, key: FieldKey)
    reads data
  {
    |line| == |UK_HEADERS| && line[0] == DateValue(d) &&
    line[1] == OfReal(Figure(data.england, d, key)) && line[2] == OfReal(Figure(data.scotland, d, key)) &&
    line[3] == OfReal(Figure(data.wales, d, key)) && line[4] == OfReal(Figure(data.northernIreland, d, key)) &&
    line[5] == OfReal(Figure(data.uk, d, key))
  }

  lemma UkLineSpec(data: UkCovid19Data, d: Date, key: FieldKey)
    ensures UkLineAt(UkLine(data, d, key), data, d, key)
  {
  }

  /** Each line is the cumulative half of the same day's row of the UK table of make/data.rb read
      with the same key. */
  lemma UkLinesMatchTable(data: UkCovid19Data, key: FieldKey, dailyKey: FieldKey, i: nat)
    requires UkLines(data, key).Ok? && i < |UkLines(data, key).value|
    ensures UkTable(data, key, dailyKey).Ok?
    ensures var line, row := UkLines(data, key).value[i], UkTable(data, key, dailyKey).value[i];
      line[0] == DateValue(row.date) &&
      forall j :: 0 <= j < 5 ==> line[j + 1] == OfReal(row.values[j])
  {
    var days := UnionRange(NationDays(data)).value;
    var d := days[i];
    assert UkLines(data, key).value[i] == UkLine(data, d, key);
    assert UkTable(data, key, dailyKey).value[i] == DayRow(d, UkDay(data, d, key, dailyKey));
    UkLineMatchesDay(data, d, key, dailyKey);
  }

  lemma UkLineMatchesDay(data: UkCovid19Data, d: Date, key: FieldKey, dailyKey: FieldKey)
    ensures var line, values := UkLine(data, d, key), UkDay(data, d, key, dailyKey);
      line[0] == DateValue(d) && forall j :: 0 <= j < 5 ==> line[j + 1] == OfReal(values[j])
  {
    var line, values := UkLine(data, d, key), UkDay(data, d, key, dailyKey);
    forall j | 0 <= j < 5
      ensures line[j + 1] == OfReal(values[j])
    {
      if j == 0 { } else if j == 1 { } else if j == 2 { } else if j == 3 { } else { }
    }
  }

  method WriteUk(data: UkCovid19Data, key: FieldKey) returns (r: Result<CsvTable>)
    ensures r.Ok? <==> UkLines(data, key).Ok?
    ensures r.Ok? ==> fresh(r.value) && r.value.headers == UK_HEADERS && r.value.lines == UkLines(data, key).value
  {
    var lines := UkLines(data, key);
    if lines.Err? {
      return Err(lines.msg);
    }
    var table := NewTable(UK_HEADERS, lines.value);
    return Ok(table);
  }
}
