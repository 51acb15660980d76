/** The legacy pipeline (update.rb): a refresh gated on the data repository's commit sha that
    reads the population, cases and deaths files itself, writes the Scotland-wide and per-board
    CSV tables and decides which per-board plots to draw. */
module LegacyUpdate {
  import opened Common
  import opened Dates
  import HealthBoards
  import opened ScotlandData
  import opened Tables
  import opened CsvTables
  import opened PlotSeries

  /** A cases or deaths table: each date key to its record, keyed by board and 'Grand Total'. */
  type BoardTable = map<Option<Date>, map<string, Option<real>>>

  // ---------------------------------------------------------------- reading the tables

  function RecordDates(rs: seq<HealthBoards.Dated>): (ds: seq<Option<Date>>)
    ensures |ds| == |rs| && forall i :: 0 <= i < |rs| ==> ds[i] == rs[i].date
  {
    seq(|rs|, i requires 0 <= i < |rs| => rs[i].date)
  }

  /** `.map { |record| [record['Date'], board record] }.to_h`: a later record with the same date
      replaces an earlier one. */
  function RecordsByDate(boards: seq<string>, rs: seq<HealthBoards.Dated>): BoardTable
  {
    ZipToMap(RecordDates(rs), DeathRecords(boards, rs))
  }

  /** `CSV.read(file, headers: true, converters: [number_converter, date_converter])` keyed by
      date; the date converter has no 'NA' rule. */
  function ReadTable(file: HeaderedFile, boards: seq<string>, scale: map<string, real>, parse: DateParser): Result<BoardTable>
  {
    match HealthBoards.ReadRows(file.header, file.rows, boards + [GRAND_TOTAL], scale, parse, false)
    case Err(e) => Err(e)
    case Ok(rs) => Ok(RecordsByDate(boards, rs))
  }

  /** A file reads exactly when every one of its fields converts. */
  lemma ReadTableOk(file: HeaderedFile, boards: seq<string>, scale: map<string, real>, parse: DateParser)
    ensures ReadTable(file, boards, scale, parse).Ok? <==>
      forall i :: 0 <= i < |file.rows| ==> HealthBoards.ConvertRow(file.header, file.rows[i], scale, parse, false).Ok?
  {
    var columns := boards + [GRAND_TOTAL];
    var f := (row: seq<Cell>) => HealthBoards.ReadRecord(file.header, row, columns, scale, parse, false);
    assert HealthBoards.ReadRows(file.header, file.rows, columns, scale, parse, false) == MapResult(file.rows, f);
  }

  /** The table has a key for each date the records carry, and no other. */
  lemma RecordsByDateKeys(boards: seq<string>, rs: seq<HealthBoards.Dated>, d: Option<Date>)
    ensures d in RecordsByDate(boards, rs) <==> exists i :: 0 <= i < |rs| && rs[i].date == d
  {
    var ds := RecordDates(rs);
    if exists i :: 0 <= i < |rs| && rs[i].date == d {
      var i :| 0 <= i < |rs| && rs[i].date == d;
      assert ds[i] == d;
    }
  }

  /** Under a date is the last record carrying it, each board reading the figure at its own
      position and 'Grand Total' the one after. */
  lemma RecordsByDateAt(boards: seq<string>, rs: seq<HealthBoards.Dated>, d: Option<Date>)
    requires Distinct(boards) && GRAND_TOTAL !in boards
    requires d in RecordDates(rs)
    ensures d in RecordsByDate(boards, rs)
    ensures var last := rs[LastIndex(RecordDates(rs), d)];
      last.date == d && RecordsByDate(boards, rs)[d] == HealthBoards.BoardRecord(boards, last.figures)
    ensures var last := rs[LastIndex(RecordDates(rs), d)];
      var record := HealthBoards.BoardRecord(boards, last.figures);
      record[GRAND_TOTAL] == At(last.figures, |boards|) &&
      forall k :: 0 <= k < |boards| ==> record[boards[k]] == At(last.figures, k)
  {
    var ds := RecordDates(rs);
    OverwriteAt(map[], ds, DeathRecords(boards, rs), d);
    HealthBoards.BoardRecordAt(boards, rs[LastIndex(ds, d)].figures);
  }

  // ---------------------------------------------------------------- Scotland-wide tables

  function Columns(boards: seq<string>): seq<string>
  {
    boards + [GRAND_TOTAL]
  }

  /** `[date, *table.fetch(date).values_at(*health_boards, 'Grand Total')]`; `fetch` raises a
      KeyError for a date the table does not hold. */
  function FetchLine(table: BoardTable, date: Option<Date>, boards: seq<string>): (r: Result<seq<CsvValue>>)
    ensures r.Ok? <==> date in table
  {
    if date !in table then Err("key not found")
    else
      var vs := ValuesAt(table[date], Columns(boards));
      Ok([OptDate(date)] + seq(|vs|, j requires 0 <= j < |vs| => OfReal(vs[j])))
  }

  /** The line holds the date and then the record's figure under each board and 'Grand Total'. */
  predicate FiguresLineOf(line: seq<CsvValue>, date: Option<Date>, record: map<string, Option<real>>, boards: seq<string>)
  {
    var cs := Columns(boards);
    |line| == |cs| + 1 && line[0] == OptDate(date) &&
    forall j :: 1 <= j < |line| ==> line[j] == OfReal(Lookup(record, cs[j - 1]))
  }

  lemma FetchLineSpec(table: BoardTable, date: Option<Date>, boards: seq<string>)
    requires date in table
    ensures FiguresLineOf(FetchLine(table, date, boards).value, date, table[date], boards)
  {
  }

  /** One line per key, in the order given. */
  function KeyedLines(table: BoardTable, keys: seq<Option<Date>>, boards: seq<string>): Result<seq<seq<CsvValue>>>
  {
    MapResult(keys, k => FetchLine(table, k, boards))
  }

  /** Fetching every key succeeds exactly when the table holds them all; each line is then that
      key's record. */
  lemma KeyedLinesSpec(table: BoardTable, keys: seq<Option<Date>>, boards: seq<string>)
    ensures KeyedLines(table, keys, boards).Ok? <==> forall i :: 0 <= i < |keys| ==> keys[i] in table
    ensures KeyedLines(table, keys, boards).Ok? ==>
      var lines := KeyedLines(table, keys, boards).value;
      |lines| == |keys| &&
      forall i :: 0 <= i < |keys| ==> FiguresLineOf(lines[i], keys[i], table[keys[i]], boards)
  {
    var f := (k: Option<Date>) => FetchLine(table, k, boards);
    assert KeyedLines(table, keys, boards) == MapResult(keys, f);
    if KeyedLines(table, keys, boards).Ok? {
      forall i | 0 <= i < |keys| ensures FiguresLineOf(KeyedLines(table, keys, boards).value[i], keys[i], table[keys[i]], boards) {
        FetchLineSpec(table, keys[i], boards);
      }
    }
  }

  /** `cases_per_100000.csv`: a line per key of the cases table, over its sorted keys. */
  function CasesCsv(cases: BoardTable, boards: seq<string>): Result<seq<seq<CsvValue>>>
  {
    match SortKeys(cases)
    case Err(e) => Err(e)
    case Ok(ks) => KeyedLines(cases, ks, boards)
  }

  /** The cases table is written exactly when its keys sort, with one line per key in ascending
      date order, each the key's record. */
  lemma CasesCsvSpec(cases: BoardTable, boards: seq<string>)
    ensures CasesCsv(cases, boards).Ok? <==> KeysSortable(cases)
    ensures CasesCsv(cases, boards).Ok? ==>
      var ks, lines := SortKeys(cases).value, CasesCsv(cases, boards).value;
      SortedKeysOf(ks, cases) && |lines| == |ks| &&
      forall i :: 0 <= i < |ks| ==> FiguresLineOf(lines[i], ks[i], cases[ks[i]], boards)
  {
    if KeysSortable(cases) {
      SortKeysSpec(cases);
      KeyedLinesSpec(cases, SortKeys(cases).value, boards);
    }
  }

  /** `deaths_per_100000.csv` as written: it runs over the sorted death dates but fetches each
      one from the cases table. */
  function DeathsCsvAsWritten(cases: BoardTable, deaths: BoardTable, boards: seq<string>): Result<seq<seq<CsvValue>>>
  {
    match SortKeys(deaths)
    case Err(e) => Err(e)
    case Ok(ks) => KeyedLines(cases, ks, boards)
  }

  /** As written, the deaths table is written only when every death date is also a case date,
      and its lines are then the case figures of those dates. */
  lemma DeathsCsvAsWrittenReadsCases(cases: BoardTable, deaths: BoardTable, boards: seq<string>)
    ensures DeathsCsvAsWritten(cases, deaths, boards).Ok? <==>
      KeysSortable(deaths) && forall k :: k in deaths ==> k in cases
    ensures DeathsCsvAsWritten(cases, deaths, boards).Ok? ==>
      var ks, lines := SortKeys(deaths).value, DeathsCsvAsWritten(cases, deaths, boards).value;
      SortedKeysOf(ks, deaths) && |lines| == |ks| &&
      forall i :: 0 <= i < |ks| ==> ks[i] in cases && FiguresLineOf(lines[i], ks[i], cases[ks[i]], boards)
  {
    if KeysSortable(deaths) {
      SortKeysSpec(deaths);
      KeyedLinesSpec(cases, SortKeys(deaths).value, boards);
    }
  }

  /** A death date that has no case record fails the deaths table, whatever its figures. */
  lemma DeathsCsvAsWrittenFails(cases: BoardTable, deaths: BoardTable, boards: seq<string>, d: Option<Date>)
    requires d in deaths && d !in cases
    ensures DeathsCsvAsWritten(cases, deaths, boards).Err?
  {
    DeathsCsvAsWrittenReadsCases(cases, deaths, boards);
  }

  /** The deaths table as evidently intended: each death date's own record. */
  function DeathsCsv(deaths: BoardTable, boards: seq<string>): Result<seq<seq<CsvValue>>>
  {
    match SortKeys(deaths)
    case Err(e) => Err(e)
    case Ok(ks) => KeyedLines(deaths, ks, boards)
  }

  /** It is written whenever the death dates sort, a line per death date holding its deaths. */
  lemma DeathsCsvSpec(deaths: BoardTable, boards: seq<string>)
    ensures DeathsCsv(deaths, boards).Ok? <==> KeysSortable(deaths)
    ensures DeathsCsv(deaths, boards).Ok? ==>
      var ks, lines := SortKeys(deaths).value, DeathsCsv(deaths, boards).value;
      SortedKeysOf(ks, deaths) && |lines| == |ks| &&
      forall i :: 0 <= i < |ks| ==> FiguresLineOf(lines[i], ks[i], deaths[ks[i]], boards)
  {
    if KeysSortable(deaths) {
      SortKeysSpec(deaths);
      KeyedLinesSpec(deaths, SortKeys(deaths).value, boards);
    }
  }

  /** The loop `keys.each { |date| data.push [date, *table.fetch(date).values_at(...)] }`,
      stopped by the first KeyError. */
  method WriteKeyedLines(table: BoardTable, keys: seq<Option<Date>>, boards: seq<string>) returns (r: Result<seq<seq<CsvValue>>>)
    ensures r == KeyedLines(table, keys, boards)
  {
    var f := (k: Option<Date>) => FetchLine(table, k, boards);
    assert KeyedLines(table, keys, boards) == MapResult(keys, f);
    var lines: seq<seq<CsvValue>> := [];
    var i := 0;
    while i < |keys|
      invariant 0 <= i <= |keys| && |lines| == i
      invariant forall j :: 0 <= j < i ==> keys[j] in table && lines[j] == FetchLine(table, keys[j], boards).value
    {
      if keys[i] !in table {
        return Err(KeyedLines(table, keys, boards).msg);
      }
      lines := lines + [FetchLine(table, keys[i], boards).value];
      i := i + 1;
    }
    assert KeyedLines(table, keys, boards).value == lines;
    r := Ok(lines);
  }

  // ---------------------------------------------------------------- per-board tables

  /** A board's line at a key of the cases table: Date, Cases, Deaths, Cases Ratio, Deaths Ratio.
      A ratio is nil where the board's figure is; a figure beside a missing total stops the
      table, a total of 0 gives a non-finite ratio. */
  function BoardCsvLine(cases: BoardTable, deaths: BoardTable, board: string, k: Option<Date>): Result<seq<CsvValue>>
  {
    var c, dt := DigKey(cases, k, board), DigKey(deaths, k, board);
    var cs, ds := Share(c, DigKey(cases, k, GRAND_TOTAL)), Share(dt, DigKey(deaths, k, GRAND_TOTAL));
    if cs.Err? then Err(cs.msg)
    else if ds.Err? then Err(ds.msg)
    else Ok([OptDate(k), OfReal(c), OfReal(dt), OfRatio(cs.value), OfRatio(ds.value)])
  }

  /** The totals are there wherever the board's own figures are. */
  predicate BoardCovered(cases: BoardTable, deaths: BoardTable, board: string, k: Option<Date>)
  {
    (DigKey(cases, k, board).Some? ==> DigKey(cases, k, GRAND_TOTAL).Some?) &&
    (DigKey(deaths, k, board).Some? ==> DigKey(deaths, k, GRAND_TOTAL).Some?)
  }

  /** The line holds the board's case and death figures at the key and their shares of the
      totals, each share nil exactly where its figure is. */
  predicate BoardLineAt(line: seq<CsvValue>, cases: BoardTable, deaths: BoardTable, board: string, k: Option<Date>)
  {
    var c, dt := DigKey(cases, k, board), DigKey(deaths, k, board);
    |line| == |SHARE_HEADERS| && line[0] == OptDate(k) && line[1] == OfReal(c) && line[2] == OfReal(dt) &&
    (line[3] == NilValue <==> c.None?) && (line[4] == NilValue <==> dt.None?) &&
    (c.Some? ==> (DigKey(cases, k, GRAND_TOTAL).Some? &&
      line[3] == RatioValue(Divide(c.value, DigKey(cases, k, GRAND_TOTAL).value)))) &&
    (dt.Some? ==> (DigKey(deaths, k, GRAND_TOTAL).Some? &&
      line[4] == RatioValue(Divide(dt.value, DigKey(deaths, k, GRAND_TOTAL).value))))
  }

  lemma BoardCsvLineSpec(cases: BoardTable, deaths: BoardTable, board: string, k: Option<Date>)
    ensures BoardCsvLine(cases, deaths, board, k).Ok? <==> BoardCovered(cases, deaths, board, k)
    ensures BoardCsvLine(cases, deaths, board, k).Ok? ==> BoardLineAt(BoardCsvLine(cases, deaths, board, k).value, cases, deaths, board, k)
  {
  }

  /** A board's lines at the given keys. */
  function BoardLines(cases: BoardTable, deaths: BoardTable, board: string, ks: seq<Option<Date>>): Result<seq<seq<CsvValue>>>
  {
    MapResult(ks, k => BoardCsvLine(cases, deaths, board, k))
  }

  /** `#{board}_per_100000.csv`: a line per sorted key of the cases table. */
  function BoardCsv(cases: BoardTable, deaths: BoardTable, board: string): Result<seq<seq<CsvValue>>>
  {
    match SortKeys(cases)
    case Err(e) => Err(e)
    case Ok(ks) => BoardLines(cases, deaths, board, ks)
  }

  /** A board's table is written exactly when the case keys sort and the totals are there at
      every case key where the board's figures are. */
  lemma BoardCsvOk(cases: BoardTable, deaths: BoardTable, board: string)
    ensures BoardCsv(cases, deaths, board).Ok? <==>
      KeysSortable(cases) && forall k :: k in cases ==> BoardCovered(cases, deaths, board, k)
  {
    if KeysSortable(cases) {
      SortKeysSpec(cases);
      var ks := SortKeys(cases).value;
      var f := (k: Option<Date>) => BoardCsvLine(cases, deaths, board, k);
      assert BoardLines(cases, deaths, board, ks) == MapResult(ks, f);
      forall i | 0 <= i < |ks| ensures f(ks[i]).Ok? <==> BoardCovered(cases, deaths, board, ks[i]) {
        BoardCsvLineSpec(cases, deaths, board, ks[i]);
      }
    }
  }

  /** Its lines follow the case keys in ascending date order, each the board's line at its key. */
  lemma BoardCsvSpec(cases: BoardTable, deaths: BoardTable, board: string)
    requires BoardCsv(cases, deaths, board).Ok?
    ensures KeysSortable(cases)
    ensures var ks, lines := SortKeys(cases).value, BoardCsv(cases, deaths, board).value;
      SortedKeysOf(ks, cases) && |lines| == |ks| &&
      forall i :: 0 <= i < |ks| ==> BoardLineAt(lines[i], cases, deaths, board, ks[i])
  {
    SortKeysSpec(cases);
    var ks := SortKeys(cases).value;
    var f := (k: Option<Date>) => BoardCsvLine(cases, deaths, board, k);
    assert BoardLines(cases, deaths, board, ks) == MapResult(ks, f);
    forall i | 0 <= i < |ks| ensures BoardLineAt(BoardCsv(cases, deaths, board).value[i], cases, deaths, board, ks[i]) {
      BoardCsvLineSpec(cases, deaths, board, ks[i]);
    }
  }

  /** The loop over the sorted case keys that pushes a board's lines. */
  method WriteBoardLines(cases: BoardTable, deaths: BoardTable, board: string, ks: seq<Option<Date>>) returns (r: Result<seq<seq<CsvValue>>>)
    ensures r == BoardLines(cases, deaths, board, ks)
  {
    var f := (k: Option<Date>) => BoardCsvLine(cases, deaths, board, k);
    assert BoardLines(cases, deaths, board, ks) == MapResult(ks, f);
    var lines: seq<seq<CsvValue>> := [];
    var i := 0;
    while i < |ks|
      invariant 0 <= i <= |ks| && |lines| == i
      invariant forall j :: 0 <= j < i ==> BoardCsvLine(cases, deaths, board, ks[j]).Ok? && lines[j] == BoardCsvLine(cases, deaths, board, ks[j]).value
    {
      var line := BoardCsvLine(cases, deaths, board, ks[i]);
      if line.Err? {
        return Err(BoardLines(cases, deaths, board, ks).msg);
      }
      lines := lines + [line.value];
      i := i + 1;
    }
    assert BoardLines(cases, deaths, board, ks).value == lines;
    r := Ok(lines);
  }

  // ---------------------------------------------------------------- per-board plots

  /** The two series of a board's plot over the sorted case keys: `cases.dig(date, board)` and
      `deaths.dig(date, board)`. */
  datatype BoardSeries = BoardSeries(dates: seq<Option<Date>>, cases: seq<Option<real>>, deaths: seq<Option<real>>)

  function BoardSeriesOf(cases: BoardTable, deaths: BoardTable, board: string, ks: seq<Option<Date>>): BoardSeries
  {
    BoardSeries(ks, seq(|ks|, i requires 0 <= i < |ks| => DigKey(cases, ks[i], board)),
                    seq(|ks|, i requires 0 <= i < |ks| => DigKey(deaths, ks[i], board)))
  }

  /** The loop that pushes the date and the two figures of each key onto three arrays. */
  method CollectBoardSeries(cases: BoardTable, deaths: BoardTable, board: string, ks: seq<Option<Date>>) returns (s: BoardSeries)
    ensures |s.dates| == |s.cases| == |s.deaths| == |ks| && s.dates == ks
    ensures forall i :: 0 <= i < |ks| ==> s.cases[i] == DigKey(cases, ks[i], board) && s.deaths[i] == DigKey(deaths, ks[i], board)
  {
    var dates, cs, ds := [], [], [];
    var i := 0;
    while i < |ks|
      invariant 0 <= i <= |ks| && |dates| == |cs| == |ds| == i && dates == ks[..i]
      invariant forall j :: 0 <= j < i ==> cs[j] == DigKey(cases, ks[j], board) && ds[j] == DigKey(deaths, ks[j], board)
    {
      dates := dates + [ks[i]];
      cs := cs + [DigKey(cases, ks[i], board)];
      ds := ds + [DigKey(deaths, ks[i], board)];
      i := i + 1;
    }
    assert ks[..|ks|] == ks;
    s := BoardSeries(dates, cs, ds);
  }

  /** Three arrays as CollectBoardSeries leaves them are the board's series. */
  lemma CollectedSeries(s: BoardSeries, cases: BoardTable, deaths: BoardTable, board: string, ks: seq<Option<Date>>)
    requires |s.dates| == |s.cases| == |s.deaths| == |ks| && s.dates == ks
    requires forall i :: 0 <= i < |ks| ==> s.cases[i] == DigKey(cases, ks[i], board) && s.deaths[i] == DigKey(deaths, ks[i], board)
    ensures s == BoardSeriesOf(cases, deaths, board, ks)
  {
    var t := BoardSeriesOf(cases, deaths, board, ks);
    assert s.cases == t.cases;
    assert s.deaths == t.deaths;
  }

  /** One more board decided, as DrawBoards' loop does it. */
  lemma DrawnExtends(drawn: seq<bool>, s: BoardSeries, cases: BoardTable, deaths: BoardTable, boards: seq<string>, ks: seq<Option<Date>>, i: nat)
    requires i < |boards| && |drawn| == i && s == BoardSeriesOf(cases, deaths, boards[i], ks)
    requires forall j :: 0 <= j < i ==> drawn[j] == !SkipsBoard(BoardSeriesOf(cases, deaths, boards[j], ks))
    ensures forall j :: 0 <= j < i + 1 ==> (drawn + [!SkipsBoard(s)])[j] == !SkipsBoard(BoardSeriesOf(cases, deaths, boards[j], ks))
  {
  }

  /** `[data[1].reject(&:nil?).max, data[2].reject(&:nil?).max].all?(0.0)`: the plot is skipped. */
  predicate SkipsBoard(s: BoardSeries)
  {
    MaxPresent(s.cases) == Some(0.0) && MaxPresent(s.deaths) == Some(0.0)
  }

  /** A board's plot is skipped exactly when both its largest case figure and its largest death
      figure are 0; a series without any figure is not taken for one without cases. */
  lemma SkipsBoardIff(s: BoardSeries)
    ensures SkipsBoard(s) <==> PeaksAtZero(s.cases) && PeaksAtZero(s.deaths)
  {
    PeakIsMax(s.cases);
    PeakIsMax(s.deaths);
  }

  /** A board with a positive case figure is always drawn. */
  lemma DrawnWithCases(s: BoardSeries, i: nat)
    requires i < |s.cases| && s.cases[i].Some? && s.cases[i].value > 0.0
    ensures !SkipsBoard(s)
  {
    SkipsBoardIff(s);
  }

  // ---------------------------------------------------------------- the refresh

  /** What the refresh reads: the population records, the cases and deaths files as split
      fields, and Date.parse. */
  datatype LegacyInputs = LegacyInputs(populations: seq<HealthBoards.PopulationRow>, casesFile: HeaderedFile,
                                       deathsFile: HeaderedFile, parse: DateParser)

  /** What it produces: the board list, the Scotland-wide cases and deaths tables, each board's
      table (in board order) and for each board whether its plot is drawn. */
  datatype LegacyOutputs = LegacyOutputs(boards: seq<string>, casesCsv: seq<seq<CsvValue>>, deathsCsv: seq<seq<CsvValue>>,
                                         boardCsvs: seq<seq<seq<CsvValue>>>, drawn: seq<bool>)

  datatype UpdateOutcome = NoNewData | Refreshed(result: Result<LegacyOutputs>)

  /** Every board's table, in board order; the first that fails stops the refresh. */
  function BoardCsvs(cases: BoardTable, deaths: BoardTable, boards: seq<string>, ks: seq<Option<Date>>): Result<seq<seq<seq<CsvValue>>>>
  {
    MapResult(boards, b => BoardLines(cases, deaths, b, ks))
  }

  /** Over the sorted case keys, the tables are the boards' own tables in board order, and they
      are written exactly when every board's is. */
  lemma BoardCsvsSpec(cases: BoardTable, deaths: BoardTable, boards: seq<string>, ks: seq<Option<Date>>)
    requires SortKeys(cases) == Ok(ks)
    ensures BoardCsvs(cases, deaths, boards, ks).Ok? <==> forall i :: 0 <= i < |boards| ==> BoardCsv(cases, deaths, boards[i]).Ok?
    ensures BoardCsvs(cases, deaths, boards, ks).Ok? ==>
      var tables := BoardCsvs(cases, deaths, boards, ks).value;
      |tables| == |boards| && forall i :: 0 <= i < |boards| ==> tables[i] == BoardCsv(cases, deaths, boards[i]).value
  {
    var f := (b: string) => BoardLines(cases, deaths, b, ks);
    assert BoardCsvs(cases, deaths, boards, ks) == MapResult(boards, f);
    forall i | 0 <= i < |boards| ensures f(boards[i]) == BoardCsv(cases, deaths, boards[i]) {
      BoardCsvAtKeys(cases, deaths, boards[i], ks);
    }
  }

  /** Whether each board's plot is drawn. */
  function Drawn(cases: BoardTable, deaths: BoardTable, boards: seq<string>, ks: seq<Option<Date>>): (r: seq<bool>)
    ensures |r| == |boards|
  {
    seq(|boards|, i requires 0 <= i < |boards| => !SkipsBoard(BoardSeriesOf(cases, deaths, boards[i], ks)))
  }

  /** The plot ranges start at `keys.first.strftime`: an empty table or a nil first key stops the
      refresh. */
  predicate HasFirstDate(table: BoardTable)
  {
    |table| > 0 && None !in table
  }

  /** The refresh after the sha check, in the order of the source: read the populations and the
      cases, whose keys the log line then sorts, and the deaths; the rest is Publish. */
  function Refresh(inputs: LegacyInputs): Result<LegacyOutputs>
  {
    var boards, scale := HealthBoards.BoardList(inputs.populations), HealthBoards.ScaleTable(inputs.populations);
    match ReadTable(inputs.casesFile, boards, scale, inputs.parse)
    case Err(e) => Err(e)
    case Ok(cases) =>
      if !KeysSortable(cases) then Err("comparison of Date with nil failed")
      else match ReadTable(inputs.deathsFile, boards, scale, inputs.parse)
      case Err(e) => Err(e)
      case Ok(deaths) => Publish(cases, deaths, boards)
  }

  /** Writing the cases, deaths and board tables, then the plots, which need a first date in
      both tables. The deaths table is the intended one, each death date's own record. */
  function Publish(cases: BoardTable, deaths: BoardTable, boards: seq<string>): Result<LegacyOutputs>
  {
    match SortKeys(cases)
    case Err(e) => Err(e)
    case Ok(ks) =>
      match KeyedLines(cases, ks, boards)
      case Err(e) => Err(e)
      case Ok(casesCsv) =>
        match DeathsCsv(deaths, boards)
        case Err(e) => Err(e)
        case Ok(deathsCsv) =>
          match BoardCsvs(cases, deaths, boards, ks)
          case Err(e) => Err(e)
          case Ok(boardCsvs) =>
            if !HasFirstDate(cases) || !HasFirstDate(deaths) then Err("undefined method 'strftime' for nil")
            else Ok(LegacyOutputs(boards, casesCsv, deathsCsv, boardCsvs, Drawn(cases, deaths, boards, ks)))
  }

  /** A completed publication has a table and a drawing decision for every board, and a cases
      table with a line for each case date, every one of them dated. */
  lemma PublishShape(cases: BoardTable, deaths: BoardTable, boards: seq<string>)
    requires Publish(cases, deaths, boards).Ok?
    ensures var out := Publish(cases, deaths, boards).value;
      out.boards == boards && |out.boardCsvs| == |out.drawn| == |boards| &&
      |out.casesCsv| == |cases| > 0 &&
      forall i :: 0 <= i < |out.casesCsv| ==> out.casesCsv[i][0].DateValue?
  {
    CasesCsvSpec(cases, boards);
    var ks := SortKeys(cases).value;
    var lines: seq<seq<CsvValue>> := CasesCsv(cases, boards).value;
    SortedKeysCount(ks, cases);
    forall i | 0 <= i < |lines| ensures lines[i][0].DateValue? {
      assert ks[i] in cases;
    }
  }

  /** Sorted keys are as many as the table has keys. */
  lemma SortedKeysCount(ks: seq<Option<Date>>, cases: BoardTable)
    requires SortedKeysOf(ks, cases)
    ensures |ks| == |cases|
  {
    var s := set i | 0 <= i < |ks| :: ks[i];
    assert s == cases.Keys;
    DistinctCount(ks);
  }

  /** A sequence of distinct keys has as many elements as its set. */
  lemma {:induction false} DistinctCount(ks: seq<Option<Date>>)
    requires forall i, j :: 0 <= i < j < |ks| ==> ks[i] != ks[j]
    ensures |set i | 0 <= i < |ks| :: ks[i]| == |ks|
  {
    if |ks| > 0 {
      var n := |ks| - 1;
      DistinctCount(ks[..n]);
      var init := set i | 0 <= i < n :: ks[..n][i];
      assert (set i | 0 <= i < |ks| :: ks[i]) == init + {ks[n]};
      assert ks[n] !in init;
    }
  }

  /** The pipeline's state: the sha of the data commit it last refreshed from. */
  class LegacyPipeline {
    var currentDataSha: Option<string>

    constructor(sha: Option<string>)
      ensures currentDataSha == sha
    {
      currentDataSha := sha;
    }

    /** `update`: nothing happens while the data repository's commit is the one last seen;
        otherwise the new sha is stored before anything is read, so it stays stored even when
        the refresh then fails. */
    method Update(githubSha: string, inputs: LegacyInputs) returns (r: UpdateOutcome)
      modifies this
      ensures old(currentDataSha) == Some(githubSha) ==> r == NoNewData && currentDataSha == old(currentDataSha)
      ensures old(currentDataSha) != Some(githubSha) ==> r == Refreshed(Refresh(inputs)) && currentDataSha == Some(githubSha)
    {
      if currentDataSha == Some(githubSha) {
        return NoNewData;
      }
      currentDataSha := Some(githubSha);
      var result := RunRefresh(inputs);
      r := Refreshed(result);
    }
  }

  /** The refresh step by step. */
  method RunRefresh(inputs: LegacyInputs) returns (r: Result<LegacyOutputs>)
    ensures r == Refresh(inputs)
  {
    var boards, scale := HealthBoards.ReadPopulations(inputs.populations);
    var casesRead := ReadTable(inputs.casesFile, boards, scale, inputs.parse);
    if casesRead.Err? { return Err(casesRead.msg); }
    var cases := casesRead.value;
    if SortKeys(cases).Err? { return Err("comparison of Date with nil failed"); }
    var deathsRead := ReadTable(inputs.deathsFile, boards, scale, inputs.parse);
    if deathsRead.Err? { return Err(deathsRead.msg); }
    r := PublishTables(cases, deathsRead.value, boards);
  }

  /** The writing and plotting, with the source's loops for the tables and the plot series. */
  method PublishTables(cases: BoardTable, deaths: BoardTable, boards: seq<string>) returns (r: Result<LegacyOutputs>)
    ensures r == Publish(cases, deaths, boards)
  {
    var sorted := SortKeys(cases);
    if sorted.Err? { return Err(sorted.msg); }
    var ks := sorted.value;
    var casesCsv := WriteKeyedLines(cases, ks, boards);
    if casesCsv.Err? { return Err(casesCsv.msg); }
    var deathKeys := SortKeys(deaths);
    if deathKeys.Err? { return Err(deathKeys.msg); }
    var deathsCsv := WriteKeyedLines(deaths, deathKeys.value, boards);
    if deathsCsv.Err? { return Err(deathsCsv.msg); }
    var boardCsvs := WriteBoardCsvs(cases, deaths, boards, ks);
    if boardCsvs.Err? { return Err(boardCsvs.msg); }
    if !HasFirstDate(cases) || !HasFirstDate(deaths) { return Err("undefined method 'strftime' for nil"); }
    var drawn := DrawBoards(cases, deaths, boards, ks);
    r := Ok(LegacyOutputs(boards, casesCsv.value, deathsCsv.value, boardCsvs.value, drawn));
  }

  lemma BoardCsvAtKeys(cases: BoardTable, deaths: BoardTable, board: string, ks: seq<Option<Date>>)
    requires SortKeys(cases) == Ok(ks)
    ensures BoardCsv(cases, deaths, board) == BoardLines(cases, deaths, board, ks)
  {
  }

  /** The loop over the boards writing each board's table. */
  method WriteBoardCsvs(cases: BoardTable, deaths: BoardTable, boards: seq<string>, ks: seq<Option<Date>>) returns (r: Result<seq<seq<seq<CsvValue>>>>)
    ensures r == BoardCsvs(cases, deaths, boards, ks)
  {
    var f := (b: string) => BoardLines(cases, deaths, b, ks);
    assert BoardCsvs(cases, deaths, boards, ks) == MapResult(boards, f);
    var tables: seq<seq<seq<CsvValue>>> := [];
    var i := 0;
    while i < |boards|
      invariant 0 <= i <= |boards| && |tables| == i
      invariant forall j :: 0 <= j < i ==> BoardLines(cases, deaths, boards[j], ks).Ok? && tables[j] == BoardLines(cases, deaths, boards[j], ks).value
    {
      var t := WriteBoardLines(cases, deaths, boards[i], ks);
      if t.Err? {
        MapResultFails(boards, f, i);
        return Err(BoardCsvs(cases, deaths, boards, ks).msg);
      }
      tables := tables + [t.value];
      i := i + 1;
    }
    assert BoardCsvs(cases, deaths, boards, ks).value == tables;
    r := Ok(tables);
  }

  /** The loop over the boards deciding, from each board's plot series, whether it is drawn. */
  method DrawBoards(cases: BoardTable, deaths: BoardTable, boards: seq<string>, ks: seq<Option<Date>>) returns (drawn: seq<bool>)
    ensures drawn == Drawn(cases, deaths, boards, ks)
  {
    drawn := [];
    var i := 0;
    while i < |boards|
      invariant 0 <= i <= |boards| && |drawn| == i
      invariant forall j :: 0 <= j < i ==> drawn[j] == !SkipsBoard(BoardSeriesOf(cases, deaths, boards[j], ks))
    {
      var s := CollectBoardSeries(cases, deaths, boards[i], ks);
      CollectedSeries(s, cases, deaths, boards[i], ks);
      DrawnExtends(drawn, s, cases, deaths, boards, ks, i);
      drawn := drawn + [!SkipsBoard(s)];
      i := i + 1;
    }
  }
}
