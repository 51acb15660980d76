/** The regional loader (scotland_covid19_data.rb): the class that downloads the Scottish
    management-information files, keeps the revision it last fetched, and reads the files into
    date-keyed tables of cases, deaths, intensive-care patients, deceased and tests. */
module ScotlandData {
  import opened Common
  import opened Strings
  import opened HealthBoards

  const HEALTH_BOARD_CASES_FILE: string := "COVID19 - Daily Management Information - Scottish Health Boards - Cumulative cases.csv"
  const INTENSIVE_CARE_FILE: string := "COVID19 - Daily Management Information - Scottish Health Boards - ICU patients.csv"
  const DECEASED_FILE: string := "COVID19 - Daily Management Information - Scotland - Deaths.csv"
  const TESTS_FILE: string := "COVID19 - Daily Management Information - Scotland - Testing.csv"
  const DOWNLOAD_FILES: seq<string> := [HEALTH_BOARD_CASES_FILE, INTENSIVE_CARE_FILE, DECEASED_FILE, TESTS_FILE]
  const GOLDEN_JUBILEE: string := "The Golden Jubilee National Hospital"

  // ---------------------------------------------------------------- cases

  /** A row of a case file read under the headers `['Date', *health_boards, 'Grand Total']`, once
      converted: its date and its figures in column order. */
  datatype CaseRow = CaseRow(date: Option<Date>, figures: seq<Option<real>>)

  /** The figure converter on the field at position `j` (header `header`); a field beyond the end
      of the row is nil and is not converted. */
  function CaseField(row: seq<Cell>, j: int, header: string, scale: map<string, real>): Result<Option<real>>
  {
    if 0 <= j < |row| then CaseFigure(row[j], header, scale) else Ok(None)
  }

  /** The converted figures under the given headers, which follow the 'Date' column. */
  function CaseFigures(row: seq<Cell>, columns: seq<string>, scale: map<string, real>): (r: Result<seq<Option<real>>>)
    ensures r.Ok? <==> forall k :: 0 <= k < |columns| ==> CaseField(row, k + 1, columns[k], scale).Ok?
    ensures r.Ok? ==> |r.value| == |columns|
    ensures r.Ok? ==> forall k :: 0 <= k < |columns| ==> r.value[k] == CaseField(row, k + 1, columns[k], scale).value
  {
    var positions := seq(|columns|, k requires 0 <= k < |columns| => (k + 1, columns[k]));
    assert forall k :: 0 <= k < |columns| ==> positions[k] == (k + 1, columns[k]);
    MapResult(positions, (p: (int, string)) => CaseField(row, p.0, p.1, scale))
  }

  /** One row of a case file: the 'Date' column through the 'NA'-aware date converter, every
      figure column through the case figure converter. */
  function ReadCaseRow(row: seq<Cell>, columns: seq<string>, scale: map<string, real>, parse: DateParser): (r: Result<CaseRow>)
    ensures r.Ok? <==> ConvertDate(At(row, 0), parse).Ok? && CaseFigures(row, columns, scale).Ok?
    ensures r.Ok? ==> r.value.date == ConvertDate(At(row, 0), parse).value
    ensures r.Ok? ==> r.value.figures == CaseFigures(row, columns, scale).value
  {
    match ConvertDate(At(row, 0), parse)
    case Err(e) => Err(e)
    case Ok(d) =>
      match CaseFigures(row, columns, scale)
      case Err(e) => Err(e)
      case Ok(fs) => Ok(CaseRow(d, fs))
  }

  /** The data rows of a case file (the header row already skipped). */
  function ReadCaseRows(rows: seq<seq<Cell>>, columns: seq<string>, scale: map<string, real>, parse: DateParser): Result<seq<CaseRow>>
  {
    MapResult(rows, (row: seq<Cell>) => ReadCaseRow(row, columns, scale, parse))
  }

  function CaseDates(rs: seq<CaseRow>): (ds: seq<Option<Date>>)
    ensures |ds| == |rs| && forall i :: 0 <= i < |rs| ==> ds[i] == rs[i].date
  {
    seq(|rs|, i requires 0 <= i < |rs| => rs[i].date)
  }

  /** The old file's records as read: each board's figure and the file's own 'Grand Total'. */
  function OldCaseRecords(boards: seq<string>, rs: seq<CaseRow>): (ms: seq<BoardFigures>)
    ensures |ms| == |rs| && forall i :: 0 <= i < |rs| ==> ms[i] == BoardRecord(boards, rs[i].figures)
  {
    seq(|rs|, i requires 0 <= i < |rs| => BoardRecord(boards, rs[i].figures))
  }

  /** The table the old case file seeds, keyed by date; an 'NA' date gives the nil key. */
  function OldCases(boards: seq<string>, rs: seq<CaseRow>): map<Option<Date>, BoardFigures>
  {
    ZipToMap(CaseDates(rs), OldCaseRecords(boards, rs))
  }

  /** The reject filter of the new case file: `values_at(*health_boards).all?(:nil?)` or a nil date. */
  predicate KeepNewCase(boards: seq<string>, r: CaseRow)
  {
    !(AllMatchNilSymbol(BoardValues(boards, r.figures)) || r.date.None?)
  }

  /** The Symbol test never matches a figure, so a new row is dropped only for a nil date, or
      when there are no boards at all. */
  lemma KeepNewCaseIff(boards: seq<string>, r: CaseRow)
    ensures KeepNewCase(boards, r) <==> |boards| > 0 && r.date.Some?
  {
    AllMatchNilSymbolIffEmpty(BoardValues(boards, r.figures));
  }

  /** A new row's record: its board figures, with 'Grand Total' recomputed as their present sum. */
  function NewCaseRecord(boards: seq<string>, r: CaseRow): BoardFigures
  {
    var vs := BoardValues(boards, r.figures);
    BoardRecord(boards, vs + [Some(SumPresent(vs))])
  }

  function NewCaseRecords(boards: seq<string>, rs: seq<CaseRow>): (ms: seq<BoardFigures>)
    ensures |ms| == |rs| && forall i :: 0 <= i < |rs| ==> ms[i] == NewCaseRecord(boards, rs[i])
  {
    seq(|rs|, i requires 0 <= i < |rs| => NewCaseRecord(boards, rs[i]))
  }

  /** A new row keeps each board's figure and carries the sum of the present board figures as its
      'Grand Total'; the file's own total column is discarded. */
  lemma NewCaseRecordAt(boards: seq<string>, r: CaseRow)
    requires Distinct(boards) && GRAND_TOTAL !in boards
    ensures forall k :: 0 <= k < |boards| ==> NewCaseRecord(boards, r)[boards[k]] == At(r.figures, k)
    ensures NewCaseRecord(boards, r)[GRAND_TOTAL] == Some(SumPresent(BoardValues(boards, r.figures)))
  {
    var vs := BoardValues(boards, r.figures);
    BoardRecordAt(boards, vs + [Some(SumPresent(vs))]);
  }

  /** An old row keeps the file's own 'Grand Total': the figure after the boards. */
  lemma OldCaseAt(boards: seq<string>, rs: seq<CaseRow>, d: Option<Date>)
    requires Distinct(boards) && GRAND_TOTAL !in boards
    ensures d in OldCases(boards, rs) <==> exists i :: 0 <= i < |rs| && rs[i].date == d
    ensures d in OldCases(boards, rs) ==>
      var last := rs[LastIndex(CaseDates(rs), d)];
      OldCases(boards, rs)[d] == BoardRecord(boards, last.figures) &&
      OldCases(boards, rs)[d][GRAND_TOTAL] == At(last.figures, |boards|) &&
      forall k :: 0 <= k < |boards| ==> OldCases(boards, rs)[d][boards[k]] == At(last.figures, k)
  {
    var ds := CaseDates(rs);
    assert (exists i :: 0 <= i < |rs| && rs[i].date == d) ==> d in ds by {
      if exists i :: 0 <= i < |rs| && rs[i].date == d {
        var i :| 0 <= i < |rs| && rs[i].date == d;
        assert ds[i] == d;
      }
    }
    if d in OldCases(boards, rs) {
      OverwriteAt(map[], ds, OldCaseRecords(boards, rs), d);
      BoardRecordAt(boards, rs[LastIndex(ds, d)].figures);
    }
  }

  /** After the new file's overwrites a date holds the record of the last new row dated so, and a
      date the new file does not mention keeps the record the old file gave it. */
  lemma MergedCaseAt(seed: map<Option<Date>, BoardFigures>, boards: seq<string>, kept: seq<CaseRow>, d: Option<Date>)
    requires Distinct(boards) && GRAND_TOTAL !in boards
    ensures var merged := Overwrite(seed, CaseDates(kept), NewCaseRecords(boards, kept));
      var i := LastIndex(CaseDates(kept), d);
      (d in merged <==> d in seed || i >= 0) &&
      (i >= 0 ==> (merged[d] == NewCaseRecord(boards, kept[i]) &&
        merged[d][GRAND_TOTAL] == Some(SumPresent(BoardValues(boards, kept[i].figures))))) &&
      (i < 0 && d in seed ==> merged[d] == seed[d])
  {
    var i := LastIndex(CaseDates(kept), d);
    OverwriteAt(seed, CaseDates(kept), NewCaseRecords(boards, kept), d);
    if i >= 0 {
      NewCaseRecordAt(boards, kept[i]);
    }
  }

  // ---------------------------------------------------------------- deaths

  /** The reject filter of the deaths file; like the case filter it drops only undated records
      while there are boards. */
  predicate KeepDeath(boards: seq<string>, r: Dated)
  {
    !(AllMatchNilSymbol(BoardValues(boards, r.figures)) || r.date.None?)
  }

  function DeathDates(rs: seq<Dated>): (ds: seq<Date>)
    requires forall i :: 0 <= i < |rs| ==> rs[i].date.Some?
    ensures |ds| == |rs| && forall i :: 0 <= i < |rs| ==> Some(ds[i]) == rs[i].date
  {
    seq(|rs|, i requires 0 <= i < |rs| && rs[i].date.Some? => rs[i].date.value)
  }

  function DeathRecords(boards: seq<string>, rs: seq<Dated>): (ms: seq<BoardFigures>)
    ensures |ms| == |rs| && forall i :: 0 <= i < |rs| ==> ms[i] == BoardRecord(boards, rs[i].figures)
  {
    seq(|rs|, i requires 0 <= i < |rs| => BoardRecord(boards, rs[i].figures))
  }

  /** The kept records of the deaths file. */
  function KeptDeaths(boards: seq<string>, rs: seq<Dated>): (kept: seq<Dated>)
    ensures forall i :: 0 <= i < |kept| ==> kept[i].date.Some?
  {
    Filter(rs, (r: Dated) => KeepDeath(boards, r))
  }

  /** The deaths table: each kept record under its date, a later record replacing an earlier one. */
  function DeathsTable(boards: seq<string>, rs: seq<Dated>): map<Date, BoardFigures>
  {
    var kept := KeptDeaths(boards, rs);
    ZipToMap(DeathDates(kept), DeathRecords(boards, kept))
  }

  /** Every dated record of the deaths file is in the table when there are boards, and each
      entry holds a record of the file with that date, keyed by board with the file's own total:
      the last kept record with that date, as `to_h` keeps the last pair of a key. */
  lemma DeathsTableAt(boards: seq<string>, rs: seq<Dated>, d: Date)
    requires Distinct(boards) && GRAND_TOTAL !in boards
    ensures |boards| > 0 && (exists i :: 0 <= i < |rs| && rs[i].date == Some(d)) ==> d in DeathsTable(boards, rs)
    ensures d in DeathsTable(boards, rs) ==>
      exists i :: (0 <= i < |rs| && rs[i].date == Some(d) &&
        DeathsTable(boards, rs)[d] == BoardRecord(boards, rs[i].figures) &&
        DeathsTable(boards, rs)[d][GRAND_TOTAL] == At(rs[i].figures, |boards|) &&
        forall k :: 0 <= k < |boards| ==> DeathsTable(boards, rs)[d][boards[k]] == At(rs[i].figures, k))
    ensures d in DeathsTable(boards, rs) ==>
      var kept := KeptDeaths(boards, rs);
      var j := LastIndex(DeathDates(kept), d);
      0 <= j && kept[j].date == Some(d) &&
      (forall l :: j < l < |kept| ==> kept[l].date != Some(d)) &&
      DeathsTable(boards, rs)[d] == BoardRecord(boards, kept[j].figures)
  {
    if d in DeathsTable(boards, rs) {
      DeathsTableLast(boards, rs, d);
    }
    DeathsTableHas(boards, rs, d);
  }

  /** The entry of a date is the record of the last kept row with that date. */
  lemma DeathsTableLast(boards: seq<string>, rs: seq<Dated>, d: Date)
    requires d in DeathsTable(boards, rs)
    ensures var kept := KeptDeaths(boards, rs);
      var j := LastIndex(DeathDates(kept), d);
      0 <= j && kept[j].date == Some(d) &&
      (forall l :: j < l < |kept| ==> kept[l].date != Some(d)) &&
      DeathsTable(boards, rs)[d] == BoardRecord(boards, kept[j].figures)
  {
    var kept := KeptDeaths(boards, rs);
    var ds := DeathDates(kept);
    OverwriteAt(map[], ds, DeathRecords(boards, kept), d);
    var j := LastIndex(ds, d);
    forall l | j < l < |kept| ensures kept[l].date != Some(d) {
      assert ds[l] != d;
    }
  }

  lemma DeathsTableHas(boards: seq<string>, rs: seq<Dated>, d: Date)
    requires Distinct(boards) && GRAND_TOTAL !in boards
    ensures |boards| > 0 && (exists i :: 0 <= i < |rs| && rs[i].date == Some(d)) ==> d in DeathsTable(boards, rs)
    ensures d in DeathsTable(boards, rs) ==>
      exists i :: (0 <= i < |rs| && rs[i].date == Some(d) &&
        DeathsTable(boards, rs)[d] == BoardRecord(boards, rs[i].figures) &&
        DeathsTable(boards, rs)[d][GRAND_TOTAL] == At(rs[i].figures, |boards|) &&
        forall k :: 0 <= k < |boards| ==> DeathsTable(boards, rs)[d][boards[k]] == At(rs[i].figures, k))
  {
    var kept := KeptDeaths(boards, rs);
    var ds := DeathDates(kept);
    if |boards| > 0 && exists i :: 0 <= i < |rs| && rs[i].date == Some(d) {
      var i :| 0 <= i < |rs| && rs[i].date == Some(d);
      AllMatchNilSymbolIffEmpty(BoardValues(boards, rs[i].figures));
      assert KeepDeath(boards, rs[i]);
      assert rs[i] in kept;
      var j :| 0 <= j < |kept| && kept[j] == rs[i];
      assert ds[j] == d;
    }
    if d in DeathsTable(boards, rs) {
      OverwriteAt(map[], ds, DeathRecords(boards, kept), d);
      var j := LastIndex(ds, d);
      BoardRecordAt(boards, kept[j].figures);
      assert kept[j] in rs;
      var i :| 0 <= i < |rs| && rs[i] == kept[j];
      assert rs[i].date == Some(d);
    }
  }

  // ---------------------------------------------------------------- intensive care

  /** The markers the new intensive-care file uses for a missing figure ('NA' is not one). */
  const ICU_SENTINELS: set<string> := {"X", "*"}

  /** The figure converter of the intensive-care file: a marker becomes nil, anything else `to_i`. */
  function IcuFigure(cell: Cell): (r: Option<int>)
    ensures r.None? <==> cell.Some? && cell.value in ICU_SENTINELS
    ensures r.Some? ==> r.value == ToI(CellText(cell))
  {
    if cell.Some? && cell.value in ICU_SENTINELS then None else Some(ToI(CellText(cell)))
  }

  /** `to_i` of field `j` of a converted record with `width` headers: a field under a figure
      header went through IcuFigure (nil reads as 0), one beyond the headers is still raw text,
      and one beyond the end of the row is nil. */
  function IcuTerm(row: seq<Cell>, j: nat, width: nat): int
  {
    if j >= |row| then 0
    else if j < width then (var f := IcuFigure(row[j]); if f.Some? then f.value else 0)
    else ToI(CellText(row[j]))
  }

  /** `record[1..-1].map(&:to_i).sum` over the fields before position `hi`. */
  function IcuSum(row: seq<Cell>, width: nat, hi: nat): int
  {
    if hi <= 1 then 0 else IcuSum(row, width, hi - 1) + IcuTerm(row, hi - 1, width)
  }

  /** The total the loader stores: every field but the date, the file's own total included. */
  function IcuTotal(row: seq<Cell>, width: nat): int
  {
    IcuSum(row, width, |row|)
  }

  /** The headers of the new intensive-care file after 'Date'. */
  function IcuColumns(boards: seq<string>): seq<string>
  {
    boards + [GOLDEN_JUBILEE, GRAND_TOTAL]
  }

  /** A new intensive-care record: each figure column converted, 'Grand Total' the stored total. */
  function IcuRecord(row: seq<Cell>, columns: seq<string>): (r: map<string, Option<int>>)
    requires |columns| > 0
    ensures forall c :: c in r <==> c in columns
  {
    var width := |columns| + 1;
    ZipToMap(columns, seq(|columns|, k requires 0 <= k < |columns| =>
      if k == |columns| - 1 then Some(IcuTotal(row, width))
      else if k + 1 < |row| then IcuFigure(row[k + 1]) else None))
  }

  /** Each board column holds its own field of the row, converted, and nil past the row's end. */
  lemma IcuRecordAt(row: seq<Cell>, columns: seq<string>, k: nat)
    requires Distinct(columns) && k < |columns| - 1
    ensures IcuRecord(row, columns)[columns[k]] == (if k + 1 < |row| then IcuFigure(row[k + 1]) else None)
  {
    ZipToMapAt(columns, seq(|columns|, k requires 0 <= k < |columns| =>
      if k == |columns| - 1 then Some(IcuTotal(row, |columns| + 1))
      else if k + 1 < |row| then IcuFigure(row[k + 1]) else None), k);
  }

  lemma IcuRecordTotal(row: seq<Cell>, columns: seq<string>)
    requires |columns| > 0 && Distinct(columns)
    ensures IcuRecord(row, columns)[columns[|columns| - 1]] == Some(IcuTotal(row, |columns| + 1))
  {
    ZipToMapAt(columns, seq(|columns|, k requires 0 <= k < |columns| =>
      if k == |columns| - 1 then Some(IcuTotal(row, |columns| + 1))
      else if k + 1 < |row| then IcuFigure(row[k + 1]) else None), |columns| - 1);
  }

  /** `Date.parse(record['Date'])` of an intensive-care row: no 'NA' rule, and an empty field raises. */
  function IcuDate(row: seq<Cell>, parse: DateParser): Result<Date>
  {
    ParseDate(At(row, 0), parse)
  }

  /** The per-board table and the aggregate series as the intensive-care loader keeps them. */
  datatype IcuTables = IcuTables(cares: map<Date, map<string, Option<int>>>, care: map<Date, Option<int>>)

  /** The loop over the new intensive-care rows from `t` on: each row is stored under its date,
      as a per-board record and as the aggregate total; the first row whose date does not parse
      stops the loop with its error, keeping what was stored before it. */
  function StoreIcu(t: IcuTables, rows: seq<seq<Cell>>, columns: seq<string>, parse: DateParser): (IcuTables, Option<string>)
    requires |columns| > 0
    decreases |rows|
  {
    if |rows| == 0 then (t, None)
    else match IcuDate(rows[0], parse)
      case Err(e) => (t, Some(e))
      case Ok(d) =>
        var next := IcuTables(t.cares[d := IcuRecord(rows[0], columns)], t.care[d := Some(IcuTotal(rows[0], |columns| + 1))]);
        StoreIcu(next, rows[1..], columns, parse)
  }

  /** The aggregate series agrees with the per-board table: every date of the table is in the
      series, holding that record's 'Grand Total'. */
  predicate IcuAgrees(t: IcuTables)
  {
    forall d :: d in t.cares ==> d in t.care && GRAND_TOTAL in t.cares[d] && t.care[d] == t.cares[d][GRAND_TOTAL]
  }

  /** The loop keeps the two tables in agreement, so from an empty per-board table the series at
      each date the new file covers is the total of that date's record. */
  lemma {:induction false} StoreIcuAgrees(t: IcuTables, rows: seq<seq<Cell>>, boards: seq<string>, parse: DateParser)
    requires Distinct(IcuColumns(boards)) && IcuAgrees(t)
    ensures IcuAgrees(StoreIcu(t, rows, IcuColumns(boards), parse).0)
    decreases |rows|
  {
    var columns := IcuColumns(boards);
    if |rows| > 0 && IcuDate(rows[0], parse).Ok? {
      var d := IcuDate(rows[0], parse).value;
      assert columns[|columns| - 1] == GRAND_TOTAL;
      IcuRecordTotal(rows[0], columns);
      var next := IcuTables(t.cares[d := IcuRecord(rows[0], columns)], t.care[d := Some(IcuTotal(rows[0], |columns| + 1))]);
      assert IcuAgrees(next);
      StoreIcuAgrees(next, rows[1..], boards, parse);
    }
  }

  /** The loop fails exactly when some row's date does not parse, and then every row before the
      first such row has been stored. */
  lemma {:induction false} StoreIcuFails(t: IcuTables, rows: seq<seq<Cell>>, columns: seq<string>, parse: DateParser)
    requires |columns| > 0
    ensures StoreIcu(t, rows, columns, parse).1.Some? <==> exists i :: 0 <= i < |rows| && IcuDate(rows[i], parse).Err?
    decreases |rows|
  {
    if |rows| > 0 {
      if IcuDate(rows[0], parse).Ok? {
        var d := IcuDate(rows[0], parse).value;
        var next := IcuTables(t.cares[d := IcuRecord(rows[0], columns)], t.care[d := Some(IcuTotal(rows[0], |columns| + 1))]);
        StoreIcuFails(next, rows[1..], columns, parse);
        assert forall i :: 1 <= i < |rows| ==> rows[i] == rows[1..][i - 1];
        if exists i :: 0 <= i < |rows| && IcuDate(rows[i], parse).Err? {
          var i :| 0 <= i < |rows| && IcuDate(rows[i], parse).Err?;
          assert i > 0 && rows[1..][i - 1] == rows[i];
        }
      }
    }
  }

  /** The old aggregate file, read under the headers ['Date', 'Grand Total'] without converters:
      every date is parsed, the total goes through `&.to_i`. */
  function OldIcuEntry(row: seq<Cell>, parse: DateParser): Result<(Date, Option<int>)>
  {
    match IcuDate(row, parse)
    case Err(e) => Err(e)
    case Ok(d) =>
      var total := At(row, 1);
      Ok((d, if total.Some? then Some(ToI(total.value)) else None))
  }

  function OldIcu(rows: seq<seq<Cell>>, parse: DateParser): (r: Result<map<Date, Option<int>>>)
    ensures r.Ok? <==> forall i :: 0 <= i < |rows| ==> IcuDate(rows[i], parse).Ok?
  {
    match MapResult(rows, (row: seq<Cell>) => OldIcuEntry(row, parse))
    case Err(e) => Err(e)
    case Ok(es) =>
      Ok(ZipToMap(seq(|es|, i requires 0 <= i < |es| => es[i].0), seq(|es|, i requires 0 <= i < |es| => es[i].1)))
  }

  // ---------------------------------------------------------------- deceased

  /** A number as Ruby's `Integer()` or `Float()` reads it from text. */
  datatype Num = IntNum(i: int) | FloatNum(x: real)

  /** `Integer(text)`, then `Float(text)` when that raises; `None` when both raise. Their syntax is
      not modelled, so the reader is a parameter. */
  type NumReader = string -> Option<Num>

  /** A field after the `:numeric` converter: the number its text reads as, or else the text. */
  datatype NumericField = NumField(num: Num) | TextField(text: string)

  function NumReal(n: Num): real
  {
    match n
    case IntNum(i) => i as real
    case FloatNum(x) => x
  }

  /** Ruby's `a - b` on two numbers: two Integers give an Integer, a Float on either side a Float. */
  function Sub(a: Num, b: Num): (r: Num)
    ensures NumReal(r) == NumReal(a) - NumReal(b)
    ensures r.IntNum? <==> a.IntNum? && b.IntNum?
  {
    if a.IntNum? && b.IntNum? then IntNum(a.i - b.i) else FloatNum(NumReal(a) - NumReal(b))
  }

  /** Ruby's `a + b` on two numbers. */
  function Add(a: Num, b: Num): (r: Num)
    ensures NumReal(r) == NumReal(a) + NumReal(b)
    ensures r.IntNum? <==> a.IntNum? && b.IntNum?
  {
    if a.IntNum? && b.IntNum? then IntNum(a.i + b.i) else FloatNum(NumReal(a) + NumReal(b))
  }

  /** `b - a` on two converted fields: a String has no `-` and a number cannot subtract a String,
      so only two numbers subtract. */
  function FieldSub(b: NumericField, a: NumericField): (r: Result<Num>)
    ensures r.Ok? <==> b.NumField? && a.NumField?
    ensures r.Ok? ==> r.value == Sub(b.num, a.num)
  {
    match (b, a)
    case (NumField(x), NumField(y)) => Ok(Sub(x, y))
    case (TextField(_), _) => Err("undefined method '-' for String")
    case (_, TextField(_)) => Err("String can't be coerced into Integer")
  }

  /** The `:numeric` converter: an empty field stays nil, text that reads as a number becomes that
      number, and any other text, a sentinel such as 'NA' among it, stays text (never 0). */
  function NumericCell(cell: Cell, read: NumReader): (r: Option<NumericField>)
    ensures r.None? <==> cell.None?
    ensures r.Some? ==> (r.value.NumField? <==> read(cell.value).Some?)
    ensures r.Some? && r.value.NumField? ==> r.value.num == read(cell.value).value
    ensures r.Some? && r.value.TextField? ==> r.value.text == cell.value
  {
    match cell
    case None => None
    case Some(text) =>
      match read(text)
      case Some(n) => Some(NumField(n))
      case None => Some(TextField(text))
  }

  datatype DeceasedRow = DeceasedRow(date: Option<Date>, deceased: Option<NumericField>)

  function ReadDeceasedRow(row: seq<Cell>, parse: DateParser, read: NumReader): Result<DeceasedRow>
  {
    match ConvertDate(At(row, 0), parse)
    case Err(e) => Err(e)
    case Ok(d) => Ok(DeceasedRow(d, NumericCell(At(row, 1), read)))
  }

  function ReadDeceasedRows(rows: seq<seq<Cell>>, parse: DateParser, read: NumReader): Result<seq<DeceasedRow>>
  {
    MapResult(rows, (row: seq<Cell>) => ReadDeceasedRow(row, parse, read))
  }

  function DeceasedDates(rs: seq<DeceasedRow>): (ds: seq<Option<Date>>)
    ensures |ds| == |rs| && forall i :: 0 <= i < |rs| ==> ds[i] == rs[i].date
  {
    seq(|rs|, i requires 0 <= i < |rs| => rs[i].date)
  }

  function DeceasedCounts(rs: seq<DeceasedRow>): (cs: seq<Option<NumericField>>)
    ensures |cs| == |rs| && forall i :: 0 <= i < |rs| ==> cs[i] == rs[i].deceased
  {
    seq(|rs|, i requires 0 <= i < |rs| => rs[i].deceased)
  }

  predicate IsDated(r: DeceasedRow)
  {
    r.date.Some?
  }

  predicate IsCounted(r: DeceasedRow)
  {
    r.deceased.Some?
  }

  /** The old deceased file without its undated rows. */
  function DatedDeceased(rs: seq<DeceasedRow>): seq<DeceasedRow>
  {
    Filter(rs, IsDated)
  }

  /** The new deceased rows that overwrite: those with a count. */
  function CountedDeceased(rs: seq<DeceasedRow>): seq<DeceasedRow>
  {
    Filter(rs, IsCounted)
  }

  /** `.map { |record| [record['Date'], record['Deceased']] }.to_h` over the dated old rows. */
  function DeceasedSeed(olds: seq<DeceasedRow>): map<Option<Date>, Option<NumericField>>
  {
    var dated := DatedDeceased(olds);
    ZipToMap(DeceasedDates(dated), DeceasedCounts(dated))
  }

  /** `.each { |record| @@deceased[record['Date']] = record['Deceased'] }` over the counted new rows. */
  function DeceasedMerged(seed: map<Option<Date>, Option<NumericField>>, news: seq<DeceasedRow>): map<Option<Date>, Option<NumericField>>
  {
    var counted := CountedDeceased(news);
    Overwrite(seed, DeceasedDates(counted), DeceasedCounts(counted))
  }

  /** Storing the kept rows' counts by date: a kept row that no later kept row shares a date with
      leaves its own count under its date. */
  lemma StoredLastKept(m: map<Option<Date>, Option<NumericField>>, rs: seq<DeceasedRow>,
                       keep: DeceasedRow -> bool, i: nat)
    requires i < |rs| && keep(rs[i])
    requires forall k :: i < k < |rs| && keep(rs[k]) ==> rs[k].date != rs[i].date
    ensures var kept := Filter(rs, keep);
      var t := Overwrite(m, DeceasedDates(kept), DeceasedCounts(kept));
      rs[i].date in t && t[rs[i].date] == rs[i].deceased
  {
    var pre, post := Filter(rs[..i], keep), Filter(rs[i + 1..], keep);
    FilterSplit(rs, keep, i);
    var kept := Filter(rs, keep);
    var j := |pre|;
    var dates := DeceasedDates(kept);
    assert kept[j] == rs[i];
    forall k | j < k < |kept| ensures dates[k] != rs[i].date {
      assert kept[k] == post[k - j - 1];
      assert kept[k] in rs[i + 1..] && keep(kept[k]);
      var q :| 0 <= q < |rs[i + 1..]| && rs[i + 1..][q] == kept[k];
      assert rs[i + 1 + q] == kept[k];
    }
    OverwriteAt(m, dates, DeceasedCounts(kept), rs[i].date);
    assert LastIndex(dates, rs[i].date) == j;
  }

  /** The seed holds exactly the old file's dates, each with the count of the last old row
      carrying it. */
  lemma DeceasedSeedAt(olds: seq<DeceasedRow>, d: Option<Date>)
    ensures var seed := DeceasedSeed(olds);
      None !in seed &&
      (d in seed <==> d.Some? && d in DeceasedDates(olds)) &&
      forall i :: (0 <= i < |olds| && olds[i].date == d && d.Some? && (forall k :: i < k < |olds| ==> olds[k].date != d)) ==>
        d in seed && seed[d] == olds[i].deceased
  {
    var dated := DatedDeceased(olds);
    assert None !in DeceasedDates(dated);
    if d.Some? && d in DeceasedDates(olds) {
      var i :| 0 <= i < |olds| && olds[i].date == d;
      assert olds[i] in dated;
      var j :| 0 <= j < |dated| && dated[j] == olds[i];
      assert DeceasedDates(dated)[j] == d;
    }
    forall i | 0 <= i < |olds| && olds[i].date == d && d.Some? && (forall k :: i < k < |olds| ==> olds[k].date != d)
      ensures d in DeceasedSeed(olds) && DeceasedSeed(olds)[d] == olds[i].deceased
    {
      StoredLastKept(map[], olds, IsDated, i);
    }
  }

  /** After the new file a date holds the count of the last new row with that date and a count; a
      date no counted new row mentions keeps its seed entry, or stays absent. */
  lemma DeceasedAt(seed: map<Option<Date>, Option<NumericField>>, news: seq<DeceasedRow>, d: Option<Date>)
    ensures var merged := DeceasedMerged(seed, news);
      (forall i :: (0 <= i < |news| && news[i].date == d && news[i].deceased.Some? &&
          (forall k :: i < k < |news| && news[k].deceased.Some? ==> news[k].date != d)) ==>
        d in merged && merged[d] == news[i].deceased) &&
      ((forall i :: 0 <= i < |news| && news[i].date == d ==> news[i].deceased.None?) ==>
        (d in merged <==> d in seed) && (d in seed ==> merged[d] == seed[d]))
  {
    var counted := CountedDeceased(news);
    forall i | 0 <= i < |news| && news[i].date == d && news[i].deceased.Some? &&
        (forall k :: i < k < |news| && news[k].deceased.Some? ==> news[k].date != d)
      ensures d in DeceasedMerged(seed, news) && DeceasedMerged(seed, news)[d] == news[i].deceased
    {
      StoredLastKept(seed, news, IsCounted, i);
    }
    if forall i :: 0 <= i < |news| && news[i].date == d ==> news[i].deceased.None? {
      forall j | 0 <= j < |counted| ensures DeceasedDates(counted)[j] != d {
        assert counted[j] in news && counted[j].deceased.Some?;
      }
      OverwriteAt(seed, DeceasedDates(counted), DeceasedCounts(counted), d);
    }
  }

  // ---------------------------------------------------------------- tests

  /** A tests record: the fields of the file that the tables read. */
  datatype TestRecord = TestRecord(
    date: Option<Date>,
    todayPositive: Option<NumericField>,
    todayNegative: Option<NumericField>,
    rate: Option<Ratio>,
    totalPositive: Option<NumericField>,
    totalNegative: Option<NumericField>)

  /** A row of the old tests file, headers Date, Conducted, Today Positive, Today Negative,
      Total Positive, Total Negative; it has no positivity rate. */
  function ReadOldTestRow(row: seq<Cell>, parse: DateParser, read: NumReader): Result<TestRecord>
  {
    match ConvertDate(At(row, 0), parse)
    case Err(e) => Err(e)
    case Ok(d) => Ok(TestRecord(d, NumericCell(At(row, 2), read), NumericCell(At(row, 3), read), None,
      NumericCell(At(row, 4), read), NumericCell(At(row, 5), read)))
  }

  /** A row of the new tests file, headers Date, Total Negative, Total Positive, ...: only the
      cumulative figures; the daily ones are derived. */
  function ReadNewTestRow(row: seq<Cell>, parse: DateParser, read: NumReader): Result<TestRecord>
  {
    match ConvertDate(At(row, 0), parse)
    case Err(e) => Err(e)
    case Ok(d) => Ok(TestRecord(d, None, None, None, NumericCell(At(row, 2), read), NumericCell(At(row, 1), read)))
  }

  function ReadTestRows(rows: seq<seq<Cell>>, parse: DateParser, read: NumReader, isNew: bool): Result<seq<TestRecord>>
  {
    MapResult(rows, (row: seq<Cell>) => if isNew then ReadNewTestRow(row, parse, read) else ReadOldTestRow(row, parse, read))
  }

  function TestsWithDate(rs: seq<TestRecord>): seq<TestRecord>
  {
    Filter(rs, (r: TestRecord) => r.date.Some?)
  }

  /** Store each dated record under its date, in order; an undated record is skipped. */
  function StoreByDate(m: map<Date, TestRecord>, rs: seq<TestRecord>): (r: map<Date, TestRecord>)
    decreases |rs|
  {
    if |rs| == 0 then m
    else
      var init := StoreByDate(m, rs[..|rs| - 1]);
      var last := rs[|rs| - 1];
      if last.date.Some? then init[last.date.value := last] else init
  }

  /** Every record sits under its own date, and a date is present exactly when the seed or some
      record has it. */
  lemma {:induction false} StoreByDateKeys(m: map<Date, TestRecord>, rs: seq<TestRecord>)
    requires forall d :: d in m ==> m[d].date == Some(d)
    ensures forall d :: d in StoreByDate(m, rs) ==> StoreByDate(m, rs)[d].date == Some(d)
    ensures forall d :: d in StoreByDate(m, rs) <==> d in m || exists i :: 0 <= i < |rs| && rs[i].date == Some(d)
    decreases |rs|
  {
    if |rs| > 0 {
      var n := |rs| - 1;
      StoreByDateKeys(m, rs[..n]);
      forall d ensures (exists i :: 0 <= i < |rs| && rs[i].date == Some(d)) <==>
        (exists i :: 0 <= i < n && rs[..n][i].date == Some(d)) || rs[n].date == Some(d)
      {
        if exists i :: 0 <= i < |rs| && rs[i].date == Some(d) {
          var i :| 0 <= i < |rs| && rs[i].date == Some(d);
          if i < n { assert rs[..n][i] == rs[i]; }
        }
      }
    }
  }

  predicate HasTotals(r: TestRecord)
  {
    r.totalPositive.Some? && r.totalNegative.Some?
  }

  /** Both cumulative figures are present and read as numbers. */
  predicate NumericTotals(r: TestRecord)
  {
    HasTotals(r) && r.totalPositive.value.NumField? && r.totalNegative.value.NumField?
  }

  /** Record `b` after the each_cons step with its predecessor `a`: the daily figures are the
      differences of the cumulative ones and the rate is positives over all tests that day; the
      step raises when a cumulative figure is text. */
  function WithDelta(a: TestRecord, b: TestRecord): (r: Result<TestRecord>)
    requires HasTotals(a) && HasTotals(b)
    ensures r.Ok? <==> NumericTotals(a) && NumericTotals(b)
    ensures r.Ok? ==> r.value.todayPositive == Some(NumField(Sub(b.totalPositive.value.num, a.totalPositive.value.num)))
    ensures r.Ok? ==> r.value.todayNegative == Some(NumField(Sub(b.totalNegative.value.num, a.totalNegative.value.num)))
    ensures r.Ok? ==> r.value.date == b.date && r.value.totalPositive == b.totalPositive && r.value.totalNegative == b.totalNegative
  {
    match FieldSub(b.totalPositive.value, a.totalPositive.value)
    case Err(e) => Err(e)
    case Ok(pos) =>
      match FieldSub(b.totalNegative.value, a.totalNegative.value)
      case Err(e) => Err(e)
      case Ok(neg) =>
        Ok(b.(todayPositive := Some(NumField(pos)), todayNegative := Some(NumField(neg)),
              rate := Some(Divide(NumReal(pos), NumReal(Add(pos, neg))))))
  }

  /** The rate is the day's positives over the day's tests, and is not finite when no test was
      reported that day. */
  lemma WithDeltaRate(a: TestRecord, b: TestRecord)
    requires NumericTotals(a) && NumericTotals(b)
    ensures var r := WithDelta(a, b).value;
      var pos, neg := NumReal(r.todayPositive.value.num), NumReal(r.todayNegative.value.num);
      r.rate.Some? && (r.rate.value.Quotient? <==> pos + neg != 0.0) &&
      (r.rate.value.Quotient? ==> r.rate.value.q * (pos + neg) == pos)
  {
    var pos := Sub(b.totalPositive.value.num, a.totalPositive.value.num);
    var neg := Sub(b.totalNegative.value.num, a.totalNegative.value.num);
    if NumReal(pos) + NumReal(neg) != 0.0 {
      DivideExact(NumReal(pos), NumReal(Add(pos, neg)));
    }
  }

  /** Record `j` after the each_cons pass: a record with a predecessor, both having their
      cumulative figures, gains its daily figures; every other record is unchanged. */
  function DeltaAt(rs: seq<TestRecord>, j: nat): Result<TestRecord>
    requires j < |rs|
  {
    if j > 0 && HasTotals(rs[j - 1]) && HasTotals(rs[j]) then WithDelta(rs[j - 1], rs[j]) else Ok(rs[j])
  }

  /** The records after the each_cons pass, which stops at the first step that raises. */
  function DeltaPass(rs: seq<TestRecord>): (r: Result<seq<TestRecord>>)
    ensures r.Ok? <==> forall j :: 0 <= j < |rs| ==> DeltaAt(rs, j).Ok?
    ensures r.Ok? ==> |r.value| == |rs| && forall j :: 0 <= j < |rs| ==> r.value[j] == DeltaAt(rs, j).value
    decreases |rs|
  {
    if |rs| == 0 then Ok([])
    else
      var n := |rs| - 1;
      assert forall j :: 0 <= j < n ==> DeltaAt(rs[..n], j) == DeltaAt(rs, j);
      match DeltaPass(rs[..n])
      case Err(e) => Err(e)
      case Ok(init) =>
        match DeltaAt(rs, n)
        case Err(e) => Err(e)
        case Ok(last) => Ok(init + [last])
  }

  /** The pass fails with the error of its first failing step. */
  lemma {:induction false} DeltaPassFirstErr(rs: seq<TestRecord>, k: nat)
    requires k < |rs| && DeltaAt(rs, k).Err? && forall j :: 0 <= j < k ==> DeltaAt(rs, j).Ok?
    ensures DeltaPass(rs) == Err(DeltaAt(rs, k).msg)
    decreases |rs|
  {
    var n := |rs| - 1;
    assert forall j :: 0 <= j < n ==> DeltaAt(rs[..n], j) == DeltaAt(rs, j);
    if k < n {
      DeltaPassFirstErr(rs[..n], k);
    }
  }

  /** The pass raises exactly when two consecutive records both have their cumulative figures and
      one of those four figures is text, as a sentinel such as 'NA' stays. */
  lemma DeltaPassFails(rs: seq<TestRecord>)
    ensures DeltaPass(rs).Err? <==>
      exists j :: 0 < j < |rs| && HasTotals(rs[j - 1]) && HasTotals(rs[j]) && !(NumericTotals(rs[j - 1]) && NumericTotals(rs[j]))
  {
    if DeltaPass(rs).Err? {
      var j :| 0 <= j < |rs| && DeltaAt(rs, j).Err?;
      assert j > 0 && HasTotals(rs[j - 1]) && HasTotals(rs[j]);
      assert WithDelta(rs[j - 1], rs[j]).Err?;
    }
    if exists j :: 0 < j < |rs| && HasTotals(rs[j - 1]) && HasTotals(rs[j]) && !(NumericTotals(rs[j - 1]) && NumericTotals(rs[j])) {
      var j :| 0 < j < |rs| && HasTotals(rs[j - 1]) && HasTotals(rs[j]) && !(NumericTotals(rs[j - 1]) && NumericTotals(rs[j]));
      assert DeltaAt(rs, j).Err?;
    }
  }

  /** A record overwrites the old table only when both daily figures are present. */
  predicate Emitted(r: TestRecord)
  {
    r.todayPositive.Some? && r.todayNegative.Some?
  }

  /** On rows of the new file, which carry no daily figures, a record is emitted exactly when it
      and its predecessor have both cumulative figures: the first row never is. */
  lemma EmittedIff(rs: seq<TestRecord>, j: nat)
    requires forall i :: 0 <= i < |rs| ==> rs[i].todayPositive.None?
    requires DeltaPass(rs).Ok? && j < |rs|
    ensures Emitted(DeltaPass(rs).value[j]) <==> j > 0 && HasTotals(rs[j - 1]) && HasTotals(rs[j])
  {
    assert DeltaAt(rs, j).Ok?;
  }

  /** The each_cons loop over consecutive records, updating the later of each pair in place; a
      pair reads only the cumulative figures of its first record, which the pass never alters. */
  method ComputeDeltas(rs: seq<TestRecord>) returns (out: Result<seq<TestRecord>>)
    ensures out == DeltaPass(rs)
  {
    var recs := rs;
    var i := 0;
    while i + 1 < |rs|
      invariant 0 <= i <= |rs|
      invariant |recs| == |rs|
      invariant forall j :: 0 <= j <= i && j < |rs| ==> DeltaAt(rs, j).Ok? && recs[j] == DeltaAt(rs, j).value
      invariant forall j :: i < j < |rs| ==> recs[j] == rs[j]
    {
      var a, b := recs[i], recs[i + 1];
      if HasTotals(a) && HasTotals(b) {
        var updated := WithDelta(a, b);
        if updated.Err? {
          DeltaPassFirstErr(rs, i + 1);
          return Err(updated.msg);
        }
        recs := recs[i + 1 := updated.value];
      }
      i := i + 1;
    }
    assert forall j :: 0 <= j < |rs| ==> DeltaAt(rs, j).Ok? && recs[j] == DeltaAt(rs, j).value;
    assert recs == DeltaPass(rs).value;
    out := Ok(recs);
  }

  /** The loop over the new intensive-care rows, as StoreIcu describes it. */
  method StoreIcuRows(t0: IcuTables, rows: seq<seq<Cell>>, columns: seq<string>, parse: DateParser)
    returns (t: IcuTables, failure: Option<string>)
    requires |columns| > 0
    ensures (t, failure) == StoreIcu(t0, rows, columns, parse)
  {
    var cares, care := t0.cares, t0.care;
    var width := |columns| + 1;
    var i := 0;
    while i < |rows|
      invariant 0 <= i <= |rows|
      invariant StoreIcu(IcuTables(cares, care), rows[i..], columns, parse) == StoreIcu(t0, rows, columns, parse)
    {
      assert rows[i..][0] == rows[i] && rows[i..][1..] == rows[i + 1..];
      var date := IcuDate(rows[i], parse);
      if date.Err? {
        return IcuTables(cares, care), Some(date.msg);
      }
      cares := cares[date.value := IcuRecord(rows[i], columns)];
      care := care[date.value := Some(IcuTotal(rows[i], width))];
      i := i + 1;
    }
    t, failure := IcuTables(cares, care), None;
  }

  /** The loop `.each { |record| @@tests[record['Date']] = record.to_h }`. */
  method StoreTests(seed: map<Date, TestRecord>, rs: seq<TestRecord>) returns (m: map<Date, TestRecord>)
    ensures m == StoreByDate(seed, rs)
  {
    m := seed;
    var i := 0;
    while i < |rs|
      invariant 0 <= i <= |rs|
      invariant m == StoreByDate(seed, rs[..i])
    {
      assert rs[..i + 1][..i] == rs[..i];
      if rs[i].date.Some? {
        m := m[rs[i].date.value := rs[i]];
      }
      i := i + 1;
    }
    assert rs[..|rs|] == rs;
  }

  // ---------------------------------------------------------------- loading the case files

  /** The case table and outcome of `load_cases` over a previous table. A conversion error in
      the old file leaves the previous table; one in the new file leaves the old file's table; a
      nil date beside other dates fails the closing log line after the table is stored. */
  function CaseLoad(prev: map<Option<Date>, BoardFigures>, boards: seq<string>, scale: map<string, real>,
                    oldRows: seq<seq<Cell>>, newRows: seq<seq<Cell>>, parse: DateParser): (map<Option<Date>, BoardFigures>, Result<()>)
  {
    var columns := boards + [GRAND_TOTAL];
    match ReadCaseRows(oldRows, columns, scale, parse)
    case Err(e) => (prev, Err(e))
    case Ok(olds) =>
      match ReadCaseRows(newRows, columns, scale, parse)
      case Err(e) => (OldCases(boards, olds), Err(e))
      case Ok(news) =>
        var kept := Filter(news, (r: CaseRow) => KeepNewCase(boards, r));
        var t := Overwrite(OldCases(boards, olds), CaseDates(kept), NewCaseRecords(boards, kept));
        (t, if KeysSortable(t) then Ok(()) else Err("comparison of Date with nil failed"))
  }

  /** `load_cases` step by step: the old file seeds the table and the loop of StoreEach
      overwrites the kept dates of the new file. */
  method LoadCaseTable(prev: map<Option<Date>, BoardFigures>, boards: seq<string>, scale: map<string, real>,
                       oldRows: seq<seq<Cell>>, newRows: seq<seq<Cell>>, parse: DateParser)
    returns (table: map<Option<Date>, BoardFigures>, result: Result<()>)
    ensures (table, result) == CaseLoad(prev, boards, scale, oldRows, newRows, parse)
  {
    var columns := boards + [GRAND_TOTAL];
    var olds := ReadCaseRows(oldRows, columns, scale, parse);
    if olds.Err? {
      return prev, Err(olds.msg);
    }
    table := OldCases(boards, olds.value);
    var news := ReadCaseRows(newRows, columns, scale, parse);
    if news.Err? {
      return table, Err(news.msg);
    }
    var kept := Filter(news.value, (r: CaseRow) => KeepNewCase(boards, r));
    table := StoreEach(table, CaseDates(kept), NewCaseRecords(boards, kept));
    result := if KeysSortable(table) then Ok(()) else Err("comparison of Date with nil failed");
  }

  // ---------------------------------------------------------------- loading the intensive-care files

  /** The tables and outcome of `load_intensive_care`: the per-board table starts empty, the old
      aggregate file seeds the totals, and the new rows are stored until the first that fails.
      An error in the old file leaves the previous totals. */
  function IcuLoad(prev: map<Date, Option<int>>, boards: seq<string>, oldRows: seq<seq<Cell>>, newRows: seq<seq<Cell>>,
                   parse: DateParser): (IcuTables, Result<()>)
  {
    match OldIcu(oldRows, parse)
    case Err(e) => (IcuTables(map[], prev), Err(e))
    case Ok(olds) =>
      var (t, failure) := StoreIcu(IcuTables(map[], olds), newRows, IcuColumns(boards), parse);
      (t, if failure.Some? then Err(failure.value) else Ok(()))
  }

  /** `load_intensive_care` step by step, with the loop of StoreIcuRows. */
  method LoadIcuTables(prev: map<Date, Option<int>>, boards: seq<string>, oldRows: seq<seq<Cell>>, newRows: seq<seq<Cell>>,
                       parse: DateParser) returns (tables: IcuTables, result: Result<()>)
    ensures (tables, result) == IcuLoad(prev, boards, oldRows, newRows, parse)
  {
    var olds := OldIcu(oldRows, parse);
    if olds.Err? {
      return IcuTables(map[], prev), Err(olds.msg);
    }
    var failure;
    tables, failure := StoreIcuRows(IcuTables(map[], olds.value), newRows, IcuColumns(boards), parse);
    result := if failure.Some? then Err(failure.value) else Ok(());
  }

  // ---------------------------------------------------------------- loading the deceased files

  /** The table and outcome of `load_deceased`. An error in the old file leaves the previous
      table; one in the new file leaves the old file's dated rows; as for cases, a nil date
      beside other dates fails the closing log line after the table is stored. */
  function DeceasedLoad(prev: map<Option<Date>, Option<NumericField>>, oldRows: seq<seq<Cell>>, newRows: seq<seq<Cell>>,
                        parse: DateParser, read: NumReader): (map<Option<Date>, Option<NumericField>>, Result<()>)
  {
    match ReadDeceasedRows(oldRows, parse, read)
    case Err(e) => (prev, Err(e))
    case Ok(olds) =>
      var seed := DeceasedSeed(olds);
      match ReadDeceasedRows(newRows, parse, read)
      case Err(e) => (seed, Err(e))
      case Ok(news) =>
        var t := DeceasedMerged(seed, news);
        (t, if KeysSortable(t) then Ok(()) else Err("comparison of Date with nil failed"))
  }

  /** `load_deceased` step by step, with the loop of StoreEach. */
  method LoadDeceasedTable(prev: map<Option<Date>, Option<NumericField>>, oldRows: seq<seq<Cell>>, newRows: seq<seq<Cell>>,
                           parse: DateParser, read: NumReader) returns (table: map<Option<Date>, Option<NumericField>>, result: Result<()>)
    ensures (table, result) == DeceasedLoad(prev, oldRows, newRows, parse, read)
  {
    var olds := ReadDeceasedRows(oldRows, parse, read);
    if olds.Err? {
      return prev, Err(olds.msg);
    }
    var dated := DatedDeceased(olds.value);
    table := ZipToMap(DeceasedDates(dated), DeceasedCounts(dated));
    var news := ReadDeceasedRows(newRows, parse, read);
    if news.Err? {
      return table, Err(news.msg);
    }
    var counted := CountedDeceased(news.value);
    table := StoreEach(table, DeceasedDates(counted), DeceasedCounts(counted));
    result := if KeysSortable(table) then Ok(()) else Err("comparison of Date with nil failed");
  }

  // ---------------------------------------------------------------- the loader

  class ScotlandCovid19Data {
    /** The revision of the data repository the files were last fetched at. */
    var currentSha: string
    var healthBoards: seq<string>
    var healthBoardScale: map<string, real>
    var cases: map<Option<Date>, BoardFigures>
    var deaths: map<Date, BoardFigures>
    var intensiveCares: map<Date, map<string, Option<int>>>
    var intensiveCare: map<Date, Option<int>>
    var deceased: map<Option<Date>, Option<NumericField>>
    var tests: map<Date, TestRecord>

    constructor()
      ensures currentSha == "" && healthBoards == [] && healthBoardScale == map[]
      ensures cases == map[] && deaths == map[] && intensiveCares == map[] && intensiveCare == map[]
      ensures deceased == map[] && tests == map[]
    {
      currentSha := "";
      healthBoards := [];
      healthBoardScale := map[];
      cases := map[];
      deaths := map[];
      intensiveCares := map[];
      intensiveCare := map[];
      deceased := map[];
      tests := map[];
    }

    /** Whether the data repository has moved on from the stored revision. */
    predicate UpdateAvailable(remoteSha: string)
      reads this
    {
      currentSha != remoteSha
    }

    /** Fetches each listed file that is missing, or every listed file when forced or when the
      remote revision differs from the stored one; a download of the full list records the
      remote revision. */
    method Download(only: Option<string>, force: bool, remoteSha: string, existing: set<string>) returns (fetched: seq<string>)
      modifies this
      ensures var files := if only.Some? then [only.value] else DOWNLOAD_FILES;
        fetched == FetchPlan(files, existing, force || old(UpdateAvailable(remoteSha)))
      ensures currentSha == if only.None? then remoteSha else old(currentSha)
      ensures only.None? ==> !UpdateAvailable(remoteSha)
      ensures healthBoards == old(healthBoards) && healthBoardScale == old(healthBoardScale)
      ensures cases == old(cases) && deaths == old(deaths) && intensiveCares == old(intensiveCares)
      ensures intensiveCare == old(intensiveCare) && deceased == old(deceased) && tests == old(tests)
    {
      var forced := force || UpdateAvailable(remoteSha);
      var files := if only.Some? then [only.value] else DOWNLOAD_FILES;
      fetched := [];
      var i := 0;
      while i < |files|
        invariant 0 <= i <= |files|
        invariant fetched == FetchPlan(files[..i], existing, forced)
      {
        assert files[..i + 1][..i] == files[..i];
        if files[i] !in existing || forced {
          fetched := fetched + [files[i]];
        }
        i := i + 1;
      }
      assert files[..|files|] == files;
      if only.None? {
        currentSha := remoteSha;
      }
    }

    /** The health-board list and the population scale table. */
    method LoadHealthBoards(rows: seq<PopulationRow>)
      modifies this
      ensures healthBoards == BoardList(rows) && healthBoardScale == ScaleTable(rows)
      ensures Distinct(healthBoards) && GRAND_TOTAL !in healthBoards
      ensures currentSha == old(currentSha)
      ensures cases == old(cases) && deaths == old(deaths) && intensiveCares == old(intensiveCares)
      ensures intensiveCare == old(intensiveCare) && deceased == old(deceased) && tests == old(tests)
    {
      healthBoards, healthBoardScale := ReadPopulations(rows);
      BoardListWellFormed(rows);
    }

    /** Reads the old case file into the table, then overwrites each date of the new file that
      passes the reject filter, recomputing its 'Grand Total'. */
    method LoadCases(oldRows: seq<seq<Cell>>, newRows: seq<seq<Cell>>, parse: DateParser) returns (result: Result<()>)
      modifies this
      ensures var (t, r) := CaseLoad(old(cases), old(healthBoards), old(healthBoardScale), oldRows, newRows, parse);
        cases == t && result == r
      ensures currentSha == old(currentSha) && healthBoards == old(healthBoards) && healthBoardScale == old(healthBoardScale)
      ensures deaths == old(deaths) && intensiveCares == old(intensiveCares)
      ensures intensiveCare == old(intensiveCare) && deceased == old(deceased) && tests == old(tests)
    {
      var t, r := LoadCaseTable(cases, healthBoards, healthBoardScale, oldRows, newRows, parse);
      cases, result := t, r;
    }

    /** Reads the deaths file, which carries its own header row. */
    method LoadDeaths(file: HeaderedFile, parse: DateParser) returns (result: Result<()>)
      modifies this
      ensures var read := ReadRows(file.header, file.rows, healthBoards + [GRAND_TOTAL], healthBoardScale, parse, true);
        if read.Err? then result.Err? && deaths == old(deaths)
        else result.Ok? && deaths == DeathsTable(healthBoards, read.value)
      ensures currentSha == old(currentSha) && healthBoards == old(healthBoards) && healthBoardScale == old(healthBoardScale)
      ensures cases == old(cases) && intensiveCares == old(intensiveCares)
      ensures intensiveCare == old(intensiveCare) && deceased == old(deceased) && tests == old(tests)
    {
      var read := ReadRows(file.header, file.rows, healthBoards + [GRAND_TOTAL], healthBoardScale, parse, true);
      if read.Err? {
        return Err(read.msg);
      }
      deaths := DeathsTable(healthBoards, read.value);
      result := Ok(());
    }

    /** Clears the per-board table, reads the old aggregate file, then stores each row of the new
      file under its date, both as a per-board record and as the aggregate total, stopping at the
      first row whose date does not parse. */
    method LoadIntensiveCare(oldRows: seq<seq<Cell>>, newRows: seq<seq<Cell>>, parse: DateParser) returns (result: Result<()>)
      modifies this
      ensures (IcuTables(intensiveCares, intensiveCare), result) == IcuLoad(old(intensiveCare), old(healthBoards), oldRows, newRows, parse)
      ensures currentSha == old(currentSha) && healthBoards == old(healthBoards) && healthBoardScale == old(healthBoardScale)
      ensures cases == old(cases) && deaths == old(deaths) && deceased == old(deceased) && tests == old(tests)
    {
      var t, r := LoadIcuTables(intensiveCare, healthBoards, oldRows, newRows, parse);
      intensiveCares, intensiveCare, result := t.cares, t.care, r;
      assert t == IcuTables(intensiveCares, intensiveCare);
    }

    /** Reads the old deceased file without its undated rows, then overwrites each date of the
      new file whose count is present. */
    method LoadDeceased(oldRows: seq<seq<Cell>>, newRows: seq<seq<Cell>>, parse: DateParser, read: NumReader) returns (result: Result<()>)
      modifies this
      ensures var (t, r) := DeceasedLoad(old(deceased), oldRows, newRows, parse, read);
        deceased == t && result == r
      ensures currentSha == old(currentSha) && healthBoards == old(healthBoards) && healthBoardScale == old(healthBoardScale)
      ensures cases == old(cases) && deaths == old(deaths) && intensiveCares == old(intensiveCares)
      ensures intensiveCare == old(intensiveCare) && tests == old(tests)
    {
      var t, r := LoadDeceasedTable(deceased, oldRows, newRows, parse, read);
      deceased, result := t, r;
    }

    /** Reads the old tests file under its dates, then derives the daily figures of the new file
      and overwrites each date whose daily figures are both present. */
    method LoadTests(oldRows: seq<seq<Cell>>, newRows: seq<seq<Cell>>, parse: DateParser, read: NumReader) returns (result: Result<()>)
      modifies this
      ensures var olds := ReadTestRows(oldRows, parse, read, false);
        var news := ReadTestRows(newRows, parse, read, true);
        if olds.Err? then result.Err? && tests == old(tests)
        else
          var seed := StoreByDate(map[], olds.value);
          if news.Err? then result.Err? && tests == seed
          else
            var pass := DeltaPass(TestsWithDate(news.value));
            if pass.Err? then result.Err? && tests == seed
            else result.Ok? && tests == StoreByDate(seed, Filter(pass.value, Emitted))
      ensures tests != old(tests) ==> forall d :: d in tests ==> tests[d].date == Some(d)
      ensures currentSha == old(currentSha) && healthBoards == old(healthBoards) && healthBoardScale == old(healthBoardScale)
      ensures cases == old(cases) && deaths == old(deaths) && intensiveCares == old(intensiveCares)
      ensures intensiveCare == old(intensiveCare) && deceased == old(deceased)
    {
      var olds := ReadTestRows(oldRows, parse, read, false);
      if olds.Err? {
        return Err(olds.msg);
      }
      tests := StoreByDate(map[], olds.value);
      StoreByDateKeys(map[], olds.value);
      var news := ReadTestRows(newRows, parse, read, true);
      if news.Err? {
        return Err(news.msg);
      }
      var updated := ComputeDeltas(TestsWithDate(news.value));
      if updated.Err? {
        return Err(updated.msg);
      }
      var emitted := Filter(updated.value, Emitted);
      StoreByDateKeys(tests, emitted);
      tests := StoreTests(tests, emitted);
      result := Ok(());
    }
  }
}
