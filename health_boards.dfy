/** The health-board list, the population scale table and the figure converters, shared by the
    regional loader (scotland_covid19_data.rb) and the legacy pipeline (update.rb). */
module HealthBoards {
  import opened Common
  import opened Strings

  /** One record of the population file: its Name and its numeric Population field (nil when
      the field is empty). */
  datatype PopulationRow = PopulationRow(name: string, population: Option<int>)

  /** `record['Population'].to_f / NUMBERS_PER`; an empty field reads as 0.0. */
  function Scaled(row: PopulationRow): real
  {
    (if row.population.Some? then row.population.value as real else 0.0) / (NUMBERS_PER as real)
  }

  function Names(rows: seq<PopulationRow>): (ns: seq<string>)
    ensures |ns| == |rows| && forall i :: 0 <= i < |rows| ==> ns[i] == rows[i].name
  {
    seq(|rows|, i requires 0 <= i < |rows| => rows[i].name)
  }

  /** `push record['Name'] unless health_boards.include? record['Name']`, over every record. */
  function Dedupe(ns: seq<string>): (r: seq<string>)
    ensures Distinct(r)
    ensures forall n :: n in r <==> n in ns
  {
    if |ns| == 0 then []
    else
      var init := Dedupe(ns[..|ns| - 1]);
      var last := ns[|ns| - 1];
      assert ns == ns[..|ns| - 1] + [last];
      if last in init then init else init + [last]
  }

  /** Ruby's `Array#delete`: every occurrence of `x` is removed. */
  function Without(xs: seq<string>, x: string): (r: seq<string>)
    ensures forall y :: y in r <==> y in xs && y != x
    ensures Distinct(xs) ==> Distinct(r)
  {
    if |xs| == 0 then []
    else
      var init := Without(xs[..|xs| - 1], x);
      var last := xs[|xs| - 1];
      assert xs == xs[..|xs| - 1] + [last];
      assert Distinct(xs) ==> last !in xs[..|xs| - 1];
      if last == x then init else init + [last]
  }

  /** The health-board list: the distinct names, without 'Grand Total', sorted. */
  function BoardList(rows: seq<PopulationRow>): seq<string>
  {
    Sort(Without(Dedupe(Names(rows)), GRAND_TOTAL))
  }

  /** The board list is strictly ascending (so free of duplicates), and a name is on it exactly
      when some population record carries it and it is not 'Grand Total'. */
  lemma BoardListSpec(rows: seq<PopulationRow>)
    ensures StrictlySorted(BoardList(rows))
    ensures forall n :: n in BoardList(rows) <==> n in Names(rows) && n != GRAND_TOTAL
  {
    var d := Without(Dedupe(Names(rows)), GRAND_TOTAL);
    SortSpec(d);
  }

  /** Those two facts pin the list down: any strictly sorted list of exactly those names is it. */
  lemma BoardListUnique(rows: seq<PopulationRow>, xs: seq<string>)
    requires StrictlySorted(xs)
    requires forall n :: n in xs <==> n in Names(rows) && n != GRAND_TOTAL
    ensures xs == BoardList(rows)
  {
    BoardListSpec(rows);
    StrictlySortedUnique(xs, BoardList(rows));
  }

  /** Consequently the loaders may index records by board: the list is free of duplicates and
      never holds 'Grand Total'. */
  lemma BoardListWellFormed(rows: seq<PopulationRow>)
    ensures Distinct(BoardList(rows)) && GRAND_TOTAL !in BoardList(rows)
  {
    BoardListSpec(rows);
    var xs := BoardList(rows);
    forall i, j | 0 <= i < j < |xs| ensures xs[i] != xs[j] {
      LexLessIrreflexive(xs[i]);
    }
  }

  function ScaledValues(rows: seq<PopulationRow>): (vs: seq<real>)
    ensures |vs| == |rows| && forall i :: 0 <= i < |rows| ==> vs[i] == Scaled(rows[i])
  {
    seq(|rows|, i requires 0 <= i < |rows| => Scaled(rows[i]))
  }

  /** The scale table after the second pass: `{'Grand Total' => 0}` with every record's
      `scale[name] = population / NUMBERS_PER` applied in order. */
  function AssignedScale(rows: seq<PopulationRow>): map<string, real>
  {
    Overwrite(map[GRAND_TOTAL := 0.0], Names(rows), ScaledValues(rows))
  }

  /** The sum over all records of population / NUMBERS_PER. */
  function SumScaled(rows: seq<PopulationRow>): real
  {
    if |rows| == 0 then 0.0 else SumScaled(rows[..|rows| - 1]) + Scaled(rows[|rows| - 1])
  }

  /** The scale table after the third pass, which adds every record's scaled population to the
      'Grand Total' entry the second pass left. */
  function ScaleTable(rows: seq<PopulationRow>): map<string, real>
  {
    var passTwo := AssignedScale(rows);
    passTwo[GRAND_TOTAL := passTwo[GRAND_TOTAL] + SumScaled(rows)]
  }

  /** The table has an entry for 'Grand Total' and for each name in the file, and no other. */
  lemma ScaleTableKeys(rows: seq<PopulationRow>)
    ensures forall n :: n in ScaleTable(rows) <==> n == GRAND_TOTAL || n in Names(rows)
  {
  }

  /** A board's scale is the scaled population of the last record carrying its name. */
  lemma ScaleOfBoard(rows: seq<PopulationRow>, n: string)
    requires n in Names(rows) && n != GRAND_TOTAL
    ensures ScaleTable(rows)[n] == Scaled(rows[LastIndex(Names(rows), n)])
  {
    OverwriteAt(map[GRAND_TOTAL := 0.0], Names(rows), ScaledValues(rows), n);
  }

  /** 'Grand Total' ends as the value the second pass left there (0 unless the file has a
      'Grand Total' record, whose scaled population then overwrote it) plus the sum of every
      record's scaled population, that record's included. */
  lemma ScaleOfGrandTotal(rows: seq<PopulationRow>)
    ensures ScaleTable(rows)[GRAND_TOTAL] ==
      (if GRAND_TOTAL in Names(rows) then Scaled(rows[LastIndex(Names(rows), GRAND_TOTAL)]) else 0.0)
      + SumScaled(rows)
  {
    OverwriteAt(map[GRAND_TOTAL := 0.0], Names(rows), ScaledValues(rows), GRAND_TOTAL);
  }

  /** Reads the population records in the three passes of the source: the first collects the
      names, from which 'Grand Total' is deleted before the list is sorted; the second and third
      fill the scale table. */
  method ReadPopulations(rows: seq<PopulationRow>) returns (boards: seq<string>, scale: map<string, real>)
    ensures boards == BoardList(rows)
    ensures scale == ScaleTable(rows)
  {
    boards := ReadBoardList(rows);
    scale := ReadScaleTable(rows);
  }

  /** The first pass, then `delete 'Grand Total'` and `sort`. */
  method ReadBoardList(rows: seq<PopulationRow>) returns (boards: seq<string>)
    ensures boards == BoardList(rows)
  {
    var seen := CollectNames(rows);
    boards := Sort(Without(seen, GRAND_TOTAL));
  }

  /** The second and third passes. */
  method ReadScaleTable(rows: seq<PopulationRow>) returns (scale: map<string, real>)
    ensures scale == ScaleTable(rows)
  {
    var passTwo := AssignScales(rows);
    scale := AddToGrandTotal(rows, passTwo);
    PassesMakeScaleTable(rows, passTwo, scale);
  }

  lemma PassesMakeScaleTable(rows: seq<PopulationRow>, passTwo: map<string, real>, scale: map<string, real>)
    requires passTwo == AssignedScale(rows) && GRAND_TOTAL in passTwo
    requires scale == passTwo[GRAND_TOTAL := passTwo[GRAND_TOTAL] + SumScaled(rows)]
    ensures scale == ScaleTable(rows)
  {
  }

  /** The first pass: each name once, in the order of first appearance. */
  method CollectNames(rows: seq<PopulationRow>) returns (seen: seq<string>)
    ensures seen == Dedupe(Names(rows))
  {
    var names := Names(rows);
    seen := [];
    var i := 0;
    while i < |rows|
      invariant 0 <= i <= |rows|
      invariant seen == Dedupe(names[..i])
    {
      assert names[..i + 1][..i] == names[..i];
      if rows[i].name !in seen {
        seen := seen + [rows[i].name];
      }
      i := i + 1;
    }
    assert names[..|rows|] == names;
  }

  /** The second pass: every record stores its scaled population under its name. */
  method AssignScales(rows: seq<PopulationRow>) returns (scale: map<string, real>)
    ensures scale == AssignedScale(rows) && GRAND_TOTAL in scale
  {
    var names, values := Names(rows), ScaledValues(rows);
    scale := map[GRAND_TOTAL := 0.0];
    var i := 0;
    while i < |rows|
      invariant 0 <= i <= |rows|
      invariant scale == Overwrite(map[GRAND_TOTAL := 0.0], names[..i], values[..i])
      invariant GRAND_TOTAL in scale
    {
      assert names[..i + 1][..i] == names[..i] && values[..i + 1][..i] == values[..i];
      scale := scale[rows[i].name := Scaled(rows[i])];
      i := i + 1;
    }
    assert names[..|rows|] == names && values[..|rows|] == values;
  }

  /** The third pass: every record's scaled population is added to 'Grand Total'. */
  method AddToGrandTotal(rows: seq<PopulationRow>, scale0: map<string, real>) returns (scale: map<string, real>)
    requires GRAND_TOTAL in scale0
    ensures scale == scale0[GRAND_TOTAL := scale0[GRAND_TOTAL] + SumScaled(rows)]
  {
    scale := scale0;
    var i := 0;
    while i < |rows|
      invariant 0 <= i <= |rows|
      invariant scale == scale0[GRAND_TOTAL := scale0[GRAND_TOTAL] + SumScaled(rows[..i])]
    {
      assert rows[..i + 1][..i] == rows[..i];
      scale := scale[GRAND_TOTAL := scale[GRAND_TOTAL] + Scaled(rows[i])];
      i := i + 1;
    }
    assert rows[..|rows|] == rows;
  }

  /** The markers the case files use for a figure that is missing. */
  const CASE_SENTINELS: set<string> := {"X", "*", "NA"}

  /** The text a converter calls `to_i` on; `nil.to_i` is 0, as is `"".to_i`. */
  function CellText(cell: Cell): string
  {
    if cell.Some? then cell.value else ""
  }

  /** `value.to_i / health_board_scale.fetch(header)`: a header missing from the table raises a
      KeyError; a zero scale would give Infinity or NaN, which the model reports as an error. */
  function ScaledFigure(cell: Cell, header: string, scale: map<string, real>): (r: Result<Option<real>>)
    ensures r.Ok? <==> header in scale && scale[header] != 0.0
    ensures r.Ok? ==> r.value.Some?
  {
    ScaledCount(ToI(CellText(cell)), header, scale)
  }

  /** A count from the file divided by its board's scale. */
  function ScaledCount(n: int, header: string, scale: map<string, real>): (r: Result<Option<real>>)
    ensures r.Ok? <==> header in scale && scale[header] != 0.0
    ensures r.Ok? ==> r.value.Some?
  {
    if header !in scale then Err("key not found: " + header)
    else match Divide(n as real, scale[header])
      case DivByZero => Err("non-finite figure")
      case Quotient(q) => Ok(Some(q))
  }

  /** A scaled count times its board's scale gives back the count. */
  lemma ScaledCountExact(n: int, header: string, scale: map<string, real>)
    requires ScaledCount(n, header, scale).Ok?
    ensures ScaledCount(n, header, scale).value.value * scale[header] == n as real
  {
    DivideExact(n as real, scale[header]);
  }

  /** The figure converter of the case files (scotland_covid19_data.rb:137): a sentinel becomes
      nil, never 0; anything else, an empty field included, is scaled. */
  function CaseFigure(cell: Cell, header: string, scale: map<string, real>): (r: Result<Option<real>>)
    ensures r == Ok(None) <==> cell.Some? && cell.value in CASE_SENTINELS
    ensures !(cell.Some? && cell.value in CASE_SENTINELS) ==> r == ScaledFigure(cell, header, scale)
    ensures r.Err? <==> !(cell.Some? && cell.value in CASE_SENTINELS) && (header !in scale || scale[header] == 0.0)
  {
    if cell.Some? && cell.value in CASE_SENTINELS then Ok(None) else ScaledFigure(cell, header, scale)
  }

  /** The figure converter of files read with their own header row (scotland_covid19_data.rb:163,
      update.rb:30): only 'X' becomes nil; a field beyond the header row has a nil header, which
      `fetch` rejects. */
  function BoardFigure(cell: Cell, header: Option<string>, scale: map<string, real>): (r: Result<Option<real>>)
    ensures r == Ok(None) <==> cell == Some("X")
    ensures cell != Some("X") && header.Some? ==> r == ScaledFigure(cell, header.value, scale)
    ensures r.Err? <==> cell != Some("X") && (header.None? || header.value !in scale || scale[header.value] == 0.0)
  {
    if cell == Some("X") then Ok(None)
    else if header.None? then Err("key not found: nil")
    else ScaledFigure(cell, header.value, scale)
  }

  /** `:nil? === value`: a Symbol matches only itself, and a figure or nil is never a Symbol. */
  predicate MatchesNilSymbol(value: Option<real>)
  {
    false
  }

  /** `values.all?(:nil?)` tests every value with `:nil? === value`. */
  predicate AllMatchNilSymbol(values: seq<Option<real>>)
  {
    forall i :: 0 <= i < |values| ==> MatchesNilSymbol(values[i])
  }

  lemma AllMatchNilSymbolIffEmpty(values: seq<Option<real>>)
    ensures AllMatchNilSymbol(values) <==> |values| == 0
  {
    if |values| > 0 {
      assert !MatchesNilSymbol(values[0]);
    }
  }

  /** A record of figures, keyed by board name and 'Grand Total'. */
  type BoardFigures = map<string, Option<real>>

  /** `record.values_at(*health_boards)` of a record whose figures follow the board order. */
  function BoardValues(boards: seq<string>, figures: seq<Option<real>>): (vs: seq<Option<real>>)
    ensures |vs| == |boards| && forall k :: 0 <= k < |boards| ==> vs[k] == At(figures, k)
  {
    seq(|boards|, k requires 0 <= k < |boards| => At(figures, k))
  }

  /** A record of figures keyed by the board names and 'Grand Total':
      `[*health_boards, 'Grand Total'].zip(record.values_at(*health_boards, 'Grand Total')).to_h`. */
  function BoardRecord(boards: seq<string>, figures: seq<Option<real>>): (m: map<string, Option<real>>)
    ensures m.Keys == (set b | b in boards) + {GRAND_TOTAL}
  {
    ZipToMap(boards + [GRAND_TOTAL], seq(|boards| + 1, k requires 0 <= k <= |boards| => At(figures, k)))
  }

  /** With the board list of the loader (distinct, without 'Grand Total'), each board reads the
      figure at its own position and 'Grand Total' the one after the boards; a figure the record
      does not reach is nil. */
  lemma BoardRecordAt(boards: seq<string>, figures: seq<Option<real>>)
    requires Distinct(boards) && GRAND_TOTAL !in boards
    ensures forall k :: 0 <= k < |boards| ==> BoardRecord(boards, figures)[boards[k]] == At(figures, k)
    ensures BoardRecord(boards, figures)[GRAND_TOTAL] == At(figures, |boards|)
  {
    var keys := boards + [GRAND_TOTAL];
    var vals := seq(|boards| + 1, k requires 0 <= k <= |boards| => At(figures, k));
    assert Distinct(keys) by {
      forall i, j | 0 <= i < j < |keys| ensures keys[i] != keys[j] {
        if j == |boards| { assert keys[i] in boards; }
      }
    }
    forall k | 0 <= k < |boards| ensures BoardRecord(boards, figures)[boards[k]] == At(figures, k) {
      ZipToMapAt(keys, vals, k);
    }
    ZipToMapAt(keys, vals, |boards|);
  }

  /** A field of a file read with its own header row, once the converters have run. */
  datatype Field = DateField(date: Option<Date>) | Figure(figure: Option<real>)

  /** The converter chain `[number_converter, date_converter]` on one field. Under a 'Date' header
      the number converter hands the text on and the date converter parses it, with or without
      the 'NA' rule; under any other header, or none, the number converter produces a figure,
      which the date converter then never sees. */
  function ConvertField(cell: Cell, h: Option<string>, scale: map<string, real>, parse: DateParser, naIsNil: bool): Result<Field>
  {
    if h == Some("Date") then
      match (if naIsNil then ConvertDate(cell, parse) else StrictDate(cell, parse))
      case Err(e) => Err(e)
      case Ok(d) => Ok(DateField(d))
    else
      match BoardFigure(cell, h, scale)
      case Err(e) => Err(e)
      case Ok(f) => Ok(Figure(f))
  }

  /** The CSV reader converts every field of a row; the first failure aborts the read. */
  function ConvertRow(header: seq<string>, row: seq<Cell>, scale: map<string, real>, parse: DateParser, naIsNil: bool): (r: Result<seq<Field>>)
    ensures r.Ok? <==> forall j :: 0 <= j < |row| ==> ConvertField(row[j], HeaderAt(header, j), scale, parse, naIsNil).Ok?
    ensures r.Ok? ==> |r.value| == |row|
    ensures r.Ok? ==> forall j :: 0 <= j < |row| ==>
      ConvertField(row[j], HeaderAt(header, j), scale, parse, naIsNil) == Ok(r.value[j])
    decreases |row|
  {
    if |row| == 0 then Ok([])
    else
      var n := |row| - 1;
      match ConvertRow(header, row[..n], scale, parse, naIsNil)
      case Err(e) => Err(e)
      case Ok(init) =>
        match ConvertField(row[n], HeaderAt(header, n), scale, parse, naIsNil)
        case Err(e) => Err(e)
        case Ok(f) => Ok(init + [f])
  }

  /** `record[name]`: the field under the first header called `name`; nil when there is no such
      header or the row is too short to reach it. */
  function FieldNamed(header: seq<string>, fields: seq<Field>, name: string): Option<Field>
  {
    var i := FirstIndex(header, name);
    if 0 <= i < |fields| then Some(fields[i]) else None
  }

  /** `record['Date']`. */
  function RecordDate(header: seq<string>, fields: seq<Field>): Option<Date>
  {
    match FieldNamed(header, fields, "Date")
    case Some(DateField(d)) => d
    case _ => None
  }

  /** `record.values_at(*names)`. */
  function RecordFigures(header: seq<string>, fields: seq<Field>, names: seq<string>): (r: seq<Option<real>>)
    ensures |r| == |names|
  {
    seq(|names|, k requires 0 <= k < |names| =>
      match FieldNamed(header, fields, names[k])
      case Some(Figure(f)) => f
      case _ => None)
  }

  /** A record of a headered file reduced to what the loaders read: its date and its figures
      under the requested names. */
  datatype Dated = Dated(date: Option<Date>, figures: seq<Option<real>>)

  /** One record: its fields converted, then `[record['Date'], record.values_at(*columns)]`. */
  function ReadRecord(header: seq<string>, row: seq<Cell>, columns: seq<string>, scale: map<string, real>, parse: DateParser, naIsNil: bool): (r: Result<Dated>)
    ensures r.Ok? <==> ConvertRow(header, row, scale, parse, naIsNil).Ok?
  {
    match ConvertRow(header, row, scale, parse, naIsNil)
    case Err(e) => Err(e)
    case Ok(fields) => Ok(Dated(RecordDate(header, fields), RecordFigures(header, fields, columns)))
  }

  /** `CSV.read(file, headers: true, converters: [...])` over the data rows under `header`, each
      record reduced by ReadRecord; one failing record fails the whole read. */
  function ReadRows(header: seq<string>, rows: seq<seq<Cell>>, columns: seq<string>, scale: map<string, real>, parse: DateParser, naIsNil: bool): Result<seq<Dated>>
  {
    MapResult(rows, row => ReadRecord(header, row, columns, scale, parse, naIsNil))
  }

  /** Looking a name other than 'Date' up in a converted record gives the figure converter's
      result on the first field under that header: 'X' reads back as nil, anything else scaled. */
  lemma RecordFigureOfBoard(header: seq<string>, row: seq<Cell>, scale: map<string, real>, parse: DateParser, naIsNil: bool, name: string)
    requires ConvertRow(header, row, scale, parse, naIsNil).Ok?
    requires name != "Date"
    requires 0 <= FirstIndex(header, name) < |row|
    ensures var fields := ConvertRow(header, row, scale, parse, naIsNil).value;
      var cell := row[FirstIndex(header, name)];
      RecordFigures(header, fields, [name])[0] == BoardFigure(cell, Some(name), scale).value
  {
  }
}
