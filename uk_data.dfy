/** The national loader: one totals file per nation of the UK, every figure scaled by the
    nation's population. */
module UkData {
  import opened Common

  datatype Nation = England | NorthernIreland | Scotland | Wales | Uk

  function FileName(n: Nation): string
  {
    match n
    case England => "covid-19-totals-england.csv"
    case NorthernIreland => "covid-19-totals-northern-ireland.csv"
    case Scotland => "covid-19-totals-scotland.csv"
    case Wales => "covid-19-totals-wales.csv"
    case Uk => "covid-19-totals-uk.csv"
  }

  /** The files a full download fetches, in the order it fetches them. */
  const FILES: seq<string> := [FileName(England), FileName(NorthernIreland), FileName(Scotland), FileName(Wales), FileName(Uk)]

  /** The population each nation's figures are scaled by. */
  function Population(n: Nation): nat
  {
    match n
    case England => 54000000
    case NorthernIreland => 2000000
    case Scotland => 5500000
    case Wales => 3100000
    case Uk => 64600000
  }

  /** `population.to_f / NUMBERS_PER`: the nation's population in units of NUMBERS_PER people. */
  function Scale(n: Nation): (s: real)
    ensures s > 0.0
    ensures s * NUMBERS_PER as real == Population(n) as real
  {
    Population(n) as real / NUMBERS_PER as real
  }

  /** The scales written out: England 540, Northern Ireland 20, Scotland 55, Wales 31 and the
      UK 646 units of 100000 people; the UK's is the largest. */
  lemma ScaleValues()
    ensures Scale(England) == 540.0 && Scale(NorthernIreland) == 20.0 && Scale(Scotland) == 55.0
    ensures Scale(Wales) == 31.0 && Scale(Uk) == 646.0
    ensures forall n :: Scale(n) <= Scale(Uk)
  {
    assert NUMBERS_PER as real == 100000.0;
    forall n ensures Scale(n) <= Scale(Uk) {
      assert Population(n) <= Population(Uk);
    }
  }

  /** The `:numeric` converter: the number a text reads as, or `None` when it stays a String. */
  type NumberParser = string -> Option<real>

  /** A field once the converters `[:numeric, date_converter]` have run. */
  datatype Value = Blank | Number(x: real) | Day(d: Date) | Text(t: string)

  /** The converter chain on one field: an empty field stays nil; text that reads as a number
      becomes that number and is converted no further; other text under the 'Date' header goes
      through Date.parse, and under any other header stays a String. */
  function ConvertValue(cell: Cell, h: Option<string>, parse: DateParser, num: NumberParser): (r: Result<Value>)
    ensures r.Err? <==> cell.Some? && num(cell.value).None? && h == Some("Date") && parse(cell.value).None?
    ensures r.Ok? && r.value.Day? ==> h == Some("Date")
    ensures r.Ok? && r.value.Text? ==> h != Some("Date")
  {
    match cell
    case None => Ok(Blank)
    case Some(text) =>
      match num(text)
      case Some(x) => Ok(Number(x))
      case None =>
        if h == Some("Date") then
          match parse(text)
          case None => Err("invalid date")
          case Some(d) => Ok(Day(d))
        else Ok(Text(text))
  }

  /** Every field of a row converted; the first failure aborts the read. */
  function ConvertRow(header: seq<string>, row: seq<Cell>, parse: DateParser, num: NumberParser): (r: Result<seq<Value>>)
    ensures r.Ok? <==> forall j :: 0 <= j < |row| ==> ConvertValue(row[j], HeaderAt(header, j), parse, num).Ok?
    ensures r.Ok? ==> |r.value| == |row|
    ensures r.Ok? ==> forall j :: 0 <= j < |row| ==> ConvertValue(row[j], HeaderAt(header, j), parse, num) == Ok(r.value[j])
    decreases |row|
  {
    if |row| == 0 then Ok([])
    else
      var n := |row| - 1;
      match ConvertRow(header, row[..n], parse, num)
      case Err(e) => Err(e)
      case Ok(init) =>
        match ConvertValue(row[n], HeaderAt(header, n), parse, num)
        case Err(e) => Err(e)
        case Ok(v) => Ok(init + [v])
  }

  /** `record[name]`: the field under the first header called `name`, nil when there is none
      or the row stops short of it. */
  function ValueNamed(header: seq<string>, fields: seq<Value>, name: string): Value
  {
    var i := FirstIndex(header, name);
    if 0 <= i < |fields| then fields[i] else Blank
  }

  /** `record[name] ? record[name] / scale : nil`: a number is divided by the nation's scale and
      nil stays nil; anything else has no `/` taking a Float. */
  function ScaledValue(v: Value, n: Nation): (r: Result<Option<real>>)
    ensures r.Ok? <==> v.Blank? || v.Number?
    ensures r.Ok? ==> (r.value.None? <==> v.Blank?)
    ensures v == Number(0.0) ==> r == Ok(Some(0.0))
  {
    match v
    case Blank => Ok(None)
    case Number(x) => Ok(Some(x / Scale(n)))
    case Day(_) => Err("undefined method '/' for Date")
    case Text(_) => Err("undefined method '/' for String")
  }

  /** A scaled figure times the scale gives back the figure in the file. */
  lemma ScaledValueExact(v: Value, n: Nation)
    requires v.Number?
    ensures ScaledValue(v, n).value.value * Scale(n) == v.x
  {
  }

  /** The key a record is stored under: its date, or nil for an empty date field. */
  function RecordKey(v: Value): (r: Result<Option<Date>>)
    ensures r.Ok? <==> v.Blank? || v.Day?
  {
    match v
    case Blank => Ok(None)
    case Day(d) => Ok(Some(d))
    case _ => Err("date field is not a Date")
  }

  /** The record stored for one row: the date and the three figures, each scaled. */
  datatype UkRecord = UkRecord(date: Option<Date>, tests: Option<real>, confirmedCases: Option<real>, deaths: Option<real>)

  /** One row: its fields converted, then the hash built from `record['Date']`, `record['Tests']`,
      `record['ConfirmedCases']` and `record['Deaths']`. */
  function ReadRecord(header: seq<string>, row: seq<Cell>, n: Nation, parse: DateParser, num: NumberParser): Result<UkRecord>
  {
    match ConvertRow(header, row, parse, num)
    case Err(e) => Err(e)
    case Ok(fields) =>
      var date := RecordKey(ValueNamed(header, fields, "Date"));
      var tests := ScaledValue(ValueNamed(header, fields, "Tests"), n);
      var cases := ScaledValue(ValueNamed(header, fields, "ConfirmedCases"), n);
      var deaths := ScaledValue(ValueNamed(header, fields, "Deaths"), n);
      if date.Err? then Err(date.msg)
      else if tests.Err? then Err(tests.msg)
      else if cases.Err? then Err(cases.msg)
      else if deaths.Err? then Err(deaths.msg)
      else Ok(UkRecord(date.value, tests.value, cases.value, deaths.value))
  }

  /** A row reads when its fields convert, its date field is empty or a date, and each of its
      three figures is empty or a number; the record then holds that date and each figure
      scaled. */
  lemma ReadRecordFields(header: seq<string>, row: seq<Cell>, n: Nation, parse: DateParser, num: NumberParser)
    ensures var r := ReadRecord(header, row, n, parse, num);
      r.Ok? <==> (ConvertRow(header, row, parse, num).Ok? &&
      var fields := ConvertRow(header, row, parse, num).value;
      RecordKey(ValueNamed(header, fields, "Date")).Ok? &&
      ScaledValue(ValueNamed(header, fields, "Tests"), n).Ok? &&
      ScaledValue(ValueNamed(header, fields, "ConfirmedCases"), n).Ok? &&
      ScaledValue(ValueNamed(header, fields, "Deaths"), n).Ok?)
    ensures var r := ReadRecord(header, row, n, parse, num);
      r.Ok? ==> var fields := ConvertRow(header, row, parse, num).value;
      r.value.date == RecordKey(ValueNamed(header, fields, "Date")).value &&
      r.value.tests == ScaledValue(ValueNamed(header, fields, "Tests"), n).value &&
      r.value.confirmedCases == ScaledValue(ValueNamed(header, fields, "ConfirmedCases"), n).value &&
      r.value.deaths == ScaledValue(ValueNamed(header, fields, "Deaths"), n).value
  {
  }

  /** Every row of a file read. */
  function ReadRecords(file: HeaderedFile, n: Nation, parse: DateParser, num: NumberParser): Result<seq<UkRecord>>
  {
    MapResult(file.rows, row => ReadRecord(file.header, row, n, parse, num))
  }

  function RecordDates(rs: seq<UkRecord>): (ds: seq<Option<Date>>)
    ensures |ds| == |rs| && forall i :: 0 <= i < |rs| ==> ds[i] == rs[i].date
  {
    seq(|rs|, i requires 0 <= i < |rs| => rs[i].date)
  }

  /** A nation's table: each record stored under its date, a later row replacing an earlier
      one with the same date. */
  function NationTable(file: HeaderedFile, n: Nation, parse: DateParser, num: NumberParser): (r: Result<map<Option<Date>, UkRecord>>)
    ensures r.Ok? ==> ReadRecords(file, n, parse, num).Ok? && KeysSortable(r.value)
    ensures ReadRecords(file, n, parse, num).Err? ==> r.Err?
  {
    match ReadRecords(file, n, parse, num)
    case Err(e) => Err(e)
    case Ok(recs) =>
      var m := ZipToMap(RecordDates(recs), recs);
      if KeysSortable(m) then Ok(m) else Err("comparison of Date with nil failed")
  }

  /** The table's keys are exactly the dates of its rows, and each record's own date is the
      key it is stored under. */
  lemma NationTableKeys(file: HeaderedFile, n: Nation, parse: DateParser, num: NumberParser)
    requires NationTable(file, n, parse, num).Ok?
    ensures var recs := ReadRecords(file, n, parse, num).value;
      forall k :: k in NationTable(file, n, parse, num).value <==> exists i :: 0 <= i < |recs| && recs[i].date == k
    ensures var m := NationTable(file, n, parse, num).value;
      forall k :: k in m ==> m[k].date == k
  {
    var recs := ReadRecords(file, n, parse, num).value;
    var ds := RecordDates(recs);
    var m := NationTable(file, n, parse, num).value;
    assert m == ZipToMap(ds, recs);
    forall k | k in m ensures m[k].date == k {
      OverwriteAt(map[], ds, recs, k);
    }
    forall k ensures k in m <==> exists i :: 0 <= i < |recs| && recs[i].date == k {
      if k in m {
        var i := LastIndex(ds, k);
        assert recs[i].date == k;
      }
    }
  }

  /** A row whose date no later row repeats is the one stored under that date. */
  lemma NationTableLastWins(file: HeaderedFile, n: Nation, parse: DateParser, num: NumberParser, i: nat)
    requires NationTable(file, n, parse, num).Ok?
    requires i < |file.rows|
    requires var recs := ReadRecords(file, n, parse, num).value;
      forall j :: i < j < |recs| ==> recs[j].date != recs[i].date
    ensures var recs := ReadRecords(file, n, parse, num).value;
      var m := NationTable(file, n, parse, num).value;
      recs[i].date in m && m[recs[i].date] == recs[i]
  {
    var recs := ReadRecords(file, n, parse, num).value;
    var ds := RecordDates(recs);
    OverwriteAt(map[], ds, recs, recs[i].date);
    assert LastIndex(ds, recs[i].date) == i;
  }

  /** `load_`: the records of the file, each stored in turn under its date by the loop of
      StoreEach, then the keys sorted for the closing log line. */
  method ReadNationFile(file: HeaderedFile, n: Nation, parse: DateParser, num: NumberParser) returns (r: Result<map<Option<Date>, UkRecord>>)
    ensures r == NationTable(file, n, parse, num)
  {
    var read := ReadRecords(file, n, parse, num);
    if read.Err? {
      return Err(read.msg);
    }
    var data := StoreEach(map[], RecordDates(read.value), read.value);
    if KeysSortable(data) {
      r := Ok(data);
    } else {
      r := Err("comparison of Date with nil failed");
    }
  }

  /** The national loader's state: the stored data revision and one table per nation. */
  class UkCovid19Data {
    var currentSha: string
    var england: map<Option<Date>, UkRecord>
    var northernIreland: map<Option<Date>, UkRecord>
    var scotland: map<Option<Date>, UkRecord>
    var wales: map<Option<Date>, UkRecord>
    var uk: map<Option<Date>, UkRecord>

    constructor ()
      ensures currentSha == "" && england == map[] && northernIreland == map[]
      ensures scotland == map[] && wales == map[] && uk == map[]
    {
      currentSha := "";
      england, northernIreland, scotland, wales, uk := map[], map[], map[], map[], map[];
    }

    /** The table loaded for a nation. */
    function TableOf(n: Nation): map<Option<Date>, UkRecord>
      reads this
    {
      match n
      case England => england
      case NorthernIreland => northernIreland
      case Scotland => scotland
      case Wales => wales
      case Uk => uk
    }

    /** `update_available?`: the remote revision differs from the stored one. */
    predicate UpdateAvailable(remoteSha: string)
      reads this
    {
      currentSha != remoteSha
    }

    /** Fetches `[only]` or every file, each when missing or when forced, where a changed remote
      revision forces; only a download of the full list records the remote revision. */
    method Download(only: Option<string>, force: bool, remoteSha: string, existing: set<string>) returns (fetched: seq<string>)
      modifies this
      ensures var files := if only.Some? then [only.value] else FILES;
        fetched == FetchPlan(files, existing, force || old(UpdateAvailable(remoteSha)))
      ensures currentSha == if only.None? then remoteSha else old(currentSha)
      ensures only.None? ==> !UpdateAvailable(remoteSha)
      ensures england == old(england) && northernIreland == old(northernIreland) && scotland == old(scotland)
      ensures wales == old(wales) && uk == old(uk)
    {
      var forced := force || UpdateAvailable(remoteSha);
      var files := if only.Some? then [only.value] else FILES;
      fetched := [];
      var i := 0;
      while i < |files|
        invariant 0 <= i <= |files|
        invariant fetched == FetchPlan(files[..i], existing, forced)
      {
        assert files[..i + 1][..i] == files[..i];
        if files[i] !in existing || forced {
          fetched := fetched + [files[i]];
        }
        i := i + 1;
      }
      assert files[..|files|] == files;
      if only.None? {
        currentSha := remoteSha;
      }
    }

    /** `load_uk`, `load_england`, ...: reads the nation's file into its table; a failed read
      leaves every table as it was. */
    method Load(n: Nation, file: HeaderedFile, parse: DateParser, num: NumberParser) returns (result: Result<()>)
      modifies this
      ensures var t := NationTable(file, n, parse, num);
        if t.Err? then result.Err? && TableOf(n) == old(TableOf(n))
        else result.Ok? && TableOf(n) == t.value
      ensures forall m :: m != n ==> TableOf(m) == old(TableOf(m))
      ensures currentSha == old(currentSha)
    {
      var t := ReadNationFile(file, n, parse, num);
      if t.Err? {
        return Err(t.msg);
      }
      SetTable(n, t.value);
      result := Ok(());
    }

    /** `@@england = load_(...)` and its siblings: one nation's table is replaced. */
    method SetTable(n: Nation, table: map<Option<Date>, UkRecord>)
      modifies this
      ensures TableOf(n) == table
      ensures forall m :: m != n ==> TableOf(m) == old(TableOf(m))
      ensures currentSha == old(currentSha)
    {
      match n {
        case England => england := table;
        case NorthernIreland => northernIreland := table;
        case Scotland => scotland := table;
        case Wales => wales := table;
        case Uk => uk := table;
      }
    }
  }
}
