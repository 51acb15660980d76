/** The series the plots draw (make/plot.rb): rolling seven-day windows over the tables, day-over-day
    changes, the "no cases" test, the mobility comparisons and the checks made before drawing.
    The drawing itself is not part of this model. */
module PlotSeries {
  import opened Common
  import opened Dates
  import opened ScotlandData
  import opened UkData
  import opened Mobility
  import opened Tables
  import opened CsvTables

  // ---------------------------------------------------------------- sums and changes

  function Sum(xs: seq<real>): real
  {
    if |xs| == 0 then 0.0 else Sum(xs[..|xs| - 1]) + xs[|xs| - 1]
  }

  /** `each_cons(2) { |a, b| push b.to_f - a.to_f }`: the change from each value to the next,
      nil counting as 0. */
  function Deltas(xs: seq<Option<real>>): (ds: seq<real>)
    ensures |ds| == if |xs| == 0 then 0 else |xs| - 1
  {
    if |xs| == 0 then [] else seq(|xs| - 1, k requires 0 <= k < |xs| - 1 => ToF(xs[k + 1]) - ToF(xs[k]))
  }

  /** The changes add up to the difference between the last value and the first. */
  lemma {:induction false} DeltasTelescope(xs: seq<Option<real>>)
    requires |xs| > 0
    ensures Sum(Deltas(xs)) == ToF(xs[|xs| - 1]) - ToF(xs[0])
  {
    if |xs| > 1 {
      var n := |xs| - 1;
      var init := xs[..n];
      var ds, di := Deltas(xs), Deltas(init);
      DeltasTelescope(init);
      assert ds[..n - 1] == di;
      assert Sum(ds) == Sum(di) + ds[n - 1];
      assert ds[n - 1] == ToF(xs[n]) - ToF(xs[n - 1]);
      assert init[n - 1] == xs[n - 1] && init[0] == xs[0];
    }
  }

  /** The health-board plot's daily cases, built by a push loop. */
  method DailyChanges(cases: seq<Option<real>>) returns (daily: seq<real>)
    ensures daily == Deltas(cases)
  {
    daily := [];
    if |cases| == 0 {
      return;
    }
    var k := 0;
    while k < |cases| - 1
      invariant 0 <= k <= |cases| - 1 && |daily| == k
      invariant forall j :: 0 <= j < k ==> daily[j] == ToF(cases[j + 1]) - ToF(cases[j])
    {
      daily := daily + [ToF(cases[k + 1]) - ToF(cases[k])];
      k := k + 1;
    }
  }

  // ---------------------------------------------------------------- health-board plot

  /** `dates, cases, deaths = health_board(name).transpose`. */
  function HealthBoardDates(rows: seq<ShareRow>): seq<Date>
  {
    ShareDays(rows)
  }

  function HealthBoardCases(rows: seq<ShareRow>): seq<Option<real>>
  {
    seq(|rows|, k requires 0 <= k < |rows| => rows[k].cases)
  }

  function HealthBoardDeaths(rows: seq<ShareRow>): seq<Option<real>>
  {
    seq(|rows|, k requires 0 <= k < |rows| => rows[k].deaths)
  }

  /** The daily series is drawn against `dates[1..-1]`: each change is dated at the later of its two
      days, and over the table it adds up to the rise of the total. */
  lemma DailyCasesDated(rows: seq<ShareRow>)
    requires |rows| > 0
    ensures |Deltas(HealthBoardCases(rows))| == |HealthBoardDates(rows)[1..]|
    ensures forall k :: 0 <= k < |rows| - 1 ==>
      Deltas(HealthBoardCases(rows))[k] == ToF(rows[k + 1].cases) - ToF(rows[k].cases)
    ensures Sum(Deltas(HealthBoardCases(rows))) == ToF(rows[|rows| - 1].cases) - ToF(rows[0].cases)
  {
    DeltasTelescope(HealthBoardCases(rows));
  }

  /** `compact.max`: the largest value present, nil when none is. */
  function MaxPresent(xs: seq<Option<real>>): (m: Option<real>)
    ensures m.None? <==> forall k :: 0 <= k < |xs| ==> xs[k].None?
    ensures m.Some? ==> (exists k :: 0 <= k < |xs| && xs[k] == m) && forall k :: 0 <= k < |xs| && xs[k].Some? ==> xs[k].value <= m.value
  {
    if |xs| == 0 then None
    else
      var init, last := MaxPresent(xs[..|xs| - 1]), xs[|xs| - 1];
      assert forall k :: 0 <= k < |xs| - 1 ==> xs[..|xs| - 1][k] == xs[k];
      if last.None? then init
      else if init.None? || init.value <= last.value then last
      else init
  }

  /** `[cases.compact.max, deaths.compact.max].all?(0.0)`: nil matches no number. */
  predicate NoCases(rows: seq<ShareRow>)
  {
    MaxPresent(HealthBoardCases(rows)) == Some(0.0) && MaxPresent(HealthBoardDeaths(rows)) == Some(0.0)
  }

  /** Some figure of the series is 0 and none is above it. */
  ghost predicate PeaksAtZero(xs: seq<Option<real>>)
  {
    (exists k :: 0 <= k < |xs| && xs[k] == Some(0.0)) && forall k :: 0 <= k < |xs| && xs[k].Some? ==> xs[k].value <= 0.0
  }

  /** The board is shown as having no cases exactly when its largest case figure and its largest
      death figure are both 0; a series with no figure at all does not count as having none. */
  lemma NoCasesIff(rows: seq<ShareRow>)
    ensures NoCases(rows) <==> PeaksAtZero(HealthBoardCases(rows)) && PeaksAtZero(HealthBoardDeaths(rows))
  {
    PeakIsMax(HealthBoardCases(rows));
    PeakIsMax(HealthBoardDeaths(rows));
  }

  lemma PeakIsMax(xs: seq<Option<real>>)
    ensures MaxPresent(xs) == Some(0.0) <==> PeaksAtZero(xs)
  {
    if PeaksAtZero(xs) {
      var k :| 0 <= k < |xs| && xs[k] == Some(0.0);
      assert MaxPresent(xs).Some?;
    }
  }

  /** What the health-board plot does when the board has no cases: a target other than a file
      gets a message back, and otherwise the template picture is copied into place. */
  datatype NoCasesOutcome = Message(text: string) | CopyTemplate(to: string)

  datatype Target = FileTarget | ScreenTarget | OtherTarget(name: string)

  function NoCasesAction(name: string, target: Option<Target>, picture: string): (r: NoCasesOutcome)
    ensures r.Message? <==> target.Some? && target.value != FileTarget
  {
    if target.Some? && target.value != FileTarget then Message(name + " has no cases.") else CopyTemplate(picture)
  }

  // ---------------------------------------------------------------- smoothed board cases

  /** The board columns of a per-board table row the smoothed plot reads: `record[1]` to
      `record[14]`, whatever the number of boards. */
  const BOARD_SLOTS: nat := 14

  /** `record[i]` of a per-board row: `record[0]` is the date, nil past the end. */
  function RecordAt(row: Row<real>, i: nat): Option<real>
    requires i > 0
  {
    if i - 1 < |row.values| then row.values[i - 1] else None
  }

  /** The number of windows `each_cons(7)` yields. */
  function Windows(n: nat): nat
  {
    if n >= 7 then n - 6 else 0
  }

  /** The smoothed value of window `w`: `records.last[i].to_f - records.first[i].to_f`, the rise
      over the window's seven rows rather than a mean. */
  function Rise(rows: seq<Row<real>>, w: nat, i: nat): real
    requires w + 6 < |rows| && i > 0
  {
    ToF(RecordAt(rows[w + 6], i)) - ToF(RecordAt(rows[w], i))
  }

  function Rises(rows: seq<Row<real>>, n: nat, i: nat): (s: seq<real>)
    requires n <= Windows(|rows|) && i > 0
    ensures |s| == n
  {
    seq(n, w requires 0 <= w < n => Rise(rows, w, i))
  }

  /** A board's column of the table. */
  function BoardColumn(rows: seq<Row<real>>, i: nat): seq<Option<real>>
    requires i > 0
  {
    seq(|rows|, k requires 0 <= k < |rows| => RecordAt(rows[k], i))
  }

  /** The smoothed value is the sum of the window's six day-over-day changes. */
  lemma RiseIsWeekOfChanges(rows: seq<Row<real>>, w: nat, i: nat)
    requires w + 6 < |rows| && i > 0
    ensures Rise(rows, w, i) == Sum(Deltas(BoardColumn(rows, i)[w..w + 7]))
  {
    var window := BoardColumn(rows, i)[w..w + 7];
    DeltasTelescope(window);
    assert window[6] == RecordAt(rows[w + 6], i) && window[0] == RecordAt(rows[w], i);
  }

  /** `scotland_cases_by_health_board_smoothed`: the date of each window's last row, and one series
      of rises per board slot. */
  method SmoothedBoards(rows: seq<Row<real>>) returns (dates: seq<Option<Date>>, series: array<seq<real>>)
    ensures fresh(series) && series.Length == BOARD_SLOTS
    ensures |dates| == Windows(|rows|) && forall w :: 0 <= w < |dates| ==> dates[w] == rows[w + 6].date
    ensures forall i :: 0 <= i < BOARD_SLOTS ==> series[i] == Rises(rows, Windows(|rows|), i + 1)
  {
    series := new seq<real>[BOARD_SLOTS](_ => []);
    dates := [];
    var w := 0;
    while w + 6 < |rows|
      invariant w <= Windows(|rows|) && |dates| == w
      invariant forall v :: 0 <= v < w ==> dates[v] == rows[v + 6].date
      invariant forall i :: 0 <= i < BOARD_SLOTS ==> series[i] == Rises(rows, w, i + 1)
    {
      dates := dates + [rows[w + 6].date];
      var i := 0;
      while i < BOARD_SLOTS
        invariant 0 <= i <= BOARD_SLOTS
        invariant forall k :: 0 <= k < i ==> series[k] == Rises(rows, w + 1, k + 1)
        invariant forall k :: i <= k < BOARD_SLOTS ==> series[k] == Rises(rows, w, k + 1)
      {
        assert Rises(rows, w + 1, i + 1) == Rises(rows, w, i + 1) + [Rise(rows, w, i + 1)];
        series[i] := series[i] + [Rise(rows, w, i + 1)];
        i := i + 1;
      }
      w := w + 1;
    }
  }

  /** `data[1..-2]` of the smoothed plot's fifteen arrays, the first of which holds the dates: the
      board series it draws. */
  function SmoothedPlottedAsWritten(series: seq<seq<real>>): seq<seq<real>>
  {
    if |series| == 0 then [] else series[..|series| - 1]
  }

  /** With fourteen boards the fourteenth board's series is computed but never drawn: the range was
      taken from the unsmoothed plot, whose last array is the Grand Total. */
  lemma SmoothedPlotDropsLastBoard(series: seq<seq<real>>)
    requires |series| == BOARD_SLOTS
    ensures |SmoothedPlottedAsWritten(series)| == BOARD_SLOTS - 1
    ensures forall k :: 0 <= k < |SmoothedPlottedAsWritten(series)| ==> SmoothedPlottedAsWritten(series)[k] == series[k]
  {
  }

  /** The series the smoothed plot evidently means to draw: one per board, titled by the board at
      the same position. */
  function SmoothedPlotted(series: seq<seq<real>>, boards: seq<string>): seq<(string, seq<real>)>
    requires |boards| <= |series|
  {
    seq(|boards|, k requires 0 <= k < |boards| => (boards[k], series[k]))
  }

  /** With a series per board, every board is drawn under its own name, the fourteenth included,
      and nothing else is drawn. */
  lemma SmoothedPlotDrawsEveryBoard(series: seq<seq<real>>, boards: seq<string>)
    requires |boards| == |series| == BOARD_SLOTS
    ensures forall k :: 0 <= k < |boards| ==> (boards[k], series[k]) in SmoothedPlotted(series, boards)
    ensures forall p :: p in SmoothedPlotted(series, boards) ==> exists k :: 0 <= k < |boards| && p == (boards[k], series[k])
  {
    var plotted := SmoothedPlotted(series, boards);
    forall k | 0 <= k < |boards|
      ensures (boards[k], series[k]) in plotted
    {
      assert plotted[k] == (boards[k], series[k]);
    }
  }

  // ---------------------------------------------------------------- smoothed UK figures

  /** `record[k]` of a UK table row: `record[0]` is the date, nil past the end. */
  function DayAt(row: DayRow, k: nat): Option<real>
    requires k > 0
  {
    if k - 1 < |row.values| then row.values[k - 1] else None
  }

  /** The window's seven values of column `k`, nil as 0. */
  function WindowValues(rows: seq<DayRow>, w: nat, k: nat): (vs: seq<real>)
    requires w + 6 < |rows| && k > 0
    ensures |vs| == 7
  {
    seq(7, j requires 0 <= j < 7 => ToF(DayAt(rows[w + j], k)))
  }

  /** `records.map { |r| r[k].to_f }.sum / records.count` over a window of seven. */
  function WindowMean(rows: seq<DayRow>, w: nat, k: nat): real
    requires w + 6 < |rows| && k > 0
  {
    Sum(WindowValues(rows, w, k)) / 7.0
  }

  function Means(rows: seq<DayRow>, n: nat, k: nat): (s: seq<real>)
    requires n <= Windows(|rows|) && k > 0
    ensures |s| == n
  {
    seq(n, w requires 0 <= w < n => WindowMean(rows, w, k))
  }

  lemma {:induction false} SumSplit(xs: seq<real>, n: nat)
    requires n <= |xs|
    ensures Sum(xs) == Sum(xs[..n]) + Sum(xs[n..])
    decreases |xs|
  {
    if n < |xs| {
      var init := xs[..|xs| - 1];
      SumSplit(init, n);
      assert init[..n] == xs[..n];
      assert xs[n..] == init[n..] + [xs[|xs| - 1]];
      assert xs[n..][..|xs[n..]| - 1] == init[n..];
    } else {
      assert xs[..n] == xs;
    }
  }

  /** Moving the window on by a day changes the mean by a seventh of the day that enters less the
      day that leaves. */
  lemma MeanSlides(rows: seq<DayRow>, w: nat, k: nat)
    requires w + 7 < |rows| && k > 0
    ensures WindowMean(rows, w + 1, k) - WindowMean(rows, w, k) == (ToF(DayAt(rows[w + 7], k)) - ToF(DayAt(rows[w], k))) / 7.0
  {
    var a, b := WindowValues(rows, w, k), WindowValues(rows, w + 1, k);
    SumSplit(a, 1);
    SumSplit(b, 6);
    assert a[1..] == b[..6];
    assert Sum(a[..1]) == a[0] by { assert a[..1][..0] == []; }
    assert Sum(b[6..]) == b[6] by { assert b[6..][..0] == []; }
  }

  /** A window whose figures are all equal has that figure as its mean. */
  lemma {:induction false} SumOfSteady(xs: seq<real>, c: real)
    requires forall j :: 0 <= j < |xs| ==> xs[j] == c
    ensures Sum(xs) == |xs| as real * c
  {
    if |xs| > 0 {
      SumOfSteady(xs[..|xs| - 1], c);
    }
  }

  lemma MeanOfSteady(rows: seq<DayRow>, w: nat, k: nat, c: real)
    requires w + 6 < |rows| && k > 0
    requires forall j :: w <= j < w + 7 ==> ToF(DayAt(rows[j], k)) == c
    ensures WindowMean(rows, w, k) == c
  {
    var vs := WindowValues(rows, w, k);
    assert forall j :: 0 <= j < 7 ==> vs[j] == ToF(DayAt(rows[w + j], k));
    SumOfSteady(vs, c);
  }

  /** The smoothed nations: England, Scotland, Wales and Northern Ireland, `record[i + 5]` for `i`
      in 1 to 4, the daily half of the UK table. */
  const NATIONS_PLOTTED: nat := 4

  /** `uk_daily_cases_by_country_smoothed` and `uk_daily_deaths_by_country_smoothed`: the date of
      each window's last row and one series of means per nation. */
  method SmoothedNations(rows: seq<DayRow>) returns (dates: seq<Date>, series: array<seq<real>>)
    ensures fresh(series) && series.Length == NATIONS_PLOTTED
    ensures |dates| == Windows(|rows|) && forall w :: 0 <= w < |dates| ==> dates[w] == rows[w + 6].date
    ensures forall i :: 0 <= i < NATIONS_PLOTTED ==> series[i] == Means(rows, Windows(|rows|), i + 6)
  {
    series := new seq<real>[NATIONS_PLOTTED](_ => []);
    dates := [];
    var w := 0;
    while w + 6 < |rows|
      invariant w <= Windows(|rows|) && |dates| == w
      invariant forall v :: 0 <= v < w ==> dates[v] == rows[v + 6].date
      invariant forall i :: 0 <= i < NATIONS_PLOTTED ==> series[i] == Means(rows, w, i + 6)
    {
      dates := dates + [rows[w + 6].date];
      var i := 0;
      while i < NATIONS_PLOTTED
        invariant 0 <= i <= NATIONS_PLOTTED
        invariant forall k :: 0 <= k < i ==> series[k] == Means(rows, w + 1, k + 6)
        invariant forall k :: i <= k < NATIONS_PLOTTED ==> series[k] == Means(rows, w, k + 6)
      {
        assert Means(rows, w + 1, i + 6) == Means(rows, w, i + 6) + [WindowMean(rows, w, i + 6)];
        series[i] := series[i] + [WindowMean(rows, w, i + 6)];
        i := i + 1;
      }
      w := w + 1;
    }
  }

  /** The smoothed series read the daily figures of the UK table, England first. */
  lemma SmoothedNationsReadDaily(data: UkCovid19Data, cumulativeKey: FieldKey, dailyKey: FieldKey, r: nat)
    requires UkTable(data, cumulativeKey, dailyKey).Ok?
    requires r < |UkTable(data, cumulativeKey, dailyKey).value|
    ensures var row := UkTable(data, cumulativeKey, dailyKey).value[r];
      DayAt(row, 6) == Figure(data.england, row.date, dailyKey) &&
      DayAt(row, 7) == Figure(data.scotland, row.date, dailyKey) &&
      DayAt(row, 8) == Figure(data.wales, row.date, dailyKey) &&
      DayAt(row, 9) == Figure(data.northernIreland, row.date, dailyKey)
  {
    UkTableRows(data, cumulativeKey, dailyKey);
    var row := UkTable(data, cumulativeKey, dailyKey).value[r];
    assert row.values == UkDay(data, row.date, cumulativeKey, dailyKey);
  }

  /** With the keys make/data.rb passes, which the records never hold, every smoothed mean of
      every nation is 0.0: the nil figures read as 0. Series `k - 6` of SmoothedNations holds
      the means of column `k`. */
  lemma SmoothedNationsAsWrittenAreZero(data: UkCovid19Data, cumulativeKey: FieldKey, dailyKey: FieldKey)
    requires !HeldKey(cumulativeKey) && !HeldKey(dailyKey)
    requires UkTable(data, cumulativeKey, dailyKey).Ok?
    ensures var rows := UkTable(data, cumulativeKey, dailyKey).value;
      forall k, w :: 6 <= k < NATIONS_PLOTTED + 6 && 0 <= w < Windows(|rows|) ==> Means(rows, Windows(|rows|), k)[w] == 0.0
  {
    var rows := UkTable(data, cumulativeKey, dailyKey).value;
    UkTableAsWrittenIsBlank(data, cumulativeKey, dailyKey);
    UkTableRows(data, cumulativeKey, dailyKey);
    forall k, w | 6 <= k < NATIONS_PLOTTED + 6 && 0 <= w < Windows(|rows|)
      ensures Means(rows, Windows(|rows|), k)[w] == 0.0
    {
      MeanOfSteady(rows, w, k, 0.0);
    }
  }

  // ---------------------------------------------------------------- tests plots

  /** A row of `scotland_tests` as the plots index it: Date, Today Positive, Today Negative, Today
      Positive Rate, Total Positive, Total Negative. */
  function TestsRow(r: TestRecord): seq<CsvValue>
  {
    [OptDate(r.date), OfNumeric(r.todayPositive), OfNumeric(r.todayNegative), OfRatio(r.rate), OfNumeric(r.totalPositive), OfNumeric(r.totalNegative)]
  }

  /** `row[k]`, nil past the end. */
  function Col(row: seq<CsvValue>, k: nat): CsvValue
  {
    if k < |row| then row[k] else NilValue
  }

  /** A number in a row: an Integer or a Float. */
  predicate IsNumber(v: CsvValue)
  {
    v.IntValue? || v.RealValue?
  }

  function CsvReal(v: CsvValue): real
    requires IsNumber(v)
  {
    if v.IntValue? then v.n as real else v.x
  }

  /** Ruby's `+` on two row values: numbers add, an Integer only with an Integer staying one;
      two strings concatenate; nil has no `+`, a string cannot add a number nor a number a
      string. A rate is a Float, so it adds to a number on either side, and a rate that is not
      finite stays so. */
  function Plus(a: CsvValue, b: CsvValue): (r: Result<CsvValue>)
    ensures IsNumber(a) && IsNumber(b) ==> r.Ok? && IsNumber(r.value) && CsvReal(r.value) == CsvReal(a) + CsvReal(b)
    ensures IsNumber(a) && IsNumber(b) ==> (r.value.IntValue? <==> a.IntValue? && b.IntValue?)
    ensures a.NilValue? || b.NilValue? ==> r.Err?
    ensures a.TextValue? ==> (r.Ok? <==> b.TextValue?) && (r.Ok? ==> r.value == TextValue(a.text + b.text))
    ensures IsNumber(a) && b.TextValue? ==> r.Err?
    ensures (IsNumber(a) || a.RatioValue?) && (IsNumber(b) || b.RatioValue?) ==> r.Ok?
    ensures (IsNumber(a) || a.RatioValue?) && (IsNumber(b) || b.RatioValue?) && (a.RatioValue? || b.RatioValue?) ==>
      (r.value.RatioValue? <==> (a.RatioValue? && a.ratio.DivByZero?) || (b.RatioValue? && b.ratio.DivByZero?))
  {
    match (a, b)
    case (IntValue(x), IntValue(y)) => Ok(IntValue(x + y))
    case (IntValue(x), RealValue(y)) => Ok(RealValue(x as real + y))
    case (RealValue(x), IntValue(y)) => Ok(RealValue(x + y as real))
    case (RealValue(x), RealValue(y)) => Ok(RealValue(x + y))
    case (RatioValue(Quotient(q)), IntValue(y)) => Ok(RealValue(q + y as real))
    case (RatioValue(Quotient(q)), RealValue(y)) => Ok(RealValue(q + y))
    case (RatioValue(DivByZero), IntValue(_)) => Ok(RatioValue(DivByZero))
    case (RatioValue(DivByZero), RealValue(_)) => Ok(RatioValue(DivByZero))
    case (IntValue(x), RatioValue(Quotient(q))) => Ok(RealValue(x as real + q))
    case (RealValue(x), RatioValue(Quotient(q))) => Ok(RealValue(x + q))
    case (IntValue(_), RatioValue(DivByZero)) => Ok(RatioValue(DivByZero))
    case (RealValue(_), RatioValue(DivByZero)) => Ok(RatioValue(DivByZero))
    case (RatioValue(Quotient(p)), RatioValue(Quotient(q))) => Ok(RealValue(p + q))
    case (RatioValue(_), RatioValue(_)) => Ok(RatioValue(DivByZero))
    case (TextValue(x), TextValue(y)) => Ok(TextValue(x + y))
    case (TextValue(_), _) => Err("no implicit conversion into String")
    case (_, TextValue(_)) => Err("String can't be coerced into Integer")
    case _ => Err("undefined method '+' for nil or nil can't be coerced")
  }

  /** `record.push record[i] + record[j]` on one row. */
  function PushSum(row: seq<CsvValue>, i: nat, j: nat): Result<seq<CsvValue>>
  {
    match Plus(Col(row, i), Col(row, j))
    case Err(e) => Err(e)
    case Ok(s) => Ok(row + [s])
  }

  /** `.map { |record| record.push record[i] + record[j] }`. */
  function PushSums(rows: seq<seq<CsvValue>>, i: nat, j: nat): Result<seq<seq<CsvValue>>>
  {
    MapResult(rows, row => PushSum(row, i, j))
  }

  /** The rows of a successful `PushSums` are the rows each pushed with its own sum. */
  lemma PushSumsRows(rows: seq<seq<CsvValue>>, i: nat, j: nat)
    ensures PushSums(rows, i, j).Ok? <==> forall n :: 0 <= n < |rows| ==> PushSum(rows[n], i, j).Ok?
    ensures PushSums(rows, i, j).Ok? ==> (|PushSums(rows, i, j).value| == |rows| &&
      forall n :: 0 <= n < |rows| ==> PushSums(rows, i, j).value[n] == PushSum(rows[n], i, j).value)
  {
    var f := (row: seq<CsvValue>) => PushSum(row, i, j);
    assert PushSums(rows, i, j) == MapResult(rows, f);
  }

  /** Column `k` of the transposed rows. */
  function Column(rows: seq<seq<CsvValue>>, k: nat): seq<CsvValue>
  {
    seq(|rows|, n requires 0 <= n < |rows| => Col(rows[n], k))
  }

  /** The two filled series of a tests plot: the one titled Positive, drawn first, and the one
      titled Negative drawn over it. */
  datatype TestsPlot = TestsPlot(dates: seq<CsvValue>, positive: seq<CsvValue>, negative: seq<CsvValue>)

  function TestsRows(records: seq<TestRecord>): seq<seq<CsvValue>>
  {
    seq(|records|, n requires 0 <= n < |records| => TestsRow(records[n]))
  }

  /** `scotland_daily_tests` as written: it pushes `record[1] + record[2]` and draws columns 5
      and 2. */
  function DailyTestsAsWritten(records: seq<TestRecord>): Result<TestsPlot>
  {
    match PushSums(TestsRows(records), 1, 2)
    case Err(e) => Err(e)
    case Ok(rows) => Ok(TestsPlot(Column(rows, 0), Column(rows, 5), Column(rows, 2)))
  }

  /** `scotland_cumulative_tests` as written: it pushes `record[3] + record[4]` and draws columns
      5 and 4. */
  function CumulativeTestsAsWritten(records: seq<TestRecord>): Result<TestsPlot>
  {
    match PushSums(TestsRows(records), 3, 4)
    case Err(e) => Err(e)
    case Ok(rows) => Ok(TestsPlot(Column(rows, 0), Column(rows, 5), Column(rows, 4)))
  }

  /** The daily plot's Positive series is the cumulative count of negative tests, and the total
      it pushes is never drawn: the rate column the table gained moved every later column on by
      one. */
  lemma DailyTestsAsWrittenDrawsTotals(records: seq<TestRecord>)
    requires DailyTestsAsWritten(records).Ok?
    ensures forall n :: 0 <= n < |records| ==>
      DailyTestsAsWritten(records).value.positive[n] == OfNumeric(records[n].totalNegative) &&
      DailyTestsAsWritten(records).value.negative[n] == OfNumeric(records[n].todayNegative)
  {
    var rows := TestsRows(records);
    PushSumsRows(rows, 1, 2);
    forall n | 0 <= n < |records|
      ensures PushSums(rows, 1, 2).value[n][5] == OfNumeric(records[n].totalNegative)
      ensures PushSums(rows, 1, 2).value[n][2] == OfNumeric(records[n].todayNegative)
    {
      assert PushSums(rows, 1, 2).value[n] == PushSum(rows[n], 1, 2).value;
    }
  }

  /** The cumulative plot adds the positivity rate to the positive total, so a record without a
      rate, as every record of the old tests file is, stops the plot. */
  lemma CumulativeTestsAsWrittenFails(records: seq<TestRecord>, n: nat)
    requires n < |records| && records[n].rate.None?
    ensures CumulativeTestsAsWritten(records).Err?
  {
    var rows := TestsRows(records);
    PushSumsRows(rows, 3, 4);
    assert Col(rows[n], 3) == NilValue;
    assert PushSum(rows[n], 3, 4).Err?;
  }

  /** The columns the intended plots add: today's (1, 2) or the totals' (4, 5) positive and
      negative counts. */
  function SumColumns(cumulative: bool): (nat, nat)
  {
    if cumulative then (4, 5) else (1, 2)
  }

  /** The tests plots as evidently intended, with the table's own columns: Positive is the sum
      pushed at index 6, and Negative is the negative count it was summed with. */
  function TestsPlotOf(records: seq<TestRecord>, cumulative: bool): Result<TestsPlot>
  {
    var (p, q) := SumColumns(cumulative);
    match PushSums(TestsRows(records), p, q)
    case Err(e) => Err(e)
    case Ok(rows) => Ok(TestsPlot(Column(rows, 0), Column(rows, 6), Column(rows, q)))
  }

  /** The record has both counts the plot adds, and both read as numbers. */
  predicate Counted(r: TestRecord, cumulative: bool)
  {
    var (pos, neg) := if cumulative then (r.totalPositive, r.totalNegative) else (r.todayPositive, r.todayNegative);
    pos.Some? && pos.value.NumField? && neg.Some? && neg.value.NumField?
  }

  function PositiveCount(r: TestRecord, cumulative: bool): Option<NumericField>
  {
    if cumulative then r.totalPositive else r.todayPositive
  }

  /** One counted record pushes the sum of its counts, which less the negative count is the
      positive count. */
  lemma PushSumStacks(r: TestRecord, cumulative: bool)
    requires Counted(r, cumulative)
    ensures var (p, q) := SumColumns(cumulative);
      var pushed := PushSum(TestsRow(r), p, q);
      pushed.Ok? && |pushed.value| == 7 && IsNumber(pushed.value[6]) && IsNumber(pushed.value[q]) &&
      CsvReal(pushed.value[6]) - CsvReal(pushed.value[q]) == NumReal(PositiveCount(r, cumulative).value.num)
  {
    var (p, q) := SumColumns(cumulative);
    var row := TestsRow(r);
    assert IsNumber(row[p]) && IsNumber(row[q]);
    assert CsvReal(row[p]) == NumReal(PositiveCount(r, cumulative).value.num);
  }

  /** The intended plots draw for any counted records, and the band between the two series is
      the positive count. */
  lemma TestsPlotStacks(records: seq<TestRecord>, cumulative: bool)
    requires forall n :: 0 <= n < |records| ==> Counted(records[n], cumulative)
    ensures TestsPlotOf(records, cumulative).Ok?
    ensures var plot := TestsPlotOf(records, cumulative).value;
      |plot.positive| == |plot.negative| == |records| &&
      forall n :: 0 <= n < |records| ==>
        IsNumber(plot.positive[n]) && IsNumber(plot.negative[n]) &&
        CsvReal(plot.positive[n]) - CsvReal(plot.negative[n]) == NumReal(PositiveCount(records[n], cumulative).value.num)
  {
    var (p, q) := SumColumns(cumulative);
    var rows := TestsRows(records);
    PushSumsRows(rows, p, q);
    forall n | 0 <= n < |rows| ensures PushSum(rows[n], p, q).Ok? {
      PushSumStacks(records[n], cumulative);
    }
    var pushed: seq<seq<CsvValue>> := PushSums(rows, p, q).value;
    forall n | 0 <= n < |records|
      ensures IsNumber(pushed[n][6]) && IsNumber(pushed[n][q])
      ensures CsvReal(pushed[n][6]) - CsvReal(pushed[n][q]) == NumReal(PositiveCount(records[n], cumulative).value.num)
    {
      PushSumStacks(records[n], cumulative);
      assert pushed[n] == PushSum(rows[n], p, q).value;
    }
  }

  /** A count the `:numeric` converter left as text, such as 'NA', beside a numeric count stops
      the plot: a number cannot add a string, nor a string a number. */
  lemma TestsPlotTextFails(records: seq<TestRecord>, cumulative: bool, n: nat)
    requires n < |records|
    requires var (pos, neg) := if cumulative then (records[n].totalPositive, records[n].totalNegative)
        else (records[n].todayPositive, records[n].todayNegative);
      pos.Some? && neg.Some? && (pos.value.TextField? <==> neg.value.NumField?)
    ensures TestsPlotOf(records, cumulative).Err?
  {
    var (p, q) := SumColumns(cumulative);
    var rows := TestsRows(records);
    PushSumsRows(rows, p, q);
    assert rows[n] == TestsRow(records[n]);
    assert PushSum(rows[n], p, q).Err?;
  }

  // ---------------------------------------------------------------- mobility plots

  /** `data.keys - [nil, 'UK', 'Scotland']`: the regions `mobility_regions` draws. */
  function PlottedRegions(data: GoogleMobilityData): seq<Option<string>>
    reads data
  {
    Filter(SeriesKeys(data.data), k => k != None && k != Some(UK) && k != Some(SCOTLAND))
  }

  /** Every key but the country-wide ones and the two whole-area groups is drawn, and nothing
      else. */
  lemma PlottedRegionsSpec(data: GoogleMobilityData, k: Option<string>)
    ensures k in PlottedRegions(data) <==>
      (exists i :: 0 <= i < |data.data| && data.data[i].key == k) && k != None && k != Some(UK) && k != Some(SCOTLAND)
  {
    var keys := SeriesKeys(data.data);
    if exists i :: 0 <= i < |data.data| && data.data[i].key == k {
      var i :| 0 <= i < |data.data| && data.data[i].key == k;
      assert keys[i] == k;
    }
    if k in PlottedRegions(data) {
      var i :| 0 <= i < |keys| && keys[i] == k;
      assert data.data[i].key == k;
    }
  }

  /** The first UK reading of a day: `group_by(&:first)[date].first`. */
  function UkPointOn(uk: seq<Point>, d: Date): (p: Option<Point>)
    ensures p.Some? <==> exists j :: 0 <= j < |uk| && uk[j].date == d
    ensures p.Some? ==> exists j :: (0 <= j < |uk| && uk[j] == p.value && uk[j].date == d &&
      forall l :: 0 <= l < j ==> uk[l].date != d)
  {
    if |uk| == 0 then None
    else if uk[0].date == d then Some(uk[0])
    else
      var rest := UkPointOn(uk[1..], d);
      assert forall j :: 1 <= j < |uk| ==> uk[1..][j - 1] == uk[j];
      if rest.Some? then
        var j :| 0 <= j < |uk[1..]| && uk[1..][j] == rest.value && uk[1..][j].date == d &&
          forall l :: 0 <= l < j ==> uk[1..][l].date != d;
        assert uk[j + 1] == rest.value && forall l :: 0 <= l < j + 1 ==> uk[l].date != d;
        rest
      else rest
  }

  /** `reg[k]&.-(uk[k].to_i)`: nil where the region has no value, and a missing UK value counts
      as 0. */
  function Difference(reg: seq<int>, uk: seq<int>, k: nat): Option<int>
  {
    if k < |reg| then Some(reg[k] - (if k < |uk| then uk[k] else 0)) else None
  }

  datatype ComparisonRow = ComparisonRow(date: Date, diffs: seq<Option<int>>)

  function CompareOn(reg: Point, uk: Point): ComparisonRow
  {
    ComparisonRow(reg.date, seq(CATEGORIES, k requires 0 <= k < CATEGORIES => Difference(reg.values, uk.values, k)))
  }

  /** `data[key]` in a plot: the Hash's default block survives `transform_values!`, so a key with
      no series reads as an empty Hash, which `group_by` and `map` treat as no readings. */
  function SeriesOrEmpty(data: GoogleMobilityData, key: Option<string>): (s: seq<Point>)
    reads data
    ensures MobilityOf(data, key).Some? ==> s == MobilityOf(data, key).value
    ensures MobilityOf(data, key).None? ==> s == []
  {
    var m := MobilityOf(data, key);
    if m.Some? then m.value else []
  }

  /** A filter that keeps nothing leaves nothing. */
  lemma FilterNone<T>(xs: seq<T>, keep: T -> bool)
    requires forall x :: !keep(x)
    ensures Filter(xs, keep) == []
  {
  }

  /** `mobility_comparison(region)`: each region reading of a day the UK has, less the UK's. */
  function MobilityComparison(data: GoogleMobilityData, region: Option<string>): seq<ComparisonRow>
    reads data
  {
    var uk, reg := SeriesOrEmpty(data, Some(UK)), SeriesOrEmpty(data, region);
    var kept := Filter(reg, (p: Point) => UkPointOn(uk, p.date).Some?);
    seq(|kept|, n requires 0 <= n < |kept| => CompareOn(kept[n], UkPointOn(uk, kept[n].date).value))
  }

  /** Without a UK series or a series for the region the comparison has no rows, rather than
      raising. */
  lemma MobilityComparisonEmpty(data: GoogleMobilityData, region: Option<string>)
    requires MobilityOf(data, Some(UK)).None? || MobilityOf(data, region).None?
    ensures MobilityComparison(data, region) == []
  {
    var uk, reg := SeriesOrEmpty(data, Some(UK)), SeriesOrEmpty(data, region);
    var keep := (p: Point) => UkPointOn(uk, p.date).Some?;
    var kept := Filter(reg, keep);
    if uk == [] {
      FilterNone(reg, keep);
    } else {
      assert reg == [];
    }
    assert kept == [];
  }

  /** The row of a region reading: the region's value less the UK's first value that day. */
  ghost predicate ComparesOn(row: ComparisonRow, reg: seq<Point>, uk: seq<Point>)
  {
    exists m :: 0 <= m < |reg| && UkPointOn(uk, reg[m].date).Some? && row == CompareOn(reg[m], UkPointOn(uk, reg[m].date).value)
  }

  /** Every row compares a region reading of a day the UK has with the UK's reading. */
  lemma MobilityComparisonRows(data: GoogleMobilityData, region: Option<string>)
    ensures var rows, uk, reg := MobilityComparison(data, region), SeriesOrEmpty(data, Some(UK)), SeriesOrEmpty(data, region);
      forall n :: 0 <= n < |rows| ==> ComparesOn(rows[n], reg, uk)
  {
    var uk, reg := SeriesOrEmpty(data, Some(UK)), SeriesOrEmpty(data, region);
    var keep := (p: Point) => UkPointOn(uk, p.date).Some?;
    var kept := Filter(reg, keep);
    var rows := MobilityComparison(data, region);
    forall n | 0 <= n < |rows| ensures ComparesOn(rows[n], reg, uk) {
      assert kept[n] in reg && keep(kept[n]);
      var m :| 0 <= m < |reg| && reg[m] == kept[n];
      assert rows[n] == CompareOn(reg[m], UkPointOn(uk, reg[m].date).value);
    }
  }

  /** Every region reading of a day the UK has gets its row. */
  lemma MobilityComparisonComplete(data: GoogleMobilityData, region: Option<string>)
    ensures var rows, uk, reg := MobilityComparison(data, region), SeriesOrEmpty(data, Some(UK)), SeriesOrEmpty(data, region);
      forall m :: 0 <= m < |reg| && UkPointOn(uk, reg[m].date).Some? ==> CompareOn(reg[m], UkPointOn(uk, reg[m].date).value) in rows
  {
    var uk, reg := SeriesOrEmpty(data, Some(UK)), SeriesOrEmpty(data, region);
    var keep := (p: Point) => UkPointOn(uk, p.date).Some?;
    var kept := Filter(reg, keep);
    var rows := MobilityComparison(data, region);
    forall m | 0 <= m < |reg| && UkPointOn(uk, reg[m].date).Some?
      ensures CompareOn(reg[m], UkPointOn(uk, reg[m].date).value) in rows
    {
      assert keep(reg[m]);
      var n :| 0 <= n < |kept| && kept[n] == reg[m];
      assert rows[n] == CompareOn(reg[m], UkPointOn(uk, reg[m].date).value);
    }
  }

  // ---------------------------------------------------------------- checks before drawing

  /** Where `basic_plot` draws. */
  datatype Terminal = PngFile(filename: string) | Window

  /** `basic_plot`'s target: a file needs a file name, the screen needs none, and any other target
      is refused. */
  function PlotTerminal(target: Target, filename: Option<string>): (r: Result<Terminal>)
    ensures r.Ok? <==> (target == FileTarget && filename.Some?) || target == ScreenTarget
    ensures r.Ok? && target == FileTarget ==> r.value == PngFile(filename.value)
    ensures r.Ok? && target == ScreenTarget ==> r.value == Window
  {
    match target
    case FileTarget => if filename.Some? then Ok(PngFile(filename.value)) else Err("filename must be passed when target is :file")
    case ScreenTarget => Ok(Window)
    case OtherTarget(name) => Err(name + " is not a valid target.")
  }

  /** `health_board` and `health_board_comparison` refuse a name that is not a board, and
      `country_comparison` one that is not a nation. */
  function CheckName(known: bool, name: string, what: string): (r: Result<string>)
    ensures r.Ok? <==> known
  {
    if known then Ok(name) else Err(name + " is not a known " + what)
  }

  /** The nations `country_comparison` accepts are those the country table accepts. */
  lemma CountryPlotChecksName(name: string)
    ensures CheckName(name in ["England", "Scotland", "Wales", "Northern Ireland"], name, "country").Ok? <==> CountryNamed(name).Some?
  {
  }
}
