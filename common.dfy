/** Value types and small conversions shared by every loader and table builder. */
module Common {

  datatype Option<T> = None | Some(value: T)

  /** A Ruby exception is an `Err` carrying the exception's message. */
  datatype Result<T> = Ok(value: T) | Err(msg: string)

  /** A calendar date, as a day number. */
  type Date = int

  /** One raw CSV field as the CSV reader hands it to a converter; `None` is an empty field. */
  type Cell = Option<string>

  /** Ruby's `Date.parse`; `None` stands for the ArgumentError it raises on text that is not a date. */
  type DateParser = string -> Option<Date>

  /** The normalisation constant: every scaled figure is "per NUMBERS_PER people". */
  const NUMBERS_PER: int := 100000

  const GRAND_TOTAL: string := "Grand Total"

  /** A floating-point quotient. Ruby yields Infinity or NaN when the divisor is zero; the model
      does not tell those two apart. */
  datatype Ratio = Quotient(q: real) | DivByZero

  function Divide(a: real, b: real): (r: Ratio)
    ensures r.Quotient? <==> b != 0.0
  {
    if b == 0.0 then DivByZero else Quotient(a / b)
  }

  /** A finite quotient times the divisor gives back the dividend. */
  lemma DivideExact(a: real, b: real)
    requires b != 0.0
    ensures Divide(a, b).q * b == a
  {
  }

  /** Ruby's `to_f` on a value that may be nil: nil becomes 0.0. */
  function ToF(x: Option<real>): real
  {
    if x.Some? then x.value else 0.0
  }

  /** `values.reject(&:nil?).sum`: the sum of the values that are present. */
  function SumPresent(xs: seq<Option<real>>): real
  {
    if |xs| == 0 then 0.0 else SumPresent(xs[..|xs| - 1]) + ToF(xs[|xs| - 1])
  }

  lemma {:induction false} SumPresentAppend(xs: seq<Option<real>>, ys: seq<Option<real>>)
    ensures SumPresent(xs + ys) == SumPresent(xs) + SumPresent(ys)
    decreases |ys|
  {
    if |ys| == 0 {
      assert xs + ys == xs;
    } else {
      assert (xs + ys)[..|xs + ys| - 1] == xs + ys[..|ys| - 1];
      SumPresentAppend(xs, ys[..|ys| - 1]);
    }
  }

  /** Absent values contribute nothing: the sum over values that are all nil is zero. */
  lemma {:induction false} SumPresentAllNil(xs: seq<Option<real>>)
    requires forall i :: 0 <= i < |xs| ==> xs[i].None?
    ensures SumPresent(xs) == 0.0
    decreases |xs|
  {
    if |xs| > 0 {
      SumPresentAllNil(xs[..|xs| - 1]);
    }
  }

  /** Store each key in turn with its value on top of `m`, as a Ruby loop of `h[k] = v` does:
      a later key overwrites an earlier one. */
  function Overwrite<K, V>(m: map<K, V>, keys: seq<K>, vals: seq<V>): (r: map<K, V>)
    requires |keys| == |vals|
    ensures r.Keys == m.Keys + set k | k in keys
    decreases |keys|
  {
    if |keys| == 0 then m
    else Overwrite(m, keys[..|keys| - 1], vals[..|vals| - 1])[keys[|keys| - 1] := vals[|vals| - 1]]
  }

  /** The loop `keys.each_with_index { |k, i| h[k] = vals[i] }` over a copy of `seed`. */
  method StoreEach<K, V>(seed: map<K, V>, keys: seq<K>, vals: seq<V>) returns (m: map<K, V>)
    requires |keys| == |vals|
    ensures m == Overwrite(seed, keys, vals)
  {
    m := seed;
    var i := 0;
    while i < |keys|
      invariant 0 <= i <= |keys|
      invariant m == Overwrite(seed, keys[..i], vals[..i])
    {
      assert keys[..i + 1][..i] == keys[..i] && vals[..i + 1][..i] == vals[..i];
      m := m[keys[i] := vals[i]];
      i := i + 1;
    }
    assert keys[..|keys|] == keys && vals[..|vals|] == vals;
  }

  /** The position of the last occurrence of `k`, or -1 when there is none. */
  function LastIndex<K(==)>(ks: seq<K>, k: K): (i: int)
    ensures -1 <= i < |ks|
    ensures i >= 0 ==> ks[i] == k
    ensures forall j :: i < j < |ks| ==> ks[j] != k
    ensures i < 0 <==> k !in ks
    decreases |ks|
  {
    if |ks| == 0 then -1
    else if ks[|ks| - 1] == k then |ks| - 1
    else LastIndex(ks[..|ks| - 1], k)
  }

  /** The position of the first occurrence of `k`, or -1 when there is none: where Ruby's
      `CSV::Row#[]` finds a header. */
  function FirstIndex<K(==)>(ks: seq<K>, k: K): (i: int)
    ensures -1 <= i < |ks|
    ensures i >= 0 ==> ks[i] == k
    ensures forall j :: 0 <= j < |ks| && (i < 0 || j < i) ==> ks[j] != k
    ensures i < 0 <==> k !in ks
  {
    if |ks| == 0 then -1
    else if ks[0] == k then 0
    else
      var i := FirstIndex(ks[1..], k);
      if i < 0 then -1 else i + 1
  }

  /** The first occurrence is the only position holding the key with none before it. */
  lemma FirstIndexUnique<K>(ks: seq<K>, k: K, i: int)
    requires 0 <= i < |ks| && ks[i] == k && forall j :: 0 <= j < i ==> ks[j] != k
    ensures FirstIndex(ks, k) == i
  {
  }

  /** Looking a key up after one more key is appended. */
  lemma FirstIndexAppend<K>(ks: seq<K>, k: K, x: K)
    ensures FirstIndex(ks + [k], x) == if x in ks then FirstIndex(ks, x) else if x == k then |ks| else -1
  {
    var ext := ks + [k];
    if x in ks {
      FirstIndexUnique(ext, x, FirstIndex(ks, x));
    } else if x == k {
      FirstIndexUnique(ext, x, |ks|);
    } else {
      assert x !in ext;
    }
  }

  /** After the overwrites a key holds the value stored with its last occurrence, and a key
      that was never stored keeps its value in `m`. */
  lemma {:induction false} OverwriteAt<K, V>(m: map<K, V>, keys: seq<K>, vals: seq<V>, k: K)
    requires |keys| == |vals|
    ensures k in keys ==> Overwrite(m, keys, vals)[k] == vals[LastIndex(keys, k)]
    ensures k !in keys && k in m ==> Overwrite(m, keys, vals)[k] == m[k]
    decreases |keys|
  {
    if |keys| > 0 {
      var n := |keys| - 1;
      var init, initVals := keys[..n], vals[..n];
      OverwriteAt(m, init, initVals, k);
      assert Overwrite(m, keys, vals) == Overwrite(m, init, initVals)[keys[n] := vals[n]];
      if keys[n] != k {
        assert LastIndex(keys, k) == LastIndex(init, k);
        assert k in keys ==> k in init by {
          if k in keys {
            var j :| 0 <= j < |keys| && keys[j] == k;
            assert init[j] == k;
          }
        }
        assert k in init ==> vals[LastIndex(init, k)] == initVals[LastIndex(init, k)];
      }
    }
  }

  /** Storing one more key after the others. */
  lemma OverwriteSnoc<K, V>(m: map<K, V>, keys: seq<K>, vals: seq<V>, k: K, v: V)
    requires |keys| == |vals|
    ensures Overwrite(m, keys + [k], vals + [v]) == Overwrite(m, keys, vals)[k := v]
  {
    assert (keys + [k])[..|keys|] == keys && (vals + [v])[..|vals|] == vals;
  }

  /** Ruby's `keys.zip(values).to_h`: a later key overwrites an earlier one. */
  function ZipToMap<K, V>(keys: seq<K>, vals: seq<V>): (m: map<K, V>)
    requires |keys| == |vals|
    ensures m.Keys == set k | k in keys
  {
    Overwrite(map[], keys, vals)
  }

  predicate Distinct<T(==)>(xs: seq<T>)
  {
    forall i, j :: 0 <= i < j < |xs| ==> xs[i] != xs[j]
  }

  /** With distinct keys, the map built by ZipToMap sends each key to the value at its position. */
  lemma ZipToMapAt<K, V>(keys: seq<K>, vals: seq<V>, i: nat)
    requires |keys| == |vals| && Distinct(keys) && i < |keys|
    ensures keys[i] in ZipToMap(keys, vals) && ZipToMap(keys, vals)[keys[i]] == vals[i]
  {
    OverwriteAt(map[], keys, vals, keys[i]);
  }

  /** Apply a conversion that may raise to every element, in order: the first failure is the
      result, as when Ruby's `map` meets an exception. */
  function MapResult<A, B>(xs: seq<A>, f: A -> Result<B>): (r: Result<seq<B>>)
    ensures r.Ok? <==> forall i :: 0 <= i < |xs| ==> f(xs[i]).Ok?
    ensures r.Ok? ==> |r.value| == |xs|
    ensures r.Ok? ==> forall i :: 0 <= i < |xs| ==> r.value[i] == f(xs[i]).value
    decreases |xs|
  {
    if |xs| == 0 then Ok([])
    else
      var n := |xs| - 1;
      var init := MapResult(xs[..n], f);
      var last := f(xs[n]);
      assert forall i :: 0 <= i < n ==> xs[..n][i] == xs[i];
      if init.Err? then Err(init.msg)
      else if last.Err? then Err(last.msg)
      else Ok(init.value + [last.value])
  }

  /** One failing element fails the whole map. */
  lemma MapResultFails<A, B>(xs: seq<A>, f: A -> Result<B>, i: nat)
    requires i < |xs| && f(xs[i]).Err?
    ensures MapResult(xs, f).Err?
  {
  }

  /** Ruby's `select` (or `reject` of the negation): the elements that pass, in their order. */
  function Filter<T>(xs: seq<T>, keep: T -> bool): (r: seq<T>)
    ensures |r| <= |xs|
    ensures forall i :: 0 <= i < |r| ==> r[i] in xs && keep(r[i])
    ensures forall i :: 0 <= i < |xs| && keep(xs[i]) ==> xs[i] in r
  {
    if |xs| == 0 then []
    else
      var init := Filter(xs[..|xs| - 1], keep);
      var last := xs[|xs| - 1];
      assert xs == xs[..|xs| - 1] + [last];
      if keep(last) then init + [last] else init
  }

  /** Filtering a sequence filters all but its last element, then keeps that one if it passes. */
  lemma FilterSnoc<T>(xs: seq<T>, keep: T -> bool)
    requires |xs| > 0
    ensures var n := |xs| - 1;
      Filter(xs, keep) == if keep(xs[n]) then Filter(xs[..n], keep) + [xs[n]] else Filter(xs[..n], keep)
  {
  }

  /** Around a kept element, the filtered sequence is the filtered prefix, that element, and the
      filtered suffix. */
  lemma FilterSplit<T>(xs: seq<T>, keep: T -> bool, i: nat)
    requires i < |xs| && keep(xs[i])
    ensures Filter(xs, keep) == Filter(xs[..i], keep) + [xs[i]] + Filter(xs[i + 1..], keep)
  {
    var head, tail := xs[..i + 1], xs[i + 1..];
    FilterUpTo(xs, keep, i);
    FilterAppend(head, tail, keep);
    assert head + tail == xs;
  }

  lemma FilterUpTo<T>(xs: seq<T>, keep: T -> bool, i: nat)
    requires i < |xs| && keep(xs[i])
    ensures Filter(xs[..i + 1], keep) == Filter(xs[..i], keep) + [xs[i]]
  {
    var head := xs[..i + 1];
    FilterSnoc(head, keep);
    assert head[..i] == xs[..i];
  }

  /** Filtering a concatenation filters each part in turn: the passing elements keep their order. */
  lemma {:induction false} FilterAppend<T>(xs: seq<T>, ys: seq<T>, keep: T -> bool)
    ensures Filter(xs + ys, keep) == Filter(xs, keep) + Filter(ys, keep)
    decreases |ys|
  {
    if |ys| == 0 {
      assert xs + ys == xs;
    } else {
      var n := |ys| - 1;
      assert (xs + ys)[..|xs + ys| - 1] == xs + ys[..n];
      assert ys == ys[..n] + [ys[n]];
      FilterAppend(xs, ys[..n], keep);
    }
  }

  /** A passing value is kept as many times as it occurs, and a failing one never. */
  lemma {:induction false} FilterCounts<T>(xs: seq<T>, keep: T -> bool, x: T)
    ensures multiset(Filter(xs, keep))[x] == if keep(x) then multiset(xs)[x] else 0
    decreases |xs|
  {
    if |xs| > 0 {
      var n := |xs| - 1;
      FilterCounts(xs[..n], keep, x);
      assert xs == xs[..n] + [xs[n]];
    }
  }

  /** The loaders log the first and last key of a finished table with `keys.sort`, which
      cannot compare a nil key with any other key. */
  predicate KeysSortable<V>(m: map<Option<Date>, V>)
  {
    None in m ==> |m| == 1
  }

  /** A file read with `headers: true`: its header row and its data rows, as split fields. */
  datatype HeaderedFile = HeaderedFile(header: seq<string>, rows: seq<seq<Cell>>)

  /** The header of a field; a field beyond the header row has a nil header. */
  function HeaderAt(header: seq<string>, j: nat): Option<string>
  {
    if j < |header| then Some(header[j]) else None
  }

  /** The field of a row at a position; a position past the end of the row reads as nil. */
  function At<T>(row: seq<Option<T>>, i: nat): Option<T>
  {
    if i < |row| then row[i] else None
  }

  /** The date converter of the regional loader: 'NA' becomes nil and other text goes through
      Date.parse. An empty field never reaches it: the converter before it in the chain returns
      nil, and the CSV reader stops converting a field once it is no longer a String. */
  function ConvertDate(cell: Cell, parse: DateParser): (r: Result<Option<Date>>)
    ensures r == Ok(None) <==> cell.None? || cell == Some("NA")
    ensures r.Ok? && r.value.Some? ==> cell.Some? && parse(cell.value) == r.value
    ensures r.Err? <==> cell.Some? && cell.value != "NA" && parse(cell.value).None?
  {
    match cell
    case None => Ok(None)
    case Some(text) =>
      if text == "NA" then Ok(None)
      else match parse(text)
        case None => Err("invalid date")
        case Some(d) => Ok(Some(d))
  }

  /** The date converter of the legacy pipeline: text goes through Date.parse with no 'NA' rule;
      as with ConvertDate, an empty field never reaches it. */
  function StrictDate(cell: Cell, parse: DateParser): (r: Result<Option<Date>>)
    ensures r == Ok(None) <==> cell.None?
    ensures r.Ok? && r.value.Some? ==> cell.Some? && parse(cell.value) == r.value
    ensures r.Err? <==> cell.Some? && parse(cell.value).None?
  {
    match cell
    case None => Ok(None)
    case Some(text) =>
      match parse(text)
      case None => Err("invalid date")
      case Some(d) => Ok(Some(d))
  }

  /** A bare `Date.parse(value)`, without the 'NA' rule; `Date.parse(nil)` raises a TypeError. */
  function ParseDate(cell: Cell, parse: DateParser): (r: Result<Date>)
    ensures r.Ok? <==> cell.Some? && parse(cell.value).Some?
    ensures r.Ok? ==> r.value == parse(cell.value).value
  {
    match cell
    case None => Err("no implicit conversion of nil into String")
    case Some(text) =>
      match parse(text)
      case None => Err("invalid date")
      case Some(d) => Ok(d)
  }

  /** The files a download fetches: each listed file that is missing, or every listed file when forced. */
  function FetchPlan(files: seq<string>, existing: set<string>, force: bool): (r: seq<string>)
    decreases |files|
  {
    if |files| == 0 then []
    else
      var rest := FetchPlan(files[..|files| - 1], existing, force);
      var f := files[|files| - 1];
      if f !in existing || force then rest + [f] else rest
  }

  lemma {:induction false} FetchPlanMembers(files: seq<string>, existing: set<string>, force: bool, f: string)
    ensures f in FetchPlan(files, existing, force) <==> f in files && (f !in existing || force)
    decreases |files|
  {
    if |files| > 0 {
      FetchPlanMembers(files[..|files| - 1], existing, force, f);
      assert files == files[..|files| - 1] + [files[|files| - 1]];
    }
  }

  /** When forced, every listed file is fetched, in the order of the list. */
  lemma {:induction false} FetchPlanForcedIsAll(files: seq<string>, existing: set<string>)
    ensures FetchPlan(files, existing, true) == files
    decreases |files|
  {
    if |files| > 0 {
      FetchPlanForcedIsAll(files[..|files| - 1], existing);
      assert files == files[..|files| - 1] + [files[|files| - 1]];
    }
  }
}
