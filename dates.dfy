/** Date keys: sorting them, their minimum and maximum, and calendar ranges between two days. */
module Dates {
  import opened Common

  lemma Pick(s: set<Date>) returns (x: Date)
    requires s != {}
    ensures x in s
  {
    if forall y :: y !in s {
      assert false;
    }
    x :| x in s;
  }

  lemma {:induction false} MinWitness(s: set<Date>) returns (m: Date)
    requires s != {}
    ensures m in s && forall y :: y in s ==> m <= y
    decreases |s|
  {
    var x := Pick(s);
    if s == {x} {
      m := x;
    } else {
      var rest := s - {x};
      assert |rest| < |s|;
      var m' := MinWitness(rest);
      m := if x < m' then x else m';
      assert forall y :: y in s ==> y == x || y in rest;
    }
  }

  lemma {:induction false} MaxWitness(s: set<Date>) returns (m: Date)
    requires s != {}
    ensures m in s && forall y :: y in s ==> y <= m
    decreases |s|
  {
    var x := Pick(s);
    if s == {x} {
      m := x;
    } else {
      var rest := s - {x};
      assert |rest| < |s|;
      var m' := MaxWitness(rest);
      m := if x > m' then x else m';
      assert forall y :: y in s ==> y == x || y in rest;
    }
  }

  lemma HasMin(s: set<Date>)
    requires s != {}
    ensures exists m :: m in s && forall y :: y in s ==> m <= y
  {
    var m := MinWitness(s);
  }

  lemma HasMax(s: set<Date>)
    requires s != {}
    ensures exists m :: m in s && forall y :: y in s ==> y <= m
  {
    var m := MaxWitness(s);
  }

  /** `keys.min` of a non-empty set of dates. */
  function Earliest(s: set<Date>): (m: Date)
    requires s != {}
    ensures m in s && forall y :: y in s ==> m <= y
  {
    HasMin(s);
    var m :| m in s && forall y :: y in s ==> m <= y; m
  }

  /** `keys.max` of a non-empty set of dates. */
  function Latest(s: set<Date>): (m: Date)
    requires s != {}
    ensures m in s && forall y :: y in s ==> y <= m
  {
    HasMax(s);
    var m :| m in s && forall y :: y in s ==> y <= m; m
  }

  predicate Ascending(ds: seq<Date>)
  {
    forall i, j :: 0 <= i < j < |ds| ==> ds[i] < ds[j]
  }

  /** `keys.sort`: the dates of a set, each once, in ascending order. */
  function SortedDates(s: set<Date>): (r: seq<Date>)
    ensures Ascending(r)
    ensures forall d :: d in r <==> d in s
    ensures |r| == |s|
    decreases |s|
  {
    if s == {} then []
    else
      var m := Earliest(s);
      [m] + SortedDates(s - {m})
  }

  /** The dates of a key set that may hold nil. Ruby cannot sort nil against a Date, nor take
      their minimum, so a nil key is an error for every consumer. */
  function DateKeys(keys: set<Option<Date>>): (r: Result<set<Date>>)
    ensures r.Ok? <==> None !in keys
    ensures r.Ok? ==> forall d :: d in r.value <==> Some(d) in keys
  {
    if None in keys then Err("comparison of Date with nil failed")
    else
      var ds := set k | k in keys && k.Some? :: k.value;
      assert forall d: Date :: d in ds ==> Some(d) in keys;
      assert forall d: Date :: Some(d) in keys ==> d in ds by {
        forall d: Date | Some(d) in keys ensures d in ds { assert Some(d).value == d; }
      }
      Ok(ds)
  }

  /** The calendar range `lo..hi`, both ends included; empty when `lo > hi`. */
  function DayRange(lo: Date, hi: Date): (r: seq<Date>)
    ensures |r| == if lo <= hi then hi - lo + 1 else 0
    ensures forall i :: 0 <= i < |r| ==> r[i] == lo + i
    decreases hi - lo
  {
    if lo > hi then [] else [lo] + DayRange(lo + 1, hi)
  }

  lemma DayRangeMembers(lo: Date, hi: Date, d: Date)
    ensures d in DayRange(lo, hi) <==> lo <= d <= hi
  {
    if lo <= d <= hi {
      assert DayRange(lo, hi)[d - lo] == d;
    }
  }

  predicate AllNonEmpty(ks: seq<set<Date>>)
  {
    forall i :: 0 <= i < |ks| ==> ks[i] != {}
  }

  /** `[a.keys.min, b.keys.min, ...].min`. */
  function EarliestOfAll(ks: seq<set<Date>>): (m: Date)
    requires |ks| > 0 && AllNonEmpty(ks)
    ensures forall i, d :: 0 <= i < |ks| && d in ks[i] ==> m <= d
    ensures exists i :: 0 <= i < |ks| && m == Earliest(ks[i])
  {
    var here := Earliest(ks[|ks| - 1]);
    if |ks| == 1 then here
    else
      var before := EarliestOfAll(ks[..|ks| - 1]);
      if here < before then here else before
  }

  /** `[a.keys.max, b.keys.max, ...].max`. */
  function LatestOfAll(ks: seq<set<Date>>): (m: Date)
    requires |ks| > 0 && AllNonEmpty(ks)
    ensures forall i, d :: 0 <= i < |ks| && d in ks[i] ==> d <= m
    ensures exists i :: 0 <= i < |ks| && m == Latest(ks[i])
  {
    var here := Latest(ks[|ks| - 1]);
    if |ks| == 1 then here
    else
      var before := LatestOfAll(ks[..|ks| - 1]);
      if here > before then here else before
  }

  /** `[a.keys.min, b.keys.min, ...].max`. */
  function LatestStart(ks: seq<set<Date>>): (m: Date)
    requires |ks| > 0 && AllNonEmpty(ks)
    ensures forall i :: 0 <= i < |ks| ==> Earliest(ks[i]) <= m
    ensures exists i :: 0 <= i < |ks| && m == Earliest(ks[i])
  {
    var here := Earliest(ks[|ks| - 1]);
    if |ks| == 1 then here
    else
      var before := LatestStart(ks[..|ks| - 1]);
      if here > before then here else before
  }

  /** `[a.keys.max, b.keys.max, ...].min`. */
  function EarliestEnd(ks: seq<set<Date>>): (m: Date)
    requires |ks| > 0 && AllNonEmpty(ks)
    ensures forall i :: 0 <= i < |ks| ==> m <= Latest(ks[i])
    ensures exists i :: 0 <= i < |ks| && m == Latest(ks[i])
  {
    var here := Latest(ks[|ks| - 1]);
    if |ks| == 1 then here
    else
      var before := EarliestEnd(ks[..|ks| - 1]);
      if here < before then here else before
  }

  /** The days from the earliest start to the latest end: the range a raw multi-series table
      covers. Ruby raises when any series is empty (`[nil, date].min`). */
  function UnionRange(ks: seq<set<Date>>): (r: Result<seq<Date>>)
    requires |ks| > 0
    ensures r.Ok? <==> AllNonEmpty(ks)
  {
    if AllNonEmpty(ks) then Ok(DayRange(EarliestOfAll(ks), LatestOfAll(ks)))
    else Err("comparison of Date with nil failed")
  }

  /** The days from the latest start to the earliest end: the range a ratio table covers. */
  function IntersectionRange(ks: seq<set<Date>>): (r: Result<seq<Date>>)
    requires |ks| > 0
    ensures r.Ok? <==> AllNonEmpty(ks)
  {
    if AllNonEmpty(ks) then Ok(DayRange(LatestStart(ks), EarliestEnd(ks)))
    else Err("comparison of Date with nil failed")
  }

  /** Days without a gap, each the day after the one before. */
  predicate Consecutive(days: seq<Date>)
  {
    forall i :: 0 <= i < |days| ==> days[i] == days[0] + i
  }

  /** The days run without a gap from the earliest date of any series to the latest date of any
      series, and both ends are dates of some series. */
  ghost predicate SpansUnion(days: seq<Date>, ks: seq<set<Date>>)
  {
    |days| > 0 && Consecutive(days) &&
    (forall i, d :: 0 <= i < |ks| && d in ks[i] ==> days[0] <= d <= days[|days| - 1]) &&
    (exists i :: 0 <= i < |ks| && days[0] in ks[i]) &&
    (exists i :: 0 <= i < |ks| && days[|days| - 1] in ks[i])
  }

  /** The days run without a gap over exactly the days that lie between the first and the last
      date of every series. */
  ghost predicate SpansIntersection(days: seq<Date>, ks: seq<set<Date>>)
    requires AllNonEmpty(ks)
  {
    Consecutive(days) &&
    forall d :: d in days <==> forall i :: 0 <= i < |ks| ==> Earliest(ks[i]) <= d <= Latest(ks[i])
  }

  lemma UnionRangeSpans(ks: seq<set<Date>>)
    requires |ks| > 0 && AllNonEmpty(ks)
    ensures SpansUnion(UnionRange(ks).value, ks)
  {
    var lo, hi := EarliestOfAll(ks), LatestOfAll(ks);
    var days := UnionRange(ks).value;
    assert days == DayRange(lo, hi);
    var i :| 0 <= i < |ks| && lo == Earliest(ks[i]);
    var j :| 0 <= j < |ks| && hi == Latest(ks[j]);
    assert lo <= hi by {
      assert lo in ks[i];
    }
    assert days[0] == lo && days[|days| - 1] == hi;
  }

  lemma IntersectionRangeSpans(ks: seq<set<Date>>)
    requires |ks| > 0 && AllNonEmpty(ks)
    ensures SpansIntersection(IntersectionRange(ks).value, ks)
  {
    var lo, hi := LatestStart(ks), EarliestEnd(ks);
    var days := IntersectionRange(ks).value;
    assert days == DayRange(lo, hi);
    forall d ensures d in days <==> forall i :: 0 <= i < |ks| ==> Earliest(ks[i]) <= d <= Latest(ks[i]) {
      DayRangeMembers(lo, hi, d);
      if forall i :: 0 <= i < |ks| ==> Earliest(ks[i]) <= d <= Latest(ks[i]) {
        var i :| 0 <= i < |ks| && lo == Earliest(ks[i]);
        var j :| 0 <= j < |ks| && hi == Latest(ks[j]);
        assert lo <= d <= hi;
      }
    }
  }
}
