/** Ruby's String#to_i (leading white space, an optional sign, then digits with single underscores
    between them) and String ordering, on strings as sequences of characters. */
module Strings {

  predicate IsDigit(c: char)
  {
    '0' <= c <= '9'
  }

  predicate AllDigits(s: string)
  {
    forall i :: 0 <= i < |s| ==> IsDigit(s[i])
  }

  /** The white space `to_i` skips before the number: space, tab, line feed, vertical tab, form
      feed and carriage return. */
  predicate IsSpace(c: char)
  {
    c == ' ' || c == '\t' || c == '\n' || c as int == 11 || c as int == 12 || c == '\r'
  }

  /** The length of the run of white space that starts the string. */
  function SpaceRun(s: string): (n: nat)
    ensures n <= |s| && forall i :: 0 <= i < n ==> IsSpace(s[i])
    ensures n < |s| ==> !IsSpace(s[n])
  {
    if |s| > 0 && IsSpace(s[0]) then 1 + SpaceRun(s[1..]) else 0
  }

  /** The digits `to_i` reads from the start of the string: a run of decimal digits in which a
      single underscore may stand between two digits, and is dropped. */
  function ScanDigits(s: string): (d: string)
    ensures AllDigits(d) && |d| <= |s|
  {
    if |s| == 0 || !IsDigit(s[0]) then ""
    else if |s| >= 3 && s[1] == '_' && IsDigit(s[2]) then [s[0]] + ScanDigits(s[2..])
    else [s[0]] + ScanDigits(s[1..])
  }

  /** The value of a string of decimal digits, most significant first. */
  function DigitsValue(s: string): nat
    requires AllDigits(s)
  {
    if |s| == 0 then 0 else DigitsValue(s[..|s| - 1]) * 10 + (s[|s| - 1] as int - '0' as int)
  }

  /** Ruby's `to_i`: leading white space is skipped, then an optional sign and the digits
      ScanDigits reads; anything else stops the scan, and a string without leading digits is 0. */
  function ToI(s: string): int
  {
    SignedValue(s[SpaceRun(s)..])
  }

  /** An optional sign followed by the digits ScanDigits reads. */
  function SignedValue(t: string): int
  {
    if |t| > 0 && (t[0] == '-' || t[0] == '+') then
      var v: int := DigitsValue(ScanDigits(t[1..]));
      if t[0] == '-' then -v else v
    else DigitsValue(ScanDigits(t))
  }

  /** The decimal spelling of a natural number, as Ruby's `to_s` writes it. */
  function Digits(n: nat): (s: string)
    ensures |s| > 0 && AllDigits(s)
  {
    if n < 10 then [('0' as int + n) as char]
    else Digits(n / 10) + [('0' as int + n % 10) as char]
  }

  lemma {:induction false} DigitsValueOfDigits(n: nat)
    ensures DigitsValue(Digits(n)) == n
  {
    if n >= 10 {
      var s := Digits(n);
      assert s[..|s| - 1] == Digits(n / 10);
      DigitsValueOfDigits(n / 10);
    }
  }

  /** `n.to_s.to_i == n` for every integer: to_i reads back what to_s writes. */
  lemma ToIOfDigits(n: nat)
    ensures ToI(Digits(n)) == n
    ensures ToI("-" + Digits(n)) == -(n as int)
  {
    var s := Digits(n);
    assert SpaceRun(s) == 0 && s[0..] == s;
    ScanDigitsAll(s);
    DigitsValueOfDigits(n);
    var t := "-" + s;
    assert SpaceRun(t) == 0 && t[0..] == t && t[1..] == s;
  }

  lemma {:induction false} ScanDigitsAll(s: string)
    requires AllDigits(s)
    ensures ScanDigits(s) == s
  {
    if |s| > 0 {
      ScanDigitsAll(s[1..]);
    }
  }

  lemma {:induction false} SpaceRunAppend(w: string, s: string)
    requires forall i :: 0 <= i < |w| ==> IsSpace(w[i])
    ensures SpaceRun(w + s) == |w| + SpaceRun(s)
    decreases |w|
  {
    if |w| > 0 {
      assert (w + s)[0] == w[0] && (w + s)[1..] == w[1..] + s;
      SpaceRunAppend(w[1..], s);
    } else {
      assert w + s == s;
    }
  }

  /** Leading white space does not change what `to_i` reads: `" 12".to_i` is 12. */
  lemma ToISkipsSpace(w: string, s: string)
    requires forall i :: 0 <= i < |w| ==> IsSpace(w[i])
    ensures ToI(w + s) == ToI(s)
  {
    SpaceRunAppend(w, s);
    assert (w + s)[|w| + SpaceRun(s)..] == s[SpaceRun(s)..];
  }

  /** A single underscore after a run of digits and before a digit is skipped. */
  lemma {:induction false} ScanDigitsUnderscore(a: string, b: string)
    requires |a| > 0 && AllDigits(a) && |b| > 0 && IsDigit(b[0])
    ensures ScanDigits(a + "_" + b) == a + ScanDigits(b)
    decreases |a|
  {
    var s := a + "_" + b;
    if |a| == 1 {
      assert s[1] == '_' && s[2] == b[0] && s[2..] == b;
    } else {
      assert s[1] == a[1] && s[1..] == a[1..] + "_" + b;
      ScanDigitsUnderscore(a[1..], b);
    }
  }

  /** An underscore between two runs of digits is read past: `"1_000".to_i` is 1000. */
  lemma ToIReadsPastUnderscore(a: string, b: string)
    requires |a| > 0 && AllDigits(a) && |b| > 0 && AllDigits(b)
    ensures ToI(a + "_" + b) == ToI(a + b)
  {
    var s, t := a + "_" + b, a + b;
    assert IsDigit(s[0]) && SpaceRun(s) == 0 && s[0..] == s;
    assert AllDigits(t) && IsDigit(t[0]) && SpaceRun(t) == 0 && t[0..] == t;
    ScanDigitsUnderscore(a, b);
    ScanDigitsAll(b);
    ScanDigitsAll(t);
  }

  /** The sentinels the loaders use for a missing figure read as 0 under to_i. */
  lemma SentinelsReadAsZero()
    ensures ToI("X") == 0 && ToI("*") == 0 && ToI("NA") == 0 && ToI("") == 0
  {
  }

  /** Ruby's String#<=> order: compare character by character; a proper prefix comes first. */
  predicate LexLess(a: string, b: string)
  {
    if |a| == 0 then |b| > 0
    else if |b| == 0 then false
    else a[0] < b[0] || (a[0] == b[0] && LexLess(a[1..], b[1..]))
  }

  lemma {:induction false} LexLessIrreflexive(a: string)
    ensures !LexLess(a, a)
  {
    if |a| > 0 {
      LexLessIrreflexive(a[1..]);
    }
  }

  lemma {:induction false} LexLessTransitive(a: string, b: string, c: string)
    requires LexLess(a, b) && LexLess(b, c)
    ensures LexLess(a, c)
  {
    if |a| > 0 && |b| > 0 && |c| > 0 && a[0] == b[0] == c[0] {
      LexLessTransitive(a[1..], b[1..], c[1..]);
    }
  }

  lemma {:induction false} LexLessTotal(a: string, b: string)
    requires a != b
    ensures LexLess(a, b) || LexLess(b, a)
  {
    if |a| > 0 && |b| > 0 && a[0] == b[0] {
      assert a == [a[0]] + a[1..] && b == [b[0]] + b[1..];
      LexLessTotal(a[1..], b[1..]);
    }
  }

  predicate StrictlySorted(xs: seq<string>)
  {
    forall i, j :: 0 <= i < j < |xs| ==> LexLess(xs[i], xs[j])
  }

  /** Two strictly sorted lists of the same strings are the same list: the sorted,
      de-duplicated order of a set of names is unique. */
  lemma {:induction false} StrictlySortedUnique(xs: seq<string>, ys: seq<string>)
    requires StrictlySorted(xs) && StrictlySorted(ys)
    requires forall s :: s in xs <==> s in ys
    ensures xs == ys
    decreases |xs|
  {
    if |xs| == 0 {
      HeadIsMember(ys);
    } else {
      assert xs[0] in ys;
      assert ys[0] in xs;
      if xs[0] != ys[0] {
        var i :| 0 <= i < |xs| && xs[i] == ys[0];
        var j :| 0 <= j < |ys| && ys[j] == xs[0];
        assert i > 0 && j > 0;
        LexLessTransitive(xs[0], ys[0], xs[0]);
        LexLessIrreflexive(xs[0]);
      }
      forall s ensures s in xs[1..] <==> s in ys[1..]
      {
        if s in xs[1..] {
          var i :| 1 <= i < |xs| && xs[i] == s;
          LexLessIrreflexive(s);
          assert s != ys[0];
          assert s in ys;
        }
        if s in ys[1..] {
          var j :| 1 <= j < |ys| && ys[j] == s;
          LexLessIrreflexive(s);
          assert s != xs[0];
          assert s in xs;
        }
      }
      StrictlySortedUnique(xs[1..], ys[1..]);
    }
  }

  lemma HeadIsMember(ys: seq<string>)
    ensures |ys| > 0 ==> ys[0] in ys
  {
  }

  /** Insert a name into a strictly sorted list of names that does not hold it. */
  function Insert(xs: seq<string>, x: string): seq<string>
  {
    if |xs| == 0 then [x]
    else if LexLess(x, xs[0]) then [x] + xs
    else [xs[0]] + Insert(xs[1..], x)
  }

  lemma {:induction false} InsertSorted(xs: seq<string>, x: string)
    requires StrictlySorted(xs) && x !in xs
    ensures StrictlySorted(Insert(xs, x))
    ensures forall s :: s in Insert(xs, x) <==> s in xs || s == x
  {
    if |xs| == 0 {
    } else if LexLess(x, xs[0]) {
      forall j | 0 < j < |xs| ensures LexLess(x, xs[j]) {
        LexLessTransitive(x, xs[0], xs[j]);
      }
    } else {
      LexLessTotal(x, xs[0]);
      InsertSorted(xs[1..], x);
      var r := Insert(xs[1..], x);
      forall s | s in r ensures LexLess(xs[0], s) {
        if s != x {
          var j :| 0 <= j < |xs[1..]| && xs[1..][j] == s;
          assert xs[j + 1] == s;
        }
      }
      assert xs == [xs[0]] + xs[1..];
    }
  }

  /** Ruby's `Array#sort` on strings, by insertion. */
  function Sort(xs: seq<string>): seq<string>
  {
    if |xs| == 0 then [] else Insert(Sort(xs[..|xs| - 1]), xs[|xs| - 1])
  }

  /** Sorting a list without repetitions gives the strictly ascending list of the same names. */
  lemma {:induction false} SortSpec(xs: seq<string>)
    requires forall i, j :: 0 <= i < j < |xs| ==> xs[i] != xs[j]
    ensures StrictlySorted(Sort(xs))
    ensures forall s :: s in Sort(xs) <==> s in xs
  {
    if |xs| > 0 {
      var init := xs[..|xs| - 1];
      SortSpec(init);
      assert xs == init + [xs[|xs| - 1]];
      InsertSorted(Sort(init), xs[|xs| - 1]);
    }
  }
}
