/**
 * Python string operations the system relies on: `str.split` and
 * `str.join` on a one-character separator, `str.startswith`,
 * `str.endswith`, substring tests, `str.replace`, `str(int)` and the
 * code-point order `sorted` uses on file names, and `int()` of a string.
 */
module Text {
  import opened Wrappers

  /** `s.split(c)`: never empty; no part contains the separator. */
  function Split(s: string, c: char): (r: seq<string>)
    ensures |r| >= 1
    ensures forall i :: 0 <= i < |r| ==> c !in r[i]
    decreases |s|
  {
    if |s| == 0 then [""]
    else if s[0] == c then [""] + Split(s[1..], c)
    else
      var rest := Split(s[1..], c);
      [[s[0]] + rest[0]] + rest[1..]
  }

  /** `c.join(parts)`. */
  function Join(parts: seq<string>, c: char): string
  {
    if |parts| == 0 then ""
    else if |parts| == 1 then parts[0]
    else parts[0] + [c] + Join(parts[1..], c)
  }

  lemma {:induction false} SplitJoin(s: string, c: char)
    ensures Join(Split(s, c), c) == s
    decreases |s|
  {
    if |s| == 0 {
    } else if s[0] == c {
      SplitJoin(s[1..], c);
      assert s == [c] + s[1..];
    } else {
      SplitJoin(s[1..], c);
      var rest := Split(s[1..], c);
      var parts := Split(s, c);
      assert parts == [[s[0]] + rest[0]] + rest[1..];
      assert s == [s[0]] + s[1..];
      if |rest| == 1 {
        assert Join(rest, c) == rest[0];
        assert Join(parts, c) == [s[0]] + rest[0];
      } else {
        assert parts[1..] == rest[1..];
        assert Join(rest, c) == rest[0] + [c] + Join(rest[1..], c);
        assert Join(parts, c) == ([s[0]] + rest[0]) + [c] + Join(rest[1..], c);
      }
    }
  }

  lemma {:induction false} JoinSplit(parts: seq<string>, c: char)
    requires |parts| >= 1
    requires forall i :: 0 <= i < |parts| ==> c !in parts[i]
    ensures Split(Join(parts, c), c) == parts
    decreases |parts|, |parts[0]|
  {
    if |parts[0]| == 0 {
      if |parts| == 1 {
      } else {
        var tail := Join(parts[1..], c);
        assert Join(parts, c) == [c] + tail;
        JoinSplit(parts[1..], c);
        assert ([c] + tail)[1..] == tail;
        assert [""] + parts[1..] == parts;
      }
    } else {
      var p0 := parts[0];
      var shorter := [p0[1..]] + parts[1..];
      assert shorter[1..] == parts[1..];
      forall i | 0 <= i < |shorter| ensures c !in shorter[i] {
        if i == 0 {
          assert forall x :: x in p0[1..] ==> x in p0;
        } else {
          assert shorter[i] == parts[i];
        }
      }
      JoinSplit(shorter, c);
      JoinHead(parts, c);
      SplitHead(p0[0], Join(shorter, c), c);
      assert p0 == [p0[0]] + p0[1..];
    }
  }

  /** Joining starts with the first character of a non-empty first part. */
  lemma JoinHead(parts: seq<string>, c: char)
    requires |parts| >= 1 && |parts[0]| > 0
    ensures Join(parts, c) == [parts[0][0]] + Join([parts[0][1..]] + parts[1..], c)
  {
    var shorter := [parts[0][1..]] + parts[1..];
    assert shorter[1..] == parts[1..];
    assert parts[0] == [parts[0][0]] + parts[0][1..];
  }

  /** A leading character other than the separator joins the first part. */
  lemma SplitHead(x: char, s: string, c: char)
    requires x != c
    ensures Split([x] + s, c) == [[x] + Split(s, c)[0]] + Split(s, c)[1..]
  {
    assert ([x] + s)[1..] == s;
  }

  /** A string without the separator splits into itself. */
  lemma {:induction false} SplitNoSep(s: string, c: char)
    requires c !in s
    ensures Split(s, c) == [s]
    decreases |s|
  {
    if |s| > 0 {
      SplitNoSep(s[1..], c);
      assert s == [s[0]] + s[1..];
    }
  }

  /** A leading part without the separator comes off as the first part. */
  lemma {:induction false} SplitSep(p: string, s: string, c: char)
    requires c !in p
    ensures Split(p + [c] + s, c) == [p] + Split(s, c)
    decreases |p|
  {
    if |p| == 0 {
      assert p + [c] + s == [c] + s;
      assert ([c] + s)[1..] == s;
    } else {
      var rest := p[1..] + [c] + s;
      assert p + [c] + s == [p[0]] + rest;
      SplitSep(p[1..], s, c);
      SplitHead(p[0], rest, c);
      assert p == [p[0]] + p[1..];
    }
  }

  /** The last part is whatever follows the last separator. */
  lemma {:induction false} SplitLast(a: string, s: string, c: char)
    requires c !in s
    ensures |Split(a + [c] + s, c)| >= 2
    ensures Split(a + [c] + s, c)[|Split(a + [c] + s, c)| - 1] == s
    decreases |a|
  {
    var whole := a + [c] + s;
    if |a| == 0 {
      assert whole == [c] + s;
      assert whole[1..] == s;
      SplitNoSep(s, c);
    } else {
      var rest := a[1..] + [c] + s;
      assert whole == [a[0]] + rest;
      assert whole[1..] == rest;
      SplitLast(a[1..], s, c);
    }
  }

  predicate StartsWith(s: string, prefix: string) {
    |prefix| <= |s| && s[..|prefix|] == prefix
  }

  predicate EndsWith(s: string, suffix: string) {
    |suffix| <= |s| && s[|s| - |suffix|..] == suffix
  }

  /** `t in s` for strings. */
  predicate Contains(s: string, t: string)
    decreases |s|
  {
    StartsWith(s, t) || (|s| > 0 && Contains(s[1..], t))
  }

  /** `s.replace(needle, rep)`: non-overlapping, left to right. */
  function Replace(s: string, needle: string, rep: string): string
    decreases |s|
  {
    if |needle| == 0 then
      if |s| == 0 then rep else rep + [s[0]] + Replace(s[1..], needle, rep)
    else if StartsWith(s, needle) then rep + Replace(s[|needle|..], needle, rep)
    else if |s| == 0 then s
    else [s[0]] + Replace(s[1..], needle, rep)
  }

  lemma {:induction false} ReplaceAbsent(s: string, needle: string, rep: string)
    requires !Contains(s, needle)
    ensures Replace(s, needle, rep) == s
    decreases |s|
  {
    if |s| > 0 {
      ReplaceAbsent(s[1..], needle, rep);
      assert s == [s[0]] + s[1..];
    }
  }

  /** A replacement only changes where the needle occurs. */
  lemma {:induction false} ReplaceAppendsPrefix(s: string, t: string, needle: string, rep: string)
    requires |needle| > 0 && !Contains(s, [needle[0]])
    ensures Replace(s + t, needle, rep) == s + Replace(t, needle, rep)
    decreases |s|
  {
    if |s| > 0 {
      assert StartsWith(s, [needle[0]]) == (s[0] == needle[0]);
      assert !StartsWith(s + t, needle);
      assert (s + t)[1..] == s[1..] + t;
      ReplaceAppendsPrefix(s[1..], t, needle, rep);
    } else {
      assert s + t == t;
    }
  }

  function DigitChar(d: nat): char
    requires d < 10
  {
    "0123456789"[d]
  }

  /** `str(n)` for a natural number. */
  function NatToString(n: nat): (r: string)
    ensures |r| >= 1
    ensures forall i :: 0 <= i < |r| ==> '0' <= r[i] <= '9'
  {
    if n < 10 then [DigitChar(n)] else NatToString(n / 10) + [DigitChar(n % 10)]
  }

  /** The order Python's `sorted` puts strings in (code point by code point). */
  predicate StrLe(a: string, b: string)
    decreases |a|
  {
    |a| == 0 || (|b| > 0 && (a[0] < b[0] || (a[0] == b[0] && StrLe(a[1..], b[1..]))))
  }

  lemma {:induction false} StrLeReflexive(a: string)
    ensures StrLe(a, a)
    decreases |a|
  {
    if |a| > 0 {
      StrLeReflexive(a[1..]);
    }
  }

  lemma {:induction false} StrLeTotal(a: string, b: string)
    ensures StrLe(a, b) || StrLe(b, a)
    decreases |a|
  {
    if |a| > 0 && |b| > 0 && a[0] == b[0] {
      StrLeTotal(a[1..], b[1..]);
    }
  }

  lemma {:induction false} StrLeTransitive(a: string, b: string, c: string)
    requires StrLe(a, b) && StrLe(b, c)
    ensures StrLe(a, c)
    decreases |a|
  {
    if |a| > 0 && a[0] == b[0] && b[0] == c[0] {
      StrLeTransitive(a[1..], b[1..], c[1..]);
    }
  }

  lemma {:induction false} StrLeAntisymmetric(a: string, b: string)
    requires StrLe(a, b) && StrLe(b, a)
    ensures a == b
    decreases |a|
  {
    if |a| > 0 {
      StrLeAntisymmetric(a[1..], b[1..]);
      assert a == [a[0]] + a[1..] && b == [b[0]] + b[1..];
    }
  }

  predicate SortedStrings(s: seq<string>) {
    forall i, j :: 0 <= i < j < |s| ==> StrLe(s[i], s[j])
  }

  predicate NoDup<T(==)>(s: seq<T>) {
    forall i, j :: 0 <= i < j < |s| ==> s[i] != s[j]
  }

  /** The smallest string of a non-empty set. */
  method MinOf(s: set<string>) returns (m: string)
    requires s != {}
    ensures m in s && forall x :: x in s ==> StrLe(m, x)
  {
    m :| m in s;
    var todo := s - {m};
    StrLeTotal(m, m);
    while todo != {}
      invariant todo <= s && m in s
      invariant forall x :: x in s - todo ==> StrLe(m, x)
      decreases |todo|
    {
      var y :| y in todo;
      StrLeReflexive(y);
      if !StrLe(m, y) {
        StrLeTotal(m, y);
        forall x | x in s - todo ensures StrLe(y, x) {
          StrLeTransitive(y, m, x);
        }
        m := y;
      }
      todo := todo - {y};
    }
  }

  /** A non-empty set of strings has a smallest element. */
  lemma {:induction false} HasMin(s: set<string>)
    requires s != {}
    ensures exists m :: m in s && forall x :: x in s ==> StrLe(m, x)
    decreases |s|
  {
    var y :| y in s;
    StrLeReflexive(y);
    if s != {y} {
      var rest := s - {y};
      HasMin(rest);
      var m :| m in rest && forall x :: x in rest ==> StrLe(m, x);
      StrLeTotal(m, y);
      if StrLe(m, y) {
        assert m in s && forall x :: x in s ==> StrLe(m, x);
      } else {
        forall x | x in s ensures StrLe(y, x) {
          if x != y {
            StrLeTransitive(y, m, x);
          }
        }
      }
    } else {
      assert forall x :: x in s ==> x == y;
    }
  }

  /** The names of `s` in ascending order: what `sorted` makes of a set. */
  ghost function SortedSet(s: set<string>): (r: seq<string>)
    ensures SortedStrings(r) && NoDup(r)
    ensures forall x :: x in r <==> x in s
    decreases |s|
  {
    if s == {} then []
    else
      HasMin(s);
      var m :| m in s && forall x :: x in s ==> StrLe(m, x);
      var rest := SortedSet(s - {m});
      assert forall i :: 0 <= i < |rest| ==> rest[i] in s - {m};
      [m] + rest
  }

  /** Two ascending lists without repeats that hold the same names are the same list. */
  lemma {:induction false} SortedUnique(a: seq<string>, b: seq<string>)
    requires SortedStrings(a) && NoDup(a) && SortedStrings(b) && NoDup(b)
    requires forall x :: x in a <==> x in b
    ensures a == b
    decreases |a|
  {
    if |a| > 0 {
      assert a[0] in a && b != [] && b[0] in b;
      StrLeReflexive(a[0]);
      StrLeReflexive(b[0]);
      var i :| 0 <= i < |b| && b[i] == a[0];
      var j :| 0 <= j < |a| && a[j] == b[0];
      assert StrLe(b[0], a[0]);
      assert StrLe(a[0], b[0]);
      StrLeAntisymmetric(a[0], b[0]);
      forall x ensures x in a[1..] <==> x in b[1..] {
        if x in a[1..] {
          var k :| 1 <= k < |a| && a[k] == x;
          assert x != a[0] && x in b;
        }
        if x in b[1..] {
          var k :| 1 <= k < |b| && b[k] == x;
          assert x != b[0] && x in a;
        }
      }
      SortedUnique(a[1..], b[1..]);
      assert a == [a[0]] + a[1..] && b == [b[0]] + b[1..];
    }
  }

  /** `sorted(names)` for a set of distinct names, as `files.sort()` after `os.listdir`. */
  method SortedList(s: set<string>) returns (r: seq<string>)
    ensures SortedStrings(r) && NoDup(r)
    ensures forall x :: x in r <==> x in s
    ensures r == SortedSet(s)
  {
    r := [];
    var rest := s;
    while rest != {}
      invariant rest <= s
      invariant forall x :: x in r <==> x in s - rest
      invariant SortedStrings(r) && NoDup(r)
      invariant forall i, x :: 0 <= i < |r| && x in rest ==> StrLe(r[i], x)
      decreases |rest|
    {
      var m := MinOf(rest);
      forall i | 0 <= i < |r| ensures r[i] != m {
        assert r[i] in r;
        assert r[i] !in rest;
      }
      r := r + [m];
      rest := rest - {m};
    }
    SortedUnique(r, SortedSet(s));
  }

  /** `list.sort(key=key)` with a string key: stable, ascending. */
  function SortByName<T>(s: seq<T>, key: T -> string): (r: seq<T>)
    ensures |r| == |s|
  {
    if |s| == 0 then [] else InsertByName(s[0], SortByName(s[1..], key), key)
  }

  /** Insert `x` before the first element whose key is not smaller. */
  function InsertByName<T>(x: T, t: seq<T>, key: T -> string): (r: seq<T>)
    ensures |r| == |t| + 1
  {
    if |t| == 0 || StrLe(key(x), key(t[0])) then [x] + t
    else [t[0]] + InsertByName(x, t[1..], key)
  }

  predicate SortedByName<T>(s: seq<T>, key: T -> string) {
    forall i, j :: 0 <= i < j < |s| ==> StrLe(key(s[i]), key(s[j]))
  }

  lemma {:induction false} InsertByNameMultiset<T>(x: T, t: seq<T>, key: T -> string)
    ensures multiset(InsertByName(x, t, key)) == multiset{x} + multiset(t)
  {
    if |t| > 0 && !StrLe(key(x), key(t[0])) {
      InsertByNameMultiset(x, t[1..], key);
      assert t == [t[0]] + t[1..];
    }
  }

  lemma SortedByNameTail<T>(t: seq<T>, key: T -> string)
    requires SortedByName(t, key) && |t| > 0
    ensures SortedByName(t[1..], key)
    ensures forall y :: y in t[1..] ==> StrLe(key(t[0]), key(y))
  {
    var tl := t[1..];
    forall i, j | 0 <= i < j < |tl| ensures StrLe(key(tl[i]), key(tl[j])) {
      assert tl[i] == t[i + 1] && tl[j] == t[j + 1];
    }
    forall y | y in tl ensures StrLe(key(t[0]), key(y)) {
      var m :| 0 <= m < |tl| && tl[m] == y;
      assert t[m + 1] == y;
    }
  }

  /** A head at or below every element of a sorted rest keeps it sorted. */
  lemma SortedByNameCons<T>(h: T, rest: seq<T>, key: T -> string)
    requires SortedByName(rest, key)
    requires forall y :: y in rest ==> StrLe(key(h), key(y))
    ensures SortedByName([h] + rest, key)
  {
    var r := [h] + rest;
    forall i, j | 0 <= i < j < |r| ensures StrLe(key(r[i]), key(r[j])) {
      assert r[j] == rest[j - 1];
      if i > 0 {
        assert r[i] == rest[i - 1];
      }
    }
  }

  lemma {:induction false} InsertByNameSorted<T>(x: T, t: seq<T>, key: T -> string)
    requires SortedByName(t, key)
    ensures SortedByName(InsertByName(x, t, key), key)
  {
    if |t| == 0 || StrLe(key(x), key(t[0])) {
      forall y | y in t ensures StrLe(key(x), key(y)) {
        var m :| 0 <= m < |t| && t[m] == y;
        if m > 0 {
          StrLeTransitive(key(x), key(t[0]), key(y));
        }
      }
      SortedByNameCons(x, t, key);
    } else {
      var tl := t[1..];
      SortedByNameTail(t, key);
      InsertByNameSorted(x, tl, key);
      InsertByNameMultiset(x, tl, key);
      StrLeTotal(key(x), key(t[0]));
      forall y | y in InsertByName(x, tl, key) ensures StrLe(key(t[0]), key(y)) {
        assert y in multiset(InsertByName(x, tl, key));
      }
      SortedByNameCons(t[0], InsertByName(x, tl, key), key);
    }
  }

  /** The sort is ordered by key and a permutation of its input. */
  lemma {:induction false} SortByNameFacts<T>(s: seq<T>, key: T -> string)
    ensures SortedByName(SortByName(s, key), key)
    ensures multiset(SortByName(s, key)) == multiset(s)
  {
    if |s| > 0 {
      SortByNameFacts(s[1..], key);
      InsertByNameSorted(s[0], SortByName(s[1..], key), key);
      InsertByNameMultiset(s[0], SortByName(s[1..], key), key);
      assert s == [s[0]] + s[1..];
    }
  }

  // ----- `int()` on strings -----

  /** The value of a decimal digit. */
  function DigitValue(c: char): (d: int)
    ensures '0' <= c <= '9' ==> 0 <= d < 10
  {
    c as int - '0' as int
  }

  predicate AllDigits(s: string) {
    forall i :: 0 <= i < |s| ==> '0' <= s[i] <= '9'
  }

  /** The number a string of decimal digits spells, most significant first. */
  function Decimal(s: string): (n: nat)
    requires AllDigits(s)
    decreases |s|
  {
    if |s| == 0 then 0 else Decimal(s[..|s| - 1]) * 10 + DigitValue(s[|s| - 1])
  }

  /**
   * `int(s)` for a string: an optional sign and at least one decimal
   * digit; anything else raises `ValueError`.
   */
  function ParseInt(s: string): (r: Result<int>)
    ensures r.Ok? <==> ((|s| > 0 && AllDigits(s)) ||
      (|s| > 1 && (s[0] == '-' || s[0] == '+') && AllDigits(s[1..])))
  {
    if |s| > 0 && AllDigits(s) then Ok(Decimal(s))
    else if |s| > 1 && s[0] == '-' && AllDigits(s[1..]) then Ok(-(Decimal(s[1..]) as int))
    else if |s| > 1 && s[0] == '+' && AllDigits(s[1..]) then Ok(Decimal(s[1..]))
    else Err(ValueError("invalid literal for int() with base 10"))
  }

  lemma DigitRoundTrip(d: nat)
    requires d < 10
    ensures '0' <= DigitChar(d) <= '9' && DigitValue(DigitChar(d)) == d
  {
  }

  /** Reading back what `str` writes for a natural number gives the number. */
  lemma {:induction false} DecimalRoundTrip(n: nat)
    ensures AllDigits(NatToString(n)) && Decimal(NatToString(n)) == n
    decreases n
  {
    var s := NatToString(n);
    if n < 10 {
      DigitRoundTrip(n);
    } else {
      DecimalRoundTrip(n / 10);
      DigitRoundTrip(n % 10);
      assert s[..|s| - 1] == NatToString(n / 10);
    }
  }

  lemma ParseDigits(t: string)
    requires |t| > 0 && AllDigits(t)
    ensures ParseInt(t) == Ok(Decimal(t))
  {
  }
}
