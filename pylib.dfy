/**
 * Python list and number semantics used throughout: `int(x)` on a float,
 * slicing with negative or out-of-range bounds, and the stable `sort`
 * (`list.sort(key=...)`, also with `reverse=True`).
 */
module PyLib {

  /** `int(x)` for a float: truncation toward zero. */
  function Trunc(x: real): (r: int)
    ensures x >= 0.0 ==> 0 <= r && r as real <= x < r as real + 1.0
    ensures x < 0.0 ==> r <= 0 && r as real - 1.0 < x <= r as real
  {
    if x >= 0.0 then x.Floor else -((-x).Floor)
  }

  /** `int(n * rate)`: the cut point every splitter and selector uses. */
  function Cut(n: nat, rate: real): (k: int)
    ensures 0.0 <= rate <= 1.0 ==> 0 <= k <= n
    ensures 0.0 <= rate ==> k as real <= n as real * rate < k as real + 1.0
  {
    var x := n as real * rate;
    ScaleBound(n, rate, x);
    Trunc(x)
  }

  lemma ScaleBound(n: nat, rate: real, x: real)
    requires x == n as real * rate
    ensures 0.0 <= rate ==> 0.0 <= x
    ensures 0.0 <= rate <= 1.0 ==> x <= n as real
  {
    if 0.0 <= rate <= 1.0 {
      assert n as real * rate <= n as real * 1.0;
    }
  }

  /** The position a slice bound `i` denotes in a list of length `n`. */
  function Clamp(i: int, n: nat): (r: nat)
    ensures r <= n
    ensures 0 <= i <= n ==> r == i
    ensures -(n as int) <= i < 0 ==> r == n + i
    ensures i > n ==> r == n
    ensures i < -(n as int) ==> r == 0
  {
    if i < 0 then (if i + n < 0 then 0 else i + n) else if i > n then n else i
  }

  lemma MulAtLeast(a: int, m: nat)
    requires a >= 1
    ensures a * m >= m
  {
    assert a * m == (a - 1) * m + m;
  }

  /** Division by `m` undoes `x * m + y` for a remainder below `m`. */
  lemma DivModOf(x: nat, y: nat, m: nat)
    requires y < m
    ensures (x * m + y) / m == x && (x * m + y) % m == y
  {
    var k := x * m + y;
    var q, r := k / m, k % m;
    assert q * m + r == x * m + y;
    if q > x {
      MulAtLeast(q - x, m);
    } else if q < x {
      MulAtLeast(x - q, m);
    }
  }

  /** `k + m` holds one more `m` than `k` does. */
  lemma DivNext(k: nat, m: nat)
    requires m > 0
    ensures (k + m) / m == k / m + 1
  {
    var q, r := k / m, k % m;
    assert k + m == (q + 1) * m + r;
    DivModOf(q + 1, r, m);
  }

  /** `s[a:]`. */
  function From<T>(s: seq<T>, a: int): seq<T> {
    s[Clamp(a, |s|)..]
  }

  /** `s[:b]`. */
  function Upto<T>(s: seq<T>, b: int): seq<T> {
    s[..Clamp(b, |s|)]
  }

  /** `s[a:b]`. */
  function Slice<T>(s: seq<T>, a: int, b: int): seq<T> {
    var lo := Clamp(a, |s|);
    var hi := Clamp(b, |s|);
    if lo <= hi then s[lo..hi] else []
  }

  /** `s[:k] + s[k:]` is `s` whatever `k` is, so a cut loses and repeats nothing. */
  lemma CutPartition<T>(s: seq<T>, k: int)
    ensures Upto(s, k) + From(s, k) == s
    ensures multiset(Upto(s, k)) + multiset(From(s, k)) == multiset(s)
  {
    var c := Clamp(k, |s|);
    assert s[..c] + s[c..] == s;
  }

  /** The items of `s` are pairwise distinct. */
  predicate Distinct<T(==)>(s: seq<T>) {
    forall i, j :: 0 <= i < j < |s| ==> s[i] != s[j]
  }

  lemma DistinctCut<T>(s: seq<T>, k: int)
    requires Distinct(s)
    ensures Distinct(Upto(s, k)) && Distinct(From(s, k))
    ensures forall x :: x in Upto(s, k) ==> x !in From(s, k)
  {
    var c := Clamp(k, |s|);
    forall i, j | 0 <= i < c && 0 <= j < |s| - c ensures s[..c][i] != s[c..][j] {
      assert s[c..][j] == s[c + j];
    }
  }

  /** Distinct items are exactly items of multiplicity at most one. */
  lemma {:induction false} DistinctMultiset<T>(s: seq<T>)
    ensures Distinct(s) <==> forall x :: multiset(s)[x] <= 1
  {
    if Distinct(s) {
      forall x ensures multiset(s)[x] <= 1 {
        DistinctCount(s, x);
      }
    }
    if !Distinct(s) {
      var i, j :| 0 <= i < j < |s| && s[i] == s[j];
      assert s == s[..j] + s[j..];
      assert s[i] in s[..j] && s[j] in s[j..];
      assert multiset(s)[s[i]] == multiset(s[..j])[s[i]] + multiset(s[j..])[s[i]];
    }
  }

  lemma {:induction false} DistinctCount<T>(s: seq<T>, x: T)
    requires Distinct(s)
    ensures multiset(s)[x] <= 1
  {
    if |s| > 0 {
      assert s == [s[0]] + s[1..];
      assert Distinct(s[1..]) by {
        forall i, j | 0 <= i < j < |s| - 1 ensures s[1..][i] != s[1..][j] {
          assert s[1..][i] == s[i + 1] && s[1..][j] == s[j + 1];
        }
      }
      DistinctCount(s[1..], x);
      if x == s[0] {
        assert x !in s[1..] by {
          forall k | 0 <= k < |s| - 1 ensures s[1..][k] != s[0] {
            assert s[1..][k] == s[k + 1];
          }
        }
      }
    }
  }

  /** A reordering of distinct items is distinct. */
  lemma PermutationDistinct<T>(a: seq<T>, b: seq<T>)
    requires multiset(a) == multiset(b) && Distinct(a)
    ensures Distinct(b)
  {
    DistinctMultiset(a);
    DistinctMultiset(b);
  }

  /** `a + b` is distinct exactly when both are and they share no item. */
  lemma DistinctConcat<T>(a: seq<T>, b: seq<T>)
    ensures Distinct(a + b) <==> Distinct(a) && Distinct(b) && forall x :: x in a ==> x !in b
  {
    if Distinct(a + b) {
      forall i, j | 0 <= i < j < |a| ensures a[i] != a[j] {
        assert (a + b)[i] == a[i] && (a + b)[j] == a[j];
      }
      forall i, j | 0 <= i < j < |b| ensures b[i] != b[j] {
        assert (a + b)[|a| + i] == b[i] && (a + b)[|a| + j] == b[j];
      }
      forall i, j | 0 <= i < |a| && 0 <= j < |b| ensures a[i] != b[j] {
        assert (a + b)[i] == a[i] && (a + b)[|a| + j] == b[j];
      }
    }
    if Distinct(a) && Distinct(b) && forall x :: x in a ==> x !in b {
      forall i, j | 0 <= i < j < |a + b| ensures (a + b)[i] != (a + b)[j] {
        if j < |a| {
        } else if i >= |a| {
          assert (a + b)[i] == b[i - |a|] && (a + b)[j] == b[j - |a|];
        } else {
          assert (a + b)[i] == a[i] && (a + b)[j] == b[j - |a|];
          assert a[i] in a;
        }
      }
    }
  }

  /**
   * Two lists that together are a reordering of a distinct list are
   * distinct and share no item.
   */
  lemma SplitOfDistinct<T>(a: seq<T>, b: seq<T>, s: seq<T>)
    requires multiset(a) + multiset(b) == multiset(s) && Distinct(s)
    ensures Distinct(a) && Distinct(b)
    ensures forall x :: x in a ==> x !in b
  {
    DistinctMultiset(s);
    forall x ensures multiset(a)[x] <= 1 && multiset(b)[x] <= 1 {
      assert multiset(s)[x] == multiset(a)[x] + multiset(b)[x];
    }
    DistinctMultiset(a);
    DistinctMultiset(b);
    forall x | x in a ensures x !in b {
      assert multiset(s)[x] == multiset(a)[x] + multiset(b)[x];
    }
  }

  /** `l1 + l2 + ...`, the way a loop of `acc += l` builds it. */
  function Flatten<T>(gs: seq<seq<T>>): seq<T> {
    if |gs| == 0 then [] else Flatten(gs[..|gs| - 1]) + gs[|gs| - 1]
  }

  lemma {:induction false} FlattenMember<T>(gs: seq<seq<T>>, x: T)
    ensures x in Flatten(gs) <==> exists i :: 0 <= i < |gs| && x in gs[i]
  {
    if |gs| > 0 {
      var init := gs[..|gs| - 1];
      FlattenMember(init, x);
      if x in Flatten(init) {
        var i :| 0 <= i < |init| && x in init[i];
        assert gs[i] == init[i];
      }
      if exists i :: 0 <= i < |gs| && x in gs[i] {
        var i :| 0 <= i < |gs| && x in gs[i];
        if i < |gs| - 1 {
          assert init[i] == gs[i];
        }
      }
    }
  }

  lemma {:induction false} FlattenConcat<T>(a: seq<seq<T>>, b: seq<seq<T>>)
    ensures Flatten(a + b) == Flatten(a) + Flatten(b)
    decreases |b|
  {
    if |b| == 0 {
      assert a + b == a;
    } else {
      var b' := b[..|b| - 1];
      assert (a + b)[..|a + b| - 1] == a + b';
      FlattenConcat(a, b');
    }
  }

  /** Items spread over pairwise disjoint distinct groups are distinct. */
  lemma {:induction false} FlattenDistinct<T>(gs: seq<seq<T>>)
    requires forall i :: 0 <= i < |gs| ==> Distinct(gs[i])
    requires forall i, j, x :: 0 <= i < j < |gs| && x in gs[i] ==> x !in gs[j]
    ensures Distinct(Flatten(gs))
  {
    if |gs| > 0 {
      var init := gs[..|gs| - 1];
      var last := gs[|gs| - 1];
      FlattenDistinct(init);
      forall x | x in Flatten(init) ensures x !in last {
        FlattenMember(init, x);
        var i :| 0 <= i < |init| && x in init[i];
        assert init[i] == gs[i];
      }
      DistinctConcat(Flatten(init), last);
    }
  }

  /** The converse of `FlattenDistinct`: the groups of a distinct concatenation are distinct and disjoint. */
  lemma {:induction false} DistinctFlattenParts<T>(gs: seq<seq<T>>, i: nat, j: nat, x: T)
    requires Distinct(Flatten(gs)) && i < |gs| && j < |gs|
    ensures Distinct(gs[i])
    ensures i != j && x in gs[i] ==> x !in gs[j]
  {
    var init := gs[..|gs| - 1];
    var last := gs[|gs| - 1];
    DistinctConcat(Flatten(init), last);
    if i < |gs| - 1 && j < |gs| - 1 {
      DistinctFlattenParts(init, i, j, x);
      assert init[i] == gs[i] && init[j] == gs[j];
    } else if i < |gs| - 1 {
      DistinctFlattenParts(init, i, i, x);
      assert init[i] == gs[i];
      FlattenMember(init, x);
    } else if j < |gs| - 1 {
      assert init[j] == gs[j];
      FlattenMember(init, x);
    }
  }

  /** `n·r0 + n·r1 <= n` when the rates sum to at most one. */
  lemma ScaleSum(n: real, r0: real, r1: real)
    requires n >= 0.0 && r0 + r1 <= 1.0
    ensures n * r0 + n * r1 <= n
  {
    assert n * r0 + n * r1 == n * (r0 + r1);
    MulNonneg(n, 1.0 - (r0 + r1));
  }

  lemma MulNonneg(a: real, b: real)
    requires a >= 0.0 && b >= 0.0
    ensures a * b >= 0.0
  {
  }

  /** Reordering each group reorders the whole. */
  lemma {:induction false} FlattenPermutation<T>(gs: seq<seq<T>>, hs: seq<seq<T>>)
    requires |gs| == |hs| && forall i :: 0 <= i < |gs| ==> multiset(gs[i]) == multiset(hs[i])
    ensures multiset(Flatten(gs)) == multiset(Flatten(hs))
  {
    if |gs| > 0 {
      FlattenPermutation(gs[..|gs| - 1], hs[..|hs| - 1]);
    }
  }

  /** `sorted(s, key=key)`: stable, ascending. */
  function SortBy<T>(s: seq<T>, key: T -> real): (r: seq<T>)
    ensures |r| == |s|
  {
    if |s| == 0 then [] else InsertBy(s[0], SortBy(s[1..], key), key)
  }

  /** Insert `x` before the first element whose key is not smaller. */
  function InsertBy<T>(x: T, t: seq<T>, key: T -> real): (r: seq<T>)
    ensures |r| == |t| + 1
  {
    if |t| == 0 || key(x) <= key(t[0]) then [x] + t
    else [t[0]] + InsertBy(x, t[1..], key)
  }

  /** `sorted(s, key=key, reverse=True)`: stable, descending. */
  function SortByDescending<T>(s: seq<T>, key: T -> real): seq<T> {
    SortBy(s, Negated(key))
  }

  /** The key `reverse=True` sorts by. */
  function Negated<T>(key: T -> real): T -> real {
    x => -key(x)
  }

  predicate SortedBy<T>(s: seq<T>, key: T -> real) {
    forall i, j :: 0 <= i < j < |s| ==> key(s[i]) <= key(s[j])
  }

  lemma {:induction false} InsertByMultiset<T>(x: T, t: seq<T>, key: T -> real)
    ensures multiset(InsertBy(x, t, key)) == multiset{x} + multiset(t)
  {
    if |t| == 0 || key(x) <= key(t[0]) {
    } else {
      InsertByMultiset(x, t[1..], key);
      assert t == [t[0]] + t[1..];
    }
  }

  lemma {:induction false} InsertBySorted<T>(x: T, t: seq<T>, key: T -> real)
    requires SortedBy(t, key)
    ensures SortedBy(InsertBy(x, t, key), key)
  {
    if |t| == 0 || key(x) <= key(t[0]) {
      forall y | y in t ensures key(x) <= key(y) {
        var m :| 0 <= m < |t| && t[m] == y;
      }
      SortedCons(x, t, key);
    } else {
      var tl := t[1..];
      SortedTail(t, key);
      InsertBySorted(x, tl, key);
      InsertByBelow(t, x, key);
      SortedCons(t[0], InsertBy(x, tl, key), key);
    }
  }

  lemma SortedTail<T>(t: seq<T>, key: T -> real)
    requires SortedBy(t, key) && |t| > 0
    ensures SortedBy(t[1..], key)
    ensures forall y :: y in t[1..] ==> key(t[0]) <= key(y)
  {
    var tl := t[1..];
    forall i, j | 0 <= i < j < |tl| ensures key(tl[i]) <= key(tl[j]) {
      assert tl[i] == t[i + 1] && tl[j] == t[j + 1];
    }
    forall y | y in tl ensures key(t[0]) <= key(y) {
      var m :| 0 <= m < |tl| && tl[m] == y;
      assert t[m + 1] == y;
    }
  }

  /** Inserting `x` into the tail keeps everything at or above the head. */
  lemma InsertByBelow<T>(t: seq<T>, x: T, key: T -> real)
    requires |t| > 0 && key(t[0]) < key(x)
    requires forall y :: y in t[1..] ==> key(t[0]) <= key(y)
    ensures forall y :: y in InsertBy(x, t[1..], key) ==> key(t[0]) <= key(y)
  {
    InsertByMultiset(x, t[1..], key);
    forall y | y in InsertBy(x, t[1..], key) ensures key(t[0]) <= key(y) {
      assert y in multiset(InsertBy(x, t[1..], key));
    }
  }

  /** A head at or below every element of a sorted rest keeps it sorted. */
  lemma SortedCons<T>(h: T, rest: seq<T>, key: T -> real)
    requires SortedBy(rest, key)
    requires forall y :: y in rest ==> key(h) <= key(y)
    ensures SortedBy([h] + rest, key)
  {
    var r := [h] + rest;
    forall i, j | 0 <= i < j < |r| ensures key(r[i]) <= key(r[j]) {
      assert r[j] == rest[j - 1];
      if i > 0 {
        assert r[i] == rest[i - 1];
      }
    }
  }

  /** The sort is ordered by key and a permutation of its input. */
  lemma {:induction false} SortByFacts<T>(s: seq<T>, key: T -> real)
    ensures SortedBy(SortBy(s, key), key)
    ensures multiset(SortBy(s, key)) == multiset(s)
  {
    if |s| > 0 {
      SortByFacts(s[1..], key);
      InsertBySorted(s[0], SortBy(s[1..], key), key);
      InsertByMultiset(s[0], SortBy(s[1..], key), key);
      assert s == [s[0]] + s[1..];
    }
  }

  /** Sorting what is already sorted changes nothing (the sort is stable). */
  lemma {:induction false} SortOfSorted<T>(s: seq<T>, key: T -> real)
    requires SortedBy(s, key)
    ensures SortBy(s, key) == s
  {
    if |s| > 0 {
      SortedTail(s, key);
      SortOfSorted(s[1..], key);
      assert s == [s[0]] + s[1..];
    }
  }

  /** The earliest element of `s` whose key is minimal. */
  predicate IsFirstMin<T>(s: seq<T>, j: int, key: T -> real) {
    0 <= j < |s| &&
    (forall i :: 0 <= i < |s| ==> key(s[j]) <= key(s[i])) &&
    (forall i :: 0 <= i < j ==> key(s[j]) < key(s[i]))
  }

  /** Stability at the front: the sort starts with the first element of least key. */
  lemma {:induction false} SortByHead<T>(s: seq<T>, key: T -> real) returns (j: nat)
    requires |s| > 0
    ensures IsFirstMin(s, j, key) && SortBy(s, key)[0] == s[j]
  {
    if |s| == 1 {
      j := 0;
    } else {
      var j' := SortByHead(s[1..], key);
      var t := SortBy(s[1..], key);
      if key(s[0]) <= key(t[0]) {
        j := 0;
        forall i | 0 <= i < |s| ensures key(s[0]) <= key(s[i]) {
          if i > 0 {
            assert s[i] == s[1..][i - 1];
          }
        }
      } else {
        j := j' + 1;
        forall i | 0 <= i < |s| ensures key(s[j]) <= key(s[i]) {
          if i > 0 {
            assert s[i] == s[1..][i - 1];
          }
        }
      }
    }
  }

  /** Writing a key twice leaves the second value. */
  lemma UpdateApart<K, V>(m: map<K, V>, a: K, b: K, va: V, vb: V)
    requires a != b
    ensures m[a := va][b := vb] == m[b := vb][a := va]
  {
    assert m[a := va][b := vb].Keys == m[b := vb][a := va].Keys;
  }

  lemma UpdateTwice<K, V>(m: map<K, V>, key: K, first: V, second: V)
    ensures m[key := first][key := second] == m[key := second]
  {
    assert m[key := first][key := second].Keys == m[key := second].Keys;
  }
}
