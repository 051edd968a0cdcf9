/**
 * `recursive_replace`: substitute a text for every occurrence of a
 * placeholder in every string of a configuration, at any depth.
 */
module Utils {
  import opened Values
  import opened Text
  import opened Wrappers

  /**
   * `recursive_replace(data, needle, replace)` with `rep == str(replace)`:
   * mappings and lists are rebuilt entry by entry, strings have every
   * occurrence replaced, anything else comes back as it was.
   */
  function RecursiveReplace(v: Value, needle: string, rep: string): (r: Value)
    ensures v.Dict? <==> r.Dict?
    ensures v.Dict? ==> r.entries.Keys == v.entries.Keys
    ensures v.List? <==> r.List?
    ensures v.List? ==> |r.items| == |v.items|
    ensures v.Str? ==> r == Str(Replace(v.s, needle, rep))
    ensures !(v.Dict? || v.List? || v.Str?) ==> r == v
    decreases v
  {
    match v
    case Dict(m) => Dict(map k | k in m :: RecursiveReplace(m[k], needle, rep))
    case List(xs) => List(seq(|xs|, i requires 0 <= i < |xs| => RecursiveReplace(xs[i], needle, rep)))
    case Str(s) => Str(Replace(s, needle, rep))
    case _ => v
  }

  /** Two values with the same keys and list lengths at every depth. */
  predicate SameShape(a: Value, b: Value)
    decreases a
  {
    match a
    case Dict(m) => b.Dict? && b.entries.Keys == m.Keys && forall k :: k in m ==> SameShape(m[k], b.entries[k])
    case List(xs) => b.List? && |b.items| == |xs| && forall i :: 0 <= i < |xs| ==> SameShape(xs[i], b.items[i])
    case Str(_) => b.Str?
    case _ => b == a
  }

  /** Replacing changes no key, no list length and no non-string leaf, at any depth. */
  lemma {:induction false} ReplaceKeepsShape(v: Value, needle: string, rep: string)
    ensures SameShape(v, RecursiveReplace(v, needle, rep))
    decreases v
  {
    match v
    case Dict(m) =>
      forall k | k in m ensures SameShape(m[k], RecursiveReplace(v, needle, rep).entries[k]) {
        ReplaceKeepsShape(m[k], needle, rep);
      }
    case List(xs) =>
      forall i | 0 <= i < |xs| ensures SameShape(xs[i], RecursiveReplace(v, needle, rep).items[i]) {
        ReplaceKeepsShape(xs[i], needle, rep);
      }
    case _ =>
  }

  /** One step into a configuration: a mapping's key or a list's position. */
  datatype PathStep = Key(key: string) | Pos(index: nat)

  /** The value reached from `v` along `path`; `None` when a step leads nowhere. */
  function At(v: Value, path: seq<PathStep>): Option<Value>
    decreases |path|
  {
    if |path| == 0 then Some(v)
    else match path[0]
      case Key(k) => if v.Dict? && k in v.entries then At(v.entries[k], path[1..]) else None
      case Pos(i) => if v.List? && i < |v.items| then At(v.items[i], path[1..]) else None
  }

  /**
   * The rebuilt configuration has a value at exactly the paths `v` has one,
   * and that value is the replacement of `v`'s.
   */
  lemma {:induction false} ReplaceAt(v: Value, needle: string, rep: string, path: seq<PathStep>)
    ensures At(RecursiveReplace(v, needle, rep), path).Some? <==> At(v, path).Some?
    ensures At(v, path).Some? ==> At(RecursiveReplace(v, needle, rep), path) == Some(RecursiveReplace(At(v, path).value, needle, rep))
    decreases |path|
  {
    if |path| > 0 {
      var r := RecursiveReplace(v, needle, rep);
      match path[0]
      case Key(k) =>
        if v.Dict? && k in v.entries {
          assert r.entries[k] == RecursiveReplace(v.entries[k], needle, rep);
          ReplaceAt(v.entries[k], needle, rep, path[1..]);
        }
      case Pos(i) =>
        if v.List? && i < |v.items| {
          assert r.items[i] == RecursiveReplace(v.items[i], needle, rep);
          ReplaceAt(v.items[i], needle, rep, path[1..]);
        }
    }
  }

  /**
   * Every string nested anywhere in the configuration has every occurrence
   * of the needle replaced, and every other leaf comes back as it was.
   */
  lemma {:induction false} ReplacedEverywhere(v: Value, needle: string, rep: string, path: seq<PathStep>)
    ensures At(v, path).Some? && At(v, path).value.Str? ==>
              At(RecursiveReplace(v, needle, rep), path) == Some(Str(Replace(At(v, path).value.s, needle, rep)))
    ensures At(v, path).Some? && !(At(v, path).value.Dict? || At(v, path).value.List? || At(v, path).value.Str?) ==>
              At(RecursiveReplace(v, needle, rep), path) == At(v, path)
    ensures At(v, path).None? ==> At(RecursiveReplace(v, needle, rep), path).None?
  {
    ReplaceAt(v, needle, rep, path);
  }

  /** Some string anywhere in `v` contains `needle`. */
  predicate Mentions(v: Value, needle: string)
    decreases v
  {
    match v
    case Dict(m) => exists k :: k in m && Mentions(m[k], needle)
    case List(xs) => exists i :: 0 <= i < |xs| && Mentions(xs[i], needle)
    case Str(s) => Contains(s, needle)
    case _ => false
  }

  /** A configuration without the placeholder comes back unchanged. */
  lemma {:induction false} ReplaceUnmentioned(v: Value, needle: string, rep: string)
    requires !Mentions(v, needle)
    ensures RecursiveReplace(v, needle, rep) == v
    decreases v
  {
    match v
    case Dict(m) =>
      forall k | k in m ensures RecursiveReplace(m[k], needle, rep) == m[k] {
        ReplaceUnmentioned(m[k], needle, rep);
      }
      assert RecursiveReplace(v, needle, rep).entries == m;
    case List(xs) =>
      forall i | 0 <= i < |xs| ensures RecursiveReplace(xs[i], needle, rep) == xs[i] {
        ReplaceUnmentioned(xs[i], needle, rep);
      }
      assert RecursiveReplace(v, needle, rep).items == xs;
    case Str(s) =>
      ReplaceAbsent(s, needle, rep);
    case _ =>
  }

  /** `str(n)` for any integer. */
  function IntToString(n: int): (r: string)
    ensures |r| >= 1
    ensures n >= 0 ==> r == NatToString(n)
    ensures n < 0 ==> r == "-" + NatToString(-n)
  {
    if n < 0 then "-" + NatToString(-n) else NatToString(n)
  }

  /** `int(str(n)) == n` for every integer. */
  lemma ParseRoundTrip(n: int)
    ensures ParseInt(IntToString(n)) == Ok(n)
  {
    if n < 0 {
      NegativeRoundTrip(n);
    } else {
      NaturalRoundTrip(n);
    }
  }

  lemma NaturalRoundTrip(n: nat)
    ensures ParseInt(IntToString(n)) == Ok(n)
  {
    var t := NatToString(n);
    DecimalRoundTrip(n);
    ParseDigits(t);
  }

  lemma NegativeRoundTrip(n: int)
    requires n < 0
    ensures ParseInt(IntToString(n)) == Ok(n)
  {
    var m: nat := -n;
    var s := IntToString(n);
    var t := NatToString(m);
    DecimalRoundTrip(m);
    assert s[0] == '-' && s[1..] == t;
    assert !AllDigits(s);
    assert Decimal(t) == m;
    assert ParseInt(s) == Ok(-(m as int));
  }
}
