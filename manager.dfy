/**
 * `DatasetManager`: enumerating the datasets in `data/` and finding one
 * whose metadata matches a query. This is the cache lookup every stage
 * performs before it creates anything.
 */
module Manager {
  import opened Wrappers
  import opened Values
  import opened Text
  import opened PyLib
  import opened Store

  /**
   * `match_level(meta, config)`: every key of the query is present in the
   * metadata and equal there, except that a mapping queried against a
   * mapping only has to match its own keys, recursively.
   */
  predicate MatchLevel(meta: Config, query: Config)
    decreases Dict(query)
  {
    forall k :: k in query ==>
      k in meta &&
      (if meta[k].Dict? && query[k].Dict?
       then MatchLevel(meta[k].entries, query[k].entries)
       else PyEq(meta[k], query[k]))
  }

  /** A key the query names and the metadata lacks means no match. */
  lemma MissingKeyFails(meta: Config, query: Config, k: string)
    requires k in query && k !in meta
    ensures !MatchLevel(meta, query)
  {
  }

  /** Every metadata document matches itself: a stage finds what it wrote. */
  lemma {:induction false} MatchReflexive(meta: Config)
    ensures MatchLevel(meta, meta)
    decreases Dict(meta)
  {
    forall k | k in meta
      ensures if meta[k].Dict? then MatchLevel(meta[k].entries, meta[k].entries)
              else PyEq(meta[k], meta[k])
    {
      if meta[k].Dict? {
        MatchReflexive(meta[k].entries);
      } else {
        PyEqReflexive(meta[k]);
      }
    }
  }

  /** A value matches itself, as a nested query or as a plain value. */
  lemma MatchesItself(v: Value)
    ensures if v.Dict? then MatchLevel(v.entries, v.entries) else PyEq(v, v)
  {
    if v.Dict? {
      MatchReflexive(v.entries);
    } else {
      PyEqReflexive(v);
    }
  }

  lemma {:induction false} PyEqTransitive(a: Value, b: Value, c: Value)
    requires PyEq(a, b) && PyEq(b, c)
    ensures PyEq(a, c)
    decreases a
  {
    if IsNumber(a) && IsNumber(b) && IsNumber(c) {
    } else {
      match (a, b, c)
      case (List(xs), List(ys), List(zs)) =>
        forall i | 0 <= i < |xs| ensures PyEq(xs[i], zs[i]) {
          PyEqTransitive(xs[i], ys[i], zs[i]);
        }
      case (Dict(m), Dict(n), Dict(o)) =>
        forall k | k in m ensures PyEq(m[k], o[k]) {
          PyEqTransitive(m[k], n[k], o[k]);
        }
      case _ =>
    }
  }

  /**
   * Matching is transitive: metadata that matches a query also matches any
   * looser query the first one matches (fewer keys, shallower mappings).
   */
  lemma {:induction false} MatchTransitive(meta: Config, query: Config, looser: Config)
    requires MatchLevel(meta, query) && MatchLevel(query, looser)
    ensures MatchLevel(meta, looser)
    decreases Dict(looser)
  {
    forall k | k in looser
      ensures k in meta &&
        (if meta[k].Dict? && looser[k].Dict?
         then MatchLevel(meta[k].entries, looser[k].entries)
         else PyEq(meta[k], looser[k]))
    {
      var m, q, l := meta[k], query[k], looser[k];
      if q.Dict? && l.Dict? {
        if m.Dict? {
          MatchTransitive(m.entries, q.entries, l.entries);
        } else {
          assert false;
        }
      } else if m.Dict? && q.Dict? {
        assert false;
      } else {
        PyEqTransitive(m, q, l);
      }
    }
  }

  /** The result of matching one loaded document: a non-mapping document fails on the first key. */
  function MatchDoc(doc: Value, query: Config): (r: Result<bool>)
    ensures r.Err? <==> !doc.Dict? && |query| > 0
    ensures r == Ok(true) <==> (doc.Dict? && MatchLevel(doc.entries, query)) || (!doc.Dict? && |query| == 0)
  {
    if doc.Dict? then Ok(MatchLevel(doc.entries, query))
    else if |query| == 0 then Ok(true)
    else Err(TypeError("metadata is not a mapping"))
  }

  predicate IsMetaFile(f: string) {
    EndsWith(f, MetaSuffix)
  }

  /** `f[:-10]`: the dataset name a metadata file belongs to. */
  function MetaName(f: string): string
    requires IsMetaFile(f)
  {
    f[..|f| - |MetaSuffix|]
  }

  /** The dataset names in listing order. */
  function MetaNames(listing: seq<string>): seq<string>
  {
    if |listing| == 0 then []
    else if IsMetaFile(listing[0]) then [MetaName(listing[0])] + MetaNames(listing[1..])
    else MetaNames(listing[1..])
  }

  lemma {:induction false} MetaNamesMembers(listing: seq<string>, n: string)
    ensures n in MetaNames(listing) <==> exists f :: f in listing && IsMetaFile(f) && MetaName(f) == n
  {
    if |listing| > 0 {
      MetaNamesMembers(listing[1..], n);
      if n in MetaNames(listing) && !(n in MetaNames(listing[1..])) {
        assert MetaName(listing[0]) == n;
      }
      if exists f :: f in listing && IsMetaFile(f) && MetaName(f) == n {
        var f :| f in listing && IsMetaFile(f) && MetaName(f) == n;
        if f != listing[0] {
          assert f in listing[1..];
        }
      }
    }
  }

  lemma MetaNameInjective(f: string, g: string)
    requires IsMetaFile(f) && IsMetaFile(g) && MetaName(f) == MetaName(g)
    ensures f == g
  {
    assert f == MetaName(f) + MetaSuffix;
    assert g == MetaName(g) + MetaSuffix;
  }

  lemma {:induction false} MetaNamesDistinct(listing: seq<string>)
    requires Distinct(listing)
    ensures Distinct(MetaNames(listing))
  {
    if |listing| > 0 {
      MetaNamesDistinct(listing[1..]);
      if IsMetaFile(listing[0]) {
        MetaNamesMembers(listing[1..], MetaName(listing[0]));
        if MetaName(listing[0]) in MetaNames(listing[1..]) {
          var f :| f in listing[1..] && IsMetaFile(f) && MetaName(f) == MetaName(listing[0]);
          MetaNameInjective(f, listing[0]);
        }
      }
    }
  }

  /** `listing` is what `os.listdir("data")` returns for this disk. */
  ghost predicate ListsDisk(listing: seq<string>, metas: map<string, Value>) {
    Distinct(listing) &&
    (forall f :: f in listing && IsMetaFile(f) ==> MetaName(f) in metas) &&
    (forall n :: n in metas ==> n + MetaSuffix in listing)
  }

  /**
   * `get_all`: the metadata of every dataset, keyed by name, in the order
   * `os.listdir` returns the metadata files.
   */
  method GetAll(disk: Disk, listing: seq<string>) returns (names: seq<string>, sets: map<string, Value>)
    requires ListsDisk(listing, disk.metas)
    ensures names == MetaNames(listing) && Distinct(names)
    ensures sets.Keys == disk.metas.Keys
    ensures forall n :: n in sets ==> sets[n] == disk.metas[n]
    ensures forall n :: n in names <==> n in sets
  {
    names := [];
    sets := map[];
    var i := 0;
    while i < |listing|
      invariant 0 <= i <= |listing|
      invariant names + MetaNames(listing[i..]) == MetaNames(listing)
      invariant forall n :: n in sets <==> n in names
      invariant forall n :: n in sets ==> n in disk.metas && sets[n] == disk.metas[n]
    {
      var f := listing[i];
      MetaNamesStep(listing, i);
      if IsMetaFile(f) {
        names := names + [MetaName(f)];
        sets := sets[MetaName(f) := disk.metas[MetaName(f)]];
      }
      i := i + 1;
    }
    MetaNamesDistinct(listing);
    EveryMetaListed(listing, disk.metas);
  }

  /** One step of the listing: a metadata file contributes its name, any other file nothing. */
  lemma MetaNamesStep(listing: seq<string>, i: int)
    requires 0 <= i < |listing|
    ensures MetaNames(listing[i..]) ==
      (if IsMetaFile(listing[i]) then [MetaName(listing[i])] else []) + MetaNames(listing[i + 1..])
  {
    assert listing[i..][1..] == listing[i + 1..];
  }

  /** Every dataset of the disk is named by the listing. */
  lemma EveryMetaListed(listing: seq<string>, metas: map<string, Value>)
    requires ListsDisk(listing, metas)
    ensures forall n :: n in metas ==> n in MetaNames(listing)
  {
    forall n | n in metas ensures n in MetaNames(listing) {
      MetaNamesMembers(listing, n);
      var f := n + MetaSuffix;
      assert IsMetaFile(f) && MetaName(f) == n;
    }
  }

  /** `exists(name)`: a dataset of that name has a metadata file. */
  method Exists(disk: Disk, listing: seq<string>, name: string) returns (b: bool)
    requires ListsDisk(listing, disk.metas)
    ensures b <==> name in disk.metas
  {
    var names, sets := GetAll(disk, listing);
    b := name in sets;
  }

  /** The outcome of scanning `names` in order for the first match. */
  function FirstMatch(names: seq<string>, sets: map<string, Value>, query: Config): Result<Option<string>>
    requires forall n :: n in names ==> n in sets
  {
    if |names| == 0 then Ok(None)
    else match MatchDoc(sets[names[0]], query)
      case Err(e) => Err(e)
      case Ok(true) => Ok(Some(names[0]))
      case Ok(false) => FirstMatch(names[1..], sets, query)
  }

  /**
   * What the scan promises: a returned name matches and every dataset
   * enumerated before it does not; no name means none matches.
   */
  lemma {:induction false} FirstMatchMeaning(names: seq<string>, sets: map<string, Value>, query: Config)
    requires forall n :: n in names ==> n in sets
    ensures FirstMatch(names, sets, query) == Ok(None) <==>
      forall i :: 0 <= i < |names| ==> MatchDoc(sets[names[i]], query) == Ok(false)
    ensures FirstMatch(names, sets, query).Ok? && FirstMatch(names, sets, query).value.Some? ==>
      exists j :: 0 <= j < |names| && names[j] == FirstMatch(names, sets, query).value.value &&
        MatchDoc(sets[names[j]], query) == Ok(true) &&
        (forall i :: 0 <= i < j ==> MatchDoc(sets[names[i]], query) == Ok(false))
    ensures FirstMatch(names, sets, query).Err? ==>
      |query| > 0 && exists j :: 0 <= j < |names| && !sets[names[j]].Dict?
  {
    FirstMatchNone(names, sets, query);
    FirstMatchFound(names, sets, query);
    FirstMatchError(names, sets, query);
  }

  lemma {:induction false} FirstMatchNone(names: seq<string>, sets: map<string, Value>, query: Config)
    requires forall n :: n in names ==> n in sets
    ensures FirstMatch(names, sets, query) == Ok(None) <==>
      forall i :: 0 <= i < |names| ==> MatchDoc(sets[names[i]], query) == Ok(false)
  {
    if |names| > 0 {
      var tail := names[1..];
      FirstMatchNone(tail, sets, query);
      if MatchDoc(sets[names[0]], query) == Ok(false) && FirstMatch(tail, sets, query) == Ok(None) {
        forall i | 0 <= i < |names| ensures MatchDoc(sets[names[i]], query) == Ok(false) {
          if i > 0 { assert names[i] == tail[i - 1]; }
        }
      }
      if forall i :: 0 <= i < |names| ==> MatchDoc(sets[names[i]], query) == Ok(false) {
        forall i | 0 <= i < |tail| ensures MatchDoc(sets[tail[i]], query) == Ok(false) {
          assert tail[i] == names[i + 1];
        }
      }
    }
  }

  lemma {:induction false} FirstMatchFound(names: seq<string>, sets: map<string, Value>, query: Config)
    requires forall n :: n in names ==> n in sets
    ensures FirstMatch(names, sets, query).Ok? && FirstMatch(names, sets, query).value.Some? ==>
      exists j :: 0 <= j < |names| && names[j] == FirstMatch(names, sets, query).value.value &&
        MatchDoc(sets[names[j]], query) == Ok(true) &&
        (forall i :: 0 <= i < j ==> MatchDoc(sets[names[i]], query) == Ok(false))
  {
    if |names| > 0 && MatchDoc(sets[names[0]], query) == Ok(false) {
      var tail := names[1..];
      FirstMatchFound(tail, sets, query);
      var r := FirstMatch(tail, sets, query);
      if r.Ok? && r.value.Some? {
        var j :| 0 <= j < |tail| && tail[j] == r.value.value &&
          MatchDoc(sets[tail[j]], query) == Ok(true) &&
          forall i :: 0 <= i < j ==> MatchDoc(sets[tail[i]], query) == Ok(false);
        assert names[j + 1] == tail[j];
        forall i | 0 <= i < j + 1 ensures MatchDoc(sets[names[i]], query) == Ok(false) {
          if i > 0 { assert names[i] == tail[i - 1]; }
        }
      }
    }
  }

  lemma {:induction false} FirstMatchError(names: seq<string>, sets: map<string, Value>, query: Config)
    requires forall n :: n in names ==> n in sets
    ensures FirstMatch(names, sets, query).Err? ==>
      |query| > 0 && exists j :: 0 <= j < |names| && !sets[names[j]].Dict?
  {
    if |names| > 0 {
      var tail := names[1..];
      FirstMatchError(tail, sets, query);
      if MatchDoc(sets[names[0]], query).Ok? && FirstMatch(names, sets, query).Err? {
        var j :| 0 <= j < |tail| && !sets[tail[j]].Dict?;
        assert names[j + 1] == tail[j];
      }
    }
  }

  lemma MetaNamesOnDisk(listing: seq<string>, metas: map<string, Value>)
    requires ListsDisk(listing, metas)
    ensures forall n :: n in MetaNames(listing) ==> n in metas
  {
    forall n | n in MetaNames(listing) ensures n in metas {
      MetaNamesMembers(listing, n);
    }
  }

  /**
   * `get_matching(config)`: the first dataset, in enumeration order, whose
   * metadata matches the query. The program wraps the name in a freshly
   * loaded `Dataset`; here the name is returned.
   */
  method GetMatching(disk: Disk, listing: seq<string>, query: Config) returns (r: Result<Option<string>>)
    requires ListsDisk(listing, disk.metas)
    ensures r.Ok? && r.value.Some? ==> r.value.value in disk.metas && MatchDoc(disk.metas[r.value.value], query) == Ok(true)
    ensures r == Ok(None) ==> forall n :: n in disk.metas ==> MatchDoc(disk.metas[n], query) == Ok(false)
    ensures (MetaNamesOnDisk(listing, disk.metas); r == FirstMatch(MetaNames(listing), disk.metas, query))
  {
    var names, sets := GetAll(disk, listing);
    assert sets == disk.metas;
    r := FirstMatching(names, sets, query);
    if r.Ok? && r.value.Some? {
      FirstMatchFound(names, sets, query);
    }
    if r == Ok(None) {
      NoneMeansNoMatch(names, sets, query);
    }
  }

  /** The loop of `get_matching` over the enumerated names. */
  method FirstMatching(names: seq<string>, sets: map<string, Value>, query: Config) returns (r: Result<Option<string>>)
    requires forall n :: n in names ==> n in sets
    ensures r == FirstMatch(names, sets, query)
  {
    var i := 0;
    while i < |names|
      invariant 0 <= i <= |names|
      invariant FirstMatch(names[i..], sets, query) == FirstMatch(names, sets, query)
    {
      assert names[i..][1..] == names[i + 1..];
      var m := MatchDoc(sets[names[i]], query);
      if m.Err? {
        return Err(m.error);
      }
      if m.value {
        return Ok(Some(names[i]));
      }
      i := i + 1;
    }
    r := Ok(None);
  }

  lemma NoneMeansNoMatch(names: seq<string>, sets: map<string, Value>, query: Config)
    requires forall n :: n in names <==> n in sets
    requires FirstMatch(names, sets, query) == Ok(None)
    ensures forall n :: n in sets ==> MatchDoc(sets[n], query) == Ok(false)
  {
    FirstMatchMeaning(names, sets, query);
    forall n | n in sets ensures MatchDoc(sets[n], query) == Ok(false) {
      var j :| 0 <= j < |names| && names[j] == n;
    }
  }
}
