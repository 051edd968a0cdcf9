/**
 * The cache lookups of the `deanon` splitter: training and test parts of
 * an earlier split with the same parents and the parameters that decide
 * them are found through the dataset manager and reused.
 */
module SplitterCache {
  import opened Wrappers
  import opened Values
  import opened Store
  import opened Manager
  import opened Datasets
  import opened Splitters

  /** `ds.meta["params"] = config` on a dataset the cache returned. */
  function Reparamed(meta: Value, params: Config): (m: Value)
    ensures meta.Dict? ==> (m.Dict? && m.entries.Keys == meta.entries.Keys + {"params"} &&
      m.entries["params"] == Dict(params) &&
      forall k :: k in meta.entries && k != "params" ==> m.entries[k] == meta.entries[k])
  {
    if meta.Dict? then Dict(meta.entries["params" := Dict(params)]) else meta
  }

  /**
   * `get_matching(query)`, then, if a dataset was found, overwrite its
   * `params` with `params` and save its metadata.
   */
  method Lookup(disk: Disk, listing: seq<string>, query: Config, params: Config) returns (r: Result<Option<string>>)
    requires ListsDisk(listing, disk.metas)
    modifies disk
    ensures disk.folders == old(disk.folders)
    ensures disk.metas.Keys == old(disk.metas).Keys
    ensures (MetaNamesOnDisk(listing, old(disk.metas)); r == FirstMatch(MetaNames(listing), old(disk.metas), query))
    ensures r.Ok? && r.value.Some? ==>
      var n := r.value.value;
      n in old(disk.metas) && MatchDoc(old(disk.metas)[n], query) == Ok(true) &&
      disk.metas == old(disk.metas)[n := Reparamed(old(disk.metas)[n], params)]
    ensures r == Ok(None) ==> forall n :: n in old(disk.metas) ==> MatchDoc(old(disk.metas)[n], query) == Ok(false)
    ensures !(r.Ok? && r.value.Some?) ==> disk.metas == old(disk.metas)
  {
    r := GetMatching(disk, listing, query);
    if r.Ok? && r.value.Some? {
      var n := r.value.value;
      disk.WriteMeta(n, Reparamed(disk.metas[n], params));
    }
  }

  lemma ListsSameKeys(listing: seq<string>, before: map<string, Value>, after: map<string, Value>)
    requires ListsDisk(listing, before) && after.Keys == before.Keys
    ensures ListsDisk(listing, after)
  {
  }

  /**
   * A dataset matching the lookup of one part never matches the lookup of
   * another part, before or after its parameters are rewritten.
   */
  lemma PartsExclusive(meta: Value, k: Kind, o: string, a: string, p1: Config, p2: Config, params: Config, i: int, j: int)
    requires i != j && MatchDoc(meta, CacheQuery(k, o, a, p1, i)) == Ok(true)
    ensures MatchDoc(meta, CacheQuery(k, o, a, p2, j)) != Ok(true)
    ensures MatchDoc(Reparamed(meta, params), CacheQuery(k, o, a, p2, j)) != Ok(true)
  {
    var q1 := CacheQuery(k, o, a, p1, i);
    assert "part" in q1;
    assert PyEq(meta.entries["part"], Int(i));
  }

  /**
   * After a dataset is reused, its rewritten parameters equal the lookup's:
   * the same lookup finds it again.
   */
  lemma ReusedStillMatches(meta: Value, k: Kind, o: string, a: string, params: Config, part: int)
    requires MatchDoc(meta, CacheQuery(k, o, a, params, part)) == Ok(true)
    ensures MatchDoc(Reparamed(meta, params), CacheQuery(k, o, a, params, part)) == Ok(true)
  {
    MatchReflexive(params);
  }

  /**
   * A part freshly copied by a splitter has no `splitter` key until `run`
   * tags it, so no cache lookup ever returns it.
   */
  lemma FreshCopyNeverMatches(parentMeta: Value, parentName: string, newname: string, k: Kind, o: string, a: string, params: Config, part: int)
    requires DerivedMeta(parentMeta, parentName, newname, true).Ok?
    requires "splitter" !in parentMeta.entries
    ensures MatchDoc(DerivedMeta(parentMeta, parentName, newname, true).value, CacheQuery(k, o, a, params, part)) == Ok(false)
  {
    var m := DerivedMeta(parentMeta, parentName, newname, true).value.entries;
    assert "splitter" !in m;
    MissingKeyFails(m, CacheQuery(k, o, a, params, part), "splitter");
  }

  /**
   * The lineage a finished `deanon` run records on its training part is
   * what a later run with the same parents, `train_rate` and `seed` looks
   * up, whatever its other parameters: that later run reuses the part.
   */
  lemma TrainPartIsFound(meta: Config, k: Kind, o: string, a: string, runConfig: Config, laterConfig: Config, part: int)
    requires "original" in meta && meta["original"] == Str(o + "|" + a)
    requires "splitter" in meta && meta["splitter"] == Str(Name(k))
    requires "part" in meta && meta["part"] == Int(part)
    requires "params" in meta && meta["params"] == Dict(runConfig)
    requires TrainParams(laterConfig).Ok?
    requires "train_rate" in runConfig && runConfig["train_rate"] == laterConfig["train_rate"]
    requires "seed" in runConfig && runConfig["seed"] == laterConfig["seed"]
    ensures MatchDoc(Dict(meta), CacheQuery(k, o, a, TrainParams(laterConfig).value, part)) == Ok(true)
  {
    var tp := TrainParams(laterConfig).value;
    var q := CacheQuery(k, o, a, tp, part);
    PyEqReflexive(meta["original"]);
    PyEqReflexive(meta["splitter"]);
    PyEqReflexive(meta["part"]);
    assert tp == map["train_rate" := runConfig["train_rate"], "seed" := runConfig["seed"]];
    MatchesItself(runConfig["train_rate"]);
    MatchesItself(runConfig["seed"]);
    assert MatchLevel(runConfig, tp);
    assert MatchLevel(meta, q);
  }

  /**
   * `existing_train`: look up part 2 (clear) and part 3 (anonymized) of an
   * earlier split with the same parents, `train_rate` and `seed`; each one
   * found has its `params` rewritten to exactly those two.
   */
  method ExistingTrain(disk: Disk, listing: seq<string>, k: Kind, origName: string, anonName: string, config: Config)
    returns (r: Result<(Option<string>, Option<string>)>)
    requires ListsDisk(listing, disk.metas)
    modifies disk
    ensures disk.folders == old(disk.folders)
    ensures disk.metas.Keys == old(disk.metas).Keys
    ensures TrainParams(config).Err? ==> r.Err? && disk.metas == old(disk.metas)
    ensures r.Ok? ==> TrainParams(config).Ok?
    ensures r.Ok? ==> TrainAnswers(old(disk.metas), r.value.0, r.value.1, k, origName, anonName, TrainParams(config).value)
    ensures r.Ok? ==> Rewritten(old(disk.metas), disk.metas, r.value.0, r.value.1, TrainParams(config).value)
  {
    var params :- TrainParams(config);
    r := LookupTrain(disk, listing, k, origName, anonName, params);
  }

  /**
   * What the two lookups of `existing_train` answer: `c` is the first
   * dataset that matches the query for part 2 (none matches when it is
   * absent), `a` one that matches the query for part 3, and they differ.
   */
  ghost predicate TrainAnswers(before: map<string, Value>, c: Option<string>, a: Option<string>,
                               k: Kind, origName: string, anonName: string, params: Config) {
    && (c.Some? ==> c.value in before && MatchDoc(before[c.value], CacheQuery(k, origName, anonName, params, 2)) == Ok(true))
    && (a.Some? ==> a.value in before && MatchDoc(before[a.value], CacheQuery(k, origName, anonName, params, 3)) == Ok(true))
    && (c.None? ==> forall n :: n in before ==> MatchDoc(before[n], CacheQuery(k, origName, anonName, params, 2)) == Ok(false))
    && (c.Some? && a.Some? ==> c.value != a.value)
  }

  /** The two lookups of `existing_train`, for the parameters `params` it derived. */
  method LookupTrain(disk: Disk, listing: seq<string>, k: Kind, origName: string, anonName: string, params: Config)
    returns (r: Result<(Option<string>, Option<string>)>)
    requires ListsDisk(listing, disk.metas)
    modifies disk
    ensures disk.folders == old(disk.folders)
    ensures disk.metas.Keys == old(disk.metas).Keys
    ensures r.Ok? ==> TrainAnswers(old(disk.metas), r.value.0, r.value.1, k, origName, anonName, params)
    ensures r.Ok? ==> Rewritten(old(disk.metas), disk.metas, r.value.0, r.value.1, params)
  {
    var q2 := CacheQuery(k, origName, anonName, params, 2);
    var q3 := CacheQuery(k, origName, anonName, params, 3);
    var clear :- Lookup(disk, listing, q2, params);
    ghost var mid := disk.metas;
    ListsSameKeys(listing, old(disk.metas), mid);
    var anon :- Lookup(disk, listing, q3, params);
    TrainAnswered(old(disk.metas), mid, clear, anon, k, origName, anonName, params);
    RewrittenTwice(old(disk.metas), mid, disk.metas, clear, anon, params);
    r := Ok((clear, anon));
  }

  /** The answers of the two lookups, the second made after the first rewrote what it found. */
  lemma TrainAnswered(before: map<string, Value>, mid: map<string, Value>, c: Option<string>, a: Option<string>,
                      k: Kind, origName: string, anonName: string, params: Config)
    requires c.Some? ==> (c.value in before && MatchDoc(before[c.value], CacheQuery(k, origName, anonName, params, 2)) == Ok(true) &&
      mid == before[c.value := Reparamed(before[c.value], params)])
    requires c.None? ==> (mid == before &&
      forall n :: n in before ==> MatchDoc(before[n], CacheQuery(k, origName, anonName, params, 2)) == Ok(false))
    requires a.Some? ==> a.value in mid && MatchDoc(mid[a.value], CacheQuery(k, origName, anonName, params, 3)) == Ok(true)
    ensures TrainAnswers(before, c, a, k, origName, anonName, params)
  {
    if a.Some? {
      var n := a.value;
      if c.Some? && n == c.value {
        PartsExclusive(before[n], k, origName, anonName, params, params, params, 2, 3);
        assert false;
      }
      if c.Some? {
        assert mid[n] == before[n];
      }
    }
  }

  /** The metadata of exactly the datasets found, `c` and `a`, has its parameters rewritten. */
  ghost predicate Rewritten(before: map<string, Value>, after: map<string, Value>, c: Option<string>, a: Option<string>, params: Config) {
    after.Keys == before.Keys &&
    forall n :: n in before ==>
      after[n] == if Some(n) == c || Some(n) == a then Reparamed(before[n], params) else before[n]
  }

  lemma RewrittenTwice(before: map<string, Value>, mid: map<string, Value>, after: map<string, Value>,
                       c: Option<string>, a: Option<string>, params: Config)
    requires c.Some? ==> c.value in before && mid == before[c.value := Reparamed(before[c.value], params)]
    requires c.None? ==> mid == before
    requires a.Some? ==> a.value in mid && after == mid[a.value := Reparamed(mid[a.value], params)]
    requires a.None? ==> after == mid
    requires c.Some? && a.Some? ==> c.value != a.value
    ensures Rewritten(before, after, c, a, params)
  {
  }

  /**
   * `existing_test`: look up part 1 (the anonymized test set) of an earlier
   * split with the same parents, `train_rate`, `seed` and `enroll_rate`.
   */
  method ExistingTest(disk: Disk, listing: seq<string>, k: Kind, origName: string, anonName: string, config: Config)
    returns (r: Result<Option<string>>)
    requires ListsDisk(listing, disk.metas)
    modifies disk
    ensures disk.folders == old(disk.folders)
    ensures disk.metas.Keys == old(disk.metas).Keys
    ensures TestParams(config).Err? ==> r.Err? && disk.metas == old(disk.metas)
    ensures r.Ok? ==> TestParams(config).Ok?
    ensures r.Ok? && r.value.Some? ==> (r.value.value in old(disk.metas) &&
      MatchDoc(old(disk.metas)[r.value.value], CacheQuery(k, origName, anonName, TestParams(config).value, 1)) == Ok(true) &&
      disk.metas == old(disk.metas)[r.value.value := Reparamed(old(disk.metas)[r.value.value], TestParams(config).value)])
    ensures r.Ok? && r.value.None? ==> disk.metas == old(disk.metas)
  {
    var params :- TestParams(config);
    r := Lookup(disk, listing, CacheQuery(k, origName, anonName, params, 1), params);
  }
}
