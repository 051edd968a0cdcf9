/**
 * `remove_parts`: zero the coordinates of whole body parts in every pose,
 * either the parts listed in the configuration or, inverted, every other
 * part.
 */
module RemoveParts {
  import opened Wrappers
  import opened Values
  import opened Lifecycle
  import opened MotionData

  /**
   * `validate_config`: a missing `invert` becomes `False`. Missing body
   * part metadata or a missing `body_parts` entry is only logged.
   */
  function Validate(config: Config): (r: Result<Config>)
    ensures r.Ok? && "invert" in r.value
    ensures r.value["invert"] == (if "invert" in config then config["invert"] else Bool(false))
    ensures forall k :: k != "invert" ==> (k in r.value <==> k in config)
    ensures forall k :: k in config ==> r.value[k] == config[k]
  {
    Ok(SetDefault(config, "invert", Bool(false)))
  }

  const RemovePartsHooks: Hooks := Hooks(Validate, c => None)

  /** The markers of the listed parts, part by part; the first part the mapping lacks raises KeyError. */
  function Listed(parts: PartMap, listed: seq<string>): (r: Result<seq<int>>)
    ensures r.Ok? <==> forall p :: p in listed ==> Lookup(parts, p).Ok?
    ensures r.Ok? ==> forall m :: m in r.value <==> exists p :: p in listed && m in Lookup(parts, p).value
  {
    if |listed| == 0 then Ok([])
    else
      var front := listed[..|listed| - 1];
      var last := listed[|listed| - 1];
      assert forall p :: p in listed <==> p in front || p == last;
      var ms :- Listed(parts, front);
      var more :- Lookup(parts, last);
      Ok(ms + more)
  }

  /** The first part of `listed` the mapping lacks, if any. */
  lemma ListedError(parts: PartMap, listed: seq<string>)
    requires Listed(parts, listed).Err?
    ensures exists k :: (0 <= k < |listed| && Listed(parts, listed).error == KeyError(listed[k]) &&
      Lookup(parts, listed[k]).Err? && forall q :: 0 <= q < k ==> Lookup(parts, listed[q]).Ok?)
  {
    var front := listed[..|listed| - 1];
    var k: int;
    if Listed(parts, front).Err? {
      ListedError(parts, front);
      k :| 0 <= k < |front| && Listed(parts, front).error == KeyError(front[k]) &&
        Lookup(parts, front[k]).Err? && forall q :: 0 <= q < k ==> Lookup(parts, front[q]).Ok?;
      assert forall q :: 0 <= q <= k ==> front[q] == listed[q];
    } else {
      k := |listed| - 1;
      assert forall q :: 0 <= q < k ==> front[q] == listed[q] && listed[q] in front;
    }
    assert 0 <= k < |listed| && Listed(parts, listed).error == KeyError(listed[k]) &&
      Lookup(parts, listed[k]).Err? && forall q :: 0 <= q < k ==> Lookup(parts, listed[q]).Ok?;
  }

  /** The markers of every part of the mapping not listed, in the mapping's order. */
  function Unlisted(parts: PartMap, listed: seq<string>): (ms: seq<int>)
    ensures forall m :: m in ms <==> exists k :: 0 <= k < |parts| && parts[k].0 !in listed && m in parts[k].1
  {
    if |parts| == 0 then []
    else
      var front := parts[..|parts| - 1];
      var last := parts[|parts| - 1];
      var ms := Unlisted(front, listed);
      assert forall k :: 0 <= k < |front| ==> front[k] == parts[k];
      if last.0 !in listed then ms + last.1 else ms
  }

  /** `marker_sequence`: the markers whose coordinates are removed. */
  function MarkerSequence(parts: PartMap, listed: seq<string>, invert: bool): (r: Result<seq<int>>)
    ensures invert ==> r == Ok(Unlisted(parts, listed))
    ensures !invert ==> r == Listed(parts, listed)
  {
    if invert then Ok(Unlisted(parts, listed)) else Listed(parts, listed)
  }

  /**
   * The two modes split the mapping's markers between them: with every
   * listed part present, a marker is removed in one mode or the other
   * exactly when some part of the mapping has it.
   */
  lemma ModesCover(parts: PartMap, listed: seq<string>, m: int)
    requires UniqueNames(parts) && forall p :: p in listed ==> Lookup(parts, p).Ok?
    ensures (m in Listed(parts, listed).value || m in Unlisted(parts, listed)) <==>
      (exists k :: 0 <= k < |parts| && m in parts[k].1)
  {
    if exists k :: 0 <= k < |parts| && m in parts[k].1 {
      var k :| 0 <= k < |parts| && m in parts[k].1;
      if parts[k].0 in listed {
        LookupUnique(parts, k);
        assert m in Lookup(parts, parts[k].0).value;
      }
    }
    if m in Listed(parts, listed).value {
      var p :| p in listed && m in Lookup(parts, p).value;
      var k :| 0 <= k < |parts| && parts[k] == (p, Lookup(parts, p).value);
      assert m in parts[k].1;
    }
  }

  // ----- from markers to columns -----

  /** `array_index`: marker m contributes columns 3m, 3m + 1 and 3m + 2, in marker order. */
  function ArrayIndex(ms: seq<int>): (cs: seq<int>)
    ensures |cs| == 3 * |ms|
    ensures forall t :: 0 <= t < |cs| ==> cs[t] == 3 * ms[t / 3] + t % 3
  {
    if |ms| == 0 then []
    else
      var rest := ArrayIndex(ms[1..]);
      var cs := [3 * ms[0], 3 * ms[0] + 1, 3 * ms[0] + 2] + rest;
      assert forall t :: 3 <= t < |cs| ==> cs[t] == rest[t - 3] && t / 3 == (t - 3) / 3 + 1 && t % 3 == (t - 3) % 3;
      cs
  }

  /** Column j of a row of length n is reached by one of the first t positions of `index`. */
  predicate HitBefore(index: seq<int>, t: int, n: nat, j: int) {
    exists s :: 0 <= s < t && s < |index| && InRange(index[s], n) && Wrap(index[s], n) == j
  }

  predicate AllInRange(index: seq<int>, n: nat) {
    forall s :: 0 <= s < |index| ==> InRange(index[s], n)
  }

  /** A pose with every column `index` reaches set to zero. */
  function Removed(f: Frame, index: seq<int>): (g: Frame)
    ensures |g| == |f|
  {
    seq(|f|, j requires 0 <= j < |f| => if HitBefore(index, |index|, |f|, j) then 0.0 else f[j])
  }

  /** Removing twice removes no more than removing once. */
  lemma RemovedIdempotent(f: Frame, index: seq<int>)
    ensures Removed(Removed(f, index), index) == Removed(f, index)
  {
  }

  /** Removing keeps every column no position of `index` reaches, and zeroes the others. */
  lemma RemovedColumns(f: Frame, index: seq<int>, j: int)
    requires 0 <= j < |f|
    ensures Removed(f, index)[j] == 0.0 || Removed(f, index)[j] == f[j]
    ensures (forall s :: 0 <= s < |index| && InRange(index[s], |f|) ==> Wrap(index[s], |f|) != j) ==> Removed(f, index)[j] == f[j]
  {
  }

  /**
   * The zeroing loops of `anonymize`: for every pose, for every position of
   * `index`, `data[i][k] = 0`. A position outside the row raises IndexError
   * on the first pose.
   */
  method ZeroColumns(data: array2<real>, index: seq<int>) returns (err: Option<Error>)
    modifies data
    ensures err.Some? <==> data.Length0 > 0 && !AllInRange(index, data.Length1)
    ensures err.Some? ==> err == Some(IndexError)
    ensures err.None? ==> forall i :: 0 <= i < data.Length0 ==> Row(data, i) == Removed(old(Row(data, i)), index)
  {
    var h, n := data.Length0, data.Length1;
    var i := 0;
    while i < h
      invariant 0 <= i <= h
      invariant i > 0 ==> AllInRange(index, n)
      invariant forall r, j :: 0 <= r < h && 0 <= j < n ==>
        data[r, j] == (if r < i && HitBefore(index, |index|, n, j) then 0.0 else old(data[r, j]))
    {
      var t := 0;
      while t < |index|
        invariant 0 <= t <= |index|
        invariant forall s :: 0 <= s < t ==> InRange(index[s], n)
        invariant forall r, j :: 0 <= r < h && 0 <= j < n ==>
          data[r, j] == (if (r < i && HitBefore(index, |index|, n, j)) || (r == i && HitBefore(index, t, n, j)) then 0.0 else old(data[r, j]))
      {
        var c := index[t];
        if !(-n <= c < n) {
          return Some(IndexError);
        }
        data[i, Wrap(c, n)] := 0.0;
        t := t + 1;
      }
      i := i + 1;
    }
    forall i | 0 <= i < h
      ensures Row(data, i) == Removed(old(Row(data, i)), index)
    {
    }
    return None;
  }

  /**
   * `anonymize`: collect the markers (which may raise KeyError before any
   * pose changes), turn them into columns and zero those columns in every
   * pose, in place.
   */
  method Anonymize(data: array2<real>, parts: PartMap, listed: seq<string>, invert: bool) returns (err: Option<Error>)
    modifies data
    ensures MarkerSequence(parts, listed, invert).Err? ==>
      err == Some(MarkerSequence(parts, listed, invert).error) && unchanged(data)
    ensures MarkerSequence(parts, listed, invert).Ok? ==>
      var index := ArrayIndex(MarkerSequence(parts, listed, invert).value);
      (err.Some? <==> data.Length0 > 0 && !AllInRange(index, data.Length1)) &&
      (err.None? ==> forall i :: 0 <= i < data.Length0 ==> Row(data, i) == Removed(old(Row(data, i)), index))
  {
    var ms := MarkerSequence(parts, listed, invert);
    if ms.Err? {
      return Some(ms.error);
    }
    err := ZeroColumns(data, ArrayIndex(ms.value));
  }
}
