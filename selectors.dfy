/**
 * The selectors' `select`: which identities (`only_ids`) or points
 * (`only_points`) of a dataset a selector passes on to `copy`. The random
 * order a selector draws is an input: the shuffled identity list and the
 * shuffled point groups of `point_by_id`.
 */
module Selectors {
  import opened Wrappers
  import opened Values
  import opened Text
  import opened PyLib
  import opened Store
  import opened Attributes
  import opened Scan
  import opened Datasets
  import Splitters

  datatype Kind = Random | Mostpoints | Classification | Zoo | DatapointType | Full

  /** The class attribute `name`. */
  function Name(k: Kind): string {
    match k
    case Random => "random"
    case Mostpoints => "mostpoints"
    case Classification => "classification"
    case Zoo => "zoo"
    case DatapointType => "datapoint_type"
    case Full => "full"
  }

  /** The class attribute `random`. */
  predicate IsRandom(k: Kind) {
    k == Random || k == Mostpoints
  }

  /**
   * `AbstractSelector.__init__`: a random selector refuses a configuration
   * without `seed`; the configuration is kept as given.
   */
  function Construct(k: Kind, config: Config): (r: Result<Config>)
    ensures r.Ok? <==> !IsRandom(k) || "seed" in config
    ensures r.Ok? ==> r.value == config
    ensures r.Err? ==> r.error.AttributeError?
  {
    if IsRandom(k) && "seed" !in config
    then Err(AttributeError("Random Selectors require seed to be set in configuration!"))
    else Ok(config)
  }

  /**
   * What `select` passes to `copy`, and the configuration as `select`
   * leaves it (the classification selector writes its `key` default back).
   */
  datatype Selection = Selection(onlyIds: Filter, onlyPoints: Filter, config: Config)

  /** `config[key]` used as a slice bound: only an `int` (or a `bool`) bounds a slice. */
  function IntParam(config: Config, key: string): (r: Result<int>)
    ensures r.Ok? <==> key in config && (config[key].Int? || config[key].Bool?)
    ensures key !in config ==> r == Err(KeyError(key))
  {
    var v :- Values.Index(config, key);
    match v
    case Int(i) => Ok(i)
    case Bool(b) => Ok(if b then 1 else 0)
    case _ => Err(TypeError("slice indices must be integers"))
  }

  /** `config[key]` used as a factor: a number. */
  function NumParam(config: Config, key: string): (r: Result<real>)
    ensures r.Ok? <==> key in config && IsNumber(config[key])
    ensures r.Ok? ==> r.value == NumOf(config[key])
  {
    var v :- Values.Index(config, key);
    if IsNumber(v) then Ok(NumOf(v)) else Err(TypeError("unsupported operand type"))
  }

  /** An identity's `npoints`. */
  function NumPoints(idx: Index, id: string): nat {
    if id in idx.npoints then idx.npoints[id] else 0
  }

  /** The sort key `lambda x: x[1].npoints`. */
  function ByPoints(idx: Index): string -> real {
    id => NumPoints(idx, id) as real
  }

  /** A value as a sort key; only numbers are ever compared. */
  function Score(v: Value): real {
    if IsNumber(v) then NumOf(v) else 0.0
  }

  /**
   * `getattr(identity, key)` on a freshly scanned identity: its name and
   * point count are fields, anything else comes from `<id>.yaml` in the
   * dataset folder, `None` when the file or the key is missing. An
   * attribute file whose document is not a mapping reads as `None` here
   * (where Python's lookup can raise `TypeError`, see `GetAttr`).
   */
  function IdentityAttr(folders: map<string, Folder>, setname: string, idx: Index, id: string, key: string): Value {
    if key == "npoints" then Int(NumPoints(idx, id))
    else if key == "name" then Str(id)
    else match GetAttr(DocOf(ReadFile(folders, setname, id + ".yaml")), key)
      case Ok(Some(v)) => v
      case _ => Null
  }

  /** `getattr(datapoint, key)` for the point stored under `pkey`: its attribute file `<pkey>.yaml`. */
  function PointAttr(folders: map<string, Folder>, setname: string, idx: Index, pkey: string, key: string): Value {
    if key == "idname" && pkey in idx.points then Str(idx.points[pkey].idname)
    else if key == "pointname" && pkey in idx.points then Str(idx.points[pkey].pointname)
    else match GetAttr(DocOf(ReadFile(folders, setname, pkey + ".yaml")), key)
      case Ok(Some(v)) => v
      case _ => Null
  }

  // ---------------------------------------------------------------------
  // Ranking: what a cut of a stable sort keeps and drops.

  /** After an ascending sort, a tail cut keeps nothing ranked below what it drops. */
  lemma TailKeepsBest<T>(s: seq<T>, key: T -> real, c: int, x: T, y: T)
    requires x in From(SortBy(s, key), c)
    requires y in s && y !in From(SortBy(s, key), c)
    ensures key(y) <= key(x)
  {
    var r := SortBy(s, key);
    SortByFacts(s, key);
    assert y in multiset(r);
    var b :| 0 <= b < |r| && r[b] == y;
    var cl := Clamp(c, |r|);
    var i :| 0 <= i < |r[cl..]| && r[cl..][i] == x;
    assert b < cl;
    assert r[cl + i] == x;
  }

  /** The same for a sort by a string key, in Python's string order. */
  lemma TailKeepsBestByName<T>(s: seq<T>, key: T -> string, c: int, x: T, y: T)
    requires x in From(SortByName(s, key), c)
    requires y in s && y !in From(SortByName(s, key), c)
    ensures StrLe(key(y), key(x))
  {
    var r := SortByName(s, key);
    SortByNameFacts(s, key);
    assert y in multiset(r);
    var b :| 0 <= b < |r| && r[b] == y;
    var cl := Clamp(c, |r|);
    var i :| 0 <= i < |r[cl..]| && r[cl..][i] == x;
    assert b < cl;
    assert r[cl + i] == x;
  }

  /** After a descending sort, a head cut keeps nothing ranked below what it drops. */
  lemma HeadKeepsBest<T>(s: seq<T>, key: T -> real, c: int, x: T, y: T)
    requires x in Upto(SortByDescending(s, key), c)
    requires y in s && y !in Upto(SortByDescending(s, key), c)
    ensures key(y) <= key(x)
  {
    var r := SortByDescending(s, key);
    SortByFacts(s, Negated(key));
    assert y in multiset(r);
    var b :| 0 <= b < |r| && r[b] == y;
    var cl := Clamp(c, |r|);
    var a :| 0 <= a < cl && r[..cl][a] == x;
    assert b >= cl;
    assert Negated(key)(r[a]) <= Negated(key)(r[b]);
  }

  /** After a descending sort, a window ranks nothing below what follows it. */
  lemma WindowAboveRest<T>(s: seq<T>, key: T -> real, lo: int, hi: int, x: T, y: T)
    requires x in Slice(SortByDescending(s, key), lo, hi)
    requires y in From(SortByDescending(s, key), hi)
    ensures key(y) <= key(x)
  {
    var r := SortByDescending(s, key);
    var l := Clamp(lo, |r|);
    var h := Clamp(hi, |r|);
    var i :| 0 <= i < |r[l..h]| && r[l..h][i] == x;
    var j :| 0 <= j < |r[h..]| && r[h..][j] == y;
    assert r[l + i] == x && r[h + j] == y;
    DescendingAt(s, key, l + i, h + j);
  }

  /** Two positions of a descending sort, in order. */
  lemma DescendingAt<T>(s: seq<T>, key: T -> real, a: int, b: int)
    requires 0 <= a < b < |s|
    ensures key(SortByDescending(s, key)[b]) <= key(SortByDescending(s, key)[a])
  {
    var r := SortByDescending(s, key);
    SortByFacts(s, Negated(key));
    assert Negated(key)(r[a]) <= Negated(key)(r[b]);
  }

  /** A slice `[a:a+n]` holds at most `n` items. */
  lemma SliceWidth<T>(s: seq<T>, a: int, n: int)
    requires n >= 0
    ensures |Slice(s, a, a + n)| <= n
  {
  }

  // ---------------------------------------------------------------------
  // random

  /** `min_img_per_id` when set; comparing it with a count fails unless it is a number (and no count is compared without identities). */
  function MinPoints(config: Config, idx: Index): (r: Result<Option<real>>)
    ensures r.Err? <==> "min_img_per_id" in config && |idx.identities| > 0 && !IsNumber(config["min_img_per_id"])
    ensures r.Ok? && r.value.Some? ==> "min_img_per_id" in config && IsNumber(config["min_img_per_id"]) && r.value.value == NumOf(config["min_img_per_id"])
    ensures r.Ok? && "min_img_per_id" in config && |idx.identities| > 0 ==> r.value.Some?
  {
    if "min_img_per_id" !in config || |idx.identities| == 0 then Ok(None)
    else if IsNumber(config["min_img_per_id"]) then Ok(Some(NumOf(config["min_img_per_id"])))
    else Err(TypeError("'>=' not supported"))
  }

  /** The identities, in order, that have at least `min` points (all of them without a minimum). */
  function Eligible(idx: Index, ids: seq<string>, min: Option<real>): (r: seq<string>)
    ensures forall x :: x in r <==> x in ids && (min.Some? ==> NumPoints(idx, x) as real >= min.value)
    ensures Distinct(ids) ==> Distinct(r)
  {
    if |ids| == 0 then []
    else
      var rest := Eligible(idx, ids[1..], min);
      assert Distinct(ids) ==> Distinct(ids[1..]) by {
        if Distinct(ids) {
          forall i, j | 0 <= i < j < |ids[1..]| ensures ids[1..][i] != ids[1..][j] {
            assert ids[1..][i] == ids[i + 1] && ids[1..][j] == ids[j + 1];
          }
        }
      }
      if min.None? || NumPoints(idx, ids[0]) as real >= min.value then
        assert Distinct(ids) ==> Distinct([ids[0]] + rest) by {
          if Distinct(ids) {
            DistinctConcatHead(ids[0], rest);
          }
        }
        [ids[0]] + rest
      else rest
  }

  lemma DistinctConcatHead<T>(x: T, s: seq<T>)
    requires Distinct(s) && x !in s
    ensures Distinct([x] + s)
  {
    var r := [x] + s;
    forall i, j | 0 <= i < j < |r| ensures r[i] != r[j] {
      assert r[j] == s[j - 1];
      if i > 0 {
        assert r[i] == s[i - 1];
      }
    }
  }

  /** `only_imgs` after the loop over the shuffled groups: the first `m` points of each group in turn. */
  function Capped(groups: seq<seq<string>>, m: int): seq<string> {
    if |groups| == 0 then []
    else Capped(groups[..|groups| - 1], m) + Upto(groups[|groups| - 1], m)
  }

  lemma {:induction false} CappedMember(groups: seq<seq<string>>, m: int, x: string)
    ensures x in Capped(groups, m) <==> exists i :: 0 <= i < |groups| && x in Upto(groups[i], m)
  {
    if |groups| > 0 {
      var init := groups[..|groups| - 1];
      CappedMember(init, m, x);
      if x in Capped(init, m) {
        var i :| 0 <= i < |init| && x in Upto(init[i], m);
        assert groups[i] == init[i];
      }
      if exists i :: 0 <= i < |groups| && x in Upto(groups[i], m) {
        var i :| 0 <= i < |groups| && x in Upto(groups[i], m);
        if i < |groups| - 1 {
          assert init[i] == groups[i];
        }
      }
    }
  }

  /**
   * `RandomSelector.select`, given the shuffled eligible identities and the
   * shuffled point groups: the first `ids` identities, and with
   * `max_img_per_id` the first that many points of every identity.
   */
  function RandomSelection(config: Config, idx: Index, shuffled: seq<string>, groups: seq<seq<string>>): Result<Selection> {
    var _ :- MinPoints(config, idx);
    var n :- IntParam(config, "ids");
    var onlyIds := Only(Upto(shuffled, n));
    if "max_img_per_id" !in config then Ok(Selection(onlyIds, NoFilter, config))
    else if |groups| == 0 then Ok(Selection(onlyIds, Only([]), config))
    else
      var m :- IntParam(config, "max_img_per_id");
      Ok(Selection(onlyIds, Only(Capped(groups, m)), config))
  }

  /** The loop of `RandomSelector.select`; `max_img_per_id` is read in every round. */
  method SelectRandom(config: Config, idx: Index, shuffled: seq<string>, groups: seq<seq<string>>)
    returns (r: Result<Selection>)
    ensures r == RandomSelection(config, idx, shuffled, groups)
  {
    var min := MinPoints(config, idx);
    if min.Err? {
      return Err(min.error);
    }
    var n := IntParam(config, "ids");
    if n.Err? {
      return Err(n.error);
    }
    var onlyIds := Upto(shuffled, n.value);
    if "max_img_per_id" !in config {
      return Ok(Selection(Only(onlyIds), NoFilter, config));
    }
    ghost var bound := IntParam(config, "max_img_per_id");
    var imgs: seq<string> := [];
    var i := 0;
    while i < |groups|
      invariant 0 <= i <= |groups|
      invariant i > 0 ==> bound.Ok?
      invariant imgs == Capped(groups[..i], if bound.Ok? then bound.value else 0)
    {
      var m := IntParam(config, "max_img_per_id");
      if m.Err? {
        return Err(m.error);
      }
      assert groups[..i + 1][..i] == groups[..i];
      imgs := imgs + Upto(groups[i], m.value);
      i := i + 1;
    }
    assert groups[..|groups|] == groups;
    r := Ok(Selection(Only(onlyIds), Only(imgs), config));
  }

  /**
   * The random selection keeps at most `ids` identities, all of them
   * eligible and none twice; with enough eligible identities exactly
   * `ids`; with none eligible the identity list is empty. Without
   * `max_img_per_id` no point filter is applied.
   */
  lemma RandomFacts(config: Config, idx: Index, shuffled: seq<string>, groups: seq<seq<string>>)
    requires IndexValid(idx)
    requires MinPoints(config, idx).Ok? ==>
      multiset(shuffled) == multiset(Eligible(idx, idx.identities, MinPoints(config, idx).value))
    requires RandomSelection(config, idx, shuffled, groups).Ok?
    ensures var min := MinPoints(config, idx).value;
      var sel := RandomSelection(config, idx, shuffled, groups).value;
      var n := IntParam(config, "ids").value;
      sel.onlyIds.Only? &&
      Distinct(sel.onlyIds.names) &&
      (forall x :: x in sel.onlyIds.names ==> x in idx.identities && (min.Some? ==> NumPoints(idx, x) as real >= min.value)) &&
      (n >= 0 ==> |sel.onlyIds.names| <= n) &&
      (0 <= n <= |Eligible(idx, idx.identities, min)| ==> |sel.onlyIds.names| == n) &&
      (|Eligible(idx, idx.identities, min)| == 0 ==> sel.onlyIds == Only([])) &&
      ("max_img_per_id" !in config <==> sel.onlyPoints == NoFilter)
  {
    var min := MinPoints(config, idx).value;
    var e := Eligible(idx, idx.identities, min);
    PermutationDistinct(e, shuffled);
    var n := IntParam(config, "ids").value;
    DistinctCut(shuffled, n);
    forall x | x in Upto(shuffled, n)
      ensures x in idx.identities && (min.Some? ==> NumPoints(idx, x) as real >= min.value)
    {
      assert x in multiset(shuffled);
      assert x in multiset(e);
    }
    assert |shuffled| == |e| by {
      assert |multiset(shuffled)| == |multiset(e)|;
    }
  }

  /**
   * With `max_img_per_id` = m, a point of the identity at position `i` is
   * kept iff it is among the first m of that identity's shuffled points,
   * so no identity keeps more than m of them.
   */
  lemma CappedPerIdentity(idx: Index, groups: seq<seq<string>>, m: int, i: nat, x: string)
    requires IndexValid(idx) && Splitters.Shuffles(PointById(idx), groups) && i < |groups|
    requires x in groups[i]
    ensures x in Capped(groups, m) <==> x in Upto(groups[i], m)
    ensures m >= 0 ==> |Upto(groups[i], m)| <= m
  {
    CappedMember(groups, m, x);
    if x in Capped(groups, m) {
      var j :| 0 <= j < |groups| && x in Upto(groups[j], m);
      UptoMember(groups[j], m, x);
      GroupsDisjoint(idx, groups, i, j, x);
    }
  }

  lemma UptoMember(s: seq<string>, m: int, x: string)
    requires x in Upto(s, m)
    ensures x in s
  {
    var t :| 0 <= t < |Upto(s, m)| && Upto(s, m)[t] == x;
    assert s[t] == x;
  }

  /** Shuffled point groups of different identities share no point. */
  lemma GroupsDisjoint(idx: Index, groups: seq<seq<string>>, i: nat, j: nat, x: string)
    requires IndexValid(idx) && Splitters.Shuffles(PointById(idx), groups)
    requires i < |groups| && j < |groups| && x in groups[i] && x in groups[j]
    ensures i == j
  {
    assert x in multiset(PointById(idx)[j]) by {
      assert x in multiset(groups[j]);
    }
    assert x in multiset(PointById(idx)[i]) by {
      assert x in multiset(groups[i]);
    }
    PointByIdPartition(idx, i, x);
    PointByIdPartition(idx, j, x);
    assert idx.identities[i] == idx.identities[j];
  }

  // ---------------------------------------------------------------------
  // mostpoints

  /** `int(config["offset"])`, 0 when absent; a numeric string is parsed as `int` does. */
  function Offset(config: Config): (r: Result<int>)
    ensures "offset" !in config ==> r == Ok(0)
    ensures "offset" in config ==> r == ToInt(config["offset"])
  {
    if "offset" !in config then Ok(0) else ToInt(config["offset"])
  }

  /**
   * `MostpointsSelector.select`, given the shuffled identities: sorted by
   * point count, largest first (ties stay in shuffled order), and the
   * window `[offset, offset + ids)` taken.
   */
  function MostpointsSelection(config: Config, idx: Index, shuffled: seq<string>): Result<Selection> {
    var offset :- Offset(config);
    var n :- IntParam(config, "ids");
    var ranked := SortByDescending(shuffled, ByPoints(idx));
    Ok(Selection(Only(Slice(ranked, offset, offset + n)), NoFilter, config))
  }

  /** The ranking is by point count, largest first, and holds every identity once. */
  lemma MostpointsRanking(idx: Index, shuffled: seq<string>)
    requires multiset(shuffled) == multiset(idx.identities)
    ensures var ranked := SortByDescending(shuffled, ByPoints(idx));
      (forall i, j :: 0 <= i < j < |ranked| ==> NumPoints(idx, ranked[j]) <= NumPoints(idx, ranked[i])) &&
      multiset(ranked) == multiset(idx.identities)
  {
    var ranked := SortByDescending(shuffled, ByPoints(idx));
    SortByFacts(shuffled, Negated(ByPoints(idx)));
    forall i, j | 0 <= i < j < |ranked| ensures NumPoints(idx, ranked[j]) <= NumPoints(idx, ranked[i]) {
      assert Negated(ByPoints(idx))(ranked[i]) <= Negated(ByPoints(idx))(ranked[j]);
    }
  }

  /**
   * The window holds at most `ids` identities, none with fewer points than
   * any identity after it, and starts at the top when no offset is given.
   */
  lemma MostpointsWindow(config: Config, idx: Index, shuffled: seq<string>)
    requires multiset(shuffled) == multiset(idx.identities)
    requires MostpointsSelection(config, idx, shuffled).Ok?
    ensures var ranked := SortByDescending(shuffled, ByPoints(idx));
      var offset := Offset(config).value;
      var n := IntParam(config, "ids").value;
      var window := MostpointsSelection(config, idx, shuffled).value.onlyIds.names;
      (forall x :: x in window ==> x in idx.identities) &&
      (n >= 0 ==> |window| <= n) &&
      (forall x, y :: x in window && y in From(ranked, offset + n) ==> NumPoints(idx, y) <= NumPoints(idx, x)) &&
      ("offset" !in config ==> window == Upto(ranked, n))
  {
    var ranked := SortByDescending(shuffled, ByPoints(idx));
    var offset := Offset(config).value;
    var n := IntParam(config, "ids").value;
    var window := Slice(ranked, offset, offset + n);
    forall x | x in window ensures x in idx.identities {
      WindowMember(shuffled, ByPoints(idx), offset, offset + n, x);
      assert x in multiset(shuffled);
    }
    if n >= 0 {
      SliceWidth(ranked, offset, n);
    }
    forall x, y | x in window && y in From(ranked, offset + n) ensures NumPoints(idx, y) <= NumPoints(idx, x) {
      WindowAboveRest(shuffled, ByPoints(idx), offset, offset + n, x, y);
    }
  }

  lemma WindowMember<T>(s: seq<T>, key: T -> real, lo: int, hi: int, x: T)
    requires x in Slice(SortByDescending(s, key), lo, hi)
    ensures x in multiset(s)
  {
    var r := SortByDescending(s, key);
    var l := Clamp(lo, |r|);
    var h := Clamp(hi, |r|);
    assert l <= h && x in r[l..h];
    assert x in r;
    SortByFacts(s, Negated(key));
    assert x in multiset(r);
  }

  // ---------------------------------------------------------------------
  // classification

  /** The sort key; `classification_hitrate` unless the configuration names one. */
  function ClassificationKey(config: Config): Value {
    if "key" in config then config["key"] else Str("classification_hitrate")
  }

  /** The key's value of every identity, in identity order. */
  function KeyValues(folders: map<string, Folder>, setname: string, idx: Index, key: string): (vals: seq<Value>)
    ensures |vals| == |idx.identities|
  {
    seq(|idx.identities|, i requires 0 <= i < |idx.identities| => IdentityAttr(folders, setname, idx, idx.identities[i], key))
  }

  /** `tmp` before sorting: each identity's position with its value. */
  function Enumerate(vals: seq<Value>): seq<(nat, Value)> {
    seq(|vals|, i requires 0 <= i < |vals| => (i, vals[i]))
  }

  /** The sort key `lambda y: y[1]`. */
  function BySecond(): ((nat, Value)) -> real {
    (p: (nat, Value)) => Score(p.1)
  }

  /** The sort key `lambda y: y[1]` when every value is a string. */
  function ByText(): ((nat, Value)) -> string {
    (p: (nat, Value)) => TextOf(p.1)
  }

  function TextOf(v: Value): string {
    if v.Str? then v.s else ""
  }

  predicate AllNumbers(vals: seq<Value>) {
    forall i :: 0 <= i < |vals| ==> IsNumber(vals[i])
  }

  predicate AllStrings(vals: seq<Value>) {
    forall i :: 0 <= i < |vals| ==> vals[i].Str?
  }

  /**
   * `sort` can order the values when all are numbers or all are strings,
   * or when there is nothing to compare.
   */
  predicate Comparable(vals: seq<Value>) {
    |vals| < 2 || AllNumbers(vals) || AllStrings(vals)
  }

  /**
   * The order the sort ranks two of the values in: Python's string order
   * when every value is a string, the numeric order otherwise.
   */
  predicate RankLe(vals: seq<Value>, a: Value, b: Value) {
    if AllStrings(vals) then StrLe(TextOf(a), TextOf(b)) else Score(a) <= Score(b)
  }

  /** `tmp` after the stable ascending sort. */
  function Ranked(vals: seq<Value>): (r: seq<(nat, Value)>)
    ensures |r| == |vals|
    ensures forall t :: 0 <= t < |r| ==> r[t].0 < |vals| && r[t].1 == vals[r[t].0]
  {
    RankedFacts(vals);
    if AllStrings(vals) then SortByName(Enumerate(vals), ByText()) else SortBy(Enumerate(vals), BySecond())
  }

  lemma RankedFacts(vals: seq<Value>)
    ensures var r := if AllStrings(vals) then SortByName(Enumerate(vals), ByText()) else SortBy(Enumerate(vals), BySecond());
      forall t :: 0 <= t < |r| ==> r[t].0 < |vals| && r[t].1 == vals[r[t].0]
  {
    var r := if AllStrings(vals) then SortByName(Enumerate(vals), ByText()) else SortBy(Enumerate(vals), BySecond());
    if AllStrings(vals) {
      SortByNameFacts(Enumerate(vals), ByText());
    } else {
      SortByFacts(Enumerate(vals), BySecond());
    }
    forall t | 0 <= t < |r| ensures r[t].0 < |vals| && r[t].1 == vals[r[t].0] {
      assert r[t] in multiset(Enumerate(vals));
    }
  }

  /** The sort only reorders the pairs. */
  lemma RankedPermutes(vals: seq<Value>)
    ensures multiset(Ranked(vals)) == multiset(Enumerate(vals))
  {
    if AllStrings(vals) {
      SortByNameFacts(Enumerate(vals), ByText());
    } else {
      SortByFacts(Enumerate(vals), BySecond());
    }
  }

  /** The identities of the ranked pairs from position `c` on (`tmp[c:]`, mapped back to names). */
  function KeptIds(ids: seq<string>, vals: seq<Value>, c: int): (r: seq<string>)
    requires |ids| == |vals|
    ensures |r| == |From(Ranked(vals), c)|
  {
    var kept := From(Ranked(vals), c);
    seq(|kept|, j requires 0 <= j < |kept| => ids[kept[j].0])
  }

  /**
   * `ClassificationSelector.select`: the identities sorted by the key's
   * value, ascending, and the last `ids` of them kept (all of them for
   * `ids` = 0, since `tmp[-0:]` is the whole list).
   */
  function ClassificationSelection(config: Config, folders: map<string, Folder>, setname: string, idx: Index): Result<Selection> {
    var key := ClassificationKey(config);
    Classified(idx.identities, key, if key.Str? then KeyValues(folders, setname, idx, key.s) else [], config["key" := key])
  }

  /** The selection from the identities' values `vals` under the attribute name `key`. */
  function Classified(ids: seq<string>, key: Value, vals: seq<Value>, cfg: Config): Result<Selection>
    requires (|ids| > 0 && !key.Str?) || |vals| == |ids|
  {
    if |ids| > 0 && !key.Str? then Err(TypeError("attribute name must be string"))
    else if !Comparable(vals) then Err(TypeError("'<' not supported"))
    else
      var n :- IntParam(cfg, "ids");
      Ok(Selection(Only(KeptIds(ids, vals, -n)), NoFilter, cfg))
  }

  /** The two loops of `ClassificationSelector.select` around its sort. */
  method SelectClassification(config: Config, folders: map<string, Folder>, setname: string, idx: Index)
    returns (r: Result<Selection>)
    ensures r == ClassificationSelection(config, folders, setname, idx)
  {
    var key := ClassificationKey(config);
    ghost var vals := if key.Str? then KeyValues(folders, setname, idx, key.s) else [];
    var collected := CollectValues(folders, setname, idx, key);
    if collected.Err? {
      return Err(collected.error);
    }
    r := SortAndCut(idx.identities, key, collected.value, config["key" := key], vals);
  }

  /** `tmp.sort(key=lambda y: y[1])` and the cut `tmp[-ids:]` on the collected pairs. */
  method SortAndCut(ids: seq<string>, key: Value, tmp: seq<(nat, Value)>, cfg: Config, ghost vals: seq<Value>)
    returns (r: Result<Selection>)
    requires |vals| == |ids| && tmp == Enumerate(vals) && (|ids| == 0 || key.Str?)
    ensures r == Classified(ids, key, vals, cfg)
  {
    var seconds := seq(|tmp|, t requires 0 <= t < |tmp| => tmp[t].1);
    assert seconds == vals;
    var strings := AllStrings(seconds);
    if !Comparable(seconds) {
      return Err(TypeError("'<' not supported"));
    }
    var n := IntParam(cfg, "ids");
    if n.Err? {
      return Err(n.error);
    }
    var onlyIds := Cut(ids, tmp, strings, n.value, vals);
    CutIsClassified(ids, key, vals, cfg, n.value, onlyIds);
    r := Ok(Selection(Only(onlyIds), NoFilter, cfg));
  }

  /** The sort of the pairs, the cut `tmp[-ids:]` and the names of the identities kept. */
  method Cut(ids: seq<string>, tmp: seq<(nat, Value)>, strings: bool, n: int, ghost vals: seq<Value>)
    returns (onlyIds: seq<string>)
    requires |vals| == |ids| && tmp == Enumerate(vals) && strings == AllStrings(vals)
    ensures onlyIds == KeptIds(ids, vals, -n)
  {
    var sorted;
    if strings {
      sorted := SortByName(tmp, ByText());
    } else {
      sorted := SortBy(tmp, BySecond());
    }
    assert sorted == Ranked(vals);
    onlyIds := NamesOf(ids, From(sorted, -n));
  }

  /** Names taken in ranked order and cut at `-n` are the classification's selection. */
  lemma CutIsClassified(ids: seq<string>, key: Value, vals: seq<Value>, cfg: Config, n: int, names: seq<string>)
    requires |vals| == |ids| && (|ids| == 0 || key.Str?) && Comparable(vals) && IntParam(cfg, "ids") == Ok(n)
    requires names == KeptIds(ids, vals, -n)
    ensures Classified(ids, key, vals, cfg) == Ok(Selection(Only(names), NoFilter, cfg))
  {
  }

  /** The first loop: each identity's position with its value under the key, which must be a string. */
  method CollectValues(folders: map<string, Folder>, setname: string, idx: Index, key: Value)
    returns (r: Result<seq<(nat, Value)>>)
    ensures r.Err? <==> |idx.identities| > 0 && !key.Str?
    ensures r.Err? ==> r.error == TypeError("attribute name must be string")
    ensures r.Ok? ==> r.value == Enumerate(if key.Str? then KeyValues(folders, setname, idx, key.s) else [])
  {
    var ids := idx.identities;
    ghost var vals := if key.Str? then KeyValues(folders, setname, idx, key.s) else [];
    var tmp: seq<(nat, Value)> := [];
    var i := 0;
    while i < |ids|
      invariant 0 <= i <= |ids|
      invariant i > 0 ==> key.Str?
      invariant key.Str? ==> |vals| == |ids|
      invariant !key.Str? ==> vals == []
      invariant tmp == Enumerate(vals)[..i]
    {
      if !key.Str? {
        return Err(TypeError("attribute name must be string"));
      }
      tmp := tmp + [(i, IdentityAttr(folders, setname, idx, ids[i], key.s))];
      i := i + 1;
    }
    assert tmp == Enumerate(vals);
    r := Ok(tmp);
  }

  /** The second loop: the names of the kept identities, in ranked order. */
  method NamesOf(ids: seq<string>, kept: seq<(nat, Value)>) returns (names: seq<string>)
    requires forall j :: 0 <= j < |kept| ==> kept[j].0 < |ids|
    ensures |names| == |kept| && forall j :: 0 <= j < |kept| ==> names[j] == ids[kept[j].0]
  {
    names := [];
    var j := 0;
    while j < |kept|
      invariant 0 <= j <= |kept| && |names| == j
      invariant forall t :: 0 <= t < j ==> names[t] == ids[kept[t].0]
    {
      names := names + [ids[kept[j].0]];
      j := j + 1;
    }
  }

  /** An identity dropped by the cut ranks no higher than one kept. */
  lemma KeptAboveDropped(folders: map<string, Folder>, setname: string, idx: Index, key: string, c: int, x: string, y: string)
    requires x in KeptIds(idx.identities, KeyValues(folders, setname, idx, key), c)
    requires y in idx.identities && y !in KeptIds(idx.identities, KeyValues(folders, setname, idx, key), c)
    ensures RankLe(KeyValues(folders, setname, idx, key), IdentityAttr(folders, setname, idx, y, key), IdentityAttr(folders, setname, idx, x, key))
  {
    var ids := idx.identities;
    var vals := KeyValues(folders, setname, idx, key);
    var r := Ranked(vals);
    var kept := KeptIds(ids, vals, c);
    var tail := From(r, c);
    var a :| 0 <= a < |kept| && kept[a] == x;
    var p: (nat, Value) := tail[a];
    assert p == r[Clamp(c, |r|) + a];
    var b :| 0 <= b < |ids| && ids[b] == y;
    var q: (nat, Value) := (b, vals[b]);
    assert q == Enumerate(vals)[b];
    KeptIdsHas(ids, vals, c, q);
    if AllStrings(vals) {
      TailKeepsBestByName(Enumerate(vals), ByText(), c, p, q);
    } else {
      TailKeepsBest(Enumerate(vals), BySecond(), c, p, q);
    }
  }

  lemma KeptAboveAllDropped(folders: map<string, Folder>, setname: string, idx: Index, key: string, c: int)
    ensures var kept := KeptIds(idx.identities, KeyValues(folders, setname, idx, key), c);
      forall x, y :: x in kept && y in idx.identities && y !in kept ==>
        RankLe(KeyValues(folders, setname, idx, key), IdentityAttr(folders, setname, idx, y, key), IdentityAttr(folders, setname, idx, x, key))
  {
    var kept := KeptIds(idx.identities, KeyValues(folders, setname, idx, key), c);
    forall x, y | x in kept && y in idx.identities && y !in kept
      ensures RankLe(KeyValues(folders, setname, idx, key), IdentityAttr(folders, setname, idx, y, key), IdentityAttr(folders, setname, idx, x, key))
    {
      KeptAboveDropped(folders, setname, idx, key, c, x, y);
    }
  }

  lemma KeptIdsHas(ids: seq<string>, vals: seq<Value>, c: int, q: (nat, Value))
    requires |ids| == |vals| && q.0 < |ids|
    ensures q in From(Ranked(vals), c) ==> ids[q.0] in KeptIds(ids, vals, c)
  {
    var tail := From(Ranked(vals), c);
    if q in tail {
      var t :| 0 <= t < |tail| && tail[t] == q;
      assert KeptIds(ids, vals, c)[t] == ids[q.0];
    }
  }

  /** A cut at position 0 keeps every identity. */
  lemma CutAtZeroKeepsAll(folders: map<string, Folder>, setname: string, idx: Index, key: string, x: string)
    requires x in idx.identities
    ensures x in KeptIds(idx.identities, KeyValues(folders, setname, idx, key), 0)
  {
    var ids := idx.identities;
    var vals := KeyValues(folders, setname, idx, key);
    var r := Ranked(vals);
    RankedPermutes(vals);
    var b :| 0 <= b < |ids| && ids[b] == x;
    assert (b, vals[b]) == Enumerate(vals)[b];
    assert (b, vals[b]) in multiset(r);
    var t :| 0 <= t < |r| && r[t] == (b, vals[b]);
    assert From(r, 0) == r;
    assert KeptIds(ids, vals, 0)[t] == x;
  }

  /**
   * The classification selection keeps the identities with the highest
   * values: none kept has a lower value than one dropped. With `ids` = n
   * > 0 it keeps min(n, #identities) of them, and with `ids` = 0 all of
   * them (`tmp[-0:]` is the whole list).
   */
  lemma ClassificationKeepsBest(config: Config, folders: map<string, Folder>, setname: string, idx: Index)
    requires ClassificationSelection(config, folders, setname, idx).Ok?
    requires |idx.identities| > 0
    ensures var key := ClassificationKey(config).s;
      var kept := ClassificationSelection(config, folders, setname, idx).value.onlyIds.names;
      var n := IntParam(config["key" := ClassificationKey(config)], "ids").value;
      (forall x, y :: x in kept && y in idx.identities && y !in kept ==>
        RankLe(KeyValues(folders, setname, idx, key), IdentityAttr(folders, setname, idx, y, key), IdentityAttr(folders, setname, idx, x, key))) &&
      (n > 0 ==> |kept| == if n < |idx.identities| then n else |idx.identities|) &&
      (n == 0 ==> |kept| == |idx.identities| && forall x :: x in idx.identities ==> x in kept)
  {
    var key := ClassificationKey(config).s;
    var n := IntParam(config["key" := ClassificationKey(config)], "ids").value;
    assert ClassificationSelection(config, folders, setname, idx).value.onlyIds.names ==
      KeptIds(idx.identities, KeyValues(folders, setname, idx, key), -n);
    KeptFacts(folders, setname, idx, key, n);
  }

  /** The three facts of the lemma above, for the kept identities themselves. */
  lemma KeptFacts(folders: map<string, Folder>, setname: string, idx: Index, key: string, n: int)
    requires |idx.identities| > 0
    ensures var kept := KeptIds(idx.identities, KeyValues(folders, setname, idx, key), -n);
      (forall x, y :: x in kept && y in idx.identities && y !in kept ==>
        RankLe(KeyValues(folders, setname, idx, key), IdentityAttr(folders, setname, idx, y, key), IdentityAttr(folders, setname, idx, x, key))) &&
      (n > 0 ==> |kept| == if n < |idx.identities| then n else |idx.identities|) &&
      (n == 0 ==> |kept| == |idx.identities| && forall x :: x in idx.identities ==> x in kept)
  {
    var vals := KeyValues(folders, setname, idx, key);
    var kept := KeptIds(idx.identities, vals, -n);
    assert |kept| == |Ranked(vals)| - Clamp(-n, |Ranked(vals)|);
    KeptAboveAllDropped(folders, setname, idx, key, -n);
    if n == 0 {
      forall x | x in idx.identities ensures x in kept {
        CutAtZeroKeepsAll(folders, setname, idx, key, x);
      }
    }
  }

  // ---------------------------------------------------------------------
  // zoo

  /** The attribute suffix: `_score_eucl` when `use_eucl` is truthy, else `_score_cos`. */
  function ZooSuffix(config: Config): (r: Result<string>)
    ensures r.Ok? <==> "use_eucl" in config
    ensures r.Ok? ==> r.value == (if Truthy(config["use_eucl"]) then "_score_eucl" else "_score_cos")
  {
    var u :- Values.Index(config, "use_eucl");
    Ok(if Truthy(u) then "_score_eucl" else "_score_cos")
  }

  /** `getattr(x, attr)[field]` as a number. */
  function Extreme(v: Value, field: string): (r: Result<real>)
    ensures r.Ok? <==> v.Dict? && field in v.entries && IsNumber(v.entries[field])
    ensures r.Ok? ==> r.value == NumOf(v.entries[field])
  {
    match v
    case Dict(m) =>
      if field !in m then Err(KeyError(field))
      else if IsNumber(m[field]) then Ok(NumOf(m[field]))
      else Err(TypeError("unsupported operand type"))
    case _ => Err(TypeError("object is not subscriptable"))
  }

  /** The first map of `ZooSelector.select`: (name, -gen.max, imp.min) per identity, in order. */
  function ZooTerms(folders: map<string, Folder>, setname: string, idx: Index, ids: seq<string>, suffix: string)
    : (r: Result<seq<(string, real, real)>>)
    ensures r.Ok? ==> |r.value| == |ids| && forall i :: 0 <= i < |ids| ==> r.value[i].0 == ids[i]
  {
    if |ids| == 0 then Ok([])
    else
      var g :- Extreme(IdentityAttr(folders, setname, idx, ids[0], "gen" + suffix), "max");
      var m :- Extreme(IdentityAttr(folders, setname, idx, ids[0], "imp" + suffix), "min");
      var rest :- ZooTerms(folders, setname, idx, ids[1..], suffix);
      Ok([(ids[0], -g, m)] + rest)
  }

  /** The second map: each identity's weighted score `genuine·(-gen.max) + imposter·imp.min`. */
  function ZooScores(config: Config, terms: seq<(string, real, real)>): (r: Result<seq<(string, real)>>)
    ensures r.Ok? ==> |r.value| == |terms|
    ensures r.Ok? ==> forall i :: 0 <= i < |terms| ==> r.value[i].0 == terms[i].0
    ensures r.Ok? ==> forall i :: 0 <= i < |terms| ==>
      "genuine" in config && "imposter" in config && IsNumber(config["genuine"]) && IsNumber(config["imposter"]) &&
      r.value[i].1 == NumOf(config["genuine"]) * terms[i].1 + NumOf(config["imposter"]) * terms[i].2
    ensures |terms| > 0 ==> (r.Ok? <==> "genuine" in config && IsNumber(config["genuine"]) &&
                                        "imposter" in config && IsNumber(config["imposter"]))
  {
    if |terms| == 0 then Ok([])
    else
      var gw :- NumParam(config, "genuine");
      var iw :- NumParam(config, "imposter");
      Ok(seq(|terms|, i requires 0 <= i < |terms| => (terms[i].0, gw * terms[i].1 + iw * terms[i].2)))
  }

  /** The scored identities. */
  function ZooScored(config: Config, folders: map<string, Folder>, setname: string, idx: Index): Result<seq<(string, real)>> {
    var suffix :- ZooSuffix(config);
    var terms :- ZooTerms(folders, setname, idx, idx.identities, suffix);
    ZooScores(config, terms)
  }

  /** The sort key `lambda x: x[1]`. */
  function ByWeight(): ((string, real)) -> real {
    (p: (string, real)) => p.1
  }

  function Names(pairs: seq<(string, real)>): (r: seq<string>)
    ensures |r| == |pairs|
  {
    seq(|pairs|, i requires 0 <= i < |pairs| => pairs[i].0)
  }

  /** `ZooSelector.select`: the identities by score, highest first, and the first `ids` kept. */
  function ZooSelection(config: Config, folders: map<string, Folder>, setname: string, idx: Index): Result<Selection> {
    var scored :- ZooScored(config, folders, setname, idx);
    var ranked := SortByDescending(scored, ByWeight());
    var n :- IntParam(config, "ids");
    Ok(Selection(Only(Upto(Names(ranked), n)), NoFilter, config))
  }

  /** Among distinctly named scores, one a head cut drops scores no higher than one it keeps. */
  lemma ScoredAboveDropped(scored: seq<(string, real)>, n: int, i: nat, j: nat)
    requires Distinct(Names(scored)) && i < |scored| && j < |scored|
    requires scored[i].0 in Names(Upto(SortByDescending(scored, ByWeight()), n))
    requires scored[j].0 !in Names(Upto(SortByDescending(scored, ByWeight()), n))
    ensures scored[j].1 <= scored[i].1
  {
    var ranked := SortByDescending(scored, ByWeight());
    var top := Upto(ranked, n);
    SortByFacts(scored, Negated(ByWeight()));
    var a :| 0 <= a < |top| && Names(top)[a] == scored[i].0;
    var p := top[a];
    assert p == ranked[a];
    assert p in multiset(scored);
    var i' :| 0 <= i' < |scored| && scored[i'] == p;
    assert Names(scored)[i'] == Names(scored)[i];
    NamesHas(top, scored[j]);
    HeadKeepsBest(scored, ByWeight(), n, scored[i], scored[j]);
  }

  lemma NamesHas(pairs: seq<(string, real)>, p: (string, real))
    ensures p in pairs ==> p.0 in Names(pairs)
  {
    if p in pairs {
      var t :| 0 <= t < |pairs| && pairs[t] == p;
      assert Names(pairs)[t] == p.0;
    }
  }

  /**
   * The zoo selection keeps the identities of highest score: none kept
   * scores lower than one dropped; at most `ids` are kept.
   */
  lemma ZooKeepsBest(config: Config, folders: map<string, Folder>, setname: string, idx: Index)
    requires Distinct(idx.identities)
    requires ZooSelection(config, folders, setname, idx).Ok?
    ensures var scored := ZooScored(config, folders, setname, idx).value;
      var kept := ZooSelection(config, folders, setname, idx).value.onlyIds.names;
      var n := IntParam(config, "ids").value;
      Names(scored) == idx.identities &&
      (forall i, j :: 0 <= i < |scored| && 0 <= j < |scored| && scored[i].0 in kept && scored[j].0 !in kept ==>
        scored[j].1 <= scored[i].1) &&
      (n >= 0 ==> |kept| <= n)
  {
    var scored := ZooScored(config, folders, setname, idx).value;
    var ranked := SortByDescending(scored, ByWeight());
    var n := IntParam(config, "ids").value;
    assert Names(scored) == idx.identities;
    assert Upto(Names(ranked), n) == Names(Upto(ranked, n));
    forall i, j | 0 <= i < |scored| && 0 <= j < |scored| && scored[i].0 in Names(Upto(ranked, n)) && scored[j].0 !in Names(Upto(ranked, n))
      ensures scored[j].1 <= scored[i].1
    {
      ScoredAboveDropped(scored, n, i, j);
    }
  }

  // ---------------------------------------------------------------------
  // datapoint_type

  /** `value in allowed` for an allowed list (Python's `in` compares with `==`). */
  predicate Allowed(v: Value, allowed: Value) {
    allowed.List? && exists i :: 0 <= i < |allowed.items| && PyEq(v, allowed.items[i])
  }

  /** `getattr(datapoint, a) in allowed` */
  predicate Passes(folders: map<string, Folder>, setname: string, idx: Index, pkey: string, a: string, allowed: Value) {
    Allowed(PointAttr(folders, setname, idx, pkey, a), allowed)
  }

  /** The attributes of `selected_types` a point's value passes. */
  function HitsOf(folders: map<string, Folder>, setname: string, idx: Index, pkey: string, types: Config): (r: set<string>)
    ensures r <= types.Keys
  {
    set a | a in types && Passes(folders, setname, idx, pkey, a, types[a])
  }

  function Repeat(x: string, n: nat): (r: seq<string>)
    ensures |r| == n && forall i :: 0 <= i < n ==> r[i] == x
  {
    seq(n, _ => x)
  }

  /** `selected_datapoints` after the loops: each point once per attribute it passes. */
  function Picked(folders: map<string, Folder>, setname: string, idx: Index, points: seq<string>, types: Config): seq<string> {
    if |points| == 0 then []
    else
      var p := points[|points| - 1];
      Picked(folders, setname, idx, points[..|points| - 1], types) + Repeat(p, |HitsOf(folders, setname, idx, p, types)|)
  }

  /** `selected_types`: a mapping from attribute to a list of allowed values. */
  predicate TypesWellFormed(types: Value) {
    types.Dict? && forall a :: a in types.entries ==> types.entries[a].List?
  }

  /**
   * `Datapoint_typeSelector.select`: the points whose value of some
   * attribute of `selected_types` is among that attribute's values. Without
   * datapoints nothing is read.
   */
  function DatapointTypeSelection(config: Config, folders: map<string, Folder>, setname: string, idx: Index): Result<Selection> {
    if |idx.datapoints| == 0 then Ok(Selection(NoFilter, Only([]), config))
    else
      var types :- Values.Index(config, "selected_types");
      if !TypesWellFormed(types) then Err(NotTypes)
      else Ok(Selection(NoFilter, Only(Picked(folders, setname, idx, idx.datapoints, types.entries)), config))
  }

  /** The nested loops of `Datapoint_typeSelector.select`. */
  method SelectDatapointType(config: Config, folders: map<string, Folder>, setname: string, idx: Index)
    returns (r: Result<Selection>)
    ensures r == DatapointTypeSelection(config, folders, setname, idx)
  {
    var points := idx.datapoints;
    if |points| == 0 {
      return Ok(Selection(NoFilter, Only([]), config));
    }
    if "selected_types" !in config {
      return Err(KeyError("selected_types"));
    }
    var types := config["selected_types"];
    if !types.Dict? {
      return Err(NotTypes);
    }
    var selected: seq<string> := [];
    var i := 0;
    while i < |points|
      invariant 0 <= i <= |points|
      invariant i > 0 ==> TypesWellFormed(types)
      invariant selected == Picked(folders, setname, idx, points[..i], types.entries)
    {
      var copies := PickPoint(folders, setname, idx, points[i], types.entries);
      if copies.Err? {
        return Err(copies.error);
      }
      assert points[..i + 1][..i] == points[..i];
      selected := selected + copies.value;
      i := i + 1;
    }
    assert points[..|points|] == points;
    r := Ok(Selection(NoFilter, Only(selected), config));
  }

  /** The inner loop for one point: the point once more for every attribute it passes. */
  method PickPoint(folders: map<string, Folder>, setname: string, idx: Index, point: string, types: Config)
    returns (r: Result<seq<string>>)
    ensures r.Ok? <==> TypesWellFormed(Dict(types))
    ensures r.Err? ==> r.error == NotTypes
    ensures r.Ok? ==> r.value == Repeat(point, |HitsOf(folders, setname, idx, point, types)|)
  {
    ghost var hits := HitsOf(folders, setname, idx, point, types);
    var copies: seq<string> := [];
    var todo := types.Keys;
    ghost var done: set<string> := {};
    while todo != {}
      invariant todo <= types.Keys
      invariant forall x :: x in done <==> x in types && x !in todo
      invariant ListsIn(types, done)
      invariant copies == Repeat(point, |hits * done|)
      decreases |todo|
    {
      var a :| a in todo;
      var allowed := types[a];
      if !allowed.List? {
        return Err(NotTypes);
      }
      var hit := Hit(folders, setname, idx, point, types, a);
      PickStep(point, hits, done, a, hit);
      copies := copies + if hit then [point] else [];
      todo := todo - {a};
      done := done + {a};
    }
    AllDone(hits, done);
    r := Ok(copies);
  }

  /** Once every attribute is done, every hit has been counted. */
  lemma AllDone(hits: set<string>, done: set<string>)
    requires hits <= done
    ensures |hits * done| == |hits|
  {
    assert hits * done == hits;
  }

  /** The attributes in `keys` all map to lists. */
  predicate ListsIn(types: Config, keys: set<string>) {
    forall a :: a in keys ==> a in types && types[a].List?
  }

  /** Whether the point's value of attribute `a` is among the allowed ones. */
  method Hit(folders: map<string, Folder>, setname: string, idx: Index, point: string, types: Config, a: string)
    returns (hit: bool)
    requires a in types
    ensures hit <==> a in HitsOf(folders, setname, idx, point, types)
  {
    hit := Passes(folders, setname, idx, point, a, types[a]);
  }

  const NotTypes: Error := TypeError("selected_types is not a mapping of lists")

  /** One attribute more: one copy more iff the point passes it. */
  lemma PickStep(point: string, hits: set<string>, done: set<string>, a: string, hit: bool)
    requires a !in done && (hit <==> a in hits)
    ensures Repeat(point, |hits * (done + {a})|) == Repeat(point, |hits * done|) + if hit then [point] else []
  {
    if hit {
      assert hits * (done + {a}) == hits * done + {a};
    } else {
      assert hits * (done + {a}) == hits * done;
    }
  }

  lemma {:induction false} PickedMember(folders: map<string, Folder>, setname: string, idx: Index, points: seq<string>, types: Config, x: string)
    ensures x in Picked(folders, setname, idx, points, types) <==> x in points && |HitsOf(folders, setname, idx, x, types)| > 0
  {
    if |points| > 0 {
      var init := points[..|points| - 1];
      var p := points[|points| - 1];
      PickedMember(folders, setname, idx, init, types, x);
      assert points == init + [p];
      if x == p && |HitsOf(folders, setname, idx, x, types)| > 0 {
        assert Repeat(p, |HitsOf(folders, setname, idx, p, types)|)[0] == x;
      }
    }
  }

  /**
   * A point is selected iff some attribute of `selected_types` has, for
   * that point, one of its allowed values; a point passing several
   * attributes is listed once per attribute.
   */
  lemma DatapointTypeMembers(config: Config, folders: map<string, Folder>, setname: string, idx: Index, x: string)
    requires DatapointTypeSelection(config, folders, setname, idx).Ok?
    requires |idx.datapoints| > 0
    ensures var sel := DatapointTypeSelection(config, folders, setname, idx).value;
      var types := config["selected_types"].entries;
      sel.onlyIds == NoFilter && sel.onlyPoints.Only? &&
      (x in sel.onlyPoints.names <==>
        x in idx.datapoints && exists a :: a in types && Allowed(PointAttr(folders, setname, idx, x, a), types[a]))
  {
    var types := config["selected_types"].entries;
    PickedMember(folders, setname, idx, idx.datapoints, types, x);
    var hits := HitsOf(folders, setname, idx, x, types);
    if exists a :: a in types && Allowed(PointAttr(folders, setname, idx, x, a), types[a]) {
      var a :| a in types && Allowed(PointAttr(folders, setname, idx, x, a), types[a]);
      assert a in hits;
    }
    if |hits| > 0 {
      var a :| a in hits;
    }
  }

  // ---------------------------------------------------------------------
  // all selectors

  /** The random order a run draws: a shuffle of what each random selector shuffles. */
  ghost predicate ShuffledFor(k: Kind, config: Config, idx: Index, shuffled: seq<string>, groups: seq<seq<string>>) {
    match k
    case Random =>
      (MinPoints(config, idx).Ok? ==>
        multiset(shuffled) == multiset(Eligible(idx, idx.identities, MinPoints(config, idx).value))) &&
      Splitters.Shuffles(PointById(idx), groups)
    case Mostpoints => multiset(shuffled) == multiset(idx.identities)
    case _ => true
  }

  /** `select` of each selector (`full` copies without filters). */
  function SelectionOf(k: Kind, config: Config, folders: map<string, Folder>, setname: string, idx: Index,
                       shuffled: seq<string>, groups: seq<seq<string>>): (r: Result<Selection>)
    ensures r.Ok? ==> forall key :: key in config ==> key in r.value.config && r.value.config[key] == config[key]
    ensures r.Ok? && k != Classification ==> r.value.config == config
    ensures r.Ok? && k == Classification ==> "key" in r.value.config
  {
    match k
    case Random => RandomSelection(config, idx, shuffled, groups)
    case Mostpoints => MostpointsSelection(config, idx, shuffled)
    case Classification => ClassificationSelection(config, folders, setname, idx)
    case Zoo => ZooSelection(config, folders, setname, idx)
    case DatapointType => DatapointTypeSelection(config, folders, setname, idx)
    case Full => Ok(Selection(NoFilter, NoFilter, config))
  }

  method Select(k: Kind, config: Config, folders: map<string, Folder>, setname: string, idx: Index,
                shuffled: seq<string>, groups: seq<seq<string>>) returns (r: Result<Selection>)
    ensures r == SelectionOf(k, config, folders, setname, idx, shuffled, groups)
  {
    match k
    case Random => r := SelectRandom(config, idx, shuffled, groups);
    case Mostpoints => r := MostpointsSelection(config, idx, shuffled);
    case Classification => r := SelectClassification(config, folders, setname, idx);
    case Zoo => r := ZooSelection(config, folders, setname, idx);
    case DatapointType => r := SelectDatapointType(config, folders, setname, idx);
    case Full => r := Ok(Selection(NoFilter, NoFilter, config));
  }
}
