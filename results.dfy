/**
 * `Result`: what one recognition of one probe produced — the probe's true
 * identity and picture id, and the candidate identities with their
 * distances. The queries sort the candidates by distance in place (a
 * stable sort); `to_squashed` merges the candidates of one identity into
 * one.
 */
module Results {
  import W = Wrappers
  import opened Wrappers
  import opened PyLib

  datatype Candidate = Candidate(id: string, dist: real)

  /** What a `Result` object holds at one moment. */
  datatype Record = Record(identity: string, pictureId: string, recognized: seq<Candidate>)

  function Dist(c: Candidate): real {
    c.dist
  }

  /** `recognized.sort(key=lambda x: x["dist"])`. */
  function Ranked(cs: seq<Candidate>): seq<Candidate> {
    SortBy(cs, Dist)
  }

  function IdsOf(cs: seq<Candidate>): seq<string> {
    seq(|cs|, i requires 0 <= i < |cs| => cs[i].id)
  }

  /**
   * What `get_best_recognized` returns: `None` without candidates,
   * otherwise the earliest candidate of least distance.
   */
  function Best(cs: seq<Candidate>): (b: Option<Candidate>)
    ensures b.None? <==> |cs| == 0
    ensures b.Some? ==> exists j :: IsFirstMin(cs, j, Dist) && b.value == cs[j]
  {
    if |cs| == 0 then None
    else
      BestIsFirstMin(cs);
      Some(Ranked(cs)[0])
  }

  lemma BestIsFirstMin(cs: seq<Candidate>)
    requires |cs| > 0
    ensures exists j :: IsFirstMin(cs, j, Dist) && Ranked(cs)[0] == cs[j]
  {
    var j := SortByHead(cs, Dist);
  }

  /** The best candidate is at least as close as every candidate. */
  lemma {:induction false} BestIsClosest(cs: seq<Candidate>, c: Candidate)
    requires Best(cs).Some? && c in cs
    ensures Best(cs).value.dist <= c.dist
  {
    var j :| IsFirstMin(cs, j, Dist) && Best(cs).value == cs[j];
    var i :| 0 <= i < |cs| && cs[i] == c;
  }

  /** What `is_success` answers: some candidate, and the best one is the true identity. */
  predicate Success(r: Record) {
    |r.recognized| > 0 && Best(r.recognized).value.id == r.identity
  }

  /**
   * What `is_topn_success(n)` answers: some candidate, and the true
   * identity is among the ids of the ranked `recognized[:n]`.
   */
  predicate TopnSuccess(r: Record, n: int) {
    |r.recognized| > 0 && r.identity in Upto(IdsOf(Ranked(r.recognized)), n)
  }

  /** Success is top-1 success. */
  lemma SuccessIsTop1(r: Record)
    ensures Success(r) <==> TopnSuccess(r, 1)
  {
    if |r.recognized| > 0 {
      var ids := IdsOf(Ranked(r.recognized));
      assert Upto(ids, 1) == [ids[0]];
    }
  }

  /** Widening the window never loses a hit (for non-negative windows). */
  lemma TopnMonotone(r: Record, n: int, m: int)
    requires 0 <= n <= m
    requires TopnSuccess(r, n)
    ensures TopnSuccess(r, m)
  {
    var ids := IdsOf(Ranked(r.recognized));
    var k :| 0 <= k < |Upto(ids, n)| && Upto(ids, n)[k] == r.identity;
    assert Upto(ids, m)[k] == r.identity;
  }

  /** A window as long as the candidate list is a plain membership test. */
  lemma TopnOfAll(r: Record, n: int)
    requires n >= |r.recognized|
    ensures TopnSuccess(r, n) <==> |r.recognized| > 0 && r.identity in IdsOf(r.recognized)
  {
    var ranked := Ranked(r.recognized);
    SortByFacts(r.recognized, Dist);
    assert Upto(IdsOf(ranked), n) == IdsOf(ranked);
    if r.identity in IdsOf(ranked) {
      SameIds(ranked, r.recognized, r.identity);
    }
    if r.identity in IdsOf(r.recognized) {
      SameIds(r.recognized, ranked, r.identity);
    }
  }

  /** Reordering candidates keeps the ids present. */
  lemma SameIds(a: seq<Candidate>, b: seq<Candidate>, id: string)
    requires multiset(a) == multiset(b) && id in IdsOf(a)
    ensures id in IdsOf(b)
  {
    var k :| 0 <= k < |a| && a[k].id == id;
    assert a[k] in multiset(b);
    var i :| 0 <= i < |b| && b[i] == a[k];
    assert IdsOf(b)[i] == id;
  }

  /**
   * The in-place sort the queries leave behind changes no later answer:
   * ranking is idempotent, so the best candidate and every top-n test
   * are the same before and after.
   */
  lemma QueriesAfterSort(r: Record, n: int)
    ensures Ranked(Ranked(r.recognized)) == Ranked(r.recognized)
    ensures Best(Ranked(r.recognized)) == Best(r.recognized)
    ensures Success(r.(recognized := Ranked(r.recognized))) == Success(r)
    ensures TopnSuccess(r.(recognized := Ranked(r.recognized)), n) == TopnSuccess(r, n)
  {
    SortByFacts(r.recognized, Dist);
    SortOfSorted(Ranked(r.recognized), Dist);
  }

  /** A `Result` object: the probe and the candidates, appended and sorted in place. */
  class Result {
    const identity: string
    const pictureId: string
    var recognized: seq<Candidate>

    function Rec(): Record
      reads this
    {
      Record(identity, pictureId, recognized)
    }

    /** `Result(identity, picture_id)`: no candidates yet. */
    constructor (identity: string, pictureId: string)
      ensures this.identity == identity && this.pictureId == pictureId && recognized == []
    {
      this.identity := identity;
      this.pictureId := pictureId;
      recognized := [];
    }

    /** A result object holding a probe a recognizer has already ranked. */
    constructor Of(rec: Record)
      ensures Rec() == rec
    {
      identity := rec.identity;
      pictureId := rec.pictureId;
      recognized := rec.recognized;
    }

    /** `add_recognized(id, dist)`: exactly one candidate more, at the end. */
    method AddRecognized(id: string, dist: real)
      modifies this
      ensures recognized == old(recognized) + [Candidate(id, dist)]
    {
      recognized := recognized + [Candidate(id, dist)];
    }

    /** `get_best_recognized`: sorts the candidates (when there are any) and returns the first. */
    method GetBestRecognized() returns (b: Option<Candidate>)
      modifies this
      ensures b == Best(old(recognized))
      ensures recognized == Ranked(old(recognized))
    {
      if |recognized| == 0 {
        return None;
      }
      recognized := Ranked(recognized);
      b := Some(recognized[0]);
    }

    /** `is_success`. */
    method IsSuccess() returns (ok: bool)
      modifies this
      ensures ok == Success(old(Rec()))
      ensures recognized == Ranked(old(recognized))
    {
      if |recognized| == 0 {
        return false;
      }
      var best := GetBestRecognized();
      ok := best.value.id == identity;
    }

    /** `is_topn_success(n)`. */
    method IsTopnSuccess(n: int) returns (ok: bool)
      modifies this
      ensures ok == TopnSuccess(old(Rec()), n)
      ensures recognized == Ranked(old(recognized))
    {
      if |recognized| == 0 {
        return false;
      }
      recognized := Ranked(recognized);
      var topn := Upto(IdsOf(recognized), n);
      ok := identity in topn;
    }

    /**
     * `to_squashed(strat)`: the object itself without a strategy,
     * otherwise a new object built as the program builds it.
     */
    method ToSquashed(strat: Option<string>) returns (out: W.Result<Result>)
      ensures strat.None? ==> out == W.Ok(this)
      ensures strat.Some? ==> out.Err? == Squash(Rec(), strat.value).Err?
      ensures strat.Some? && out.Err? ==> out.error == Squash(Rec(), strat.value).error
      ensures strat.Some? && out.Ok? ==> fresh(out.value) && out.value.Rec() == Squash(Rec(), strat.value).value
    {
      if strat.None? {
        return W.Ok(this);
      }
      var r := new Result(identity, pictureId);
      var keys, recog := CollectDists(recognized);
      ghost var spec := StrategyOf(strat.value);
      for j := 0 to |keys|
        invariant spec.Some? ==> SquashedUpTo(recognized, spec.value, r.recognized, j)
        invariant spec.None? ==> j == 0 && r.recognized == []
      {
        if spec.Some? {
          SquashStep(recognized, spec.value, r.recognized, j);
        }
        var d := AggregateBy(strat.value, recog[keys[j]]);
        if d.Err? {
          assert |recognized| > 0 by {
            assert keys[j] in IdsOf(recognized);
          }
          return W.Err(d.error);
        }
        r.AddRecognized(keys[j], d.value);
      }
      if spec.Some? {
        assert Unique(IdsOf(recognized))[..|keys|] == keys;
      }
      out := W.Ok(r);
    }
  }

  // ---------------------------------------------------------------------
  // to_squashed

  /** A squashing strategy `to_squashed` understands. */
  datatype Strategy = Min | Mean

  /** The distinct items of `xs`, in order of first appearance (a dict's key order). */
  function Unique(xs: seq<string>): (u: seq<string>)
    ensures forall x :: x in u <==> x in xs
    ensures |u| <= |xs|
  {
    if |xs| == 0 then []
    else
      var u := Unique(xs[..|xs| - 1]);
      if xs[|xs| - 1] in u then u else u + [xs[|xs| - 1]]
  }

  /** `Unique` lists each item once. */
  lemma {:induction false} UniqueDistinct(xs: seq<string>)
    ensures Distinct(Unique(xs))
  {
    if |xs| > 0 {
      UniqueDistinct(xs[..|xs| - 1]);
    }
  }

  /** The distances recorded for `id`, in order. */
  function DistsOf(cs: seq<Candidate>, id: string): (ds: seq<real>)
    ensures |ds| == 0 <==> id !in IdsOf(cs)
  {
    if |cs| == 0 then []
    else
      var init := cs[..|cs| - 1];
      assert IdsOf(cs) == IdsOf(init) + [cs[|cs| - 1].id];
      DistsOf(init, id) + if cs[|cs| - 1].id == id then [cs[|cs| - 1].dist] else []
  }

  function Minimum(ds: seq<real>): (m: real)
    requires |ds| > 0
    ensures m in ds && forall d :: d in ds ==> m <= d
  {
    if |ds| == 1 then ds[0]
    else
      var rest := Minimum(ds[1..]);
      assert forall d :: d in ds ==> d == ds[0] || d in ds[1..];
      if ds[0] <= rest then ds[0] else rest
  }

  function Sum(ds: seq<real>): real {
    if |ds| == 0 then 0.0 else Sum(ds[..|ds| - 1]) + ds[|ds| - 1]
  }

  /** The squashed distance of one identity (never asked of an identity without distances). */
  function Aggregate(s: Strategy, ds: seq<real>): real {
    if |ds| == 0 then 0.0
    else match s
      case Min => Minimum(ds)
      case Mean => Sum(ds) / |ds| as real
  }

  /** The strategy a name selects; `None` for a name `to_squashed` rejects. */
  function StrategyOf(name: string): (s: Option<Strategy>)
    ensures s == Some(Min) <==> name == "min"
    ensures s == Some(Mean) <==> name == "mean"
  {
    if name == "min" then Some(Min) else if name == "mean" then Some(Mean) else None
  }

  /**
   * The squashed candidates: one per distinct id, in order of first
   * appearance, at the aggregate of that id's distances.
   */
  function SquashedCandidates(cs: seq<Candidate>, s: Strategy): seq<Candidate> {
    SquashKeys(cs, s, Unique(IdsOf(cs)))
  }

  /** One squashed candidate per key of `keys`, in order. */
  function SquashKeys(cs: seq<Candidate>, s: Strategy, keys: seq<string>): (out: seq<Candidate>)
    ensures |out| == |keys|
    ensures forall i :: 0 <= i < |keys| ==> out[i] == Candidate(keys[i], Aggregate(s, DistsOf(cs, keys[i])))
  {
    if |keys| == 0 then []
    else SquashKeys(cs, s, keys[..|keys| - 1]) + [Candidate(keys[|keys| - 1], Aggregate(s, DistsOf(cs, keys[|keys| - 1])))]
  }

  /**
   * What `to_squashed(strat)` gives for a strategy name: an
   * `AttributeError` for an unknown name, raised only once there is a
   * candidate to squash; otherwise the same probe with the squashed
   * candidates.
   */
  function Squash(r: Record, strat: string): (out: W.Result<Record>)
    ensures out.Err? <==> StrategyOf(strat).None? && |r.recognized| > 0
    ensures out.Err? ==> out.error == W.AttributeError("unknown strat " + strat)
    ensures out.Ok? ==> out.value.identity == r.identity && out.value.pictureId == r.pictureId
    ensures out.Ok? && StrategyOf(strat).Some? ==> out.value.recognized == SquashedCandidates(r.recognized, StrategyOf(strat).value)
    ensures out.Ok? && StrategyOf(strat).None? ==> out.value.recognized == []
  {
    match StrategyOf(strat)
    case Some(s) => W.Ok(Record(r.identity, r.pictureId, SquashedCandidates(r.recognized, s)))
    case None =>
      if |r.recognized| > 0 then W.Err(W.AttributeError("unknown strat " + strat))
      else W.Ok(Record(r.identity, r.pictureId, []))
  }

  /** Squashing leaves exactly one candidate per distinct identity. */
  lemma SquashedOnePerId(r: Record, strat: string)
    requires Squash(r, strat).Ok?
    ensures Distinct(IdsOf(Squash(r, strat).value.recognized))
    ensures forall x :: x in IdsOf(Squash(r, strat).value.recognized) <==> x in IdsOf(r.recognized)
  {
    var out := Squash(r, strat).value.recognized;
    assert IdsOf(out) == Unique(IdsOf(r.recognized));
    UniqueDistinct(IdsOf(r.recognized));
  }

  /** A min-squash keeps the closest distance of every identity. */
  lemma MinSquashKeepsClosest(cs: seq<Candidate>, i: nat, c: Candidate)
    requires i < |SquashedCandidates(cs, Min)|
    requires c in cs && c.id == SquashedCandidates(cs, Min)[i].id
    ensures SquashedCandidates(cs, Min)[i].dist <= c.dist
  {
    var keys := Unique(IdsOf(cs));
    DistsContains(cs, c);
  }

  /**
   * Candidates whose ids are already distinct squash to themselves, under
   * either strategy; so squashing twice is squashing once.
   */
  lemma SquashIdempotent(cs: seq<Candidate>, s: Strategy)
    ensures SquashedCandidates(SquashedCandidates(cs, s), s) == SquashedCandidates(cs, s)
  {
    var once := SquashedCandidates(cs, s);
    UniqueDistinct(IdsOf(cs));
    assert IdsOf(once) == Unique(IdsOf(cs));
    SquashOfDistinct(once, s);
  }

  lemma SquashOfDistinct(cs: seq<Candidate>, s: Strategy)
    requires Distinct(IdsOf(cs))
    ensures SquashedCandidates(cs, s) == cs
  {
    UniqueOfDistinct(IdsOf(cs));
    var out := SquashedCandidates(cs, s);
    assert |out| == |cs|;
    forall i | 0 <= i < |cs| ensures out[i] == cs[i] {
      SquashAtDistinct(cs, s, i);
    }
  }

  /** With distinct ids, position `i` squashes to the candidate already there. */
  lemma SquashAtDistinct(cs: seq<Candidate>, s: Strategy, i: nat)
    requires Distinct(IdsOf(cs)) && Unique(IdsOf(cs)) == IdsOf(cs) && i < |cs|
    ensures i < |SquashedCandidates(cs, s)| && SquashedCandidates(cs, s)[i] == cs[i]
  {
    DistsOfDistinct(cs, i);
    assert Aggregate(s, [cs[i].dist]) == cs[i].dist by {
      assert Minimum([cs[i].dist]) == cs[i].dist;
      assert Sum([cs[i].dist]) == Sum([]) + cs[i].dist;
    }
  }

  lemma {:induction false} UniqueOfDistinct(xs: seq<string>)
    requires Distinct(xs)
    ensures Unique(xs) == xs
  {
    if |xs| > 0 {
      var init := xs[..|xs| - 1];
      assert Distinct(init);
      UniqueOfDistinct(init);
      assert xs == init + [xs[|xs| - 1]];
    }
  }

  lemma {:induction false} DistsOfDistinct(cs: seq<Candidate>, i: nat)
    requires Distinct(IdsOf(cs)) && i < |cs|
    ensures DistsOf(cs, cs[i].id) == [cs[i].dist]
  {
    var init := cs[..|cs| - 1];
    assert IdsOf(init) == IdsOf(cs)[..|cs| - 1];
    if i == |cs| - 1 {
      assert cs[i].id !in IdsOf(init);
    } else {
      assert init[i] == cs[i];
      assert IdsOf(cs)[i] != IdsOf(cs)[|cs| - 1];
      DistsOfDistinct(init, i);
    }
  }

  lemma {:induction false} DistsContains(cs: seq<Candidate>, c: Candidate)
    requires c in cs
    ensures c.dist in DistsOf(cs, c.id)
  {
    var init := cs[..|cs| - 1];
    if cs[|cs| - 1] != c {
      assert c in init by {
        var k :| 0 <= k < |cs| && cs[k] == c;
        assert init[k] == c;
      }
      DistsContains(init, c);
    }
  }


  lemma StepFacts(cs: seq<Candidate>, c: Candidate)
    ensures IdsOf(cs + [c]) == IdsOf(cs) + [c.id]
    ensures Unique(IdsOf(cs + [c])) == if c.id in Unique(IdsOf(cs)) then Unique(IdsOf(cs)) else Unique(IdsOf(cs)) + [c.id]
    ensures forall k :: DistsOf(cs + [c], k) == DistsOf(cs, k) + if c.id == k then [c.dist] else []
  {
    assert (cs + [c])[..|cs|] == cs;
    assert IdsOf(cs + [c]) == IdsOf(cs) + [c.id];
    assert (IdsOf(cs) + [c.id])[..|cs|] == IdsOf(cs);
  }

  /** What the first pass of `to_squashed` has built after reading `cs`. */
  ghost predicate Collected(cs: seq<Candidate>, keys: seq<string>, recog: map<string, seq<real>>) {
    && keys == Unique(IdsOf(cs))
    && (forall k :: k in recog <==> k in keys)
    && (forall k :: k in recog ==> recog[k] == DistsOf(cs, k))
  }

  /** One candidate of the first pass. */
  method CollectOne(ghost cs: seq<Candidate>, keys: seq<string>, recog: map<string, seq<real>>, c: Candidate)
    returns (keys': seq<string>, recog': map<string, seq<real>>)
    requires Collected(cs, keys, recog)
    ensures Collected(cs + [c], keys', recog')
  {
    StepFacts(cs, c);
    keys', recog' := keys, recog;
    if c.id !in recog' {
      keys' := keys' + [c.id];
      recog' := recog'[c.id := []];
    }
    recog' := recog'[c.id := recog'[c.id] + [c.dist]];
  }

  /**
   * The first pass of `to_squashed`: the ids in order of first
   * appearance, and the distances collected for each.
   */
  method CollectDists(cs: seq<Candidate>) returns (keys: seq<string>, recog: map<string, seq<real>>)
    ensures keys == Unique(IdsOf(cs))
    ensures forall k :: k in recog <==> k in keys
    ensures forall k :: k in recog ==> recog[k] == DistsOf(cs, k)
  {
    keys, recog := [], map[];
    for i := 0 to |cs|
      invariant Collected(cs[..i], keys, recog)
    {
      assert cs[..i + 1] == cs[..i] + [cs[i]];
      keys, recog := CollectOne(cs[..i], keys, recog, cs[i]);
    }
    assert cs[..|cs|] == cs;
  }

  /** The second pass has squashed the first `j` keys. */
  ghost predicate SquashedUpTo(cs: seq<Candidate>, s: Strategy, recognized: seq<Candidate>, j: nat) {
    j <= |Unique(IdsOf(cs))| && recognized == SquashKeys(cs, s, Unique(IdsOf(cs))[..j])
  }

  lemma SquashStep(cs: seq<Candidate>, s: Strategy, recognized: seq<Candidate>, j: nat)
    requires SquashedUpTo(cs, s, recognized, j) && j < |Unique(IdsOf(cs))|
    ensures |DistsOf(cs, Unique(IdsOf(cs))[j])| > 0
    ensures SquashedUpTo(cs, s, recognized + [Candidate(Unique(IdsOf(cs))[j], Aggregate(s, DistsOf(cs, Unique(IdsOf(cs))[j])))], j + 1)
  {
    var keys := Unique(IdsOf(cs));
    assert keys[j] in IdsOf(cs);
    assert keys[..j + 1][..j] == keys[..j];
  }

  /** The squashed distance under the strategy a name selects. */
  method AggregateBy(name: string, ds: seq<real>) returns (d: W.Result<real>)
    requires |ds| > 0
    ensures d.Err? <==> StrategyOf(name).None?
    ensures d.Err? ==> d.error == W.AttributeError("unknown strat " + name)
    ensures d.Ok? ==> d.value == Aggregate(StrategyOf(name).value, ds)
  {
    if name == "min" {
      d := W.Ok(Minimum(ds));
    } else if name == "mean" {
      d := W.Ok(Sum(ds) / |ds| as real);
    } else {
      d := W.Err(W.AttributeError("unknown strat " + name));
    }
  }
}
