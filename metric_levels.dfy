/**
 * What the identification metrics share: the hit level of one squashed
 * probe (the `is_success` / `is_topn_success(3)` / `(5)` / `(10)` chain),
 * the counters that chain feeds, and the grouping of probes by their true
 * identity in order of first appearance.
 */
module MetricLevels {
  import W = Wrappers
  import opened Wrappers
  import opened PyLib
  import opened Results
  import ResultSets

  /**
   * The smallest window of 1, 3, 5 and 10 whose top-n holds the true
   * identity, tried in that order; 11 when none does.
   */
  function Rank(r: Record): (k: nat)
    ensures k == 1 || k == 3 || k == 5 || k == 10 || k == 11
    ensures |r.recognized| == 0 ==> k == 11
  {
    if Success(r) then 1
    else if TopnSuccess(r, 3) then 3
    else if TopnSuccess(r, 5) then 5
    else if TopnSuccess(r, 10) then 10
    else 11
  }

  /** The rank answers every query of the chain, not only the first that holds. */
  lemma RankMeaning(r: Record)
    ensures Success(r) <==> Rank(r) == 1
    ensures TopnSuccess(r, 3) <==> Rank(r) <= 3
    ensures TopnSuccess(r, 5) <==> Rank(r) <= 5
    ensures TopnSuccess(r, 10) <==> Rank(r) <= 10
  {
    SuccessIsTop1(r);
    if Success(r) {
      TopnMonotone(r, 1, 3);
      TopnMonotone(r, 1, 5);
      TopnMonotone(r, 1, 10);
    } else if TopnSuccess(r, 3) {
      TopnMonotone(r, 3, 5);
      TopnMonotone(r, 3, 10);
    } else if TopnSuccess(r, 5) {
      TopnMonotone(r, 5, 10);
    }
  }

  /** The counters `overall`, `success_n`, `top3_n`, `top5_n`, `top10_n`. */
  datatype Tally = Tally(n: nat, success: nat, top3: nat, top5: nat, top10: nat)

  /** One probe of rank `k` counted: every window from `k` up gains a hit. */
  function Count(t: Tally, k: nat): Tally {
    Tally(t.n + 1,
          t.success + (if k <= 1 then 1 else 0),
          t.top3 + (if k <= 3 then 1 else 0),
          t.top5 + (if k <= 5 then 1 else 0),
          t.top10 + (if k <= 10 then 1 else 0))
  }

  /** The counters after the probes of `rs`, in order. */
  function TallyOf(rs: seq<Record>): (t: Tally)
    ensures t.n == |rs|
    ensures t.success <= t.top3 <= t.top5 <= t.top10 <= t.n
  {
    if |rs| == 0 then Tally(0, 0, 0, 0, 0)
    else Count(TallyOf(rs[..|rs| - 1]), Rank(rs[|rs| - 1]))
  }

  lemma TallyStep(rs: seq<Record>, i: nat)
    requires i < |rs|
    ensures TallyOf(rs[..i + 1]) == Count(TallyOf(rs[..i]), Rank(rs[i]))
  {
    assert rs[..i + 1][..i] == rs[..i];
  }

  /** Whether the true identity is within the top `n` (`n == 1`: `is_success`). */
  predicate HitWithin(r: Record, n: nat) {
    if n == 1 then Success(r) else TopnSuccess(r, n)
  }

  /** The number of probes whose top-`n` window holds the true identity. */
  function Hits(rs: seq<Record>, n: nat): (h: nat)
    ensures h <= |rs|
  {
    if |rs| == 0 then 0
    else Hits(rs[..|rs| - 1], n) + if HitWithin(rs[|rs| - 1], n) then 1 else 0
  }

  /** Each counter is the number of probes the window holds the true identity for. */
  lemma {:induction false} TallyCounts(rs: seq<Record>)
    ensures TallyOf(rs) == Tally(|rs|, Hits(rs, 1), Hits(rs, 3), Hits(rs, 5), Hits(rs, 10))
  {
    if |rs| > 0 {
      TallyCounts(rs[..|rs| - 1]);
      RankMeaning(rs[|rs| - 1]);
    }
  }

  /** A probe without candidates counts toward `n` and toward no hit counter. */
  lemma EmptyCountsOnlyN(rs: seq<Record>, r: Record)
    requires |r.recognized| == 0
    ensures TallyOf(rs + [r]) == TallyOf(rs).(n := |rs| + 1)
  {
    assert (rs + [r])[..|rs|] == rs;
  }

  /** The true identities of the probes, in order. */
  function IdentitiesOf(rs: seq<Record>): (ids: seq<string>)
    ensures |ids| == |rs|
    ensures forall i :: 0 <= i < |rs| ==> ids[i] == rs[i].identity
  {
    seq(|rs|, i requires 0 <= i < |rs| => rs[i].identity)
  }

  /** `identities[id]`: the probes of one true identity, in order. */
  function GroupOf(rs: seq<Record>, id: string): (g: seq<Record>)
    ensures |g| == 0 <==> id !in IdentitiesOf(rs)
    ensures forall i :: 0 <= i < |g| ==> g[i].identity == id
  {
    if |rs| == 0 then []
    else
      var init := rs[..|rs| - 1];
      assert IdentitiesOf(rs) == IdentitiesOf(init) + [rs[|rs| - 1].identity];
      GroupOf(init, id) + if rs[|rs| - 1].identity == id then [rs[|rs| - 1]] else []
  }

  /** The probes of the first `i + 1` are those of the first `i`, plus the next one. */
  lemma GroupStep(rs: seq<Record>, i: nat)
    requires i < |rs|
    ensures IdentitiesOf(rs[..i + 1]) == IdentitiesOf(rs[..i]) + [rs[i].identity]
    ensures forall id :: GroupOf(rs[..i + 1], id) == GroupOf(rs[..i], id) + if rs[i].identity == id then [rs[i]] else []
  {
    assert rs[..i + 1][..i] == rs[..i];
  }

  /** `ids` and `groups` hold the grouping of the first `i` probes. */
  ghost predicate Grouped(rs: seq<Record>, i: nat, ids: seq<string>, groups: map<string, seq<Record>>)
    requires i <= |rs|
  {
    && ids == Unique(IdentitiesOf(rs[..i]))
    && (forall id :: id in groups <==> id in ids)
    && (forall id :: id in groups ==> groups[id] == GroupOf(rs[..i], id))
  }

  /** One probe appended to its identity's group, opening the group if it is new. */
  function AddProbe(groups: map<string, seq<Record>>, r: Record): map<string, seq<Record>> {
    groups[r.identity := (if r.identity in groups then groups[r.identity] else []) + [r]]
  }

  lemma GroupedStep(rs: seq<Record>, i: nat, ids: seq<string>, groups: map<string, seq<Record>>)
    requires i < |rs| && Grouped(rs, i, ids, groups)
    ensures Grouped(rs, i + 1, if rs[i].identity in groups then ids else ids + [rs[i].identity], AddProbe(groups, rs[i]))
  {
    GroupStep(rs, i);
  }

  /**
   * The loop building `identities`: each true identity once, in order of
   * first appearance, mapped to its probes in order.
   */
  method GroupByIdentity(rs: seq<Record>) returns (ids: seq<string>, groups: map<string, seq<Record>>)
    ensures ids == Unique(IdentitiesOf(rs))
    ensures forall id :: id in groups <==> id in ids
    ensures forall id :: id in groups ==> groups[id] == GroupOf(rs, id)
  {
    ids, groups := [], map[];
    for i := 0 to |rs|
      invariant Grouped(rs, i, ids, groups)
    {
      GroupedStep(rs, i, ids, groups);
      if rs[i].identity !in groups {
        ids := ids + [rs[i].identity];
      }
      groups := AddProbe(groups, rs[i]);
    }
    assert rs[..|rs|] == rs;
  }

  /** `to_squashed(strat="min")` of every probe; the minimum strategy never fails. */
  function MinSquashed(rs: seq<Record>): (out: seq<Record>)
    ensures |out| == |rs|
    ensures forall i :: 0 <= i < |rs| ==> Squash(rs[i], "min") == W.Ok(out[i])
    ensures IdentitiesOf(out) == IdentitiesOf(rs)
  {
    seq(|rs|, i requires 0 <= i < |rs| => Squash(rs[i], "min").value)
  }

  /**
   * `resultset.to_squashed(strat="min").results` as records: the lines of
   * the `-squashed` results file, if it exists, are `existing`; only
   * loading them can fail.
   */
  method MinSquashedOf(rs: ResultSets.ResultSet, existing: Option<seq<string>>) returns (out: W.Result<seq<Record>>)
    ensures out.Err? <==> ResultSets.Opened(existing, rs.codec).Err?
    ensures out.Err? ==> out.error == ResultSets.Opened(existing, rs.codec).error
    ensures out.Ok? ==> out.value == MinSquashed(ResultSets.Records(rs.results))
  {
    var sq := rs.ToSquashed(Some("min"), existing);
    if sq.Err? {
      return W.Err(sq.error);
    }
    var recs := ResultSets.Records(sq.value.results);
    ghost var want := MinSquashed(ResultSets.Records(rs.results));
    assert |recs| == |want|;
    forall i | 0 <= i < |recs| ensures recs[i] == want[i] {
      assert Squash(rs.results[i].Rec(), "min") == W.Ok(want[i]);
    }
    return W.Ok(recs);
  }
}
