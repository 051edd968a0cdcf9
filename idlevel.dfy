/**
 * `IdlevelMetric`: for every true identity, the share of its probes whose
 * best candidate, top 3, top 5 or top 10 holds that identity, after every
 * probe is squashed to the minimum distance per candidate id.
 */
module IdLevel {
  import opened Wrappers
  import opened Results
  import opened MetricLevels
  import ResultSets

  /** One row of the table: `[id, n, hitrate, top3rate, top5rate, top10rate]`. */
  datatype Row = Row(identity: string, n: nat, hitrate: real, top3rate: real, top5rate: real, top10rate: real)

  /** `self.keys`: the table's header. */
  const Header: seq<string> := ["identity", "n", "hitrate", "top3rate", "top5rate", "top10rate"]

  /** `(count / n) * 100`; never asked of an empty group. */
  function Percent(count: nat, n: nat): real {
    if n == 0 then 0.0 else count as real / n as real * 100.0
  }

  lemma PercentMonotone(a: nat, b: nat, n: nat)
    requires a <= b && n > 0
    ensures 0.0 <= Percent(a, n) <= Percent(b, n)
  {
    assert a as real / n as real <= b as real / n as real;
  }

  lemma PercentAtMost100(a: nat, n: nat)
    requires a <= n && n > 0
    ensures Percent(a, n) <= 100.0
  {
    assert a as real / n as real <= 1.0;
  }

  /** The row of one identity from its counters. */
  function RowOf(id: string, t: Tally): (r: Row)
    ensures r.identity == id && r.n == t.n
  {
    Row(id, t.n, Percent(t.success, t.n), Percent(t.top3, t.n), Percent(t.top5, t.n), Percent(t.top10, t.n))
  }

  /** Every rate of a row is a percentage, and the rates are nested as the windows are. */
  lemma RowRates(id: string, t: Tally)
    requires t.n > 0 && t.success <= t.top3 <= t.top5 <= t.top10 <= t.n
    ensures var r := RowOf(id, t); 0.0 <= r.hitrate <= r.top3rate <= r.top5rate <= r.top10rate <= 100.0
  {
    PercentMonotone(t.success, t.top3, t.n);
    PercentMonotone(t.top3, t.top5, t.n);
    PercentMonotone(t.top5, t.top10, t.n);
    PercentAtMost100(t.top10, t.n);
  }

  /**
   * The table for squashed probes: one row per true identity, in order of
   * first appearance, counting that identity's probes, at least one.
   */
  function Table(rs: seq<Record>): (rows: seq<Row>)
    ensures |rows| == |Unique(IdentitiesOf(rs))|
    ensures forall i :: 0 <= i < |rows| ==> rows[i].identity == Unique(IdentitiesOf(rs))[i]
    ensures forall i :: 0 <= i < |rows| ==> rows[i].n == |GroupOf(rs, rows[i].identity)| > 0
  {
    RowsFor(rs, Unique(IdentitiesOf(rs)))
  }

  /** The rows of the given identities, each of which has probes. */
  function RowsFor(rs: seq<Record>, ids: seq<string>): (rows: seq<Row>)
    ensures |rows| == |ids|
    ensures forall i :: 0 <= i < |ids| ==> rows[i].identity == ids[i] && rows[i].n == |GroupOf(rs, ids[i])|
  {
    if |ids| == 0 then []
    else RowsFor(rs, ids[..|ids| - 1]) + [RowOf(ids[|ids| - 1], TallyOf(GroupOf(rs, ids[|ids| - 1])))]
  }

  lemma RowsStep(rs: seq<Record>, ids: seq<string>, i: nat)
    requires i < |ids|
    ensures RowsFor(rs, ids[..i + 1]) == RowsFor(rs, ids[..i]) + [RowOf(ids[i], TallyOf(GroupOf(rs, ids[i])))]
  {
    assert ids[..i + 1][..i] == ids[..i];
  }

  /** The probe counts of the given identities. */
  function GroupSizes(rs: seq<Record>, ids: seq<string>): nat {
    if |ids| == 0 then 0 else GroupSizes(rs, ids[..|ids| - 1]) + |GroupOf(rs, ids[|ids| - 1])|
  }

  /** One more probe adds one to the count of its own identity, if listed, and nothing elsewhere. */
  lemma {:induction false} GroupSizesStep(rs: seq<Record>, x: Record, ids: seq<string>)
    requires PyLib.Distinct(ids)
    ensures GroupSizes(rs + [x], ids) == GroupSizes(rs, ids) + if x.identity in ids then 1 else 0
  {
    assert (rs + [x])[..|rs|] == rs;
    if |ids| > 0 {
      var init := ids[..|ids| - 1];
      assert PyLib.Distinct(init) by {
        forall i, j | 0 <= i < j < |init| ensures init[i] != init[j] {
          assert init[i] == ids[i] && init[j] == ids[j];
        }
      }
      GroupSizesStep(rs, x, init);
      assert x.identity in ids <==> x.identity in init || x.identity == ids[|ids| - 1];
      if x.identity == ids[|ids| - 1] {
        assert x.identity !in init;
      }
    }
  }

  /** The rows account for every probe exactly once: their `n` add up to the number of probes. */
  lemma {:induction false} GroupSizesCoverAll(rs: seq<Record>)
    ensures GroupSizes(rs, Unique(IdentitiesOf(rs))) == |rs|
  {
    if |rs| > 0 {
      var init := rs[..|rs| - 1];
      var x := rs[|rs| - 1];
      assert rs == init + [x];
      GroupSizesCoverAll(init);
      var u := Unique(IdentitiesOf(init));
      UniqueDistinct(IdentitiesOf(init));
      GroupSizesStep(init, x, u);
      ProbeStep(init, x);
      if x.identity !in u {
        GroupSizesAppend(rs, u, x.identity);
      }
    }
  }

  /** One more probe adds its identity to the first-appearance list only if it is new. */
  lemma ProbeStep(rs: seq<Record>, x: Record)
    ensures Unique(IdentitiesOf(rs + [x])) ==
              if x.identity in Unique(IdentitiesOf(rs)) then Unique(IdentitiesOf(rs)) else Unique(IdentitiesOf(rs)) + [x.identity]
    ensures x.identity !in Unique(IdentitiesOf(rs)) ==> GroupOf(rs + [x], x.identity) == [x]
  {
    assert (rs + [x])[..|rs|] == rs;
    assert IdentitiesOf(rs + [x]) == IdentitiesOf(rs) + [x.identity];
    assert IdentitiesOf(rs + [x])[..|rs|] == IdentitiesOf(rs);
  }

  lemma GroupSizesAppend(rs: seq<Record>, ids: seq<string>, id: string)
    ensures GroupSizes(rs, ids + [id]) == GroupSizes(rs, ids) + |GroupOf(rs, id)|
  {
    assert (ids + [id])[..|ids|] == ids;
  }

  /** One probe of rank `k` counted by the chain's branches. */
  method CountOne(t: Tally, k: nat) returns (next: Tally)
    requires k == 1 || k == 3 || k == 5 || k == 10 || k == 11
    ensures next == Count(t, k)
  {
    if k == 1 {
      next := Tally(t.n + 1, t.success + 1, t.top3 + 1, t.top5 + 1, t.top10 + 1);
    } else if k == 3 {
      next := Tally(t.n + 1, t.success, t.top3 + 1, t.top5 + 1, t.top10 + 1);
    } else if k == 5 {
      next := Tally(t.n + 1, t.success, t.top3, t.top5 + 1, t.top10 + 1);
    } else if k == 10 {
      next := Tally(t.n + 1, t.success, t.top3, t.top5, t.top10 + 1);
    } else {
      next := t.(n := t.n + 1);
    }
  }

  /**
   * Counting one identity's probes: the `if`/`elif` chain over
   * `is_success` and `is_topn_success(3|5|10)`, whose first holding test
   * is the probe's `Rank`.
   */
  method CountGroup(rs: seq<Record>) returns (t: Tally)
    ensures t == TallyOf(rs)
  {
    t := Tally(0, 0, 0, 0, 0);
    for i := 0 to |rs|
      invariant t == TallyOf(rs[..i])
    {
      TallyStep(rs, i);
      t := CountOne(t, Rank(rs[i]));
    }
    assert rs[..|rs|] == rs;
  }

  /** The loops of `calc` after squashing: group by identity, then count each group. */
  method BuildTable(rs: seq<Record>) returns (rows: seq<Row>)
    ensures rows == Table(rs)
  {
    var ids, groups := GroupByIdentity(rs);
    rows := [];
    for i := 0 to |ids|
      invariant rows == RowsFor(rs, ids[..i])
    {
      RowsStep(rs, ids, i);
      var t := CountGroup(groups[ids[i]]);
      rows := rows + [RowOf(ids[i], t)];
    }
    assert ids[..|ids|] == ids;
  }

  class IdlevelMetric {
    /** The result set the metric reads. */
    const result: ResultSets.ResultSet
    var keys: seq<string>
    var data: seq<Row>

    constructor (result: ResultSets.ResultSet)
      ensures this.result == result && keys == [] && data == []
    {
      this.result := result;
      keys := [];
      data := [];
    }

    /**
     * `calc`: squash the set to minimum distances (which opens the
     * `-squashed` results file; its lines, if it exists, are `existing`),
     * then one row per identity. Only opening that file can fail.
     */
    method Calc(existing: Option<seq<string>>) returns (err: Option<Error>)
      modifies this
      ensures err.Some? <==> ResultSets.Opened(existing, result.codec).Err?
      ensures err.Some? ==> keys == old(keys) && data == old(data)
      ensures err.None? ==> keys == Header && data == Table(MinSquashed(ResultSets.Records(result.results)))
    {
      ghost var probes := ResultSets.Records(result.results);
      var recs := MinSquashedOf(result, existing);
      if recs.Err? {
        return Some(recs.error);
      }
      assert recs.value == MinSquashed(probes);
      keys := Header;
      data := BuildTable(recs.value);
      assert probes == ResultSets.Records(result.results);
      err := None;
    }
  }
}
