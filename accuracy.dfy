/**
 * `AccuracyMetric`: top-k accuracy over all probes, the chance level of
 * each window, the accuracy normalized against that chance level, and the
 * mean over identities of the per-identity top-1 accuracy. A probe without
 * candidates earns, for each window, the share of identities that window
 * would hold by chance.
 */
module Accuracy {
  import W = Wrappers
  import opened Wrappers
  import opened Text
  import opened Values
  import opened Results
  import opened MetricLevels
  import opened PyLib
  import ResultSets

  /** `k / ids`; never asked of zero identities. */
  function Share(k: nat, ids: nat): real {
    if ids == 0 then 0.0 else k as real / ids as real
  }

  /** `min(k / ids, 1)`: the chance that a window of `k` among `ids` identities holds the true one. */
  function Chance(k: nat, ids: nat): real {
    if Share(k, ids) < 1.0 then Share(k, ids) else 1.0
  }

  /**
   * The chance level is a share: positive, at most one, reached exactly
   * when the window is at least as wide as the number of identities, and
   * growing with the window. The top-1 credit `1 / ids` is the top-1 chance.
   */
  lemma ChanceFacts(k: nat, m: nat, ids: nat)
    requires ids > 0 && 0 < k <= m
    ensures 0.0 < Chance(k, ids) <= 1.0
    ensures Chance(k, ids) == 1.0 <==> k >= ids
    ensures Chance(k, ids) <= Chance(m, ids)
    ensures Share(1, ids) == Chance(1, ids)
  {
    ShareBelowOne(k, ids);
    ShareBelowOne(1, ids);
    ShareMonotone(k, m, ids);
  }

  lemma ShareBelowOne(k: nat, ids: nat)
    requires ids > 0 && k > 0
    ensures 0.0 < Share(k, ids)
    ensures Share(k, ids) < 1.0 <==> k < ids
  {
    var s := k as real / ids as real;
    assert s * ids as real == k as real;
    if k < ids {
      assert s < 1.0;
    }
  }

  lemma ShareMonotone(k: nat, m: nat, ids: nat)
    requires ids > 0 && k <= m
    ensures Share(k, ids) <= Share(m, ids)
  {
    var x := k as real / ids as real;
    var y := m as real / ids as real;
    assert x * ids as real == k as real && y * ids as real == m as real;
  }

  /** The counters `success_n`, `top3_n`, `top5_n`, `top10_n`, which chance credit makes fractional. */
  datatype Counters = Counters(success: real, top3: real, top5: real, top10: real)

  function Unit(b: bool): real {
    if b then 1.0 else 0.0
  }

  /**
   * One probe counted: a probe with candidates adds one to every window
   * from its rank up; a probe without candidates adds every window's
   * chance level (`1 / ids` for the top-1 window).
   */
  function Credit(c: Counters, r: Record, ids: nat): Counters {
    if |r.recognized| > 0 then
      var k := Rank(r);
      Counters(c.success + Unit(k <= 1), c.top3 + Unit(k <= 3), c.top5 + Unit(k <= 5), c.top10 + Unit(k <= 10))
    else
      Counters(c.success + Share(1, ids), c.top3 + Chance(3, ids), c.top5 + Chance(5, ids), c.top10 + Chance(10, ids))
  }

  /** The counters after the probes of `rs`, in order, among `ids` identities. */
  function CountersOf(rs: seq<Record>, ids: nat): Counters {
    if |rs| == 0 then Counters(0.0, 0.0, 0.0, 0.0)
    else Credit(CountersOf(rs[..|rs| - 1], ids), rs[|rs| - 1], ids)
  }

  lemma CountersStep(rs: seq<Record>, ids: nat, i: nat)
    requires i < |rs|
    ensures CountersOf(rs[..i + 1], ids) == Credit(CountersOf(rs[..i], ids), rs[i], ids)
  {
    assert rs[..i + 1][..i] == rs[..i];
  }

  /** The counters are nested as the windows are, and none exceeds the number of probes. */
  lemma {:induction false} CountersNested(rs: seq<Record>, ids: nat)
    requires ids > 0
    ensures var c := CountersOf(rs, ids); 0.0 <= c.success <= c.top3 <= c.top5 <= c.top10 <= |rs| as real
  {
    if |rs| > 0 {
      CountersNested(rs[..|rs| - 1], ids);
      ChanceFacts(1, 3, ids);
      ChanceFacts(3, 5, ids);
      ChanceFacts(5, 10, ids);
    }
  }

  /** Without candidate-less probes the counters are the plain hit counts of each window. */
  lemma {:induction false} CountersOfHits(rs: seq<Record>, ids: nat)
    requires forall i :: 0 <= i < |rs| ==> |rs[i].recognized| > 0
    ensures CountersOf(rs, ids) == Counters(Hits(rs, 1) as real, Hits(rs, 3) as real, Hits(rs, 5) as real, Hits(rs, 10) as real)
  {
    if |rs| > 0 {
      CountersOfHits(rs[..|rs| - 1], ids);
      RankMeaning(rs[|rs| - 1]);
      SuccessIsTop1(rs[|rs| - 1]);
    }
  }

  /** A probe without candidates in a set of at most `k` identities earns the whole top-`k` credit. */
  lemma EmptyProbeCredit(c: Counters, r: Record, ids: nat)
    requires |r.recognized| == 0 && ids > 0
    ensures var d := Credit(c, r, ids); d.success == c.success + 1.0 / ids as real
    ensures ids <= 10 ==> Credit(c, r, ids).top10 == c.top10 + 1.0
    ensures ids > 10 ==> Credit(c, r, ids).top10 == c.top10 + 10.0 / ids as real
  {
    ChanceFacts(10, 10, ids);
  }

  /** The branches of the counting loop for one squashed probe. */
  method CreditOne(c: Counters, r: Record, ids: nat) returns (next: Counters)
    ensures next == Credit(c, r, ids)
  {
    if |r.recognized| > 0 {
      if Success(r) {
        next := Counters(c.success + 1.0, c.top3 + 1.0, c.top5 + 1.0, c.top10 + 1.0);
      } else if TopnSuccess(r, 3) {
        next := Counters(c.success, c.top3 + 1.0, c.top5 + 1.0, c.top10 + 1.0);
      } else if TopnSuccess(r, 5) {
        next := Counters(c.success, c.top3, c.top5 + 1.0, c.top10 + 1.0);
      } else if TopnSuccess(r, 10) {
        next := Counters(c.success, c.top3, c.top5, c.top10 + 1.0);
      } else {
        next := c;
      }
    } else {
      next := Counters(c.success + Share(1, ids), c.top3 + Chance(3, ids), c.top5 + Chance(5, ids), c.top10 + Chance(10, ids));
    }
  }

  /** The counting loop over the squashed probes. */
  method CreditAll(rs: seq<Record>, ids: nat) returns (c: Counters)
    ensures c == CountersOf(rs, ids)
  {
    c := Counters(0.0, 0.0, 0.0, 0.0);
    for i := 0 to |rs|
      invariant c == CountersOf(rs[..i], ids)
    {
      CountersStep(rs, ids, i);
      c := CreditOne(c, rs[i], ids);
    }
    assert rs[..|rs|] == rs;
  }

  /**
   * Accuracy normalized against the chance level `cl`: zero at chance,
   * one at perfect accuracy; zero when chance is already perfect.
   */
  function Normalized(rate: real, cl: real): real {
    (rate - cl) * (if 1.0 - cl > 0.0 then 1.0 / (1.0 - cl) else 0.0)
  }

  /** The normalization as the program writes it: percent-scale factor on fraction-scale rates. */
  function NormalizedAsWritten(rate: real, cl: real): real {
    (rate - cl) * (if 100.0 - cl > 0.0 then 100.0 / (100.0 - cl) else 0.0)
  }

  /**
   * With a chance level strictly between zero and one, perfect accuracy
   * normalizes to less than one as written, e.g. top-1 among two identities.
   */
  lemma PerfectNormalizedAsWritten(cl: real)
    requires 0.0 < cl < 1.0
    ensures NormalizedAsWritten(1.0, cl) < 1.0
    ensures NormalizedAsWritten(1.0, Chance(1, 2)) == 50.0 / 99.5
  {
    assert (1.0 - cl) * 100.0 < 100.0 - cl;
    assert (1.0 - cl) * (100.0 / (100.0 - cl)) < 1.0 by {
      assert (1.0 - cl) * (100.0 / (100.0 - cl)) == (1.0 - cl) * 100.0 / (100.0 - cl);
    }
  }

  /** The corrected normalization maps the chance level to zero and perfect accuracy to one, monotonically. */
  lemma NormalizedScale(rate: real, other: real, cl: real)
    requires 0.0 <= cl < 1.0 && rate <= other
    ensures Normalized(cl, cl) == 0.0
    ensures Normalized(1.0, cl) == 1.0
    ensures Normalized(rate, cl) <= Normalized(other, cl)
    ensures rate <= 1.0 ==> Normalized(rate, cl) <= 1.0
  {
    var f := 1.0 / (1.0 - cl);
    assert f > 0.0;
    assert (1.0 - cl) * f == 1.0;
    assert (rate - cl) * f <= (other - cl) * f;
    if rate <= 1.0 {
      assert (rate - cl) * f <= (1.0 - cl) * f;
    }
  }

  /** A perfect chance level leaves nothing to normalize. */
  lemma NormalizedAtFullChance(rate: real)
    ensures Normalized(rate, 1.0) == 0.0
  {
  }

  /**
   * The dictionary `calc` returns, one field per key: `ids`, `n`,
   * `hitrate`, `top1rate`, `top3rate`, `top5rate`, `top10rate`, then per
   * window `k` of the chance-level loop `cl-top<k>rate` (in `chance`) and
   * `top<k>rate-normalized` (in `normalized`), and `id-mean`.
   */
  datatype Export = Export(ids: nat, n: nat, hitrate: real, top1rate: real, top3rate: real, top5rate: real, top10rate: real,
                           chance: map<nat, real>, normalized: map<nat, real>, idMean: real)

  /** The windows of the chance-level loop. */
  const Windows: seq<nat> := [1, 3, 5, 10]

  /** `"top" + str(k) + "rate"`, the key the chance-level loop reads. */
  function RateKey(k: nat): string {
    "top" + NatToString(k) + "rate"
  }

  /** `exported["top" + str(k) + "rate"]`: only the four windows have a rate. */
  function RateOf(x: Export, k: nat): (r: W.Result<real>)
    ensures r.Ok? <==> k in Windows
  {
    if k == 1 then Ok(x.top1rate)
    else if k == 3 then Ok(x.top3rate)
    else if k == 5 then Ok(x.top5rate)
    else if k == 10 then Ok(x.top10rate)
    else Err(KeyError(RateKey(k)))
  }

  /** One pass of the chance-level loop: the window's chance level and its normalized rate. */
  function ChanceLevel(x: Export, k: nat): (out: W.Result<Export>)
    ensures out.Ok? <==> k in Windows
  {
    var rate :- RateOf(x, k);
    Ok(Level(x, k, rate))
  }

  function Level(x: Export, k: nat, rate: real): Export {
    var cl := Chance(k, x.ids);
    x.(chance := x.chance[k := cl], normalized := x.normalized[k := Normalized(rate, cl)])
  }

  /** The chance-level loop over the given windows, in order. */
  function ChanceLevels(x: Export, ks: seq<nat>): W.Result<Export>
    decreases |ks|
  {
    if |ks| == 0 then Ok(x)
    else
      var next :- ChanceLevel(x, ks[0]);
      ChanceLevels(next, ks[1..])
  }

  /** The loop's three assignments, one after the other, make `Level`. */
  lemma LevelInSteps(x: Export, k: nat, rate: real)
    ensures var cl := Chance(k, x.ids);
            var y := x.(chance := x.chance[k := cl]);
            var z := y.(normalized := y.normalized[k := rate - cl]);
            z.(normalized := z.normalized[k := Normalized(rate, cl)]) == Level(x, k, rate)
  {
    UpdateTwice(x.normalized, k, rate - Chance(k, x.ids), Normalized(rate, Chance(k, x.ids)));
  }

  /** One unfolding of the chance-level loop. */
  lemma LevelsStep(x: Export, ks: seq<nat>)
    requires |ks| > 0
    ensures ChanceLevel(x, ks[0]).Err? ==> ChanceLevels(x, ks) == Err(ChanceLevel(x, ks[0]).error)
    ensures ChanceLevel(x, ks[0]).Ok? ==> ChanceLevels(x, ks) == ChanceLevels(ChanceLevel(x, ks[0]).value, ks[1..])
  {
  }

  /**
   * `for k in [1, 3, 5, 10]`: each window's chance level and its rate
   * normalized against it.
   */
  method AddChanceLevels(x: Export) returns (out: W.Result<Export>)
    ensures out == ChanceLevels(x, Windows)
  {
    var cur := x;
    for i := 0 to |Windows|
      invariant ChanceLevels(x, Windows) == ChanceLevels(cur, Windows[i..])
    {
      assert Windows[i..][1..] == Windows[i + 1..];
      LevelsStep(cur, Windows[i..]);
      var next := AddChanceLevel(cur, Windows[i]);
      if next.Err? {
        return Err(next.error);
      }
      cur := next.value;
    }
    return Ok(cur);
  }

  /** One pass of the loop: read the window's rate, then store its chance level and normalized rate. */
  method AddChanceLevel(x: Export, k: nat) returns (out: W.Result<Export>)
    ensures out == ChanceLevel(x, k)
  {
    var rate := RateOf(x, k);
    if rate.Err? {
      return Err(rate.error);
    }
    var cl := Chance(k, x.ids);
    LevelInSteps(x, k, rate.value);
    var cur := x.(chance := x.chance[k := cl]);
    cur := cur.(normalized := cur.normalized[k := rate.value - cl]);
    cur := cur.(normalized := cur.normalized[k := Normalized(rate.value, cl)]);
    return Ok(cur);
  }

  /** Each identity's top-1 accuracy: its hits over its probes. */
  function Accuracy(g: seq<Record>): real {
    if |g| == 0 then 0.0 else Hits(g, 1) as real / |g| as real
  }

  /** `accs`: the accuracies of the given identities, in order. */
  function AccsOf(rs: seq<Record>, ids: seq<string>): (accs: seq<real>)
    ensures |accs| == |ids|
  {
    if |ids| == 0 then []
    else AccsOf(rs, ids[..|ids| - 1]) + [Accuracy(GroupOf(rs, ids[|ids| - 1]))]
  }

  function Sum(xs: seq<real>): real {
    if |xs| == 0 then 0.0 else Sum(xs[..|xs| - 1]) + xs[|xs| - 1]
  }

  /** `np.mean`; never asked of an empty list. */
  function Mean(xs: seq<real>): real {
    if |xs| == 0 then 0.0 else Sum(xs) / |xs| as real
  }

  /** Every accuracy is a share, and so is their mean. */
  lemma {:induction false} AccsBounded(rs: seq<Record>, ids: seq<string>)
    ensures forall i :: 0 <= i < |ids| ==> 0.0 <= AccsOf(rs, ids)[i] <= 1.0
    ensures 0.0 <= Sum(AccsOf(rs, ids)) <= |ids| as real
  {
    if |ids| > 0 {
      var init := ids[..|ids| - 1];
      AccsBounded(rs, init);
      AccuracyBounded(GroupOf(rs, ids[|ids| - 1]));
    }
  }

  lemma SelfRatio(n: nat)
    requires n > 0
    ensures n as real / n as real == 1.0
  {
  }

  lemma AccuracyBounded(g: seq<Record>)
    ensures 0.0 <= Accuracy(g) <= 1.0
  {
    if |g| > 0 {
      DivMonotone(Hits(g, 1) as real, |g| as real, |g| as real);
      SelfRatio(|g|);
    }
  }

  lemma MeanBounded(xs: seq<real>)
    requires 0.0 <= Sum(xs) <= |xs| as real
    ensures 0.0 <= Mean(xs) <= 1.0
  {
    if |xs| > 0 {
      assert Sum(xs) / |xs| as real <= 1.0;
    }
  }

  /** When every probe is a top-1 hit, every identity's accuracy is one. */
  lemma {:induction false} AllHitsPerfect(rs: seq<Record>, ids: seq<string>)
    requires forall i :: 0 <= i < |rs| ==> Success(rs[i])
    requires forall i :: 0 <= i < |ids| ==> ids[i] in IdentitiesOf(rs)
    ensures Sum(AccsOf(rs, ids)) == |ids| as real
  {
    if |ids| > 0 {
      AllHitsPerfect(rs, ids[..|ids| - 1]);
      var g := GroupOf(rs, ids[|ids| - 1]);
      HitsAll(rs, ids[|ids| - 1]);
    }
  }

  lemma HitsAll(rs: seq<Record>, id: string)
    requires forall i :: 0 <= i < |rs| ==> Success(rs[i])
    requires id in IdentitiesOf(rs)
    ensures Accuracy(GroupOf(rs, id)) == 1.0
  {
    var g := GroupOf(rs, id);
    EveryHit(rs, id);
    SelfRatio(|g|);
  }

  lemma {:induction false} EveryHit(rs: seq<Record>, id: string)
    requires forall i :: 0 <= i < |rs| ==> Success(rs[i])
    ensures Hits(GroupOf(rs, id), 1) == |GroupOf(rs, id)|
  {
    if |rs| > 0 {
      var init, r := rs[..|rs| - 1], rs[|rs| - 1];
      EveryHit(init, id);
      if r.identity == id {
        assert GroupOf(rs, id) == GroupOf(init, id) + [r];
        HitsAppend(GroupOf(init, id), r);
        assert HitWithin(r, 1);
      } else {
        assert GroupOf(rs, id) == GroupOf(init, id) + [];
        assert GroupOf(init, id) + [] == GroupOf(init, id);
      }
    }
  }

  lemma HitsAppend(g: seq<Record>, r: Record)
    ensures Hits(g + [r], 1) == Hits(g, 1) + if HitWithin(r, 1) then 1 else 0
  {
    assert (g + [r])[..|g|] == g;
  }

  /** The loop `for result in results: if result.is_success(): hits += 1`. */
  method CountHits(g: seq<Record>) returns (hits: nat)
    ensures hits == Hits(g, 1)
  {
    hits := 0;
    for i := 0 to |g|
      invariant hits == Hits(g[..i], 1)
    {
      assert g[..i + 1][..i] == g[..i];
      if Success(g[i]) {
        hits := hits + 1;
      }
    }
    assert g[..|g|] == g;
  }

  lemma AccsStep(rs: seq<Record>, ids: seq<string>, i: nat)
    requires i < |ids|
    ensures AccsOf(rs, ids[..i + 1]) == AccsOf(rs, ids[..i]) + [Accuracy(GroupOf(rs, ids[i]))]
  {
    assert ids[..i + 1][..i] == ids[..i];
  }

  /** `for id, results in identities.items(): accs.append(hits / len(results))`. */
  method IdAccuracies(rs: seq<Record>, ids: seq<string>, groups: map<string, seq<Record>>) returns (accs: seq<real>)
    requires forall id :: id in groups <==> id in ids
    requires forall id :: id in groups ==> groups[id] == GroupOf(rs, id)
    ensures accs == AccsOf(rs, ids)
  {
    accs := [];
    for i := 0 to |ids|
      invariant accs == AccsOf(rs, ids[..i])
    {
      AccsStep(rs, ids, i);
      var g := groups[ids[i]];
      var hits := CountHits(g);
      var acc := if |g| == 0 then 0.0 else hits as real / |g| as real;
      accs := accs + [acc];
    }
    assert ids[..|ids|] == ids;
  }

  /** The export before the chance-level loop: counts and the fraction-scale rates. */
  function Rates(rs: seq<Record>, ids: nat): Export
    requires |rs| > 0
  {
    var c := CountersOf(rs, ids);
    var n := |rs| as real;
    Export(ids, |rs|, c.success / n, c.success / n, c.top3 / n, c.top5 / n, c.top10 / n, map[], map[], 0.0)
  }

  /**
   * What `calc` returns for the squashed probes `rs`: division by the
   * number of probes fails when there are none.
   */
  function ExportOf(rs: seq<Record>): W.Result<Export> {
    if |rs| == 0 then Err(ZeroDivisionError)
    else
      var ids := Unique(IdentitiesOf(rs));
      var levels :- ChanceLevels(Rates(rs, |ids|), Windows);
      Ok(levels.(idMean := Mean(AccsOf(rs, ids))))
  }

  /**
   * What each key of the export holds: the number of identities and of
   * probes, every window's rate (`hitrate` and `top1rate` alike), and the
   * mean per-identity accuracy.
   */
  lemma ExportFacts(rs: seq<Record>)
    requires |rs| > 0
    ensures ExportOf(rs).Ok?
    ensures var x := ExportOf(rs).value;
            var ids := Unique(IdentitiesOf(rs));
            var c := CountersOf(rs, |ids|);
            var n := |rs| as real;
            && x.ids == |ids| && x.n == |rs|
            && x.hitrate == x.top1rate == c.success / n
            && x.top3rate == c.top3 / n && x.top5rate == c.top5 / n && x.top10rate == c.top10 / n
            && x.idMean == Mean(AccsOf(rs, ids))
  {
    var ids := Unique(IdentitiesOf(rs));
    var x0 := Rates(rs, |ids|);
    LevelsOf(x0);
    assert ExportOf(rs) == Ok(ChanceLevels(x0, Windows).value.(idMean := Mean(AccsOf(rs, ids))));
  }

  /** Every window has its chance level, and its rate normalized against it, and no other key is written. */
  lemma ExportLevels(rs: seq<Record>)
    requires |rs| > 0
    ensures ExportOf(rs).Ok?
    ensures var x := ExportOf(rs).value;
            && x.chance.Keys == x.normalized.Keys == {1, 3, 5, 10}
            && (forall k :: k in x.chance ==> x.chance[k] == Chance(k, x.ids))
            && (forall k :: k in x.normalized ==> x.normalized[k] == Normalized(RateOf(x, k).value, x.chance[k]))
  {
    var ids := Unique(IdentitiesOf(rs));
    var x0 := Rates(rs, |ids|);
    LevelsOf(x0);
    LevelsKeys(x0);
    assert ExportOf(rs) == Ok(Levels(x0).(idMean := Mean(AccsOf(rs, ids))));
  }

  /** From empty maps, the passes write the four windows and nothing else. */
  lemma LevelsKeys(x: Export)
    requires x.chance == map[] && x.normalized == map[]
    ensures var y := Levels(x);
            && y.ids == x.ids && y.top1rate == x.top1rate && y.top3rate == x.top3rate
            && y.top5rate == x.top5rate && y.top10rate == x.top10rate
            && y.chance.Keys == y.normalized.Keys == {1, 3, 5, 10}
            && (forall k :: k in y.chance ==> y.chance[k] == Chance(k, y.ids))
            && (forall k :: k in y.normalized ==> y.normalized[k] == Normalized(RateOf(y, k).value, y.chance[k]))
  {
  }

  /** The chance-level loop is one pass per window, in order. */
  lemma LevelsOf(x: Export)
    ensures ChanceLevels(x, Windows) == Ok(Levels(x))
  {
    var x1 := Level(x, 1, x.top1rate);
    var x2 := Level(x1, 3, x.top3rate);
    var x3 := Level(x2, 5, x.top5rate);
    assert ChanceLevels(x3, [10]) == Ok(Levels(x)) by {
      assert [10][1..] == [];
    }
    assert ChanceLevels(x2, [5, 10]) == Ok(Levels(x)) by {
      assert [5, 10][1..] == [10];
    }
    assert ChanceLevels(x1, [3, 5, 10]) == Ok(Levels(x)) by {
      assert [3, 5, 10][1..] == [5, 10];
    }
    assert Windows[1..] == [3, 5, 10];
  }

  function Levels(x: Export): Export {
    var x1 := Level(x, 1, x.top1rate);
    var x2 := Level(x1, 3, x.top3rate);
    var x3 := Level(x2, 5, x.top5rate);
    Level(x3, 10, x.top10rate)
  }

  lemma DivMonotone(a: real, b: real, n: real)
    requires 0.0 <= a <= b && n > 0.0
    ensures 0.0 <= a / n <= b / n
  {
    assert (a / n) * n == a && (b / n) * n == b;
  }

  lemma IdentitiesNonEmpty(rs: seq<Record>)
    requires |rs| > 0
    ensures |Unique(IdentitiesOf(rs))| > 0
  {
    assert rs[0].identity in IdentitiesOf(rs);
  }

  /** Every rate is a share, nested as the windows are, and so is the mean per-identity accuracy. */
  lemma ExportBounds(rs: seq<Record>)
    requires |rs| > 0
    ensures ExportOf(rs).Ok?
    ensures var x := ExportOf(rs).value;
            && 0.0 <= x.hitrate <= x.top3rate <= x.top5rate <= x.top10rate <= 1.0
            && 0.0 <= x.idMean <= 1.0
  {
    ExportFacts(rs);
    var ids := Unique(IdentitiesOf(rs));
    IdentitiesNonEmpty(rs);
    CountersNested(rs, |ids|);
    var c := CountersOf(rs, |ids|);
    var n := |rs| as real;
    DivMonotone(c.success, c.top3, n);
    DivMonotone(c.top3, c.top5, n);
    DivMonotone(c.top5, c.top10, n);
    DivMonotone(c.top10, n, n);
    SelfRatio(|rs|);
    AccsBounded(rs, ids);
    MeanBounded(AccsOf(rs, ids));
  }

  /** Without candidate-less probes each rate is the share of probes the window holds the true identity for. */
  lemma ExportWithoutEmptyProbes(rs: seq<Record>)
    requires |rs| > 0
    requires forall i :: 0 <= i < |rs| ==> |rs[i].recognized| > 0
    ensures ExportOf(rs).Ok?
    ensures var x := ExportOf(rs).value; var n := |rs| as real;
            && x.hitrate == Hits(rs, 1) as real / n && x.top3rate == Hits(rs, 3) as real / n
            && x.top5rate == Hits(rs, 5) as real / n && x.top10rate == Hits(rs, 10) as real / n
  {
    ExportFacts(rs);
    var c := CountersOf(rs, |Unique(IdentitiesOf(rs))|);
    CountersOfHits(rs, |Unique(IdentitiesOf(rs))|);
    assert c == Counters(Hits(rs, 1) as real, Hits(rs, 3) as real, Hits(rs, 5) as real, Hits(rs, 10) as real);
  }

  /**
   * When every probe's best candidate is its true identity, the top-1 rate
   * and the mean per-identity accuracy are one, and so is the normalized
   * top-1 rate whenever there is more than one identity.
   */
  lemma ExportPerfect(rs: seq<Record>)
    requires |rs| > 0
    requires forall i :: 0 <= i < |rs| ==> Success(rs[i])
    ensures ExportOf(rs).Ok?
    ensures var x := ExportOf(rs).value;
            && x.hitrate == 1.0 && x.idMean == 1.0
            && (x.ids > 1 ==> x.normalized[1] == 1.0)
  {
    ExportFacts(rs);
    ExportLevels(rs);
    var ids := Unique(IdentitiesOf(rs));
    CountersOfHits(rs, |ids|);
    AllSucceed(rs);
    SelfRatio(|rs|);
    forall i | 0 <= i < |ids| ensures ids[i] in IdentitiesOf(rs) {
      assert ids[i] in ids;
    }
    AllHitsPerfect(rs, ids);
    IdentitiesNonEmpty(rs);
    SelfRatio(|ids|);
    var x := ExportOf(rs).value;
    if x.ids > 1 {
      ChanceFacts(1, 1, x.ids);
      NormalizedScale(1.0, 1.0, Chance(1, x.ids));
    }
  }

  lemma {:induction false} AllSucceed(rs: seq<Record>)
    requires forall i :: 0 <= i < |rs| ==> Success(rs[i])
    ensures Hits(rs, 1) == |rs|
  {
    if |rs| > 0 {
      AllSucceed(rs[..|rs| - 1]);
    }
  }

  /**
   * The loops of `calc` after squashing, given the grouping by identity:
   * count with chance credit, divide by the number of probes, add the
   * chance levels, then the mean per-identity accuracy.
   */
  method Summarize(rs: seq<Record>, ids: seq<string>, groups: map<string, seq<Record>>) returns (out: W.Result<Export>)
    requires ids == Unique(IdentitiesOf(rs))
    requires forall id :: id in groups <==> id in ids
    requires forall id :: id in groups ==> groups[id] == GroupOf(rs, id)
    ensures out == ExportOf(rs)
  {
    var c := CreditAll(rs, |ids|);
    if |rs| == 0 {
      return Err(ZeroDivisionError);
    }
    var n := |rs| as real;
    var x := Export(|ids|, |rs|, c.success / n, c.success / n, c.top3 / n, c.top5 / n, c.top10 / n, map[], map[], 0.0);
    assert x == Rates(rs, |ids|);
    var levels := AddChanceLevels(x);
    if levels.Err? {
      return Err(levels.error);
    }
    var accs := IdAccuracies(rs, ids, groups);
    out := Ok(levels.value.(idMean := Mean(accs)));
  }

  /** The sort key of `calc`'s in-place sort: the true identity. */
  function IdentityOf(r: Results.Result): string {
    r.identity
  }

  class AccuracyMetric {
    /** The result set the metric reads, and whose list of results `calc` sorts. */
    const result: ResultSets.ResultSet

    constructor (result: ResultSets.ResultSet)
      ensures this.result == result
    {
      this.result := result;
    }

    /**
     * `calc`: sort the set's results by true identity in place, then
     * evaluate them.
     */
    method Calc(existing: Option<seq<string>>) returns (out: W.Result<Export>)
      modifies result
      ensures result.results == SortByName(old(result.results), IdentityOf)
      ensures SortedByName(result.results, IdentityOf) && multiset(result.results) == multiset(old(result.results))
      ensures result.config == old(result.config) && result.datasets == old(result.datasets) && result.file == old(result.file)
      ensures ResultSets.Opened(existing, result.codec).Err? ==> out == Err(ResultSets.Opened(existing, result.codec).error)
      ensures ResultSets.Opened(existing, result.codec).Ok? ==> out == ExportOf(MinSquashed(ResultSets.Records(result.results)))
    {
      SortByIdentity();
      out := Evaluate(existing);
    }

    /** `self.result.results.sort(key=lambda x: x.identity)`. */
    method SortByIdentity()
      modifies result
      ensures result.results == SortByName(old(result.results), IdentityOf)
      ensures SortedByName(result.results, IdentityOf) && multiset(result.results) == multiset(old(result.results))
      ensures result.config == old(result.config) && result.datasets == old(result.datasets) && result.file == old(result.file)
    {
      SortByNameFacts(result.results, IdentityOf);
      result.results := SortByName(result.results, IdentityOf);
    }

    /**
     * The rest of `calc`: squash the results to minimum distances (which
     * opens the `-squashed` results file; its lines, if it exists, are
     * `existing`) once to group them and once to count them, then
     * summarize. Opening that file fails first; an empty set then divides
     * by zero.
     */
    method Evaluate(existing: Option<seq<string>>) returns (out: W.Result<Export>)
      ensures ResultSets.Opened(existing, result.codec).Err? ==> out == Err(ResultSets.Opened(existing, result.codec).error)
      ensures ResultSets.Opened(existing, result.codec).Ok? ==> out == ExportOf(MinSquashed(ResultSets.Records(result.results)))
    {
      var first := MinSquashedOf(result, existing);
      if first.Err? {
        return Err(first.error);
      }
      var ids, groups := GroupByIdentity(first.value);
      var second := MinSquashedOf(result, existing);
      out := Summarize(second.value, ids, groups);
    }
  }
}
