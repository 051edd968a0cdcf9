/**
 * Splitters: stages that take one or two datasets and cut them into
 * disjoint parts (enrollment/test, background/evaluation, training sets),
 * each part a soft-linked copy of an input filtered by identity and/or
 * datapoint names. A shuffle (`random.shuffle` seeded from the
 * configuration) is a reordering the caller supplies.
 */
module Splitters {
  import opened Wrappers
  import opened Values
  import opened PyLib
  import opened Scan
  import opened Datasets

  datatype Kind = Anon | Anonbg | IdLevel | Interid1to3 | Intraid2to2 | Deanon | DeanonCompare | Compare

  /** The class attribute `name`. */
  function Name(k: Kind): string {
    match k
    case Anon => "anon"
    case Anonbg => "anonbg"
    case IdLevel => "id"
    case Interid1to3 => "interid1to3"
    case Intraid2to2 => "intraid2to2"
    case Deanon => "deanon"
    case DeanonCompare => "deanon_compare"
    case Compare => "compare"
  }

  /** The class attribute `random`: every splitter but `compare` shuffles. */
  predicate IsRandom(k: Kind) {
    k != Compare
  }

  /** `nin`: how many input datasets `run` accepts. */
  function Nin(k: Kind): nat {
    if k == Anonbg || k == Interid1to3 then 1 else 2
  }

  /** `nout`: how many datasets `split` must return. */
  function Nout(k: Kind): nat {
    match k
    case Interid1to3 => 3
    case Deanon => 4
    case DeanonCompare => 4
    case _ => 2
  }

  function Missing(key: string): Error {
    AttributeError("Splitter: config: Missing " + key)
  }

  function OutOfRange(key: string): Error {
    AttributeError("Splitter: config: " + key + " not in [0,1]")
  }

  /** `float(config[key])`, or the "Missing" error. */
  function RateOf(c: Config, key: string): Result<real> {
    if key !in c then Err(Missing(key)) else ToFloat(c[key])
  }

  /** `validate_config` of `anon` and `id`. */
  function ValidateEnrollTest(c: Config): Result<Config> {
    var c1 := SetDefault(SetDefault(c, "enroll_anon", Bool(false)), "test_anon", Bool(true));
    var rate :- RateOf(c1, "rate");
    if rate < 0.0 || rate > 1.0 then Err(OutOfRange("rate")) else Ok(c1["rate" := Real(rate)])
  }

  /** `validate_config` of `interid1to3`: exactly two non-negative rates summing to at most 1. */
  function ValidateRates(c: Config): Result<Config> {
    if "rates" !in c then Err(Missing("rates"))
    else if !c["rates"].List? then Err(TypeError("rates is not a list"))
    else
      var items := c["rates"].items;
      if exists i :: 0 <= i < |items| && !IsNumber(items[i]) then Err(ValueError("could not convert to float"))
      else if |items| != 2 then Err(AttributeError("Splitter: Expected exactly two rates!"))
      else
        var r0 := NumOf(items[0]);
        var r1 := NumOf(items[1]);
        if r0 < 0.0 || r1 < 0.0 || r0 + r1 > 1.0 then Err(OutOfRange("rate"))
        else Ok(c["rates" := List([Real(r0), Real(r1)])])
  }

  /** `train_rate` in [0, 1), shared by `deanon` and `deanon_compare`. */
  function ValidateTrainRate(c: Config): Result<Config> {
    var tr :- RateOf(c, "train_rate");
    if tr < 0.0 || tr >= 1.0 then Err(OutOfRange("train_rate")) else Ok(c["train_rate" := Real(tr)])
  }

  /** `validate_config()`: defaults filled in, rates converted and range-checked. */
  function ValidateConfig(k: Kind, c: Config): Result<Config> {
    match k
    case Anon => ValidateEnrollTest(c)
    case IdLevel => ValidateEnrollTest(c)
    case Anonbg =>
      var rate :- RateOf(c, "rate");
      if rate < 0.0 || rate > 1.0 then Err(OutOfRange("rate")) else Ok(c["rate" := Real(rate)])
    case Interid1to3 => ValidateRates(c)
    case Intraid2to2 =>
      var rate :- RateOf(c, "rate");
      if rate < 0.0 || rate > 1.0 then Err(OutOfRange("rate"))
      else
        var c1 := c["rate" := Real(rate)];
        Ok(c1["enroll_clear" := Bool("enroll_clear" in c1 && Truthy(c1["enroll_clear"]))])
    case Deanon =>
      var c1 := SetDefault(c, "parrot", Bool(false));
      var er :- RateOf(c1, "enroll_rate");
      if er <= 0.0 || er >= 1.0 then Err(OutOfRange("enroll_rate"))
      else ValidateTrainRate(c1["enroll_rate" := Real(er)])
    case DeanonCompare => ValidateTrainRate(c)
    case Compare => Ok(c)
  }

  /**
   * `AbstractSplitter.__init__`: validate the configuration, then refuse a
   * random splitter without a seed.
   */
  function Construct(k: Kind, c: Config): Result<Config> {
    var v :- ValidateConfig(k, c);
    if IsRandom(k) && "seed" !in v then Err(AttributeError("Random Splitters require seed to be set in configuration!"))
    else Ok(v)
  }

  /** `lo <= config[key] <= hi` (or strict), for a number under `key`. */
  predicate RateWithin(c: Config, key: string, lo: real, hi: real, loOpen: bool, hiOpen: bool) {
    key in c && IsNumber(c[key]) &&
    (if loOpen then NumOf(c[key]) > lo else NumOf(c[key]) >= lo) &&
    (if hiOpen then NumOf(c[key]) < hi else NumOf(c[key]) <= hi)
  }

  /** The configurations a splitter accepts, read off the checks it makes. */
  predicate Accepts(k: Kind, c: Config) {
    (IsRandom(k) ==> "seed" in c) &&
    match k
    case Interid1to3 =>
      "rates" in c && c["rates"].List? && |c["rates"].items| == 2 &&
      IsNumber(c["rates"].items[0]) && IsNumber(c["rates"].items[1]) &&
      NumOf(c["rates"].items[0]) >= 0.0 && NumOf(c["rates"].items[1]) >= 0.0 &&
      NumOf(c["rates"].items[0]) + NumOf(c["rates"].items[1]) <= 1.0
    case Deanon => RateWithin(c, "enroll_rate", 0.0, 1.0, true, true) && RateWithin(c, "train_rate", 0.0, 1.0, false, true)
    case DeanonCompare => RateWithin(c, "train_rate", 0.0, 1.0, false, true)
    case Compare => true
    case _ => RateWithin(c, "rate", 0.0, 1.0, false, false)
  }

  /** A floating-point rate within bounds, as `validate_config` leaves it. */
  predicate RealWithin(c: Config, key: string, lo: real, hi: real, loOpen: bool, hiOpen: bool) {
    key in c && c[key].Real? && RateWithin(c, key, lo, hi, loOpen, hiOpen)
  }

  /** What a constructed splitter may rely on in `self.config`. */
  predicate ConfigValid(k: Kind, c: Config) {
    (IsRandom(k) ==> "seed" in c) &&
    match k
    case Anon => RealWithin(c, "rate", 0.0, 1.0, false, false) && "enroll_anon" in c && "test_anon" in c
    case IdLevel => RealWithin(c, "rate", 0.0, 1.0, false, false) && "enroll_anon" in c && "test_anon" in c
    case Anonbg => RealWithin(c, "rate", 0.0, 1.0, false, false)
    case Intraid2to2 => RealWithin(c, "rate", 0.0, 1.0, false, false) && "enroll_clear" in c && c["enroll_clear"].Bool?
    case Interid1to3 =>
      "rates" in c && c["rates"].List? && |c["rates"].items| == 2 &&
      c["rates"].items[0].Real? && c["rates"].items[1].Real? &&
      c["rates"].items[0].r >= 0.0 && c["rates"].items[1].r >= 0.0 &&
      c["rates"].items[0].r + c["rates"].items[1].r <= 1.0
    case Deanon => "parrot" in c && RealWithin(c, "enroll_rate", 0.0, 1.0, true, true) && RealWithin(c, "train_rate", 0.0, 1.0, false, true)
    case DeanonCompare => RealWithin(c, "train_rate", 0.0, 1.0, false, true)
    case Compare => true
  }

  /** The keys `validate_config` may rewrite. */
  function Normalised(k: Kind): set<string> {
    match k
    case Anon => {"rate", "enroll_anon", "test_anon"}
    case IdLevel => {"rate", "enroll_anon", "test_anon"}
    case Anonbg => {"rate"}
    case Intraid2to2 => {"rate", "enroll_clear"}
    case Interid1to3 => {"rates"}
    case Deanon => {"parrot", "enroll_rate", "train_rate"}
    case DeanonCompare => {"train_rate"}
    case Compare => {}
  }

  /**
   * What construction guarantees about the configuration `v` it keeps,
   * relative to the given configuration `c`.
   */
  predicate Constructed(k: Kind, c: Config, v: Config) {
    ConfigValid(k, v) &&
    (forall key :: key in c ==> key in v) &&
    (forall key :: key in c && key !in Normalised(k) ==> v[key] == c[key]) &&
    ((k == Anon || k == IdLevel || k == Anonbg || k == Intraid2to2) ==> "rate" in c && IsNumber(c["rate"]) && v["rate"].r == NumOf(c["rate"])) &&
    ((k == Anon || k == IdLevel) ==>
      v["enroll_anon"] == (if "enroll_anon" in c then c["enroll_anon"] else Bool(false)) &&
      v["test_anon"] == (if "test_anon" in c then c["test_anon"] else Bool(true))) &&
    (k == Intraid2to2 ==> (v["enroll_clear"].b <==> "enroll_clear" in c && Truthy(c["enroll_clear"]))) &&
    (k == Deanon ==> v["parrot"] == (if "parrot" in c then c["parrot"] else Bool(false)))
  }

  /**
   * A splitter is constructed exactly when its configuration passes the
   * checks; the constructed configuration keeps every given key, leaves
   * keys it does not normalise untouched, carries the given rates as
   * floats and the documented defaults for absent flags.
   */
  lemma ConstructMeaning(k: Kind, c: Config)
    ensures Construct(k, c).Ok? <==> Accepts(k, c)
    ensures Construct(k, c).Ok? ==> Constructed(k, c, Construct(k, c).value)
  {
    match k
    case Anon => ConstructEnrollTest(k, c);
    case IdLevel => ConstructEnrollTest(k, c);
    case Anonbg => ConstructOneRate(k, c);
    case Intraid2to2 => ConstructOneRate(k, c);
    case Interid1to3 => ConstructRates(c);
    case Deanon => ConstructDeanon(c);
    case DeanonCompare => ConstructDeanonCompare(c);
    case Compare =>
  }

  lemma ConstructEnrollTest(k: Kind, c: Config)
    requires k == Anon || k == IdLevel
    ensures Construct(k, c).Ok? <==> Accepts(k, c)
    ensures Construct(k, c).Ok? ==> Constructed(k, c, Construct(k, c).value)
  {
    EnrollTestDefaults(c);
    if Accepts(k, c) {
      EnrollTestConstructed(k, c);
    }
  }

  /** The defaults `anon` and `id` fill in, and the configuration they validate. */
  lemma EnrollTestDefaults(c: Config)
    ensures var c1 := SetDefault(SetDefault(c, "enroll_anon", Bool(false)), "test_anon", Bool(true));
      c1["enroll_anon"] == (if "enroll_anon" in c then c["enroll_anon"] else Bool(false)) &&
      c1["test_anon"] == (if "test_anon" in c then c["test_anon"] else Bool(true)) &&
      forall x :: x != "enroll_anon" && x != "test_anon" ==> (x in c1 <==> x in c) && (x in c ==> c1[x] == c[x])
    ensures ValidateEnrollTest(c).Ok? <==> RateWithin(c, "rate", 0.0, 1.0, false, false)
  {
    var c0 := SetDefault(c, "enroll_anon", Bool(false));
  }

  lemma EnrollTestConstructed(k: Kind, c: Config)
    requires k == Anon || k == IdLevel
    requires Accepts(k, c)
    ensures Construct(k, c).Ok? && Constructed(k, c, Construct(k, c).value)
  {
    var c1 := SetDefault(SetDefault(c, "enroll_anon", Bool(false)), "test_anon", Bool(true));
    EnrollTestDefaults(c);
    var v := c1["rate" := Real(NumOf(c["rate"]))];
    assert ValidateConfig(k, c) == Ok(v);
    forall key | key in c && key !in Normalised(k) ensures key in v && v[key] == c[key] {
    }
    assert ConfigValid(k, v);
  }

  lemma ConstructOneRate(k: Kind, c: Config)
    requires k == Anonbg || k == Intraid2to2
    ensures Construct(k, c).Ok? <==> Accepts(k, c)
    ensures Construct(k, c).Ok? ==> Constructed(k, c, Construct(k, c).value)
  {
    if Accepts(k, c) {
      var c1 := c["rate" := Real(NumOf(c["rate"]))];
      var v := if k == Anonbg then c1
               else c1["enroll_clear" := Bool("enroll_clear" in c1 && Truthy(c1["enroll_clear"]))];
      assert ValidateConfig(k, c) == Ok(v);
      forall key | key in c && key !in Normalised(k) ensures key in v && v[key] == c[key] {
      }
      assert Constructed(k, c, v);
    }
  }

  lemma ConstructRates(c: Config)
    ensures Construct(Interid1to3, c).Ok? <==> Accepts(Interid1to3, c)
    ensures Construct(Interid1to3, c).Ok? ==> Constructed(Interid1to3, c, Construct(Interid1to3, c).value)
  {
    if Accepts(Interid1to3, c) {
      var items := c["rates"].items;
      assert forall i :: 0 <= i < |items| ==> IsNumber(items[i]);
      var v := c["rates" := List([Real(NumOf(items[0])), Real(NumOf(items[1]))])];
      assert ValidateRates(c) == Ok(v);
      assert Constructed(Interid1to3, c, v);
    }
  }

  lemma ConstructDeanon(c: Config)
    ensures Construct(Deanon, c).Ok? <==> Accepts(Deanon, c)
    ensures Construct(Deanon, c).Ok? ==> Constructed(Deanon, c, Construct(Deanon, c).value)
  {
    DeanonRates(c);
    if Accepts(Deanon, c) {
      DeanonConstructed(c);
    }
  }

  /** `deanon` validates exactly the two rates, after defaulting `parrot`. */
  lemma DeanonRates(c: Config)
    ensures var c1 := SetDefault(c, "parrot", Bool(false));
      c1["parrot"] == (if "parrot" in c then c["parrot"] else Bool(false)) &&
      forall x :: x != "parrot" ==> (x in c1 <==> x in c) && (x in c ==> c1[x] == c[x])
    ensures ValidateConfig(Deanon, c).Ok? <==>
      RateWithin(c, "enroll_rate", 0.0, 1.0, true, true) && RateWithin(c, "train_rate", 0.0, 1.0, false, true)
  {
    var c1 := SetDefault(c, "parrot", Bool(false));
    if "enroll_rate" in c && IsNumber(c["enroll_rate"]) {
      var c2 := c1["enroll_rate" := Real(NumOf(c["enroll_rate"]))];
      assert "train_rate" in c2 <==> "train_rate" in c;
      if "train_rate" in c {
        assert c2["train_rate"] == c["train_rate"];
      }
    }
  }

  lemma DeanonConstructed(c: Config)
    requires Accepts(Deanon, c)
    ensures Construct(Deanon, c).Ok? && Constructed(Deanon, c, Construct(Deanon, c).value)
  {
    var c1 := SetDefault(c, "parrot", Bool(false));
    DeanonRates(c);
    var v := c1["enroll_rate" := Real(NumOf(c["enroll_rate"]))]["train_rate" := Real(NumOf(c["train_rate"]))];
    assert ValidateConfig(Deanon, c) == Ok(v);
    forall key | key in c && key !in Normalised(Deanon) ensures key in v && v[key] == c[key] {
    }
    assert ConfigValid(Deanon, v);
  }

  lemma ConstructDeanonCompare(c: Config)
    ensures Construct(DeanonCompare, c).Ok? <==> Accepts(DeanonCompare, c)
    ensures Construct(DeanonCompare, c).Ok? ==> Constructed(DeanonCompare, c, Construct(DeanonCompare, c).value)
  {
  }

  /** `min_set`: the input with fewer identities, the anonymized one (input 1) on a tie. */
  function MinSide(orig: Index, anon: Index): (i: nat)
    ensures i < 2
  {
    if |anon.identities| <= |orig.identities| then 1 else 0
  }

  /** A shuffle of each group: `random.shuffle` reorders a list in place. */
  ghost predicate Shuffles(groups: seq<seq<string>>, shuffled: seq<seq<string>>) {
    |shuffled| == |groups| && forall i :: 0 <= i < |groups| ==> multiset(shuffled[i]) == multiset(groups[i])
  }

  /** `enroll_img_ids` after the per-identity loop: the first int(rate·n) points of each group. */
  function EnrollOf(groups: seq<seq<string>>, rate: real): seq<string> {
    if |groups| == 0 then []
    else
      var g := groups[|groups| - 1];
      EnrollOf(groups[..|groups| - 1], rate) + Upto(g, Cut(|g|, rate))
  }

  /** `test_img_ids` after the per-identity loop: the rest of each group. */
  function TestOf(groups: seq<seq<string>>, rate: real): seq<string> {
    if |groups| == 0 then []
    else
      var g := groups[|groups| - 1];
      TestOf(groups[..|groups| - 1], rate) + From(g, Cut(|g|, rate))
  }

  /**
   * The loop shared by `anon`, `intraid2to2` and `deanon`: each group is
   * cut at int(rate·len) and the two halves appended to the two lists.
   */
  method SplitPerIdentity(groups: seq<seq<string>>, rate: real) returns (enroll: seq<string>, test: seq<string>)
    ensures enroll == EnrollOf(groups, rate) && test == TestOf(groups, rate)
  {
    enroll := [];
    test := [];
    var i := 0;
    while i < |groups|
      invariant 0 <= i <= |groups|
      invariant enroll == EnrollOf(groups[..i], rate) && test == TestOf(groups[..i], rate)
    {
      assert groups[..i + 1][..i] == groups[..i];
      var split := Cut(|groups[i]|, rate);
      enroll := enroll + Upto(groups[i], split);
      test := test + From(groups[i], split);
      i := i + 1;
    }
    assert groups[..i] == groups;
  }

  /**
   * The per-identity split loses and repeats nothing: enroll and test
   * together are a reordering of all the groups' points, and when the
   * points are distinct the two lists are disjoint.
   */
  lemma {:induction false} PerIdentityPartition(groups: seq<seq<string>>, rate: real)
    ensures multiset(EnrollOf(groups, rate)) + multiset(TestOf(groups, rate)) == multiset(Flatten(groups))
    ensures Distinct(Flatten(groups)) ==>
      Distinct(EnrollOf(groups, rate)) && Distinct(TestOf(groups, rate)) &&
      forall x :: x in EnrollOf(groups, rate) ==> x !in TestOf(groups, rate)
  {
    if |groups| > 0 {
      var g := groups[|groups| - 1];
      PerIdentityPartition(groups[..|groups| - 1], rate);
      CutPartition(g, Cut(|g|, rate));
    }
    if Distinct(Flatten(groups)) {
      SplitOfDistinct(EnrollOf(groups, rate), TestOf(groups, rate), Flatten(groups));
    }
  }

  /** The enroll halves of the groups, one per group. */
  function Heads(groups: seq<seq<string>>, rate: real): (r: seq<seq<string>>)
    ensures |r| == |groups|
  {
    seq(|groups|, j requires 0 <= j < |groups| => Upto(groups[j], Cut(|groups[j]|, rate)))
  }

  /** The test halves of the groups, one per group. */
  function Tails(groups: seq<seq<string>>, rate: real): (r: seq<seq<string>>)
    ensures |r| == |groups|
  {
    seq(|groups|, j requires 0 <= j < |groups| => From(groups[j], Cut(|groups[j]|, rate)))
  }

  lemma {:induction false} HalvesFlatten(groups: seq<seq<string>>, rate: real)
    ensures EnrollOf(groups, rate) == Flatten(Heads(groups, rate))
    ensures TestOf(groups, rate) == Flatten(Tails(groups, rate))
  {
    if |groups| > 0 {
      var init := groups[..|groups| - 1];
      HalvesFlatten(init, rate);
      assert Heads(groups, rate)[..|groups| - 1] == Heads(init, rate);
      assert Tails(groups, rate)[..|groups| - 1] == Tails(init, rate);
    }
  }

  /**
   * Each identity's share: of the points of group `i`, exactly the first
   * int(rate·n) of its shuffled order are enrolled and the rest are test
   * points (when the points of different groups are distinct).
   */
  lemma PerIdentityShare(groups: seq<seq<string>>, rate: real, i: nat, x: string)
    requires i < |groups| && x in groups[i] && Distinct(Flatten(groups))
    ensures x in EnrollOf(groups, rate) <==> x in Upto(groups[i], Cut(|groups[i]|, rate))
    ensures x in TestOf(groups, rate) <==> x !in Upto(groups[i], Cut(|groups[i]|, rate))
  {
    var g := groups[i];
    var k := Cut(|g|, rate);
    HalvesFlatten(groups, rate);
    FlattenMember(Heads(groups, rate), x);
    FlattenMember(Tails(groups, rate), x);
    DistinctFlattenParts(groups, i, i, x);
    CutPartition(g, k);
    DistinctCut(g, k);
    assert x in Upto(g, k) || x in From(g, k) by {
      assert x in multiset(g);
    }
    forall j | 0 <= j < |groups| && j != i
      ensures x !in Heads(groups, rate)[j] && x !in Tails(groups, rate)[j]
    {
      DistinctFlattenParts(groups, i, j, x);
      var h := groups[j];
      CutPartition(h, Cut(|h|, rate));
      assert x !in multiset(h);
    }
    assert Heads(groups, rate)[i] == Upto(g, k);
    assert Tails(groups, rate)[i] == From(g, k);
  }

  /** The identity-level cut of `anonbg` and `deanon`: `ids[:k]`, `ids[k:]` with k = int(n·rate). */
  lemma IdentityCut(ids: seq<string>, shuffled: seq<string>, rate: real)
    requires multiset(shuffled) == multiset(ids) && Distinct(ids) && 0.0 <= rate <= 1.0
    ensures var k := Cut(|shuffled|, rate);
      |Upto(shuffled, k)| == k && k as real <= |ids| as real * rate &&
      multiset(Upto(shuffled, k)) + multiset(From(shuffled, k)) == multiset(ids) &&
      Distinct(Upto(shuffled, k)) && Distinct(From(shuffled, k)) &&
      forall x :: x in Upto(shuffled, k) ==> x !in From(shuffled, k)
  {
    var k := Cut(|shuffled|, rate);
    assert |shuffled| == |multiset(shuffled)| == |ids|;
    assert 0 <= k <= |shuffled| && k as real <= |ids| as real * rate;
    assert |Upto(shuffled, k)| == k;
    PermutationDistinct(ids, shuffled);
    CutPartition(shuffled, k);
    DistinctCut(shuffled, k);
  }

  /** The three cut points of `interid1to3`: split0 = int(n·r0), split1 = split0 + int(n·r1). */
  function Cuts3(n: nat, r0: real, r1: real): (r: (int, int))
    requires r0 >= 0.0 && r1 >= 0.0 && r0 + r1 <= 1.0
    ensures 0 <= r.0 <= r.1 <= n
  {
    var s0 := Cut(n, r0);
    var s1 := s0 + Cut(n, r1);
    ScaleSum(n as real, r0, r1);
    (s0, s1)
  }

  /**
   * `ids[:split0]`, `ids[split0:split1]`, `ids[split1:]`: together the
   * shuffled identities in order, pairwise disjoint.
   */
  lemma ThreeWayPartition(ids: seq<string>, r0: real, r1: real)
    requires r0 >= 0.0 && r1 >= 0.0 && r0 + r1 <= 1.0 && Distinct(ids)
    ensures var (s0, s1) := Cuts3(|ids|, r0, r1);
      var a := ids[..s0]; var b := ids[s0..s1]; var c := ids[s1..];
      a + b + c == ids &&
      Distinct(a) && Distinct(b) && Distinct(c) &&
      (forall x :: x in a ==> x !in b && x !in c) &&
      (forall x :: x in b ==> x !in c)
  {
    var (s0, s1) := Cuts3(|ids|, r0, r1);
    var a := ids[..s0]; var b := ids[s0..s1]; var c := ids[s1..];
    assert a + b + c == ids;
    DistinctConcat(a + b, c);
    DistinctConcat(a, b);
    forall x | x in a ensures x !in c {
      assert x in a + b;
    }
  }

  /** One output of `split`: a soft-linked copy of input `input`, or a dataset found in the cache. */
  datatype Step = Make(input: nat, onlyIds: Filter, onlyPoints: Filter) | Reuse(name: string)

  /**
   * What `split` does: the datasets it creates or reuses, in the order it
   * does so, and which of them it returns in which position.
   */
  datatype Plan = Plan(steps: seq<Step>, outputs: seq<nat>)

  /** A plan whose `nout` parts are all made from one of `nin` inputs and returned in order. */
  ghost predicate InOrder(p: Plan, nin: nat, nout: nat) {
    |p.steps| == nout && |p.outputs| == nout &&
    (forall i :: 0 <= i < nout ==> p.outputs[i] == i) &&
    (forall j :: 0 <= j < nout ==> p.steps[j].Make? && p.steps[j].input < nin)
  }

  /** `anon.split`: points of the smaller input, cut per identity at `rate`. */
  method AnonPlan(config: Config, orig: Index, anon: Index, shuffled: seq<seq<string>>) returns (p: Plan)
    requires ConfigValid(Anon, config)
    requires Shuffles(PointById(if MinSide(orig, anon) == 1 then anon else orig), shuffled)
    ensures p.outputs == [0, 1] && |p.steps| == 2
    ensures p.steps[0] == Make(if Truthy(config["enroll_anon"]) then 1 else 0, NoFilter, Only(EnrollOf(shuffled, config["rate"].r)))
    ensures p.steps[1] == Make(if Truthy(config["test_anon"]) then 1 else 0, NoFilter, Only(TestOf(shuffled, config["rate"].r)))
    ensures InOrder(p, 2, 2)
  {
    var enroll, test := SplitPerIdentity(shuffled, config["rate"].r);
    var enrollFrom := if Truthy(config["enroll_anon"]) then 1 else 0;
    var testFrom := if Truthy(config["test_anon"]) then 1 else 0;
    p := Plan([Make(enrollFrom, NoFilter, Only(enroll)), Make(testFrom, NoFilter, Only(test))], [0, 1]);
  }

  /**
   * For the per-point splitters (`anon`, `intraid2to2`, `deanon`): the
   * enroll and test point lists are disjoint and together hold every
   * datapoint of the split input exactly once.
   */
  lemma PointSplitCovers(idx: Index, shuffled: seq<seq<string>>, rate: real)
    requires IndexValid(idx) && Shuffles(PointById(idx), shuffled)
    ensures multiset(EnrollOf(shuffled, rate)) + multiset(TestOf(shuffled, rate)) == multiset(idx.datapoints)
    ensures forall x :: x in EnrollOf(shuffled, rate) ==> x !in TestOf(shuffled, rate)
    ensures Distinct(EnrollOf(shuffled, rate)) && Distinct(TestOf(shuffled, rate))
  {
    PointByIdCovers(idx);
    FlattenPermutation(PointById(idx), shuffled);
    PermutationDistinct(Flatten(PointById(idx)), Flatten(shuffled));
    PerIdentityPartition(shuffled, rate);
  }

  /** `anonbg.split`: the first int(n·rate) shuffled identities form the background. */
  method AnonbgPlan(config: Config, input: Index, ids: seq<string>) returns (p: Plan)
    requires ConfigValid(Anonbg, config)
    requires multiset(ids) == multiset(input.identities)
    ensures var k := Cut(|ids|, config["rate"].r);
      p == Plan([Make(0, Only(Upto(ids, k)), NoFilter), Make(0, Only(From(ids, k)), NoFilter)], [0, 1])
    ensures InOrder(p, 1, 2)
  {
    var split := Cut(|ids|, config["rate"].r);
    p := Plan([Make(0, Only(ids[..split]), NoFilter), Make(0, Only(ids[split..]), NoFilter)], [0, 1]);
  }

  /** `interid1to3.split`: background, attacker and evaluation identities. */
  method Interid1to3Plan(config: Config, input: Index, ids: seq<string>) returns (p: Plan)
    requires ConfigValid(Interid1to3, config)
    requires multiset(ids) == multiset(input.identities)
    ensures var (s0, s1) := Cuts3(|ids|, config["rates"].items[0].r, config["rates"].items[1].r);
      p == Plan([Make(0, Only(ids[..s0]), NoFilter), Make(0, Only(ids[s0..s1]), NoFilter), Make(0, Only(ids[s1..]), NoFilter)], [0, 1, 2])
    ensures InOrder(p, 1, 3)
  {
    var rates := config["rates"].items;
    var split0 := Cut(|ids|, rates[0].r);
    var split1 := split0 + Cut(|ids|, rates[1].r);
    assert (split0, split1) == Cuts3(|ids|, rates[0].r, rates[1].r);
    p := Plan([Make(0, Only(ids[..split0]), NoFilter), Make(0, Only(ids[split0..split1]), NoFilter), Make(0, Only(ids[split1..]), NoFilter)], [0, 1, 2]);
  }

  /**
   * `id.split`: whole identities (their point groups, shuffled as a list)
   * are cut at int(rate·n); `np.concatenate` of an empty side fails.
   */
  method IdLevelPlan(config: Config, orig: Index, anon: Index, shuffled: seq<seq<string>>) returns (r: Result<Plan>)
    requires ConfigValid(IdLevel, config)
    requires multiset(shuffled) == multiset(PointById(if MinSide(orig, anon) == 1 then anon else orig))
    ensures var k := Cut(|shuffled|, config["rate"].r);
      (r.Err? <==> k == 0 || k == |shuffled|) &&
      (r.Err? ==> r.error.ValueError?) &&
      (r.Ok? ==> r.value == Plan([
        Make(if Truthy(config["enroll_anon"]) then 1 else 0, NoFilter, Only(Flatten(shuffled[..k]))),
        Make(if Truthy(config["test_anon"]) then 1 else 0, NoFilter, Only(Flatten(shuffled[k..])))], [0, 1]))
    ensures r.Ok? ==> InOrder(r.value, 2, 2)
  {
    var split := Cut(|shuffled|, config["rate"].r);
    if split == 0 || split == |shuffled| {
      return Err(ValueError("need at least one array to concatenate"));
    }
    var enroll := Concatenate(shuffled[..split]);
    var test := Concatenate(shuffled[split..]);
    var enrollFrom := if Truthy(config["enroll_anon"]) then 1 else 0;
    var testFrom := if Truthy(config["test_anon"]) then 1 else 0;
    r := Ok(Plan([Make(enrollFrom, NoFilter, Only(enroll)), Make(testFrom, NoFilter, Only(test))], [0, 1]));
  }

  /** `np.concatenate(groups).tolist()` on a non-empty list of groups. */
  method Concatenate(groups: seq<seq<string>>) returns (r: seq<string>)
    ensures r == Flatten(groups)
  {
    r := [];
    var i := 0;
    while i < |groups|
      invariant 0 <= i <= |groups| && r == Flatten(groups[..i])
    {
      assert groups[..i + 1][..i] == groups[..i];
      r := r + groups[i];
      i := i + 1;
    }
    assert groups[..i] == groups;
  }

  /**
   * `id` keeps identities whole: every point of an enrolled identity is in
   * the enroll list and none is in the test list, and the other way round.
   */
  lemma IdLevelSeparates(shuffled: seq<seq<string>>, k: nat, i: nat, x: string)
    requires k <= |shuffled| && i < |shuffled| && x in shuffled[i] && Distinct(Flatten(shuffled))
    ensures i < k ==> x in Flatten(shuffled[..k]) && x !in Flatten(shuffled[k..])
    ensures i >= k ==> x !in Flatten(shuffled[..k]) && x in Flatten(shuffled[k..])
  {
    assert shuffled == shuffled[..k] + shuffled[k..];
    FlattenConcat(shuffled[..k], shuffled[k..]);
    DistinctConcat(Flatten(shuffled[..k]), Flatten(shuffled[k..]));
    FlattenMember(shuffled[..k], x);
    FlattenMember(shuffled[k..], x);
    if i < k {
      assert shuffled[..k][i] == shuffled[i];
    } else {
      assert shuffled[k..][i - k] == shuffled[i];
    }
  }

  /**
   * `intraid2to2.split`: at rate 1.0 both inputs restricted to the smaller
   * input's identities; otherwise a per-identity point split, enroll from
   * the clear input iff `enroll_clear`, test always from the anonymized one.
   */
  method Intraid2to2Plan(config: Config, orig: Index, anon: Index, shuffled: seq<seq<string>>) returns (p: Plan)
    requires ConfigValid(Intraid2to2, config)
    requires Shuffles(PointById(if MinSide(orig, anon) == 1 then anon else orig), shuffled)
    ensures var minIds := (if MinSide(orig, anon) == 1 then anon else orig).identities;
      var rate := config["rate"].r;
      (rate == 1.0 ==> p == Plan([Make(0, Only(minIds), NoFilter), Make(1, Only(minIds), NoFilter)], [0, 1])) &&
      (rate != 1.0 ==> p == Plan([
        Make(if config["enroll_clear"].b then 0 else 1, NoFilter, Only(EnrollOf(shuffled, rate))),
        Make(1, NoFilter, Only(TestOf(shuffled, rate)))], [0, 1]))
    ensures InOrder(p, 2, 2)
  {
    var minSet := if MinSide(orig, anon) == 1 then anon else orig;
    if config["rate"].r == 1.0 {
      return Plan([Make(0, Only(minSet.identities), NoFilter), Make(1, Only(minSet.identities), NoFilter)], [0, 1]);
    }
    var enroll, test := SplitPerIdentity(shuffled, config["rate"].r);
    var enrollFrom := if config["enroll_clear"].b then 0 else 1;
    p := Plan([Make(enrollFrom, NoFilter, Only(enroll)), Make(1, NoFilter, Only(test))], [0, 1]);
  }

  /** `compare.split`: both inputs restricted to the identities of the smaller one. */
  function ComparePlan(orig: Index, anon: Index): (p: Plan)
    ensures var minIds := (if MinSide(orig, anon) == 1 then anon else orig).identities;
      p.outputs == [0, 1] && |p.steps| == 2 &&
      forall i :: 0 <= i < 2 ==> p.steps[i] == Make(i, Only(minIds), NoFilter)
    ensures InOrder(p, 2, 2)
  {
    var minIds := (if MinSide(orig, anon) == 1 then anon else orig).identities;
    Plan([Make(0, Only(minIds), NoFilter), Make(1, Only(minIds), NoFilter)], [0, 1])
  }

  /** The parameters that decide the training parts, which `existing_train` looks up. */
  function TrainParams(config: Config): Result<Config> {
    var tr :- Values.Index(config, "train_rate");
    var seed :- Values.Index(config, "seed");
    Ok(map["train_rate" := tr, "seed" := seed])
  }

  /** The parameters that decide the test part, which `existing_test` looks up. */
  function TestParams(config: Config): Result<Config> {
    var tr :- Values.Index(config, "train_rate");
    var seed :- Values.Index(config, "seed");
    var er :- Values.Index(config, "enroll_rate");
    Ok(map["train_rate" := tr, "seed" := seed, "enroll_rate" := er])
  }

  /** The metadata query of a cache lookup for part `part` of a split of `orig|anon`. */
  function CacheQuery(k: Kind, origName: string, anonName: string, params: Config, part: int): (q: Config)
    ensures q.Keys == {"original", "splitter", "params", "part"}
  {
    map["original" := Str(origName + "|" + anonName), "splitter" := Str(Name(k)), "params" := Dict(params), "part" := Int(part)]
  }

  /**
   * The deanon plan's steps: the two training parts reused when both were
   * found and made from an input otherwise, the test parts made from an
   * input except the anonymized test part `deanon` found.
   */
  ghost predicate DeanonSteps(k: Kind, p: Plan, clear: Option<string>, anon: Option<string>, test: Option<string>) {
    |p.steps| == 4 && p.outputs == [2, 3, 0, 1] &&
    (clear.Some? && anon.Some? ==> p.steps[0] == Reuse(clear.value) && p.steps[1] == Reuse(anon.value)) &&
    (clear.None? || anon.None? ==> p.steps[0].Make? && p.steps[1].Make? && p.steps[0].input < 2 && p.steps[1].input < 2) &&
    p.steps[2].Make? && p.steps[2].input < 2 &&
    (k == Deanon && test.Some? ==> p.steps[3] == Reuse(test.value)) &&
    (k != Deanon || test.None? ==> p.steps[3].Make? && p.steps[3].input < 2)
  }

  /**
   * `deanon.split` (and `deanon_compare`, which replaces `create_test`):
   * the training parts are reused only if both were found, otherwise both
   * are made from the first int(n·train_rate) shuffled identities; the
   * enroll and test parts are restricted to the remaining identities. The
   * output order is [enroll, test, clear train, anon train].
   */
  method DeanonPlan(k: Kind, config: Config, orig: Index, ids: seq<string>, groups: seq<seq<string>>,
                    clearTrain: Option<string>, anonTrain: Option<string>, anonTest: Option<string>) returns (p: Plan)
    requires k == Deanon || k == DeanonCompare
    requires ConfigValid(k, config)
    requires multiset(ids) == multiset(orig.identities)
    requires k == Deanon ==> Shuffles(PointById(orig), groups)
    ensures DeanonSteps(k, p, clearTrain, anonTrain, anonTest)
    ensures var split := Cut(|ids|, config["train_rate"].r);
      var trainIds := Only(Upto(ids, split));
      var testIds := Only(From(ids, split));
      |p.steps| == 4 && p.outputs == [2, 3, 0, 1] &&
      (clearTrain.Some? && anonTrain.Some? ==> p.steps[..2] == [Reuse(clearTrain.value), Reuse(anonTrain.value)]) &&
      (clearTrain.None? || anonTrain.None? ==> p.steps[..2] == [Make(0, trainIds, NoFilter), Make(1, trainIds, NoFilter)]) &&
      (k == DeanonCompare ==> p.steps[2..] == [Make(0, testIds, NoFilter), Make(1, testIds, NoFilter)]) &&
      (k == Deanon ==>
        var er := config["enroll_rate"].r;
        p.steps[2] == Make(if Truthy(config["parrot"]) then 1 else 0, testIds, Only(EnrollOf(groups, er))) &&
        p.steps[3] == if anonTest.Some? then Reuse(anonTest.value) else Make(1, testIds, Only(TestOf(groups, er))))
  {
    var split := Cut(|ids|, config["train_rate"].r);
    var deanonIds := ids[..split];
    var testIds := ids[split..];
    var train: seq<Step>;
    if clearTrain.None? || anonTrain.None? {
      train := [Make(0, Only(deanonIds), NoFilter), Make(1, Only(deanonIds), NoFilter)];
    } else {
      train := [Reuse(clearTrain.value), Reuse(anonTrain.value)];
    }
    var test: seq<Step>;
    if k == DeanonCompare {
      test := [Make(0, Only(testIds), NoFilter), Make(1, Only(testIds), NoFilter)];
    } else {
      var enroll, rest := SplitPerIdentity(groups, config["enroll_rate"].r);
      var enrollFrom := if Truthy(config["parrot"]) then 1 else 0;
      var testStep := if anonTest.Some? then Reuse(anonTest.value) else Make(1, Only(testIds), Only(rest));
      test := [Make(enrollFrom, Only(testIds), Only(enroll)), testStep];
    }
    p := Plan(train + test, [2, 3, 0, 1]);
  }
}
