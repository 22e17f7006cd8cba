/**
 * recommend_top3: vectorise the payload, scale it, rank the centroids by
 * distance and join the three nearest to the plan catalog.
 */
module Engine {
  import opened Wrappers
  import opened Domain
  import opened Features
  import opened Scaling
  import opened Distance
  import opened Ranking
  import opened Catalog

  /** How many plans a call recommends. */
  const TopCount: nat := 3

  /** The payload as a scaled feature vector. */
  function ScaledUsage(art: Artifacts, host: Host, payload: Payload): Result<seq<real>, Error>
    requires art.scaler.Valid()
  {
    var v :- FeatureVector(payload, art.featNames, host);
    Scale(v, art.scaler)
  }

  /** The answer of recommend_top3, as a function of the artifacts, the host and the payload. */
  function Recommend(art: Artifacts, host: Host, payload: Payload): Result<seq<Recommendation>, Error>
    requires art.scaler.Valid()
  {
    var x :- ScaledUsage(art, host, payload);
    var dists :- Distances(x, art.centers, host.sqrt);
    Assemble(TopK(dists, TopCount), dists, art.plans, host)
  }

  /** The loop of recommend_top3 that reads one feature per schema name. */
  method BuildVector(names: seq<string>, host: Host, payload: Payload) returns (r: Result<seq<real>, Error>)
    ensures r == FeatureVector(payload, names, host)
  {
    var vec: seq<real> := [];
    var i := 0;
    while i < |names|
      invariant 0 <= i <= |names|
      invariant |vec| == i
      invariant forall j :: 0 <= j < i ==> FeatureValue(payload, names[j], host) == Ok(vec[j])
    {
      var f := names[i];
      var value: Result<real, Error>;
      if f == TotalUsage {
        value := SumFields(payload, MinuteFields, host);
      } else {
        value := Field(payload, f, host);
      }
      if value.Err? {
        FeatureVectorFirstError(payload, names, host, i);
        return Err(value.error);
      }
      vec := vec + [value.value];
      i := i + 1;
    }
    ghost var fv := FeatureVector(payload, names, host);
    assert fv.Ok? && fv.value == vec;
    return Ok(vec);
  }

  /** The loop of recommend_top3 that looks up and decodes the plan of each ranked centroid. */
  method CollectRecords(top: seq<nat>, dists: seq<real>, plans: seq<PlanRow>, host: Host)
    returns (r: Result<seq<Recommendation>, Error>)
    requires Indices(dists, top)
    ensures r == Assemble(top, dists, plans, host)
  {
    var recs: seq<Recommendation> := [];
    var n := 0;
    while n < |top|
      invariant 0 <= n <= |top|
      invariant |recs| == n
      invariant forall m :: 0 <= m < n ==> Resolve(top[m], dists, plans, host) == Ok(recs[m])
    {
      var idx := top[n];
      var row := FindPlan(plans, idx);
      if row.None? {
        AssembleFirstError(top, dists, plans, host, n);
        return Err(NotFound(idx));
      }
      var centroid := ParseCentroid(row.value.centroid, host);
      if centroid.None? {
        AssembleFirstError(top, dists, plans, host, n);
        return Err(DataCorruption(idx));
      }
      recs := recs + [Recommendation(row.value.planId, row.value.name, row.value.price, dists[idx], centroid.value)];
      n := n + 1;
    }
    ghost var assembled := Assemble(top, dists, plans, host);
    assert assembled.Ok? && assembled.value == recs;
    return Ok(recs);
  }

  /** recommend_top3: vectorise, scale, rank, then collect the three nearest plans. */
  method RecommendTop3(art: Artifacts, host: Host, payload: Payload) returns (r: Result<seq<Recommendation>, Error>)
    requires art.scaler.Valid()
    ensures r == Recommend(art, host, payload)
  {
    var vec :- BuildVector(art.featNames, host, payload);
    var x :- Scale(vec, art.scaler);
    assert ScaledUsage(art, host, payload) == Ok(x);
    var dists :- Distances(x, art.centers, host.sqrt);
    var top := TopK(dists, TopCount);
    r := CollectRecords(top, dists, art.plans, host);
  }

  /** The plan ids of a list of recommendations, in order. */
  function PlanIds(recs: seq<Recommendation>): (ids: seq<int>)
    ensures |ids| == |recs|
    ensures forall m :: 0 <= m < |recs| ==> ids[m] == recs[m].planId
  {
    seq(|recs|, m requires 0 <= m < |recs| => recs[m].planId)
  }

  /**
   * The ranked indices behind a successful call: the call is the assembly of
   * the top TopCount indices of the distance vector.
   */
  lemma RecommendUnfold(art: Artifacts, host: Host, payload: Payload, x: seq<real>)
    requires art.scaler.Valid() && ScaledUsage(art, host, payload) == Ok(x)
    requires Recommend(art, host, payload).Ok?
    ensures Distances(x, art.centers, host.sqrt).Ok?
    ensures
      var d := Distances(x, art.centers, host.sqrt).value;
      && Recommend(art, host, payload) == Assemble(TopK(d, TopCount), d, art.plans, host)
      && PlanIds(Recommend(art, host, payload).value) == TopK(d, TopCount)
      && forall m :: 0 <= m < |TopK(d, TopCount)| ==>
           Recommend(art, host, payload).value[m].distance == d[TopK(d, TopCount)[m]]
  {
    var d := Distances(x, art.centers, host.sqrt).value;
    var t := TopK(d, TopCount);
    var recs := Recommend(art, host, payload).value;
    forall m | 0 <= m < |recs|
      ensures recs[m].planId == t[m] && recs[m].distance == d[t[m]]
    {
      assert Resolve(t[m], d, art.plans, host) == Ok(recs[m]);
    }
  }

  /**
   * A successful call returns min(3, number of centroids) records. Record m is
   * the catalog row whose plan_id is the m-th ranked cluster index, with that
   * row's parsed centroid and the Euclidean distance from the scaled payload
   * to that cluster's centroid, which is non-negative.
   */
  lemma RecommendEntries(art: Artifacts, host: Host, payload: Payload, x: seq<real>)
    requires art.scaler.Valid() && IsSqrt(host.sqrt)
    requires ScaledUsage(art, host, payload) == Ok(x)
    requires Recommend(art, host, payload).Ok?
    ensures forall j :: 0 <= j < |art.centers| ==> |art.centers[j]| == |x|
    ensures var recs := Recommend(art, host, payload).value;
      && |recs| == Min(TopCount, |art.centers|)
      && forall m :: 0 <= m < |recs| ==>
        && 0 <= recs[m].planId < |art.centers|
        && recs[m].distance == Euclid(x, art.centers[recs[m].planId], host.sqrt)
        && recs[m].distance >= 0.0
        && FindPlan(art.plans, recs[m].planId).Some?
        && FindPlan(art.plans, recs[m].planId).value.name == recs[m].name
        && FindPlan(art.plans, recs[m].planId).value.price == recs[m].price
        && ParseCentroid(FindPlan(art.plans, recs[m].planId).value.centroid, host) == Some(recs[m].centroid)
  {
    RecommendUnfold(art, host, payload, x);
    var d := Distances(x, art.centers, host.sqrt).value;
    var t := TopK(d, TopCount);
    var recs := Recommend(art, host, payload).value;
    forall m | 0 <= m < |recs| ensures recs[m].distance >= 0.0 {
      assert recs[m].planId == t[m];
      EuclidMeaning(x, art.centers[t[m]], host.sqrt);
    }
  }

  /**
   * The records come nearest first, with pairwise distinct plan ids, and no
   * centroid left out is nearer than any recommended one.
   */
  lemma RecommendNearestFirst(art: Artifacts, host: Host, payload: Payload, x: seq<real>)
    requires art.scaler.Valid()
    requires ScaledUsage(art, host, payload) == Ok(x)
    requires Recommend(art, host, payload).Ok?
    ensures var recs := Recommend(art, host, payload).value;
      && (forall a, b :: 0 <= a < b < |recs| ==>
            recs[a].distance <= recs[b].distance && recs[a].planId != recs[b].planId)
      && (forall j, m :: 0 <= j < |art.centers| && |art.centers[j]| == |x| && j !in PlanIds(recs) && 0 <= m < |recs| ==>
            recs[m].distance <= Euclid(x, art.centers[j], host.sqrt))
  {
    RecommendUnfold(art, host, payload, x);
    var d := Distances(x, art.centers, host.sqrt).value;
    var t := TopK(d, TopCount);
    var recs := Recommend(art, host, payload).value;
    assert PlanIds(recs) == t;
    forall j, m | 0 <= j < |art.centers| && |art.centers[j]| == |x| && j !in PlanIds(recs) && 0 <= m < |recs|
      ensures recs[m].distance <= Euclid(x, art.centers[j], host.sqrt)
    {
      assert d[t[m]] <= d[j];
    }
  }

  /** When a centroid coincides with the scaled payload, the first record is at distance 0. */
  lemma RecommendExactMatch(art: Artifacts, host: Host, payload: Payload, x: seq<real>, j: nat)
    requires art.scaler.Valid() && IsSqrt(host.sqrt)
    requires ScaledUsage(art, host, payload) == Ok(x)
    requires Recommend(art, host, payload).Ok?
    requires j < |art.centers| && art.centers[j] == x
    ensures Recommend(art, host, payload).value[0].distance == 0.0
  {
    RecommendUnfold(art, host, payload, x);
    RecommendEntries(art, host, payload, x);
    var d := Distances(x, art.centers, host.sqrt).value;
    var t := TopK(d, TopCount);
    EuclidMeaning(x, art.centers[j], host.sqrt);
    EuclidMeaning(x, art.centers[t[0]], host.sqrt);
    if j !in t {
      assert d[t[0]] <= d[j];
    } else {
      var p :| 0 <= p < |t| && t[p] == j;
      if p > 0 {
        assert d[t[0]] <= d[t[p]];
      }
    }
  }

  /**
   * A ranked cluster index with no catalog row makes the call fail; the
   * index is never skipped. When every nearer index resolves, the failure is
   * NotFound of that index.
   */
  lemma RecommendMissingPlan(art: Artifacts, host: Host, payload: Payload, x: seq<real>, n: nat)
    requires art.scaler.Valid()
    requires ScaledUsage(art, host, payload) == Ok(x)
    requires Distances(x, art.centers, host.sqrt).Ok?
    requires n < |TopK(Distances(x, art.centers, host.sqrt).value, TopCount)|
    requires FindPlan(art.plans, TopK(Distances(x, art.centers, host.sqrt).value, TopCount)[n]).None?
    ensures Recommend(art, host, payload).Err?
    ensures
      var d := Distances(x, art.centers, host.sqrt).value;
      var t := TopK(d, TopCount);
      (forall m :: 0 <= m < n ==> Resolve(t[m], d, art.plans, host).Ok?) ==>
        Recommend(art, host, payload) == Err(NotFound(t[n]))
  {
    var d := Distances(x, art.centers, host.sqrt).value;
    var t := TopK(d, TopCount);
    AssembleMissingPlanFails(t, d, art.plans, host, n);
    if forall m :: 0 <= m < n ==> Resolve(t[m], d, art.plans, host).Ok? {
      AssembleFirstError(t, d, art.plans, host, n);
    }
  }

  /**
   * Ranking the centroids by squared distance selects the same plans as
   * ranking by the distance itself: the square root never reorders them.
   */
  lemma RankBySquaredDistance(x: seq<real>, centers: seq<seq<real>>, sqrt: real -> real, k: nat)
    requires IsSqrt(sqrt) && Distances(x, centers, sqrt).Ok?
    ensures TopK(Distances(x, centers, sqrt).value, k) == TopK(SqDistances(x, centers), k)
  {
    var d := Distances(x, centers, sqrt).value;
    var e := SqDistances(x, centers);
    forall i, j | 0 <= i < |d| && 0 <= j < |d| ensures d[i] <= d[j] <==> e[i] <= e[j] {
      SqrtMonotone(sqrt, SqDist(x, centers[i]), SqDist(x, centers[j]));
    }
    TopKSameOrder(d, e, k);
  }

  /**
   * The distances reported do not depend on how the sort orders ties: any
   * selection of the three nearest centroids lists the same distances.
   */
  lemma RecommendDistancesTieFree(art: Artifacts, host: Host, payload: Payload, x: seq<real>, t: seq<nat>)
    requires art.scaler.Valid() && ScaledUsage(art, host, payload) == Ok(x)
    requires Recommend(art, host, payload).Ok?
    requires Distances(x, art.centers, host.sqrt).Ok?
    requires IsTopK(Distances(x, art.centers, host.sqrt).value, TopCount, t)
    ensures |Recommend(art, host, payload).value| == |t|
    ensures forall m :: 0 <= m < |t| ==>
      Recommend(art, host, payload).value[m].distance == Distances(x, art.centers, host.sqrt).value[t[m]]
  {
    var d := Distances(x, art.centers, host.sqrt).value;
    RecommendUnfold(art, host, payload, x);
    TopKDistancesDetermined(d, TopCount, TopK(d, TopCount), t);
  }

  /**
   * recommend_top3 succeeds exactly when every feature reads, the vector has
   * the scaler's width, there are centroids of that width, and each of the
   * three nearest centroids has a catalog row whose centroid text parses.
   */
  lemma RecommendSucceeds(art: Artifacts, host: Host, payload: Payload)
    requires art.scaler.Valid()
    ensures Recommend(art, host, payload).Ok? <==>
      && FeatureVector(payload, art.featNames, host).Ok?
      && |art.featNames| == |art.scaler.mean|
      && |art.centers| > 0
      && (forall j :: 0 <= j < |art.centers| ==> |art.centers[j]| == |art.featNames|)
      && var d := Distances(ScaledUsage(art, host, payload).value, art.centers, host.sqrt).value;
         forall m :: 0 <= m < |TopK(d, TopCount)| ==>
           && FindPlan(art.plans, TopK(d, TopCount)[m]).Some?
           && ParseCentroid(FindPlan(art.plans, TopK(d, TopCount)[m]).value.centroid, host).Some?
  {
    var su := ScaledUsage(art, host, payload);
    if su.Ok? {
      var x := su.value;
      assert |x| == |art.featNames|;
      var dd := Distances(x, art.centers, host.sqrt);
      if dd.Ok? {
        var d := dd.value;
        var t := TopK(d, TopCount);
        assert Recommend(art, host, payload) == Assemble(t, d, art.plans, host);
      }
    }
  }
}
