/** A worked instance: two features, identity scaling, three centroids. */
module Scenario {
  import opened Wrappers
  import opened Domain
  import opened Features
  import opened Scaling
  import opened Distance
  import opened Ranking
  import opened Catalog
  import opened Engine

  const Centroid: string := "[]"

  function Art(): Artifacts {
    Artifacts(
      ["A", "B"],
      Scaler([0.0, 0.0], [1.0, 1.0]),
      [[0.0, 0.0], [3.0, 4.0], [10.0, 10.0]],
      [PlanRow(0, "Basic", 10.0, Centroid), PlanRow(1, "Standard", 20.0, Centroid), PlanRow(2, "Premium", 30.0, Centroid)])
  }

  function Usage(): Payload {
    map["A" := Number(3.0), "B" := Number(4.0)]
  }

  lemma SqrtOf(sqrt: real -> real, x: real, y: real)
    requires IsSqrt(sqrt) && 0.0 <= y && Sq(y) == x
    ensures sqrt(x) == y
  {
    SqMonotone(sqrt(x), y);
    SqMonotone(y, sqrt(x));
  }

  lemma ScenarioScaled(host: Host)
    ensures ScaledUsage(Art(), host, Usage()) == Ok([3.0, 4.0])
  {
    var art, payload := Art(), Usage();
    var x := [3.0, 4.0];
    assert FeatureValue(payload, "A", host) == Ok(3.0);
    assert FeatureValue(payload, "B", host) == Ok(4.0);
    var fv := FeatureVector(payload, art.featNames, host);
    assert fv.Ok? && fv.value == x;
    var sc := Scale(x, art.scaler);
    assert sc.Ok? && sc.value == x;
  }

  lemma ScenarioDistances(host: Host)
    requires IsSqrt(host.sqrt)
    ensures Distances([3.0, 4.0], Art().centers, host.sqrt) == Ok([5.0, 0.0, host.sqrt(85.0)])
    ensures host.sqrt(85.0) > 5.0
  {
    var x := [3.0, 4.0];
    var c := Art().centers;
    assert SqDist(x, c[0]) == 25.0;
    assert SqDist(x, c[1]) == 0.0;
    assert SqDist(x, c[2]) == 85.0;
    SqrtOf(host.sqrt, 25.0, 5.0);
    SqrtOf(host.sqrt, 0.0, 0.0);
    SqrtMonotone(host.sqrt, 25.0, 85.0);
    var dd := Distances(x, c, host.sqrt);
    assert dd.Ok?;
    assert dd.value == [5.0, 0.0, host.sqrt(85.0)];
  }

  lemma ScenarioRanking(far: real)
    requires far > 5.0
    ensures TopK([5.0, 0.0, far], TopCount) == [1, 0, 2]
  {
    var d := [5.0, 0.0, far];
    assert Argsort(d, 1) == [0];
    assert Argsort(d, 2) == [1, 0];
    assert Insert(d, 2, [0]) == [0, 2];
    assert Argsort(d, 3) == [1, 0, 2];
  }

  lemma ScenarioAssembly(host: Host, far: real)
    requires host.jsonLoads(Centroid) == Some(List([]))
    ensures Assemble([1, 0, 2], [5.0, 0.0, far], Art().plans, host)
      == Ok([Recommendation(1, "Standard", 20.0, 0.0, List([])),
             Recommendation(0, "Basic", 10.0, 5.0, List([])),
             Recommendation(2, "Premium", 30.0, far, List([]))])
  {
    var d := [5.0, 0.0, far];
    var plans := Art().plans;
    assert ParseCentroid(Centroid, host) == Some(List([]));
    assert FindPlan(plans, 1) == Some(plans[1]);
    assert FindPlan(plans, 2) == Some(plans[2]);
    assert Resolve(1, d, plans, host) == Ok(Recommendation(1, "Standard", 20.0, 0.0, List([])));
    assert Resolve(0, d, plans, host) == Ok(Recommendation(0, "Basic", 10.0, 5.0, List([])));
    assert Resolve(2, d, plans, host) == Ok(Recommendation(2, "Premium", 30.0, far, List([])));
    var ranked := [1, 0, 2];
    var r := Assemble(ranked, d, plans, host);
    assert r.Ok?;
    assert r.value[0] == Recommendation(1, "Standard", 20.0, 0.0, List([])) by {
      assert Resolve(ranked[0], d, plans, host) == Ok(r.value[0]);
    }
    assert r.value[1] == Recommendation(0, "Basic", 10.0, 5.0, List([])) by {
      assert Resolve(ranked[1], d, plans, host) == Ok(r.value[1]);
    }
    assert r.value[2] == Recommendation(2, "Premium", 30.0, far, List([])) by {
      assert Resolve(ranked[2], d, plans, host) == Ok(r.value[2]);
    }
    assert |r.value| == 3;
    assert r.value == [r.value[0], r.value[1], r.value[2]];
  }

  /**
   * A customer whose usage sits exactly on the second centroid is offered
   * that plan first at distance 0, then the plan at distance 5, then the
   * remaining one.
   */
  lemma NearestCentroidScenario(host: Host)
    requires IsSqrt(host.sqrt) && host.jsonLoads(Centroid) == Some(List([]))
    ensures Recommend(Art(), host, Usage()).Ok?
    ensures PlanIds(Recommend(Art(), host, Usage()).value) == [1, 0, 2]
    ensures Recommend(Art(), host, Usage()).value[0] == Recommendation(1, "Standard", 20.0, 0.0, List([]))
    ensures Recommend(Art(), host, Usage()).value[1] == Recommendation(0, "Basic", 10.0, 5.0, List([]))
    ensures Recommend(Art(), host, Usage()).value[2].distance > 5.0
  {
    var far := host.sqrt(85.0);
    ScenarioScaled(host);
    ScenarioDistances(host);
    ScenarioRanking(far);
    ScenarioAssembly(host, far);
  }
}
