/**
 * The assembly step: each ranked cluster index is joined to the catalog row
 * whose plan_id equals it, and that row's centroid text is parsed.
 */
module Catalog {
  import opened Wrappers
  import opened Domain
  import opened Ranking

  /**
   * plans_df[plans_df["plan_id"] == id].iloc[0]: the first row, in catalog
   * order, whose plan_id is id; None where the selection is empty.
   */
  function FindPlan(plans: seq<PlanRow>, id: int): (r: Option<PlanRow>)
    ensures r.None? <==> forall n :: 0 <= n < |plans| ==> plans[n].planId != id
    ensures r.Some? ==> r.value in plans && r.value.planId == id
  {
    if plans == [] then None
    else if plans[0].planId == id then Some(plans[0])
    else FindPlan(plans[1..], id)
  }

  /** When several rows share a plan_id, the earliest one is taken. */
  lemma {:induction false} FindPlanFirst(plans: seq<PlanRow>, id: int, n: nat)
    requires n < |plans| && plans[n].planId == id
    requires forall m :: 0 <= m < n ==> plans[m].planId != id
    ensures FindPlan(plans, id) == Some(plans[n])
  {
    if n > 0 {
      FindPlanFirst(plans[1..], id, n - 1);
    }
  }

  /**
   * parse_centroid_text: the strict (JSON) parse when it succeeds, otherwise
   * the permissive (Python literal) parse; None when both fail.
   */
  function ParseCentroid(text: string, host: Host): (r: Option<Value>)
    ensures host.jsonLoads(text).Some? ==> r == host.jsonLoads(text)
    ensures host.jsonLoads(text).None? ==> r == host.literalEval(text)
    ensures r.None? <==> host.jsonLoads(text).None? && host.literalEval(text).None?
  {
    match host.jsonLoads(text)
    case Some(v) => Some(v)
    case None => host.literalEval(text)
  }

  /** The recommendation record for one ranked cluster index. */
  function Resolve(idx: nat, dists: seq<real>, plans: seq<PlanRow>, host: Host): (r: Result<Recommendation, Error>)
    requires idx < |dists|
    ensures r.Ok? <==>
      FindPlan(plans, idx).Some? && ParseCentroid(FindPlan(plans, idx).value.centroid, host).Some?
    ensures r == Err(NotFound(idx)) <==> FindPlan(plans, idx).None?
    ensures r == Err(DataCorruption(idx)) <==>
      FindPlan(plans, idx).Some? && ParseCentroid(FindPlan(plans, idx).value.centroid, host).None?
    ensures r.Ok? ==>
      && r.value.planId == idx
      && r.value.distance == dists[idx]
      && FindPlan(plans, idx) == Some(PlanRow(idx, r.value.name, r.value.price, FindPlan(plans, idx).value.centroid))
      && ParseCentroid(FindPlan(plans, idx).value.centroid, host) == Some(r.value.centroid)
  {
    match FindPlan(plans, idx)
    case None => Err(NotFound(idx))
    case Some(row) =>
      match ParseCentroid(row.centroid, host)
      case None => Err(DataCorruption(idx))
      case Some(c) => Ok(Recommendation(row.planId, row.name, row.price, dists[idx], c))
  }

  /**
   * The records for all ranked indices, in rank order; the first index that
   * cannot be resolved decides the error.
   */
  function Assemble(ranked: seq<nat>, dists: seq<real>, plans: seq<PlanRow>, host: Host): (r: Result<seq<Recommendation>, Error>)
    requires Indices(dists, ranked)
    ensures r.Ok? <==> forall m :: 0 <= m < |ranked| ==> Resolve(ranked[m], dists, plans, host).Ok?
    ensures r.Ok? ==>
      && |r.value| == |ranked|
      && forall m :: 0 <= m < |ranked| ==> Resolve(ranked[m], dists, plans, host) == Ok(r.value[m])
  {
    if ranked == [] then Ok([])
    else
      var rec :- Resolve(ranked[0], dists, plans, host);
      var rest :- Assemble(ranked[1..], dists, plans, host);
      Ok([rec] + rest)
  }

  /** A failing assembly reports the error of the first ranked index that fails. */
  lemma {:induction false} AssembleFirstError(ranked: seq<nat>, dists: seq<real>, plans: seq<PlanRow>, host: Host, n: nat)
    requires Indices(dists, ranked) && n < |ranked|
    requires forall m :: 0 <= m < n ==> Resolve(ranked[m], dists, plans, host).Ok?
    requires Resolve(ranked[n], dists, plans, host).Err?
    ensures Assemble(ranked, dists, plans, host) == Err(Resolve(ranked[n], dists, plans, host).error)
  {
    if n > 0 {
      assert Resolve(ranked[0], dists, plans, host).Ok?;
      AssembleFirstError(ranked[1..], dists, plans, host, n - 1);
    }
  }

  /**
   * A ranked index with no catalog row makes the whole assembly fail: it is
   * never skipped.
   */
  lemma AssembleMissingPlanFails(ranked: seq<nat>, dists: seq<real>, plans: seq<PlanRow>, host: Host, n: nat)
    requires Indices(dists, ranked) && n < |ranked|
    requires FindPlan(plans, ranked[n]).None?
    ensures Assemble(ranked, dists, plans, host).Err?
  {
    assert !Resolve(ranked[n], dists, plans, host).Ok?;
  }
}
