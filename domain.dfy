/**
 * The data of the recommendation engine: the loosely typed request payload,
 * the four artifacts loaded once at start-up (feature names, fitted scaler,
 * k-means centroids, plan catalog), the foreign library calls the engine
 * relies on, and the records it returns.
 */
module Domain {
  import opened Wrappers

  /**
   * A JSON-like value: a field of the request payload, or the structured
   * description obtained by parsing a catalog row's centroid text.
   */
  datatype Value =
    | Null
    | Bool(b: bool)
    | Number(n: real)
    | Str(s: string)
    | List(items: seq<Value>)
    | Dict(entries: seq<(string, Value)>)

  /** The usage record of one request: field name to value, possibly sparse. */
  type Payload = map<string, Value>

  /** Why a call to the engine fails. */
  datatype Error =
    | InvalidInput(field: string)  // a payload field that float() rejects
    | ConfigurationError           // the artifacts disagree on dimensions, or there are no centroids
    | NotFound(planId: int)        // no catalog row carries a ranked cluster index as plan_id
    | DataCorruption(planId: int)  // neither parser accepts that row's centroid text

  /**
   * The library calls whose internals are not modelled: Python's float() on a
   * string, the square root inside the Euclidean metric, json.loads and
   * ast.literal_eval.
   */
  datatype Host = Host(
    parseFloat: string -> Option<real>,
    sqrt: real -> real,
    jsonLoads: string -> Option<Value>,
    literalEval: string -> Option<Value>)

  /** A fitted standard scaler: per-feature mean and scale, in feature order. */
  datatype Scaler = Scaler(mean: seq<real>, scale: seq<real>) {
    /** A fitted scaler has one nonzero scale per feature and at least one feature. */
    predicate Valid() {
      && |mean| == |scale|
      && |scale| > 0
      && forall i :: 0 <= i < |scale| ==> scale[i] != 0.0
    }
  }

  /** A row of the plan catalog; the centroid is stored as text. */
  datatype PlanRow = PlanRow(planId: int, name: string, price: real, centroid: string)

  /** One entry of the engine's answer. */
  datatype Recommendation = Recommendation(
    planId: int,
    name: string,
    price: real,
    distance: real,
    centroid: Value)

  /** The immutable artifacts the engine reads on every call. */
  datatype Artifacts = Artifacts(
    featNames: seq<string>,
    scaler: Scaler,
    centers: seq<seq<real>>,
    plans: seq<PlanRow>)
}
