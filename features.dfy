/**
 * Feature vectorisation: the payload becomes one number per loaded feature
 * name, in the order of that list. The derived feature Total_Usage is the sum
 * of the four minute fields; an absent field counts as 0.
 */
module Features {
  import opened Wrappers
  import opened Domain

  const TotalUsage: string := "Total_Usage"

  /** The fields summed into Total_Usage, in the order they are read. */
  const MinuteFields: seq<string> := ["Day Mins", "Eve Mins", "Night Mins", "Intl Mins"]

  /** Python's float() applied to a payload value; None where float() raises. */
  function ToFloat(v: Value, host: Host): Option<real> {
    match v
    case Number(n) => Some(n)
    case Bool(b) => Some(if b then 1.0 else 0.0)
    case Str(s) => host.parseFloat(s)
    case _ => None
  }

  /** float(payload.get(key, 0)). */
  function Field(payload: Payload, key: string, host: Host): Result<real, Error> {
    if key !in payload then Ok(0.0)
    else match ToFloat(payload[key], host)
      case Some(x) => Ok(x)
      case None => Err(InvalidInput(key))
  }

  /** sum(float(payload.get(c, 0)) for c in keys): left to right, stopping at the first field that fails. */
  function SumFields(payload: Payload, keys: seq<string>, host: Host): Result<real, Error> {
    if keys == [] then Ok(0.0)
    else
      var x :- Field(payload, keys[0], host);
      var rest :- SumFields(payload, keys[1..], host);
      Ok(x + rest)
  }

  /** The vector entry for one feature name. */
  function FeatureValue(payload: Payload, name: string, host: Host): Result<real, Error> {
    if name == TotalUsage then SumFields(payload, MinuteFields, host)
    else Field(payload, name, host)
  }

  /**
   * The whole feature vector, built in the order of `names`; the first entry
   * that fails decides the error.
   */
  function FeatureVector(payload: Payload, names: seq<string>, host: Host): (r: Result<seq<real>, Error>)
    ensures r.Ok? <==> forall i :: 0 <= i < |names| ==> FeatureValue(payload, names[i], host).Ok?
    ensures r.Ok? ==>
      && |r.value| == |names|
      && forall i :: 0 <= i < |names| ==> r.value[i] == FeatureValue(payload, names[i], host).value
  {
    if names == [] then Ok([])
    else
      var x :- FeatureValue(payload, names[0], host);
      var rest :- FeatureVector(payload, names[1..], host);
      Ok([x] + rest)
  }

  /** A failing vector reports the error of the first feature that fails, in feature order. */
  lemma {:induction false} FeatureVectorFirstError(payload: Payload, names: seq<string>, host: Host, i: nat)
    requires i < |names|
    requires forall j :: 0 <= j < i ==> FeatureValue(payload, names[j], host).Ok?
    requires FeatureValue(payload, names[i], host).Err?
    ensures FeatureVector(payload, names, host) == Err(FeatureValue(payload, names[i], host).error)
  {
    if i > 0 {
      assert FeatureValue(payload, names[0], host).Ok?;
      FeatureVectorFirstError(payload, names[1..], host, i - 1);
    }
  }

  /**
   * Total_Usage is Day + Eve + Night + Intl minutes, each absent field
   * counting 0; it fails exactly when one of the four present fields is not a number.
   */
  lemma {:induction false} TotalUsageIsMinuteSum(payload: Payload, host: Host)
    ensures FeatureValue(payload, TotalUsage, host).Ok? <==>
      forall c :: c in MinuteFields ==> Field(payload, c, host).Ok?
    ensures FeatureValue(payload, TotalUsage, host).Ok? ==>
      FeatureValue(payload, TotalUsage, host).value ==
        Field(payload, "Day Mins", host).value + Field(payload, "Eve Mins", host).value
        + Field(payload, "Night Mins", host).value + Field(payload, "Intl Mins", host).value
  {
    var ks := MinuteFields;
    var s4 := SumFields(payload, [], host);
    var s3 := SumFields(payload, ["Intl Mins"], host);
    var s2 := SumFields(payload, ["Night Mins", "Intl Mins"], host);
    var s1 := SumFields(payload, ["Eve Mins", "Night Mins", "Intl Mins"], host);
    assert ["Intl Mins"][1..] == [];
    assert ["Night Mins", "Intl Mins"][1..] == ["Intl Mins"];
    assert ["Eve Mins", "Night Mins", "Intl Mins"][1..] == ["Night Mins", "Intl Mins"];
    assert ks[1..] == ["Eve Mins", "Night Mins", "Intl Mins"];
  }

  /** The worked example: 100 + 50 + 30 + 10 minutes give a Total_Usage of 190. */
  lemma TotalUsageExample(host: Host)
    ensures FeatureValue(
      map["Day Mins" := Number(100.0), "Eve Mins" := Number(50.0),
          "Night Mins" := Number(30.0), "Intl Mins" := Number(10.0)],
      TotalUsage, host) == Ok(190.0)
  {
    var p := map["Day Mins" := Number(100.0), "Eve Mins" := Number(50.0),
                 "Night Mins" := Number(30.0), "Intl Mins" := Number(10.0)];
    TotalUsageIsMinuteSum(p, host);
  }

  /** Two payloads that agree on every summed field give the same sum, or the same error. */
  lemma {:induction false} SumFieldsAgree(p: Payload, q: Payload, keys: seq<string>, host: Host)
    requires forall c :: c in keys ==> Field(p, c, host) == Field(q, c, host)
    ensures SumFields(p, keys, host) == SumFields(q, keys, host)
  {
    if keys != [] {
      assert keys[0] in keys;
      SumFieldsAgree(p, q, keys[1..], host);
    }
  }

  /** A payload field named Total_Usage is ignored: the derived value always wins. */
  lemma PayloadTotalUsageIgnored(payload: Payload, host: Host, v: Value)
    ensures FeatureValue(payload[TotalUsage := v], TotalUsage, host) == FeatureValue(payload, TotalUsage, host)
  {
    forall c | c in MinuteFields
      ensures Field(payload[TotalUsage := v], c, host) == Field(payload, c, host)
    {
      assert c != TotalUsage;
    }
    SumFieldsAgree(payload[TotalUsage := v], payload, MinuteFields, host);
  }

  /**
   * Entry i of a vector stands for names[i]: an ordinary feature absent from
   * the payload is 0 and a present one is its float() value.
   */
  lemma FeatureVectorEntry(payload: Payload, names: seq<string>, host: Host, i: nat)
    requires FeatureVector(payload, names, host).Ok?
    requires i < |names| && names[i] != TotalUsage
    ensures names[i] !in payload ==> FeatureVector(payload, names, host).value[i] == 0.0
    ensures names[i] in payload ==>
      ToFloat(payload[names[i]], host) == Some(FeatureVector(payload, names, host).value[i])
  {
  }
}
