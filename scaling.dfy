/** The fitted standard scaler: entry i becomes (v[i] - mean[i]) / scale[i]. */
module Scaling {
  import opened Wrappers
  import opened Domain

  /**
   * scaler.transform on one row. A row whose width differs from the number of
   * features the scaler was fitted on is a configuration error.
   */
  function Scale(v: seq<real>, s: Scaler): (r: Result<seq<real>, Error>)
    requires s.Valid()
    ensures r.Ok? <==> |v| == |s.mean|
    ensures r.Err? ==> r.error == ConfigurationError
    ensures r.Ok? ==>
      && |r.value| == |v|
      && forall i :: 0 <= i < |v| ==> r.value[i] * s.scale[i] + s.mean[i] == v[i]
  {
    if |v| != |s.mean| then Err(ConfigurationError)
    else Ok(seq(|v|, i requires 0 <= i < |v| => (v[i] - s.mean[i]) / s.scale[i]))
  }

  /** The inverse transform: back from scaled units to raw feature values. */
  function Unscale(x: seq<real>, s: Scaler): (r: seq<real>)
    requires s.Valid() && |x| == |s.mean|
    ensures |r| == |x|
  {
    seq(|x|, i requires 0 <= i < |x| => x[i] * s.scale[i] + s.mean[i])
  }

  /** Scaling then unscaling gives back the raw vector. */
  lemma ScaleThenUnscale(v: seq<real>, s: Scaler)
    requires s.Valid() && |v| == |s.mean|
    ensures Scale(v, s).Ok? && Unscale(Scale(v, s).value, s) == v
  {
    var r := Scale(v, s).value;
    var u := Unscale(r, s);
    forall i | 0 <= i < |v| ensures u[i] == v[i] {
      assert (v[i] - s.mean[i]) / s.scale[i] * s.scale[i] == v[i] - s.mean[i];
    }
    assert u == v;
  }

  /** Unscaling then scaling gives back the scaled vector: scaling is a bijection. */
  lemma UnscaleThenScale(x: seq<real>, s: Scaler)
    requires s.Valid() && |x| == |s.mean|
    ensures Scale(Unscale(x, s), s) == Ok(x)
  {
    var r := Scale(Unscale(x, s), s).value;
    forall i | 0 <= i < |x| ensures r[i] == x[i] {
      assert r[i] * s.scale[i] + s.mean[i] == x[i] * s.scale[i] + s.mean[i];
      MulCancel(r[i], x[i], s.scale[i]);
    }
    assert r == x;
  }

  lemma MulCancel(a: real, b: real, c: real)
    requires c != 0.0 && a * c == b * c
    ensures a == b
  {
    assert (a - b) * c == 0.0;
  }
}
