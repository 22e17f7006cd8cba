/** Euclidean distance from the scaled usage vector to every centroid. */
module Distance {
  import opened Wrappers
  import opened Domain

  /** The square of a real. */
  function Sq(x: real): real {
    x * x
  }

  /** What the host's square root promises on non-negative arguments. */
  ghost predicate IsSqrt(sqrt: real -> real) {
    forall x :: 0.0 <= x ==> 0.0 <= sqrt(x) && Sq(sqrt(x)) == x
  }

  /** Sum of squared coordinate differences. */
  function SqDist(a: seq<real>, b: seq<real>): (r: real)
    requires |a| == |b|
    ensures r >= 0.0
  {
    if |a| == 0 then 0.0
    else
      SqSign(a[0] - b[0]);
      Sq(a[0] - b[0]) + SqDist(a[1..], b[1..])
  }

  /** The Euclidean metric of pairwise_distances. */
  function Euclid(a: seq<real>, b: seq<real>, sqrt: real -> real): real
    requires |a| == |b|
  {
    sqrt(SqDist(a, b))
  }

  lemma MulPos(x: real, y: real)
    requires x > 0.0 && y > 0.0
    ensures x * y > 0.0
  {
  }

  lemma SquareLess(s: real, t: real)
    requires 0.0 <= s < t
    ensures s * s < t * t
  {
    var u, v := t - s, t + s;
    MulPos(u, v);
    assert t * t - s * s == u * v;
  }

  /** A square is non-negative, and zero only for zero. */
  lemma SqSign(x: real)
    ensures Sq(x) >= 0.0
    ensures Sq(x) == 0.0 <==> x == 0.0
  {
    if x > 0.0 {
      calc { Sq(x); == x * x; > { MulPos(x, x); } 0.0; }
    } else if x < 0.0 {
      calc { Sq(x); == (-x) * (-x); > { MulPos(-x, -x); } 0.0; }
    }
  }

  /** Squaring preserves and reflects the order of non-negative reals. */
  lemma SqMonotone(s: real, t: real)
    requires 0.0 <= s && 0.0 <= t
    ensures s <= t <==> Sq(s) <= Sq(t)
  {
    if s < t {
      calc { Sq(s); == s * s; < { SquareLess(s, t); } t * t; == Sq(t); }
    } else if t < s {
      calc { Sq(t); == t * t; < { SquareLess(t, s); } s * s; == Sq(s); }
    }
  }

  /** The squared distance vanishes exactly at equal points. */
  lemma {:induction false} SqDistZero(a: seq<real>, b: seq<real>)
    requires |a| == |b|
    ensures SqDist(a, b) == 0.0 <==> a == b
  {
    if |a| > 0 {
      SqDistZero(a[1..], b[1..]);
      SqSign(a[0] - b[0]);
      assert a == b <==> a[0] == b[0] && a[1..] == b[1..] by {
        assert a == [a[0]] + a[1..] && b == [b[0]] + b[1..];
      }
    }
  }

  /** The square root preserves and reflects the order of its non-negative arguments. */
  lemma SqrtMonotone(sqrt: real -> real, x: real, y: real)
    requires IsSqrt(sqrt) && 0.0 <= x && 0.0 <= y
    ensures sqrt(x) <= sqrt(y) <==> x <= y
  {
    SqMonotone(sqrt(x), sqrt(y));
  }

  /**
   * A reported distance is non-negative, squares to the squared distance,
   * and is zero exactly for a centroid equal to the point.
   */
  lemma EuclidMeaning(a: seq<real>, b: seq<real>, sqrt: real -> real)
    requires IsSqrt(sqrt) && |a| == |b|
    ensures Euclid(a, b, sqrt) >= 0.0
    ensures Sq(Euclid(a, b, sqrt)) == SqDist(a, b)
    ensures Euclid(a, b, sqrt) == 0.0 <==> a == b
  {
    SqDistZero(a, b);
    SqSign(sqrt(SqDist(a, b)));
  }

  /**
   * pairwise_distances(x, centers)[0]. The call rejects an empty set of
   * centroids and centroids of another width than x.
   */
  function Distances(x: seq<real>, centers: seq<seq<real>>, sqrt: real -> real): (r: Result<seq<real>, Error>)
    ensures r.Ok? <==> |centers| > 0 && forall j :: 0 <= j < |centers| ==> |centers[j]| == |x|
    ensures r.Err? ==> r.error == ConfigurationError
    ensures r.Ok? ==>
      && |r.value| == |centers|
      && forall j :: 0 <= j < |centers| ==> r.value[j] == Euclid(x, centers[j], sqrt)
  {
    if |centers| == 0 || exists j :: 0 <= j < |centers| && |centers[j]| != |x| then Err(ConfigurationError)
    else Ok(seq(|centers|, j requires 0 <= j < |centers| => Euclid(x, centers[j], sqrt)))
  }

  /** The squared distances, the order-equivalent quantity a ranking may use instead. */
  function SqDistances(x: seq<real>, centers: seq<seq<real>>): (r: seq<real>)
    requires forall j :: 0 <= j < |centers| ==> |centers[j]| == |x|
    ensures |r| == |centers|
  {
    seq(|centers|, j requires 0 <= j < |centers| => SqDist(x, centers[j]))
  }

  /** Every computed distance is non-negative, and zero exactly where the centroid is the point itself. */
  lemma DistancesMeaning(x: seq<real>, centers: seq<seq<real>>, sqrt: real -> real, j: nat)
    requires IsSqrt(sqrt) && Distances(x, centers, sqrt).Ok? && j < |centers|
    ensures Distances(x, centers, sqrt).value[j] >= 0.0
    ensures Distances(x, centers, sqrt).value[j] == 0.0 <==> centers[j] == x
  {
    EuclidMeaning(x, centers[j], sqrt);
  }
}
