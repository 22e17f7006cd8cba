/**
 * np.argsort(dists)[:k]: the indices of the k smallest distances, nearest
 * first. numpy's default sort does not fix the order of equal distances; this
 * model breaks such ties by ascending index, and IsTopK states what every
 * admissible answer satisfies whatever the tie order.
 */
module Ranking {

  function Min(a: nat, b: nat): nat {
    if a <= b then a else b
  }

  /** Index i is ranked no later than index j: nearer first, equal distances by ascending index. */
  predicate Precedes(d: seq<real>, i: nat, j: nat)
    requires i < |d| && j < |d|
  {
    d[i] < d[j] || (d[i] == d[j] && i <= j)
  }

  predicate Indices(d: seq<real>, s: seq<nat>) {
    forall a :: 0 <= a < |s| ==> s[a] < |d|
  }

  predicate Distinct(s: seq<nat>) {
    forall a, b :: 0 <= a < b < |s| ==> s[a] != s[b]
  }

  predicate Ranked(d: seq<real>, s: seq<nat>)
    requires Indices(d, s)
  {
    forall a, b :: 0 <= a < b < |s| ==> Precedes(d, s[a], s[b])
  }

  /** Indices listed in non-decreasing distance, ties in any order. */
  predicate Sorted(d: seq<real>, s: seq<nat>)
    requires Indices(d, s)
  {
    forall a, b :: 0 <= a < b < |s| ==> d[s[a]] <= d[s[b]]
  }

  /**
   * What a top-k selection promises: min(k, |d|) distinct valid indices, in
   * non-decreasing distance, none of them farther than any index left out.
   */
  ghost predicate IsTopK(d: seq<real>, k: nat, t: seq<nat>) {
    && |t| == Min(k, |d|)
    && Indices(d, t)
    && Distinct(t)
    && (forall a, b :: 0 <= a < b < |t| ==> d[t[a]] <= d[t[b]])
    && (forall j, m :: 0 <= j < |d| && j !in t && 0 <= m < |t| ==> d[t[m]] <= d[j])
  }

  /** Insert index i into a ranked list of indices at its place in the ranking. */
  function Insert(d: seq<real>, i: nat, s: seq<nat>): (r: seq<nat>)
    requires i < |d| && Indices(d, s)
    ensures |r| == |s| + 1
    ensures forall x :: x in r <==> x == i || x in s
    ensures Indices(d, r)
  {
    if s == [] then [i]
    else if Precedes(d, i, s[0]) then [i] + s
    else [s[0]] + Insert(d, i, s[1..])
  }

  /** All indices below n, ranked: an insertion sort of 0, 1, ..., n-1. */
  function Argsort(d: seq<real>, n: nat): (r: seq<nat>)
    requires n <= |d|
    ensures |r| == n
    ensures forall x :: x in r <==> 0 <= x < n
    ensures Indices(d, r)
  {
    if n == 0 then [] else Insert(d, n - 1, Argsort(d, n - 1))
  }

  lemma {:induction false} InsertRanked(d: seq<real>, i: nat, s: seq<nat>)
    requires i < |d| && Indices(d, s) && Ranked(d, s)
    ensures Ranked(d, Insert(d, i, s))
  {
    if s != [] {
      var r := Insert(d, i, s);
      if Precedes(d, i, s[0]) {
        forall a, b | 0 <= a < b < |r| ensures Precedes(d, r[a], r[b]) {
          if a == 0 && b > 1 {
            assert r[b] == s[b - 1];
            assert Precedes(d, s[0], s[b - 1]);
          }
        }
      } else {
        var t := Insert(d, i, s[1..]);
        InsertRanked(d, i, s[1..]);
        forall x | x in t ensures Precedes(d, s[0], x) {
          if x != i {
            var b :| 0 <= b < |s[1..]| && s[1..][b] == x;
            assert s[b + 1] == x;
          }
        }
        forall a, b | 0 <= a < b < |r| ensures Precedes(d, r[a], r[b]) {
          if a == 0 {
            assert r[b] == t[b - 1] && t[b - 1] in t;
          } else {
            assert r[a] == t[a - 1] && r[b] == t[b - 1];
          }
        }
      }
    }
  }

  lemma {:induction false} InsertDistinct(d: seq<real>, i: nat, s: seq<nat>)
    requires i < |d| && Indices(d, s) && Distinct(s) && i !in s
    ensures Distinct(Insert(d, i, s))
  {
    if s != [] && !Precedes(d, i, s[0]) {
      var t := Insert(d, i, s[1..]);
      InsertDistinct(d, i, s[1..]);
      assert s[0] !in s[1..] by {
        forall b | 0 <= b < |s[1..]| ensures s[1..][b] != s[0] {
          assert s[1..][b] == s[b + 1];
        }
      }
      var r := [s[0]] + t;
      forall a, b | 0 <= a < b < |r| ensures r[a] != r[b] {
        if a == 0 {
          assert r[b] == t[b - 1] && t[b - 1] in t;
        } else {
          assert r[a] == t[a - 1] && r[b] == t[b - 1];
        }
      }
    }
  }

  /** Argsort yields each index below n exactly once, in ranking order. */
  lemma {:induction false} ArgsortRanked(d: seq<real>, n: nat)
    requires n <= |d|
    ensures Distinct(Argsort(d, n)) && Ranked(d, Argsort(d, n))
  {
    if n > 0 {
      ArgsortRanked(d, n - 1);
      InsertDistinct(d, n - 1, Argsort(d, n - 1));
      InsertRanked(d, n - 1, Argsort(d, n - 1));
    }
  }

  /** The first k entries of a complete ranking form a top-k selection. */
  lemma PrefixIsTopK(d: seq<real>, k: nat, full: seq<nat>)
    requires |full| == |d| && Indices(d, full) && Distinct(full) && Sorted(d, full)
    requires forall x :: x in full <==> 0 <= x < |d|
    ensures IsTopK(d, k, full[..Min(k, |d|)])
  {
    var t := full[..Min(k, |d|)];
    forall j, m | 0 <= j < |d| && j !in t && 0 <= m < |t| ensures d[t[m]] <= d[j] {
      assert j in full;
      var p :| 0 <= p < |full| && full[p] == j;
      assert forall q :: 0 <= q < |t| ==> full[q] != j by {
        forall q | 0 <= q < |t| ensures full[q] != j {
          assert t[q] == full[q] && t[q] in t;
        }
      }
      assert m < p;
    }
  }

  /** np.argsort(d)[:k], with ties taken in ascending index order. */
  function TopK(d: seq<real>, k: nat): (r: seq<nat>)
    ensures IsTopK(d, k, r)
  {
    var full := Argsort(d, |d|);
    ArgsortRanked(d, |d|);
    PrefixIsTopK(d, k, full);
    full[..Min(k, |d|)]
  }

  /** Two distance vectors that order every pair of indices alike. */
  ghost predicate SameOrder(d: seq<real>, e: seq<real>) {
    && |d| == |e|
    && forall i, j :: 0 <= i < |d| && 0 <= j < |d| ==> (d[i] <= d[j] <==> e[i] <= e[j])
  }

  lemma {:induction false} InsertSameOrder(d: seq<real>, e: seq<real>, i: nat, s: seq<nat>)
    requires SameOrder(d, e) && i < |d| && Indices(d, s)
    ensures Insert(d, i, s) == Insert(e, i, s)
  {
    if s != [] {
      var j := s[0];
      assert (d[i] <= d[j] <==> e[i] <= e[j]) && (d[j] <= d[i] <==> e[j] <= e[i]);
      assert Precedes(d, i, j) == Precedes(e, i, j);
      InsertSameOrder(d, e, i, s[1..]);
    }
  }

  lemma {:induction false} ArgsortSameOrder(d: seq<real>, e: seq<real>, n: nat)
    requires SameOrder(d, e) && n <= |d|
    ensures Argsort(d, n) == Argsort(e, n)
  {
    if n > 0 {
      ArgsortSameOrder(d, e, n - 1);
      InsertSameOrder(d, e, n - 1, Argsort(d, n - 1));
    }
  }

  /**
   * An argsort that lists a tie in descending index order, which the default
   * sort may do, still yields a top-k selection.
   */
  lemma SwappedTieIsTopK()
    ensures IsTopK([1.0, 1.0], 2, [1, 0]) && IsTopK([1.0, 1.0], 1, [1])
  {
    var d, full := [1.0, 1.0], [1, 0];
    assert forall x :: x in full <==> 0 <= x < |d|;
    PrefixIsTopK(d, 2, full);
    PrefixIsTopK(d, 1, full);
    assert full[..1] == [1];
  }

  /** The ranking depends only on how the distances compare, not on their values. */
  lemma TopKSameOrder(d: seq<real>, e: seq<real>, k: nat)
    requires SameOrder(d, e)
    ensures TopK(d, k) == TopK(e, k)
  {
    ArgsortSameOrder(d, e, |d|);
  }

  /** The indices whose distance is below v. */
  ghost function Below(d: seq<real>, v: real): set<nat> {
    set j: nat | j < |d| && d[j] < v
  }

  /** The indices whose distance is at most v. */
  ghost function AtMost(d: seq<real>, v: real): set<nat> {
    set j: nat | j < |d| && d[j] <= v
  }

  /** The first m entries of t, as a set. */
  ghost function Taken(t: seq<nat>, m: nat): set<nat>
    requires m <= |t|
  {
    set p | 0 <= p < m :: t[p]
  }

  lemma SubsetCard(a: set<nat>, b: set<nat>)
    requires a <= b
    ensures |a| <= |b|
  {
    assert b == a + (b - a);
    assert a * (b - a) == {};
  }

  lemma {:induction false} TakenCard(t: seq<nat>, m: nat)
    requires m <= |t|
    ensures |Taken(t, m)| <= m
    ensures Distinct(t) ==> |Taken(t, m)| == m
  {
    if m > 0 {
      TakenCard(t, m - 1);
      assert Taken(t, m) == Taken(t, m - 1) + {t[m - 1]};
      if Distinct(t) {
        forall p | 0 <= p < m - 1 ensures t[p] != t[m - 1] {
        }
        assert t[m - 1] !in Taken(t, m - 1);
      }
    }
  }

  /**
   * In any top-k selection the m-th distance is an order statistic: fewer
   * than m + 1 indices are strictly nearer, and at least m + 1 are no farther.
   */
  lemma OrderStatistic(d: seq<real>, k: nat, t: seq<nat>, m: nat)
    requires IsTopK(d, k, t) && m < |t|
    ensures |Below(d, d[t[m]])| <= m
    ensures |AtMost(d, d[t[m]])| >= m + 1
  {
    var v := d[t[m]];
    forall j | j in Below(d, v) ensures j in Taken(t, m) {
      assert j in t;
      var p :| 0 <= p < |t| && t[p] == j;
      assert p < m;
    }
    SubsetCard(Below(d, v), Taken(t, m));
    TakenCard(t, m);
    forall j | j in Taken(t, m + 1) ensures j in AtMost(d, v) {
      var p :| 0 <= p < m + 1 && t[p] == j;
      assert p == m || d[t[p]] <= d[t[m]];
    }
    SubsetCard(Taken(t, m + 1), AtMost(d, v));
    TakenCard(t, m + 1);
  }

  lemma CrossBound(d: seq<real>, v: real, w: real)
    ensures v < w ==> |AtMost(d, v)| <= |Below(d, w)|
  {
    if v < w {
      SubsetCard(AtMost(d, v), Below(d, w));
    }
  }

  /**
   * Whatever order a sort gives to equal distances, every top-k selection
   * lists the same distances in the same positions.
   */
  lemma TopKDistancesDetermined(d: seq<real>, k: nat, t1: seq<nat>, t2: seq<nat>)
    requires IsTopK(d, k, t1) && IsTopK(d, k, t2)
    ensures |t1| == |t2|
    ensures forall m :: 0 <= m < |t1| ==> d[t1[m]] == d[t2[m]]
  {
    forall m | 0 <= m < |t1| ensures d[t1[m]] == d[t2[m]] {
      OrderStatistic(d, k, t1, m);
      OrderStatistic(d, k, t2, m);
      CrossBound(d, d[t1[m]], d[t2[m]]);
      CrossBound(d, d[t2[m]], d[t1[m]]);
    }
  }
}
