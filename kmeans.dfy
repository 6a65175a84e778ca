/**
 * The sequential K-means kernel shared by the serial and the multi-process
 * drivers: the point and store types, the squared Euclidean distance, the
 * assignment of a half-open batch of points to their nearest centers, and
 * the recomputation of one center as the integer mean of its members.
 */
module Kmeans {
  import opened Wrappers
  import opened Arithmetic

  /** The kernel's return codes, SUCCESS (0) and FAILURE (-1). */
  datatype Status = Success | Failure

  /** A point with three integer coordinates. */
  datatype Point = Point(x: int, y: int, z: int)

  /** A point together with the index of the cluster it is assigned to. */
  datatype PointInCluster = PointInCluster(point: Point, inCluster: nat)

  /**
   * The store: the assigned points and the centers with their counts.
   * Either array may be absent (a NULL pointer). The struct does not tie
   * the arrays to the counts; Valid says that a present array holds
   * exactly as many elements as its count says.
   */
  class KMeans {
    var points: array?<PointInCluster>
    var pointsCnt: nat
    var clusters: array?<Point>
    var clustersCnt: nat

    ghost predicate Valid()
      reads this
    {
      && (points != null ==> points.Length == pointsCnt)
      && (clusters != null ==> clusters.Length == clustersCnt)
    }

    constructor (points: array?<PointInCluster>, pointsCnt: nat, clusters: array?<Point>, clustersCnt: nat)
      ensures Valid() <==>
        && (points != null ==> points.Length == pointsCnt)
        && (clusters != null ==> clusters.Length == clustersCnt)
      ensures this.points == points && this.pointsCnt == pointsCnt
      ensures this.clusters == clusters && this.clustersCnt == clustersCnt
    {
      this.points := points;
      this.pointsCnt := pointsCnt;
      this.clusters := clusters;
      this.clustersCnt := clustersCnt;
    }
  }

  // ---------------------------------------------------------------------
  // Distance
  // ---------------------------------------------------------------------

  /** The absolute difference of two coordinates. */
  function AbsDiff(a: int, b: int): (r: nat)
    ensures r == a - b || r == b - a
  {
    if a >= b then a - b else b - a
  }

  /** The squared Euclidean distance, on unbounded integers. */
  function SquareDistance(a: Point, b: Point): nat
  {
    var dx, dy, dz := AbsDiff(a.x, b.x), AbsDiff(a.y, b.y), AbsDiff(a.z, b.z);
    dx * dx + dy * dy + dz * dz
  }

  /**
   * SquareEuclideanDistance with its three pointer arguments: an absent
   * point or an absent output cell makes it fail and leave the cell as it
   * was; otherwise the cell receives the squared distance.
   */
  function SquareEuclideanDistance(pointA: Option<Point>, pointB: Option<Point>, out: Option<nat>)
    : (r: (Status, Option<nat>))
    ensures r.0 == Failure <==> pointA.None? || pointB.None? || out.None?
    ensures r.0 == Failure ==> r.1 == out
    ensures r.0 == Success ==> r.1.Some? && r.1.value == SquareDistance(pointA.value, pointB.value)
  {
    if out.None? || pointA.None? || pointB.None? then (Failure, out)
    else (Success, Some(SquareDistance(pointA.value, pointB.value)))
  }

  /** The distance does not depend on the order of its arguments and is zero exactly on equal points. */
  lemma DistanceSymmetricAndSeparating(a: Point, b: Point)
    ensures SquareDistance(a, b) == SquareDistance(b, a)
    ensures SquareDistance(a, b) == 0 <==> a == b
  {
    var dx, dy, dz := AbsDiff(a.x, b.x), AbsDiff(a.y, b.y), AbsDiff(a.z, b.z);
    if SquareDistance(a, b) == 0 {
      SquareZero(dx);
      SquareZero(dy);
      SquareZero(dz);
    }
  }

  lemma SquareZero(d: nat)
    ensures d * d == 0 <==> d == 0
  {
    if d > 0 {
      assert d * d >= d;
    }
  }

  /** The three distances the kernel's unit tests expect: 0, 8 and 48. */
  lemma DistanceExamples()
    ensures SquareEuclideanDistance(Some(Point(0, 0, 0)), Some(Point(0, 0, 0)), Some(7)) == (Success, Some(0))
    ensures SquareEuclideanDistance(Some(Point(1, 2, 3)), Some(Point(3, 2, 1)), Some(0)) == (Success, Some(8))
    ensures SquareEuclideanDistance(Some(Point(2, 2, 2)), Some(Point(-2, -2, -2)), Some(0)) == (Success, Some(48))
    ensures SquareEuclideanDistance(None, Some(Point(0, 0, 0)), Some(5)) == (Failure, Some(5))
    ensures SquareEuclideanDistance(Some(Point(0, 0, 0)), None, Some(5)) == (Failure, Some(5))
    ensures SquareEuclideanDistance(Some(Point(0, 0, 0)), Some(Point(0, 0, 0)), None) == (Failure, None)
  {
  }

  // ---------------------------------------------------------------------
  // Nearest center
  // ---------------------------------------------------------------------

  /**
   * The index the assignment loop settles on when it scans the centers in
   * ascending order and replaces its candidate only on a strictly smaller
   * distance. With no centers it stays at its initial value 0.
   */
  function Nearest(p: Point, cs: seq<Point>): (r: nat)
    ensures |cs| == 0 ==> r == 0
    ensures |cs| > 0 ==> r < |cs|
    decreases |cs|
  {
    if |cs| <= 1 then 0
    else
      var k := Nearest(p, cs[..|cs| - 1]);
      if SquareDistance(p, cs[|cs| - 1]) < SquareDistance(p, cs[k]) then |cs| - 1 else k
  }

  /** k is a center at minimal distance from p, and every earlier center is strictly farther. */
  ghost predicate IsFirstNearest(p: Point, cs: seq<Point>, k: nat)
  {
    && k < |cs|
    && (forall j :: 0 <= j < |cs| ==> SquareDistance(p, cs[k]) <= SquareDistance(p, cs[j]))
    && (forall j :: 0 <= j < k ==> SquareDistance(p, cs[k]) < SquareDistance(p, cs[j]))
  }

  /** The scan finds the first center at minimal distance. */
  lemma {:induction false} NearestIsFirstNearest(p: Point, cs: seq<Point>)
    requires |cs| > 0
    ensures IsFirstNearest(p, cs, Nearest(p, cs))
    decreases |cs|
  {
    if |cs| > 1 {
      var front := cs[..|cs| - 1];
      NearestIsFirstNearest(p, front);
      var k := Nearest(p, front);
      assert forall j :: 0 <= j < |cs| - 1 ==> cs[j] == front[j];
    }
  }

  /** There is only one first nearest center, so the scan is fully characterised by IsFirstNearest. */
  lemma FirstNearestIsUnique(p: Point, cs: seq<Point>, k: nat)
    requires IsFirstNearest(p, cs, k)
    ensures k == Nearest(p, cs)
  {
    NearestIsFirstNearest(p, cs);
  }

  // ---------------------------------------------------------------------
  // Assignment of a batch
  // ---------------------------------------------------------------------

  /** The points after every point of [lo, hi) has been assigned to its nearest center. */
  function SortBatch(pts: seq<PointInCluster>, cs: seq<Point>, lo: nat, hi: nat): (r: seq<PointInCluster>)
    ensures |r| == |pts|
  {
    seq(|pts|, i requires 0 <= i < |pts| =>
      if lo <= i < hi then pts[i].(inCluster := Nearest(pts[i].point, cs)) else pts[i])
  }

  /** Sorting one more point extends the sorted prefix of a batch by that point. */
  lemma SortBatchStep(pts: seq<PointInCluster>, cs: seq<Point>, lo: nat, i: nat)
    requires lo <= i < |pts|
    ensures SortBatch(pts, cs, lo, i + 1)
         == SortBatch(pts, cs, lo, i)[i := pts[i].(inCluster := Nearest(pts[i].point, cs))]
  {
  }

  /** How many points of [lo, hi) are not yet assigned to their nearest center. */
  function CountChanged(pts: seq<PointInCluster>, cs: seq<Point>, lo: nat, hi: nat): (r: nat)
    requires lo <= hi <= |pts|
    ensures r <= hi - lo
    decreases hi - lo
  {
    if hi == lo then 0
    else
      CountChanged(pts, cs, lo, hi - 1)
        + (if pts[hi - 1].inCluster != Nearest(pts[hi - 1].point, cs) then 1 else 0)
  }

  /**
   * After a batch is sorted, each of its points is assigned to the first
   * nearest center; points outside the batch and all coordinates are as before.
   */
  lemma SortBatchAssignsFirstNearest(pts: seq<PointInCluster>, cs: seq<Point>, lo: nat, hi: nat)
    requires |cs| > 0
    ensures var r := SortBatch(pts, cs, lo, hi);
      && (forall i :: lo <= i < hi && i < |pts| ==> IsFirstNearest(r[i].point, cs, r[i].inCluster))
      && (forall i :: 0 <= i < |pts| && !(lo <= i < hi) ==> r[i] == pts[i])
      && (forall i :: 0 <= i < |pts| ==> r[i].point == pts[i].point)
  {
    var r := SortBatch(pts, cs, lo, hi);
    forall i | lo <= i < hi && i < |pts|
      ensures IsFirstNearest(r[i].point, cs, r[i].inCluster)
    {
      NearestIsFirstNearest(pts[i].point, cs);
    }
  }

  /** The count of changed points splits over adjacent sub-ranges. */
  lemma {:induction false} CountChangedSplit(pts: seq<PointInCluster>, cs: seq<Point>, lo: nat, mid: nat, hi: nat)
    requires lo <= mid <= hi <= |pts|
    ensures CountChanged(pts, cs, lo, hi) == CountChanged(pts, cs, lo, mid) + CountChanged(pts, cs, mid, hi)
    decreases hi - mid
  {
    if hi > mid {
      CountChangedSplit(pts, cs, lo, mid, hi - 1);
    }
  }

  /** The count over a batch looks only at the points of that batch. */
  lemma {:induction false} CountChangedLocal(pts: seq<PointInCluster>, qts: seq<PointInCluster>, cs: seq<Point>, lo: nat, hi: nat)
    requires lo <= hi <= |pts| && hi <= |qts|
    requires forall i :: lo <= i < hi ==> pts[i] == qts[i]
    ensures CountChanged(pts, cs, lo, hi) == CountChanged(qts, cs, lo, hi)
    decreases hi - lo
  {
    if hi > lo {
      CountChangedLocal(pts, qts, cs, lo, hi - 1);
    }
  }

  /** No point of a batch changes cluster exactly when sorting the batch leaves the points as they are. */
  lemma {:induction false} CountChangedZeroIffStable(pts: seq<PointInCluster>, cs: seq<Point>, lo: nat, hi: nat)
    requires lo <= hi <= |pts|
    ensures CountChanged(pts, cs, lo, hi) == 0 <==> SortBatch(pts, cs, lo, hi) == pts
    decreases hi - lo
  {
    if hi > lo {
      CountChangedZeroIffStable(pts, cs, lo, hi - 1);
      var i := hi - 1;
      if CountChanged(pts, cs, lo, hi) == 0 {
        assert SortBatch(pts, cs, lo, hi) == SortBatch(pts, cs, lo, hi - 1);
      }
      if SortBatch(pts, cs, lo, hi) == pts {
        assert SortBatch(pts, cs, lo, hi)[i] == pts[i];
        forall j | 0 <= j < |pts|
          ensures SortBatch(pts, cs, lo, hi - 1)[j] == pts[j]
        {
          assert SortBatch(pts, cs, lo, hi)[j] == pts[j];
        }
      }
    }
  }

  // ---------------------------------------------------------------------
  // Center of one cluster
  // ---------------------------------------------------------------------

  const ULongModulus: int := 0x1_0000_0000_0000_0000

  /**
   * One axis of a new center: an int sum divided by a size_t count. The
   * sum is first converted to unsigned 64 bits, so only a non-negative sum
   * below the int limit yields the truncated mean.
   */
  function AxisMean(sum: int, cnt: nat): (r: int)
    requires cnt > 0
    ensures -IntLimit <= r < IntLimit
    ensures 0 <= sum < IntLimit ==> r * cnt <= sum < r * cnt + cnt
  {
    var q := (sum % ULongModulus) / cnt;
    if 0 <= sum < IntLimit then
      QuotientOfSmallSum(sum, cnt, q);
      ToInt(q)
    else
      ToInt(q)
  }

  /** Below 2^31 the unsigned wrap of AxisMean is the identity, so its quotient is the floor of the mean. */
  lemma QuotientOfSmallSum(sum: nat, cnt: nat, q: int)
    requires 0 < cnt && sum < IntLimit && q == (sum % ULongModulus) / cnt
    ensures 0 <= q <= sum && q * cnt <= sum < q * cnt + cnt
  {
    assert sum % ULongModulus == sum;
    DivBelow(sum, cnt);
  }

  /** With three members summing to -3 on an axis the center gets 1431655764 there, not -1. */
  lemma AxisMeanOfNegativeSum()
    ensures AxisMean(-3, 3) == 1431655764
  {
  }

  /** How many of the first n points are assigned to cluster k. */
  function MemberCount(pts: seq<PointInCluster>, k: nat, n: nat): (r: nat)
    requires n <= |pts|
    ensures r <= n
  {
    if n == 0 then 0
    else MemberCount(pts, k, n - 1) + (if pts[n - 1].inCluster == k then 1 else 0)
  }

  /** The per-axis sums of the members of cluster k among the first n points. */
  function MemberSum(pts: seq<PointInCluster>, k: nat, n: nat): Point
    requires n <= |pts|
  {
    if n == 0 then Point(0, 0, 0)
    else
      var s := MemberSum(pts, k, n - 1);
      var p := pts[n - 1].point;
      if pts[n - 1].inCluster == k then Point(s.x + p.x, s.y + p.y, s.z + p.z) else s
  }

  /** The new center of cluster k: the per-axis mean of its members, or the old center when it has none. */
  function Center(pts: seq<PointInCluster>, k: nat, current: Point): Point
  {
    var cnt := MemberCount(pts, k, |pts|);
    if cnt == 0 then current
    else
      var s := MemberSum(pts, k, |pts|);
      Point(AxisMean(s.x, cnt), AxisMean(s.y, cnt), AxisMean(s.z, cnt))
  }

  /** An empty cluster keeps its center. */
  lemma {:induction false} EmptyClusterKeepsCenter(pts: seq<PointInCluster>, k: nat, c: Point)
    requires forall i :: 0 <= i < |pts| ==> pts[i].inCluster != k
    ensures Center(pts, k, c) == c
  {
    NoMembers(pts, k, |pts|);
  }

  lemma {:induction false} NoMembers(pts: seq<PointInCluster>, k: nat, n: nat)
    requires n <= |pts|
    requires forall i :: 0 <= i < n ==> pts[i].inCluster != k
    ensures MemberCount(pts, k, n) == 0
  {
    if n > 0 {
      NoMembers(pts, k, n - 1);
    }
  }

  /**
   * When every member coordinate lies in [0, hi] and the axis sums stay
   * below the int limit, every coordinate of the new center lies in [0, hi]:
   * the center is inside the box of its members.
   */
  lemma CenterWithinMembers(pts: seq<PointInCluster>, k: nat, c: Point, hi: nat)
    requires forall i :: 0 <= i < |pts| && pts[i].inCluster == k ==>
      0 <= pts[i].point.x <= hi && 0 <= pts[i].point.y <= hi && 0 <= pts[i].point.z <= hi
    requires MemberCount(pts, k, |pts|) > 0
    requires var s := MemberSum(pts, k, |pts|); s.x < IntLimit && s.y < IntLimit && s.z < IntLimit
    ensures var r := Center(pts, k, c);
      0 <= r.x <= hi && 0 <= r.y <= hi && 0 <= r.z <= hi
  {
    var cnt := MemberCount(pts, k, |pts|);
    MemberSumBounds(pts, k, |pts|, hi);
    var s := MemberSum(pts, k, |pts|);
    MeanWithin(s.x, cnt, hi);
    MeanWithin(s.y, cnt, hi);
    MeanWithin(s.z, cnt, hi);
  }

  lemma MeanWithin(sum: int, cnt: nat, hi: nat)
    requires cnt > 0 && 0 <= sum < IntLimit && sum <= cnt * hi
    ensures 0 <= AxisMean(sum, cnt) <= hi
  {
    var r := AxisMean(sum, cnt);
    assert (r + 1) * cnt == r * cnt + cnt;
    PositiveFactor(r + 1, cnt);
    assert (hi - r) * cnt == hi * cnt - r * cnt;
    NonNegativeFactor(hi - r, cnt);
  }

  lemma {:induction false} MemberSumBounds(pts: seq<PointInCluster>, k: nat, n: nat, hi: nat)
    requires n <= |pts|
    requires forall i :: 0 <= i < |pts| && pts[i].inCluster == k ==>
      0 <= pts[i].point.x <= hi && 0 <= pts[i].point.y <= hi && 0 <= pts[i].point.z <= hi
    ensures var s, cnt := MemberSum(pts, k, n), MemberCount(pts, k, n);
      && 0 <= s.x <= cnt * hi && 0 <= s.y <= cnt * hi && 0 <= s.z <= cnt * hi
  {
    if n > 0 {
      MemberSumBounds(pts, k, n - 1, hi);
      var cnt, s := MemberCount(pts, k, n - 1), MemberSum(pts, k, n - 1);
      var p := pts[n - 1].point;
      if pts[n - 1].inCluster == k {
        assert MemberCount(pts, k, n) == cnt + 1;
        assert MemberSum(pts, k, n) == Point(s.x + p.x, s.y + p.y, s.z + p.z);
        AddWithin(s.x, p.x, cnt, hi);
        AddWithin(s.y, p.y, cnt, hi);
        AddWithin(s.z, p.z, cnt, hi);
      } else {
        assert MemberCount(pts, k, n) == cnt && MemberSum(pts, k, n) == s;
      }
    }
  }

  lemma AddWithin(sum: int, v: int, cnt: nat, hi: nat)
    requires 0 <= sum <= cnt * hi && 0 <= v <= hi
    ensures 0 <= sum + v <= (cnt + 1) * hi
  {
    assert (cnt + 1) * hi == cnt * hi + hi;
  }

  /** The unit test's four members (1,1,1), (3,3,3), (1,3,1), (3,1,3) give the center (2,2,2). */
  lemma CenterExample()
    ensures Center([PointInCluster(Point(1, 1, 1), 0), PointInCluster(Point(3, 3, 3), 0),
                    PointInCluster(Point(1, 3, 1), 0), PointInCluster(Point(3, 1, 3), 0)], 0, Point(9, 9, 9))
            == Point(2, 2, 2)
  {
    var pts := [PointInCluster(Point(1, 1, 1), 0), PointInCluster(Point(3, 3, 3), 0),
                PointInCluster(Point(1, 3, 1), 0), PointInCluster(Point(3, 1, 3), 0)];
    assert MemberCount(pts, 0, 4) == 4;
    assert MemberSum(pts, 0, 4) == Point(8, 8, 8);
  }

  /** The centers after FindClusterCenter for cluster k: only entry k changes. */
  function Recenter(pts: seq<PointInCluster>, cs: seq<Point>, k: nat): (r: seq<Point>)
    requires k < |cs|
    ensures |r| == |cs|
    ensures forall j :: 0 <= j < |cs| && j != k ==> r[j] == cs[j]
  {
    cs[k := Center(pts, k, cs[k])]
  }

  // ---------------------------------------------------------------------
  // The kernel's operations on the store
  // ---------------------------------------------------------------------

  /**
   * The inner loop of ClusterSort: scans the centers in ascending order,
   * keeping the first one at the smallest distance seen so far.
   */
  method NearestCluster(p: Point, clusters: array<Point>) returns (nearCluster: nat)
    ensures nearCluster == Nearest(p, clusters[..])
    ensures clusters.Length > 0 ==> IsFirstNearest(p, clusters[..], nearCluster)
  {
    nearCluster := 0;
    var distMin: nat := 0;
    var j := 0;
    while j < clusters.Length
      invariant 0 <= j <= clusters.Length
      invariant nearCluster == Nearest(p, clusters[..j])
      invariant j > 0 ==> nearCluster < j && distMin == SquareDistance(p, clusters[nearCluster])
    {
      assert clusters[..j + 1][..j] == clusters[..j];
      var tmp := SquareDistance(p, clusters[j]);
      if j == 0 || tmp < distMin {
        distMin := tmp;
        nearCluster := j;
      }
      j := j + 1;
    }
    assert clusters[..j] == clusters[..];
    if clusters.Length > 0 {
      NearestIsFirstNearest(p, clusters[..]);
    }
  }

  /**
   * ClusterSort: assigns every point of [batchStart, batchEnd) to its
   * nearest center and reports how many assignments changed.
   * changed is the output cell (None for a NULL pointer).
   */
  method ClusterSort(kmeans: KMeans?, batchStart: nat, batchEnd: nat, changed: Option<nat>)
    returns (status: Status, changedOut: Option<nat>)
    requires && kmeans != null && kmeans.points != null && kmeans.clusters != null
             && batchStart <= batchEnd <= kmeans.pointsCnt && changed.Some?
             ==> kmeans.Valid()
    modifies if kmeans != null && kmeans.points != null then {kmeans.points} else {}
    ensures status == Failure <==>
      || kmeans == null || batchEnd > kmeans.pointsCnt || batchStart > batchEnd
      || changed.None? || kmeans.points == null || kmeans.clusters == null
    ensures status == Failure ==> changedOut == changed
    ensures status == Failure && kmeans != null && kmeans.points != null ==>
      kmeans.points[..] == old(kmeans.points[..])
    ensures status == Success ==>
      && kmeans.points[..] == SortBatch(old(kmeans.points[..]), kmeans.clusters[..], batchStart, batchEnd)
      && changedOut == Some(CountChanged(old(kmeans.points[..]), kmeans.clusters[..], batchStart, batchEnd))
    ensures status == Success && kmeans.clustersCnt > 0 ==>
      forall i :: batchStart <= i < batchEnd ==>
        IsFirstNearest(kmeans.points[i].point, kmeans.clusters[..], kmeans.points[i].inCluster)
  {
    if || kmeans == null || batchEnd > kmeans.pointsCnt || batchStart > batchEnd
       || changed.None? || kmeans.points == null || kmeans.clusters == null {
      return Failure, changed;
    }
    ghost var pts0 := kmeans.points[..];
    var count := SortRange(kmeans.points, kmeans.clusters, batchStart, batchEnd);
    status, changedOut := Success, Some(count);
    if kmeans.clustersCnt > 0 {
      SortBatchAssignsFirstNearest(pts0, kmeans.clusters[..], batchStart, batchEnd);
    }
  }

  /**
   * The unit test of ClusterSort: a store whose counts (3 points, 2
   * centers) exceed its one-element arrays is refused by each of the
   * argument checks before any array is read.
   */
  method ClusterSortTestExample() returns (statuses: seq<Status>)
    ensures statuses == [Failure, Failure, Failure, Failure, Failure, Failure]
  {
    var points, clusters := new PointInCluster[1], new Point[1];
    var kmeans := new KMeans(points, 3, clusters, 2);
    var s1, _ := ClusterSort(null, 0, 1, Some(0));
    var s2, _ := ClusterSort(kmeans, 0, 1, None);
    var s3, _ := ClusterSort(kmeans, 0, kmeans.pointsCnt + 1, Some(0));
    var s4, _ := ClusterSort(kmeans, 1, 0, Some(0));
    kmeans.points := null;
    var s5, _ := ClusterSort(kmeans, 0, 1, Some(0));
    kmeans.clusters, kmeans.points := null, new PointInCluster[1];
    var s6, _ := ClusterSort(kmeans, 0, 1, Some(0));
    statuses := [s1, s2, s3, s4, s5, s6];
  }

  /** The loop of ClusterSort over [lo, hi), counting the points whose cluster changes. */
  method SortRange(points: array<PointInCluster>, clusters: array<Point>, lo: nat, hi: nat) returns (count: nat)
    requires lo <= hi <= points.Length
    modifies points
    ensures points[..] == SortBatch(old(points[..]), clusters[..], lo, hi)
    ensures count == CountChanged(old(points[..]), clusters[..], lo, hi)
  {
    ghost var pts0, cs := points[..], clusters[..];
    count := 0;
    var i := lo;
    while i < hi
      invariant lo <= i <= hi
      invariant points[..] == SortBatch(pts0, cs, lo, i)
      invariant count == CountChanged(pts0, cs, lo, i)
    {
      var nearCluster := NearestCluster(points[i].point, clusters);
      assert points[i] == pts0[i];
      SortBatchStep(pts0, cs, lo, i);
      if points[i].inCluster != nearCluster {
        points[i] := points[i].(inCluster := nearCluster);
        count := count + 1;
      }
      i := i + 1;
    }
  }

  /**
   * FindClusterCenter: replaces center clusterNum by the per-axis mean of
   * the points assigned to it, or leaves it when no point is.
   */
  method FindClusterCenter(kmeans: KMeans?, clusterNum: nat) returns (status: Status)
    requires kmeans != null && clusterNum < kmeans.clustersCnt ==>
      kmeans.Valid() && kmeans.points != null && kmeans.clusters != null
    modifies if kmeans != null && kmeans.clusters != null then {kmeans.clusters} else {}
    ensures status == Failure <==> kmeans == null || clusterNum >= kmeans.clustersCnt
    ensures status == Failure && kmeans != null && kmeans.clusters != null ==>
      kmeans.clusters[..] == old(kmeans.clusters[..])
    ensures status == Success ==>
      kmeans.clusters[..] == Recenter(kmeans.points[..], old(kmeans.clusters[..]), clusterNum)
  {
    if kmeans == null || clusterNum >= kmeans.clustersCnt {
      return Failure;
    }
    var points, clusters := kmeans.points, kmeans.clusters;
    var pointInClusterCnt: nat := 0;
    var sum := Point(0, 0, 0);
    var i := 0;
    while i < kmeans.pointsCnt
      invariant 0 <= i <= points.Length
      invariant pointInClusterCnt == MemberCount(points[..], clusterNum, i)
      invariant sum == MemberSum(points[..], clusterNum, i)
    {
      if points[i].inCluster == clusterNum {
        var p := points[i].point;
        sum := Point(sum.x + p.x, sum.y + p.y, sum.z + p.z);
        pointInClusterCnt := pointInClusterCnt + 1;
      }
      i := i + 1;
    }
    if pointInClusterCnt > 0 {
      clusters[clusterNum] := Point(AxisMean(sum.x, pointInClusterCnt),
                                    AxisMean(sum.y, pointInClusterCnt),
                                    AxisMean(sum.z, pointInClusterCnt));
    }
    status := Success;
  }
}
