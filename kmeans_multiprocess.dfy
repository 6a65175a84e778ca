/**
 * The multi-process driver: the parent splits the points into one batch
 * per worker, collects the workers' counts of moved points, hands every
 * cluster index to the workers once, and repeats while any point moved.
 * Workers are state machines driven by a phase number that signals set.
 * Message passing and process control are not modelled: the work the
 * workers do on the shared store is run in sequence.
 */
module KmeansMultiprocess {
  import opened Wrappers
  import opened Arithmetic
  import opened Kmeans
  import opened KmeansSerial

  // ---------------------------------------------------------------------
  // Batch partition
  // ---------------------------------------------------------------------

  /** A batch of point indices [start, end). */
  datatype Batch = Batch(start: nat, end: nat)

  /**
   * Where batch i of w starts when n points are split: batch 0 starts at 0
   * and batch i takes (n - start) / (w - i) of the points still unassigned.
   */
  function BatchStart(n: nat, w: nat, i: nat): (r: nat)
    requires i <= w
    ensures r <= n
  {
    if i == 0 then 0
    else
      var s := BatchStart(n, w, i - 1);
      DivBelow(n - s, w - (i - 1));
      s + (n - s) / (w - (i - 1))
  }

  /** The w batches the parent sends out. */
  function Batches(n: nat, w: nat): (r: seq<Batch>)
    ensures |r| == w
  {
    seq(w, i requires 0 <= i < w => Batch(BatchStart(n, w, i), BatchStart(n, w, i + 1)))
  }

  /** The split loop of StartAlgorithm: each batch starts where the previous one ended. */
  method SplitBatches(pointsCnt: nat, processCnt: nat) returns (batches: seq<Batch>)
    ensures batches == Batches(pointsCnt, processCnt)
  {
    batches := [];
    var startBatch, endBatch := 0, 0;
    var i := 0;
    while i < processCnt
      invariant 0 <= i <= processCnt && |batches| == i
      invariant endBatch == BatchStart(pointsCnt, processCnt, i)
      invariant forall k :: 0 <= k < i ==>
        batches[k] == Batch(BatchStart(pointsCnt, processCnt, k), BatchStart(pointsCnt, processCnt, k + 1))
    {
      startBatch := endBatch;
      endBatch := startBatch + (pointsCnt - startBatch) / (processCnt - i);
      assert endBatch == BatchStart(pointsCnt, processCnt, i + 1);
      batches := batches + [Batch(startBatch, endBatch)];
      i := i + 1;
    }
  }

  /** The closed form of BatchStart: the last n % w batches get one point more. */
  function ClosedStart(n: nat, w: nat, i: nat): int
    requires w > 0
  {
    i * (n / w) + (if i > w - n % w then i - (w - n % w) else 0)
  }

  /** The size of batch i: n / w, plus one for the last n % w batches. */
  function ClosedSize(n: nat, w: nat, i: nat): nat
    requires w > 0
  {
    n / w + (if i >= w - n % w then 1 else 0)
  }

  lemma ClosedStep(n: nat, w: nat, j: nat)
    requires 0 < w && j < w && 0 <= ClosedStart(n, w, j) <= n
    ensures (n - ClosedStart(n, w, j)) / (w - j) == ClosedSize(n, w, j)
    ensures ClosedStart(n, w, j) + ClosedSize(n, w, j) == ClosedStart(n, w, j + 1)
  {
    var q, rem, d := n / w, n % w, w - j;
    var s := ClosedStart(n, w, j);
    assert n == w * q + rem;
    assert (j + 1) * q == j * q + q;
    assert w * q == d * q + j * q;
    if j < w - rem {
      assert n - s == d * q + rem;
      DivUnique(n - s, d, q);
    } else {
      assert n - s == d * q + d;
      assert d * (q + 1) == d * q + d;
      DivUnique(n - s, d, q + 1);
    }
  }

  lemma {:induction false} BatchStartClosed(n: nat, w: nat, i: nat)
    requires 0 < w && i <= w
    ensures BatchStart(n, w, i) == ClosedStart(n, w, i)
  {
    if i > 0 {
      BatchStartClosed(n, w, i - 1);
      ClosedStep(n, w, i - 1);
    }
  }

  /**
   * The batches are contiguous and disjoint and cover [0, n): the first
   * starts at 0, each starts where the previous ended, and the last ends at n.
   */
  lemma BatchesPartition(n: nat, w: nat)
    requires w > 0
    ensures var b := Batches(n, w);
      && b[0].start == 0
      && (forall i :: 0 < i < w ==> b[i].start == b[i - 1].end)
      && (forall i :: 0 <= i < w ==> b[i].start <= b[i].end)
      && b[w - 1].end == n
  {
    var b := Batches(n, w);
    forall i | 0 <= i < w
      ensures b[i].start <= b[i].end
    {
      BatchSize(n, w, i);
    }
    LastBatchEnd(n, w);
  }

  /** The last of w batches ends at the last point. */
  lemma LastBatchEnd(n: nat, w: nat)
    requires w > 0
    ensures BatchStart(n, w, w) == n
  {
    var s := BatchStart(n, w, w - 1);
    assert (n - s) / 1 == n - s;
  }

  /** Batch i holds n / w points, one more for the last n % w batches. */
  lemma BatchSize(n: nat, w: nat, i: nat)
    requires i < w
    ensures BatchStart(n, w, i) + ClosedSize(n, w, i) == BatchStart(n, w, i + 1)
  {
    BatchStartClosed(n, w, i);
    BatchStartClosed(n, w, i + 1);
    ClosedStep(n, w, i);
  }

  /**
   * The split is balanced: every batch holds between floor(n / w) and
   * ceil(n / w) points, and the sizes never decrease from one batch to the next.
   */
  lemma BatchesBalanced(n: nat, w: nat)
    requires w > 0
    ensures var b := Batches(n, w);
      && (forall i :: 0 <= i < w ==> n / w <= b[i].end - b[i].start <= (n + w - 1) / w)
      && (forall i, j :: 0 <= i <= j < w ==> b[i].end - b[i].start <= b[j].end - b[j].start)
  {
    var b := Batches(n, w);
    var q, rem := n / w, n % w;
    var ceil := q + (if rem > 0 then 1 else 0);
    assert n + w - 1 == w * q + rem + w - 1;
    if rem > 0 {
      assert w * ceil == w * q + w;
      DivUnique(n + w - 1, w, ceil);
    } else {
      DivUnique(n + w - 1, w, ceil);
    }
    forall i | 0 <= i < w
      ensures b[i].end - b[i].start == ClosedSize(n, w, i)
    {
      BatchSize(n, w, i);
    }
  }

  /** Every point index below n falls in exactly one batch. */
  lemma EveryPointInOneBatch(n: nat, w: nat, p: nat)
    requires w > 0 && p < n
    ensures exists i :: 0 <= i < w && Batches(n, w)[i].start <= p < Batches(n, w)[i].end
    ensures forall i, j ::
      (&& 0 <= i < w && 0 <= j < w
       && Batches(n, w)[i].start <= p < Batches(n, w)[i].end
       && Batches(n, w)[j].start <= p < Batches(n, w)[j].end) ==> i == j
  {
    var b := Batches(n, w);
    BatchesPartition(n, w);
    BatchStartsGrow(n, w);
    var i := LastBatchStartingBy(n, w, p);
    assert b[i].start <= p;
    if i + 1 < w {
      assert b[i].end == b[i + 1].start;
    }
  }

  /** A batch never ends before it starts. */
  lemma BatchStartStep(n: nat, w: nat, i: nat)
    requires i < w
    ensures BatchStart(n, w, i) <= BatchStart(n, w, i + 1)
  {
    var s := BatchStart(n, w, i);
    DivBelow(n - s, w - i);
    assert BatchStart(n, w, i + 1) == s + (n - s) / (w - i);
  }

  lemma {:induction false} BatchStartGrows(n: nat, w: nat, i: nat, j: nat)
    requires i <= j <= w
    ensures BatchStart(n, w, i) <= BatchStart(n, w, j)
    decreases j - i
  {
    if i < j {
      BatchStartGrows(n, w, i, j - 1);
      BatchStartStep(n, w, j - 1);
    }
  }

  /** Batch starts never decrease. */
  lemma BatchStartsGrow(n: nat, w: nat)
    ensures forall i, j :: 0 <= i <= j <= w ==> BatchStart(n, w, i) <= BatchStart(n, w, j)
  {
    forall i, j | 0 <= i <= j <= w
      ensures BatchStart(n, w, i) <= BatchStart(n, w, j)
    {
      BatchStartGrows(n, w, i, j);
    }
  }

  /** The last batch that starts at or before p. */
  function LastBatchStartingBy(n: nat, w: nat, p: nat): (i: nat)
    requires w > 0 && p < n
    ensures i < w && BatchStart(n, w, i) <= p
    ensures i + 1 < w ==> p < BatchStart(n, w, i + 1)
    ensures i + 1 == w ==> p < BatchStart(n, w, w)
  {
    LastFrom(n, w, p, w - 1)
  }

  function LastFrom(n: nat, w: nat, p: nat, k: nat): (i: nat)
    requires w > 0 && p < n && k < w
    requires p < BatchStart(n, w, k + 1)
    ensures i <= k && BatchStart(n, w, i) <= p && p < BatchStart(n, w, i + 1)
    decreases k
  {
    if BatchStart(n, w, k) <= p || k == 0 then k else LastFrom(n, w, p, k - 1)
  }

  // ---------------------------------------------------------------------
  // One round of the parallel driver on the shared store
  // ---------------------------------------------------------------------

  /** The sum of the workers' reports. */
  function Sum(reports: seq<nat>): nat
  {
    if reports == [] then 0 else Sum(reports[..|reports| - 1]) + reports[|reports| - 1]
  }

  /** The collection loop: changed starts at 0 and adds up one report per worker. */
  method SumReports(reports: seq<nat>) returns (changed: nat)
    ensures changed == Sum(reports)
  {
    changed := 0;
    var i := 0;
    while i < |reports|
      invariant 0 <= i <= |reports|
      invariant changed == Sum(reports[..i])
    {
      assert reports[..i + 1][..i] == reports[..i];
      changed := changed + reports[i];
      i := i + 1;
    }
    assert reports[..i] == reports;
  }

  /** The report of worker i: the count of its batch, over the points as they were before the round. */
  function BatchCount(pts: seq<PointInCluster>, cs: seq<Point>, w: nat, i: nat): nat
    requires i < w
  {
    CountChanged(pts, cs, BatchStart(|pts|, w, i), BatchStart(|pts|, w, i + 1))
  }

  /** The reports of workers 0 .. k-1, in worker order. */
  function Reports(pts: seq<PointInCluster>, cs: seq<Point>, w: nat, k: nat): (r: seq<nat>)
    requires k <= w
    ensures |r| == k
  {
    if k == 0 then [] else Reports(pts, cs, w, k - 1) + [BatchCount(pts, cs, w, k - 1)]
  }

  /** The reports of the first k workers add up to the count over the points their batches cover. */
  lemma {:induction false} ReportsCoverPrefix(pts: seq<PointInCluster>, cs: seq<Point>, w: nat, k: nat)
    requires k <= w
    ensures Sum(Reports(pts, cs, w, k)) == CountChanged(pts, cs, 0, BatchStart(|pts|, w, k))
  {
    if k > 0 {
      ReportsCoverPrefix(pts, cs, w, k - 1);
      var r := Reports(pts, cs, w, k);
      assert r[..k - 1] == Reports(pts, cs, w, k - 1);
      BatchStartStep(|pts|, w, k - 1);
      CountChangedSplit(pts, cs, 0, BatchStart(|pts|, w, k - 1), BatchStart(|pts|, w, k));
    }
  }

  /**
   * The parent's change count equals the count over all points: the
   * workers' reports of a partition add up to one pass over [0, n).
   */
  lemma ReportsAddUp(pts: seq<PointInCluster>, cs: seq<Point>, w: nat)
    requires w > 0
    ensures Sum(Reports(pts, cs, w, w)) == CountChanged(pts, cs, 0, |pts|)
  {
    ReportsCoverPrefix(pts, cs, w, w);
    BatchesPartition(|pts|, w);
  }

  /** Sorting [lo, mid) and then [mid, hi) sorts [lo, hi). */
  lemma SortBatchCompose(pts: seq<PointInCluster>, cs: seq<Point>, lo: nat, mid: nat, hi: nat)
    requires lo <= mid <= hi
    ensures SortBatch(SortBatch(pts, cs, lo, mid), cs, mid, hi) == SortBatch(pts, cs, lo, hi)
  {
    var a := SortBatch(SortBatch(pts, cs, lo, mid), cs, mid, hi);
    var b := SortBatch(pts, cs, lo, hi);
    forall i | 0 <= i < |pts|
      ensures a[i] == b[i]
    {
    }
  }

  /** Sorting batch i after batches 0..i-1 extends the sorted prefix, and its count is that batch's own. */
  lemma SortNextBatch(pts0: seq<PointInCluster>, cs: seq<Point>, before: seq<PointInCluster>, w: nat, i: nat)
    requires i < w
    requires before == SortBatch(pts0, cs, 0, BatchStart(|pts0|, w, i))
    ensures var lo, hi := BatchStart(|pts0|, w, i), BatchStart(|pts0|, w, i + 1);
      && SortBatch(before, cs, lo, hi) == SortBatch(pts0, cs, 0, hi)
      && CountChanged(before, cs, lo, hi) == BatchCount(pts0, cs, w, i)
  {
    var lo, hi := BatchStart(|pts0|, w, i), BatchStart(|pts0|, w, i + 1);
    BatchStartStep(|pts0|, w, i);
    CountChangedLocal(before, pts0, cs, lo, hi);
    SortBatchCompose(pts0, cs, 0, lo, hi);
  }

  /**
   * One worker's share of the sort phase: SIGUSR1 puts the worker in
   * phase 1, and its next pass runs ClusterSort over the batch it was sent
   * and replies with the count. A worker is back in phase 0 after every
   * pass, so a fresh one stands for the worker of any round.
   */
  method SortOneBatch(kmeans: KMeans, b: Batch) returns (count: nat)
    requires kmeans.Valid() && kmeans.points != null && kmeans.clusters != null
    requires b.start <= b.end <= kmeans.pointsCnt
    modifies kmeans.points
    ensures kmeans.points[..] == SortBatch(old(kmeans.points[..]), kmeans.clusters[..], b.start, b.end)
    ensures count == CountChanged(old(kmeans.points[..]), kmeans.clusters[..], b.start, b.end)
  {
    var worker := new Worker();
    worker.Handler(SigUsr1);
    var work;
    work, count := worker.Pass(kmeans, b, 0);
  }

  /** Worker i of w sorts its batch after the workers before it: the sorted prefix grows by that batch. */
  method SortNextWorker(kmeans: KMeans, b: Batch, ghost pts0: seq<PointInCluster>, ghost w: nat, ghost i: nat)
    returns (count: nat)
    requires kmeans.Valid() && kmeans.points != null && kmeans.clusters != null
    requires i < w && |pts0| == kmeans.pointsCnt
    requires b == Batch(BatchStart(|pts0|, w, i), BatchStart(|pts0|, w, i + 1))
    requires kmeans.points[..] == SortBatch(pts0, kmeans.clusters[..], 0, b.start)
    modifies kmeans.points
    ensures kmeans.points[..] == SortBatch(pts0, kmeans.clusters[..], 0, b.end)
    ensures count == BatchCount(pts0, kmeans.clusters[..], w, i)
  {
    BatchStartStep(|pts0|, w, i);
    SortNextBatch(pts0, kmeans.clusters[..], kmeans.points[..], w, i);
    count := SortOneBatch(kmeans, b);
  }

  /**
   * The sort phase: every worker sorts its batch and reports its count.
   * The workers' order does not matter since each writes only its own batch;
   * the model runs them in index order.
   */
  method SortPhase(kmeans: KMeans, batches: seq<Batch>) returns (reports: seq<nat>)
    requires kmeans.Valid() && kmeans.points != null && kmeans.clusters != null
    requires batches == Batches(kmeans.pointsCnt, |batches|) && |batches| > 0
    modifies kmeans.points
    ensures kmeans.points[..] == SortBatch(old(kmeans.points[..]), kmeans.clusters[..], 0, kmeans.pointsCnt)
    ensures reports == Reports(old(kmeans.points[..]), kmeans.clusters[..], |batches|, |batches|)
  {
    var n, w := kmeans.pointsCnt, |batches|;
    ghost var pts0, cs := kmeans.points[..], kmeans.clusters[..];
    reports := [];
    var i := 0;
    while i < w
      invariant 0 <= i <= w
      invariant kmeans.points[..] == SortBatch(pts0, cs, 0, BatchStart(n, w, i))
      invariant reports == Reports(pts0, cs, w, i)
    {
      var b := batches[i];
      assert b == Batch(BatchStart(n, w, i), BatchStart(n, w, i + 1));
      var count := SortNextWorker(kmeans, b, pts0, w, i);
      reports := reports + [count];
      i := i + 1;
    }
    LastBatchEnd(n, w);
  }

  /**
   * One round of the parent's loop: the sort phase over the batches of
   * clustersCnt workers, the sum of their reports, then the center phase
   * for every cluster index.
   */
  method ParallelIteration(kmeans: KMeans) returns (changed: nat)
    requires kmeans.Valid() && kmeans.points != null && kmeans.clusters != null
    requires kmeans.clustersCnt > 0
    modifies kmeans.points, kmeans.clusters
    ensures State(kmeans.points[..], kmeans.clusters[..])
         == Iterate(State(old(kmeans.points[..]), old(kmeans.clusters[..])))
    ensures changed == Changed(State(old(kmeans.points[..]), old(kmeans.clusters[..])))
  {
    ghost var pts0 := kmeans.points[..];
    var batches := SplitBatches(kmeans.pointsCnt, kmeans.clustersCnt);
    var reports := SortPhase(kmeans, batches);
    changed := SumReports(reports);
    ReportsAddUp(pts0, kmeans.clusters[..], |batches|);
    ghost var cs := kmeans.clusters[..];
    CenterPhase(kmeans);
    CenterDispatchOnce(kmeans.clustersCnt);
    CenterPhaseOrderFree(kmeans.points[..], cs, CenterDispatch(kmeans.clustersCnt));
  }

  /**
   * One worker's share of the center phase: SIGUSR2 puts the worker in
   * phase 2, and its next pass runs FindClusterCenter for the index it was
   * sent.
   */
  method CenterOne(kmeans: KMeans, k: nat)
    requires kmeans.Valid() && kmeans.points != null && kmeans.clusters != null
    requires k < kmeans.clustersCnt
    modifies kmeans.clusters
    ensures kmeans.clusters[..] == Recenter(kmeans.points[..], old(kmeans.clusters[..]), k)
  {
    var worker := new Worker();
    worker.Handler(SigUsr2);
    var work, report := worker.Pass(kmeans, Batch(0, 0), k);
  }

  /**
   * The center phase: the parent hands out the indices of CenterDispatch
   * and a worker recomputes each one; the model runs them in the order sent.
   */
  method CenterPhase(kmeans: KMeans)
    requires kmeans.Valid() && kmeans.points != null && kmeans.clusters != null
    modifies kmeans.clusters
    ensures kmeans.clusters[..]
         == RecenterInOrder(kmeans.points[..], old(kmeans.clusters[..]), CenterDispatch(kmeans.clustersCnt))
  {
    ghost var cs := kmeans.clusters[..];
    var order := CenterDispatch(kmeans.clustersCnt);
    var i := 0;
    while i < |order|
      invariant 0 <= i <= |order|
      invariant kmeans.clusters[..] == RecenterInOrder(kmeans.points[..], cs, order[..i])
    {
      assert order[..i + 1][..i] == order[..i];
      CenterOne(kmeans, order[i]);
      i := i + 1;
    }
    assert order[..i] == order;
  }

  // ---------------------------------------------------------------------
  // The order of the center phase does not matter
  // ---------------------------------------------------------------------

  /** The centers after FindClusterCenter has run for the indices of order, in that order. */
  function RecenterInOrder(pts: seq<PointInCluster>, cs: seq<Point>, order: seq<nat>): (r: seq<Point>)
    requires forall i :: 0 <= i < |order| ==> order[i] < |cs|
    ensures |r| == |cs|
  {
    if order == [] then cs
    else Recenter(pts, RecenterInOrder(pts, cs, order[..|order| - 1]), order[|order| - 1])
  }

  /** Handing out indices without repetition recomputes exactly the handed-out centers. */
  lemma {:induction false} RecenterInOrderEntries(pts: seq<PointInCluster>, cs: seq<Point>, order: seq<nat>)
    requires forall i :: 0 <= i < |order| ==> order[i] < |cs|
    requires forall i, j :: 0 <= i < j < |order| ==> order[i] != order[j]
    ensures forall k :: 0 <= k < |cs| ==>
      RecenterInOrder(pts, cs, order)[k] == if k in order then Center(pts, k, cs[k]) else cs[k]
  {
    if order != [] {
      var front, last := order[..|order| - 1], order[|order| - 1];
      RecenterInOrderEntries(pts, cs, front);
      assert last !in front;
      forall k | 0 <= k < |cs|
        ensures RecenterInOrder(pts, cs, order)[k] == if k in order then Center(pts, k, cs[k]) else cs[k]
      {
        assert k in order <==> k in front || k == last;
      }
    }
  }

  /**
   * Whatever order the workers take the cluster indices in, when each index
   * 0 .. |cs|-1 is handed out exactly once the centers end up as the
   * in-order loop leaves them.
   */
  lemma CenterPhaseOrderFree(pts: seq<PointInCluster>, cs: seq<Point>, order: seq<nat>)
    requires forall i :: 0 <= i < |order| ==> order[i] < |cs|
    requires forall i, j :: 0 <= i < j < |order| ==> order[i] != order[j]
    requires forall k :: 0 <= k < |cs| ==> k in order
    ensures RecenterInOrder(pts, cs, order) == RecenterPrefix(pts, cs, |cs|)
  {
    RecenterInOrderEntries(pts, cs, order);
  }

  /** The parent's center dispatch: the indices 0 .. clustersCnt-1, each once. */
  function CenterDispatch(clustersCnt: nat): (r: seq<nat>)
    ensures |r| == clustersCnt
    ensures forall i :: 0 <= i < clustersCnt ==> r[i] == i
  {
    seq(clustersCnt, i requires 0 <= i < clustersCnt => i)
  }

  /** The parent's dispatch hands out every cluster index exactly once. */
  lemma CenterDispatchOnce(clustersCnt: nat)
    ensures var r := CenterDispatch(clustersCnt);
      && (forall k :: 0 <= k < clustersCnt ==> k in r)
      && (forall i, j :: 0 <= i < j < clustersCnt ==> r[i] != r[j])
      && (forall i :: 0 <= i < clustersCnt ==> r[i] < clustersCnt)
  {
    var r := CenterDispatch(clustersCnt);
    forall k | 0 <= k < clustersCnt
      ensures k in r
    {
      assert r[k] == k;
    }
  }

  // ---------------------------------------------------------------------
  // StartAlgorithm
  // ---------------------------------------------------------------------

  /** With the zero threshold a run goes on exactly while some point moves. */
  lemma ZeroThresholdMeansAnyChange(changed: nat, n: nat)
    ensures ExceedsThreshold(changed, n, 0) <==> changed > 0
  {
  }

  /** A round whose sort moves no point keeps the assignment, which was already to the first nearest centers. */
  lemma LastRoundStable(last: State)
    requires |last.clusters| > 0 && Changed(last) == 0
    ensures Iterate(last).points == last.points
    ensures forall i :: 0 <= i < |last.points| ==>
      IsFirstNearest(last.points[i].point, last.clusters, last.points[i].inCluster)
  {
    CountChangedZeroIffStable(last.points, last.clusters, 0, |last.points|);
    SortBatchAssignsFirstNearest(last.points, last.clusters, 0, |last.points|);
  }

  /** The parent's do-while loop: rounds repeat while the last sort moved any point. */
  method RunParallel(kmeans: KMeans, maxIterations: nat) returns (iterations: nat, converged: bool)
    requires maxIterations > 0
    requires kmeans.Valid() && kmeans.points != null && kmeans.clusters != null
    requires kmeans.clustersCnt > 0
    modifies kmeans.points, kmeans.clusters
    ensures Run(Iterate, Changed, kmeans.pointsCnt, State(old(kmeans.points[..]), old(kmeans.clusters[..])),
                maxIterations, 0)
         == Outcome(State(kmeans.points[..], kmeans.clusters[..]), iterations, converged)
  {
    ghost var s0 := State(kmeans.points[..], kmeans.clusters[..]);
    ghost var prev := s0;
    var changed: nat := 0;
    iterations, converged := 0, false;
    while !converged && iterations < maxIterations
      invariant DriverAt(Iterate, Changed, kmeans.pointsCnt, s0, maxIterations, 0,
                         prev, State(kmeans.points[..], kmeans.clusters[..]), changed, converged, iterations)
      decreases maxIterations - iterations
    {
      DriverStep(Iterate, Changed, kmeans.pointsCnt, s0, maxIterations, 0,
                 prev, State(kmeans.points[..], kmeans.clusters[..]), changed, converged, iterations);
      prev := State(kmeans.points[..], kmeans.clusters[..]);
      changed := ParallelIteration(kmeans);
      iterations := iterations + 1;
      converged := !ExceedsThreshold(changed, kmeans.pointsCnt, 0);
    }
    DriverExit(Iterate, Changed, kmeans.pointsCnt, s0, maxIterations, 0,
               prev, State(kmeans.points[..], kmeans.clusters[..]), changed, converged, iterations);
  }

  /**
   * StartAlgorithm of the parallel driver: seeds the centers with the first
   * points, starts one worker per cluster (forked is false when a fork
   * fails, which ends the run with the centers seeded) and runs the rounds.
   * The store must come from CreatPoints, so clustersCnt <= pointsCnt; a
   * store without clusters would size the process table with zero entries.
   */
  method StartAlgorithm(kmeans: KMeans, forked: bool, maxIterations: nat)
    returns (status: Status, iterations: nat, converged: bool)
    requires maxIterations > 0
    requires kmeans.Valid() && kmeans.points != null && kmeans.clusters != null
    requires 0 < kmeans.clustersCnt <= kmeans.pointsCnt
    modifies kmeans.points, kmeans.clusters
    ensures status == Failure <==> !forked
    ensures status == Failure ==>
      && kmeans.points[..] == old(kmeans.points[..])
      && kmeans.clusters[..] == Seed(old(kmeans.points[..]), kmeans.clustersCnt)
    ensures status == Success ==>
      var s0 := State(old(kmeans.points[..]), Seed(old(kmeans.points[..]), kmeans.clustersCnt));
      Run(Iterate, Changed, kmeans.pointsCnt, s0, maxIterations, 0)
        == Outcome(State(kmeans.points[..], kmeans.clusters[..]), iterations, converged)
  {
    SeedClusters(kmeans);
    if !forked {
      return Failure, 0, false;
    }
    iterations, converged := RunParallel(kmeans, maxIterations);
    status := Success;
  }

  // ---------------------------------------------------------------------
  // The workers' phase machine
  // ---------------------------------------------------------------------

  /** The signals a worker can receive. */
  datatype Signal = SigUsr1 | SigUsr2 | OtherSignal(num: int)

  /** What one pass of a worker's loop does. */
  datatype Work = NoWork | SortWork | CenterWork

  /** The phase the handler sets: 1 on SIGUSR1, 2 on SIGUSR2, unchanged otherwise. */
  function HandlerPhase(phase: int, sig: Signal): (r: int)
    ensures sig.OtherSignal? ==> r == phase
  {
    match sig
    case SigUsr1 => 1
    case SigUsr2 => 2
    case OtherSignal(_) => phase
  }

  /** The work a pass does in a phase: phase 1 sorts, phase 2 recenters, any other phase idles. */
  function WorkOf(phase: int): Work
  {
    if phase == 1 then SortWork else if phase == 2 then CenterWork else NoWork
  }

  /** The phase after a pass: back to 0 after a phase's work, unchanged when idle. */
  function PhaseAfter(phase: int): (r: int)
    ensures WorkOf(phase) == NoWork ==> r == phase
    ensures WorkOf(phase) != NoWork ==> r == 0
  {
    if phase == 1 || phase == 2 then 0 else phase
  }

  /** A worker process's state: its phase number and the signals reset to their default action. */
  class Worker {
    var phase: int
    var defaulted: set<int>

    /** Phases are 0 (idle), 1 (sort) and 2 (center). */
    ghost predicate Valid()
      reads this
    {
      0 <= phase <= 2
    }

    constructor ()
      ensures phase == 0 && defaulted == {} && Valid()
    {
      phase := 0;
      defaulted := {};
    }

    /** Handler: sets the phase for the two user signals; any other signal gets its default action back. */
    method Handler(sig: Signal)
      requires Valid()
      modifies this
      ensures Valid()
      ensures phase == HandlerPhase(old(phase), sig)
      ensures sig.OtherSignal? ==> defaulted == old(defaulted) + {sig.num}
      ensures !sig.OtherSignal? ==> defaulted == old(defaulted)
    {
      match sig {
        case SigUsr1 =>
          phase := 1;
        case SigUsr2 =>
          phase := 2;
        case OtherSignal(num) =>
          defaulted := defaulted + {num};
      }
    }

    /**
     * One pass of the worker's loop. In phase 1 it sorts the batch it was
     * sent and replies with its count (0 when ClusterSort fails); in phase 2
     * it recomputes the center whose index it was sent; then it returns to
     * phase 0. In phase 0 it does nothing.
     */
    method Pass(kmeans: KMeans, batch: Batch, clusterIndex: nat) returns (work: Work, report: nat)
      requires Valid() && kmeans.Valid()
      requires kmeans.points != null && kmeans.clusters != null
      modifies this
      modifies if phase == 1 then {kmeans.points} else {}
      modifies if phase == 2 then {kmeans.clusters} else {}
      ensures Valid()
      ensures work == WorkOf(old(phase)) && phase == PhaseAfter(old(phase))
      ensures defaulted == old(defaulted)
      ensures work == NoWork ==>
        kmeans.points[..] == old(kmeans.points[..]) && kmeans.clusters[..] == old(kmeans.clusters[..]) && report == 0
      ensures work == SortWork ==>
        && kmeans.clusters[..] == old(kmeans.clusters[..])
        && (batch.start <= batch.end <= kmeans.pointsCnt ==>
              && kmeans.points[..] == SortBatch(old(kmeans.points[..]), kmeans.clusters[..], batch.start, batch.end)
              && report == CountChanged(old(kmeans.points[..]), kmeans.clusters[..], batch.start, batch.end))
        && (!(batch.start <= batch.end <= kmeans.pointsCnt) ==>
              kmeans.points[..] == old(kmeans.points[..]) && report == 0)
      ensures work == CenterWork ==>
        && kmeans.points[..] == old(kmeans.points[..]) && report == 0
        && (clusterIndex < kmeans.clustersCnt ==>
              kmeans.clusters[..] == Recenter(kmeans.points[..], old(kmeans.clusters[..]), clusterIndex))
        && (clusterIndex >= kmeans.clustersCnt ==> kmeans.clusters[..] == old(kmeans.clusters[..]))
    {
      work, report := NoWork, 0;
      if phase == 1 {
        var st, out := ClusterSort(kmeans, batch.start, batch.end, Some(0));
        report := out.value;
        work := SortWork;
        phase := 0;
      } else if phase == 2 {
        var st := FindClusterCenter(kmeans, clusterIndex);
        work := CenterWork;
        phase := 0;
      }
    }
  }

  /** After any signal, a pass does at most one phase's work and leaves the worker idle or where it was. */
  lemma OneWorkPerSignal(phase: int, sig: Signal)
    requires 0 <= phase <= 2
    ensures var p := HandlerPhase(phase, sig);
      && (sig == SigUsr1 ==> WorkOf(p) == SortWork && PhaseAfter(p) == 0)
      && (sig == SigUsr2 ==> WorkOf(p) == CenterWork && PhaseAfter(p) == 0)
      && WorkOf(PhaseAfter(p)) == NoWork
  {
  }

  /** An idle worker stays idle and does nothing, however many passes it makes. */
  lemma {:induction false} IdleWorkerStaysIdle(passes: nat)
    ensures PhaseAfterN(0, passes) == 0
    ensures forall k :: 0 <= k < passes ==> WorkOf(PhaseAfterN(0, k)) == NoWork
  {
    if passes > 0 {
      IdleWorkerStaysIdle(passes - 1);
    }
  }

  /** The phase after a number of passes with no signal in between. */
  function PhaseAfterN(phase: int, passes: nat): int
  {
    if passes == 0 then phase else PhaseAfter(PhaseAfterN(phase, passes - 1))
  }
}
