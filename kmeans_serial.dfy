/**
 * The single-process driver: loading the store from the binary point file
 * and the K-means loop (seed the centers with the first points, then sort
 * all points and recompute every center until few enough points move).
 */
module KmeansSerial {
  import opened Wrappers
  import opened Kmeans

  // ---------------------------------------------------------------------
  // The point file
  // ---------------------------------------------------------------------

  /**
   * The binary point file as the loader reads it: the two header words
   * (point count and cluster count, each a size_t) and the int words that
   * follow, three per point record.
   */
  datatype FileImage = FileImage(pointsCnt: nat, clustersCnt: nat, body: seq<int>)

  /**
   * The loader never checks its reads: when the header is accepted the
   * file must hold a full record for every announced point.
   */
  ghost predicate Readable(f: FileImage)
  {
    f.clustersCnt <= f.pointsCnt ==> 3 * f.pointsCnt <= |f.body|
  }

  /** Point record i of the body. */
  function Record(body: seq<int>, i: nat): Point
    requires 3 * i + 3 <= |body|
  {
    Point(body[3 * i], body[3 * i + 1], body[3 * i + 2])
  }

  /** The points the loader stores: the records in file order, each assigned to cluster 0. */
  function DecodePoints(f: FileImage): (r: seq<PointInCluster>)
    requires 3 * f.pointsCnt <= |f.body|
    ensures |r| == f.pointsCnt
    ensures forall i :: 0 <= i < |r| ==> r[i].inCluster == 0
  {
    seq(f.pointsCnt, i requires 0 <= i < f.pointsCnt => PointInCluster(Record(f.body, i), 0))
  }

  /** The record words of a point list, as the data generator writes them. */
  function EncodeBody(ps: seq<Point>): (r: seq<int>)
    ensures |r| == 3 * |ps|
  {
    if ps == [] then [] else [ps[0].x, ps[0].y, ps[0].z] + EncodeBody(ps[1..])
  }

  lemma {:induction false} EncodeBodyAt(ps: seq<Point>, i: nat)
    requires i < |ps|
    ensures Record(EncodeBody(ps), i) == ps[i]
  {
    if i > 0 {
      EncodeBodyAt(ps[1..], i - 1);
      var tail := EncodeBody(ps[1..]);
      assert EncodeBody(ps) == [ps[0].x, ps[0].y, ps[0].z] + tail;
      assert EncodeBody(ps)[3 * i] == tail[3 * (i - 1)];
      assert EncodeBody(ps)[3 * i + 1] == tail[3 * (i - 1) + 1];
      assert EncodeBody(ps)[3 * i + 2] == tail[3 * (i - 1) + 2];
    }
  }

  /** Loading a file that was written from a point list gives back exactly those points, in order. */
  lemma DecodeEncode(ps: seq<Point>, clustersCnt: nat)
    ensures var r := DecodePoints(FileImage(|ps|, clustersCnt, EncodeBody(ps)));
      |r| == |ps| && forall i :: 0 <= i < |ps| ==> r[i] == PointInCluster(ps[i], 0)
  {
    forall i | 0 <= i < |ps|
      ensures Record(EncodeBody(ps), i) == ps[i]
    {
      EncodeBodyAt(ps, i);
    }
  }

  /**
   * CreatPoints. hasSlot is false for a NULL KMeans**; current is the store
   * the slot already holds; file is None when the file cannot be opened.
   * On failure the slot keeps its value; on success it holds a new store.
   */
  method CreatPoints(hasSlot: bool, current: KMeans?, file: Option<FileImage>)
    returns (status: Status, kmeans: KMeans?)
    requires file.Some? ==> Readable(file.value)
    ensures status == Failure <==>
      || !hasSlot || current != null || file.None?
      || file.value.clustersCnt > file.value.pointsCnt
    ensures status == Failure ==> kmeans == current
    ensures status == Success ==>
      && kmeans != null && fresh(kmeans) && kmeans.Valid()
      && kmeans.points != null && fresh(kmeans.points)
      && kmeans.clusters != null && fresh(kmeans.clusters)
      && kmeans.pointsCnt == file.value.pointsCnt
      && kmeans.clustersCnt == file.value.clustersCnt
      && kmeans.points[..] == DecodePoints(file.value)
  {
    if !hasSlot || current != null {
      return Failure, current;
    }
    if file.None? {
      return Failure, current;
    }
    var f := file.value;
    if f.clustersCnt > f.pointsCnt {
      return Failure, current;
    }
    var points := new PointInCluster[f.pointsCnt];
    var clusters := new Point[f.clustersCnt];
    var i := 0;
    while i < f.pointsCnt
      invariant 0 <= i <= f.pointsCnt
      invariant points[..i] == DecodePoints(f)[..i]
      modifies points
    {
      points[i] := PointInCluster(Record(f.body, i), 0);
      i := i + 1;
    }
    assert points[..] == points[..i];
    kmeans := new KMeans(points, f.pointsCnt, clusters, f.clustersCnt);
    status := Success;
  }

  // ---------------------------------------------------------------------
  // The clustering loop, as a function of the store's contents
  // ---------------------------------------------------------------------

  /** The contents of the store: the assigned points and the centers. */
  datatype State = State(points: seq<PointInCluster>, clusters: seq<Point>)

  /** The first k centers are the first k points. */
  function Seed(pts: seq<PointInCluster>, k: nat): (r: seq<Point>)
    requires k <= |pts|
    ensures |r| == k
    ensures forall i :: 0 <= i < k ==> r[i] == pts[i].point
  {
    seq(k, i requires 0 <= i < k => pts[i].point)
  }

  /** The centers after FindClusterCenter has run for clusters 0 .. n-1 in turn. */
  function RecenterPrefix(pts: seq<PointInCluster>, cs: seq<Point>, n: nat): (r: seq<Point>)
    requires n <= |cs|
    ensures |r| == |cs|
  {
    seq(|cs|, j requires 0 <= j < |cs| => if j < n then Center(pts, j, cs[j]) else cs[j])
  }

  /** Recomputing one more center extends the recomputed prefix. */
  lemma RecenterPrefixStep(pts: seq<PointInCluster>, cs: seq<Point>, n: nat)
    requires n < |cs|
    ensures Recenter(pts, RecenterPrefix(pts, cs, n), n) == RecenterPrefix(pts, cs, n + 1)
  {
    assert RecenterPrefix(pts, cs, n)[n] == cs[n];
  }

  /** One iteration: sort every point, then recompute every center from the new assignment. */
  function Iterate(s: State): (r: State)
    ensures |r.points| == |s.points| && |r.clusters| == |s.clusters|
  {
    var pts := SortBatch(s.points, s.clusters, 0, |s.points|);
    State(pts, RecenterPrefix(pts, s.clusters, |s.clusters|))
  }

  /** The number of points the sort of an iteration from s moves to another cluster. */
  function Changed(s: State): nat
  {
    CountChanged(s.points, s.clusters, 0, |s.points|)
  }

  /** The state after n rounds of step from s. */
  function Rounds(step: State -> State, s: State, n: nat): State
  {
    if n == 0 then s else step(Rounds(step, s, n - 1))
  }

  /**
   * The loop test changed / points_cnt > threshold with the threshold given
   * in percent, on integers: 100 * changed > percent * points_cnt. The
   * serial driver's threshold 0.01 is 1 percent; the parallel driver's is 0.
   */
  predicate ExceedsThreshold(changed: nat, pointsCnt: nat, percent: nat)
  {
    100 * changed > percent * pointsCnt
  }

  /**
   * The outcome of a run: the final contents, the number of rounds run and
   * whether the last round moved few enough points.
   */
  datatype Outcome = Outcome(final: State, iterations: nat, converged: bool)

  /**
   * A driver's do-while loop from s, bounded by fuel rounds: each round
   * moves the store from s to step(s) and reports count(s) moved points;
   * the loop stops after the first round that moved at most percent% of
   * the n points, or when the fuel runs out.
   */
  function Run(step: State -> State, count: State -> nat, n: nat, s: State, fuel: nat, percent: nat): (r: Outcome)
    requires fuel > 0
    ensures 1 <= r.iterations <= fuel
    decreases fuel
  {
    if !ExceedsThreshold(count(s), n, percent) then Outcome(step(s), 1, true)
    else if fuel == 1 then Outcome(step(s), 1, false)
    else
      var r := Run(step, count, n, step(s), fuel - 1, percent);
      Outcome(r.final, r.iterations + 1, r.converged)
  }

  /**
   * The outcome of a run from s0 bounded by maxIterations: final is the
   * state after iterations rounds; every round but the last moved more
   * points than the threshold allows; converged says the last one did not,
   * and only running out of rounds stops the loop otherwise.
   */
  ghost predicate IsRun(step: State -> State, count: State -> nat, n: nat, s0: State,
                        final: State, iterations: nat, converged: bool, percent: nat, maxIterations: nat)
  {
    && 1 <= iterations <= maxIterations
    && final == Rounds(step, s0, iterations)
    && (forall m :: 0 <= m < iterations - 1 ==> ExceedsThreshold(count(Rounds(step, s0, m)), n, percent))
    && (converged <==> !ExceedsThreshold(count(Rounds(step, s0, iterations - 1)), n, percent))
    && (!converged ==> iterations == maxIterations)
  }

  /** Running m rounds after one round is running m + 1 rounds. */
  lemma {:induction false} RoundsShift(step: State -> State, s: State, m: nat)
    ensures Rounds(step, step(s), m) == Rounds(step, s, m + 1)
    decreases m
  {
    if m > 0 {
      RoundsShift(step, s, m - 1);
    }
  }

  /** A run ends in the state after as many rounds as it counts. */
  lemma {:induction false} RunFinal(step: State -> State, count: State -> nat, n: nat, s: State, fuel: nat, percent: nat)
    requires fuel > 0
    ensures var r := Run(step, count, n, s, fuel, percent); r.final == Rounds(step, s, r.iterations)
    decreases fuel
  {
    if ExceedsThreshold(count(s), n, percent) && fuel > 1 {
      var r' := Run(step, count, n, step(s), fuel - 1, percent);
      RunFinal(step, count, n, step(s), fuel - 1, percent);
      RoundsShift(step, s, r'.iterations);
    }
  }

  /** A run reports convergence exactly when its last round moved few enough points. */
  lemma {:induction false} RunConverged(step: State -> State, count: State -> nat, n: nat, s: State, fuel: nat, percent: nat)
    requires fuel > 0
    ensures var r := Run(step, count, n, s, fuel, percent);
      r.converged <==> !ExceedsThreshold(count(Rounds(step, s, r.iterations - 1)), n, percent)
    decreases fuel
  {
    if ExceedsThreshold(count(s), n, percent) && fuel > 1 {
      var r' := Run(step, count, n, step(s), fuel - 1, percent);
      RunConverged(step, count, n, step(s), fuel - 1, percent);
      RoundsShift(step, s, r'.iterations - 1);
    }
  }

  /** Every round of a run before its last moved more points than the threshold allows. */
  lemma {:induction false} RunExceededBefore(step: State -> State, count: State -> nat, n: nat, s: State, fuel: nat, percent: nat)
    requires fuel > 0
    ensures var r := Run(step, count, n, s, fuel, percent);
      forall m :: 0 <= m < r.iterations - 1 ==> ExceedsThreshold(count(Rounds(step, s, m)), n, percent)
    decreases fuel
  {
    if ExceedsThreshold(count(s), n, percent) && fuel > 1 {
      var r := Run(step, count, n, s, fuel, percent);
      RunExceededBefore(step, count, n, step(s), fuel - 1, percent);
      forall m | 0 <= m < r.iterations - 1
        ensures ExceedsThreshold(count(Rounds(step, s, m)), n, percent)
      {
        if m > 0 {
          RoundsShift(step, s, m - 1);
        }
      }
    }
  }

  /** A run that converged ended with a round whose count was within the threshold. */
  lemma RunConvergedLast(step: State -> State, count: State -> nat, n: nat, s: State, fuel: nat, percent: nat)
    requires fuel > 0
    ensures var r := Run(step, count, n, s, fuel, percent);
      var last := Rounds(step, s, r.iterations - 1);
      r.final == step(last) && (r.converged <==> !ExceedsThreshold(count(last), n, percent))
  {
    RunFinal(step, count, n, s, fuel, percent);
    RunConverged(step, count, n, s, fuel, percent);
  }

  /** A run that did not converge used up all its rounds. */
  lemma {:induction false} RunExhausted(step: State -> State, count: State -> nat, n: nat, s: State, fuel: nat, percent: nat)
    requires fuel > 0
    ensures var r := Run(step, count, n, s, fuel, percent); !r.converged ==> r.iterations == fuel
    decreases fuel
  {
    if ExceedsThreshold(count(s), n, percent) && fuel > 1 {
      RunExhausted(step, count, n, step(s), fuel - 1, percent);
    }
  }

  /** Every run bounded by fuel rounds is a run in the sense of IsRun. */
  lemma RunIsRun(step: State -> State, count: State -> nat, n: nat, s: State, fuel: nat, percent: nat)
    requires fuel > 0
    ensures var r := Run(step, count, n, s, fuel, percent);
      IsRun(step, count, n, s, r.final, r.iterations, r.converged, percent, fuel)
  {
    RunFinal(step, count, n, s, fuel, percent);
    RunConverged(step, count, n, s, fuel, percent);
    RunExceededBefore(step, count, n, s, fuel, percent);
    RunExhausted(step, count, n, s, fuel, percent);
  }

  /**
   * A driver loop that stands at prev after done rounds from s0 resumes the
   * run: what remains of Run from s0 is the run from prev with the fuel left.
   */
  ghost predicate RunResumes(step: State -> State, count: State -> nat, n: nat, s0: State, fuel: nat,
                             percent: nat, prev: State, done: nat)
  {
    && done < fuel
    && var r := Run(step, count, n, prev, fuel - done, percent);
       Run(step, count, n, s0, fuel, percent) == Outcome(r.final, r.iterations + done, r.converged)
  }

  /**
   * The state of a driver loop after `done` passes: `now` is the centers and
   * points in memory, `prev` the state the last pass started from, `changed`
   * that pass's count and `converged` whether it fell under the threshold.
   */
  ghost predicate DriverAt(step: State -> State, count: State -> nat, n: nat, s0: State, fuel: nat,
                           percent: nat, prev: State, now: State, changed: nat, converged: bool, done: nat)
  {
    && done <= fuel
    && (done == 0 ==> now == s0 && !converged)
    && (done > 0 ==>
         && now == step(prev) && changed == count(prev)
         && converged == !ExceedsThreshold(changed, n, percent)
         && RunResumes(step, count, n, s0, fuel, percent, prev, done - 1))
  }

  /** One more pass of the loop keeps DriverAt. */
  lemma DriverStep(step: State -> State, count: State -> nat, n: nat, s0: State, fuel: nat,
                   percent: nat, prev: State, now: State, changed: nat, converged: bool, done: nat)
    requires DriverAt(step, count, n, s0, fuel, percent, prev, now, changed, converged, done)
    requires !converged && done < fuel
    ensures DriverAt(step, count, n, s0, fuel, percent, now, step(now), count(now),
                     !ExceedsThreshold(count(now), n, percent), done + 1)
  {
    if done > 0 {
      assert RunResumes(step, count, n, s0, fuel, percent, step(prev), done);
    }
  }

  /** When the loop stops, it has computed Run from s0. */
  lemma DriverExit(step: State -> State, count: State -> nat, n: nat, s0: State, fuel: nat,
                   percent: nat, prev: State, now: State, changed: nat, converged: bool, done: nat)
    requires fuel > 0 && DriverAt(step, count, n, s0, fuel, percent, prev, now, changed, converged, done)
    requires converged || done == fuel
    ensures Run(step, count, n, s0, fuel, percent) == Outcome(now, done, converged)
  {
    var r := Run(step, count, n, prev, fuel - (done - 1), percent);
    assert r == Outcome(step(prev), 1, converged);
  }

  method SeedClusters(kmeans: KMeans)
    requires kmeans.Valid() && kmeans.points != null && kmeans.clusters != null
    requires kmeans.clustersCnt <= kmeans.pointsCnt
    modifies kmeans.clusters
    ensures kmeans.clusters[..] == Seed(kmeans.points[..], kmeans.clustersCnt)
  {
    var points, clusters := kmeans.points, kmeans.clusters;
    var i := 0;
    while i < kmeans.clustersCnt
      invariant 0 <= i <= clusters.Length
      invariant forall j :: 0 <= j < i ==> clusters[j] == points[j].point
    {
      clusters[i] := points[i].point;
      i := i + 1;
    }
  }

  /** The recentering loop: FindClusterCenter for clusters 0 .. clustersCnt-1, in that order. */
  method RecenterAll(kmeans: KMeans)
    requires kmeans.Valid() && kmeans.points != null && kmeans.clusters != null
    modifies kmeans.clusters
    ensures kmeans.clusters[..] == RecenterPrefix(kmeans.points[..], old(kmeans.clusters[..]), kmeans.clustersCnt)
  {
    ghost var cs := kmeans.clusters[..];
    var k := 0;
    while k < kmeans.clustersCnt
      invariant 0 <= k <= kmeans.clustersCnt
      invariant kmeans.clusters[..] == RecenterPrefix(kmeans.points[..], cs, k)
    {
      RecenterPrefixStep(kmeans.points[..], cs, k);
      var st := FindClusterCenter(kmeans, k);
      k := k + 1;
    }
  }

  /** One round of the serial loop: sort all points, then recompute every center. */
  method SerialIteration(kmeans: KMeans) returns (changed: nat)
    requires kmeans.Valid() && kmeans.points != null && kmeans.clusters != null
    modifies kmeans.points, kmeans.clusters
    ensures State(kmeans.points[..], kmeans.clusters[..])
         == Iterate(State(old(kmeans.points[..]), old(kmeans.clusters[..])))
    ensures changed == Changed(State(old(kmeans.points[..]), old(kmeans.clusters[..])))
  {
    var st, out := ClusterSort(kmeans, 0, kmeans.pointsCnt, Some(0));
    changed := out.value;
    RecenterAll(kmeans);
  }

  /**
   * The do-while loop of StartAlgorithm on the store's contents, with the
   * threshold of 1 percent; the first round always runs because maxIterations > 0.
   */
  method RunSerial(kmeans: KMeans, maxIterations: nat) returns (iterations: nat, converged: bool)
    requires maxIterations > 0
    requires kmeans.Valid() && kmeans.points != null && kmeans.clusters != null
    modifies kmeans.points, kmeans.clusters
    ensures Run(Iterate, Changed, kmeans.pointsCnt, State(old(kmeans.points[..]), old(kmeans.clusters[..])),
                maxIterations, 1)
         == Outcome(State(kmeans.points[..], kmeans.clusters[..]), iterations, converged)
  {
    ghost var s0 := State(kmeans.points[..], kmeans.clusters[..]);
    ghost var prev := s0;
    var changed: nat := 0;
    iterations, converged := 0, false;
    while !converged && iterations < maxIterations
      invariant DriverAt(Iterate, Changed, kmeans.pointsCnt, s0, maxIterations, 1,
                         prev, State(kmeans.points[..], kmeans.clusters[..]), changed, converged, iterations)
      decreases maxIterations - iterations
    {
      DriverStep(Iterate, Changed, kmeans.pointsCnt, s0, maxIterations, 1,
                 prev, State(kmeans.points[..], kmeans.clusters[..]), changed, converged, iterations);
      prev := State(kmeans.points[..], kmeans.clusters[..]);
      changed := SerialIteration(kmeans);
      iterations := iterations + 1;
      converged := !ExceedsThreshold(changed, kmeans.pointsCnt, 1);
    }
    DriverExit(Iterate, Changed, kmeans.pointsCnt, s0, maxIterations, 1,
               prev, State(kmeans.points[..], kmeans.clusters[..]), changed, converged, iterations);
  }

  /**
   * StartAlgorithm: validates the store, seeds the centers with the first
   * points and iterates until an iteration moves at most 1% of the points.
   * The source gives no bound on the number of iterations; the model stops
   * after maxIterations at the latest and then reports converged == false.
   */
  method StartAlgorithm(kmeans: KMeans?, maxIterations: nat)
    returns (status: Status, iterations: nat, converged: bool)
    requires maxIterations > 0
    requires kmeans != null ==> kmeans.Valid()
    requires kmeans != null && 0 < kmeans.clustersCnt <= kmeans.pointsCnt ==>
      kmeans.points != null && kmeans.clusters != null
    modifies if kmeans != null && kmeans.points != null then {kmeans.points} else {}
    modifies if kmeans != null && kmeans.clusters != null then {kmeans.clusters} else {}
    ensures status == Failure <==>
      || kmeans == null || kmeans.pointsCnt == 0 || kmeans.clustersCnt == 0
      || kmeans.clustersCnt > kmeans.pointsCnt
    ensures status == Failure && kmeans != null && kmeans.points != null ==>
      kmeans.points[..] == old(kmeans.points[..])
    ensures status == Failure && kmeans != null && kmeans.clusters != null ==>
      kmeans.clusters[..] == old(kmeans.clusters[..])
    ensures status == Success ==>
      var s0 := State(old(kmeans.points[..]), Seed(old(kmeans.points[..]), kmeans.clustersCnt));
      Run(Iterate, Changed, kmeans.pointsCnt, s0, maxIterations, 1)
        == Outcome(State(kmeans.points[..], kmeans.clusters[..]), iterations, converged)
  {
    if || kmeans == null || kmeans.pointsCnt == 0 || kmeans.clustersCnt == 0
       || kmeans.clustersCnt > kmeans.pointsCnt {
      return Failure, 0, false;
    }
    SeedClusters(kmeans);
    iterations, converged := RunSerial(kmeans, maxIterations);
    status := Success;
  }
}
