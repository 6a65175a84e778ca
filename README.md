# K-means drivers and schedule input, modelled in Dafny

This project models two C homework programs and proves properties of them.

**K-means clustering (hw-2).** A store holds points with integer coordinates
and the cluster centers. The shared kernel has three operations:

- `SquareEuclideanDistance` computes the squared distance between two points.
- `ClusterSort` assigns every point of a half-open batch to its nearest
  center and counts the points that changed cluster.
- `FindClusterCenter` moves one center to the integer mean of its members.

Two drivers run the algorithm:

- The serial driver loads the store from a binary file, seeds the centers
  with the first points, and repeats sort-then-recenter until at most 1% of
  the points move.
- The multi-process driver splits the points into one batch per worker.
  It adds up the workers' change counts, hands each cluster index to the
  workers once, and repeats while any point moves. Its workers are small
  state machines that signals drive.

**Schedule input (hw-1).** The model covers:

- the line validators for begin time, lesson type, duration, day, year and
  group;
- the slot index of a (group, year) pair;
- the copy of a text line;
- `AddLesson`, which reads a lesson and inserts it, ordered by begin time,
  into the growable array of its slot.

The modules follow the source files:

| module | file | source |
|---|---|---|
| `Wrappers` | wrappers.dfy | `Option`, standing in for nullable pointers |
| `Arithmetic` | arith.dfy | the conversion to a 32-bit C `int`, shared by both programs, and small division facts used by the proofs |
| `Kmeans` | kmeans.dfy | hw-2/kmeans_libs/src/kmeans.c, hw-2/kmeans_libs/inc/kmeans.h |
| `KmeansSerial` | kmeans_serial.dfy | hw-2/kmeans_libs/src/kmeans_serial.c |
| `KmeansMultiprocess` | kmeans_multiprocess.dfy | hw-2/kmeans_libs/src/kmeans_multiprocess.c |
| `SchedulePrivate` | schedule_private.dfy | hw-1/schedule/schedule_private.h |
| `Schedule` | schedule.dfy | hw-1/schedule/schedule.c, hw-1/schedule/schedule.h |

Code that updates memory in place is imperative Dafny:

- the store is a class `KMeans` whose points and centers are arrays;
- the slot is a class `Lessons` with its buffer;
- a worker is a class `Worker` with its phase number.

Each method is proved against a pure function. The properties are proved
about those functions:

- `SortBatch` and `CountChanged` for one batch;
- `Center` and `Recenter` for one center;
- `Iterate` and `Run` for the driver loop;
- `Batches` for the split;
- `InsertByTime` for the sorted insertion.

The drivers' loops have no bound in the source. The model runs them
through one generic function, `KmeansSerial.Run`, which takes the step, the
change count, the threshold and an iteration bound.

Some values are modelled at their C width where it matters:

- the slot index is a `size_t`;
- `%u` reads into an `unsigned int` and `%d` into an `int`;
- the mean of a cluster divides an `int` sum by a `size_t` count, which
  converts the sum to unsigned 64 bits and truncates the quotient back to a
  32-bit `int`.

## Model

| member | source | states |
|---|---|---|
| Kmeans.KMeans.constructor | hw-2/kmeans_libs/inc/kmeans.h:22-27 | a store with the given arrays and counts, which need not agree; it is valid exactly when each present array holds as many elements as its count |
| Kmeans.AbsDiff | hw-2/kmeans_libs/src/kmeans.c:43-45 | the per-axis delta is the absolute difference of the coordinates |
| Kmeans.SquareEuclideanDistance | hw-2/kmeans_libs/src/kmeans.c:33-49 | fails exactly when a point or the output is NULL, leaving the output unchanged; otherwise the output receives the squared distance |
| Kmeans.DistanceSymmetricAndSeparating | hw-2/kmeans_libs/src/kmeans.c:43-46 | the distance is symmetric and is zero exactly for equal points |
| Kmeans.DistanceExamples | hw-2/tests/kmeans_tests.cc:12-28 | the unit test's distances 0, 8 and 48, and its three NULL failures |
| Kmeans.Nearest | hw-2/kmeans_libs/src/kmeans.c:74-87 | the chosen index names one of the centers; with no centers it stays 0 |
| Kmeans.NearestIsFirstNearest | hw-2/kmeans_libs/src/kmeans.c:78-87 | the strict-less scan picks a center at minimal distance, and every earlier center is strictly farther |
| Kmeans.FirstNearestIsUnique | hw-2/kmeans_libs/src/kmeans.c:78-87 | any index with the first-nearest property is the one the scan picks |
| Kmeans.NearestCluster | hw-2/kmeans_libs/src/kmeans.c:74-87 | the inner loop returns the first nearest center |
| Kmeans.SortBatchAssignsFirstNearest | hw-2/kmeans_libs/src/kmeans.c:73-93 | after a batch is sorted, each of its points is in its first nearest cluster; other points and all coordinates are unchanged |
| Kmeans.CountChanged | hw-2/kmeans_libs/src/kmeans.c:89-92 | the count of points that change cluster is at most the batch size |
| Kmeans.CountChangedSplit | hw-2/kmeans_libs/src/kmeans.c:72-93 | the count over a range is the sum of the counts over two adjacent sub-ranges |
| Kmeans.CountChangedLocal | hw-2/kmeans_libs/src/kmeans.c:73-93 | the count over a batch depends only on the points of that batch |
| Kmeans.CountChangedZeroIffStable | hw-2/kmeans_libs/src/kmeans.c:89-92 | the count is zero exactly when sorting leaves every point where it was |
| Kmeans.ClusterSort | hw-2/kmeans_libs/src/kmeans.c:62-96 | fails exactly on each of the six argument checks and then changes nothing; otherwise the points become the sorted batch, the count is the number of points that changed cluster, and each batch point is in its first nearest cluster; the arrays must match the counts only when every check passes |
| Kmeans.ClusterSortTestExample | hw-2/tests/kmeans_tests.cc:56-78 | the unit test's store, whose counts exceed its one-element arrays, is refused by all six calls |
| Kmeans.SortRange | hw-2/kmeans_libs/src/kmeans.c:72-93 | the batch loop leaves the sorted batch and returns its change count |
| Arithmetic.ToInt | hw-2/kmeans_libs/src/kmeans.c:122-124 | the conversion to int keeps the value modulo 2^32 and lands in the int range; values already in that range are kept |
| Kmeans.AxisMean | hw-2/kmeans_libs/src/kmeans.c:122-124 | for a sum in [0, 2^31) the new coordinate is the floor of sum / count, and it is always a valid int |
| Kmeans.AxisMeanOfNegativeSum | hw-2/kmeans_libs/src/kmeans.c:122-124 | a negative sum is divided as unsigned: three members summing to -3 give 1431655764, not -1 |
| Kmeans.MemberCount | hw-2/kmeans_libs/src/kmeans.c:113-120 | the number of members among the first n points is at most n |
| Kmeans.EmptyClusterKeepsCenter | hw-2/kmeans_libs/src/kmeans.c:121-125 | a cluster with no members keeps its center |
| Kmeans.CenterWithinMembers | hw-2/kmeans_libs/src/kmeans.c:111-125 | when member coordinates lie in [0, hi] and no axis sum overflows, the new center lies in [0, hi] on every axis |
| Kmeans.CenterExample | hw-2/tests/kmeans_tests.cc:30-49 | the unit test's four members give the center (2, 2, 2) |
| Kmeans.Recenter | hw-2/kmeans_libs/src/kmeans.c:106-128 | recentering cluster k changes no other center |
| Kmeans.FindClusterCenter | hw-2/kmeans_libs/src/kmeans.c:106-128 | fails exactly for a NULL store or an index at or past clusters_cnt, and then changes nothing; otherwise the centers become Recenter of the old centers |
| KmeansSerial.DecodePoints | hw-2/kmeans_libs/src/kmeans_serial.c:48-51 | the loader stores points_cnt points, each assigned to cluster 0 |
| KmeansSerial.DecodeEncode | hw-2/kmeans_libs/src/kmeans_serial.c:35-51 | loading a file written from a point list gives back exactly those points, in order, in cluster 0 |
| KmeansSerial.CreatPoints | hw-2/kmeans_libs/src/kmeans_serial.c:23-56 | fails exactly for a NULL or occupied slot, an unopenable file, or more clusters than points, and then leaves the slot alone; otherwise the slot holds a fresh store with the header's counts and the decoded points |
| KmeansSerial.Seed | hw-2/kmeans_libs/src/kmeans_serial.c:71-73 | the first k centers are the first k points |
| KmeansSerial.RecenterPrefix | hw-2/kmeans_libs/src/kmeans_serial.c:79-82 | recentering clusters 0 .. n-1 keeps the number of centers |
| KmeansSerial.RecenterPrefixStep | hw-2/kmeans_libs/src/kmeans_serial.c:79-82 | recentering one more cluster extends the recentered prefix by that cluster |
| KmeansSerial.Iterate | hw-2/kmeans_libs/src/kmeans_serial.c:77-82 | one iteration keeps the number of points and centers |
| KmeansSerial.Run | hw-2/kmeans_libs/src/kmeans_serial.c:75-83 | a bounded run takes between one round and the bound |
| KmeansSerial.RoundsShift | hw-2/kmeans_libs/src/kmeans_serial.c:76-83 | one round followed by m rounds is m + 1 rounds |
| KmeansSerial.RunFinal | hw-2/kmeans_libs/src/kmeans_serial.c:76-83 | a run ends in the state after as many rounds as it counts |
| KmeansSerial.RunConverged | hw-2/kmeans_libs/src/kmeans_serial.c:83 | a run reports convergence exactly when its last round's change count is within the threshold |
| KmeansSerial.RunExceededBefore | hw-2/kmeans_libs/src/kmeans_serial.c:76-83 | every round before the last moved more points than the threshold allows |
| KmeansSerial.RunConvergedLast | hw-2/kmeans_libs/src/kmeans_serial.c:83 | a converged run's last round was within the threshold |
| KmeansSerial.RunExhausted | hw-2/kmeans_libs/src/kmeans_serial.c:76-83 | a run that did not converge used up every round it was allowed |
| KmeansSerial.RunIsRun | hw-2/kmeans_libs/src/kmeans_serial.c:76-83 | a run takes 1 to fuel rounds, ends after them, every round but the last moved too many points, it converged exactly when the last did not, and otherwise it used up its rounds |
| KmeansSerial.DriverStep | hw-2/kmeans_libs/src/kmeans_serial.c:76-83 | one more pass of the loop keeps the driver's relation to Run |
| KmeansSerial.DriverExit | hw-2/kmeans_libs/src/kmeans_serial.c:76-83 | when the loop stops, it has computed Run from the start state |
| KmeansSerial.SeedClusters | hw-2/kmeans_libs/src/kmeans_serial.c:71-73 | the seeding loop sets the centers to the first points |
| KmeansSerial.RecenterAll | hw-2/kmeans_libs/src/kmeans_serial.c:79-82 | the recentering loop recomputes every center, in index order |
| KmeansSerial.SerialIteration | hw-2/kmeans_libs/src/kmeans_serial.c:77-82 | one pass changes the store to Iterate of it and returns the number of points that moved |
| KmeansSerial.RunSerial | hw-2/kmeans_libs/src/kmeans_serial.c:75-83 | the do-while loop with the 1% threshold computes Run on the store's contents |
| KmeansSerial.StartAlgorithm | hw-2/kmeans_libs/src/kmeans_serial.c:64-86 | fails exactly for a NULL store, no points, no clusters, or more clusters than points, and then changes nothing; otherwise the result is the run from the seeded centers |
| KmeansMultiprocess.BatchStart | hw-2/kmeans_libs/src/kmeans_multiprocess.c:259-266 | every batch start lies within [0, n] |
| KmeansMultiprocess.Batches | hw-2/kmeans_libs/src/kmeans_multiprocess.c:259-271 | there is one batch per worker |
| KmeansMultiprocess.SplitBatches | hw-2/kmeans_libs/src/kmeans_multiprocess.c:259-271 | the split loop produces Batches |
| KmeansMultiprocess.ClosedStep | hw-2/kmeans_libs/src/kmeans_multiprocess.c:265-266 | the loop's quotient (n - start) / (w - i) is the closed-form size of batch i |
| KmeansMultiprocess.BatchStartClosed | hw-2/kmeans_libs/src/kmeans_multiprocess.c:259-266 | the split loop's batch starts follow the closed form: the last n % w batches get one point more |
| KmeansMultiprocess.BatchesPartition | hw-2/kmeans_libs/src/kmeans_multiprocess.c:259-266 | the batches partition [0, n): the first starts at 0, each starts where the previous ended, none is reversed, and the last ends at n |
| KmeansMultiprocess.BatchSize | hw-2/kmeans_libs/src/kmeans_multiprocess.c:265-266 | batch i holds n / w points, plus one for the last n % w batches |
| KmeansMultiprocess.BatchesBalanced | hw-2/kmeans_libs/src/kmeans_multiprocess.c:259-266 | every batch holds between floor(n / w) and ceil(n / w) points, and sizes never decrease |
| KmeansMultiprocess.EveryPointInOneBatch | hw-2/kmeans_libs/src/kmeans_multiprocess.c:259-266 | every point index below n lies in exactly one batch |
| KmeansMultiprocess.BatchStartStep | hw-2/kmeans_libs/src/kmeans_multiprocess.c:265-266 | no batch ends before it starts |
| KmeansMultiprocess.BatchStartGrows | hw-2/kmeans_libs/src/kmeans_multiprocess.c:259-266 | batch starts never decrease |
| KmeansMultiprocess.BatchStartsGrow | hw-2/kmeans_libs/src/kmeans_multiprocess.c:259-266 | batch starts never decrease, for all pairs at once |
| KmeansMultiprocess.LastBatchStartingBy | hw-2/kmeans_libs/src/kmeans_multiprocess.c:259-266 | names the batch that contains a given point index |
| KmeansMultiprocess.SumReports | hw-2/kmeans_libs/src/kmeans_multiprocess.c:272-278 | the collection loop adds up every worker's report |
| KmeansMultiprocess.Reports | hw-2/kmeans_libs/src/kmeans_multiprocess.c:274-278 | one report per worker |
| KmeansMultiprocess.ReportsCoverPrefix | hw-2/kmeans_libs/src/kmeans_multiprocess.c:272-278 | the reports of the first k workers add up to the count over the points their batches cover |
| KmeansMultiprocess.ReportsAddUp | hw-2/kmeans_libs/src/kmeans_multiprocess.c:272-278 | the parent's sum equals the change count of one pass over all points |
| KmeansMultiprocess.SortBatchCompose | hw-2/kmeans_libs/src/kmeans_multiprocess.c:256-271 | sorting [lo, mid) and then [mid, hi) is sorting [lo, hi) |
| KmeansMultiprocess.SortNextBatch | hw-2/kmeans_libs/src/kmeans_multiprocess.c:175-186 | a worker sorting its batch after the earlier batches extends the sorted prefix, and its count is its own batch's |
| KmeansMultiprocess.SortOneBatch | hw-2/kmeans_libs/src/kmeans_multiprocess.c:173-186 | after SIGUSR1 a worker's pass sorts its batch and returns that batch's change count |
| KmeansMultiprocess.SortPhase | hw-2/kmeans_libs/src/kmeans_multiprocess.c:256-278 | the sort phase sorts every point and yields one report per batch |
| KmeansMultiprocess.ParallelIteration | hw-2/kmeans_libs/src/kmeans_multiprocess.c:253-292 | one parallel round, whose sort and center work both go through Worker.Pass, changes the store exactly as a serial iteration does and returns the same change count |
| KmeansMultiprocess.CenterOne | hw-2/kmeans_libs/src/kmeans_multiprocess.c:188-199 | after SIGUSR2 a worker's pass recomputes exactly the center whose index it was sent |
| KmeansMultiprocess.CenterPhase | hw-2/kmeans_libs/src/kmeans_multiprocess.c:281-292 | the centers become RecenterInOrder over the indices the parent dispatches |
| KmeansMultiprocess.RecenterInOrder | hw-2/kmeans_libs/src/kmeans_multiprocess.c:281-292 | recentering in a given order keeps the number of centers |
| KmeansMultiprocess.RecenterInOrderEntries | hw-2/kmeans_libs/src/kmeans_multiprocess.c:189-201 | with no index repeated, exactly the handed-out centers are recomputed |
| KmeansMultiprocess.CenterPhaseOrderFree | hw-2/kmeans_libs/src/kmeans_multiprocess.c:285-292 | if every index is handed out exactly once, the order the workers take them in does not change the centers |
| KmeansMultiprocess.CenterDispatch | hw-2/kmeans_libs/src/kmeans_multiprocess.c:285-289 | the parent sends the indices 0 .. clusters_cnt-1 in order |
| KmeansMultiprocess.CenterDispatchOnce | hw-2/kmeans_libs/src/kmeans_multiprocess.c:285-289 | every cluster index is sent exactly once and each is valid |
| KmeansMultiprocess.ZeroThresholdMeansAnyChange | hw-2/kmeans_libs/src/kmeans_multiprocess.c:293 | with the zero threshold, the loop goes on exactly while some point moved |
| KmeansMultiprocess.LastRoundStable | hw-2/kmeans_libs/src/kmeans_multiprocess.c:253-293 | when the last round moved no point, sorting again keeps every point, and each point is in its first nearest cluster |
| KmeansMultiprocess.RunParallel | hw-2/kmeans_libs/src/kmeans_multiprocess.c:252-293 | the parent's loop computes Run with the zero threshold |
| KmeansMultiprocess.StartAlgorithm | hw-2/kmeans_libs/src/kmeans_multiprocess.c:216-303 | seeds the centers. A failed fork returns FAILURE with the store only seeded. Otherwise the result is the run from the seeded centers |
| KmeansMultiprocess.HandlerPhase | hw-2/kmeans_libs/src/kmeans_multiprocess.c:37-49 | any signal other than SIGUSR1 and SIGUSR2 leaves the phase as it was |
| KmeansMultiprocess.PhaseAfter | hw-2/kmeans_libs/src/kmeans_multiprocess.c:171-205 | a phase that does work returns to 0; an idle phase stays |
| KmeansMultiprocess.Worker.constructor | hw-2/kmeans_libs/src/kmeans_multiprocess.c:35 | a worker starts in phase 0 with no signal reset |
| KmeansMultiprocess.Worker.Handler | hw-2/kmeans_libs/src/kmeans_multiprocess.c:37-49 | SIGUSR1 sets phase 1, SIGUSR2 sets phase 2, and any other signal gets its default action back |
| KmeansMultiprocess.Worker.Pass | hw-2/kmeans_libs/src/kmeans_multiprocess.c:171-205 | phase 1 sorts the received batch and reports its count (0 when ClusterSort fails); phase 2 recomputes the received center; phase 1 may write only the points and phase 2 only the centers; both go back to phase 0; phase 0 changes nothing |
| KmeansMultiprocess.OneWorkPerSignal | hw-2/kmeans_libs/src/kmeans_multiprocess.c:37-49 | after one signal a pass does at most that signal's work, and the next pass is idle |
| KmeansMultiprocess.IdleWorkerStaysIdle | hw-2/kmeans_libs/src/kmeans_multiprocess.c:202-203 | with no signal, an idle worker does nothing on any pass |
| SchedulePrivate.GroupYearIndex | hw-1/schedule/schedule_private.h:28-30 | the slot index is a size_t |
| SchedulePrivate.GroupYearIndexIsProduct | hw-1/schedule/schedule_private.h:28-30 | the index is (year - 1) * group modulo 2^64 |
| SchedulePrivate.GroupYearIndexInBlock | hw-1/schedule/schedule_private.h:28-30 | every accepted (group, year) lands at most at index 6, inside the 8 slots of a day |
| SchedulePrivate.GroupYearIndexCollisions | hw-1/schedule/schedule_private.h:28-30 | two accepted pairs share a slot exactly when they are equal, both are in year 1, or they are (group 1, year 3) and (group 2, year 2) |
| SchedulePrivate.EndLine | hw-1/schedule/schedule_private.h:23-24 | a '\n' in the last cell becomes '\0'; every other cell is unchanged |
| SchedulePrivate.EndLineIdempotent | hw-1/schedule/schedule_private.h:24 | ending a line twice is ending it once, and the result has no '\n' in its last cell |
| SchedulePrivate.EndLineExample | hw-1/schedule/schedule_private.h:24 | "Math\n" becomes "Math\0"; a line without '\n' is unchanged |
| SchedulePrivate.CopyString | hw-1/schedule/schedule_private.h:23-27 | the source buffer gets its line ended in place; the fresh copy holds exactly its first len characters |
| Schedule.ScanCount | hw-1/schedule/schedule.c:34 | sscanf never reports more conversions than the format has |
| Schedule.ScanUnsigned | hw-1/schedule/schedule.c:34 | %u stores a value below 2^32, and numbers already in that range unchanged |
| Schedule.AddBeginTime | hw-1/schedule/schedule.c:25-41 | returns 0 or -1; -1 leaves the time unchanged; 0 stores at most (24 * 60 + 60) * 60 seconds |
| Schedule.BeginTimeRoundTrip | hw-1/schedule/schedule.c:34-37 | accepted exactly when hh <= 24 and mm <= 60; for mm < 60 the stored seconds give back hh and mm |
| Schedule.BeginTimeExamples | hw-1/tests/test.cc:48-56 | "12 00" is noon; "1200", "12:00" and "qwerty" are refused; end of input is refused |
| Schedule.AddLessonType | hw-1/schedule/schedule.c:43-67 | returns 0 or -1; -1 leaves the type unchanged |
| Schedule.LessonTypeRoundTrip | hw-1/schedule/schedule.c:51-63 | accepted exactly when the number read with %d is 1 or 2 as an int; an accepted line reads back as the type with that number |
| Schedule.LessonTypeExamples | hw-1/tests/test.cc:61-68 | "2" is a seminar; "0" and "qwerty" are refused |
| Schedule.AddDuration | hw-1/schedule/schedule.c:69-84 | returns 0 or -1; -1 leaves the duration unchanged; 0 stores a whole number of 40-minute hours, at most 24 of them |
| Schedule.DurationRoundTrip | hw-1/schedule/schedule.c:77-81 | accepted exactly for 0 .. 24 academic hours; the stored seconds give the hours back |
| Schedule.DurationExamples | hw-1/tests/test.cc:73-80 | "5" is accepted as 12000 seconds; "30" and "qwerty" are refused |
| Schedule.InRange | hw-1/schedule/schedule.c:157-172 | accepted exactly when one field was read and its %d value as an int lies in [1, max]; that int is then stored, and otherwise the value is unchanged |
| Schedule.GetDay | hw-1/schedule/schedule.c:157-172 | an accepted day is 1 .. 7 |
| Schedule.GetYear | hw-1/schedule/schedule.c:273-287 | an accepted year is 1 .. 4 |
| Schedule.GetGroup | hw-1/schedule/schedule.c:289-303 | an accepted group is 1 or 2 |
| Schedule.RangeValidatorsAccept | hw-1/schedule/schedule.c:273-303 | day, year and group accept exactly the numbers whose int value is in 1..7, 1..4 and 1..2 and store that value; a refused or missing line leaves the value unchanged |
| Schedule.WideNumbersWrap | hw-1/schedule/schedule.c:51-63 | numbers past the int range are cut to 32 bits: "4294967297" passes as a lecture, day 1 or year 1 ("-4294967295" too), "4294967298" as a seminar or group 2 |
| Schedule.AcceptedSlotInBlock | hw-1/schedule/schedule.c:218-220 | an accepted year and group always name a slot inside the day's block |
| Schedule.TextField | hw-1/schedule/schedule.c:86-121 | a text field is read exactly when fgets returned a line; the stored text has that length and no '\n' at the end |
| Schedule.ReadLesson | hw-1/schedule/schedule.c:200-217 | an accepted lesson has begin time, duration, year and group in their ranges |
| Schedule.ReadLessonExample | hw-1/tests/test.cc:24-26 | the test's input reads as the 12:00 lecture of 3 academic hours (7200 s) for year 1, group 2 |
| Schedule.InsertByTimeSplits | hw-1/schedule/schedule.c:233-247 | the new lesson goes between the old lessons, which keep their order; those after it begin strictly later, and the one before it does not |
| Schedule.InsertByTimeSorted | hw-1/schedule/schedule.c:233-247 | inserting into a sorted slot keeps it sorted |
| Schedule.InsertByTimePermutes | hw-1/schedule/schedule.c:233-247 | the new slot holds the old lessons plus the new one, each exactly once |
| Schedule.InsertByTimeAfterEqual | hw-1/schedule/schedule.c:233-247 | in a sorted slot, the new lesson follows every lesson beginning at the same time or earlier |
| Schedule.StopsAt | hw-1/schedule/schedule.c:235-244 | the shift loop stops at the insertion position |
| Schedule.ShiftInsert | hw-1/schedule/schedule.c:233-248 | the buffer's first n + 1 cells become the sorted insertion of the lesson into the first n, and later cells are untouched |
| Schedule.ShiftLater | hw-1/schedule/schedule.c:235-244 | the loop moves the trailing lessons that begin strictly later one cell right and stops at the first lesson that does not, leaving that one in place |
| Schedule.NextCapacity | hw-1/schedule/schedule.c:221-231 | when a lesson is accepted, the new capacity exceeds the old count |
| Schedule.NextCapacityWhenFull | hw-1/schedule/schedule.c:221-231 | a slot accepts a lesson exactly when it is full, an empty slot counting as full |
| Schedule.SlotHoldsAtMostOneLesson | hw-1/schedule/schedule.c:221-231 | as written, a fresh slot takes one lesson with room for two, then refuses every later one |
| Schedule.Lessons.constructor | hw-1/schedule/schedule.c:177-178 | calloc's slot: no lessons, no capacity, no buffer |
| Schedule.Lessons.Add | hw-1/schedule/schedule.c:221-248 | accepts exactly when the capacity rule allows. Its contents then become the sorted insertion of the lesson, with the new capacity. A refusal changes nothing |
| Schedule.AddLesson | hw-1/schedule/schedule.c:200-249 | an unreadable lesson returns -1 and changes nothing. A read lesson goes to the slot of its (group, year), which takes it as Lessons.Add does: accepted exactly when the capacity rule allows, then one more lesson, the new capacity, a fresh buffer and the sorted insertion; a refusal changes nothing. No other slot changes |
| Schedule.AddLessonTwice | hw-1/schedule/schedule.c:177-184 | on a fresh day's block the first AddLesson of a readable lesson succeeds and the same lesson read again is refused |

## Left out

- Inter-process communication is not modelled: message queues, the text
  encoding of batches and counts, `fork`, `kill`, `waitpid` and signal
  delivery. The multi-process workers' effects on the shared store run in
  sequence, in worker order, each as one pass of a `Worker` that has just
  received its signal (`SortOneBatch`, `CenterOne`). Order independence is proved for the center
  phase (`CenterPhaseOrderFree`). For the sort phase, each worker writes
  only its own batch and its count depends only on that batch
  (`CountChangedLocal`).
- `SendMessage`, `ReadMessage`, `StartChildWork`'s I/O and the `printf`
  logging are not modelled. A `fork` failure is an input, `forked`.
- The multi-process `CreatPoints` is not modelled. It builds a fixed
  12-point store in shared memory from `rand()`.
- `DeletePoints` of both drivers (memory release) and `PrintClusters`
  (output) are not modelled.
- Neither is the earlier draft under hw-2/kmeans_lib.
- KmeansSerial.Run: the drivers' loops have no bound in the source. The
  model stops after a given number of iterations and then reports
  `converged == false`.
- KmeansSerial.StartAlgorithm and KmeansMultiprocess.StartAlgorithm: the
  float test `changed / points_cnt > threshold` is stated on integers. It is
  `100 * changed > points_cnt` for 0.01 and `changed > 0` for 0.
  Float rounding is not modelled.
- KmeansMultiprocess.StartAlgorithm: it requires `0 < clusters_cnt <=
  points_cnt`, which the source does not check. Its store must come from
  `CreatPoints`. With no clusters the process array has length zero.
- Kmeans.SquareEuclideanDistance: the distance is computed on unbounded
  integers. The `abs` of `INT_MIN`, `int` overflow of a coordinate difference
  and `unsigned long` wrap-around of the sum are not modelled.
- Kmeans.NearestCluster: the source starts the running minimum at
  `ULONG_MAX`. The model takes the first center unconditionally, which
  agrees whenever distances are below `ULONG_MAX`.
- Kmeans.FindClusterCenter: the axis sums are unbounded. The `int` overflow
  of a sum is not modelled. The conversion of a negative sum to unsigned
  before the division is modelled (`AxisMean`).
- KmeansSerial.CreatPoints: the source never checks its `fread` calls. The
  model requires the file to hold every record that its header announces.
  A short file is therefore not modelled.
- Schedule.Lessons.Add: the capacity is counted in lessons. The source's
  `realloc` passes a byte count equal to the new lesson count. That path is
  never reached from a fresh slot (`SlotHoldsAtMostOneLesson`), and
  `realloc` failure is not modelled either.
- Schedule.Lessons.Add: `size_t` overflow of the doubled capacity is not
  modelled.
- Schedule.ReadLesson: the static `lesson_buf` keeps partial writes from a
  refused lesson. The model does not keep them: a refused lesson changes no
  slot, and an accepted one overwrites every field.
- Schedule.ReadLesson: `fgets` truncation of long lines is not modelled,
  nor the text left in the stream for the next read. The model receives
  each line already split into the numbers `sscanf` matched, or the raw
  text.
- Schedule.ScanUnsigned: `%u` of a number beyond the range of
  `unsigned long` is not modelled.
- Schedule.InRange and Schedule.AddLessonType: `%d` of a number beyond the
  range of `long` is not modelled; such a number is cut to 32 bits like any
  other.
- Schedule.GetYear and Schedule.GetGroup: the prompts of `AddYear` and
  `AddGroup` are output only. Those two functions are otherwise these
  validators.
- Not modelled: `CreateSchedule`, `PrintSchedule`, `PrintLesson`,
  `DeleteSchedule` and the `free_*` helpers. They handle whole-schedule
  I/O and memory release around `AddLesson`.
- `AddSubject`, `AddTeacher` and `AddClassroom` appear through
  `TextField`. Their heap copies are the `CopyString` method.
