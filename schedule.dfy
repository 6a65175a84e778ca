/**
 * The schedule tool's input rules and its per-slot lesson store.
 *
 * Each validator reads one line with fgets and scans it with sscanf; the
 * model receives what that scan produced (a Line) and returns the status
 * code together with the value left in the out-parameter. AddLesson reads a
 * whole lesson, picks the (group, year) slot of one day and inserts the
 * lesson there, keeping the slot ordered by begin time.
 */
module Schedule {
  import opened Wrappers
  import opened SchedulePrivate
  import opened Arithmetic

  const AcademicHourInMinutes: nat := 40
  const MinutesInHour: nat := 60
  const SecondsInMinute: nat := 60
  const HoursInDay: nat := 24
  const DaysInWeek: int := 7
  const MinArrSize: nat := 2

  /**
   * One input line after sscanf: NoLine when fgets hit end of input, else
   * the numbers the format's conversions matched at the start of the line,
   * in order, up to the first one that did not match.
   */
  datatype Line = NoLine | Line(fields: seq<int>)

  /** A status code (0 or -1) and the value the out-parameter holds afterwards. */
  datatype Reply<T> = Reply(code: int, value: T)

  /** sscanf's count for a format with n conversions (a line with no match counts as fewer than n). */
  function ScanCount(line: Line, n: nat): (r: nat)
    ensures r <= n
  {
    if line.NoLine? then 0 else if |line.fields| < n then |line.fields| else n
  }

  /** What %u stores for a number read as v: v taken modulo 2^32, so "-1" reads as 4294967295. */
  function ScanUnsigned(v: int): (r: nat)
    ensures r < UIntModulus
    ensures 0 <= v < UIntModulus ==> r == v
  {
    v % UIntModulus
  }

  // ---------------------------------------------------------------------
  // The validators
  // ---------------------------------------------------------------------

  /** AddBeginTime: "hh mm" with hh <= 24 and mm <= 60, stored as seconds since midnight. */
  function AddBeginTime(line: Line, beginTime: int): (r: Reply<int>)
    ensures r.code == 0 || r.code == -1
    ensures r.code == -1 ==> r.value == beginTime
    ensures r.code == 0 ==> 0 <= r.value <= (HoursInDay * MinutesInHour + MinutesInHour) * SecondsInMinute
  {
    if ScanCount(line, 2) == 2 then
      var hh, mm := ScanUnsigned(line.fields[0]), ScanUnsigned(line.fields[1]);
      if hh <= HoursInDay && mm <= MinutesInHour then Reply(0, (hh * MinutesInHour + mm) * SecondsInMinute)
      else Reply(-1, beginTime)
    else Reply(-1, beginTime)
  }

  /**
   * The begin time is accepted exactly for two fields in range, and the
   * stored seconds give back the hour and the minute the line held.
   */
  lemma BeginTimeRoundTrip(hh: nat, mm: nat, rest: seq<int>, beginTime: int)
    requires hh < UIntModulus && mm < UIntModulus
    ensures var r := AddBeginTime(Line([hh, mm] + rest), beginTime);
      (r.code == 0 <==> hh <= HoursInDay && mm <= MinutesInHour)
    ensures var r := AddBeginTime(Line([hh, mm] + rest), beginTime);
      r.code == 0 && mm < MinutesInHour ==> r.value / 3600 == hh && (r.value % 3600) / 60 == mm
  {
    var r := AddBeginTime(Line([hh, mm] + rest), beginTime);
    if r.code == 0 && mm < MinutesInHour {
      assert r.value == hh * 3600 + mm * 60;
      DivUnique(r.value, 3600, hh);
      assert r.value % 3600 == mm * 60;
      DivUnique(mm * 60, 60, mm);
    }
  }

  /** The unit test's lines: "12 00" is noon; "1200", "12:00" and "qwerty" are refused. */
  lemma BeginTimeExamples(t: int)
    ensures AddBeginTime(Line([12, 0]), t) == Reply(0, 43200)
    ensures AddBeginTime(Line([1200]), t) == Reply(-1, t)
    ensures AddBeginTime(Line([12]), t) == Reply(-1, t)
    ensures AddBeginTime(Line([]), t) == Reply(-1, t)
    ensures AddBeginTime(NoLine, t) == Reply(-1, t)
  {
  }

  /** The two kinds of lesson, numbered 1 and 2 in the input. */
  datatype LessonType = Lecture | Seminar

  /**
   * AddLessonType: 1 is a lecture, 2 a seminar, anything else is refused.
   * The number is read with %d, so it is first cut to a 32-bit int.
   */
  function AddLessonType(line: Line, kind: LessonType): (r: Reply<LessonType>)
    ensures r.code == 0 || r.code == -1
    ensures r.code == -1 ==> r.value == kind
  {
    if ScanCount(line, 1) == 1 then
      var n := ToInt(line.fields[0]);
      if n == 1 then Reply(0, Lecture)
      else if n == 2 then Reply(0, Seminar)
      else Reply(-1, kind)
    else Reply(-1, kind)
  }

  /** The number of a lesson type in the input. */
  function TypeNumber(kind: LessonType): int
  {
    match kind
    case Lecture => 1
    case Seminar => 2
  }

  /** A line holding a lesson type's number reads back as that type, and only such lines are accepted. */
  lemma LessonTypeRoundTrip(v: int, rest: seq<int>, kind: LessonType)
    ensures var r := AddLessonType(Line([v] + rest), kind);
      r.code == 0 <==> ToInt(v) == 1 || ToInt(v) == 2
    ensures var r := AddLessonType(Line([v] + rest), kind);
      r.code == 0 ==> TypeNumber(r.value) == ToInt(v)
    ensures forall k: LessonType :: AddLessonType(Line([TypeNumber(k)] + rest), kind) == Reply(0, k)
  {
  }

  /** The unit test's lines: "2" is a seminar; "0" and "qwerty" are refused. */
  lemma LessonTypeExamples()
    ensures AddLessonType(Line([2]), Lecture) == Reply(0, Seminar)
    ensures AddLessonType(Line([0]), Seminar) == Reply(-1, Seminar)
    ensures AddLessonType(Line([]), Lecture) == Reply(-1, Lecture)
  {
  }

  /** AddDuration: n academic hours, n <= 24, stored as n * 40 minutes in seconds. */
  function AddDuration(line: Line, duration: int): (r: Reply<int>)
    ensures r.code == 0 || r.code == -1
    ensures r.code == -1 ==> r.value == duration
    ensures r.code == 0 ==> 0 <= r.value <= HoursInDay * AcademicHourInMinutes * SecondsInMinute
    ensures r.code == 0 ==> r.value % (AcademicHourInMinutes * SecondsInMinute) == 0
  {
    if ScanCount(line, 1) == 1 then
      var n := ScanUnsigned(line.fields[0]);
      if n <= HoursInDay then Reply(0, n * AcademicHourInMinutes * SecondsInMinute)
      else Reply(-1, duration)
    else Reply(-1, duration)
  }

  /** A duration is accepted exactly for 0..24 academic hours, and the seconds stored give the hours back. */
  lemma DurationRoundTrip(n: nat, rest: seq<int>, duration: int)
    requires n < UIntModulus
    ensures var r := AddDuration(Line([n] + rest), duration);
      (r.code == 0 <==> n <= HoursInDay) && (r.code == 0 ==> r.value / 2400 == n)
  {
    var r := AddDuration(Line([n] + rest), duration);
    if r.code == 0 {
      DivUnique(r.value, 2400, n);
    }
  }

  /** The unit test's lines: 5 academic hours are accepted; 30 and "qwerty" are refused. */
  lemma DurationExamples(d: int)
    ensures AddDuration(Line([5]), d) == Reply(0, 12000)
    ensures AddDuration(Line([30]), d) == Reply(-1, d)
    ensures AddDuration(Line([]), d) == Reply(-1, d)
  {
  }

  /**
   * A %d field, cut to a 32-bit int, accepted when it lies in [1, max];
   * the out-parameter is written only then.
   */
  function InRange(line: Line, max: int, current: int): (r: Reply<int>)
    ensures r.code == 0 || r.code == -1
    ensures r.code == 0 <==> ScanCount(line, 1) == 1 && 0 < ToInt(line.fields[0]) <= max
    ensures r.code == 0 ==> r.value == ToInt(line.fields[0])
    ensures r.code == -1 ==> r.value == current
  {
    if ScanCount(line, 1) == 1 && ToInt(line.fields[0]) <= max && ToInt(line.fields[0]) > 0 then
      Reply(0, ToInt(line.fields[0]))
    else Reply(-1, current)
  }

  /** GetDay: a day of the week, Monday 1 to Sunday 7. */
  function GetDay(line: Line, day: int): (r: Reply<int>)
    ensures r.code == 0 ==> 0 <= r.value - 1 < DaysInWeek
  {
    InRange(line, DaysInWeek, day)
  }

  /** GetYear: a year of study, 1 to 4. */
  function GetYear(line: Line, year: int): (r: Reply<int>)
    ensures r.code == 0 ==> 1 <= r.value <= MaxYear
  {
    InRange(line, MaxYear, year)
  }

  /** GetGroup: a group, 1 or 2. */
  function GetGroup(line: Line, group: int): (r: Reply<int>)
    ensures r.code == 0 ==> 1 <= r.value <= MaxGroups
  {
    InRange(line, MaxGroups, group)
  }

  /**
   * What the three range validators accept: exactly the numbers whose int
   * value is in their range, which they store as that int; a refused line
   * leaves the value alone.
   */
  lemma RangeValidatorsAccept(v: int, rest: seq<int>, current: int)
    ensures var n := ToInt(v);
      GetDay(Line([v] + rest), current) == (if 1 <= n <= 7 then Reply(0, n) else Reply(-1, current))
    ensures var n := ToInt(v);
      GetYear(Line([v] + rest), current) == (if 1 <= n <= 4 then Reply(0, n) else Reply(-1, current))
    ensures var n := ToInt(v);
      GetGroup(Line([v] + rest), current) == (if 1 <= n <= 2 then Reply(0, n) else Reply(-1, current))
    ensures GetDay(NoLine, current) == GetYear(NoLine, current) == GetGroup(NoLine, current) == Reply(-1, current)
  {
  }

  /**
   * %d keeps only the low 32 bits of what it reads: "4294967297" and
   * "4294967298" pass as 1 and 2, and "-4294967295" as 1 too.
   */
  lemma WideNumbersWrap(kind: LessonType, current: int)
    ensures AddLessonType(Line([4294967297]), Seminar) == Reply(0, Lecture)
    ensures AddLessonType(Line([4294967298]), kind) == Reply(0, Seminar)
    ensures GetDay(Line([4294967297]), current) == Reply(0, 1)
    ensures GetYear(Line([-4294967295]), current) == Reply(0, 1)
    ensures GetGroup(Line([4294967298]), current) == Reply(0, 2)
  {
  }

  /** An accepted year and group always name a slot inside the day's block. */
  lemma AcceptedSlotInBlock(yearLine: Line, groupLine: Line, year: int, group: int)
    requires GetYear(yearLine, year).code == 0 && GetGroup(groupLine, group).code == 0
    ensures GroupYearIndex(GetGroup(groupLine, group).value, GetYear(yearLine, year).value)
      < MaxGroups * MaxYear
  {
    GroupYearIndexInBlock(GetGroup(groupLine, group).value, GetYear(yearLine, year).value);
  }

  // ---------------------------------------------------------------------
  // Reading a lesson
  // ---------------------------------------------------------------------

  /** One lesson as stored in a slot. */
  datatype Lesson = Lesson(
    beginTime: int, kind: LessonType, duration: int,
    subject: seq<char>, teacher: seq<char>, classroom: seq<char>,
    year: int, group: int)

  /**
   * The eight lines AddLesson reads, in order. The text fields hold what
   * fgets returned (None at end of input), through the line's '\n'.
   */
  datatype LessonInput = LessonInput(
    begin: Line, kind: Line, duration: Line,
    subject: Option<seq<char>>, teacher: Option<seq<char>>, classroom: Option<seq<char>>,
    year: Line, group: Line)

  /** copy_string needs at least one character: every text line fgets returned is non-empty. */
  predicate TextLinesNonEmpty(input: LessonInput)
  {
    && (input.subject.Some? ==> |input.subject.value| >= 1)
    && (input.teacher.Some? ==> |input.teacher.value| >= 1)
    && (input.classroom.Some? ==> |input.classroom.value| >= 1)
  }

  /** AddSubject, AddTeacher, AddClassroom: a line read is kept with its '\n' turned into '\0'. */
  function TextField(line: Option<seq<char>>): (r: Option<seq<char>>)
    requires line.Some? ==> |line.value| >= 1
    ensures r.Some? <==> line.Some?
    ensures r.Some? ==> |r.value| == |line.value| && r.value[|r.value| - 1] != '\n'
  {
    if line.None? then None
    else
      EndLineIdempotent(line.value, |line.value|);
      Some(EndLine(line.value, |line.value|))
  }

  /**
   * The validators of AddLesson in their order: the first one that refuses
   * its line ends the read. The begin time, type and duration start from
   * the zero values; an accepted lesson does not depend on them.
   */
  function ReadLesson(input: LessonInput): (r: Option<Lesson>)
    requires TextLinesNonEmpty(input)
    ensures r.Some? ==>
      && 0 <= r.value.beginTime <= 90000
      && 0 <= r.value.duration <= 57600
      && 1 <= r.value.year <= MaxYear && 1 <= r.value.group <= MaxGroups
  {
    var begin := AddBeginTime(input.begin, 0);
    var kind := AddLessonType(input.kind, Lecture);
    var duration := AddDuration(input.duration, 0);
    var subject := TextField(input.subject);
    var teacher := TextField(input.teacher);
    var classroom := TextField(input.classroom);
    var year := GetYear(input.year, 0);
    var group := GetGroup(input.group, 0);
    if begin.code != 0 || kind.code != 0 || duration.code != 0 || subject.None? || teacher.None?
       || classroom.None? || year.code != 0 || group.code != 0 then None
    else
      Some(Lesson(begin.value, kind.value, duration.value, subject.value, teacher.value, classroom.value,
                  year.value, group.value))
  }

  /** The test input "12 00 / 1 / 3 / Math / Vasileva D.S. / 904l / 1 / 2" reads as a lesson for year 1, group 2. */
  lemma ReadLessonExample()
    ensures ReadLesson(LessonInput(Line([12, 0]), Line([1]), Line([3]), Some("Math\n"), Some("Vasileva D.S.\n"),
                                   Some("904l\n"), Line([1]), Line([2])))
         == Some(Lesson(43200, Lecture, 7200, "Math\0", "Vasileva D.S.\0", "904l\0", 1, 2))
  {
    assert EndLine("Math\n", 5) == "Math\0";
    assert EndLine("Vasileva D.S.\n", 14) == "Vasileva D.S.\0";
    assert EndLine("904l\n", 5) == "904l\0";
  }

  // ---------------------------------------------------------------------
  // Sorted insertion
  // ---------------------------------------------------------------------

  /** Lessons in non-decreasing order of begin time. */
  predicate Sorted(s: seq<Lesson>)
  {
    forall i, j :: 0 <= i < j < |s| ==> s[i].beginTime <= s[j].beginTime
  }

  /**
   * The slot after the shift loop of AddLesson: walking from the end, every
   * lesson that begins strictly later moves one place right, and the new
   * lesson goes right after the first one that does not.
   */
  function InsertByTime(s: seq<Lesson>, x: Lesson): (r: seq<Lesson>)
    ensures |r| == |s| + 1
    decreases |s|
  {
    if s == [] || s[|s| - 1].beginTime <= x.beginTime then s + [x]
    else InsertByTime(s[..|s| - 1], x) + [s[|s| - 1]]
  }

  /** Where the new lesson lands. */
  function InsertPosition(s: seq<Lesson>, x: Lesson): (p: nat)
    ensures p <= |s|
    decreases |s|
  {
    if s == [] || s[|s| - 1].beginTime <= x.beginTime then |s|
    else InsertPosition(s[..|s| - 1], x)
  }

  /**
   * The new lesson is placed at its position with the old lessons around it
   * in their old order; those after it begin strictly later, and the one
   * just before it does not.
   */
  lemma {:induction false} InsertByTimeSplits(s: seq<Lesson>, x: Lesson)
    ensures var p := InsertPosition(s, x);
      && InsertByTime(s, x) == s[..p] + [x] + s[p..]
      && (forall i :: p <= i < |s| ==> s[i].beginTime > x.beginTime)
      && (p > 0 ==> s[p - 1].beginTime <= x.beginTime)
    decreases |s|
  {
    if s != [] && s[|s| - 1].beginTime > x.beginTime {
      var init, last := s[..|s| - 1], s[|s| - 1];
      InsertByTimeSplits(init, x);
      var p := InsertPosition(init, x);
      assert InsertPosition(s, x) == p;
      calc {
        InsertByTime(s, x);
        InsertByTime(init, x) + [last];
        init[..p] + [x] + init[p..] + [last];
        { assert s[..p] == init[..p]; assert s[p..] == init[p..] + [last]; }
        s[..p] + [x] + s[p..];
      }
      forall i | p <= i < |s|
        ensures s[i].beginTime > x.beginTime
      {
        if i < |s| - 1 {
          assert s[i] == init[i];
        }
      }
    } else {
      assert s[..|s|] == s;
    }
  }

  /** Inserting into a sorted slot keeps it sorted. */
  lemma InsertByTimeSorted(s: seq<Lesson>, x: Lesson)
    requires Sorted(s)
    ensures Sorted(InsertByTime(s, x))
  {
    InsertByTimeSplits(s, x);
    var p := InsertPosition(s, x);
    var r := InsertByTime(s, x);
    forall i, j | 0 <= i < j < |r|
      ensures r[i].beginTime <= r[j].beginTime
    {
      if j < p || i > p {
      } else if i == p {
        assert r[j] == s[j - 1];
      } else {
        assert r[i] == s[i];
        assert i <= p - 1;
      }
    }
  }

  /** The new slot holds the old lessons and the new one, nothing lost and nothing duplicated. */
  lemma InsertByTimePermutes(s: seq<Lesson>, x: Lesson)
    ensures multiset(InsertByTime(s, x)) == multiset(s) + multiset{x}
  {
    InsertByTimeSplits(s, x);
    var p := InsertPosition(s, x);
    var u, v := s[..p], s[p..];
    assert InsertByTime(s, x) == u + [x] + v;
    assert u + v == s;
    MultisetSplice(u, v, x);
  }

  lemma MultisetSplice(u: seq<Lesson>, v: seq<Lesson>, x: Lesson)
    ensures multiset(u + [x] + v) == multiset(u + v) + multiset{x}
  {
  }

  /** In a sorted slot the new lesson follows every lesson beginning at the same time or earlier. */
  lemma InsertByTimeAfterEqual(s: seq<Lesson>, x: Lesson)
    requires Sorted(s)
    ensures var p := InsertPosition(s, x);
      && (forall i :: 0 <= i < p ==> s[i].beginTime <= x.beginTime)
      && (forall i :: p <= i < |s| ==> s[i].beginTime > x.beginTime)
  {
    InsertByTimeSplits(s, x);
  }

  /**
   * AddLesson's placing of a new lesson into a buffer whose first n cells
   * hold the slot's lessons: the shift loop, then x written into the gap.
   */
  method ShiftInsert(a: array<Lesson>, n: nat, x: Lesson)
    requires n < a.Length
    modifies a
    ensures a[..n + 1] == InsertByTime(old(a[..n]), x)
    ensures a[n + 1..] == old(a[n + 1..])
  {
    ghost var s := a[..n];
    var i := ShiftLater(a, n, x);
    a[n - i] := x;
    ShiftDone(a[..n + 1], s, x, n - i);
  }

  /**
   * The shift loop itself (useSize is n + 1 once incremented): the lessons
   * at the end that begin strictly later than x move one cell right, and
   * the gap is left at n - i.
   */
  method ShiftLater(a: array<Lesson>, n: nat, x: Lesson) returns (i: nat)
    requires n < a.Length
    modifies a
    ensures i <= n
    ensures forall k :: 0 <= k < n - i ==> a[k] == old(a[k])
    ensures forall k :: n - i < k <= n ==> a[k] == old(a[k - 1])
    ensures forall k :: n < k < a.Length ==> a[k] == old(a[k])
    ensures n - i > 0 ==> old(a[n - i - 1]).beginTime <= x.beginTime
    ensures forall k :: n - i <= k < n ==> old(a[k]).beginTime > x.beginTime
  {
    ghost var s := a[..];
    var useSize := n + 1;
    i := 0;
    if useSize > 1 {
      while i <= useSize - 2 && a[useSize - 2 - i].beginTime > x.beginTime
        invariant 0 <= i <= n
        invariant forall k :: 0 <= k < n - i ==> a[k] == s[k]
        invariant forall k :: n - i < k <= n ==> a[k] == s[k - 1]
        invariant forall k :: n < k < a.Length ==> a[k] == s[k]
        invariant forall k :: n - i <= k < n ==> s[k].beginTime > x.beginTime
        decreases n - i
      {
        a[useSize - 1 - i] := a[useSize - 2 - i];
        i := i + 1;
      }
    }
  }

  /**
   * A buffer holding s with x placed where the shift loop stopped holds
   * InsertByTime(s, x).
   */
  lemma ShiftDone(t: seq<Lesson>, s: seq<Lesson>, x: Lesson, m: nat)
    requires m <= |s| && |t| == |s| + 1
    requires forall k :: 0 <= k < m ==> t[k] == s[k]
    requires t[m] == x
    requires forall k :: m < k <= |s| ==> t[k] == s[k - 1]
    requires m > 0 ==> s[m - 1].beginTime <= x.beginTime
    requires forall k :: m <= k < |s| ==> s[k].beginTime > x.beginTime
    ensures t == InsertByTime(s, x)
  {
    StopsAt(s, x, m);
    InsertByTimeSplits(s, x);
    assert t == s[..m] + [x] + s[m..];
  }

  /**
   * The insertion position is the one the shift loop stops at: every lesson
   * from there on begins strictly later than x, and the one before it (if
   * any) does not.
   */
  lemma {:induction false} StopsAt(s: seq<Lesson>, x: Lesson, m: nat)
    requires m <= |s|
    requires m > 0 ==> s[m - 1].beginTime <= x.beginTime
    requires forall k :: m <= k < |s| ==> s[k].beginTime > x.beginTime
    ensures InsertPosition(s, x) == m
    decreases |s|
  {
    if m < |s| {
      var init := s[..|s| - 1];
      StopsAt(init, x, m);
    }
  }

  // ---------------------------------------------------------------------
  // The slot and AddLesson
  // ---------------------------------------------------------------------

  /**
   * The capacity rule of AddLesson: an empty slot gets room for two
   * lessons, a full one doubles, and any other slot is refused.
   */
  function NextCapacity(useSize: nat, realSize: nat): (r: Option<nat>)
    ensures r.Some? ==> r.value > useSize
  {
    if realSize == 0 && useSize == 0 then Some(MinArrSize)
    else if useSize == realSize then Some(realSize * 2)
    else None
  }

  /** A slot in a reachable state accepts a lesson exactly when it is full, counting the empty slot as full. */
  lemma NextCapacityWhenFull(useSize: nat, realSize: nat)
    requires useSize <= realSize
    ensures NextCapacity(useSize, realSize).Some? <==> useSize == realSize
  {
  }

  /** The (lessons, capacity) pair after k insert attempts into a fresh slot. */
  function SizesAfter(k: nat): (nat, nat)
  {
    if k == 0 then (0, 0)
    else
      var (u, c) := SizesAfter(k - 1);
      match NextCapacity(u, c)
      case Some(cap) => (u + 1, cap)
      case None => (u, c)
  }

  /**
   * As written, a slot never holds a second lesson: the first insert leaves
   * it with one lesson and room for two, and that state refuses every later
   * insert.
   */
  lemma {:induction false} SlotHoldsAtMostOneLesson(k: nat)
    ensures SizesAfter(k) == (if k == 0 then (0, 0) else (1, 2))
    ensures k > 0 ==> NextCapacity(SizesAfter(k).0, SizesAfter(k).1).None?
  {
    if k > 0 {
      SlotHoldsAtMostOneLesson(k - 1);
    }
  }

  /** One (group, year) slot: use_size lessons in a buffer with room for real_size. */
  class Lessons {
    var useSize: nat
    var realSize: nat
    var lessons: array?<Lesson>

    ghost predicate Valid()
      reads this
    {
      && useSize <= realSize
      && (lessons == null <==> realSize == 0)
      && (lessons != null ==> lessons.Length == realSize)
    }

    /** The lessons of the slot in their order. */
    function Contents(): seq<Lesson>
      requires Valid()
      reads this, lessons
    {
      if lessons == null then [] else lessons[..useSize]
    }

    /** The zeroed slot calloc hands out. */
    constructor ()
      ensures Valid() && useSize == 0 && realSize == 0 && lessons == null
    {
      useSize, realSize, lessons := 0, 0, null;
    }

    /** The capacity rule and the shift insertion of AddLesson, applied to this slot. */
    method Add(x: Lesson) returns (code: int)
      requires Valid()
      modifies this, lessons
      ensures Valid()
      ensures code == 0 || code == -1
      ensures code == 0 <==> NextCapacity(old(useSize), old(realSize)).Some?
      ensures code == 0 ==>
        && useSize == old(useSize) + 1
        && realSize == NextCapacity(old(useSize), old(realSize)).value
        && fresh(lessons)
        && Contents() == InsertByTime(old(Contents()), x)
      ensures code == -1 ==> unchanged(this) && (lessons != null ==> unchanged(lessons))
    {
      if realSize == 0 && useSize == 0 {
        realSize := MinArrSize;
        lessons := new Lesson[realSize];
      } else if useSize == realSize {
        var grown := new Lesson[realSize * 2];
        forall i | 0 <= i < useSize {
          grown[i] := lessons[i];
        }
        realSize := realSize * 2;
        lessons := grown;
      } else {
        return -1;
      }
      assert lessons[..useSize] == old(Contents());
      useSize := useSize + 1;
      ShiftInsert(lessons, useSize - 1, x);
      code := 0;
    }
  }

  /** The slots of one day are different structs with buffers of their own. */
  ghost predicate Disjoint(day: seq<Lessons>)
    reads set k | 0 <= k < |day| :: day[k]
  {
    forall i, j :: 0 <= i < |day| && 0 <= j < |day| && i != j ==>
      day[i] != day[j] && (day[i].lessons == null || day[i].lessons != day[j].lessons)
  }

  /**
   * AddLesson on one day's block of MaxGroups * MaxYear slots: read the
   * lesson; if every field is accepted, insert it into the slot of its
   * (group, year). No other slot changes.
   */
  method AddLesson(day: seq<Lessons>, input: LessonInput) returns (code: int)
    requires |day| == MaxGroups * MaxYear && TextLinesNonEmpty(input)
    requires forall k :: 0 <= k < |day| ==> day[k].Valid()
    requires Disjoint(day)
    modifies set k | 0 <= k < |day| :: day[k]
    modifies set k | 0 <= k < |day| && day[k].lessons != null :: day[k].lessons
    ensures forall k :: 0 <= k < |day| ==> day[k].Valid()
    ensures Disjoint(day)
    ensures code == 0 || code == -1
    ensures ReadLesson(input).None? ==>
      && code == -1
      && forall k :: 0 <= k < |day| ==> unchanged(day[k]) && (day[k].lessons != null ==> unchanged(day[k].lessons))
    ensures ReadLesson(input).Some? ==>
      var x := ReadLesson(input).value;
      var g := GroupYearIndex(x.group, x.year);
      && g < |day|
      && (code == 0 <==> NextCapacity(old(day[g].useSize), old(day[g].realSize)).Some?)
      && (code == 0 ==> && day[g].useSize == old(day[g].useSize) + 1
                        && day[g].realSize == NextCapacity(old(day[g].useSize), old(day[g].realSize)).value
                        && fresh(day[g].lessons)
                        && day[g].Contents() == InsertByTime(old(day[g].Contents()), x))
      && (code == -1 ==> unchanged(day[g]) && (day[g].lessons != null ==> unchanged(day[g].lessons)))
      && forall k :: 0 <= k < |day| && k != g ==>
           unchanged(day[k]) && (day[k].lessons != null ==> unchanged(day[k].lessons))
  {
    var read := ReadLesson(input);
    if read.None? {
      return -1;
    }
    var x := read.value;
    var g := GroupYearIndex(x.group, x.year);
    GroupYearIndexInBlock(x.group, x.year);
    code := day[g].Add(x);
  }

  /**
   * A fresh day's block, as calloc hands it out, takes a lesson once: the
   * same lesson read again is refused, since its slot then holds one
   * lesson in room for two.
   */
  method AddLessonTwice(input: LessonInput) returns (first: int, second: int)
    requires TextLinesNonEmpty(input) && ReadLesson(input).Some?
    ensures first == 0 && second == -1
  {
    var day: seq<Lessons> := [];
    while |day| < MaxGroups * MaxYear
      invariant |day| <= MaxGroups * MaxYear
      invariant forall k :: 0 <= k < |day| ==> fresh(day[k]) && day[k].Valid()
      invariant forall k :: 0 <= k < |day| ==> day[k].useSize == 0 && day[k].realSize == 0
      invariant Disjoint(day)
    {
      var slot := new Lessons();
      day := day + [slot];
    }
    first := AddLesson(day, input);
    second := AddLesson(day, input);
  }
}
