/** `generateData`: builds `numOfCourses` courses and `numOfStudents`
    students. Every `Math.random` draw is supplied in a `Draws` record, each
    constrained to the range the `Math.random` expression in `generateData`
    can produce. */
module Generation {
  import opened Domain
  import opened Schedule
  import opened Valuation

  /** The random draws one call of `generateData` consumes. */
  datatype Draws = Draws(
    starts: seq<int>,          // per course: Math.floor(Math.random() * totalSchoolTime)
    lengths: seq<int>,         // per course: Math.floor(Math.random() * 3)
    coins: seq<seq<bool>>,     // per student, per course: Math.random() < 0.5
    scores: seq<seq<int>>,     // per student, per course: Math.floor(Math.random() * 10)
    caps: seq<int>)            // per student: Math.floor(Math.random() * 4)

  /** How many times `for (let i = 0; i < n; i++)` runs. */
  function Count(n: int): (k: nat)
    ensures n <= 0 ==> k == 0
    ensures n >= 0 ==> k == n
  {
    if n < 0 then 0 else n
  }

  /** The range of `Math.floor(Math.random() * t)` for an integer t, with
      `Math.random()` in [0, 1). */
  predicate StartDrawOk(s: int, totalSchoolTime: int)
  {
    if totalSchoolTime > 0 then 0 <= s < totalSchoolTime else totalSchoolTime <= s <= 0
  }

  /** The per-course draws cover `numOfCourses` courses and lie in range. */
  predicate CourseDrawsFit(d: Draws, numOfCourses: int, totalSchoolTime: int)
  {
    && |d.starts| == Count(numOfCourses)
    && |d.lengths| == Count(numOfCourses)
    && (forall i :: 0 <= i < |d.starts| ==> StartDrawOk(d.starts[i], totalSchoolTime))
    && (forall i :: 0 <= i < |d.lengths| ==> LengthDrawOk(d.lengths[i]))
  }

  /** The per-student draws cover `numOfStudents` students, each with one
      draw per course, and lie in range. */
  predicate StudentDrawsFit(d: Draws, numOfCourses: int, numOfStudents: int)
  {
    && |d.coins| == Count(numOfStudents)
    && |d.scores| == Count(numOfStudents)
    && |d.caps| == Count(numOfStudents)
    && (forall j :: 0 <= j < |d.coins| ==> |d.coins[j]| == Count(numOfCourses))
    && (forall j :: 0 <= j < |d.scores| ==> |d.scores[j]| == Count(numOfCourses))
    && (forall j, i :: 0 <= j < |d.scores| && 0 <= i < |d.scores[j]| ==> 0 <= d.scores[j][i] < 10)
    && (forall j :: 0 <= j < |d.caps| ==> 0 <= d.caps[j] < 4)
  }

  predicate DrawsFit(d: Draws, numOfCourses: int, numOfStudents: int, totalSchoolTime: int)
  {
    CourseDrawsFit(d, numOfCourses, totalSchoolTime) && StudentDrawsFit(d, numOfCourses, numOfStudents)
  }

  /** The values a valuation may hold under the switches, in their order of
      precedence: all 1, else all 3, else 0 or 1, else 1 to 10. */
  predicate ValueInRange(opts: Options, x: int)
  {
    if opts.uniformUtilities1 then x == 1
    else if opts.uniformUtilities then x == 3
    else if opts.binaryPreferencesPerStudent then x == 0 || x == 1
    else 1 <= x <= 10
  }

  /** One valuation entry, chosen by the first switch that is set. */
  function ValueFor(opts: Options, coin: bool, score: int): (x: int)
    requires 0 <= score < 10
    ensures ValueInRange(opts, x)
    ensures 0 <= x <= 10
    ensures !opts.uniformUtilities1 && !opts.uniformUtilities && opts.binaryPreferencesPerStudent ==> (x == 0 <==> coin)
    ensures !opts.uniformUtilities1 && !opts.uniformUtilities && !opts.binaryPreferencesPerStudent ==> x - 1 == score
  {
    if opts.uniformUtilities1 then 1
    else if opts.uniformUtilities then 3
    else if opts.binaryPreferencesPerStudent then (if coin then 0 else 1)
    else score + 1
  }

  /** The credit cap: 3 under uniform caps, otherwise 3 to 6. */
  function MaxCredits(uniformCreditCaps: bool, draw: int): (c: int)
    requires 0 <= draw < 4
    ensures 3 <= c <= 6
    ensures uniformCreditCaps ==> c == 3
    ensures !uniformCreditCaps ==> c - 3 == draw
  {
    if uniformCreditCaps then 3 else draw + 3
  }

  /** `Object.fromEntries`: entries inserted left to right, so a key that
      appears twice keeps its last value. */
  function FromEntries(entries: seq<(int, int)>): (m: map<int, int>)
    ensures |m| <= |entries|
    decreases |entries|
  {
    if |entries| == 0 then map[]
    else FromEntries(entries[..|entries| - 1])[entries[|entries| - 1].0 := entries[|entries| - 1].1]
  }

  /** Every binding of `FromEntries` comes from one of the entries. */
  lemma {:induction false} FromEntriesValues(entries: seq<(int, int)>)
    ensures forall k :: k in FromEntries(entries) ==> exists i :: 0 <= i < |entries| && entries[i] == (k, FromEntries(entries)[k])
    decreases |entries|
  {
    if |entries| > 0 {
      var prefix := entries[..|entries| - 1];
      FromEntriesValues(prefix);
      assert forall i :: 0 <= i < |prefix| ==> prefix[i] == entries[i];
    }
  }

  /** The keys of `FromEntries` are exactly the keys of the entries. */
  lemma {:induction false} FromEntriesKeys(entries: seq<(int, int)>)
    ensures forall i :: 0 <= i < |entries| ==> entries[i].0 in FromEntries(entries)
    ensures forall k :: k in FromEntries(entries) ==> exists i :: 0 <= i < |entries| && entries[i].0 == k
    decreases |entries|
  {
    if |entries| > 0 {
      var prefix := entries[..|entries| - 1];
      FromEntriesKeys(prefix);
      assert forall i :: 0 <= i < |prefix| ==> prefix[i] == entries[i];
    }
  }

  /** Each key of `FromEntries` holds the value of its last entry. */
  lemma {:induction false} FromEntriesLastWins(entries: seq<(int, int)>)
    ensures forall i :: 0 <= i < |entries| && (forall j :: i < j < |entries| ==> entries[j].0 != entries[i].0)
              ==> entries[i].0 in FromEntries(entries) && FromEntries(entries)[entries[i].0] == entries[i].1
    decreases |entries|
  {
    if |entries| > 0 {
      var prefix := entries[..|entries| - 1];
      FromEntriesLastWins(prefix);
      assert forall i :: 0 <= i < |prefix| ==> prefix[i] == entries[i];
    }
  }

  /** The valuation of one student: `courses.map` paired with one value per
      course, then `Object.fromEntries`. */
  function BuildValuation(courses: seq<Course>, opts: Options, coins: seq<bool>, scores: seq<int>): (v: map<int, int>)
    requires |coins| == |courses| && |scores| == |courses|
    requires forall i :: 0 <= i < |scores| ==> 0 <= scores[i] < 10
    ensures forall i :: 0 <= i < |courses| ==> courses[i].courseId in v
    ensures forall k :: k in v ==> ValueInRange(opts, v[k])
  {
    var e := seq(|courses|, i requires 0 <= i < |courses| => (courses[i].courseId, ValueFor(opts, coins[i], scores[i])));
    assert forall i :: 0 <= i < |courses| ==> e[i].0 == courses[i].courseId;
    FromEntriesKeys(e);
    FromEntriesValues(e);
    FromEntries(e)
  }

  /** The i-th course of the loop over courses. */
  function CourseAt(i: nat, totalSchoolTime: int, opts: Options, d: Draws): (c: Course)
    requires i < |d.starts| && i < |d.lengths| && LengthDrawOk(d.lengths[i])
    requires StartDrawOk(d.starts[i], totalSchoolTime)
    ensures GeneratedCourse(c, i, totalSchoolTime, opts)
  {
    NewCourse(i + 1, 1, 1, d.starts[i], GenerateEndTime(d.starts[i], opts.uniformCourseLengths, totalSchoolTime, d.lengths[i]))
  }

  /** The j-th student of the loop over students. */
  function StudentAt(j: nat, courses: seq<Course>, opts: Options, d: Draws): (s: Student)
    requires j < |d.coins| && j < |d.scores| && j < |d.caps| && 0 <= d.caps[j] < 4
    requires |d.coins[j]| == |courses| && |d.scores[j]| == |courses|
    requires forall i :: 0 <= i < |d.scores[j]| ==> 0 <= d.scores[j][i] < 10
    ensures s.studentId == j + 1
    ensures forall i :: 0 <= i < |courses| ==> courses[i].courseId in s.valuation
    ensures forall k :: k in s.valuation ==> ValueInRange(opts, s.valuation[k])
    ensures 3 <= s.maxCredits <= 6 && (opts.uniformCreditCaps ==> s.maxCredits == 3)
  {
    Student(j + 1, BuildValuation(courses, opts, d.coins[j], d.scores[j]), MaxCredits(opts.uniformCreditCaps, d.caps[j]))
  }

  /** What every generated course guarantees: id i + 1, one credit, one
      seat, no seats taken, a start drawn in range and an end within the
      day at most three slots later (one under uniform lengths), after
      the start whenever the day is non-empty. */
  predicate GeneratedCourse(c: Course, i: int, totalSchoolTime: int, opts: Options)
  {
    && c.courseId == i + 1
    && c.credits == 1
    && c.seatCapacity == 1
    && c.seatCount == 0
    && StartDrawOk(c.startTime, totalSchoolTime)
    && c.endTime <= totalSchoolTime
    && c.endTime - c.startTime <= 3
    && (totalSchoolTime > 0 ==> c.startTime < c.endTime)
    && (totalSchoolTime > 0 && opts.uniformCourseLengths ==> c.endTime == c.startTime + 1)
  }

  /** What every generated student guarantees: id j + 1, a valuation entry
      for exactly the course ids 1..n, each in the range the switches
      allow, and a credit cap of 3 (uniform) or 3 to 6. */
  ghost predicate GeneratedStudent(s: Student, j: int, n: int, opts: Options)
  {
    && s.studentId == j + 1
    && (forall k :: k in s.valuation <==> 1 <= k <= n)
    && (forall k :: k in s.valuation ==> ValueInRange(opts, s.valuation[k]))
    && 3 <= s.maxCredits <= 6
    && (opts.uniformCreditCaps ==> s.maxCredits == 3)
  }

  /** The structural guarantees of a generated data set. */
  ghost predicate WellGenerated(data: (seq<Course>, seq<Student>), numOfCourses: int, numOfStudents: int,
                                totalSchoolTime: int, opts: Options)
  {
    && |data.0| == Count(numOfCourses)
    && |data.1| == Count(numOfStudents)
    && (forall i :: 0 <= i < |data.0| ==> GeneratedCourse(data.0[i], i, totalSchoolTime, opts))
    && (forall j :: 0 <= j < |data.1| ==> GeneratedStudent(data.1[j], j, |data.0|, opts))
  }

  /** Entries keyed 1..n in order give a map with exactly the keys 1..n,
      key i + 1 holding the value of entry i. */
  lemma FromNumberedEntries(e: seq<(int, int)>)
    requires forall i :: 0 <= i < |e| ==> e[i].0 == i + 1
    ensures forall k :: k in FromEntries(e) <==> 1 <= k <= |e|
    ensures forall i :: 0 <= i < |e| ==> FromEntries(e)[i + 1] == e[i].1
  {
  }

  /** A valuation built over courses numbered 1..n has exactly the keys
      1..n, and course i + 1 gets the value drawn for position i. */
  lemma BuildValuationKeys(courses: seq<Course>, opts: Options, coins: seq<bool>, scores: seq<int>)
    requires |coins| == |courses| && |scores| == |courses|
    requires forall i :: 0 <= i < |scores| ==> 0 <= scores[i] < 10
    requires forall i :: 0 <= i < |courses| ==> courses[i].courseId == i + 1
    ensures forall k :: k in BuildValuation(courses, opts, coins, scores) <==> 1 <= k <= |courses|
    ensures forall i :: 0 <= i < |courses| ==> BuildValuation(courses, opts, coins, scores)[i + 1] == ValueFor(opts, coins[i], scores[i])
  {
    var e := seq(|courses|, i requires 0 <= i < |courses| => (courses[i].courseId, ValueFor(opts, coins[i], scores[i])));
    FromNumberedEntries(e);
    assert BuildValuation(courses, opts, coins, scores) == FromEntries(e);
    forall i | 0 <= i < |courses|
      ensures FromEntries(e)[i + 1] == ValueFor(opts, coins[i], scores[i])
    {
      assert e[i].1 == ValueFor(opts, coins[i], scores[i]);
    }
  }

  /** The j-th student meets the generated-student guarantees over courses
      numbered 1..n, and values course i + 1 by the draws at position i. */
  lemma StudentAtGenerated(j: nat, courses: seq<Course>, opts: Options, d: Draws)
    requires j < |d.coins| && j < |d.scores| && j < |d.caps| && 0 <= d.caps[j] < 4
    requires |d.coins[j]| == |courses| && |d.scores[j]| == |courses|
    requires forall i :: 0 <= i < |d.scores[j]| ==> 0 <= d.scores[j][i] < 10
    requires forall i :: 0 <= i < |courses| ==> courses[i].courseId == i + 1
    ensures GeneratedStudent(StudentAt(j, courses, opts, d), j, |courses|, opts)
    ensures forall i :: 0 <= i < |courses| ==>
              StudentAt(j, courses, opts, d).valuation[i + 1] == ValueFor(opts, d.coins[j][i], d.scores[j][i])
  {
    BuildValuationKeys(courses, opts, d.coins[j], d.scores[j]);
  }

  /** The loop over courses of `generateData`: course i gets id i + 1, one
      credit, one seat, the drawn start and the clamped end. */
  method GenerateCourses(numOfCourses: int, totalSchoolTime: int, opts: Options, d: Draws)
    returns (courses: seq<Course>)
    requires CourseDrawsFit(d, numOfCourses, totalSchoolTime)
    ensures |courses| == Count(numOfCourses)
    ensures forall i :: 0 <= i < |courses| ==> GeneratedCourse(courses[i], i, totalSchoolTime, opts)
    ensures forall i :: 0 <= i < |courses| ==>
              && courses[i].startTime == d.starts[i]
              && courses[i].endTime == GenerateEndTime(d.starts[i], opts.uniformCourseLengths, totalSchoolTime, d.lengths[i])
  {
    courses := [];
    var i := 0;
    while i < numOfCourses
      invariant 0 <= i <= Count(numOfCourses)
      invariant |courses| == i
      invariant forall k :: 0 <= k < i ==> courses[k] == CourseAt(k, totalSchoolTime, opts, d)
      invariant forall k :: 0 <= k < i ==> GeneratedCourse(courses[k], k, totalSchoolTime, opts)
    {
      courses := courses + [CourseAt(i, totalSchoolTime, opts, d)];
      i := i + 1;
    }
  }

  /** The loop over students of `generateData`: student j gets id j + 1, a
      valuation over exactly the given course ids, and a credit cap. */
  method GenerateStudents(numOfStudents: int, courses: seq<Course>, opts: Options, d: Draws)
    returns (students: seq<Student>)
    requires StudentDrawsFit(d, |courses|, numOfStudents)
    requires forall i :: 0 <= i < |courses| ==> courses[i].courseId == i + 1
    ensures |students| == Count(numOfStudents)
    ensures forall j :: 0 <= j < |students| ==> GeneratedStudent(students[j], j, |courses|, opts)
    ensures forall j, i :: 0 <= j < |students| && 0 <= i < |courses| ==>
              (i + 1) in students[j].valuation && students[j].valuation[i + 1] == ValueFor(opts, d.coins[j][i], d.scores[j][i])
    ensures forall j :: 0 <= j < |students| ==> students[j].maxCredits == MaxCredits(opts.uniformCreditCaps, d.caps[j])
  {
    students := [];
    var j := 0;
    while j < numOfStudents
      invariant 0 <= j <= Count(numOfStudents)
      invariant |students| == j
      invariant forall k :: 0 <= k < j ==> students[k] == StudentAt(k, courses, opts, d)
    {
      students := students + [StudentAt(j, courses, opts, d)];
      j := j + 1;
    }
    forall k | 0 <= k < |students|
      ensures GeneratedStudent(students[k], k, |courses|, opts)
      ensures forall i :: 0 <= i < |courses| ==>
                students[k].valuation[i + 1] == ValueFor(opts, d.coins[k][i], d.scores[k][i])
    {
      StudentAtGenerated(k, courses, opts, d);
    }
  }

  /** `generateData`: the courses first, then the students whose valuations
      range over the generated course ids. */
  method GenerateData(numOfCourses: int, numOfStudents: int, totalSchoolTime: int, opts: Options, d: Draws)
    returns (courses: seq<Course>, students: seq<Student>)
    requires DrawsFit(d, numOfCourses, numOfStudents, totalSchoolTime)
    ensures WellGenerated((courses, students), numOfCourses, numOfStudents, totalSchoolTime, opts)
    ensures forall i :: 0 <= i < |courses| ==>
              && courses[i].startTime == d.starts[i]
              && courses[i].endTime == GenerateEndTime(d.starts[i], opts.uniformCourseLengths, totalSchoolTime, d.lengths[i])
    ensures forall j :: 0 <= j < |students| ==> students[j].maxCredits == MaxCredits(opts.uniformCreditCaps, d.caps[j])
    ensures forall j, i :: 0 <= j < |students| && 0 <= i < |courses| ==>
              (i + 1) in students[j].valuation && students[j].valuation[i + 1] == ValueFor(opts, d.coins[j][i], d.scores[j][i])
  {
    courses := GenerateCourses(numOfCourses, totalSchoolTime, opts, d);
    students := GenerateStudents(numOfStudents, courses, opts, d);
  }

  /** Every generated student lists a value for every generated course. */
  lemma GeneratedValuationsCoverCourses(data: (seq<Course>, seq<Student>), numOfCourses: int, numOfStudents: int,
                                        totalSchoolTime: int, opts: Options, s: Student, c: Course)
    requires WellGenerated(data, numOfCourses, numOfStudents, totalSchoolTime, opts)
    requires s in data.1 && c in data.0
    ensures c.courseId in s.valuation
  {
  }

  /** Every valuation a generated student holds is non-negative. */
  lemma GeneratedValuationsNonNegative(data: (seq<Course>, seq<Student>), numOfCourses: int, numOfStudents: int,
                                       totalSchoolTime: int, opts: Options, s: Student)
    requires WellGenerated(data, numOfCourses, numOfStudents, totalSchoolTime, opts)
    requires s in data.1
    ensures NonNegative(s.valuation)
  {
  }

  /** Over generated data, a student's utility is never negative, and
      handing the student more courses never lowers it. */
  lemma GeneratedUtilityMonotone(data: (seq<Course>, seq<Student>), numOfCourses: int, numOfStudents: int,
                                 totalSchoolTime: int, opts: Options, s: Student,
                                 allocation: Allocation, more: seq<Course>)
    requires WellGenerated(data, numOfCourses, numOfStudents, totalSchoolTime, opts)
    requires s in data.1 && s.studentId in allocation
    ensures Utility(s, allocation).value >= 0
    ensures Utility(s, allocation).value <= Utility(s, allocation[s.studentId := allocation[s.studentId] + more]).value
  {
    GeneratedValuationsNonNegative(data, numOfCourses, numOfStudents, totalSchoolTime, opts, s);
    BundleValueAppend(s.valuation, allocation[s.studentId], more);
  }
}
