# Course-allocation demo: data records, utility and synthetic data generation

This project models the non-UI part of a course-allocation demo page. That
part has three pieces:

- the `Course` and `Student` records;
- `Student.utility`, which sums one student's valuations over their bundle of courses;
- `generateData` with its helper `generateEndTime`, which build a random set of
  courses and students from a few switches.

The page hands the generated data to a text-generation service and asks it
for an allocation that is envy-free up to one item (EF1). No code in the
repository computes, checks or repairs an allocation. So this model contains
no solver and no fairness or feasibility checker.

Modules:

- `Domain` (`domain.dfy`): `Course`, `Student`, `Allocation` (student id to a
  sequence of courses), the generation `Options`, and the `Course` constructor.
- `Valuation` (`utility.dfy`): `BundleValue` is the sum of course values
  (0 for a course the valuation does not list). `Utility` is the value of
  the student's own bundle, or `None` when the allocation has no entry for
  the student (JavaScript throws there). `ReduceUtility` is the
  left-to-right `reduce` loop.
- `Schedule` (`schedule.dfy`): `Duration` and `GenerateEndTime`.
- `Generation` (`generate.dfy`): `generateData` as two counted loops.

Every `Math.random()` expression becomes an integer or boolean in a `Draws`
record. Each draw is constrained to the exact range its expression can yield:

- `Math.floor(Math.random() * t)` is in `0..t-1` for `t > 0`, and in `t..0` otherwise;
- the course-length draw is in `0..2`;
- the valuation score is in `0..9`;
- the credit-cap draw is in `0..3`;
- `Math.random() < 0.5` is a boolean.

A loop `for (i = 0; i < n; i++)` runs `max(n, 0)` times (`Count`). So
negative counts give empty data rather than being excluded. Any integer
`totalSchoolTime` is accepted.

The `Course` and `Student` constructors validate nothing
(src/app/page.js:5-11, 20-24). `startTime < endTime` is proved only when
`totalSchoolTime > 0`, and for `totalSchoolTime <= 0` every end time equals
`totalSchoolTime`.

## Model

| member | source | states |
|---|---|---|
| Domain.NewCourse | src/app/page.js:4-12 | a newly built course carries the given id, credits, capacity and times, with seat count 0 |
| Valuation.CourseValue | src/app/page.js:31 | the zero fallback of the valuation lookup: a course whose id the valuation does not list is worth 0, a listed course is worth exactly its entry, and no course is worth less than 0 under non-negative valuations |
| Valuation.BundleValue | src/app/page.js:31 | the sum of course values over a bundle, never negative under non-negative valuations; additivity, order-independence and monotonicity are stated by BundleValueAppend, BundleValuePermutation and BundleValueMonotone |
| Valuation.Utility | src/app/page.js:30-32 | utility exists exactly when the allocation has an entry for the student; it equals the value of the bundle's listed courses only |
| Valuation.ReduceUtility | src/app/page.js:30-32 | the left-to-right reduce from 0 fails exactly when the student has no entry, and otherwise yields the sum of the bundle's course values |
| Valuation.BundleValueAppend | src/app/page.js:31 | utility is additive: the value of A ++ B is the value of A plus the value of B |
| Valuation.BundleValueRemoveAt | src/app/page.js:31 | removing one course from a bundle lowers its value by exactly that course's value |
| Valuation.BundleValuePermutation | src/app/page.js:31 | utility is order-independent: bundles that are permutations of each other have equal value |
| Valuation.BundleValueIgnoresUnlisted | src/app/page.js:31 | a course absent from the valuation contributes 0: a bundle's value equals its listed courses' value, and a bundle with no listed course (the empty one included) is worth 0 |
| Valuation.BundleValueUniform | src/app/page.js:31 | a bundle whose courses are all listed at the same value u is worth u times the number of courses (with all values 1, the utility counts the courses) |
| Valuation.BundleValueMonotone | src/app/page.js:31 | with non-negative valuations, a sub-multiset of a bundle is worth no more than the bundle |
| Valuation.UtilityIgnoresOthers | src/app/page.js:31 | replacing or deleting another student's bundle leaves a student's utility unchanged |
| Valuation.UtilitySplit | src/app/page.js:31 | when the student's bundle is A ++ B, the utility is the value of A plus the value of B |
| Schedule.Duration | src/app/page.js:74 | the duration is 1 under uniform course lengths and 1..3 otherwise |
| Schedule.GenerateEndTime | src/app/page.js:73-83 | the end time is the minimum of start + duration and totalSchoolTime: never above either, equal to one of them, at most 3 after the start, and after the start whenever the start is before the end of the day |
| Generation.ValueFor | src/app/page.js:55-63 | a valuation entry is 1 if uniformUtilities1 is set; else 3 if uniformUtilities is set; else 0 or 1 (0 exactly when the coin shows heads) with binary preferences; else 1..10; always in 0..10 |
| Generation.MaxCredits | src/app/page.js:65 | the credit cap is 3 under uniform caps, and 3..6 otherwise |
| Generation.Count | src/app/page.js:39 | a loop `for (i = 0; i < n; i++)` runs n times for n >= 0 and never for n <= 0 |
| Generation.FromEntries | src/app/page.js:56 | Object.fromEntries by left-to-right insertion, with at most one key per entry; its key set and values are stated by FromEntriesKeys, FromEntriesLastWins and FromEntriesValues |
| Generation.FromEntriesValues | src/app/page.js:56 | every binding of Object.fromEntries is one of its entries |
| Generation.FromEntriesKeys | src/app/page.js:56 | Object.fromEntries has a key for every entry and no other key |
| Generation.FromEntriesLastWins | src/app/page.js:56 | Object.fromEntries maps each key to the value of its last entry |
| Generation.FromNumberedEntries | src/app/page.js:56 | entries keyed 1..n in order give exactly the keys 1..n, with key i+1 holding entry i's value |
| Generation.BuildValuation | src/app/page.js:53-63 | a student's valuation has an entry for every course's id, and every value is in the range the switches allow (1; else 3; else 0 or 1; else 1..10) |
| Generation.BuildValuationKeys | src/app/page.js:53-63 | a student's valuation has exactly the course ids 1..n as keys, and course i+1 gets the value drawn for position i |
| Generation.CourseAt | src/app/page.js:40-47 | course i gets id i+1, 1 credit, 1 seat, seat count 0, its start in the draw range, and its end within the day, at most 3 slots after the start (when totalSchoolTime > 0 only: the end is after the start, and exactly one slot after it under uniform lengths) |
| Generation.StudentAt | src/app/page.js:52-66 | student j gets id j+1, a valuation entry for every course id with every value in the switch-selected range, and a credit cap of 3..6 (3 when uniform) |
| Generation.StudentAtGenerated | src/app/page.js:51-66 | student j gets id j+1, a value in range for every course id 1..n and no other key, and a credit cap of 3..6 (3 when uniform) |
| Generation.GenerateCourses | src/app/page.js:38-48 | the course loop yields max(n,0) courses, course i with id i+1, credits 1, capacity 1, seat count 0, the drawn start and the clamped end |
| Generation.GenerateStudents | src/app/page.js:50-67 | the student loop yields max(m,0) students, student j with id j+1, a valuation entry for every course, values and cap as the switches and draws dictate |
| Generation.GenerateData | src/app/page.js:35-70 | generateData returns max(n,0) courses and max(m,0) students meeting every per-course and per-student guarantee above |
| Generation.GeneratedValuationsCoverCourses | src/app/page.js:51-63 | every generated student has a valuation entry for every generated course |
| Generation.GeneratedValuationsNonNegative | src/app/page.js:55-63 | every valuation entry of a generated student is non-negative |
| Generation.GeneratedUtilityMonotone | src/app/page.js:30-63 | over generated data, a student's utility is at least 0, and adding courses to the student's bundle never lowers it |

## Left out

- The `Home` React component, its state hooks, event handlers, JSX and `LoadingSpinner`: UI state and presentation with no invariants.
- The `fetch` of the allocation route and its response handling in `handleSubmit`: network I/O.
- `src/app/api/recommendation/route.js`: it builds a prompt and returns the service's free text unchecked, so it has no contract to state. `src/app/layout.js` only wires the page layout. Neither is part of this model.
- An EF1 solver, feasibility checker, time-conflict test and envy computation: none exists in the code.
- `Math.random` and its floating-point values. Each draw is a parameter constrained to its range. The order in which the draws are made is not modelled. The `Draws` record always supplies every draw, and the model ignores the ones the source never makes:
  - the length draw under uniform course lengths;
  - the coin and the score draws when `uniformUtilities1` or `uniformUtilities` is set;
  - the score draws under binary preferences, and the coin draws otherwise;
  - the cap draw under uniform credit caps.
- `toString` and `JSON.stringify`: string formatting through library calls.
- `NaN` and non-numeric form values from `parseInt`: counts and times are integers.
- JavaScript numbers are doubles. Utilities and times are unbounded integers here, so sums above 2^53 lose no precision in the model.
- Object keys in JavaScript are strings. Valuation keys are integers here; that matches the source, which only ever looks up integer course ids.
- `Course.seatCount` is never advanced in the source, so it is only modelled as starting at 0.
