/** The records of the course-allocation demo: courses, students, the
    allocation handed to the utility computation, and the switches that
    steer synthetic data generation. */
module Domain {

  /** A value that may be missing, as `allocation[id]` may be `undefined`. */
  datatype Option<T> = None | Some(value: T)

  /** A course offering. Times are integer slots of the school day;
      `seatCount` is a counter that starts at 0 and is never advanced. */
  datatype Course = Course(
    courseId: int,
    credits: int,
    seatCapacity: int,
    startTime: int,
    endTime: int,
    seatCount: int)

  /** A student: an id, a valuation keyed by course id, and a credit cap. */
  datatype Student = Student(studentId: int, valuation: map<int, int>, maxCredits: int)

  /** An allocation maps a student id to the bundle of courses given to that student. */
  type Allocation = map<int, seq<Course>>

  /** The five generation switches, all independent booleans. */
  datatype Options = Options(
    uniformCreditCaps: bool,
    uniformUtilities: bool,
    uniformUtilities1: bool,
    uniformCourseLengths: bool,
    binaryPreferencesPerStudent: bool)

  /** The `Course` constructor: stores the five given fields and opens the
      course with no seats taken. */
  function NewCourse(courseId: int, credits: int, seatCapacity: int, startTime: int, endTime: int): (c: Course)
    ensures c.seatCount == 0
    ensures c.courseId == courseId && c.credits == credits && c.seatCapacity == seatCapacity
    ensures c.startTime == startTime && c.endTime == endTime
  {
    Course(courseId, credits, seatCapacity, startTime, endTime, 0)
  }
}
