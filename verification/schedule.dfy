/** `generateEndTime`: a course lasts one slot, or one to three slots drawn
    at random, and never runs past the end of the school day. */
module Schedule {

  /** `Math.floor(Math.random() * 3)` lies in 0..2. */
  predicate LengthDrawOk(draw: int)
  {
    0 <= draw < 3
  }

  /** The course length: 1 under uniform course lengths, otherwise the
      draw plus one. */
  function Duration(uniformCourseLengths: bool, draw: int): (d: int)
    requires LengthDrawOk(draw)
    ensures 1 <= d <= 3
    ensures uniformCourseLengths ==> d == 1
    ensures !uniformCourseLengths ==> d - 1 == draw
  {
    if uniformCourseLengths then 1 else draw + 1
  }

  /** The end time is the start plus the duration, clamped to the length
      of the school day. */
  function GenerateEndTime(startTime: int, uniformCourseLengths: bool, totalSchoolTime: int, draw: int): (r: int)
    requires LengthDrawOk(draw)
    ensures r <= totalSchoolTime
    ensures r <= startTime + Duration(uniformCourseLengths, draw)
    ensures r == totalSchoolTime || r == startTime + Duration(uniformCourseLengths, draw)
    ensures r - startTime <= 3
    ensures startTime < totalSchoolTime ==> startTime < r
    ensures uniformCourseLengths && startTime < totalSchoolTime ==> r == startTime + 1
  {
    var endTime := startTime + Duration(uniformCourseLengths, draw);
    if endTime > totalSchoolTime then totalSchoolTime else endTime
  }
}
