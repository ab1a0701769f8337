/** The enrolment list's grade badge (`MyEnrollmentComponent.getGradeClass`). */
module MyEnrollment {

  /** The CSS class of a grade: decided by its first character alone. */
  function GradeClass(grade: string): (cls: string)
    ensures grade == "" <==> cls == ""
    ensures grade != "" && grade[0] == 'A' ==> cls == "excellent"
    ensures grade != "" && grade[0] == 'B' ==> cls == "good"
    ensures grade != "" && grade[0] == 'C' ==> cls == "average"
    ensures grade != "" && grade[0] !in {'A', 'B', 'C'} ==> cls == "poor"
  {
    if grade == "" then ""
    else
      var gradeValue := grade[0];
      if gradeValue == 'A' then "excellent"
      else if gradeValue == 'B' then "good"
      else if gradeValue == 'C' then "average"
      else "poor"
  }

  /** Grades sharing a first character share a class, so "A-", "A" and "A+"
      look alike. */
  lemma OnlyFirstCharacterMatters(g: string, h: string)
    requires g != "" && h != "" && g[0] == h[0]
    ensures GradeClass(g) == GradeClass(h)
  {
  }

  /** Lower-case letters are not recognised: "a" is shown as poor. */
  lemma LowerCaseIsPoor(g: string)
    requires g != "" && 'a' <= g[0] <= 'z'
    ensures GradeClass(g) == "poor"
  {
  }
}
