/**
 * The student registration form schema (`registrationSchema`): a numeric
 * control number, three non-empty names, a semester and a password.
 */
module RegistrationSchema {
  import Web

  /** A registration form whose numeric fields are already integers. */
  datatype RegistrationForm = RegistrationForm(
    studentId: int,
    firstName: string,
    lastName: string,
    career: string,
    semester: int,
    password: string)

  /** One issue per failed check, in the order the schema declares them. */
  datatype Issue =
    | StudentIdNotPositive
    | StudentIdTooLarge
    | FirstNameEmpty
    | LastNameEmpty
    | CareerEmpty
    | SemesterTooSmall
    | SemesterTooLarge
    | PasswordEmpty
    | PasswordTooShort

  /** A control number has at most 7 digits. */
  const MaxStudentId := 9_999_999
  const MinSemester := 1
  const MaxSemester := 12
  const MinPasswordLength := 8

  /** `[x]` when the check fails, `[]` when it passes. */
  function Check(failed: bool, x: Issue): (r: seq<Issue>)
    ensures forall y :: y in r <==> failed && y == x
  {
    if failed then [x] else []
  }

  /** The check behind issue `x` fails on form `f`. */
  predicate Raised(f: RegistrationForm, x: Issue) {
    match x
    case StudentIdNotPositive => f.studentId <= 0
    case StudentIdTooLarge => f.studentId > MaxStudentId
    case FirstNameEmpty => |f.firstName| == 0
    case LastNameEmpty => |f.lastName| == 0
    case CareerEmpty => |f.career| == 0
    case SemesterTooSmall => f.semester < MinSemester
    case SemesterTooLarge => f.semester > MaxSemester
    case PasswordEmpty => |f.password| == 0
    case PasswordTooShort => Web.JsLength(f.password) < MinPasswordLength
  }

  /** The checks of `student_id`: positive and at most seven digits. */
  function StudentIdIssues(n: int): (r: seq<Issue>)
    ensures forall x :: x in r <==> (x == StudentIdNotPositive && n < 1) || (x == StudentIdTooLarge && n > MaxStudentId)
  {
    Check(n < 1, StudentIdNotPositive) + Check(n > MaxStudentId, StudentIdTooLarge)
  }

  /** The checks of `first_name`, `last_name` and `career`: each non-empty. */
  function NameIssues(first: string, last: string, career: string): (r: seq<Issue>)
    ensures forall x :: x in r <==>
      (x == FirstNameEmpty && first == "") || (x == LastNameEmpty && last == "") || (x == CareerEmpty && career == "")
  {
    Check(first == "", FirstNameEmpty) + Check(last == "", LastNameEmpty) + Check(career == "", CareerEmpty)
  }

  /** The checks of `semester`: between 1 and 12. */
  function SemesterIssues(n: int): (r: seq<Issue>)
    ensures forall x :: x in r <==> (x == SemesterTooSmall && n < MinSemester) || (x == SemesterTooLarge && n > MaxSemester)
  {
    Check(n < MinSemester, SemesterTooSmall) + Check(n > MaxSemester, SemesterTooLarge)
  }

  /**
   * The checks of `password`: non-empty and at least eight UTF-16 code
   * units long, as JavaScript measures it.
   */
  function PasswordIssues(p: string): (r: seq<Issue>)
    ensures forall x :: x in r <==>
      (x == PasswordEmpty && p == "") || (x == PasswordTooShort && Web.JsLength(p) < MinPasswordLength)
  {
    Check(p == "", PasswordEmpty) + Check(Web.JsLength(p) < MinPasswordLength, PasswordTooShort)
  }

  /**
   * The issues `safeParse` reports: exactly the failing checks, field by
   * field in schema order. Every check of every field runs, so a field can
   * contribute more than one issue (an empty password is both empty and
   * too short).
   */
  function Issues(f: RegistrationForm): (r: seq<Issue>)
    ensures forall x :: x in r <==> Raised(f, x)
  {
    StudentIdIssues(f.studentId)
    + NameIssues(f.firstName, f.lastName, f.career)
    + SemesterIssues(f.semester)
    + PasswordIssues(f.password)
  }

  /** `safeParse(form).success`. */
  predicate Accepts(f: RegistrationForm) {
    Issues(f) == []
  }

  /**
   * A form is accepted exactly when every field lies in its range: the
   * control number in 1..9,999,999, the names and career non-empty, the
   * semester in 1..12 and the password at least 8 characters long.
   */
  lemma AcceptsExactly(f: RegistrationForm)
    ensures Accepts(f) <==>
      && 1 <= f.studentId <= 9_999_999
      && |f.firstName| >= 1 && |f.lastName| >= 1 && |f.career| >= 1
      && 1 <= f.semester <= 12
      && Web.JsLength(f.password) >= 8
  {
    var r := Issues(f);
    if r != [] {
      assert r[0] in r && Raised(f, r[0]);
    } else {
      assert !Raised(f, StudentIdNotPositive) && !Raised(f, StudentIdTooLarge);
      assert !Raised(f, FirstNameEmpty) && !Raised(f, LastNameEmpty) && !Raised(f, CareerEmpty);
      assert !Raised(f, SemesterTooSmall) && !Raised(f, SemesterTooLarge);
      assert !Raised(f, PasswordTooShort);
    }
  }

  /**
   * Failing any single field rejects the whole form, whatever the other
   * fields hold: one bad field is enough for an issue.
   */
  lemma OneBadFieldRejects(f: RegistrationForm, g: RegistrationForm)
    requires Accepts(f)
    requires g.studentId != f.studentId || g.firstName != f.firstName || g.lastName != f.lastName
          || g.career != f.career || g.semester != f.semester || g.password != f.password
    ensures Accepts(g) <==>
      && (g.studentId == f.studentId || 1 <= g.studentId <= MaxStudentId)
      && (g.firstName == f.firstName || g.firstName != "")
      && (g.lastName == f.lastName || g.lastName != "")
      && (g.career == f.career || g.career != "")
      && (g.semester == f.semester || MinSemester <= g.semester <= MaxSemester)
      && (g.password == f.password || Web.JsLength(g.password) >= MinPasswordLength)
  {
    AcceptsExactly(f);
    AcceptsExactly(g);
  }
}
