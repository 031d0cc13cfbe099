/**
 * Step 5, employment and education: the single-field update, the employer inputs
 * shown only to the employed and the school inputs hidden only from non-students.
 */
module EmploymentEducationStep {
  import opened Wrappers
  import opened VisaTypes

  /** `keyof EmploymentEducation`. */
  datatype EmploymentEducationField =
    | EmploymentStatus
    | EmployerName
    | EmployerAddress
    | JobTitle
    | StudentStatus
    | SchoolName
    | SchoolAddress
    | CourseOfStudy

  /** `data[field]`. */
  function Get(d: EmploymentEducation, f: EmploymentEducationField): FieldValue {
    match f
    case EmploymentStatus => Str(d.employmentStatus)
    case EmployerName => OptionalValue(d.employerName)
    case EmployerAddress => OptionalValue(d.employerAddress)
    case JobTitle => OptionalValue(d.jobTitle)
    case StudentStatus => Str(d.studentStatus)
    case SchoolName => OptionalValue(d.schoolName)
    case SchoolAddress => OptionalValue(d.schoolAddress)
    case CourseOfStudy => OptionalValue(d.courseOfStudy)
  }

  /** Every input of this step writes a string. */
  predicate Fits(f: EmploymentEducationField, v: FieldValue) {
    v.Str?
  }

  /** Two records that agree on every field are the same record. */
  lemma {:induction false} Extensionality(a: EmploymentEducation, b: EmploymentEducation)
    requires forall f :: Get(a, f) == Get(b, f)
    ensures a == b
  {
    assert Get(a, EmploymentStatus) == Get(b, EmploymentStatus);
    assert Get(a, EmployerName) == Get(b, EmployerName);
    assert Get(a, EmployerAddress) == Get(b, EmployerAddress);
    assert Get(a, JobTitle) == Get(b, JobTitle);
    assert Get(a, StudentStatus) == Get(b, StudentStatus);
    assert Get(a, SchoolName) == Get(b, SchoolName);
    assert Get(a, SchoolAddress) == Get(b, SchoolAddress);
    assert Get(a, CourseOfStudy) == Get(b, CourseOfStudy);
  }

  /** `handleChange(field, value)`: `{ ...data, [field]: value }`. */
  function HandleChange(d: EmploymentEducation, f: EmploymentEducationField, v: FieldValue): (r: EmploymentEducation)
    requires Fits(f, v)
    ensures Get(r, f) == v
    ensures forall g :: g != f ==> Get(r, g) == Get(d, g)
  {
    match f
    case EmploymentStatus => d.(employmentStatus := v.text)
    case EmployerName => d.(employerName := Some(v.text))
    case EmployerAddress => d.(employerAddress := Some(v.text))
    case JobTitle => d.(jobTitle := Some(v.text))
    case StudentStatus => d.(studentStatus := v.text)
    case SchoolName => d.(schoolName := Some(v.text))
    case SchoolAddress => d.(schoolAddress := Some(v.text))
    case CourseOfStudy => d.(courseOfStudy := Some(v.text))
  }

  /** The update is determined by its frame. */
  lemma HandleChangeUnique(d: EmploymentEducation, f: EmploymentEducationField, v: FieldValue, r: EmploymentEducation)
    requires Fits(f, v)
    requires Get(r, f) == v && forall g :: g != f ==> Get(r, g) == Get(d, g)
    ensures r == HandleChange(d, f, v)
  {
    Extensionality(r, HandleChange(d, f, v));
  }

  predicate IsEmployerField(f: EmploymentEducationField) {
    f == EmployerName || f == EmployerAddress || f == JobTitle
  }

  predicate IsSchoolField(f: EmploymentEducationField) {
    f == SchoolName || f == SchoolAddress || f == CourseOfStudy
  }

  /** Whether the step renders an input for the field, given the rest of the section. */
  predicate Relevant(d: EmploymentEducation, f: EmploymentEducationField) {
    if IsEmployerField(f) then d.employmentStatus == "Employed"
    else if IsSchoolField(f) then d.studentStatus != "Not a student"
    else true
  }

  /**
   * Employer inputs show exactly for "Employed"; school inputs show for every
   * student status except "Not a student", the empty status included.
   */
  lemma RelevanceTable(d: EmploymentEducation)
    ensures forall f :: IsEmployerField(f) ==> (Relevant(d, f) <==> d.employmentStatus == "Employed")
    ensures forall f :: IsSchoolField(f) ==> (Relevant(d, f) <==> d.studentStatus != "Not a student")
    ensures forall f :: !IsEmployerField(f) && !IsSchoolField(f) ==> Relevant(d, f)
    ensures d.studentStatus == "" ==> Relevant(d, SchoolName) && Relevant(d, SchoolAddress) && Relevant(d, CourseOfStudy)
  {
  }

  /** Changing a status hides inputs without clearing the employer or school values. */
  lemma StatusChangeKeepsDetails(d: EmploymentEducation, f: EmploymentEducationField, status: string)
    requires f == EmploymentStatus || f == StudentStatus
    ensures var r := HandleChange(d, f, Str(status));
      r.employerName == d.employerName && r.employerAddress == d.employerAddress && r.jobTitle == d.jobTitle &&
      r.schoolName == d.schoolName && r.schoolAddress == d.schoolAddress && r.courseOfStudy == d.courseOfStudy
  {
  }

  const EmploymentStatuses: seq<string> :=
    ["Unemployed", "Employed", "Self-employed", "Student", "Retired", "Other"]

  const StudentStatuses: seq<string> :=
    ["Not a student", "Full-time student", "Part-time student", "Exchange student"]

  /** Of the offered statuses, only "Employed" reveals the employer inputs and only "Not a student" hides the school inputs. */
  lemma StatusOptions()
    ensures forall i :: 0 <= i < |EmploymentStatuses| ==> (EmploymentStatuses[i] == "Employed" <==> i == 1)
    ensures forall i :: 0 <= i < |StudentStatuses| ==> (StudentStatuses[i] == "Not a student" <==> i == 0)
  {
  }
}
