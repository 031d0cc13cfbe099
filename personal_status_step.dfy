/**
 * Step 8, personal status: the single-field update and `showSpouseFields`.
 */
module PersonalStatusStep {
  import opened Wrappers
  import opened VisaTypes

  /** `keyof PersonalStatus`. */
  datatype PersonalStatusField =
    | MaritalStatus
    | SpouseName
    | SpouseNationality
    | SpouseDateOfBirth

  /** `data[field]`. */
  function Get(d: PersonalStatus, f: PersonalStatusField): FieldValue {
    match f
    case MaritalStatus => Str(d.maritalStatus)
    case SpouseName => OptionalValue(d.spouseName)
    case SpouseNationality => OptionalValue(d.spouseNationality)
    case SpouseDateOfBirth => OptionalValue(d.spouseDateOfBirth)
  }

  /** Every input of this step writes a string. */
  predicate Fits(f: PersonalStatusField, v: FieldValue) {
    v.Str?
  }

  /** Two records that agree on every field are the same record. */
  lemma {:induction false} Extensionality(a: PersonalStatus, b: PersonalStatus)
    requires forall f :: Get(a, f) == Get(b, f)
    ensures a == b
  {
    assert Get(a, MaritalStatus) == Get(b, MaritalStatus);
    assert Get(a, SpouseName) == Get(b, SpouseName);
    assert Get(a, SpouseNationality) == Get(b, SpouseNationality);
    assert Get(a, SpouseDateOfBirth) == Get(b, SpouseDateOfBirth);
  }

  /** `handleChange(field, value)`: `{ ...data, [field]: value }`. */
  function HandleChange(d: PersonalStatus, f: PersonalStatusField, v: FieldValue): (r: PersonalStatus)
    requires Fits(f, v)
    ensures Get(r, f) == v
    ensures forall g :: g != f ==> Get(r, g) == Get(d, g)
  {
    match f
    case MaritalStatus => d.(maritalStatus := v.text)
    case SpouseName => d.(spouseName := Some(v.text))
    case SpouseNationality => d.(spouseNationality := Some(v.text))
    case SpouseDateOfBirth => d.(spouseDateOfBirth := Some(v.text))
  }

  /** The update is determined by its frame. */
  lemma HandleChangeUnique(d: PersonalStatus, f: PersonalStatusField, v: FieldValue, r: PersonalStatus)
    requires Fits(f, v)
    requires Get(r, f) == v && forall g :: g != f ==> Get(r, g) == Get(d, g)
    ensures r == HandleChange(d, f, v)
  {
    Extensionality(r, HandleChange(d, f, v));
  }

  /** The marital statuses the select offers. */
  const MaritalStatuses: seq<string> :=
    ["Single", "Married", "Civil Partnership", "Divorced", "Separated", "Widowed"]

  /** `showSpouseFields`. */
  predicate ShowSpouseFields(d: PersonalStatus) {
    d.maritalStatus == "Married" || d.maritalStatus == "Civil Partnership"
  }

  /** Whether the step renders an input for the field, given the rest of the section. */
  predicate Relevant(d: PersonalStatus, f: PersonalStatusField) {
    f == MaritalStatus || ShowSpouseFields(d)
  }

  /** Six distinct statuses are offered, and the spouse inputs show for exactly the second and third. */
  lemma SpouseStatuses(d: PersonalStatus)
    ensures |MaritalStatuses| == 6
    ensures forall i, j :: 0 <= i < j < |MaritalStatuses| ==> MaritalStatuses[i] != MaritalStatuses[j]
    ensures ShowSpouseFields(d) <==> d.maritalStatus == MaritalStatuses[1] || d.maritalStatus == MaritalStatuses[2]
    ensures ShowSpouseFields(d) ==> d.maritalStatus in MaritalStatuses
  {
  }

  /** Leaving a married status hides the spouse inputs but keeps their values. */
  lemma StatusChangeKeepsSpouse(d: PersonalStatus, status: string)
    requires status != "Married" && status != "Civil Partnership"
    ensures var r := HandleChange(d, MaritalStatus, Str(status));
      !ShowSpouseFields(r) &&
      r.spouseName == d.spouseName && r.spouseNationality == d.spouseNationality &&
      r.spouseDateOfBirth == d.spouseDateOfBirth
  {
  }
}
