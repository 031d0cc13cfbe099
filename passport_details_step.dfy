/**
 * Step 4, passport details: the single-field update and the previous-passport
 * inputs that appear only when this is not the applicant's first passport.
 */
module PassportDetailsStep {
  import opened Wrappers
  import opened VisaTypes

  /** `keyof PassportDetails`. */
  datatype PassportDetailsField =
    | PassportNumber
    | TravelDocumentType
    | IssuingAuthority
    | DateOfIssue
    | DateOfExpiry
    | IsFirstPassport
    | PreviousPassportNumber
    | PreviousPassportExpiry

  /** `data[field]`. */
  function Get(d: PassportDetails, f: PassportDetailsField): FieldValue {
    match f
    case PassportNumber => Str(d.passportNumber)
    case TravelDocumentType => Str(d.travelDocumentType)
    case IssuingAuthority => Str(d.issuingAuthority)
    case DateOfIssue => Str(d.dateOfIssue)
    case DateOfExpiry => Str(d.dateOfExpiry)
    case IsFirstPassport => Bool(d.isFirstPassport)
    case PreviousPassportNumber => OptionalValue(d.previousPassportNumber)
    case PreviousPassportExpiry => OptionalValue(d.previousPassportExpiry)
  }

  /** The checkbox writes a boolean; every other input writes a string. */
  predicate Fits(f: PassportDetailsField, v: FieldValue) {
    match f
    case IsFirstPassport => v.Bool?
    case _ => v.Str?
  }

  /** Two records that agree on every field are the same record. */
  lemma {:induction false} Extensionality(a: PassportDetails, b: PassportDetails)
    requires forall f :: Get(a, f) == Get(b, f)
    ensures a == b
  {
    assert Get(a, PassportNumber) == Get(b, PassportNumber);
    assert Get(a, TravelDocumentType) == Get(b, TravelDocumentType);
    assert Get(a, IssuingAuthority) == Get(b, IssuingAuthority);
    assert Get(a, DateOfIssue) == Get(b, DateOfIssue);
    assert Get(a, DateOfExpiry) == Get(b, DateOfExpiry);
    assert Get(a, IsFirstPassport) == Get(b, IsFirstPassport);
    assert Get(a, PreviousPassportNumber) == Get(b, PreviousPassportNumber);
    assert Get(a, PreviousPassportExpiry) == Get(b, PreviousPassportExpiry);
  }

  /** `handleChange(field, value)`: `{ ...data, [field]: value }`. */
  function HandleChange(d: PassportDetails, f: PassportDetailsField, v: FieldValue): (r: PassportDetails)
    requires Fits(f, v)
    ensures Get(r, f) == v
    ensures forall g :: g != f ==> Get(r, g) == Get(d, g)
  {
    match f
    case PassportNumber => d.(passportNumber := v.text)
    case TravelDocumentType => d.(travelDocumentType := v.text)
    case IssuingAuthority => d.(issuingAuthority := v.text)
    case DateOfIssue => d.(dateOfIssue := v.text)
    case DateOfExpiry => d.(dateOfExpiry := v.text)
    case IsFirstPassport => d.(isFirstPassport := v.flag)
    case PreviousPassportNumber => d.(previousPassportNumber := Some(v.text))
    case PreviousPassportExpiry => d.(previousPassportExpiry := Some(v.text))
  }

  /** The update is determined by its frame. */
  lemma HandleChangeUnique(d: PassportDetails, f: PassportDetailsField, v: FieldValue, r: PassportDetails)
    requires Fits(f, v)
    requires Get(r, f) == v && forall g :: g != f ==> Get(r, g) == Get(d, g)
    ensures r == HandleChange(d, f, v)
  {
    Extensionality(r, HandleChange(d, f, v));
  }

  /** Whether the step renders an input for the field, given the rest of the section. */
  predicate Relevant(d: PassportDetails, f: PassportDetailsField) {
    match f
    case PreviousPassportNumber => !d.isFirstPassport
    case PreviousPassportExpiry => !d.isFirstPassport
    case _ => true
  }

  /** Only the two previous-passport inputs are conditional, both on the first-passport flag. */
  lemma RelevanceTable(d: PassportDetails)
    ensures forall f :: !Relevant(d, f) <==>
      d.isFirstPassport && (f == PreviousPassportNumber || f == PreviousPassportExpiry)
  {
  }

  /** Ticking "first passport" again hides the previous-passport inputs but keeps their values. */
  lemma RetickFirstPassportKeepsPrevious(d: PassportDetails)
    ensures var r := HandleChange(d, IsFirstPassport, Bool(true));
      r.previousPassportNumber == d.previousPassportNumber &&
      r.previousPassportExpiry == d.previousPassportExpiry &&
      !Relevant(r, PreviousPassportNumber) && !Relevant(r, PreviousPassportExpiry)
  {
  }

  /** The travel document types the select offers. */
  const TravelDocumentTypes: seq<string> :=
    ["Passport", "Travel Document", "Refugee Travel Document", "Emergency Travel Document", "Temporary Passport"]

  /** Five document types, no two alike. */
  lemma TravelDocumentTypesDistinct()
    ensures |TravelDocumentTypes| == 5
    ensures forall i, j :: 0 <= i < j < |TravelDocumentTypes| ==> TravelDocumentTypes[i] != TravelDocumentTypes[j]
  {
  }
}
