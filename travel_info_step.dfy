/**
 * Step 1, travel information: the single-field update every input uses, and the
 * two sub-type inputs that appear only for one reason for travel.
 */
module TravelInfoStep {
  import opened Wrappers
  import opened VisaTypes

  /** `keyof TravelInfo`; the two enumeration-valued keys carry a `Field` suffix. */
  datatype TravelInfoField =
    | CountryOfNationality
    | ReasonForTravel
    | EmploymentVisaType
    | StudyVisaType
    | VisaTypeField
    | JourneyTypeField
    | PurposeOfTravel
    | PassportType
    | PassportNumber
    | ProposedEntryDate
    | ProposedExitDate

  /** `data[field]`. */
  function Get(d: TravelInfo, f: TravelInfoField): FieldValue {
    match f
    case CountryOfNationality => Str(d.countryOfNationality)
    case ReasonForTravel => Str(d.reasonForTravel)
    case EmploymentVisaType => OptionalValue(d.employmentVisaType)
    case StudyVisaType => OptionalValue(d.studyVisaType)
    case VisaTypeField => VisaTypeValue(d.visaType)
    case JourneyTypeField => JourneyTypeValue(d.journeyType)
    case PurposeOfTravel => Str(d.purposeOfTravel)
    case PassportType => Str(d.passportType)
    case PassportNumber => Str(d.passportNumber)
    case ProposedEntryDate => Str(d.proposedEntryDate)
    case ProposedExitDate => Str(d.proposedExitDate)
  }

  /** The values the interface lets each field hold; the inputs only ever write strings. */
  predicate Fits(f: TravelInfoField, v: FieldValue) {
    match f
    case VisaTypeField => v.VisaTypeValue?
    case JourneyTypeField => v.JourneyTypeValue?
    case _ => v.Str?
  }

  /** Two records that agree on every field are the same record. */
  lemma {:induction false} Extensionality(a: TravelInfo, b: TravelInfo)
    requires forall f :: Get(a, f) == Get(b, f)
    ensures a == b
  {
    assert Get(a, EmploymentVisaType) == Get(b, EmploymentVisaType);
    assert Get(a, StudyVisaType) == Get(b, StudyVisaType);
    assert Get(a, VisaTypeField) == Get(b, VisaTypeField);
    assert Get(a, JourneyTypeField) == Get(b, JourneyTypeField);
    assert Get(a, CountryOfNationality) == Get(b, CountryOfNationality);
    assert Get(a, ReasonForTravel) == Get(b, ReasonForTravel);
    assert Get(a, PurposeOfTravel) == Get(b, PurposeOfTravel);
    assert Get(a, PassportType) == Get(b, PassportType);
    assert Get(a, PassportNumber) == Get(b, PassportNumber);
    assert Get(a, ProposedEntryDate) == Get(b, ProposedEntryDate);
    assert Get(a, ProposedExitDate) == Get(b, ProposedExitDate);
  }

  /** `handleChange(field, value)`: `{ ...data, [field]: value }`. */
  function HandleChange(d: TravelInfo, f: TravelInfoField, v: FieldValue): (r: TravelInfo)
    requires Fits(f, v)
    ensures Get(r, f) == v
    ensures forall g :: g != f ==> Get(r, g) == Get(d, g)
  {
    match f
    case CountryOfNationality => d.(countryOfNationality := v.text)
    case ReasonForTravel => d.(reasonForTravel := v.text)
    case EmploymentVisaType => d.(employmentVisaType := Some(v.text))
    case StudyVisaType => d.(studyVisaType := Some(v.text))
    case VisaTypeField => d.(visaType := v.visa)
    case JourneyTypeField => d.(journeyType := v.journey)
    case PurposeOfTravel => d.(purposeOfTravel := v.text)
    case PassportType => d.(passportType := v.text)
    case PassportNumber => d.(passportNumber := v.text)
    case ProposedEntryDate => d.(proposedEntryDate := v.text)
    case ProposedExitDate => d.(proposedExitDate := v.text)
  }

  /** The update is determined by its frame: any record that has `v` at `f` and `d`'s values elsewhere is the result. */
  lemma HandleChangeUnique(d: TravelInfo, f: TravelInfoField, v: FieldValue, r: TravelInfo)
    requires Fits(f, v)
    requires Get(r, f) == v && forall g :: g != f ==> Get(r, g) == Get(d, g)
    ensures r == HandleChange(d, f, v)
  {
    Extensionality(r, HandleChange(d, f, v));
  }

  /** Whether the step renders an input for the field, given the rest of the section. */
  predicate Relevant(d: TravelInfo, f: TravelInfoField) {
    match f
    case EmploymentVisaType => d.reasonForTravel == "Employment"
    case StudyVisaType => d.reasonForTravel == "Study"
    case _ => true
  }

  /** The employment and study sub-type inputs are never shown together. */
  lemma SubTypeInputsExclusive(d: TravelInfo)
    ensures !(Relevant(d, EmploymentVisaType) && Relevant(d, StudyVisaType))
    ensures forall f :: f != EmploymentVisaType && f != StudyVisaType ==> Relevant(d, f)
  {
  }

  /** Picking another reason for travel hides a sub-type input but keeps its value. */
  lemma ReasonChangeKeepsSubTypes(d: TravelInfo, reason: string)
    ensures HandleChange(d, ReasonForTravel, Str(reason)).employmentVisaType == d.employmentVisaType
    ensures HandleChange(d, ReasonForTravel, Str(reason)).studyVisaType == d.studyVisaType
  {
  }

  /** The reasons the select offers. */
  const ReasonForTravelOptions: seq<string> :=
    ["Tourism", "Business", "Employment", "Study", "Family Visit", "Medical Treatment", "Transit"]

  /** Exactly one offered reason reveals each sub-type input. */
  lemma SubTypeReasonsOffered()
    ensures forall i :: 0 <= i < |ReasonForTravelOptions| ==>
      (ReasonForTravelOptions[i] == "Employment" <==> i == 2) &&
      (ReasonForTravelOptions[i] == "Study" <==> i == 3)
  {
  }
}
