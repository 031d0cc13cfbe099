/**
 * The application record and its eleven sections. String unions become
 * enumerations, optional (`?`) members become `Option<string>`, arrays become
 * sequences.
 */
module VisaTypes {
  import opened Wrappers

  // ---------------------------------------------------------------------------
  // Enumerated domains and their string encodings
  // ---------------------------------------------------------------------------

  datatype VisaType = Short | Long
  datatype JourneyType = Single | Multiple
  datatype Gender = Male | Female | Other
  datatype YesNo = Yes | No

  /** The string a radio group carries for a visa type; only "short" and "long" are visa types. */
  function ParseVisaType(s: string): (r: Option<VisaType>)
    ensures r.Some? <==> s == "short" || s == "long"
  {
    if s == "short" then Some(Short) else if s == "long" then Some(Long) else None
  }

  function VisaTypeText(v: VisaType): (s: string)
    ensures ParseVisaType(s) == Some(v)
  {
    match v
    case Short => "short"
    case Long => "long"
  }

  function ParseJourneyType(s: string): (r: Option<JourneyType>)
    ensures r.Some? <==> s == "single" || s == "multiple"
  {
    if s == "single" then Some(Single) else if s == "multiple" then Some(Multiple) else None
  }

  function JourneyTypeText(j: JourneyType): (s: string)
    ensures ParseJourneyType(s) == Some(j)
  {
    match j
    case Single => "single"
    case Multiple => "multiple"
  }

  function ParseGender(s: string): (r: Option<Gender>)
    ensures r.Some? <==> s == "male" || s == "female" || s == "other"
  {
    if s == "male" then Some(Male) else if s == "female" then Some(Female)
    else if s == "other" then Some(Other) else None
  }

  function GenderText(g: Gender): (s: string)
    ensures ParseGender(s) == Some(g)
  {
    match g
    case Male => "male"
    case Female => "female"
    case Other => "other"
  }

  function ParseYesNo(s: string): (r: Option<YesNo>)
    ensures r.Some? <==> s == "yes" || s == "no"
  {
    if s == "yes" then Some(Yes) else if s == "no" then Some(No) else None
  }

  function YesNoText(a: YesNo): (s: string)
    ensures ParseYesNo(s) == Some(a)
  {
    match a
    case Yes => "yes"
    case No => "no"
  }

  // ---------------------------------------------------------------------------
  // The sections
  // ---------------------------------------------------------------------------

  datatype TravelInfo = TravelInfo(
    countryOfNationality: string,
    reasonForTravel: string,
    employmentVisaType: Option<string>,
    studyVisaType: Option<string>,
    visaType: VisaType,
    journeyType: JourneyType,
    purposeOfTravel: string,
    passportType: string,
    passportNumber: string,
    proposedEntryDate: string,
    proposedExitDate: string)

  datatype PersonalInfo = PersonalInfo(
    surname: string,
    firstName: string,
    lastName: string,
    dateOfBirth: string,
    gender: Gender,
    countryOfBirth: string,
    currentLocation: string,
    addressLine1: string,
    addressLine2: string,
    contactPhone: string,
    emailAddress: string)

  datatype VisaHistory = VisaHistory(
    lengthOfResidenceYears: string,
    lengthOfResidenceMonths: string,
    previousVisaApplications: string,
    visaRefusals: string,
    criminalConvictions: string,
    hasBeenRefused: YesNo,
    hasConvictions: YesNo)

  datatype PassportDetails = PassportDetails(
    passportNumber: string,
    travelDocumentType: string,
    issuingAuthority: string,
    dateOfIssue: string,
    dateOfExpiry: string,
    isFirstPassport: bool,
    previousPassportNumber: Option<string>,
    previousPassportExpiry: Option<string>)

  datatype EmploymentEducation = EmploymentEducation(
    employmentStatus: string,
    employerName: Option<string>,
    employerAddress: Option<string>,
    jobTitle: Option<string>,
    studentStatus: string,
    schoolName: Option<string>,
    schoolAddress: Option<string>,
    courseOfStudy: Option<string>)

  datatype TravelCompanion = TravelCompanion(name: string, relationship: string)

  datatype TravelCompanions = TravelCompanions(
    travelingWithOthers: bool,
    companions: seq<TravelCompanion>)

  datatype ContactHost = ContactHost(
    hostName: string,
    hostAddress: string,
    hostPhone: string,
    hostEmail: string,
    relationshipToHost: string,
    hostType: string)

  datatype PersonalStatus = PersonalStatus(
    maritalStatus: string,
    spouseName: Option<string>,
    spouseNationality: Option<string>,
    spouseDateOfBirth: Option<string>)

  datatype Child = Child(name: string, dateOfBirth: string, nationality: string)

  datatype DependantChildren = DependantChildren(
    numberOfChildren: string,
    children: seq<Child>)

  datatype AgentAssistance = AgentAssistance(
    usingAgent: bool,
    agentName: Option<string>,
    agentAddress: Option<string>,
    agentPhone: Option<string>,
    agentEmail: Option<string>)

  datatype Declaration = Declaration(
    agreeToDeclaration: bool,
    signature: string,
    dateOfDeclaration: string)

  /** The whole application: exactly the eleven named sections. */
  datatype VisaFormData = VisaFormData(
    travelInfo: TravelInfo,
    personalInfo: PersonalInfo,
    visaHistory: VisaHistory,
    passportDetails: PassportDetails,
    employmentEducation: EmploymentEducation,
    travelCompanions: TravelCompanions,
    contactHost: ContactHost,
    personalStatus: PersonalStatus,
    dependantChildren: DependantChildren,
    agentAssistance: AgentAssistance,
    declaration: Declaration)

  // ---------------------------------------------------------------------------
  // Values a step's `handleChange(field, value)` writes into one field
  // ---------------------------------------------------------------------------

  /**
   * The value of one field as the steps read and write it: a string, `undefined`
   * (an optional field never filled in or cleared), a boolean, or one of the
   * enumerations.
   */
  datatype FieldValue =
    | Str(text: string)
    | Undefined
    | Bool(flag: bool)
    | VisaTypeValue(visa: VisaType)
    | JourneyTypeValue(journey: JourneyType)
    | YesNoValue(answer: YesNo)

  /** An optional string field read as a field value. */
  function OptionalValue(o: Option<string>): (v: FieldValue)
    ensures v.Str? <==> o.Some?
    ensures v.Str? ==> o == Some(v.text)
  {
    match o
    case Some(s) => Str(s)
    case None => Undefined
  }
}
