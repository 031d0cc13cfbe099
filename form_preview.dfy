/**
 * The review page: a fixed table of four sections whose fields are listed only
 * when truthy, two extra cards shown on conditions, the edit buttons with the
 * steps they jump to, and the submit button gated on the declaration.
 */
module FormPreview {
  import opened Wrappers
  import opened VisaTypes

  /**
   * The value of a preview cell: `undefined`, a string, or what
   * `new Date(iso).toLocaleDateString()` returns for a non-empty `iso`, which
   * depends on the locale and is kept symbolic.
   */
  datatype Display = Missing | Literal(text: string) | LocaleDate(iso: string)

  /** JavaScript truthiness of a cell; a locale date string is never empty. */
  predicate Truthy(v: Display) {
    match v
    case Missing => false
    case Literal(t) => t != ""
    case LocaleDate(_) => true
  }

  /** `formatDate(s)`: "Not provided" for an empty string, else the locale rendering. */
  function FormatDate(s: string): (r: Display)
    ensures Truthy(r)
    ensures s == "" <==> r == Literal("Not provided")
    ensures s != "" ==> r == LocaleDate(s)
  {
    if s == "" then Literal("Not provided") else LocaleDate(s)
  }

  /** An optional string as a cell: `undefined` stays missing. */
  function OptionalDisplay(o: Option<string>): (r: Display)
    ensures Truthy(r) <==> o.Some? && o.value != ""
  {
    match o
    case Some(s) => Literal(s)
    case None => Missing
  }

  datatype LabelledField = LabelledField(name: string, value: Display)

  /** One entry of the `sections` table. */
  datatype SectionEntry = SectionEntry(title: string, step: int, fields: seq<LabelledField>)

  function TravelFields(t: TravelInfo): seq<LabelledField> {
    [
      LabelledField("Country of Nationality", Literal(t.countryOfNationality)),
      LabelledField("Reason for Travel", Literal(t.reasonForTravel)),
      LabelledField("Employment Visa Type", OptionalDisplay(t.employmentVisaType)),
      LabelledField("Study Visa Type", OptionalDisplay(t.studyVisaType)),
      LabelledField("Visa Type", Literal(VisaTypeText(t.visaType))),
      LabelledField("Journey Type", Literal(JourneyTypeText(t.journeyType))),
      LabelledField("Purpose of Travel", Literal(t.purposeOfTravel)),
      LabelledField("Passport Type", Literal(t.passportType)),
      LabelledField("Passport Number", Literal(t.passportNumber)),
      LabelledField("Proposed Entry Date", FormatDate(t.proposedEntryDate)),
      LabelledField("Proposed Exit Date", FormatDate(t.proposedExitDate))]
  }

  function PersonalFields(p: PersonalInfo): seq<LabelledField> {
    [
      LabelledField("Surname", Literal(p.surname)),
      LabelledField("First Name", Literal(p.firstName)),
      LabelledField("Last Name", Literal(p.lastName)),
      LabelledField("Date of Birth", FormatDate(p.dateOfBirth)),
      LabelledField("Gender", Literal(GenderText(p.gender))),
      LabelledField("Country of Birth", Literal(p.countryOfBirth)),
      LabelledField("Current Location", Literal(p.currentLocation)),
      LabelledField("Address Line 1", Literal(p.addressLine1)),
      LabelledField("Address Line 2", Literal(p.addressLine2)),
      LabelledField("Contact Phone", Literal(p.contactPhone)),
      LabelledField("Email Address", Literal(p.emailAddress))]
  }

  function HistoryFields(h: VisaHistory): seq<LabelledField> {
    [
      LabelledField("Length of Residence (Years)", Literal(h.lengthOfResidenceYears)),
      LabelledField("Length of Residence (Months)", Literal(h.lengthOfResidenceMonths)),
      LabelledField("Has Been Refused", Literal(YesNoText(h.hasBeenRefused))),
      LabelledField("Has Convictions", Literal(YesNoText(h.hasConvictions))),
      LabelledField("Previous Visa Applications", Literal(h.previousVisaApplications)),
      LabelledField("Visa Refusals", Literal(h.visaRefusals)),
      LabelledField("Criminal Convictions", Literal(h.criminalConvictions))]
  }

  function PassportFields(p: PassportDetails): seq<LabelledField> {
    [
      LabelledField("Passport Number", Literal(p.passportNumber)),
      LabelledField("Travel Document Type", Literal(p.travelDocumentType)),
      LabelledField("Issuing Authority", Literal(p.issuingAuthority)),
      LabelledField("Date of Issue", FormatDate(p.dateOfIssue)),
      LabelledField("Date of Expiry", FormatDate(p.dateOfExpiry)),
      LabelledField("Is First Passport", Literal(if p.isFirstPassport then "Yes" else "No")),
      LabelledField("Previous Passport Number", OptionalDisplay(p.previousPassportNumber)),
      LabelledField("Previous Passport Expiry", FormatDate(p.previousPassportExpiry.GetOr("")))]
  }

  /** The headings of the four section cards, in display order. */
  const SectionTitles: seq<string> :=
    ["Travel Information", "Personal Information", "Visa History & Permissions", "Passport Details"]

  /** The `sections` table, in display order. */
  function Sections(f: VisaFormData): seq<SectionEntry> {
    [SectionEntry("Travel Information", 1, TravelFields(f.travelInfo)),
     SectionEntry("Personal Information", 2, PersonalFields(f.personalInfo)),
     SectionEntry("Visa History & Permissions", 3, HistoryFields(f.visaHistory)),
     SectionEntry("Passport Details", 4, PassportFields(f.passportDetails))]
  }

  /** `fields.map(field => field.value && <row>)`: the truthy fields, in order. */
  function ShownFields(fields: seq<LabelledField>): seq<LabelledField> {
    if fields == [] then []
    else if Truthy(fields[0].value) then [fields[0]] + ShownFields(fields[1..])
    else ShownFields(fields[1..])
  }

  /** A field is listed exactly when it is in the table and its value is truthy. */
  lemma {:induction false} ShownFieldsMembership(fields: seq<LabelledField>, x: LabelledField)
    ensures x in ShownFields(fields) <==> x in fields && Truthy(x.value)
  {
    if fields != [] {
      ShownFieldsMembership(fields[1..], x);
      assert fields == [fields[0]] + fields[1..];
    }
  }

  /** A rendered card: its title, the step its Edit button jumps to (if it has one), and its rows. */
  datatype Card = Card(title: string, editStep: Option<int>, rows: seq<LabelledField>)

  datatype Preview = Preview(cards: seq<Card>, submitEnabled: bool)

  function SectionCard(e: SectionEntry): Card {
    Card(e.title, Some(e.step), ShownFields(e.fields))
  }

  /** The extra card for step 5; both statuses are listed as they are, without the truthiness filter. */
  function EmploymentCard(e: EmploymentEducation): Card {
    Card("Employment & Education", Some(5), [
      LabelledField("Employment Status", Literal(e.employmentStatus)),
      LabelledField("Student Status", Literal(e.studentStatus))])
  }

  /** The declaration card, which has no Edit button. */
  function DeclarationCard(d: Declaration): Card {
    Card("Declaration", None, [
      LabelledField("Electronic Signature", Literal(d.signature)),
      LabelledField("Date", FormatDate(d.dateOfDeclaration))])
  }

  /** One card per entry of the `sections` table, with its Edit button. */
  function SectionCards(f: VisaFormData): (cs: seq<Card>)
    ensures |cs| == 4
    ensures forall i :: 0 <= i < 4 ==> cs[i].title == SectionTitles[i] && cs[i].editStep == Some(i + 1)
    ensures forall i :: 0 <= i < 4 ==> cs[i].rows == ShownFields(Sections(f)[i].fields)
  {
    var t := Sections(f);
    [SectionCard(t[0]), SectionCard(t[1]), SectionCard(t[2]), SectionCard(t[3])]
  }

  /** The employment card when a status is set, then the declaration card when it is agreed. */
  function ExtraCards(f: VisaFormData): seq<Card> {
    (if f.employmentEducation.employmentStatus != "" then [EmploymentCard(f.employmentEducation)] else [])
    + (if f.declaration.agreeToDeclaration then [DeclarationCard(f.declaration)] else [])
  }

  /** The review page for an application; the submit button is enabled only once the declaration is agreed. */
  function Render(f: VisaFormData): Preview {
    Preview(SectionCards(f) + ExtraCards(f), f.declaration.agreeToDeclaration)
  }

  predicate HasCard(p: Preview, title: string) {
    exists i :: 0 <= i < |p.cards| && p.cards[i].title == title
  }

  /** The step of a card's Edit button, if it has one. */
  function EditStepOf(c: Card): seq<int> {
    match c.editStep
    case Some(s) => [s]
    case None => []
  }

  /** The steps of the Edit buttons, card by card. */
  function EditSteps(cards: seq<Card>): seq<int> {
    if cards == [] then [] else EditStepOf(cards[0]) + EditSteps(cards[1..])
  }

  /** Every field of the table is listed exactly when its value is truthy. */
  lemma FieldShownIffTruthy(f: VisaFormData, i: nat, x: LabelledField)
    requires i < 4
    ensures x in Render(f).cards[i].rows <==> x in Sections(f)[i].fields && Truthy(x.value)
  {
    assert Render(f).cards[i] == SectionCards(f)[i];
    ShownFieldsMembership(Sections(f)[i].fields, x);
  }

  /** A field whose value is always truthy is always listed. */
  lemma TruthyFieldShown(f: VisaFormData, i: nat, k: nat)
    requires i < 4 && k < |Sections(f)[i].fields| && Truthy(Sections(f)[i].fields[k].value)
    ensures Sections(f)[i].fields[k] in Render(f).cards[i].rows
  {
    FieldShownIffTruthy(f, i, Sections(f)[i].fields[k]);
  }

  /** The two travel dates and the visa type are always listed. */
  lemma AlwaysShownTravelRows(f: VisaFormData)
    ensures LabelledField("Visa Type", Literal(VisaTypeText(f.travelInfo.visaType))) in Render(f).cards[0].rows
    ensures LabelledField("Proposed Entry Date", FormatDate(f.travelInfo.proposedEntryDate)) in Render(f).cards[0].rows
    ensures LabelledField("Proposed Exit Date", FormatDate(f.travelInfo.proposedExitDate)) in Render(f).cards[0].rows
  {
    var fields := Sections(f)[0].fields;
    assert fields[4] == LabelledField("Visa Type", Literal(VisaTypeText(f.travelInfo.visaType)));
    TruthyFieldShown(f, 0, 4);
    TruthyFieldShown(f, 0, 9);
    TruthyFieldShown(f, 0, 10);
  }

  /** The date of birth and the gender are always listed. */
  lemma AlwaysShownPersonalRows(f: VisaFormData)
    ensures LabelledField("Date of Birth", FormatDate(f.personalInfo.dateOfBirth)) in Render(f).cards[1].rows
    ensures LabelledField("Gender", Literal(GenderText(f.personalInfo.gender))) in Render(f).cards[1].rows
  {
    var fields := Sections(f)[1].fields;
    assert fields[4] == LabelledField("Gender", Literal(GenderText(f.personalInfo.gender)));
    TruthyFieldShown(f, 1, 3);
    TruthyFieldShown(f, 1, 4);
  }

  /** Both yes/no answers are always listed. */
  lemma AlwaysShownHistoryRows(f: VisaFormData)
    ensures LabelledField("Has Been Refused", Literal(YesNoText(f.visaHistory.hasBeenRefused))) in Render(f).cards[2].rows
    ensures LabelledField("Has Convictions", Literal(YesNoText(f.visaHistory.hasConvictions))) in Render(f).cards[2].rows
  {
    var fields := Sections(f)[2].fields;
    assert fields[2] == LabelledField("Has Been Refused", Literal(YesNoText(f.visaHistory.hasBeenRefused)));
    assert fields[3] == LabelledField("Has Convictions", Literal(YesNoText(f.visaHistory.hasConvictions)));
    TruthyFieldShown(f, 2, 2);
    TruthyFieldShown(f, 2, 3);
  }

  /** The passport dates, including the previous passport's expiry, and the first-passport answer are always listed. */
  lemma AlwaysShownPassportRows(f: VisaFormData)
    ensures LabelledField("Date of Issue", FormatDate(f.passportDetails.dateOfIssue)) in Render(f).cards[3].rows
    ensures LabelledField("Date of Expiry", FormatDate(f.passportDetails.dateOfExpiry)) in Render(f).cards[3].rows
    ensures LabelledField("Previous Passport Expiry", FormatDate(f.passportDetails.previousPassportExpiry.GetOr(""))) in Render(f).cards[3].rows
    ensures LabelledField("Is First Passport", Literal(if f.passportDetails.isFirstPassport then "Yes" else "No")) in Render(f).cards[3].rows
  {
    TruthyFieldShown(f, 3, 3);
    TruthyFieldShown(f, 3, 4);
    TruthyFieldShown(f, 3, 5);
    TruthyFieldShown(f, 3, 7);
  }

  /** The employment card appears exactly when an employment status is set. */
  lemma EmploymentCardIff(f: VisaFormData)
    ensures HasCard(Render(f), "Employment & Education") <==> f.employmentEducation.employmentStatus != ""
  {
    var p := Render(f);
    if f.employmentEducation.employmentStatus != "" {
      assert p.cards[4].title == "Employment & Education";
    } else {
      forall i | 0 <= i < |p.cards| ensures p.cards[i].title != "Employment & Education" {
        if i < 4 {
          assert p.cards[i] == SectionCards(f)[i];
        }
      }
    }
  }

  /** The declaration card appears exactly when the declaration is agreed. */
  lemma DeclarationCardIff(f: VisaFormData)
    ensures HasCard(Render(f), "Declaration") <==> f.declaration.agreeToDeclaration
  {
    var p := Render(f);
    if f.declaration.agreeToDeclaration {
      assert p.cards[|p.cards| - 1].title == "Declaration";
    } else {
      forall i | 0 <= i < |p.cards| ensures p.cards[i].title != "Declaration" {
        if i < 4 {
          assert p.cards[i] == SectionCards(f)[i];
        }
      }
    }
  }

  /** Submit is enabled exactly when the declaration is agreed. */
  lemma SubmitGate(f: VisaFormData)
    ensures Render(f).submitEnabled <==> f.declaration.agreeToDeclaration
  {
  }

  /** The Edit buttons jump to steps 1 to 4, then to 5 when the employment card is shown. */
  lemma EditStepsOfRender(f: VisaFormData)
    ensures EditSteps(Render(f).cards) ==
      [1, 2, 3, 4] + (if f.employmentEducation.employmentStatus != "" then [5] else [])
    ensures forall s :: s in EditSteps(Render(f).cards) ==> 1 <= s <= 5
  {
    var cs := SectionCards(f);
    var extra := ExtraCards(f);
    EditStepsAppend(cs, extra);
    SectionEditSteps(f);
    ExtraEditSteps(f);
  }

  lemma SectionEditSteps(f: VisaFormData)
    ensures EditSteps(SectionCards(f)) == [1, 2, 3, 4]
  {
    var cs := SectionCards(f);
    assert cs[3].editStep == Some(4);
    assert EditSteps(cs[3..]) == [4] by {
      assert cs[3..][1..] == [];
    }
    assert EditStepOf(cs[2]) == [3];
    assert cs[2..][1..] == cs[3..];
    assert EditSteps(cs[2..]) == [3, 4];
    assert EditStepOf(cs[1]) == [2];
    assert cs[1..][1..] == cs[2..];
    assert EditSteps(cs[1..]) == [2, 3, 4];
    assert EditStepOf(cs[0]) == [1];
  }

  lemma ExtraEditSteps(f: VisaFormData)
    ensures EditSteps(ExtraCards(f)) == (if f.employmentEducation.employmentStatus != "" then [5] else [])
  {
    var e := if f.employmentEducation.employmentStatus != "" then [EmploymentCard(f.employmentEducation)] else [];
    var d := if f.declaration.agreeToDeclaration then [DeclarationCard(f.declaration)] else [];
    EditStepsAppend(e, d);
    if e != [] {
      assert e[1..] == [];
    }
    if d != [] {
      assert d[1..] == [];
    }
  }

  lemma {:induction false} EditStepsAppend(a: seq<Card>, b: seq<Card>)
    ensures EditSteps(a + b) == EditSteps(a) + EditSteps(b)
  {
    if a == [] {
      assert a + b == b;
    } else {
      assert (a + b)[0] == a[0];
      assert (a + b)[1..] == a[1..] + b;
      EditStepsAppend(a[1..], b);
      calc {
        EditSteps(a + b);
        EditStepOf(a[0]) + EditSteps(a[1..] + b);
        EditStepOf(a[0]) + (EditSteps(a[1..]) + EditSteps(b));
        (EditStepOf(a[0]) + EditSteps(a[1..])) + EditSteps(b);
      }
    }
  }
}
