/**
 * The wizard controller: the current step, the preview flag, the application
 * record and the one browser-storage slot it saves to. The handlers are
 * specified by pure transitions over a `Snapshot` of that state; the class
 * `VisaForm` holds the state in fields and its methods perform exactly those
 * transitions in place.
 */
module VisaFormController {
  import opened Wrappers
  import opened VisaTypes
  import DependantChildrenStep
  import FormPreview

  /** `TOTAL_STEPS`: the number of steps before the preview. */
  const TotalSteps: int := 11

  /** `initialFormData`: every string empty except the enumerated defaults and a child count of "0". */
  const InitialFormData: VisaFormData := VisaFormData(
    TravelInfo("", "", None, None, Short, Single, "", "", "", "", ""),
    PersonalInfo("", "", "", "", Male, "", "", "", "", "", ""),
    VisaHistory("", "", "", "", "", No, No),
    PassportDetails("", "", "", "", "", true, None, None),
    EmploymentEducation("", None, None, None, "", None, None, None),
    TravelCompanions(false, []),
    ContactHost("", "", "", "", "", ""),
    PersonalStatus("", None, None, None),
    DependantChildren("0", []),
    AgentAssistance(false, None, None, None, None),
    Declaration(false, "", ""))

  // ---------------------------------------------------------------------------
  // Sections of the record (`keyof VisaFormData`) and `updateFormData`
  // ---------------------------------------------------------------------------

  datatype SectionKey =
    | TravelInfoKey | PersonalInfoKey | VisaHistoryKey | PassportDetailsKey
    | EmploymentEducationKey | TravelCompanionsKey | ContactHostKey
    | PersonalStatusKey | DependantChildrenKey | AgentAssistanceKey | DeclarationKey

  /** The value of one section, tagged with the section it belongs to. */
  datatype SectionData =
    | TravelInfoData(travelInfo: TravelInfo)
    | PersonalInfoData(personalInfo: PersonalInfo)
    | VisaHistoryData(visaHistory: VisaHistory)
    | PassportDetailsData(passportDetails: PassportDetails)
    | EmploymentEducationData(employmentEducation: EmploymentEducation)
    | TravelCompanionsData(travelCompanions: TravelCompanions)
    | ContactHostData(contactHost: ContactHost)
    | PersonalStatusData(personalStatus: PersonalStatus)
    | DependantChildrenData(dependantChildren: DependantChildren)
    | AgentAssistanceData(agentAssistance: AgentAssistance)
    | DeclarationData(declaration: Declaration)

  function KeyOf(d: SectionData): SectionKey {
    match d
    case TravelInfoData(_) => TravelInfoKey
    case PersonalInfoData(_) => PersonalInfoKey
    case VisaHistoryData(_) => VisaHistoryKey
    case PassportDetailsData(_) => PassportDetailsKey
    case EmploymentEducationData(_) => EmploymentEducationKey
    case TravelCompanionsData(_) => TravelCompanionsKey
    case ContactHostData(_) => ContactHostKey
    case PersonalStatusData(_) => PersonalStatusKey
    case DependantChildrenData(_) => DependantChildrenKey
    case AgentAssistanceData(_) => AgentAssistanceKey
    case DeclarationData(_) => DeclarationKey
  }

  /** `formData[section]`. */
  function GetSection(f: VisaFormData, section: SectionKey): (d: SectionData)
    ensures KeyOf(d) == section
  {
    match section
    case TravelInfoKey => TravelInfoData(f.travelInfo)
    case PersonalInfoKey => PersonalInfoData(f.personalInfo)
    case VisaHistoryKey => VisaHistoryData(f.visaHistory)
    case PassportDetailsKey => PassportDetailsData(f.passportDetails)
    case EmploymentEducationKey => EmploymentEducationData(f.employmentEducation)
    case TravelCompanionsKey => TravelCompanionsData(f.travelCompanions)
    case ContactHostKey => ContactHostData(f.contactHost)
    case PersonalStatusKey => PersonalStatusData(f.personalStatus)
    case DependantChildrenKey => DependantChildrenData(f.dependantChildren)
    case AgentAssistanceKey => AgentAssistanceData(f.agentAssistance)
    case DeclarationKey => DeclarationData(f.declaration)
  }

  /** Two records with the same eleven sections are the same record. */
  lemma {:induction false} SectionsDetermineRecord(f: VisaFormData, g: VisaFormData)
    requires forall k :: GetSection(f, k) == GetSection(g, k)
    ensures f == g
  {
    assert GetSection(f, TravelInfoKey) == GetSection(g, TravelInfoKey);
    assert GetSection(f, PersonalInfoKey) == GetSection(g, PersonalInfoKey);
    assert GetSection(f, VisaHistoryKey) == GetSection(g, VisaHistoryKey);
    assert GetSection(f, PassportDetailsKey) == GetSection(g, PassportDetailsKey);
    assert GetSection(f, EmploymentEducationKey) == GetSection(g, EmploymentEducationKey);
    assert GetSection(f, TravelCompanionsKey) == GetSection(g, TravelCompanionsKey);
    assert GetSection(f, ContactHostKey) == GetSection(g, ContactHostKey);
    assert GetSection(f, PersonalStatusKey) == GetSection(g, PersonalStatusKey);
    assert GetSection(f, DependantChildrenKey) == GetSection(g, DependantChildrenKey);
    assert GetSection(f, AgentAssistanceKey) == GetSection(g, AgentAssistanceKey);
    assert GetSection(f, DeclarationKey) == GetSection(g, DeclarationKey);
  }

  /**
   * `updateFormData(section, data)`: `{...prev, [section]: data}`. The data a
   * step hands back is always of its own section's type.
   */
  function ReplaceSection(f: VisaFormData, section: SectionKey, data: SectionData): (r: VisaFormData)
    requires KeyOf(data) == section
    ensures GetSection(r, section) == data
    ensures forall k :: k != section ==> GetSection(r, k) == GetSection(f, k)
  {
    match data
    case TravelInfoData(x) => f.(travelInfo := x)
    case PersonalInfoData(x) => f.(personalInfo := x)
    case VisaHistoryData(x) => f.(visaHistory := x)
    case PassportDetailsData(x) => f.(passportDetails := x)
    case EmploymentEducationData(x) => f.(employmentEducation := x)
    case TravelCompanionsData(x) => f.(travelCompanions := x)
    case ContactHostData(x) => f.(contactHost := x)
    case PersonalStatusData(x) => f.(personalStatus := x)
    case DependantChildrenData(x) => f.(dependantChildren := x)
    case AgentAssistanceData(x) => f.(agentAssistance := x)
    case DeclarationData(x) => f.(declaration := x)
  }

  /** The update is the only record with that section and the other ten unchanged. */
  lemma ReplaceSectionUnique(f: VisaFormData, section: SectionKey, data: SectionData, g: VisaFormData)
    requires KeyOf(data) == section
    requires GetSection(g, section) == data
    requires forall k :: k != section ==> GetSection(g, k) == GetSection(f, k)
    ensures g == ReplaceSection(f, section, data)
  {
    SectionsDetermineRecord(g, ReplaceSection(f, section, data));
  }

  /** Writing back a section's current value changes nothing. */
  lemma UpdateWithCurrentSection(f: VisaFormData, section: SectionKey)
    ensures ReplaceSection(f, section, GetSection(f, section)) == f
  {
    ReplaceSectionUnique(f, section, GetSection(f, section), f);
  }

  // ---------------------------------------------------------------------------
  // `renderStep`: which section each step shows and writes back
  // ---------------------------------------------------------------------------

  /** The section step `step` edits; any other number is the "Invalid step" case. */
  function SectionAt(step: int): (r: Option<SectionKey>)
    ensures r.Some? <==> 1 <= step <= TotalSteps
  {
    if step == 1 then Some(TravelInfoKey)
    else if step == 2 then Some(PersonalInfoKey)
    else if step == 3 then Some(VisaHistoryKey)
    else if step == 4 then Some(PassportDetailsKey)
    else if step == 5 then Some(EmploymentEducationKey)
    else if step == 6 then Some(TravelCompanionsKey)
    else if step == 7 then Some(ContactHostKey)
    else if step == 8 then Some(PersonalStatusKey)
    else if step == 9 then Some(DependantChildrenKey)
    else if step == 10 then Some(AgentAssistanceKey)
    else if step == 11 then Some(DeclarationKey)
    else None
  }

  /** The step that edits a section. */
  function StepOf(section: SectionKey): (n: int)
    ensures 1 <= n <= TotalSteps
    ensures SectionAt(n) == Some(section)
  {
    match section
    case TravelInfoKey => 1
    case PersonalInfoKey => 2
    case VisaHistoryKey => 3
    case PassportDetailsKey => 4
    case EmploymentEducationKey => 5
    case TravelCompanionsKey => 6
    case ContactHostKey => 7
    case PersonalStatusKey => 8
    case DependantChildrenKey => 9
    case AgentAssistanceKey => 10
    case DeclarationKey => 11
  }

  /** Every step edits its own section: steps and sections correspond one to one. */
  lemma StepsAndSectionsCorrespond(step: int)
    requires 1 <= step <= TotalSteps
    ensures StepOf(SectionAt(step).value) == step
  {
  }

  /** What `renderStep` passes to the step shown: its section's data, or nothing for an invalid step. */
  function RenderStep(step: int, f: VisaFormData): (r: Option<SectionData>)
    ensures r.Some? <==> 1 <= step <= TotalSteps
    ensures r.Some? ==> KeyOf(r.value) == SectionAt(step).value
  {
    match SectionAt(step)
    case Some(k) => Some(GetSection(f, k))
    case None => None
  }

  /**
   * A step's `onUpdate` writes into the section the step displays: after it,
   * the step shows exactly the data it handed back, and every other step shows
   * what it showed before.
   */
  lemma OnUpdateShowsOwnSection(step: int, f: VisaFormData, data: SectionData, other: int)
    requires 1 <= step <= TotalSteps && KeyOf(data) == SectionAt(step).value
    requires other != step
    ensures RenderStep(step, ReplaceSection(f, KeyOf(data), data)) == Some(data)
    ensures RenderStep(other, ReplaceSection(f, KeyOf(data), data)) == RenderStep(other, f)
  {
    if 1 <= other <= TotalSteps {
      StepsAndSectionsCorrespond(step);
      StepsAndSectionsCorrespond(other);
    }
  }

  // ---------------------------------------------------------------------------
  // The controller state and its transitions
  // ---------------------------------------------------------------------------

  /** What `localStorage.getItem('visaFormData')` holds: a record written by a save, or text that does not parse. */
  datatype StoredBlob = WellFormed(data: VisaFormData) | Malformed

  datatype Snapshot = Snapshot(
    currentStep: int,
    showPreview: bool,
    formData: VisaFormData,
    storage: Option<StoredBlob>)

  /** The wizard is on one of its steps, and the preview is only ever reached from the last one. */
  predicate StepInvariant(s: Snapshot) {
    1 <= s.currentStep <= TotalSteps && (s.showPreview ==> s.currentStep == TotalSteps)
  }

  /** The state on first render: step 1, no preview, the default record, and whatever storage holds. */
  function Initial(storage: Option<StoredBlob>): (s: Snapshot)
    ensures s.currentStep == 1 && !s.showPreview
    ensures StepInvariant(s)
    ensures s.formData == InitialFormData && s.storage == storage
  {
    Snapshot(1, false, InitialFormData, storage)
  }

  /** `nextStep`. */
  function Next(s: Snapshot): (r: Snapshot)
    ensures StepInvariant(s) ==> StepInvariant(r)
    ensures r.formData == s.formData && r.storage == s.storage
  {
    if s.currentStep < TotalSteps then s.(currentStep := s.currentStep + 1)
    else s.(showPreview := true)
  }

  /** `prevStep`. */
  function Prev(s: Snapshot): (r: Snapshot)
    ensures StepInvariant(s) ==> StepInvariant(r)
    ensures r.formData == s.formData && r.storage == s.storage
  {
    if s.showPreview then s.(showPreview := false)
    else if s.currentStep > 1 then s.(currentStep := s.currentStep - 1)
    else s
  }

  /** `goToStep(n)`: no bounds check on `n`. */
  function GoTo(s: Snapshot, n: int): (r: Snapshot)
    ensures r.currentStep == n && !r.showPreview
    ensures StepInvariant(r) <==> 1 <= n <= TotalSteps
    ensures r.formData == s.formData && r.storage == s.storage
  {
    s.(currentStep := n, showPreview := false)
  }

  /** `updateFormData(section, data)` on the held record. */
  function Updated(s: Snapshot, section: SectionKey, data: SectionData): (r: Snapshot)
    requires KeyOf(data) == section
    ensures StepInvariant(s) ==> StepInvariant(r)
    ensures RenderStep(StepOf(section), r.formData) == Some(data)
    ensures GetSection(r.formData, section) == data
    ensures forall k :: k != section ==> GetSection(r.formData, k) == GetSection(s.formData, k)
    ensures r.currentStep == s.currentStep && r.showPreview == s.showPreview && r.storage == s.storage
  {
    s.(formData := ReplaceSection(s.formData, section, data))
  }

  /** `saveToLocalStorage`: the whole current record goes into the slot. */
  function Saved(s: Snapshot): (r: Snapshot)
    ensures StepInvariant(s) ==> StepInvariant(r)
    ensures r.storage == Some(WellFormed(s.formData))
    ensures r.currentStep == s.currentStep && r.showPreview == s.showPreview && r.formData == s.formData
  {
    s.(storage := Some(WellFormed(s.formData)))
  }

  /** The mount effect: a stored record that parses replaces the form; an empty slot or a parse error leaves it. */
  function Loaded(s: Snapshot): (r: Snapshot)
    ensures StepInvariant(s) ==> StepInvariant(r)
    ensures r.currentStep == s.currentStep && r.showPreview == s.showPreview && r.storage == s.storage
  {
    match s.storage
    case Some(WellFormed(d)) => s.(formData := d)
    case Some(Malformed) => s
    case None => s
  }

  /** `handleSubmit`: the slot is emptied; nothing checks the declaration. */
  function Submitted(s: Snapshot): (r: Snapshot)
    ensures StepInvariant(s) ==> StepInvariant(r)
    ensures r.storage.None?
  {
    s.(storage := None)
  }

  /** Loading what was just saved leaves the form as it was. */
  lemma LoadAfterSave(s: Snapshot)
    ensures Loaded(Saved(s)) == Saved(s)
    ensures Loaded(Saved(s)).formData == s.formData
  {
  }

  /** Loading changes the form exactly when the slot holds a record that parses and differs from it. */
  lemma LoadChangesFormIff(s: Snapshot)
    ensures Loaded(s).formData != s.formData <==>
      s.storage.Some? && s.storage.value.WellFormed? && s.storage.value.data != s.formData
  {
  }

  /** Submitting touches only the slot, so after it a load has nothing to restore. */
  lemma SubmitOnlyClearsStorage(s: Snapshot)
    ensures Submitted(s) == s.(storage := None)
    ensures Loaded(Submitted(s)) == Submitted(s)
  {
  }

  // ---------------------------------------------------------------------------
  // Step navigation
  // ---------------------------------------------------------------------------

  /** Pressing Next `k` times. */
  function NextTimes(s: Snapshot, k: nat): Snapshot
    decreases k
  {
    if k == 0 then s else NextTimes(Next(s), k - 1)
  }

  /**
   * From a step, Next walks forward one step at a time; once at the last step
   * it opens the preview, and further presses leave the state as it is.
   */
  lemma {:induction false} NextTimesReachesPreview(s: Snapshot, k: nat)
    requires StepInvariant(s) && !s.showPreview
    ensures s.currentStep + k <= TotalSteps ==> NextTimes(s, k) == s.(currentStep := s.currentStep + k)
    ensures s.currentStep + k > TotalSteps ==> NextTimes(s, k) == s.(currentStep := TotalSteps, showPreview := true)
    decreases k
  {
    if k > 0 {
      if s.currentStep < TotalSteps {
        NextTimesReachesPreview(Next(s), k - 1);
      } else {
        NextTimesStaysInPreview(Next(s), k - 1);
      }
    }
  }

  /** In the preview at the last step, Next changes nothing. */
  lemma {:induction false} NextTimesStaysInPreview(s: Snapshot, k: nat)
    requires s.currentStep == TotalSteps && s.showPreview
    ensures NextTimes(s, k) == s
    decreases k
  {
    if k > 0 {
      assert Next(s) == s;
      NextTimesStaysInPreview(Next(s), k - 1);
    }
  }

  /** Ten presses of Next lead from step 1 to the last step, and the eleventh opens the preview. */
  lemma FromFirstStep(s: Snapshot)
    requires s.currentStep == 1 && !s.showPreview
    ensures NextTimes(s, 10).currentStep == TotalSteps && !NextTimes(s, 10).showPreview
    ensures NextTimes(s, 11).showPreview && NextTimes(s, 11).currentStep == TotalSteps
  {
    NextTimesReachesPreview(s, 10);
    NextTimesReachesPreview(s, 11);
  }

  /** Previous undoes Next on every step, including the move from the last step into the preview. */
  lemma PrevUndoesNext(s: Snapshot)
    requires StepInvariant(s) && !s.showPreview
    ensures Prev(Next(s)) == s
  {
  }

  /** Next undoes Previous wherever Previous moves: out of the preview, or back from a step after the first. */
  lemma NextUndoesPrev(s: Snapshot)
    requires StepInvariant(s) && (s.showPreview || s.currentStep > 1)
    ensures Next(Prev(s)) == s
  {
  }

  /** Previous leaves the preview on the last step and is a no-op on the first step. */
  lemma PrevEdges(s: Snapshot)
    ensures s.showPreview ==> Prev(s) == s.(showPreview := false)
    ensures !s.showPreview && s.currentStep == 1 ==> Prev(s) == s
  {
  }

  /** Every Edit button on the preview jumps to a step that keeps the invariant and shows that card's section. */
  lemma PreviewEditsStayValid(s: Snapshot)
    ensures forall n :: n in FormPreview.EditSteps(FormPreview.Render(s.formData).cards) ==>
      StepInvariant(GoTo(s, n)) && !GoTo(s, n).showPreview
    ensures forall i :: 0 <= i < 4 ==>
      SectionAt(FormPreview.Sections(s.formData)[i].step) ==
        Some([TravelInfoKey, PersonalInfoKey, VisaHistoryKey, PassportDetailsKey][i])
    ensures SectionAt(5) == Some(EmploymentEducationKey)
  {
    FormPreview.EditStepsOfRender(s.formData);
  }

  // ---------------------------------------------------------------------------
  // Sessions: sequences of handler calls
  // ---------------------------------------------------------------------------

  datatype Action =
    | NextAction
    | PrevAction
    | GoToAction(step: int)
    | UpdateAction(data: SectionData)
    | SaveAction
    | LoadAction
    | SubmitAction

  function Apply(s: Snapshot, a: Action): Snapshot {
    match a
    case NextAction => Next(s)
    case PrevAction => Prev(s)
    case GoToAction(n) => GoTo(s, n)
    case UpdateAction(d) => Updated(s, KeyOf(d), d)
    case SaveAction => Saved(s)
    case LoadAction => Loaded(s)
    case SubmitAction => Submitted(s)
  }

  function Run(s: Snapshot, actions: seq<Action>): Snapshot
    decreases |actions|
  {
    if actions == [] then s else Run(Apply(s, actions[0]), actions[1..])
  }

  /** The Edit buttons only ever pass steps that exist. */
  predicate ValidGoTo(a: Action) {
    a.GoToAction? ==> 1 <= a.step <= TotalSteps
  }

  predicate UsesStorage(a: Action) {
    a.SaveAction? || a.LoadAction? || a.SubmitAction?
  }

  /** Any session whose jumps target real steps keeps the step invariant. */
  lemma {:induction false} RunKeepsStepInvariant(s: Snapshot, actions: seq<Action>)
    requires StepInvariant(s)
    requires forall i :: 0 <= i < |actions| ==> ValidGoTo(actions[i])
    ensures StepInvariant(Run(s, actions))
    decreases |actions|
  {
    if actions != [] {
      assert ValidGoTo(actions[0]);
      RunKeepsStepInvariant(Apply(s, actions[0]), actions[1..]);
    }
  }

  /** Navigating and editing never touch the storage slot. */
  lemma {:induction false} EditingKeepsStorage(s: Snapshot, actions: seq<Action>)
    requires forall i :: 0 <= i < |actions| ==> !UsesStorage(actions[i])
    ensures Run(s, actions).storage == s.storage
    decreases |actions|
  {
    if actions != [] {
      assert !UsesStorage(actions[0]);
      EditingKeepsStorage(Apply(s, actions[0]), actions[1..]);
    }
  }

  /** After a save, any amount of navigating and editing, and a reload, the form is the record that was saved. */
  lemma ReloadRestoresLastSave(s: Snapshot, actions: seq<Action>)
    requires forall i :: 0 <= i < |actions| ==> !UsesStorage(actions[i])
    ensures Loaded(Run(Saved(s), actions)).formData == s.formData
  {
    EditingKeepsStorage(Saved(s), actions);
  }

  /** The defaults, and what the preview of a fresh form shows. */
  lemma InitialDefaults()
    ensures InitialFormData.travelInfo.visaType == Short && InitialFormData.personalInfo.gender == Male
    ensures InitialFormData.passportDetails.isFirstPassport
    ensures DependantChildrenStep.Consistent(InitialFormData.dependantChildren)
    ensures InitialFormData.dependantChildren.children == []
    ensures !InitialFormData.declaration.agreeToDeclaration
    ensures !FormPreview.HasCard(FormPreview.Render(InitialFormData), "Employment & Education")
    ensures !FormPreview.HasCard(FormPreview.Render(InitialFormData), "Declaration")
    ensures !FormPreview.Render(InitialFormData).submitEnabled
  {
    DependantChildrenStep.DefaultIsConsistent();
    FormPreview.EmploymentCardIff(InitialFormData);
    FormPreview.DeclarationCardIff(InitialFormData);
  }

  // ---------------------------------------------------------------------------
  // The component, holding its state in fields
  // ---------------------------------------------------------------------------

  class VisaForm {
    var currentStep: int
    var showPreview: bool
    var formData: VisaFormData
    /** The `visaFormData` slot of the browser's storage. */
    var storage: Option<StoredBlob>

    ghost function State(): Snapshot
      reads this
    {
      Snapshot(currentStep, showPreview, formData, storage)
    }

    ghost predicate Valid()
      reads this
    {
      StepInvariant(State())
    }

    /** First render, with the storage slot as the browser holds it. */
    constructor (saved: Option<StoredBlob>)
      ensures State() == Initial(saved)
      ensures Valid()
    {
      currentStep := 1;
      showPreview := false;
      formData := InitialFormData;
      storage := saved;
    }

    /** The mount effect. */
    method LoadSaved()
      modifies this
      ensures State() == Loaded(old(State()))
      ensures old(Valid()) ==> Valid()
    {
      match storage {
        case Some(WellFormed(d)) =>
          formData := d;
        case Some(Malformed) =>
        case None =>
      }
    }

    method SaveToLocalStorage()
      modifies this
      ensures State() == Saved(old(State()))
      ensures old(Valid()) ==> Valid()
    {
      storage := Some(WellFormed(formData));
    }

    method UpdateFormData(section: SectionKey, data: SectionData)
      requires KeyOf(data) == section
      modifies this
      ensures State() == Updated(old(State()), section, data)
      ensures old(Valid()) ==> Valid()
    {
      formData := ReplaceSection(formData, section, data);
    }

    method NextStep()
      modifies this
      ensures State() == Next(old(State()))
      ensures old(Valid()) ==> Valid()
    {
      if currentStep < TotalSteps {
        currentStep := currentStep + 1;
      } else {
        showPreview := true;
      }
    }

    method PrevStep()
      modifies this
      ensures State() == Prev(old(State()))
      ensures old(Valid()) ==> Valid()
    {
      if showPreview {
        showPreview := false;
      } else if currentStep > 1 {
        currentStep := currentStep - 1;
      }
    }

    method GoToStep(step: int)
      modifies this
      ensures State() == GoTo(old(State()), step)
      ensures Valid() <==> 1 <= step <= TotalSteps
    {
      currentStep := step;
      showPreview := false;
    }

    method HandleSubmit()
      modifies this
      ensures State() == Submitted(old(State()))
      ensures old(Valid()) ==> Valid()
    {
      storage := None;
    }
  }
}
