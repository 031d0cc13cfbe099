# Visa application wizard — a verified model

This project models the logic of a multi-step visa application form written as a
React wizard. An applicant fills in eleven steps, one section of the application
record per step. They can move Next and Previous, save their progress to the
browser's storage, review everything on a preview page, jump back from the
preview to a section with its Edit button, and submit.

The model covers:

- the application record and its enumerated domains (`src/types/visa.ts`);
- the wizard controller (`VisaForm.tsx`): the step, the preview flag, the record
  and the storage slot. It is a class whose methods update those fields in
  place. Each method is specified by a pure transition over a `Snapshot` of the
  state, and the properties are proved about those transitions;
- the single-field `handleChange` of the steps, and the visibility rule of each
  conditional input (steps 1, 3, 4, 5, 8, 10 and 11);
- the list editing of step 6 (travel companions) and step 9 (dependant children).
  Step 9's resize is an imperative loop;
- the preview page: the field table, the truthiness filter, the conditional
  cards, the Edit buttons and the submit gate;
- the few JavaScript built-ins this logic depends on: `parseInt`, `toString` of
  a non-negative integer, `Array.prototype.slice(0, end)`, `filter` by index,
  `map` at an index, and `Array.from` ranges.

Module layout: `Wrappers` (Option), `JsBuiltins`, `VisaTypes`, one module per
step (`TravelInfoStep`, `VisaHistoryStep`, `PassportDetailsStep`,
`EmploymentEducationStep`, `TravelCompanionsStep`, `PersonalStatusStep`,
`DependantChildrenStep`, `AgentAssistanceStep`, `DeclarationStep`),
`FormPreview` and `VisaFormController`.

The model follows the code as written; in particular:

- `goToStep` does not clamp its argument. The model proves the step invariant
  exactly for arguments 1 to 11, and proves that the preview only ever passes
  steps 1 to 5.
- `handleSubmit` does not check `agreeToDeclaration`. Only the preview's submit
  button is disabled until the declaration is agreed.
- Submitting clears the storage slot but keeps the step, the preview flag and
  the in-memory record.

## Model

| member | source | states |
|---|---|---|
| VisaTypes.ParseVisaType | src/types/visa.ts:6 | a visa type is exactly "short" or "long" |
| VisaTypes.VisaTypeText | src/types/visa.ts:6 | the string of a visa type reads back as that visa type |
| VisaTypes.ParseJourneyType | src/types/visa.ts:7 | a journey type is exactly "single" or "multiple" |
| VisaTypes.JourneyTypeText | src/types/visa.ts:7 | the string of a journey type reads back as that journey type |
| VisaTypes.ParseGender | src/types/visa.ts:20 | a gender is exactly "male", "female" or "other" |
| VisaTypes.GenderText | src/types/visa.ts:20 | the string of a gender reads back as that gender |
| VisaTypes.ParseYesNo | src/types/visa.ts:35-36 | the refusal and conviction answers are exactly "yes" or "no" |
| VisaTypes.YesNoText | src/types/visa.ts:35-36 | the string of an answer reads back as that answer |
| VisaTypes.OptionalValue | src/types/visa.ts:46-47 | an optional field reads as a string exactly when it is present, and as that string |
| JsBuiltins.TrimStart | src/components/visa/Step9DependantChildren.tsx:22 | `parseInt` skips leading white space: the result is a suffix of the input, every character dropped is white space, and the result does not start with white space |
| JsBuiltins.DigitPrefix | src/components/visa/Step9DependantChildren.tsx:22 | `parseInt` reads the longest prefix of digits: all of it is digits, and the next character is not one |
| JsBuiltins.ToDecimal | src/components/visa/Step3VisaHistory.tsx:19-20 | `toString` of a non-negative integer is non-empty, all digits, and has no leading zero |
| JsBuiltins.DigitsValueOfDecimal | src/components/visa/Step3VisaHistory.tsx:19-20 | the digits `toString` writes have the value of the number |
| JsBuiltins.ParseIntOfDigits | src/components/visa/Step9DependantChildren.tsx:22 | `parseInt` of a non-empty string of decimal digits is their value |
| JsBuiltins.ParseIntOfDecimal | src/components/visa/Step9DependantChildren.tsx:53 | `parseInt(n.toString())` is `n` for every non-negative integer |
| JsBuiltins.RangeStrings | src/components/visa/Step3VisaHistory.tsx:19-20 | `Array.from({length}, (_, i) => (first + i).toString())` has `length` entries |
| JsBuiltins.RangeStringsParse | src/components/visa/Step3VisaHistory.tsx:19-20 | entry k of a range parses back to first + k, and the entries are pairwise distinct |
| JsBuiltins.SliceTo | src/components/visa/Step9DependantChildren.tsx:34 | `slice(0, end)` is a prefix of the list: `end` items, or the whole list when the list is shorter; a negative `end` drops that many items from the back |
| JsBuiltins.WithoutIndex | src/components/visa/Step6TravelCompanions.tsx:32 | filtering out index i gives the list with exactly entry i removed, or the same list when i is out of range |
| JsBuiltins.MapAt | src/components/visa/Step6TravelCompanions.tsx:40-42 | mapping at index i changes only entry i and keeps the length |
| TravelInfoStep.HandleChange | src/components/visa/Step1TravelInfo.tsx:22-24 | the field written holds the new value and every other field is unchanged |
| TravelInfoStep.Extensionality | src/types/visa.ts:1-13 | two travel sections that agree on every field are equal |
| TravelInfoStep.HandleChangeUnique | src/components/visa/Step1TravelInfo.tsx:22-24 | the update is the only section with that field set and the rest unchanged |
| TravelInfoStep.SubTypeInputsExclusive | src/components/visa/Step1TravelInfo.tsx:70-88 | the employment and study sub-type inputs are never shown together, and all other inputs are always shown |
| TravelInfoStep.ReasonChangeKeepsSubTypes | src/components/visa/Step1TravelInfo.tsx:22-24 | changing the reason for travel keeps both sub-types |
| TravelInfoStep.SubTypeReasonsOffered | src/components/visa/Step1TravelInfo.tsx:26-28 | the reasons "Employment" and "Study" that show a sub-type input are among the options |
| VisaHistoryStep.HandleChange | src/components/visa/Step3VisaHistory.tsx:15-17 | the field written holds the new value and every other field is unchanged |
| VisaHistoryStep.Extensionality | src/types/visa.ts:29-37 | two history sections that agree on every field are equal |
| VisaHistoryStep.HandleChangeUnique | src/components/visa/Step3VisaHistory.tsx:15-17 | the update is the only section with that field set and the rest unchanged |
| VisaHistoryStep.RelevanceTable | src/components/visa/Step3VisaHistory.tsx:71-98 | the refusal details are shown iff the refusal answer is yes, the conviction details iff the conviction answer is yes, and every other field always |
| VisaHistoryStep.AnswerNoKeepsDetails | src/components/visa/Step3VisaHistory.tsx:15-17 | answering no hides the details but keeps their text |
| VisaHistoryStep.ResidenceOptions | src/components/visa/Step3VisaHistory.tsx:19-20 | there are 99 year options and 12 month options, and option k parses to k + 1 |
| VisaHistoryStep.ResidenceOptionBounds | src/components/visa/Step3VisaHistory.tsx:19-20 | the year options run from "1" to "99" and the month options from "1" to "12" |
| PassportDetailsStep.HandleChange | src/components/visa/Step4PassportDetails.tsx:21-23 | the field written holds the new value and every other field is unchanged |
| PassportDetailsStep.Extensionality | src/types/visa.ts:39-48 | two passport sections that agree on every field are equal |
| PassportDetailsStep.HandleChangeUnique | src/components/visa/Step4PassportDetails.tsx:21-23 | the update is the only section with that field set and the rest unchanged |
| PassportDetailsStep.RelevanceTable | src/components/visa/Step4PassportDetails.tsx:131 | the previous-passport fields are shown iff this is not the first passport, and every other field always |
| PassportDetailsStep.RetickFirstPassportKeepsPrevious | src/components/visa/Step4PassportDetails.tsx:21-23 | ticking "first passport" hides the previous-passport fields but keeps their values |
| PassportDetailsStep.TravelDocumentTypesDistinct | src/components/visa/Step4PassportDetails.tsx:25-27 | there are five travel document types, all different |
| EmploymentEducationStep.HandleChange | src/components/visa/Step5EmploymentEducation.tsx:15-17 | the field written holds the new value and every other field is unchanged |
| EmploymentEducationStep.Extensionality | src/types/visa.ts:50-59 | two employment sections that agree on every field are equal |
| EmploymentEducationStep.HandleChangeUnique | src/components/visa/Step5EmploymentEducation.tsx:15-17 | the update is the only section with that field set and the rest unchanged |
| EmploymentEducationStep.RelevanceTable | src/components/visa/Step5EmploymentEducation.tsx:46-97 | the employer fields are shown iff the status is "Employed"; the school fields iff the student status is not "Not a student", which includes the empty default; the statuses are always shown |
| EmploymentEducationStep.StatusChangeKeepsDetails | src/components/visa/Step5EmploymentEducation.tsx:15-17 | changing either status keeps all employer and school fields |
| EmploymentEducationStep.StatusOptions | src/components/visa/Step5EmploymentEducation.tsx:19-25 | "Employed" and "Not a student" each occur exactly once among the options |
| PersonalStatusStep.HandleChange | src/components/visa/Step8PersonalStatus.tsx:21-23 | the field written holds the new value and every other field is unchanged |
| PersonalStatusStep.Extensionality | src/types/visa.ts:80-85 | two personal-status sections that agree on every field are equal |
| PersonalStatusStep.HandleChangeUnique | src/components/visa/Step8PersonalStatus.tsx:21-23 | the update is the only section with that field set and the rest unchanged |
| PersonalStatusStep.SpouseStatuses | src/components/visa/Step8PersonalStatus.tsx:25-29 | there are six distinct marital statuses, and the spouse fields show exactly for the second and third of them |
| PersonalStatusStep.StatusChangeKeepsSpouse | src/components/visa/Step8PersonalStatus.tsx:21-23 | moving to a status without a spouse hides the spouse fields but keeps their values |
| TravelCompanionsStep.SetCompanionField | src/components/visa/Step6TravelCompanions.tsx:41 | the field written holds the value and the other field is unchanged |
| TravelCompanionsStep.HandleTravelingChange | src/components/visa/Step6TravelCompanions.tsx:16-22 | the flag takes the new value; ticking keeps the list and unticking empties it |
| TravelCompanionsStep.UntickThenTickStartsEmpty | src/components/visa/Step6TravelCompanions.tsx:16-22 | unticking and then ticking again leaves an empty list |
| TravelCompanionsStep.AddCompanion | src/components/visa/Step6TravelCompanions.tsx:24-29 | one blank companion is appended, the earlier entries and the flag are unchanged |
| TravelCompanionsStep.RemoveCompanion | src/components/visa/Step6TravelCompanions.tsx:31-37 | exactly entry i is dropped and the order is kept; an out-of-range i changes nothing; the flag is unchanged |
| TravelCompanionsStep.RemoveUndoesAdd | src/components/visa/Step6TravelCompanions.tsx:24-37 | removing the entry just added restores the section |
| TravelCompanionsStep.UpdateCompanion | src/components/visa/Step6TravelCompanions.tsx:39-47 | only the chosen field of entry i changes; length, other entries and the flag are kept; an out-of-range i changes nothing |
| TravelCompanionsStep.HiddenListStaysEmpty | src/components/visa/Step6TravelCompanions.tsx:16-47 | no handler leaves companions in the list while the list is hidden |
| DependantChildrenStep.SetChildField | src/components/visa/Step9DependantChildren.tsx:45 | the field written holds the value and the other fields are unchanged |
| DependantChildrenStep.ResizeChildren | src/components/visa/Step9DependantChildren.tsx:23-35 | for a parsed count n: NaN keeps the list; n >= 0 gives exactly n entries; a negative n drops that many from the back; surviving entries are unchanged and appended ones are blank |
| DependantChildrenStep.HandleNumberChange | src/components/visa/Step9DependantChildren.tsx:21-41 | the count string is stored verbatim; a count that does not parse keeps the list; a parsed count n >= 0 gives exactly n children, consistent with the count; a negative count drops that many from the back; surviving entries are unchanged and new entries are blank |
| DependantChildrenStep.SelectNumberOfChildren | src/components/visa/Step9DependantChildren.tsx:53-59 | choosing option k of the menu ("0" to "10") leaves exactly k children, consistent with the count, with the first entries kept |
| DependantChildrenStep.UpdateChild | src/components/visa/Step9DependantChildren.tsx:43-51 | only the chosen field of entry i changes; length, other entries and the count are kept; an out-of-range i changes nothing; a consistent section stays consistent |
| DependantChildrenStep.ShowsChildrenIffNonEmpty | src/components/visa/Step9DependantChildren.tsx:73 | for a consistent section, the children block is shown iff the list is non-empty |
| DependantChildrenStep.DefaultIsConsistent | src/components/visa/VisaForm.tsx:84-87 | the default count "0" with no children is consistent and shows no block |
| AgentAssistanceStep.Extensionality | src/types/visa.ts:98-104 | two agent sections with the same flag and the same four fields are equal |
| AgentAssistanceStep.HandleUsingAgentChange | src/components/visa/Step10AgentAssistance.tsx:15-24 | the flag takes the new value; ticking keeps all four agent fields and unticking makes all four undefined |
| AgentAssistanceStep.UntickThenTickClears | src/components/visa/Step10AgentAssistance.tsx:15-24 | unticking and then ticking again leaves the four fields undefined |
| AgentAssistanceStep.HandleChange | src/components/visa/Step10AgentAssistance.tsx:26-28 | the field written holds the value; the other agent fields and the flag are unchanged |
| AgentAssistanceStep.HandleChangeUnique | src/components/visa/Step10AgentAssistance.tsx:26-28 | the update is the only section with that field set and the rest unchanged |
| AgentAssistanceStep.HiddenAgentStaysCleared | src/components/visa/Step10AgentAssistance.tsx:15-28 | while the agent fields are hidden they are undefined, and the handlers keep it so |
| DeclarationStep.Extensionality | src/types/visa.ts:106-110 | two declarations that agree on every field are equal |
| DeclarationStep.HandleChange | src/components/visa/Step11Declaration.tsx:15-17 | the field written holds the new value and every other field is unchanged |
| DeclarationStep.HandleChangeUnique | src/components/visa/Step11Declaration.tsx:15-17 | the update is the only declaration with that field set and the rest unchanged |
| DeclarationStep.AgreementKeepsSignatureAndDate | src/components/visa/Step11Declaration.tsx:59 | ticking or unticking the agreement keeps the signature and the date |
| DeclarationStep.DefaultDate | src/components/visa/Step11Declaration.tsx:19-24 | an empty date becomes today's date; a set date is left alone; the agreement and signature are kept |
| DeclarationStep.DefaultDateIdempotent | src/components/visa/Step11Declaration.tsx:19-24 | once the date is defaulted, running the effect again, on any later day, changes nothing |
| FormPreview.FormatDate | src/components/visa/FormPreview.tsx:16-19 | a formatted date is always truthy, and it is "Not provided" exactly for the empty string |
| FormPreview.OptionalDisplay | src/components/visa/FormPreview.tsx:29-30 | an optional cell is truthy exactly when the field is present and non-empty |
| FormPreview.ShownFieldsMembership | src/components/visa/FormPreview.tsx:118-124 | a field is listed iff it is in the table and its value is truthy |
| FormPreview.SectionCards | src/components/visa/FormPreview.tsx:102-109 | there are four section cards, headed "Travel Information", "Personal Information", "Visa History & Permissions" and "Passport Details" in that order; card i's Edit button jumps to step i + 1, and its rows are the filtered fields of its table |
| FormPreview.FieldShownIffTruthy | src/components/visa/FormPreview.tsx:118-124 | in each of the four section cards, a field is rendered iff it is in that section's table and its value is truthy |
| FormPreview.TruthyFieldShown | src/components/visa/FormPreview.tsx:118-124 | a table field with a truthy value is rendered |
| FormPreview.AlwaysShownTravelRows | src/components/visa/FormPreview.tsx:31-37 | the visa type and both travel dates are always listed |
| FormPreview.AlwaysShownPersonalRows | src/components/visa/FormPreview.tsx:48-49 | the date of birth and the gender are always listed |
| FormPreview.AlwaysShownHistoryRows | src/components/visa/FormPreview.tsx:65-66 | both yes/no answers are always listed |
| FormPreview.AlwaysShownPassportRows | src/components/visa/FormPreview.tsx:80-84 | the passport dates, including the previous passport's expiry, and "Is First Passport" shown as Yes or No are always listed |
| FormPreview.EmploymentCardIff | src/components/visa/FormPreview.tsx:132-154 | the employment card appears iff an employment status is set |
| FormPreview.DeclarationCardIff | src/components/visa/FormPreview.tsx:156-175 | the declaration card appears iff the declaration is agreed |
| FormPreview.SubmitGate | src/components/visa/FormPreview.tsx:183-186 | submit is enabled iff the declaration is agreed |
| FormPreview.EditStepsOfRender | src/components/visa/FormPreview.tsx:102-136 | the Edit buttons jump to steps 1, 2, 3 and 4, then to 5 when the employment card is shown; every target is between 1 and 5 |
| FormPreview.SectionEditSteps | src/components/visa/FormPreview.tsx:102-109 | the four section cards jump to steps 1 to 4 in order |
| FormPreview.ExtraEditSteps | src/components/visa/FormPreview.tsx:132-159 | the employment card jumps to step 5 and the declaration card has no Edit button |
| FormPreview.EditStepsAppend | src/components/visa/FormPreview.tsx:102-175 | the Edit targets of consecutive cards are concatenated in order |
| VisaFormController.GetSection | src/types/visa.ts:112-124 | reading a section gives data tagged with that section |
| VisaFormController.SectionsDetermineRecord | src/types/visa.ts:112-124 | the record consists of exactly its eleven sections: records with the same sections are equal |
| VisaFormController.ReplaceSection | src/components/visa/VisaForm.tsx:123-128 | `updateFormData` sets the named section to the data and leaves the other ten unchanged |
| VisaFormController.ReplaceSectionUnique | src/components/visa/VisaForm.tsx:123-128 | the update is the only record with that section set and the other ten unchanged |
| VisaFormController.UpdateWithCurrentSection | src/components/visa/VisaForm.tsx:123-128 | writing back a section's current value changes nothing |
| VisaFormController.SectionAt | src/components/visa/VisaForm.tsx:159-186 | `renderStep` shows a section exactly for steps 1 to 11 |
| VisaFormController.StepOf | src/components/visa/VisaForm.tsx:159-186 | every section is edited by a step between 1 and 11 that `renderStep` maps back to it |
| VisaFormController.StepsAndSectionsCorrespond | src/components/visa/VisaForm.tsx:159-186 | steps and sections correspond one to one |
| VisaFormController.RenderStep | src/components/visa/VisaForm.tsx:159-186 | a valid step receives its own section's data; any other step gets the invalid-step case |
| VisaFormController.OnUpdateShowsOwnSection | src/components/visa/VisaForm.tsx:159-186 | what a step hands to `onUpdate` is what that step then shows, and every other step shows what it showed before |
| VisaFormController.Initial | src/components/visa/VisaForm.tsx:99-101 | the first state is step 1 without preview, with the default record, and it satisfies the step invariant |
| VisaFormController.Next | src/components/visa/VisaForm.tsx:130-136 | `nextStep` keeps the step invariant and touches neither the record nor the storage |
| VisaFormController.Prev | src/components/visa/VisaForm.tsx:138-144 | `prevStep` keeps the step invariant and touches neither the record nor the storage |
| VisaFormController.GoTo | src/components/visa/VisaForm.tsx:146-149 | `goToStep(n)` lands on step n with the preview closed; the step invariant then holds iff 1 <= n <= 11; record and storage are unchanged |
| VisaFormController.Updated | src/components/visa/VisaForm.tsx:123-128 | the updated section holds the new data and the step editing it shows that data; the other ten sections, the step, the preview flag and the storage are unchanged, and the step invariant is kept |
| VisaFormController.Saved | src/components/visa/VisaForm.tsx:115-121 | after a save the slot holds exactly the current record; the step, the preview flag and the record are unchanged, and the step invariant is kept |
| VisaFormController.Loaded | src/components/visa/VisaForm.tsx:104-113 | loading touches only the record: step, preview and storage are kept |
| VisaFormController.Submitted | src/components/visa/VisaForm.tsx:151-157 | after submitting the slot is empty, and the step invariant is kept |
| VisaFormController.LoadAfterSave | src/components/visa/VisaForm.tsx:104-121 | loading what was just saved gives back the same record |
| VisaFormController.LoadChangesFormIff | src/components/visa/VisaForm.tsx:104-113 | loading changes the record iff the slot holds a well-formed record that differs from it; an empty slot or a parse failure leaves it |
| VisaFormController.SubmitOnlyClearsStorage | src/components/visa/VisaForm.tsx:151-157 | submitting changes only the storage slot, with no check of the declaration, and a later load has nothing to restore |
| VisaFormController.NextTimesReachesPreview | src/components/visa/VisaForm.tsx:130-136 | pressing Next k times advances k steps up to the last step, then opens the preview and stays there |
| VisaFormController.NextTimesStaysInPreview | src/components/visa/VisaForm.tsx:130-136 | in the preview at the last step, Next changes nothing |
| VisaFormController.FromFirstStep | src/components/visa/VisaForm.tsx:130-136 | from step 1, ten presses reach step 11 and the eleventh opens the preview |
| VisaFormController.PrevUndoesNext | src/components/visa/VisaForm.tsx:130-144 | Previous undoes Next on every step, including entering the preview |
| VisaFormController.NextUndoesPrev | src/components/visa/VisaForm.tsx:130-144 | Next undoes Previous wherever Previous moves |
| VisaFormController.PrevEdges | src/components/visa/VisaForm.tsx:138-144 | from the preview, Previous only closes it; at step 1, Previous does nothing |
| VisaFormController.PreviewEditsStayValid | src/components/visa/VisaForm.tsx:146-149 | every Edit button on the preview leads to a valid step outside the preview, and the step edits that card's section |
| VisaFormController.RunKeepsStepInvariant | src/components/visa/VisaForm.tsx:123-157 | any sequence of handler calls whose jumps target steps 1 to 11 keeps the step invariant |
| VisaFormController.EditingKeepsStorage | src/components/visa/VisaForm.tsx:123-149 | navigating and editing never touch the storage slot |
| VisaFormController.ReloadRestoresLastSave | src/components/visa/VisaForm.tsx:104-149 | after a save, any navigation and edits, and a reload, the record is the one saved |
| VisaFormController.InitialDefaults | src/components/visa/VisaForm.tsx:23-96 | the defaults are a short visa, male gender, first passport, count "0" with no children (consistent), and no agreement; a fresh preview shows neither extra card and keeps submit disabled |
| VisaFormController.VisaForm.constructor | src/components/visa/VisaForm.tsx:99-101 | the component starts in the initial state, with the storage slot as found |
| VisaFormController.VisaForm.LoadSaved | src/components/visa/VisaForm.tsx:104-113 | the mount effect performs the load transition in place |
| VisaFormController.VisaForm.SaveToLocalStorage | src/components/visa/VisaForm.tsx:115-121 | performs the save transition in place |
| VisaFormController.VisaForm.UpdateFormData | src/components/visa/VisaForm.tsx:123-128 | performs the section update in place |
| VisaFormController.VisaForm.NextStep | src/components/visa/VisaForm.tsx:130-136 | performs the Next transition in place and keeps the step invariant |
| VisaFormController.VisaForm.PrevStep | src/components/visa/VisaForm.tsx:138-144 | performs the Previous transition in place and keeps the step invariant |
| VisaFormController.VisaForm.GoToStep | src/components/visa/VisaForm.tsx:146-149 | performs the jump in place: the component lands on the target step with the preview closed, and the step invariant holds afterwards iff the target is 1 to 11 |
| VisaFormController.VisaForm.HandleSubmit | src/components/visa/VisaForm.tsx:151-157 | performs the submit transition in place |

## Left out

- JSX layout, styling, the UI widgets, the step titles and the progress bar
  (`ProgressBar.tsx`, which computes a floating-point percentage). These are
  presentation only.
- `src/pages/Index.tsx` is a static landing page and is not part of this model.
- Steps 2 and 7 (`Step2PersonalInfo.tsx`, `Step7ContactHost.tsx`) are not part of
  this model. Each has only the same one-line field update that the other steps
  model, and no visibility or list logic.
- `new Date(...).toLocaleDateString()` is kept symbolic as `LocaleDate(iso)`,
  which is always truthy. Today's date in the declaration step is a parameter.
  Both depend on the locale and the clock.
- The browser's storage is an in-memory optional field. `JSON.stringify` and
  `JSON.parse` are abstracted to a blob that is either a well-formed record or
  text that fails to parse. An empty stored string, which the load effect
  skips, behaves like a failed parse. Text that parses to something other than
  an application record is not modelled.
- Toast notifications and `console.error` are left out, because they are
  feedback only. `CountryDropdown` and `useToast` are not part of this model.
- React's batching of state updates is left out. Each handler is modelled as one
  atomic transition.
- `JsBuiltins.ParseInt` models leading white space, a sign, the `0x` prefix and
  the digit prefix, with NaN as `None`. It uses unbounded integers, so the
  precision loss of very long digit strings in JavaScript numbers is not
  modelled. The white-space set is the one the ECMAScript grammar lists
  (including the Unicode space separators).
- VisaFormController.ReplaceSection: requires the data to be of the named
  section's type. `updateFormData` accepts `any`, but every step passes its own
  section, so a mismatched call is not modelled.
- AgentAssistanceStep.HandleChange: covers the four agent fields. The source's
  `keyof AgentAssistance` also admits `usingAgent`, but only the four text
  inputs call it.
- DependantChildrenStep.HandleNumberChange: the count is compared as an
  unbounded integer. A count beyond JavaScript's safe-integer range is not
  modelled.
