/**
 * Step 3, visa history: the single-field update, the two detail boxes that appear
 * only after a "yes", and the year and month option lists.
 */
module VisaHistoryStep {
  import opened Wrappers
  import opened JsBuiltins
  import opened VisaTypes

  /** `keyof VisaHistory`. */
  datatype VisaHistoryField =
    | LengthOfResidenceYears
    | LengthOfResidenceMonths
    | PreviousVisaApplications
    | VisaRefusals
    | CriminalConvictions
    | HasBeenRefused
    | HasConvictions

  /** `data[field]`. */
  function Get(d: VisaHistory, f: VisaHistoryField): FieldValue {
    match f
    case LengthOfResidenceYears => Str(d.lengthOfResidenceYears)
    case LengthOfResidenceMonths => Str(d.lengthOfResidenceMonths)
    case PreviousVisaApplications => Str(d.previousVisaApplications)
    case VisaRefusals => Str(d.visaRefusals)
    case CriminalConvictions => Str(d.criminalConvictions)
    case HasBeenRefused => YesNoValue(d.hasBeenRefused)
    case HasConvictions => YesNoValue(d.hasConvictions)
  }

  /** The two radio groups write "yes" or "no"; every other input writes a string. */
  predicate Fits(f: VisaHistoryField, v: FieldValue) {
    match f
    case HasBeenRefused => v.YesNoValue?
    case HasConvictions => v.YesNoValue?
    case _ => v.Str?
  }

  /** Two records that agree on every field are the same record. */
  lemma {:induction false} Extensionality(a: VisaHistory, b: VisaHistory)
    requires forall f :: Get(a, f) == Get(b, f)
    ensures a == b
  {
    assert Get(a, LengthOfResidenceYears) == Get(b, LengthOfResidenceYears);
    assert Get(a, LengthOfResidenceMonths) == Get(b, LengthOfResidenceMonths);
    assert Get(a, PreviousVisaApplications) == Get(b, PreviousVisaApplications);
    assert Get(a, VisaRefusals) == Get(b, VisaRefusals);
    assert Get(a, CriminalConvictions) == Get(b, CriminalConvictions);
    assert Get(a, HasBeenRefused) == Get(b, HasBeenRefused);
    assert Get(a, HasConvictions) == Get(b, HasConvictions);
  }

  /** `handleChange(field, value)`: `{ ...data, [field]: value }`. */
  function HandleChange(d: VisaHistory, f: VisaHistoryField, v: FieldValue): (r: VisaHistory)
    requires Fits(f, v)
    ensures Get(r, f) == v
    ensures forall g :: g != f ==> Get(r, g) == Get(d, g)
  {
    match f
    case LengthOfResidenceYears => d.(lengthOfResidenceYears := v.text)
    case LengthOfResidenceMonths => d.(lengthOfResidenceMonths := v.text)
    case PreviousVisaApplications => d.(previousVisaApplications := v.text)
    case VisaRefusals => d.(visaRefusals := v.text)
    case CriminalConvictions => d.(criminalConvictions := v.text)
    case HasBeenRefused => d.(hasBeenRefused := v.answer)
    case HasConvictions => d.(hasConvictions := v.answer)
  }

  /** The update is determined by its frame. */
  lemma HandleChangeUnique(d: VisaHistory, f: VisaHistoryField, v: FieldValue, r: VisaHistory)
    requires Fits(f, v)
    requires Get(r, f) == v && forall g :: g != f ==> Get(r, g) == Get(d, g)
    ensures r == HandleChange(d, f, v)
  {
    Extensionality(r, HandleChange(d, f, v));
  }

  /** Whether the step renders an input for the field, given the rest of the section. */
  predicate Relevant(d: VisaHistory, f: VisaHistoryField) {
    match f
    case VisaRefusals => d.hasBeenRefused == Yes
    case CriminalConvictions => d.hasConvictions == Yes
    case _ => true
  }

  /** Only the two detail boxes are conditional, each on its own flag. */
  lemma RelevanceTable(d: VisaHistory)
    ensures forall f :: !Relevant(d, f) <==>
      (f == VisaRefusals && d.hasBeenRefused == No) || (f == CriminalConvictions && d.hasConvictions == No)
  {
  }

  /** Answering "no" again hides a detail box without erasing what was typed in it. */
  lemma AnswerNoKeepsDetails(d: VisaHistory)
    ensures HandleChange(d, HasBeenRefused, YesNoValue(No)).visaRefusals == d.visaRefusals
    ensures !Relevant(HandleChange(d, HasBeenRefused, YesNoValue(No)), VisaRefusals)
    ensures HandleChange(d, HasConvictions, YesNoValue(No)).criminalConvictions == d.criminalConvictions
    ensures !Relevant(HandleChange(d, HasConvictions, YesNoValue(No)), CriminalConvictions)
  {
  }

  /** `Array.from({ length: 99 }, (_, i) => (i + 1).toString())`. */
  function YearOptions(): seq<string> { RangeStrings(99, 1) }

  /** `Array.from({ length: 12 }, (_, i) => (i + 1).toString())`. */
  function MonthOptions(): seq<string> { RangeStrings(12, 1) }

  /** The year options are "1" to "99" and the month options "1" to "12", in order and distinct. */
  lemma ResidenceOptions()
    ensures |YearOptions()| == 99 && |MonthOptions()| == 12
    ensures forall k :: 0 <= k < 99 ==> ParseInt(YearOptions()[k]) == Some(k + 1)
    ensures forall k :: 0 <= k < 12 ==> ParseInt(MonthOptions()[k]) == Some(k + 1)
  {
    RangeStringsParse(99, 1);
    RangeStringsParse(12, 1);
  }

  /** The first and last entries, spelled out. */
  lemma ResidenceOptionBounds()
    ensures YearOptions()[0] == "1" && YearOptions()[98] == "99"
    ensures MonthOptions()[0] == "1" && MonthOptions()[11] == "12"
  {
    assert ToDecimal(1) == "1";
    assert ToDecimal(99) == ToDecimal(9) + [DigitChar(9)] == "99";
    assert ToDecimal(12) == ToDecimal(1) + [DigitChar(2)] == "12";
  }
}
