/**
 * Step 11, declaration: the single-field update and the effect that fills in
 * today's date once.
 */
module DeclarationStep {
  import opened VisaTypes

  /** `keyof Declaration`. */
  datatype DeclarationField = AgreeToDeclaration | Signature | DateOfDeclaration

  /** `data[field]`. */
  function Get(d: Declaration, f: DeclarationField): FieldValue {
    match f
    case AgreeToDeclaration => Bool(d.agreeToDeclaration)
    case Signature => Str(d.signature)
    case DateOfDeclaration => Str(d.dateOfDeclaration)
  }

  /** The checkbox writes a boolean, the two inputs a string. */
  predicate Fits(f: DeclarationField, v: FieldValue) {
    match f
    case AgreeToDeclaration => v.Bool?
    case _ => v.Str?
  }

  /** Two records that agree on every field are the same record. */
  lemma {:induction false} Extensionality(a: Declaration, b: Declaration)
    requires forall f :: Get(a, f) == Get(b, f)
    ensures a == b
  {
    assert Get(a, AgreeToDeclaration) == Get(b, AgreeToDeclaration);
    assert Get(a, Signature) == Get(b, Signature);
    assert Get(a, DateOfDeclaration) == Get(b, DateOfDeclaration);
  }

  /** `handleChange(field, value)`: `{ ...data, [field]: value }`. */
  function HandleChange(d: Declaration, f: DeclarationField, v: FieldValue): (r: Declaration)
    requires Fits(f, v)
    ensures Get(r, f) == v
    ensures forall g :: g != f ==> Get(r, g) == Get(d, g)
  {
    match f
    case AgreeToDeclaration => d.(agreeToDeclaration := v.flag)
    case Signature => d.(signature := v.text)
    case DateOfDeclaration => d.(dateOfDeclaration := v.text)
  }

  /** The update is determined by its frame. */
  lemma HandleChangeUnique(d: Declaration, f: DeclarationField, v: FieldValue, r: Declaration)
    requires Fits(f, v)
    requires Get(r, f) == v && forall g :: g != f ==> Get(r, g) == Get(d, g)
    ensures r == HandleChange(d, f, v)
  {
    Extensionality(r, HandleChange(d, f, v));
  }

  /** Ticking or unticking the agreement leaves the signature and the date alone. */
  lemma AgreementKeepsSignatureAndDate(d: Declaration, agreed: bool)
    ensures HandleChange(d, AgreeToDeclaration, Bool(agreed)).signature == d.signature
    ensures HandleChange(d, AgreeToDeclaration, Bool(agreed)).dateOfDeclaration == d.dateOfDeclaration
  {
  }

  /**
   * The date effect: when no date is set, write `today` (the clock's ISO date,
   * passed in) through `handleChange`; otherwise do nothing.
   */
  function DefaultDate(d: Declaration, today: string): (r: Declaration)
    ensures d.dateOfDeclaration != "" ==> r == d
    ensures d.dateOfDeclaration == "" ==> r.dateOfDeclaration == today
    ensures r.agreeToDeclaration == d.agreeToDeclaration && r.signature == d.signature
  {
    if d.dateOfDeclaration == "" then HandleChange(d, DateOfDeclaration, Str(today)) else d
  }

  /** Once a date is in place, running the effect again (even on a later day) changes nothing. */
  lemma DefaultDateIdempotent(d: Declaration, today: string, later: string)
    requires today != ""
    ensures DefaultDate(DefaultDate(d, today), later) == DefaultDate(d, today)
  {
  }
}
