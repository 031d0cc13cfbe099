/**
 * Step 6, travel companions: the "traveling with others" checkbox and the
 * add / remove / update operations on the ordered companion list.
 */
module TravelCompanionsStep {
  import opened JsBuiltins
  import opened VisaTypes

  /** `keyof TravelCompanion`. */
  datatype CompanionField = Name | Relationship

  function GetCompanionField(c: TravelCompanion, f: CompanionField): string {
    match f
    case Name => c.name
    case Relationship => c.relationship
  }

  /** `{ ...companion, [field]: value }`. */
  function SetCompanionField(c: TravelCompanion, f: CompanionField, value: string): (r: TravelCompanion)
    ensures GetCompanionField(r, f) == value
    ensures forall g :: g != f ==> GetCompanionField(r, g) == GetCompanionField(c, g)
  {
    match f
    case Name => c.(name := value)
    case Relationship => c.(relationship := value)
  }

  /** The entry "Add Companion" appends. */
  const BlankCompanion := TravelCompanion("", "")

  /** `handleTravelingChange(checked)`: ticking keeps the list, unticking empties it. */
  function HandleTravelingChange(d: TravelCompanions, checked: bool): (r: TravelCompanions)
    ensures r.travelingWithOthers == checked
    ensures checked ==> r.companions == d.companions
    ensures !checked ==> r.companions == []
  {
    d.(travelingWithOthers := checked, companions := if checked then d.companions else [])
  }

  /** Unticking and ticking again starts from an empty list: the companions are not restored. */
  lemma UntickThenTickStartsEmpty(d: TravelCompanions)
    ensures HandleTravelingChange(HandleTravelingChange(d, false), true) == TravelCompanions(true, [])
  {
  }

  /** `addCompanion()`: one blank entry at the end. */
  function AddCompanion(d: TravelCompanions): (r: TravelCompanions)
    ensures r.travelingWithOthers == d.travelingWithOthers
    ensures |r.companions| == |d.companions| + 1
    ensures r.companions[..|d.companions|] == d.companions
    ensures r.companions[|d.companions|] == BlankCompanion
  {
    d.(companions := d.companions + [BlankCompanion])
  }

  /** `removeCompanion(index)`: drops entry `index`, keeping the others in order; other indices change nothing. */
  function RemoveCompanion(d: TravelCompanions, index: int): (r: TravelCompanions)
    ensures r.travelingWithOthers == d.travelingWithOthers
    ensures 0 <= index < |d.companions| ==>
      |r.companions| == |d.companions| - 1 &&
      (forall k :: 0 <= k < index ==> r.companions[k] == d.companions[k]) &&
      (forall k :: index <= k < |r.companions| ==> r.companions[k] == d.companions[k + 1])
    ensures !(0 <= index < |d.companions|) ==> r == d
  {
    d.(companions := WithoutIndex(d.companions, index))
  }

  /** Removing the entry just added undoes the addition. */
  lemma RemoveUndoesAdd(d: TravelCompanions)
    ensures RemoveCompanion(AddCompanion(d), |d.companions|) == d
  {
    var added := AddCompanion(d).companions;
    assert added[..|d.companions|] + added[|d.companions| + 1..] == d.companions;
  }

  /** `updateCompanion(index, field, value)`: field `field` of entry `index`, and nothing else. */
  function UpdateCompanion(d: TravelCompanions, index: int, f: CompanionField, value: string): (r: TravelCompanions)
    ensures r.travelingWithOthers == d.travelingWithOthers
    ensures |r.companions| == |d.companions|
    ensures forall k :: 0 <= k < |d.companions| && k != index ==> r.companions[k] == d.companions[k]
    ensures 0 <= index < |d.companions| ==>
      GetCompanionField(r.companions[index], f) == value &&
      forall g :: g != f ==> GetCompanionField(r.companions[index], g) == GetCompanionField(d.companions[index], g)
    ensures !(0 <= index < |d.companions|) ==> r == d
  {
    d.(companions := MapAt(d.companions, index, c => SetCompanionField(c, f, value)))
  }

  /** Whether the companion list (and its "Add Companion" button) is shown. */
  predicate ShowsCompanions(d: TravelCompanions) {
    d.travelingWithOthers
  }

  /** No companion is held while the box is unticked. */
  predicate NoHiddenCompanions(d: TravelCompanions) {
    !d.travelingWithOthers ==> d.companions == []
  }

  /**
   * The checkbox always leaves no hidden companions; removing and updating keep it
   * so, and adding (whose button exists only while the list is shown) does too.
   */
  lemma HiddenListStaysEmpty(d: TravelCompanions, checked: bool, index: int, f: CompanionField, value: string)
    ensures NoHiddenCompanions(HandleTravelingChange(d, checked))
    ensures NoHiddenCompanions(d) ==> NoHiddenCompanions(RemoveCompanion(d, index))
    ensures NoHiddenCompanions(d) ==> NoHiddenCompanions(UpdateCompanion(d, index, f, value))
    ensures ShowsCompanions(d) ==> NoHiddenCompanions(AddCompanion(d))
  {
  }
}
