/**
 * Step 9, dependant children: resizing the children list to the selected count,
 * editing one child, and the rule that shows the children block.
 */
module DependantChildrenStep {
  import opened Wrappers
  import opened JsBuiltins
  import opened VisaTypes

  /** `keyof Child`. */
  datatype ChildField = Name | DateOfBirth | Nationality

  function GetChildField(c: Child, f: ChildField): string {
    match f
    case Name => c.name
    case DateOfBirth => c.dateOfBirth
    case Nationality => c.nationality
  }

  /** `{ ...child, [field]: value }`. */
  function SetChildField(c: Child, f: ChildField, value: string): (r: Child)
    ensures GetChildField(r, f) == value
    ensures forall g :: g != f ==> GetChildField(r, g) == GetChildField(c, g)
  {
    match f
    case Name => c.(name := value)
    case DateOfBirth => c.(dateOfBirth := value)
    case Nationality => c.(nationality := value)
  }

  /** The entry a larger count appends. */
  const BlankChild := Child("", "", "")

  /** The list length agrees with the count the select shows. */
  predicate Consistent(d: DependantChildren) {
    ParseInt(d.numberOfChildren) == Some(|d.children|)
  }

  /**
   * The list part of `handleNumberChange` for a parsed count: a larger count
   * appends blank children one by one, a smaller one keeps a prefix
   * (`slice(0, n)`, which counts a negative `n` from the back), and NaN changes
   * nothing.
   */
  method ResizeChildren(children: seq<Child>, count: Option<int>) returns (newChildren: seq<Child>)
    ensures count.None? ==> newChildren == children
    ensures count.Some? && count.value >= 0 ==> |newChildren| == count.value
    ensures count.Some? && count.value < 0 ==>
      |newChildren| == if |children| + count.value > 0 then |children| + count.value else 0
    ensures forall k :: 0 <= k < |newChildren| && k < |children| ==> newChildren[k] == children[k]
    ensures forall k :: |children| <= k < |newChildren| ==> newChildren[k] == BlankChild
  {
    var currentChildren := |children|;
    newChildren := children;
    if count.Some? && count.value > currentChildren {
      var i := currentChildren;
      while i < count.value
        invariant currentChildren <= i <= count.value
        invariant |newChildren| == i
        invariant newChildren[..currentChildren] == children
        invariant forall k :: currentChildren <= k < i ==> newChildren[k] == BlankChild
      {
        newChildren := newChildren + [BlankChild];
        i := i + 1;
      }
    } else if count.Some? && count.value < currentChildren {
      newChildren := SliceTo(newChildren, count.value);
    }
  }

  /** `handleNumberChange(value)`: the count string is stored as given and the list is resized to its parsed value. */
  method HandleNumberChange(d: DependantChildren, value: string) returns (r: DependantChildren)
    ensures r.numberOfChildren == value
    ensures ParseInt(value).None? ==> r.children == d.children
    ensures ParseInt(value).Some? && ParseInt(value).value >= 0 ==>
      |r.children| == ParseInt(value).value && Consistent(r)
    ensures ParseInt(value).Some? && ParseInt(value).value < 0 ==>
      |r.children| == if |d.children| + ParseInt(value).value > 0 then |d.children| + ParseInt(value).value else 0
    ensures forall k :: 0 <= k < |r.children| && k < |d.children| ==> r.children[k] == d.children[k]
    ensures forall k :: |d.children| <= k < |r.children| ==> r.children[k] == BlankChild
  {
    var numberOfChildren := ParseInt(value);
    var newChildren := ResizeChildren(d.children, numberOfChildren);
    r := DependantChildren(value, newChildren);
  }

  /** `Array.from({ length: 11 }, (_, i) => i.toString())`: the counts the select offers. */
  function NumberOfChildrenOptions(): seq<string> {
    RangeStrings(11, 0)
  }

  /** Choosing the `k`-th option of the select: the list then has exactly `k` children. */
  method SelectNumberOfChildren(d: DependantChildren, k: nat) returns (r: DependantChildren)
    requires k < |NumberOfChildrenOptions()|
    ensures r.numberOfChildren == NumberOfChildrenOptions()[k]
    ensures Consistent(r) && |r.children| == k
    ensures forall j :: 0 <= j < k && j < |d.children| ==> r.children[j] == d.children[j]
  {
    RangeStringsParse(11, 0);
    r := HandleNumberChange(d, NumberOfChildrenOptions()[k]);
  }

  /** `updateChild(index, field, value)`: field `field` of child `index`, and nothing else. */
  function UpdateChild(d: DependantChildren, index: int, f: ChildField, value: string): (r: DependantChildren)
    ensures r.numberOfChildren == d.numberOfChildren
    ensures |r.children| == |d.children|
    ensures forall k :: 0 <= k < |d.children| && k != index ==> r.children[k] == d.children[k]
    ensures 0 <= index < |d.children| ==>
      GetChildField(r.children[index], f) == value &&
      forall g :: g != f ==> GetChildField(r.children[index], g) == GetChildField(d.children[index], g)
    ensures !(0 <= index < |d.children|) ==> r == d
    ensures Consistent(d) ==> Consistent(r)
  {
    d.(children := MapAt(d.children, index, c => SetChildField(c, f, value)))
  }

  /** `parseInt(data.numberOfChildren) > 0`: whether the children block is shown. */
  predicate ShowsChildren(d: DependantChildren) {
    match ParseInt(d.numberOfChildren)
    case Some(n) => n > 0
    case None => false
  }

  /** While the count and the list agree, the block is shown exactly when there is a child to edit. */
  lemma ShowsChildrenIffNonEmpty(d: DependantChildren)
    requires Consistent(d)
    ensures ShowsChildren(d) <==> |d.children| > 0
  {
  }

  /** The default "0" with no children is consistent and shows no block. */
  lemma DefaultIsConsistent()
    ensures Consistent(DependantChildren("0", []))
    ensures !ShowsChildren(DependantChildren("0", []))
  {
    ParseIntOfDecimal(0);
  }
}
