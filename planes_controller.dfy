/**
 * PlanesControllerComponent: an append-only list of clipping-plane records
 * named "Plane 1", "Plane 2", ..., the selected record, and the edits it
 * forwards to IfcService. The service's addPlane / adjustPlane / flipPlane are
 * foreign; the component's side of them is the log of calls it makes.
 */
module PlanesController {

  /** The character of a decimal digit. */
  function Digit(d: nat): (c: char)
    requires d < 10
    ensures '0' <= c <= '9'
    ensures c as int - '0' as int == d
  {
    ('0' as int + d) as char
  }

  /** The decimal numeral of `n`, as a template literal writes a number. */
  function DecimalString(n: nat): (s: string)
    ensures |s| >= 1
    ensures forall k :: 0 <= k < |s| ==> '0' <= s[k] <= '9'
    ensures s[|s| - 1] as int - '0' as int == n % 10
    ensures n >= 10 <==> |s| >= 2
  {
    if n < 10 then [Digit(n)] else DecimalString(n / 10) + [Digit(n % 10)]
  }

  /** Every character is a decimal digit. */
  predicate AllDigits(s: string) {
    forall k :: 0 <= k < |s| ==> '0' <= s[k] <= '9'
  }

  /** The value a string of decimal digits denotes, most significant digit first. */
  function NumeralValue(s: string): int {
    if |s| == 0 then 0 else NumeralValue(s[..|s| - 1]) * 10 + (s[|s| - 1] as int - '0' as int)
  }

  /** The numeral denotes `n` and has no leading zero. */
  lemma {:induction false} DecimalStringDenotes(n: nat)
    ensures NumeralValue(DecimalString(n)) == n
    ensures |DecimalString(n)| >= 2 ==> DecimalString(n)[0] != '0'
    decreases n
  {
    var s := DecimalString(n);
    if n >= 10 {
      var h := DecimalString(n / 10);
      assert s == h + [Digit(n % 10)];
      assert s[..|s| - 1] == h;
      assert s[0] == h[0];
      DecimalStringDenotes(n / 10);
      assert NumeralValue(s) == (n / 10) * 10 + n % 10;
    }
  }

  /** Different numbers have different numerals. */
  lemma {:induction false} DecimalStringInjective(a: nat, b: nat)
    requires DecimalString(a) == DecimalString(b)
    ensures a == b
    decreases a
  {
    if a >= 10 && b >= 10 {
      var sa := DecimalString(a);
      assert sa == DecimalString(a / 10) + [Digit(a % 10)];
      assert DecimalString(b) == DecimalString(b / 10) + [Digit(b % 10)];
      assert sa[..|sa| - 1] == DecimalString(a / 10);
      assert DecimalString(b)[..|sa| - 1] == DecimalString(b / 10);
      DecimalStringInjective(a / 10, b / 10);
    }
  }

  /** The name addPlane gives the plane it appends as the k-th (1-based): "Plane " and the numeral of k. */
  function PlaneName(k: nat): (name: string)
    ensures |name| > 6 && name[..6] == "Plane "
    ensures AllDigits(name[6..])
    ensures NumeralValue(name[6..]) == k
    ensures |name| > 7 ==> name[6] != '0'
  {
    DecimalStringDenotes(k);
    var name := "Plane " + DecimalString(k);
    assert name[6..] == DecimalString(k);
    name
  }

  /** Plane names are unique: different positions give different names. */
  lemma PlaneNameInjective(a: nat, b: nat)
    requires PlaneName(a) == PlaneName(b)
    ensures a == b
  {
  }

  /** A plane record. Its name is fixed when it is appended; the template edits the other two fields. */
  class IfcPlane {
    const name: string
    var constant: real
    var invert: bool

    constructor (name: string, constant: real, invert: bool)
      ensures this.name == name && this.constant == constant && this.invert == invert
    {
      this.name := name;
      this.constant := constant;
      this.invert := invert;
    }
  }

  /** `planes.findIndex(p => p.name === name)`: the first position holding that name, or -1. */
  function FindIndexByName(planes: seq<IfcPlane>, name: string): (idx: int)
    ensures -1 <= idx < |planes|
    ensures idx >= 0 ==> planes[idx].name == name
    ensures idx >= 0 ==> forall j :: 0 <= j < idx ==> planes[j].name != name
    ensures idx == -1 <==> forall j :: 0 <= j < |planes| ==> planes[j].name != name
  {
    if |planes| == 0 then -1
    else if planes[0].name == name then 0
    else
      var rest := FindIndexByName(planes[1..], name);
      assert forall j :: 0 < j < |planes| ==> planes[j] == planes[1..][j - 1];
      if rest == -1 then -1 else rest + 1
  }

  /** The k-th record (0-based) is named "Plane k+1". */
  predicate NamedInOrder(planes: seq<IfcPlane>) {
    forall k :: 0 <= k < |planes| ==> planes[k].name == PlaneName(k + 1)
  }

  /** Appending a record named after the new length keeps the naming. */
  lemma NamedInOrderAppend(planes: seq<IfcPlane>, p: IfcPlane)
    requires NamedInOrder(planes)
    requires p.name == PlaneName(|planes| + 1)
    ensures NamedInOrder(planes + [p])
  {
  }

  /** Under the naming addPlane keeps, no two records share a name. */
  lemma NamesUnique(planes: seq<IfcPlane>, i: nat, j: nat)
    requires NamedInOrder(planes)
    requires i < |planes| && j < |planes| && i != j
    ensures planes[i].name != planes[j].name
  {
  }

  /** The name lookup finds a listed plane at its own position. */
  lemma {:induction false} FindsListedPlane(planes: seq<IfcPlane>, k: nat)
    requires NamedInOrder(planes)
    requires k < |planes|
    ensures FindIndexByName(planes, planes[k].name) == k
  {
  }

  /** A call the component makes into IfcService. */
  datatype PlaneCall =
    | IfcAddPlane(constant: real, invert: bool)
    | IfcAdjustPlane(index: int, constant: real)
    | IfcFlipPlane(index: int, invert: bool)

  class PlanesControllerComponent {
    var planes: seq<IfcPlane>
    /** Unassigned (`undefined` in the component) until the first addPlane. */
    var selectedPlane: IfcPlane?
    /** The calls made into IfcService, oldest first. */
    var ifcCalls: seq<PlaneCall>

    ghost predicate Valid()
      reads this
    {
      && NamedInOrder(planes)
      && (selectedPlane != null ==> selectedPlane in planes)
    }

    constructor ()
      ensures Valid()
      ensures planes == [] && selectedPlane == null && ifcCalls == []
    {
      planes := [];
      selectedPlane := null;
      ifcCalls := [];
    }

    /**
     * addPlane: appends a record named after the new length, with constant 5
     * and invert false, selects it, and asks the service for a plane with
     * those settings.
     */
    method AddPlane()
      requires Valid()
      modifies this
      ensures Valid()
      ensures fresh(selectedPlane)
      ensures planes == old(planes) + [selectedPlane]
      ensures selectedPlane.name == PlaneName(|old(planes)| + 1)
      ensures selectedPlane.constant == 5.0 && !selectedPlane.invert
      ensures ifcCalls == old(ifcCalls) + [IfcAddPlane(selectedPlane.constant, selectedPlane.invert)]
      ensures forall k :: 0 <= k < |old(planes)| ==>
        planes[k].constant == old(planes[k].constant) && planes[k].invert == old(planes[k].invert)
    {
      var p := new IfcPlane(PlaneName(|planes| + 1), 5.0, false);
      NamedInOrderAppend(planes, p);
      planes := planes + [p];
      selectedPlane := planes[|planes| - 1];
      ifcCalls := ifcCalls + [IfcAddPlane(selectedPlane.constant, selectedPlane.invert)];
    }

    /**
     * planeConstantChanged: looks the selected plane up by name and forwards
     * its position and constant. With nothing selected the component reads
     * `constant` of an undefined field and throws; here no call is made and
     * `forwarded` is false.
     */
    method PlaneConstantChanged() returns (forwarded: bool)
      requires Valid()
      modifies this
      ensures Valid()
      ensures forwarded == (selectedPlane != null)
      ensures planes == old(planes) && selectedPlane == old(selectedPlane)
      ensures !forwarded ==> ifcCalls == old(ifcCalls)
      ensures forwarded ==> exists k :: (0 <= k < |planes| && planes[k] == selectedPlane &&
                                           ifcCalls == old(ifcCalls) + [IfcAdjustPlane(k, selectedPlane.constant)])
    {
      if selectedPlane == null {
        return false;
      }
      var idx := FindIndexByName(planes, selectedPlane.name);
      SelectedIndex(planes, selectedPlane);
      ifcCalls := ifcCalls + [IfcAdjustPlane(idx, selectedPlane.constant)];
      forwarded := true;
    }

    /** planeInvertChange: the same lookup, forwarding the selected plane's invert flag. */
    method PlaneInvertChange() returns (forwarded: bool)
      requires Valid()
      modifies this
      ensures Valid()
      ensures forwarded == (selectedPlane != null)
      ensures planes == old(planes) && selectedPlane == old(selectedPlane)
      ensures !forwarded ==> ifcCalls == old(ifcCalls)
      ensures forwarded ==> exists k :: (0 <= k < |planes| && planes[k] == selectedPlane &&
                                           ifcCalls == old(ifcCalls) + [IfcFlipPlane(k, selectedPlane.invert)])
    {
      if selectedPlane == null {
        return false;
      }
      var idx := FindIndexByName(planes, selectedPlane.name);
      SelectedIndex(planes, selectedPlane);
      ifcCalls := ifcCalls + [IfcFlipPlane(idx, selectedPlane.invert)];
      forwarded := true;
    }
  }

  /** The lookup of a listed plane's name is in range and lands on that very plane. */
  lemma SelectedIndex(planes: seq<IfcPlane>, selected: IfcPlane)
    requires NamedInOrder(planes)
    requires selected in planes
    ensures 0 <= FindIndexByName(planes, selected.name) < |planes|
    ensures planes[FindIndexByName(planes, selected.name)] == selected
  {
    var k :| 0 <= k < |planes| && planes[k] == selected;
    FindsListedPlane(planes, k);
  }
}
