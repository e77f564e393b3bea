/**
 * The subset registry of IfcService: the `subsets` list and `isTransparent`
 * flag of the service, and the part of the web-ifc manager's state the
 * service drives (which ids each named subset holds, and the material list of
 * each subset mesh). The manager itself is foreign; its
 * createSubset / removeFromSubset / getSubset calls are modelled by their
 * effect on these two maps.
 */
module Ifc {
  import opened Wrappers
  import opened Seqs
  import opened SubsetIds

  /** An entry of `subsets`: the subset's custom id and whether edge lines were built for it. */
  datatype SubsetEntry = SubsetEntry(subsetId: string, hasLines: bool)

  /** The two material properties toggleTransparency writes. */
  datatype MaterialState = MaterialState(opacity: real, transparent: bool)

  function Names(subsets: seq<SubsetEntry>): set<string> {
    set k | 0 <= k < |subsets| :: subsets[k].subsetId
  }

  /** No id belongs to two differently named subsets. */
  ghost predicate PairwiseDisjoint(membership: map<string, set<int>>) {
    forall a, b :: a in membership && b in membership && a != b ==> membership[a] !! membership[b]
  }

  /** Membership after `ids` are removed from every subset named in `names`. */
  function RemoveFrom(membership: map<string, set<int>>, names: set<string>, ids: set<int>): (r: map<string, set<int>>)
    ensures r.Keys == membership.Keys
    ensures forall n :: n in r && n in names ==> r[n] <= membership[n] && r[n] !! ids && membership[n] <= r[n] + ids
    ensures forall n :: n in r && n !in names ==> r[n] == membership[n]
  {
    map n | n in membership :: if n in names then membership[n] - ids else membership[n]
  }

  /** Membership after `ids` are removed from every subset. */
  function RemoveFromAll(membership: map<string, set<int>>, ids: set<int>): (r: map<string, set<int>>)
    ensures r.Keys == membership.Keys
    ensures forall n :: n in r ==> r[n] <= membership[n] && r[n] !! ids && membership[n] <= r[n] + ids
  {
    RemoveFrom(membership, membership.Keys, ids)
  }

  /**
   * Membership after createSubset(ids, name): the ids leave every subset,
   * then `name` is (re)built holding exactly `ids` (removePrevious: true).
   */
  function Register(membership: map<string, set<int>>, ids: set<int>, name: string): (r: map<string, set<int>>)
    ensures r.Keys == membership.Keys + {name}
    ensures r[name] == ids
    ensures forall n :: n in membership && n != name ==> r[n] == membership[n] - ids
  {
    RemoveFromAll(membership, ids)[name := ids]
  }

  /** Registering keeps the at-most-one-subset-per-id invariant. */
  lemma RegisterKeepsDisjoint(membership: map<string, set<int>>, ids: set<int>, name: string)
    requires PairwiseDisjoint(membership)
    ensures PairwiseDisjoint(Register(membership, ids, name))
  {
  }

  /** Creating the same subset from the same ids twice is the same as doing it once. */
  lemma RegisterIdempotent(membership: map<string, set<int>>, ids: set<int>, name: string)
    ensures Register(Register(membership, ids, name), ids, name) == Register(membership, ids, name)
  {
    var once := Register(membership, ids, name);
    var twice := Register(once, ids, name);
    assert twice.Keys == once.Keys;
    forall n | n in once
      ensures twice[n] == once[n]
    {
      if n != name {
        assert once[n] == membership[n] - ids;
        assert twice[n] == once[n] - ids;
      }
    }
  }

  /** The material state toggleTransparency writes for the given flag. */
  function Style(transparent: bool): MaterialState {
    if transparent then MaterialState(0.5, true) else MaterialState(1.0, false)
  }

  /** A material list with every material set for `transparent`. */
  function Styled(mats: seq<MaterialState>, transparent: bool): (r: seq<MaterialState>)
    ensures |r| == |mats|
    ensures forall k :: 0 <= k < |r| ==> r[k] == Style(transparent)
  {
    seq(|mats|, _ => Style(transparent))
  }

  /** Only the last toggle counts: restyling twice equals restyling with the later flag. */
  lemma StyledLastWins(mats: seq<MaterialState>, first: bool, second: bool)
    ensures Styled(Styled(mats, first), second) == Styled(mats, second)
  {
  }

  /**
   * The inner loop of toggleTransparency over one subset's material list:
   * each material gets opacity 0.5 and transparent set, or opacity 1 and
   * transparent cleared.
   */
  method StyleMaterials(mats: seq<MaterialState>, transparent: bool) returns (styled: seq<MaterialState>)
    ensures |styled| == |mats|
    ensures forall k :: 0 <= k < |styled| ==>
      styled[k] == (if transparent then MaterialState(0.5, true) else MaterialState(1.0, false))
    ensures styled == Styled(mats, transparent)
  {
    styled := mats;
    var j := 0;
    while j < |styled|
      invariant 0 <= j <= |styled| == |mats|
      invariant forall k :: 0 <= k < j ==> styled[k] == Style(transparent)
    {
      if transparent {
        styled := styled[j := MaterialState(0.5, true)];
      } else {
        styled := styled[j := MaterialState(1.0, false)];
      }
      j := j + 1;
    }
  }

  /**
   * The forEach of removeIdsFromSubset: for each registered subset, in list
   * order, the manager drops `ids` from it.
   */
  method RemoveFromEach(subsets: seq<SubsetEntry>, membership: map<string, set<int>>, ids: set<int>)
    returns (r: map<string, set<int>>)
    requires forall k :: 0 <= k < |subsets| ==> subsets[k].subsetId in membership
    ensures r == RemoveFrom(membership, Names(subsets), ids)
  {
    r := membership;
    var i := 0;
    while i < |subsets|
      invariant 0 <= i <= |subsets|
      invariant r == RemoveFrom(membership, Names(subsets[..i]), ids)
    {
      var id := subsets[i].subsetId;
      NamesStep(subsets, i);
      RemoveFromStep(membership, Names(subsets[..i]), id, ids);
      r := r[id := r[id] - ids];
      i := i + 1;
    }
    assert subsets[..i] == subsets;
  }

  /**
   * The outer forEach of toggleTransparency: for each registered subset, in
   * list order, every material of the subset is set for `transparent`.
   */
  method StyleEach(subsets: seq<SubsetEntry>, materials: map<string, seq<MaterialState>>, transparent: bool)
    returns (r: map<string, seq<MaterialState>>)
    requires forall k :: 0 <= k < |subsets| ==> subsets[k].subsetId in materials
    ensures r.Keys == materials.Keys
    ensures forall n :: n in r ==>
      r[n] == if n in Names(subsets) then Styled(materials[n], transparent) else materials[n]
  {
    r := materials;
    ghost var done: set<string> := {};
    var i := 0;
    while i < |subsets|
      invariant 0 <= i <= |subsets|
      invariant r.Keys == materials.Keys
      invariant done == Names(subsets[..i])
      invariant forall n :: n in r ==> r[n] == if n in done then Styled(materials[n], transparent) else materials[n]
    {
      var id := subsets[i].subsetId;
      var mats := StyleMaterials(r[id], transparent);
      r := r[id := mats];
      NamesStep(subsets, i);
      done := done + {id};
      i := i + 1;
    }
    assert subsets[..i] == subsets;
  }

  const WireframeSubset: string := "wireframe_elements"
  const RestSubset: string := "everything_else"

  class IfcService {
    var subsets: seq<SubsetEntry>
    var isTransparent: bool
    /** The manager's subsets: custom id to the expressIDs it holds. */
    var membership: map<string, set<int>>
    /** The manager's subsets: custom id to the materials of the subset mesh. */
    var materials: map<string, seq<MaterialState>>

    ghost predicate Valid()
      reads this
    {
      && membership.Keys == Names(subsets)
      && materials.Keys == Names(subsets)
      && PairwiseDisjoint(membership)
    }

    constructor ()
      ensures Valid()
      ensures subsets == [] && !isTransparent
      ensures membership == map[] && materials == map[]
    {
      subsets := [];
      isTransparent := false;
      membership := map[];
      materials := map[];
    }

    /** removeIdsFromSubset: asks the manager to drop `ids` from every registered subset. */
    method RemoveIdsFromSubset(ids: seq<int>)
      requires Valid()
      modifies this
      ensures Valid()
      ensures membership == RemoveFromAll(old(membership), Elements(ids))
      ensures subsets == old(subsets) && materials == old(materials) && isTransparent == old(isTransparent)
    {
      membership := RemoveFromEach(subsets, membership, Elements(ids));
      RemoveFromAllKeepsDisjoint(old(membership), Elements(ids));
    }

    /**
     * createSubset: removes the ids from every subset, has the manager (re)build
     * subset `name` from exactly those ids with the materials `mats` it
     * assigns, and records the subset with lines iff `wireframe`.
     */
    method CreateSubset(ids: seq<int>, name: string, wireframe: bool, mats: seq<MaterialState>)
      requires Valid()
      modifies this
      ensures Valid()
      ensures membership == Register(old(membership), Elements(ids), name)
      ensures materials == old(materials)[name := mats]
      ensures subsets == old(subsets) + [SubsetEntry(name, wireframe)]
      ensures isTransparent == old(isTransparent)
    {
      RemoveIdsFromSubset(ids);
      membership := membership[name := Elements(ids)];
      materials := materials[name := mats];
      var lines := wireframe;
      NamesAppend(subsets, SubsetEntry(name, lines));
      subsets := subsets + [SubsetEntry(name, lines)];
      RegisterKeepsDisjoint(old(membership), Elements(ids), name);
    }

    /**
     * toggleTransparency: flips the flag, then sets opacity and transparency of
     * every material of every registered subset to match it.
     */
    method ToggleTransparency()
      requires Valid()
      modifies this
      ensures Valid()
      ensures isTransparent == !old(isTransparent)
      ensures materials.Keys == old(materials).Keys
      ensures forall n :: n in materials ==> materials[n] == Styled(old(materials)[n], isTransparent)
      ensures subsets == old(subsets) && membership == old(membership)
    {
      isTransparent := !isTransparent;
      materials := StyleEach(subsets, materials, isTransparent);
    }

    /**
     * The loadIfcFile callback: collects the model's ids, resolves the
     * wireframe ids, builds the "wireframe_elements" subset with lines and the
     * "everything_else" subset from the remaining ids without. When a
     * classification query rejects, nothing after it runs.
     */
    method LoadIfcModel(indices: seq<nat>, expressId: seq<int>, types: seq<int>,
                        itemsOfType: int -> Option<seq<int>>, mats: seq<MaterialState>)
      returns (loaded: bool)
      requires Valid()
      requires WellIndexed(indices, expressId)
      modifies this
      ensures Valid()
      ensures loaded == GetWireframeElements(types, itemsOfType).Some?
      ensures !loaded ==> subsets == old(subsets) && membership == old(membership) && materials == old(materials)
      ensures loaded ==> subsets == old(subsets) + [SubsetEntry(WireframeSubset, true), SubsetEntry(RestSubset, false)]
      ensures loaded ==> WireframeSubset in membership && RestSubset in membership
      ensures loaded ==>
        var wire := Elements(GetWireframeElements(types, itemsOfType).value);
        var all := Elements(Referenced(indices, expressId));
        && membership[WireframeSubset] == wire
        && membership[RestSubset] == all - wire
        && all <= membership[WireframeSubset] + membership[RestSubset]
        && membership == Register(Register(old(membership), wire, WireframeSubset), all - wire, RestSubset)
      ensures loaded ==> materials == old(materials)[WireframeSubset := mats][RestSubset := mats]
      ensures isTransparent == old(isTransparent)
    {
      var allIds := GetIdsFromSubset(indices, expressId);
      var wireframe := GetWireframeElements(types, itemsOfType);
      if wireframe.None? {
        return false;
      }
      var wireframeIds := wireframe.value;
      ghost var all := Elements(allIds);
      ghost var wire := Elements(wireframeIds);
      assert all == Elements(Referenced(indices, expressId));
      CreateSubset(wireframeIds, WireframeSubset, true, mats);
      var rest := NonWireframeIds(allIds, wireframeIds);
      assert Elements(rest) == all - wire;
      CreateSubset(rest, RestSubset, false, mats);
      loaded := true;
      SplitRegisters(old(membership), all, wire, Elements(rest));
    }
  }

  /**
   * Registering the wireframe ids and then the rest of all ids leaves each
   * of the two subsets with exactly its share, and the two cover every id.
   */
  lemma SplitRegisters(membership: map<string, set<int>>, all: set<int>, wire: set<int>, rest: set<int>)
    requires rest == all - wire
    ensures var r := Register(Register(membership, wire, WireframeSubset), rest, RestSubset);
      && r[WireframeSubset] == wire
      && r[RestSubset] == rest
      && all <= r[WireframeSubset] + r[RestSubset]
  {
  }

  /** Removing from one more subset is one more map update. */
  lemma RemoveFromStep(membership: map<string, set<int>>, names: set<string>, id: string, ids: set<int>)
    requires id in membership
    ensures RemoveFrom(membership, names + {id}, ids)
         == RemoveFrom(membership, names, ids)[id := RemoveFrom(membership, names, ids)[id] - ids]
  {
    var a := RemoveFrom(membership, names + {id}, ids);
    var b := RemoveFrom(membership, names, ids)[id := RemoveFrom(membership, names, ids)[id] - ids];
    assert a.Keys == b.Keys;
    forall n | n in a
      ensures a[n] == b[n]
    {
      if n == id {
        assert a[n] == membership[n] - ids;
      }
    }
  }

  /** Appending an entry adds its name. */
  lemma NamesAppend(subsets: seq<SubsetEntry>, e: SubsetEntry)
    ensures Names(subsets + [e]) == Names(subsets) + {e.subsetId}
  {
    var s' := subsets + [e];
    assert forall k :: 0 <= k < |subsets| ==> s'[k] == subsets[k];
    assert s'[|subsets|] == e;
  }

  /** The names of a one-longer prefix. */
  lemma NamesStep(subsets: seq<SubsetEntry>, i: nat)
    requires i < |subsets|
    ensures Names(subsets[..i + 1]) == Names(subsets[..i]) + {subsets[i].subsetId}
  {
  }

  /** Removing ids from every subset keeps the at-most-one-subset-per-id invariant. */
  lemma RemoveFromAllKeepsDisjoint(membership: map<string, set<int>>, ids: set<int>)
    requires PairwiseDisjoint(membership)
    ensures PairwiseDisjoint(RemoveFromAll(membership, ids))
  {
  }
}
