/**
 * Semantic-id extraction from an indexed mesh and the wireframe / non-wireframe
 * split of a loaded IFC model (IfcService.getIdsFromSubset, loadIfcFile,
 * getWireframeElements).
 *
 * A mesh is its index buffer (`indices`) and its per-vertex `expressID`
 * attribute (`expressId[v]` is the id of vertex v).
 */
module SubsetIds {
  import opened Wrappers
  import opened Seqs

  /** Every index of the buffer names a vertex of the mesh. */
  predicate WellIndexed(indices: seq<nat>, expressId: seq<int>) {
    forall k :: 0 <= k < |indices| ==> indices[k] < |expressId|
  }

  /** The expressID of the vertex each index names, in index-buffer order. */
  function Referenced(indices: seq<nat>, expressId: seq<int>): (r: seq<int>)
    requires WellIndexed(indices, expressId)
    ensures |r| == |indices|
    ensures forall k :: 0 <= k < |indices| ==> r[k] == expressId[indices[k]]
  {
    seq(|indices|, k requires 0 <= k < |indices| => expressId[indices[k]])
  }

  /**
   * Walks the index buffer and collects each referenced expressID once, in
   * order of first occurrence (what inserting into a JavaScript Set and
   * reading it back with Array.from yields).
   */
  method GetIdsFromSubset(indices: seq<nat>, expressId: seq<int>) returns (ids: seq<int>)
    requires WellIndexed(indices, expressId)
    ensures ids == Distinct(Referenced(indices, expressId))
    ensures NoDuplicates(ids)
    ensures forall x :: x in ids <==> exists k :: 0 <= k < |indices| && expressId[indices[k]] == x
    ensures indices == [] ==> ids == []
  {
    ids := [];
    var seen: set<int> := {};
    var i := 0;
    while i < |indices|
      invariant 0 <= i <= |indices|
      invariant ids == Distinct(Referenced(indices[..i], expressId))
      invariant seen == Elements(ids)
    {
      var id := expressId[indices[i]];
      assert Referenced(indices[..i + 1], expressId)
          == Referenced(indices[..i], expressId) + [id];
      if id !in seen {
        seen := seen + {id};
        ids := ids + [id];
      }
      i := i + 1;
    }
    assert indices[..i] == indices;
    assert forall x :: x in Referenced(indices, expressId) <==>
      exists k :: 0 <= k < |indices| && expressId[indices[k]] == x;
  }

  /**
   * The ids of the model that are not wireframe ids, in the model's order
   * (`allIds.filter(id => !wireframeIds.includes(id))`).
   */
  function NonWireframeIds(allIds: seq<int>, wireframeIds: seq<int>): (r: seq<int>)
    ensures forall x :: x in r <==> x in allIds && x !in wireframeIds
    ensures Elements(r) !! Elements(wireframeIds)
    ensures Elements(r) + (Elements(allIds) * Elements(wireframeIds)) == Elements(allIds)
    ensures NoDuplicates(allIds) ==> NoDuplicates(r)
    ensures IsSubsequence(r, allIds)
  {
    WithoutMembers(allIds, wireframeIds);
    WithoutIsSubsequence(allIds, wireframeIds);
    assert NoDuplicates(allIds) ==> NoDuplicates(Without(allIds, wireframeIds)) by {
      if NoDuplicates(allIds) {
        WithoutKeepsNoDuplicates(allIds, wireframeIds);
      }
    }
    Without(allIds, wireframeIds)
  }

  /**
   * The wireframe ids: one classification query per type in the type list,
   * concatenated in type-list order, duplicates kept. A query is `None` when
   * it rejects; one rejection rejects the whole result, as `Promise.all` does.
   */
  function GetWireframeElements(types: seq<int>, itemsOfType: int -> Option<seq<int>>): (r: Option<seq<int>>)
    ensures r.Some? <==> forall k :: 0 <= k < |types| ==> itemsOfType(types[k]).Some?
    ensures r.Some? ==> forall x :: x in r.value <==>
      exists k :: 0 <= k < |types| && x in itemsOfType(types[k]).value
  {
    if types == [] then Some([])
    else
      match itemsOfType(types[0])
      case None => None
      case Some(first) =>
        match GetWireframeElements(types[1..], itemsOfType)
        case None =>
          assert exists k :: 1 <= k < |types| && itemsOfType(types[k]).None? by {
            var j :| 0 <= j < |types[1..]| && itemsOfType(types[1..][j]).None?;
            assert types[1..][j] == types[j + 1];
          }
          None
        case Some(rest) =>
          assert forall k :: 0 <= k < |types[1..]| ==> types[1..][k] == types[k + 1];
          assert forall x :: x in rest ==> exists k :: 1 <= k < |types| && x in itemsOfType(types[k]).value;
          Some(first + rest)
  }

  /** When every query answers, the result is exactly the flattening of the answers. */
  lemma {:induction false} WireframeElementsAreFlattened(types: seq<int>, itemsOfType: int -> Option<seq<int>>, answers: seq<seq<int>>)
    requires |answers| == |types|
    requires forall k :: 0 <= k < |types| ==> itemsOfType(types[k]) == Some(answers[k])
    ensures GetWireframeElements(types, itemsOfType) == Some(Flatten(answers))
  {
    if types != [] {
      WireframeElementsAreFlattened(types[1..], itemsOfType, answers[1..]);
    }
  }
}
