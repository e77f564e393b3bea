/**
 * StencilSceneService: the clipping demo scene. init builds, for every
 * configured plane in order, a stencil group under the model object and a
 * cap in the scene that is also kept in `planeObjects`; a colour mesh clipped
 * by all planes is drawn last. animate moves cap i onto plane i. The
 * module-level `planes`, `planeObjects`, `planeHelpers`, `scene` and `object`
 * of the TypeScript service are the fields of the service here.
 */
module StencilScene {
  import opened Wrappers
  import opened Seqs
  import opened Stencil

  /** The two planes init configures: normal (-1, 0, 0) and normal (0, -1, 0), both at constant 0. */
  const ConfiguredPlanes: seq<PlaneId> := [0, 1]

  const ModelGeometry: Geometry := TorusKnotGeometry(0.4, 0.15, 220, 60)

  const CapQuad: Geometry := PlaneGeometry(4.0, 4.0)

  /** The render order of the colour mesh. */
  const ColourOrder: real := 6.0

  /** The render order of plane i's stencil group. */
  function StencilOrder(i: nat): real {
    i as real + 1.0
  }

  /** The render order of plane i's cap. */
  function CapOrder(i: nat): real {
    i as real + 1.1
  }

  /** The stencil group init builds for plane i. */
  function StencilGroupFor(planes: seq<PlaneId>, i: nat): (g: seq<MeshSpec>)
    requires i < |planes|
    ensures |g| == 2
    ensures forall k :: 0 <= k < |g| ==>
      && g[k].geometry == ModelGeometry
      && g[k].renderOrder == i as real + 1.0
      && g[k].material.clippingPlanes == [planes[i]]
      && CountsIntoStencil(g[k].material)
    ensures AllOps(g[0].material, IncrementWrapStencilOp) && AllOps(g[1].material, DecrementWrapStencilOp)
  {
    CreatePlaneStencilGroup(ModelGeometry, planes[i], StencilOrder(i))
  }

  /** The cap init builds for plane i: clipped by the planes other than planes[i]. */
  function CapFor(planes: seq<PlaneId>, i: nat): (c: MeshSpec)
    requires i < |planes|
    ensures c.geometry == CapQuad
    ensures c.renderOrder == i as real + 1.1
    ensures c.material.kind == MeshStandardMaterial && DrawsWhereCounted(c.material)
    ensures c.material.clippingPlanes == Without(planes, [planes[i]])
    ensures c.clearsStencilAfterRender && !c.castShadow
  {
    CapMesh(CapQuad, Without(planes, [planes[i]]), CapOrder(i))
  }

  /** The colour mesh: the model clipped by every plane, casting shadows, drawn at order 6. */
  function ColourMesh(planes: seq<PlaneId>): (c: MeshSpec)
    ensures c.geometry == ModelGeometry
    ensures c.renderOrder == 6.0
    ensures c.material.kind == MeshStandardMaterial
    ensures c.material.clippingPlanes == planes
    ensures c.castShadow && c.material.clipShadows && c.material.shadowSide == Some(DoubleSide)
    ensures !c.material.stencilWrite && !c.clearsStencilAfterRender
  {
    var mat := DefaultMaterial(MeshStandardMaterial).(clippingPlanes := planes, clipShadows := true,
                                                      shadowSide := Some(DoubleSide));
    NewMesh(ModelGeometry, mat).(castShadow := true, renderOrder := ColourOrder)
  }

  /** `planes.map(p => new PlaneHelper(p, 2, ...))`: one helper of size 2 per plane, visible as constructed. */
  function NewHelpers(planes: seq<PlaneId>): (r: seq<PlaneHelper>)
    ensures |r| == |planes|
    ensures forall i :: 0 <= i < |r| ==> r[i].plane == planes[i] && r[i].size == 2.0
  {
    seq(|planes|, i requires 0 <= i < |planes| => PlaneHelper(planes[i], 2.0, true))
  }

  /**
   * Draw order strictly interleaves: plane i's stencil meshes, then its cap,
   * then everything of every later plane.
   */
  lemma DrawOrderInterleaves(planes: seq<PlaneId>, i: nat, j: nat)
    requires i < j < |planes|
    ensures forall k :: 0 <= k < |StencilGroupFor(planes, i)| ==>
      StencilGroupFor(planes, i)[k].renderOrder < CapFor(planes, i).renderOrder
    ensures forall k :: 0 <= k < |StencilGroupFor(planes, j)| ==>
      CapFor(planes, i).renderOrder < StencilGroupFor(planes, j)[k].renderOrder
    ensures CapFor(planes, i).renderOrder < CapFor(planes, j).renderOrder
  {
  }

  /**
   * Cap i is clipped by the other planes: all of them but planes[i], in
   * plane order, one fewer than there are planes when the planes are
   * distinct. With the stencil group's own plane they make up all planes.
   */
  lemma CapClipsOtherPlanes(planes: seq<PlaneId>, i: nat)
    requires i < |planes|
    ensures var clip := CapFor(planes, i).material.clippingPlanes;
      && (forall p :: p in clip <==> p in planes && p != planes[i])
      && IsSubsequence(clip, planes)
      && (NoDuplicates(planes) ==> |clip| == |planes| - 1)
      && (forall k :: 0 <= k < |StencilGroupFor(planes, i)| ==>
            && StencilGroupFor(planes, i)[k].material.clippingPlanes == [planes[i]]
            && Elements(clip) + {planes[i]} == Elements(planes)
            && planes[i] !in clip)
  {
    var clip := CapFor(planes, i).material.clippingPlanes;
    WithoutMembers(planes, [planes[i]]);
    WithoutIsSubsequence(planes, [planes[i]]);
    if NoDuplicates(planes) {
      WithoutOneOfDistinct(planes, planes[i]);
    }
    assert Elements(clip) + {planes[i]} == Elements(planes);
  }

  /** The colour mesh draws after every cap exactly when there are at most five planes. */
  lemma ColourDrawsAfterCaps(planes: seq<PlaneId>)
    ensures (forall i :: 0 <= i < |planes| ==> CapFor(planes, i).renderOrder < ColourMesh(planes).renderOrder)
        <==> |planes| <= 5
  {
    if |planes| > 5 {
      assert CapFor(planes, 5).renderOrder >= ColourMesh(planes).renderOrder;
    }
  }

  /** For the configured planes, the colour mesh draws last and clips against both planes. */
  lemma ConfiguredColourDrawsLast()
    ensures NoDuplicates(ConfiguredPlanes)
    ensures forall i :: 0 <= i < |ConfiguredPlanes| ==>
      CapFor(ConfiguredPlanes, i).renderOrder < ColourMesh(ConfiguredPlanes).renderOrder
    ensures ColourMesh(ConfiguredPlanes).material.clippingPlanes == ConfiguredPlanes
  {
    ColourDrawsAfterCaps(ConfiguredPlanes);
  }

  /** The scene nodes of the given helpers, in order. */
  function HelperNodes(helpers: seq<PlaneHelper>): (r: seq<Node>)
    ensures |r| == |helpers|
    ensures forall i :: 0 <= i < |r| ==> r[i] == PlaneHelperNode(helpers[i])
  {
    seq(|helpers|, i requires 0 <= i < |helpers| => PlaneHelperNode(helpers[i]))
  }

  /** The stencil groups of all planes, as children of the model group, in plane order. */
  function StencilGroupNodes(planes: seq<PlaneId>): (r: seq<Node>)
    ensures |r| == |planes|
    ensures forall i :: 0 <= i < |r| ==> r[i] == MeshGroup(StencilGroupFor(planes, i))
  {
    seq(|planes|, i requires 0 <= i < |planes| => MeshGroup(StencilGroupFor(planes, i)))
  }

  /** The groups holding the given plane objects, as children of the scene, in order. */
  function PlaneObjectNodes(pos: seq<PlaneObject>): (r: seq<Node>)
    ensures |r| == |pos|
    ensures forall i :: 0 <= i < |r| ==> r[i] == PlaneObjectGroup(pos[i])
  {
    seq(|pos|, i requires 0 <= i < |pos| => PlaneObjectGroup(pos[i]))
  }

  /** The forEach over the helpers in init: each is made visible. */
  method ShowHelpers(helpers: seq<PlaneHelper>) returns (shown: seq<PlaneHelper>)
    ensures |shown| == |helpers|
    ensures forall i :: 0 <= i < |shown| ==> shown[i] == helpers[i].(visible := true)
  {
    shown := helpers;
    var i := 0;
    while i < |shown|
      invariant 0 <= i <= |shown| == |helpers|
      invariant forall k :: 0 <= k < i ==> shown[k] == helpers[k].(visible := true)
      invariant forall k :: i <= k < |shown| ==> shown[k] == helpers[k]
    {
      shown := shown[i := shown[i].(visible := true)];
      i := i + 1;
    }
  }

  /**
   * The per-plane loop of init: for plane i, its stencil group drawn at
   * i + 1 and a new cap clipped by the other planes drawn at i + 1.1.
   */
  method BuildPlaneObjects(planes: seq<PlaneId>) returns (groups: seq<Node>, pos: seq<PlaneObject>)
    ensures groups == StencilGroupNodes(planes)
    ensures |pos| == |planes|
    ensures forall i :: 0 <= i < |pos| ==> fresh(pos[i]) && pos[i].spec == CapFor(planes, i) && pos[i].alignedTo == None
    ensures forall i, j :: 0 <= i < j < |pos| ==> pos[i] != pos[j]
  {
    groups := [];
    pos := [];
    var i := 0;
    while i < |planes|
      invariant 0 <= i <= |planes|
      invariant |groups| == i && |pos| == i
      invariant groups == StencilGroupNodes(planes)[..i]
      invariant forall k :: 0 <= k < i ==> fresh(pos[k]) && pos[k].spec == CapFor(planes, k) && pos[k].alignedTo == None
      invariant forall a, b :: 0 <= a < b < i ==> pos[a] != pos[b]
    {
      var stencilGroup := StencilGroupFor(planes, i);
      var po := new PlaneObject(CapFor(planes, i));
      groups := groups + [MeshGroup(stencilGroup)];
      pos := pos + [po];
      i := i + 1;
    }
    assert groups == StencilGroupNodes(planes);
  }

  /** The loop of animate over a list of plane objects and the planes they belong to. */
  method AlignToPlanes(pos: seq<PlaneObject>, planes: seq<PlaneId>)
    requires |pos| <= |planes|
    requires forall i, j :: 0 <= i < j < |pos| ==> pos[i] != pos[j]
    modifies pos
    ensures forall i :: 0 <= i < |pos| ==> pos[i].alignedTo == Some(planes[i])
  {
    var i := 0;
    while i < |pos|
      invariant 0 <= i <= |pos|
      invariant forall k :: 0 <= k < i ==> pos[k].alignedTo == Some(planes[k])
    {
      var plane := planes[i];
      var po := pos[i];
      po.alignedTo := Some(plane);
      i := i + 1;
    }
  }

  class StencilSceneService {
    var planes: seq<PlaneId>
    var planeObjects: seq<PlaneObject>
    var planeHelpers: seq<PlaneHelper>
    /** null until init. */
    var scene: Group3D?
    /** The model group, `object` in the TypeScript service; null until init. */
    var obj: Group3D?

    /** Plane object i is the cap of planes[i], and no object is listed twice. */
    ghost predicate Valid()
      reads this
    {
      && |planeObjects| == |planes|
      && (forall i :: 0 <= i < |planes| ==> planeObjects[i].spec == CapFor(planes, i))
      && (forall i, j :: 0 <= i < j < |planeObjects| ==> planeObjects[i] != planeObjects[j])
    }

    constructor ()
      ensures Valid()
      ensures planes == [] && planeObjects == [] && planeHelpers == [] && scene == null && obj == null
    {
      planes := [];
      planeObjects := [];
      planeHelpers := [];
      scene := null;
      obj := null;
    }

    /**
     * init, without lights, camera, ground, renderer and controls: the
     * helpers, the model group, one stencil group and one cap per plane in
     * plane order, and the colour mesh.
     */
    method Init()
      modifies this
      ensures Valid()
      ensures planes == ConfiguredPlanes
      ensures |planeHelpers| == |planes|
      ensures forall i :: 0 <= i < |planes| ==> planeHelpers[i] == PlaneHelper(planes[i], 2.0, true)
      ensures scene != null && obj != null && fresh(scene) && fresh(obj) && scene != obj
      ensures forall i :: 0 <= i < |planes| ==> fresh(planeObjects[i]) && planeObjects[i].alignedTo == None
      ensures obj.children == StencilGroupNodes(planes) + [MeshLeaf(ColourMesh(planes))]
      ensures scene.children == HelperNodes(planeHelpers) + [GroupRef(obj)] + PlaneObjectNodes(planeObjects)
    {
      var ps := ConfiguredPlanes;
      var helpers := ShowHelpers(NewHelpers(ps));
      var model := new Group3D();
      var groups, pos := BuildPlaneObjects(ps);
      model.children := groups + [MeshLeaf(ColourMesh(ps))];
      var sc := new Group3D();
      sc.children := HelperNodes(helpers) + [GroupRef(model)] + PlaneObjectNodes(pos);
      planes := ps;
      planeHelpers := helpers;
      planeObjects := pos;
      scene := sc;
      obj := model;
    }

    /** The per-frame loop of animate: every plane object, in index order, is placed on the plane at the same index. */
    method Animate()
      requires Valid()
      modifies planeObjects
      ensures forall i :: 0 <= i < |planeObjects| ==> planeObjects[i].alignedTo == Some(planes[i])
    {
      AlignToPlanes(planeObjects, planes);
    }
  }
}
