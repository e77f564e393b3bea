/**
 * The stencil-cap construction of stencil.ts: for one clipping plane, a
 * group of two stencil-counting meshes over the model geometry, and a cap
 * quad that is drawn where the count is non-zero, clipped by the other
 * planes. Materials are records of the three.js settings the code writes;
 * stencil functions and operations are tags, their GPU meaning is not
 * modelled. Planes are opaque ids compared by identity.
 */
module Stencil {
  import opened Wrappers

  /** A clipping plane, by identity. */
  type PlaneId = nat

  datatype Side = FrontSide | BackSide | DoubleSide

  datatype StencilFunc = AlwaysStencilFunc | NotEqualStencilFunc

  datatype StencilOp = KeepStencilOp | IncrementWrapStencilOp | DecrementWrapStencilOp | ReplaceStencilOp

  datatype MaterialKind = MeshBasicMaterial | MeshStandardMaterial

  datatype Geometry =
    | TorusKnotGeometry(radius: real, tube: real, tubularSegments: nat, radialSegments: nat)
    | PlaneGeometry(width: real, height: real)
    /** Geometry handed in by a caller, by identity. */
    | GivenGeometry(id: nat)

  /** The material settings the stencil code reads or writes. */
  datatype Material = Material(
    kind: MaterialKind,
    side: Side,
    depthWrite: bool,
    depthTest: bool,
    colorWrite: bool,
    stencilWrite: bool,
    stencilRef: int,
    stencilFunc: StencilFunc,
    stencilFail: StencilOp,
    stencilZFail: StencilOp,
    stencilZPass: StencilOp,
    clippingPlanes: seq<PlaneId>,
    clipShadows: bool,
    shadowSide: Option<Side>)

  /** A mesh's fixed description: what it draws, how, when, and what runs after it is drawn. */
  datatype MeshSpec = MeshSpec(
    geometry: Geometry,
    material: Material,
    renderOrder: real,
    clearsStencilAfterRender: bool,
    castShadow: bool)

  /** A freshly constructed three.js material (no clipping planes is the empty list). */
  function DefaultMaterial(kind: MaterialKind): (m: Material)
    ensures m.kind == kind && m.side == FrontSide
    ensures m.depthWrite && m.depthTest && m.colorWrite && !m.stencilWrite
    ensures m.stencilRef == 0 && m.stencilFunc == AlwaysStencilFunc
    ensures AllOps(m, KeepStencilOp)
    ensures m.clippingPlanes == [] && !m.clipShadows && m.shadowSide == None
  {
    Material(kind, FrontSide, true, true, true, false, 0, AlwaysStencilFunc,
             KeepStencilOp, KeepStencilOp, KeepStencilOp, [], false, None)
  }

  /** A mesh as `new Mesh(geometry, material)` makes it: render order 0, no callbacks, no shadow. */
  function NewMesh(geometry: Geometry, material: Material): MeshSpec {
    MeshSpec(geometry, material, 0.0, false, false)
  }

  /** The same operation on stencil-test failure, depth-test failure and pass. */
  predicate AllOps(m: Material, op: StencilOp) {
    m.stencilFail == op && m.stencilZFail == op && m.stencilZPass == op
  }

  /**
   * A stencil-counting material: draws nothing to colour or depth, ignores
   * depth, and always writes the stencil.
   */
  predicate CountsIntoStencil(m: Material) {
    && m.kind == MeshBasicMaterial
    && !m.depthWrite && !m.depthTest && !m.colorWrite
    && m.stencilWrite && m.stencilFunc == AlwaysStencilFunc
  }

  /** A cap material: drawn where the stencil is not 0, resetting it there. */
  predicate DrawsWhereCounted(m: Material) {
    && m.stencilWrite && m.stencilRef == 0
    && m.stencilFunc == NotEqualStencilFunc
    && AllOps(m, ReplaceStencilOp)
  }

  /** The undoing counterpart of a stencil operation. */
  function Opposite(op: StencilOp): StencilOp {
    match op
    case IncrementWrapStencilOp => DecrementWrapStencilOp
    case DecrementWrapStencilOp => IncrementWrapStencilOp
    case other => other
  }

  /** The shared base of the two stencil materials. */
  function StencilBaseMaterial(): (m: Material)
    ensures CountsIntoStencil(m)
  {
    DefaultMaterial(MeshBasicMaterial).(depthWrite := false, depthTest := false, colorWrite := false,
                                        stencilWrite := true, stencilFunc := AlwaysStencilFunc)
  }

  /** One of the two stencil meshes: the base cloned, for one face side and one operation. */
  function StencilMesh(geometry: Geometry, plane: PlaneId, renderOrder: real, side: Side, op: StencilOp): MeshSpec {
    var mat := StencilBaseMaterial().(side := side, clippingPlanes := [plane],
                                      stencilFail := op, stencilZFail := op, stencilZPass := op);
    NewMesh(geometry, mat).(renderOrder := renderOrder)
  }

  /**
   * createPlaneStencilGroup: the children of the returned group, in order:
   * the back faces counting up, then the front faces counting down, both
   * clipped by the plane alone and drawn at `renderOrder`.
   */
  function CreatePlaneStencilGroup(geometry: Geometry, plane: PlaneId, renderOrder: real): (g: seq<MeshSpec>)
    ensures |g| == 2
    ensures forall k :: 0 <= k < |g| ==>
      && g[k].geometry == geometry
      && g[k].renderOrder == renderOrder
      && CountsIntoStencil(g[k].material)
      && g[k].material.clippingPlanes == [plane]
      && g[k].material.stencilRef == 0
      && !g[k].clearsStencilAfterRender
    ensures g[0].material.side == BackSide && AllOps(g[0].material, IncrementWrapStencilOp)
    ensures g[1].material.side == FrontSide && AllOps(g[1].material, DecrementWrapStencilOp)
  {
    [StencilMesh(geometry, plane, renderOrder, BackSide, IncrementWrapStencilOp),
     StencilMesh(geometry, plane, renderOrder, FrontSide, DecrementWrapStencilOp)]
  }

  /**
   * The two stencil meshes are clones of one base that differ only in the
   * face side and in operations that undo each other.
   */
  lemma StencilMeshesAreMirrored(geometry: Geometry, plane: PlaneId, renderOrder: real)
    ensures var g := CreatePlaneStencilGroup(geometry, plane, renderOrder);
      && g[1].material == g[0].material.(side := FrontSide,
                                         stencilFail := Opposite(g[0].material.stencilFail),
                                         stencilZFail := Opposite(g[0].material.stencilZFail),
                                         stencilZPass := Opposite(g[0].material.stencilZPass))
      && g[1] == g[0].(material := g[1].material)
  {
  }

  /** The cap material: a standard material clipped by `clipping`, drawn where counted. */
  function CapMaterial(clipping: seq<PlaneId>): (m: Material)
    ensures m.kind == MeshStandardMaterial
    ensures m.clippingPlanes == clipping
    ensures DrawsWhereCounted(m)
    ensures m.side == FrontSide && m.depthWrite && m.depthTest && m.colorWrite
    ensures !m.clipShadows && m.shadowSide == None
  {
    DefaultMaterial(MeshStandardMaterial).(clippingPlanes := clipping, stencilWrite := true, stencilRef := 0,
                                           stencilFunc := NotEqualStencilFunc, stencilFail := ReplaceStencilOp,
                                           stencilZFail := ReplaceStencilOp, stencilZPass := ReplaceStencilOp)
  }

  /** The cap mesh: the plane quad with the cap material, clearing the stencil once drawn. */
  function CapMesh(planeGeom: Geometry, clipping: seq<PlaneId>, renderOrder: real): (c: MeshSpec)
    ensures c.geometry == planeGeom && c.renderOrder == renderOrder
    ensures c.material == CapMaterial(clipping)
    ensures c.clearsStencilAfterRender
  {
    NewMesh(planeGeom, CapMaterial(clipping)).(renderOrder := renderOrder, clearsStencilAfterRender := true)
  }

  /** A cap mesh the scene code later moves onto its plane: `alignedTo` records the plane it was last placed on. */
  class PlaneObject {
    const spec: MeshSpec
    var alignedTo: Option<PlaneId>

    constructor (spec: MeshSpec)
      ensures this.spec == spec && alignedTo == None
    {
      this.spec := spec;
      alignedTo := None;
    }
  }

  /** A three.js PlaneHelper: the plane it shows, its size, and whether it is visible. */
  datatype PlaneHelper = PlaneHelper(plane: PlaneId, size: real, visible: bool)

  /** A child added to a three.js group or scene. */
  datatype Node =
    /** A group of fixed meshes, such as a stencil group. */
    | MeshGroup(meshes: seq<MeshSpec>)
    /** A single fixed mesh. */
    | MeshLeaf(mesh: MeshSpec)
    /** A group holding one plane object. */
    | PlaneObjectGroup(po: PlaneObject)
    /** A plane helper. */
    | PlaneHelperNode(helper: PlaneHelper)
    /** Another group or scene, by reference. */
    | GroupRef(group: Group3D)

  /** A three.js Group or Scene: its children, in the order they were added. */
  class Group3D {
    var children: seq<Node>

    constructor ()
      ensures children == []
    {
      children := [];
    }
  }

  /** The caller's `planeObjects` array that applyStencil pushes caps onto. */
  class PlaneObjectList {
    var items: seq<PlaneObject>

    constructor ()
      ensures items == []
    {
      items := [];
    }
  }

  /**
   * applyStencil: adds the plane's stencil group, drawn at `order`, to
   * `obj` (the TypeScript parameter `object`); makes a cap clipped by `otherPlanes`, drawn at `order + 1.1`;
   * appends the cap to `planeObjects` and adds a group holding it to
   * `scene`.
   */
  method ApplyStencil(geometry: Geometry, obj: Group3D, planeGeom: Geometry, planeObjects: PlaneObjectList,
                      plane: PlaneId, order: real, otherPlanes: seq<PlaneId>, scene: Group3D)
    modifies obj, planeObjects, scene
    ensures |planeObjects.items| == |old(planeObjects.items)| + 1
    ensures planeObjects.items[..|old(planeObjects.items)|] == old(planeObjects.items)
    ensures var po := planeObjects.items[|planeObjects.items| - 1];
      && fresh(po)
      && po.spec == CapMesh(planeGeom, otherPlanes, order + 1.1)
      && po.alignedTo == None
      && (obj == scene ==>
            scene.children == old(scene.children)
              + [MeshGroup(CreatePlaneStencilGroup(geometry, plane, order)), PlaneObjectGroup(po)])
      && (obj != scene ==>
            && obj.children == old(obj.children) + [MeshGroup(CreatePlaneStencilGroup(geometry, plane, order))]
            && scene.children == old(scene.children) + [PlaneObjectGroup(po)])
  {
    var stencilGroup := CreatePlaneStencilGroup(geometry, plane, order);
    var po := new PlaneObject(CapMesh(planeGeom, otherPlanes, order + 1.1));
    obj.children := obj.children + [MeshGroup(stencilGroup)];
    planeObjects.items := planeObjects.items + [po];
    scene.children := scene.children + [PlaneObjectGroup(po)];
  }

  /**
   * The cap applyStencil makes draws after both meshes of its stencil group,
   * only where they left a count, and is clipped by exactly the other planes.
   */
  lemma CapFollowsItsStencilGroup(geometry: Geometry, planeGeom: Geometry, plane: PlaneId, order: real,
                                  otherPlanes: seq<PlaneId>)
    ensures var g := CreatePlaneStencilGroup(geometry, plane, order);
      var cap := CapMesh(planeGeom, otherPlanes, order + 1.1);
      && (forall k :: 0 <= k < |g| ==> g[k].renderOrder < cap.renderOrder)
      && DrawsWhereCounted(cap.material)
      && cap.material.clippingPlanes == otherPlanes
      && cap.clearsStencilAfterRender
  {
  }
}
