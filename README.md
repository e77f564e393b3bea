# ng-ifc-examples: a verified model of the viewer's core logic

This project models the core logic of an Angular viewer for IFC building
models. The viewer renders with three.js and web-ifc. The model has four
parts.

- **Semantic ids** (`SubsetIds`, with `Seqs`).
  - `IfcService.getIdsFromSubset` walks a mesh's index buffer and collects
    each referenced `expressID` once, in order of first occurrence.
  - `loadIfcFile` splits the model's ids into the wireframe ids and
    everything else.
  - `getWireframeElements` concatenates the per-type classification
    answers.
- **Subset registry** (`Ifc`).
  - The service keeps a `subsets` list and an `isTransparent` flag.
  - It drives the web-ifc manager, which is foreign code. The model
    represents the manager by two maps: the ids each named subset holds,
    and the material list of each subset mesh.
  - `createSubset` first removes the ids from every registered subset. It
    then rebuilds the named subset from exactly those ids
    (`removePrevious: true`).
  - `toggleTransparency` flips the flag and restyles every material of
    every subset.
- **Plane list controller** (`PlanesController`).
  - `PlanesControllerComponent` keeps an append-only list of plane records
    named "Plane 1", "Plane 2", and so on. It also keeps the selected
    record.
  - An edit finds the selected record's position by a name lookup and
    forwards that position to the service. The service calls it makes are
    recorded as a log.
- **Stencil caps and draw order** (`Stencil`, `StencilScene`).
  - For each clipping plane the code builds a stencil group of two meshes:
    back faces count up and front faces count down.
  - It also builds a cap. The cap is drawn where the count is non-zero. It
    is clipped by the other planes and clears the stencil after it is
    drawn.
  - `StencilSceneService.init` builds one stencil group and one cap per
    plane. Stencil group i draws at i+1 and cap i at i+1.1, so draw order
    interleaves strictly.
  - The colour mesh draws at 6 and is clipped by all planes.
  - `animate` places plane object i on plane i.
  - Materials are records of the three.js settings the code writes.
    Stencil functions and operations are tags. Planes are opaque ids
    compared by identity.

A note on `applyStencil`: it draws the stencil group at `order` and the cap
at `order + 1.1`. The init loop of `StencilSceneService` does not call it.
That loop builds the same meshes, with the group at `i + 1` and the cap at
`i + 1.1`, so each cap draws 0.1 after its own stencil group.

The two copies of `createPlaneStencilGroup`, in `stencil.ts` and in
`stencil-scene.service.ts`, are identical. `Stencil.CreatePlaneStencilGroup`
models both.

Modules: `Wrappers` (Option), `Seqs`, `SubsetIds`, `Ifc`,
`PlanesController`, `Stencil`, `StencilScene`, one per `.dfy` file.

## Model

| member | source | states |
|---|---|---|
| Seqs.Distinct | src/app/ifc.service.ts:121-125 | The Set-then-Array.from result holds exactly the values of the input, has no duplicates, and is no longer than the input. |
| Seqs.DistinctKeepsFirstOccurrenceOrder | src/app/ifc.service.ts:121-125 | The distinct values are listed in order of their first occurrence in the input. |
| Seqs.DistinctOfEmpty | src/app/ifc.service.ts:120-125 | Nothing collected from nothing. |
| Seqs.FirstIndex | src/app/ifc.service.ts:121-125 | The position it returns holds the value, and no earlier position does. |
| Seqs.Without | src/app/ifc.service.ts:110-112 | The filter result is no longer than its input. |
| Seqs.WithoutMembers | src/app/ifc.service.ts:110-112 | A value survives the filter iff it is in the input and not excluded. |
| Seqs.WithoutAppend | src/app/ifc.service.ts:110-112 | Filtering a concatenation filters each part, so relative order is kept. |
| Seqs.WithoutIsSubsequence | src/app/ifc.service.ts:110-112 | The filter result is the input with some elements deleted, in the input's order. |
| Seqs.WithoutKeepsNoDuplicates | src/app/ifc.service.ts:110-112 | A duplicate-free input gives a duplicate-free result. |
| Seqs.WithoutOneOfDistinct | src/app/stencil-scene.service.ts:86 | Excluding one value of a duplicate-free list shortens it by exactly one. |
| Seqs.WithoutNothingExcluded | src/app/stencil-scene.service.ts:86 | A filter that excludes nothing present returns its input unchanged. |
| Seqs.Flatten | src/app/ifc.service.ts:155-157 | A value is in `flat()`'s result iff it is in one of the lists. |
| Seqs.FlattenAppend | src/app/ifc.service.ts:155-157 | Flattening a concatenation of list-lists concatenates the flattenings, which is the order the lists were given in. |
| Seqs.FlattenKeepsDuplicates | src/app/ifc.service.ts:155-157 | The result's multiset is the sum of the lists' multisets, so every duplicate is kept. |
| SubsetIds.Referenced | src/app/ifc.service.ts:122-123 | Entry k is the expressID of the vertex that index k names. |
| SubsetIds.GetIdsFromSubset | src/app/ifc.service.ts:117-126 | The result is duplicate-free. An id is in it iff some index of the buffer names a vertex with that id. An empty buffer gives an empty result. The result equals the first-occurrence de-duplication of the referenced ids, which has the order property above. |
| SubsetIds.NonWireframeIds | src/app/ifc.service.ts:110-112 | The list holds exactly the ids of `allIds` not among the wireframe ids, in `allIds` order (a subsequence). It is disjoint from the wireframe ids. With the shared ids it makes up all ids. It stays duplicate-free when `allIds` is. |
| SubsetIds.GetWireframeElements | src/app/ifc.service.ts:146-158 | The result is present iff every per-type query answers. An id is in it iff some type's answer holds it. |
| SubsetIds.WireframeElementsAreFlattened | src/app/ifc.service.ts:147-157 | When every query answers, the result is the concatenation of the answers in type-list order, duplicates kept. |
| Ifc.RemoveFrom | src/app/ifc.service.ts:190-194 | The subsets named in the list lose exactly the given ids, every other subset is unchanged, and no subset is added or dropped. |
| Ifc.RemoveFromAll | src/app/ifc.service.ts:190-194 | Every subset loses exactly the given ids and keeps the rest. |
| Ifc.Register | src/app/ifc.service.ts:161-187 | After createSubset's manager calls, the named subset holds exactly the ids. Every other subset holds its old ids minus those. The named subset is the only one added. |
| Ifc.RegisterKeepsDisjoint | src/app/ifc.service.ts:161-194 | If no id was in two subsets before a createSubset, none is after. |
| Ifc.RegisterIdempotent | src/app/ifc.service.ts:170-176 | Creating the same subset from the same ids twice is the same as creating it once (`removePrevious: true`). |
| Ifc.RemoveFromAllKeepsDisjoint | src/app/ifc.service.ts:190-194 | Removing ids everywhere keeps subsets pairwise disjoint. |
| Ifc.Styled | src/app/ifc.service.ts:201-209 | The list keeps its length and every material gets opacity 0.5 and transparent set, or opacity 1 and transparent cleared, by the flag. |
| Ifc.StyledLastWins | src/app/ifc.service.ts:196-209 | Restyling twice is the same as restyling once with the later flag. |
| Ifc.StyleMaterials | src/app/ifc.service.ts:201-209 | The inner forEach sets each material for the flag and keeps the list's length. |
| Ifc.RemoveFromEach | src/app/ifc.service.ts:191-193 | After the forEach over the registered subsets, each of them has lost the ids and every other manager subset is unchanged. |
| Ifc.StyleEach | src/app/ifc.service.ts:199-210 | After the outer forEach, every registered subset's material list is restyled for the flag, other lists are unchanged, and the subset set is the same. |
| Ifc.SplitRegisters | src/app/ifc.service.ts:107-113 | Registering the wireframe ids and then the rest leaves each subset with exactly its share, and their union covers all ids. |
| Ifc.IfcService.constructor | src/app/ifc.service.ts:32-33 | No subsets and not transparent initially. |
| Ifc.IfcService.RemoveIdsFromSubset | src/app/ifc.service.ts:190-194 | Every registered subset loses the ids, and nothing else changes. Subsets stay pairwise disjoint. |
| Ifc.IfcService.CreateSubset | src/app/ifc.service.ts:161-188 | No previously registered subset still holds any of the ids, and the named subset holds exactly them. The subset gets the manager's materials. `subsets` grows by one entry whose lines flag is `wireframe`. Subsets stay pairwise disjoint. |
| Ifc.IfcService.ToggleTransparency | src/app/ifc.service.ts:196-211 | The flag is negated, so two calls restore it. Every material of every registered subset is set for the new flag. Membership and `subsets` are unchanged. |
| Ifc.IfcService.LoadIfcModel | src/app/ifc.service.ts:91-114 | When the classification answers, two entries are appended: "wireframe_elements" with lines and "everything_else" without. The first holds exactly the wireframe ids. The second holds exactly the mesh's other ids. Together they cover every id of the mesh. Every other subset only loses those ids, as two createSubset calls in a row leave it. Both new subsets get the manager's materials, and no other material list changes. When a query rejects, nothing changes. |
| PlanesController.Digit | src/app/planes-controller/planes-controller.component.ts:23 | The character of a decimal digit is a digit character with that value. |
| PlanesController.DecimalString | src/app/planes-controller/planes-controller.component.ts:23 | The numeral is non-empty and all digits. Its last digit is n mod 10. It has two or more digits iff n >= 10. That it denotes n is DecimalStringDenotes. |
| PlanesController.DecimalStringDenotes | src/app/planes-controller/planes-controller.component.ts:23 | The numeral's digits, read most significant first, denote exactly n, and a numeral of two or more digits has no leading zero. |
| PlanesController.DecimalStringInjective | src/app/planes-controller/planes-controller.component.ts:23 | Different numbers have different numerals. |
| PlanesController.PlaneName | src/app/planes-controller/planes-controller.component.ts:23 | The name is "Plane " followed by a numeral without leading zero whose digits denote exactly k. |
| PlanesController.PlaneNameInjective | src/app/planes-controller/planes-controller.component.ts:22-23 | Different counts give different names. |
| PlanesController.NamedInOrderAppend | src/app/planes-controller/planes-controller.component.ts:22-26 | Pushing a record named after the new length keeps record k named "Plane k+1". |
| PlanesController.NamesUnique | src/app/planes-controller/planes-controller.component.ts:22-23 | When record k is named "Plane k+1", as addPlane keeps it, no two records share a name. |
| PlanesController.FindIndexByName | src/app/planes-controller/planes-controller.component.ts:35 | `findIndex` gives the first position holding the name, or -1 exactly when no record holds it. |
| PlanesController.FindsListedPlane | src/app/planes-controller/planes-controller.component.ts:35 | Under addPlane's naming, looking up record k's name gives k. |
| PlanesController.SelectedIndex | src/app/planes-controller/planes-controller.component.ts:35-41 | The lookup of a listed selected plane is in range and lands on that same plane object. |
| PlanesController.IfcPlane.constructor | src/app/planes-controller/planes-controller.component.ts:22-26 | A record with the given name, constant and invert flag. |
| PlanesController.PlanesControllerComponent.constructor | src/app/planes-controller/planes-controller.component.ts:13-14 | No planes and nothing selected. |
| PlanesController.PlanesControllerComponent.AddPlane | src/app/planes-controller/planes-controller.component.ts:21-32 | Exactly one new record `{name: "Plane " + (old length + 1), constant: 5, invert: false}` is appended. Earlier records keep their positions and values. The new record is selected, so the selection is the last element. The new record's constant and invert are forwarded to the service. The naming invariant is kept. |
| PlanesController.PlanesControllerComponent.PlaneConstantChanged | src/app/planes-controller/planes-controller.component.ts:34-37 | With a selection, one call is forwarded. Its index is the selected plane's own position in the list, and it carries the plane's constant. The list and the selection are unchanged. |
| PlanesController.PlanesControllerComponent.PlaneInvertChange | src/app/planes-controller/planes-controller.component.ts:39-42 | The same lookup, forwarding the selected plane's position and its invert flag. |
| Stencil.DefaultMaterial | src/app/stencil.ts:25 | A new material draws front faces, writes and tests depth and colour, does not write the stencil, and has no clipping planes. |
| Stencil.StencilBaseMaterial | src/app/stencil.ts:25-30 | The base is a stencil-counting material: no depth write, no depth test, no colour write, stencil write on, function Always. |
| Stencil.CreatePlaneStencilGroup | src/app/stencil.ts:19-58 | Exactly two meshes over the given geometry, both at the given render order. Both keep the base settings and clip against exactly `[plane]`. The back-face mesh increment-wraps on fail, zfail and zpass. The front-face mesh decrement-wraps on all three. The service's own copy, lines 158-193 of stencil-scene.service.ts, is the same construction. |
| Stencil.StencilMeshesAreMirrored | src/app/stencil.ts:32-50 | The two meshes are identical clones of the base except for the face side and for stencil operations that undo each other. |
| Stencil.CapMaterial | src/app/stencil.ts:73-84 | The cap material is clipped by exactly the given planes. It has stencilRef 0, function NotEqual and Replace on all three outcomes. Otherwise it is a default standard material. |
| Stencil.CapMesh | src/app/stencil.ts:85-90 | The cap is the plane quad with the cap material at the given order, and it clears the stencil after it renders. |
| Stencil.CapFollowsItsStencilGroup | src/app/stencil.ts:71-90 | applyStencil's cap draws strictly after both meshes of its stencil group (`order + 1.1 > order`). It draws only where they left a count, is clipped by exactly `otherPlanes`, and clears the stencil. |
| Stencil.PlaneObject.constructor | src/app/stencil.ts:85 | A plane object with the given mesh, not yet placed on any plane. |
| Stencil.Group3D.constructor | src/app/stencil.ts:70 | A new group has no children. |
| Stencil.PlaneObjectList.constructor | src/app/stencil-scene.service.ts:73 | The caller's `planeObjects` array starts empty. |
| Stencil.ApplyStencil | src/app/stencil.ts:60-95 | `planeObjects` grows by exactly one new cap, and the existing entries are unchanged. The cap is clipped by `otherPlanes`, drawn at `order + 1.1` and clears the stencil. The stencil group drawn at `order` is added to `object`, and a group holding the cap to `scene`. Both are added to the same group when `object` is `scene`. |
| StencilScene.StencilGroupFor | src/app/stencil-scene.service.ts:79 | Plane i's stencil group is two stencil-counting meshes over the model geometry, drawn at i+1 and clipped by `[planes[i]]`, the first increment-wrapping and the second decrement-wrapping. |
| StencilScene.CapFor | src/app/stencil-scene.service.ts:82-100 | Plane i's cap is the plane quad with a standard material drawn where counted, clipped by the planes other than `planes[i]`, drawn at i+1.1, clearing the stencil after render and casting no shadow. |
| StencilScene.ColourMesh | src/app/stencil-scene.service.ts:108-121 | The colour mesh is the model geometry with a standard material clipped by all planes, clipping shadows with shadow side DoubleSide, casting shadows, drawn at order 6, and not writing the stencil. |
| StencilScene.NewHelpers | src/app/stencil-scene.service.ts:62 | One helper of size 2 per plane, helper i for plane i. |
| StencilScene.ShowHelpers | src/app/stencil-scene.service.ts:63-66 | Every helper is made visible and nothing else about it changes. |
| StencilScene.BuildPlaneObjects | src/app/stencil-scene.service.ts:76-106 | One new, distinct cap per plane, in plane order. Cap i is plane i's cap, clipped by the other planes and drawn at i+1.1. Stencil group i is drawn at i+1. |
| StencilScene.AlignToPlanes | src/app/stencil-scene.service.ts:201-210 | Every plane object ends up placed on the plane at the same index. |
| StencilScene.DrawOrderInterleaves | src/app/stencil-scene.service.ts:79-100 | For i < j: stencil group i < cap i < stencil group j, and cap i < cap j. |
| StencilScene.CapClipsOtherPlanes | src/app/stencil-scene.service.ts:86 | Cap i is clipped by exactly the planes other than `planes[i]`, in plane order. That is n-1 planes when the planes are distinct. Together with the stencil group's `[planes[i]]` they make up all planes, with no overlap. |
| StencilScene.ColourDrawsAfterCaps | src/app/stencil-scene.service.ts:100-120 | The colour mesh (order 6) draws after every cap iff there are at most five planes. |
| StencilScene.ConfiguredColourDrawsLast | src/app/stencil-scene.service.ts:56-60 | The two configured planes are distinct. The colour mesh draws after both caps and clips against both planes. |
| StencilScene.StencilSceneService.constructor | src/app/stencil-scene.service.ts:6 | No planes, plane objects or helpers before init. |
| StencilScene.StencilSceneService.Init | src/app/stencil-scene.service.ts:31-121 | After init the planes are the two configured ones, with one visible helper each. The model group holds stencil group i for every plane in order, then the colour mesh. The scene holds the helpers, the model group, then one group per cap. `planeObjects` has one new, distinct entry per plane, and entry i is the cap of `planes[i]`. |
| StencilScene.StencilSceneService.Animate | src/app/stencil-scene.service.ts:195-213 | While `planeObjects` pairs with `planes`, every plane object i ends up placed on `planes[i]`. |

## Left out

- Rendering and frame scheduling are not modelled: the WebGL renderer, cameras, lights, grid, ground, shadows, OrbitControls, `requestAnimationFrame` and `renderer.render`.
- The GPU meaning of stencil functions, stencil operations and clipping is not modelled; they are tags on material records.
- Colours, metalness and roughness of materials are not modelled.
- Geometry math is not modelled. `coplanarPoint` and `lookAt` in animate are reduced to recording which plane a plane object was placed on (`alignedTo`).
- Render orders are exact reals. The TypeScript code's JavaScript doubles (`i + 1.1`) order the same way for the plane counts involved.
- In `StencilSceneService`, the TypeScript service's module-level globals `planes`, `planeObjects`, `planeHelpers`, `scene` and `object` are fields of the service.
- Animate before init: in the TypeScript service the globals are undefined, so the loop condition `planeObjects.length` throws before any plane is read. In the model the constructor starts with empty lists, so animate does nothing.
- Plane objects are shared by `planeObjects` and the scene's cap groups. Only that sharing is kept. The three.js rule that `Group.add` moves a child away from its old parent is not modelled; every group here is fresh.
- The web-ifc manager is foreign code. `createSubset`, `removeFromSubset`, `getSubset` and `getAllItemsOfType` appear only through their assumed effect on the id and material maps.
- The materials list of a rebuilt subset mesh is chosen by the manager. It is a parameter of `CreateSubset`.
- The `modelID` argument is not modelled; only model 0 is used.
- The edge-line meshes (`createLines`, `EdgesGeometry`) are reduced to the entry's `hasLines` flag.
- The wireframe type list comes from `./wireframe-elements`, which is not part of this model. It is a parameter.
- getWireframeElements' asynchronous `Promise.all` is not modelled. A rejected query is `None`, and one rejection yields no result. In that case loadIfcFile stops before creating any subset, and so does `LoadIfcModel`.
- The index buffer is assumed to name only existing vertices (`WellIndexed`). The TypeScript code would read past the attribute array on a bad index.
- The final `+id` numeric conversion in getIdsFromSubset is not modelled, because ids are already integers here.
- `IfcService.addPlane`, `adjustPlane` and `flipPlane` are called from the plane controller but are in no file of this model. Their effect is not modelled; the controller records each call in `ifcCalls`.
- The plane record's `showHelper` field is not modelled, because addPlane never sets it.
- The component template is not part of this model, so its two-way bindings are not either. The fields `constant` and `invert` of a record are mutable for them.
- PlanesController.PlanesControllerComponent.PlaneConstantChanged: nothing is selected only before the first addPlane, when `planes` is empty. Then `findIndex` calls no callback and gives -1, and the component throws a TypeError reading `this.selectedPlane.constant` of the undefined selection. The model makes no call and returns `forwarded = false`.
- PlanesController.PlanesControllerComponent.PlaneInvertChange: the same missing selection makes the component throw reading `this.selectedPlane.invert`. The model makes no call and returns `forwarded = false`.
- `stencil-scene2.service.ts`, `hz-plane-helper.ts` and `app.component.ts` are not modelled: they are time-driven animation, plane-helper geometry and DOM handling.
