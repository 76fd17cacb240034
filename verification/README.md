# bevy_transform_gizmo — a Dafny model

This project models the core of `bevy_transform_gizmo`, a Bevy plugin. The plugin draws a
transform gizmo: three arrows, three planes, three rotation rings and a view-plane sphere.
The user drags these handles with the mouse to move or rotate the selected entities.

The model covers the following parts of the plugin:

- **The interaction state machine and the drag bookkeeping** (`src/lib.rs`):
  - `hover_gizmo`, `grab_gizmo` and `drag_gizmo`. These move the gizmo's `Interaction` through `Idle` / `Hovered` / `Clicked`.
  - They fill in and reset the `TransformGizmo` record: current handle, drag anchor, drag origin and the gizmo's initial transform.
  - They snapshot the selection into `InitialTransform`s, and write each dragged entity as its snapshot plus the drag.
  - They send one `TransformGizmoEvent` per completed drag.
- **`update_gizmo_settings`**: re-derives every handle's direction from the alignment rotation.
- **`place_gizmo`**: puts the gizmo at the centroid of the selection.
- **`plugin_enabled`**: the run criterion for the gizmo systems.
- **`GizmoHighlighter`** (`src/mesh/mod.rs`): which handle is highlighted, and the materials that show it.
- **`build_gizmo`**: the handle catalog, the materials the handles are spawned with, and the child list.
- **The gizmo picking systems** (`src/picking.rs`): they feed the latest cursor position to the gizmo's pick source, and turn scene picking off while a handle is hovered or engaged.
- **The cone mesh of the arrow tips** (`src/mesh/cone.rs`): its vertex buffers and its triangle index buffer.

Layout:

- **Values and geometry**:
  - `vectors.dfy`: vectors and quaternions over the reals.
  - `gizmo_types.dfy`: the components and records.
- **One pure step function per system, with its contract and the lemmas about it**:
  - `hover.dfy` (`Hover.HoverStep`)
  - `grab.dfy` (`Grab.PressStep`, `Grab.ReleaseStep`)
  - `drag.dfy` (`Drag.DragStep`, `Drag.WriteSelected`)
  - `placement.dfy` (`Placement.PlaceStep`)
  - `settings.dfy` (`Settings.RealignHandles`)
- **The ECS world as one class** (`gizmo_world.dfy`): one method per system. Each method runs the system's loops over the scene or the handle table, and is proved to compute that system's step function.
- **Properties of several frames in a row** (`lifecycle.dfy`).
- **The highlighter** (`highlighter.dfy`): a class with a material table and frame conditions.
- **`build_gizmo`** (`build.dfy`).
- **The two picking systems** (`picking.dfy`): a class.
- **The cone mesh** (`cone.dfy`): a method with its two loops, specified by `ConeMesh.ConeIndices`.

How the ECS is represented:

- An entity is a number. A component is a field of a record.
- A query is a sequence of records in query order.
- `Commands` take effect at once.
- The floating-point library functions are fields of a `Numerics` record and stay uninterpreted: `normalize`, `atan2`, `Quat::from_axis_angle`, and the per-vertex `cos`/`sin` and normals of the cone.
- The picking backend's ray–plane intersection is a function field of `PickingCamera`, and is also uninterpreted.

Behaviour of the code worth noting:

- A release does not remove the entities' `InitialTransform`s. Only a press away from the handles removes them (`src/lib.rs:448-451`, `453-469`).
- A release resets the `TransformGizmo` only when it sends the event (`src/lib.rs:456-468`).
- Losing the hover sets `Interaction` back to `None`, but leaves `current_interaction` as it was (`src/lib.rs:405-407`).
- A hit while already `Hovered` does not update `current_interaction`. Only a hit from `None` does (`src/lib.rs:394`).
- A press away from the handles resets the gizmo, but leaves the `Interaction` as it was (`src/lib.rs:448-451`).
- `place_gizmo` does not guard against an empty selection. It divides zero by zero (`src/lib.rs:497`).
- A press and a release reported in the same frame are treated as a press only (`src/lib.rs:429`, `453`).
- A press snapshots each selected entity's `GlobalTransform` (`src/lib.rs:439`), and a drag writes that snapshot, changed, into the entity's local `Transform` (`src/lib.rs:285-372`). For an entity with a parent the two frames differ, so the drag moves it relative to the wrong frame. The model keeps this: `Grab.SnapshotSelected` stores the global transform and `Drag.ApplyEffect` writes from it.

## Model

| member | source | states |
|---|---|---|
| GizmoTypes.PluginEnabled | src/lib.rs:25-31 | the gizmo systems run exactly when `GizmoSystemsEnabled` is true |
| Hover.HoverStep | src/lib.rs:388-408 | with a hit: the gizmo becomes Hovered only from None and only on one of its own children, and the current handle then becomes that child's tag; a hit never changes Hovered or Clicked; with no hit, Hovered falls back to None, Clicked and None stay, and the current handle is kept |
| Hover.HoverNeverClicks | src/lib.rs:389-407 | hovering never enters or leaves Clicked |
| Grab.SnapshotSelected | src/lib.rs:433-447 | exactly the selected entities get an `InitialTransform` holding their global transform and their `RotationOriginOffset`, or zero; nothing else changes |
| Grab.ClearSnapshots | src/lib.rs:448-451 | every `InitialTransform` is removed and nothing else changes |
| Grab.PressStep | src/lib.rs:429-452 | a press on a hovered handle gives Clicked, keeps the gizmo and snapshots the selection; any other press resets the gizmo to the all-None default and removes every snapshot, leaving the interaction as it was |
| Grab.ReleaseEvent | src/lib.rs:456-467 | an event exists iff both `initial_transform` and `current_interaction` are set, with from = the initial transform, to = the gizmo's global transform now, and the handle's tag |
| Grab.ReleaseStep | src/lib.rs:453-469 | a release always gives None; it appends exactly that one event when it exists and none otherwise; the gizmo is reset only when the event is sent; snapshots stay |
| Grab.GrabStep | src/lib.rs:428-470 | a press takes precedence over a release; with neither, nothing changes |
| Drag.ApplyEffect | src/lib.rs:280-373 | the written transform is derived from the snapshot only: translations add the drag vector to it, the `1` key also scales it by 1.5, the `2` key keeps its translation and scales it by 0.5, and only a rotation drag changes its rotation, to drag rotation × snapshot rotation |
| Drag.RotationKeepsPivotFixed | src/lib.rs:364-373 | a rotation drag leaves the entity's pivot (position + rotated offset) where the snapshot had it, under the composition law stated as its requires |
| Drag.DragPlane | src/lib.rs:252-345 | the drag plane passes through the drag origin; a plane handle drags in its own plane and a ring in the plane normal to its normalised axis; the arrow case is stated by `Drag.ArrowPlaneContainsAxis` |
| Drag.ArrowPlaneContainsAxis | src/lib.rs:252-260 | for an ideal `normalize`, an arrow's drag plane contains the arrow's axis and the vertical vector `ray × axis`, so its normal lies in the plane of the axis and the ray: the plane the camera sees the arrow in |
| Drag.Anchor | src/lib.rs:266-358 | on the first frame, an arrow anchors at the hit's projection onto the line of its normalised axis through the origin, a plane handle at the hit, and a ring at the normalised direction to the hit; what the anchor achieves is stated by `Drag.ArrowAnchorDoesNotJump` and `Drag.StillCursorKeepsSnapshot` |
| Drag.AxisTranslation | src/lib.rs:277-280 | the arrow's drag vector plus the anchor's offset is the cursor's projection onto the anchor direction; its promise that perpendicular motion does nothing is `Drag.PerpendicularMotionIgnored` |
| Drag.PerpendicularMotionIgnored | src/lib.rs:223-226 | moving the cursor perpendicular to the anchor direction leaves the arrow's drag vector unchanged |
| Drag.ArrowAnchorDoesNotJump | src/lib.rs:266-280 | for an ideal `normalize` and a non-zero axis, the drag vector at the very hit that anchored the drag is zero, so grabbing an arrow does not move the selection |
| Drag.RingRotation | src/lib.rs:352-363 | the ring's drag rotation is `from_axis_angle` about the ring's own axis |
| Drag.RingAnchorDoesNotJump | src/lib.rs:352-363 | with the cursor still in the anchor's direction the signed angle is zero, so the drag rotation is the identity (given `atan2(0, x) = 0` for x > 0 and a zero-angle rotation being the identity) |
| Drag.Effect | src/lib.rs:277-373 | after the anchor is set: a plane drag translates by hit − anchor; only a ring rotates, about its axis; an arrow scales up exactly when `1` is held, scales down exactly when `2` is held without `1`, and otherwise translates, by its drag vector |
| Drag.DragStep | src/lib.rs:211-379 | without a camera ray or outside Clicked nothing happens; the current handle is never changed; the origin, the initial transform and the anchor are each written only when unset; for a translate or rotate handle whose drag plane the ray hits, the first frame stores `Anchor` of the hit and writes nothing, and every later frame writes `Effect` of the hit and the stored anchor; a miss writes and anchors nothing; only such an armed frame produces a write |
| Drag.WriteSelected | src/lib.rs:246-373 | only selected entities that have a snapshot are written, only in their local transform, and each one becomes its snapshot with the effect applied |
| Drag.WriteSelectedForgetsEarlier | src/lib.rs:246-373 | a write after any earlier write gives the same scene as the later write alone, so drags do not compound |
| Drag.MissedRayWritesNothing | src/lib.rs:255-350 | when the ray misses the drag plane, no entity is written and no anchor is set |
| Drag.ScaleHandleIsInert | src/lib.rs:375-378 | a scale handle never writes and never anchors |
| Drag.RepeatedFrameIsStable | src/lib.rs:238-373 | after a writing frame, the same inputs leave the bookkeeping as it is and write the same effect again |
| Drag.ArmedDragDoesNotDrift | src/lib.rs:238-373 | once armed, any number of frames leave the bookkeeping unchanged, so a later frame writes the same as a frame right after arming |
| Drag.PlaneDragFollowsCursor | src/lib.rs:313-338 | a plane drag puts each dragged entity at snapshot + (hit − anchor), with the snapshot's rotation and scale |
| Drag.StillCursorKeepsSnapshot | src/lib.rs:320-338 | the anchor frame writes nothing, and a following frame with the same hit puts every dragged entity back on its snapshot |
| Drag.ScaleDownKeepsPlace | src/lib.rs:292-301 | an arrow drag with `2` held keeps the snapshot translation and rotation and halves the scale |
| Drag.ArrowDragMovesAlongAxis | src/lib.rs:250-311 | an armed arrow drag with neither key held moves each dragged entity to snapshot + the arrow's drag vector, keeping its rotation and scale |
| Drag.RingDragTurnsSelection | src/lib.rs:340-373 | an armed ring drag gives each dragged entity the ring's drag rotation composed before its snapshot rotation, and keeps its scale |
| Placement.Position | src/lib.rs:488-493 | an entity contributes its global position, displaced by its pivot offset turned into world space when it has one |
| Placement.PlacedPositions | src/lib.rs:484-494 | the positions of the selected `GizmoTransformable` entities; empty exactly when there are none, and each one is such an entity's position |
| Placement.PlacedPositionsCount | src/lib.rs:484-495 | there are exactly as many positions as selected transformable entities, so `n_selected` counts them |
| Placement.PlacedPositionsComplete | src/lib.rs:484-494 | every selected transformable entity contributes its position |
| Placement.PlacedSumCountsEachOnce | src/lib.rs:484-496 | the positions sum to one term per scene entity, its position if it is selected and transformable and zero otherwise, so every entity counts exactly once, duplicates included |
| Placement.Sum | src/lib.rs:496 | the fold from zero: zero for no points, the point itself for one |
| Placement.SumAppend | src/lib.rs:496 | the fold adds up piecewise: the sum of two runs of points is the sum of their sums |
| Placement.PlaceStep | src/lib.rs:484-509 | visible iff at least one selected transformable entity exists; rotation = the alignment rotation on both transforms; scale kept; translation × count = the sum of the positions |
| Placement.SumOfCopies | src/lib.rs:495-496 | the fold of n copies of a point is that point scaled by n |
| Placement.CoincidentSelectionPlacesThere | src/lib.rs:484-509 | when all placed entities share one position, the gizmo goes exactly there |
| Placement.ThreePointsExample | src/lib.rs:484-509 | points at x = 0, 2, 4 place a visible gizmo at x = 2 |
| Settings.Realign | src/lib.rs:537-563 | the handle keeps its variant and `original`, and its axis or normal becomes the alignment rotation applied to `original` |
| Settings.RealignIdempotent | src/lib.rs:537-563 | realigning twice is realigning once |
| Settings.RealignForgetsEarlierAlignment | src/lib.rs:537-563 | the result does not depend on any earlier alignment |
| Settings.IdentityAlignmentRestoresOriginal | src/lib.rs:537-563 | the identity alignment gives back `original` |
| Settings.RealignHandles | src/lib.rs:527-570 | unchanged settings change nothing; otherwise every non-view handle is realigned, the view sphere keeps its tag, and ring visibility becomes `allow_rotation` while other visibility is kept |
| Settings.RealignHandlesIdempotent | src/lib.rs:527-570 | a second run with the same settings changes nothing |
| Settings.IdentityKeepsUnalignedHandles | src/lib.rs:527-570 | handles that point along their originals are a fixed point of the identity alignment |
| Settings.QuarterTurnAlignsXArrow | src/lib.rs:539-542 | a quarter turn about +Y sends the x arrow's axis to −Z |
| GizmoWorld.TransformGizmoWorld.constructor | src/lib.rs:151-164 | the gizmo spawns idle, with the default `TransformGizmo`, invisible, and at f32::MIN on every axis |
| GizmoWorld.TransformGizmoWorld.UpdateGizmoSettings | src/lib.rs:527-571 | its two loops over the handles compute `RealignHandles` |
| GizmoWorld.TransformGizmoWorld.HoverGizmo | src/lib.rs:383-409 | its loop over the children computes `HoverStep`, and only `current_interaction` of the gizmo record changes |
| GizmoWorld.TransformGizmoWorld.GrabGizmo | src/lib.rs:416-470 | its loops over the scene compute `GrabStep` |
| GizmoWorld.TransformGizmoWorld.DragGizmo | src/lib.rs:201-381 | its early returns and write loop compute `DragStep` and `DragScene` |
| GizmoWorld.TransformGizmoWorld.PlaceGizmo | src/lib.rs:474-513 | its sum-and-count loop computes `PlaceStep` |
| Lifecycle.ClickDragReleaseSendsOneEvent | src/lib.rs:388-469 | hover from rest, press, one drag frame with a ray, then release: exactly one event from the gizmo's transform at the drag frame to its transform at release, for the hovered handle, and the gizmo is default again |
| Lifecycle.ClickWithoutDragIsSilent | src/lib.rs:453-469 | a release right after a press, with no drag frame between them (as when no frame has a pick ray), sends nothing; a click with a still cursor and a ray does send an event |
| Lifecycle.PressAwayIsSilent | src/lib.rs:448-469 | a press away from the handles followed by a release sends nothing and leaves the default gizmo |
| Lifecycle.HoverAloneNeverDrags | src/lib.rs:227-231 | from rest, a hover frame can never enable a drag write |
| Highlighter.GizmoHighlighter.constructor | src/mesh/mod.rs:448-486 | the highlighter starts with nothing highlighted, and given distinct parts and materials it is `Valid` |
| Highlighter.GizmoHighlighter.GetConnected | src/mesh/mod.rs:45-56 | an arrow's tail or cone gives that arrow's [tail, cone]; any other entity gives itself alone; the result always contains the input |
| Highlighter.GizmoHighlighter.GetMaterial | src/mesh/mod.rs:58-101 | the tail, cone, plane and ring of an axis get that axis's material, or its highlight material; every other entity gets v or v-highlight |
| Highlighter.GizmoHighlighter.IsHighlighted | src/mesh/mod.rs:126-131 | true exactly for the highlighted entity |
| Highlighter.GizmoHighlighter.Paint | src/mesh/mod.rs:106-110 | each listed entity that exists gets the plain or highlight material; every other entry is kept |
| Highlighter.GizmoHighlighter.Unhighlight | src/mesh/mod.rs:115-124 | with nothing highlighted, nothing changes; otherwise the connected set gets its plain materials back and nothing is highlighted |
| Highlighter.GizmoHighlighter.Highlight | src/mesh/mod.rs:103-113 | the previous highlight is undone first, then the connected set of e gets highlight materials and e is highlighted; no entity outside the two connected sets changes material |
| Highlighter.GizmoHighlighter.ConnectedIsClosed | src/mesh/mod.rs:45-56 | every member of a connected set has that same connected set |
| Highlighter.GizmoHighlighter.ConnectedShareMaterial | src/mesh/mod.rs:45-101 | the entities highlighted together share one material |
| Highlighter.GizmoHighlighter.HighlightIsVisible | src/mesh/mod.rs:58-101 | an entity's highlight material differs from its plain one |
| Highlighter.GizmoHighlighter.PaintTwiceRestoresPlain | src/mesh/mod.rs:103-124 | highlighting and then unhighlighting leaves the connected set in plain materials and changes nothing else |
| Build.ChildrenAreDistinct | src/mesh/mod.rs:488-506 | the parent gets 13 distinct children, none of them itself |
| Build.ChildrenAreTheHandles | src/mesh/mod.rs:488-502 | the children are exactly the spawned handles |
| Build.ChildList | src/mesh/mod.rs:488-502 | the child list has 13 entries, each of them a spawned handle |
| Build.Catalog | src/mesh/mod.rs:185-446 | no handle is spawned as a scale handle |
| Build.SpawnMaterials | src/mesh/mod.rs:168-171 | every handle is spawned with one of the four plain materials, never a highlight one |
| Build.CatalogStartsUnaligned | src/mesh/mod.rs:185-446 | every handle starts with axis or normal = original, except the view sphere (original zero, normal +Z); the rings are exactly the `RotateAxis` handles; all handles are visible |
| Build.DefaultSettingsKeepCatalog | src/mesh/mod.rs:185-446 | under the identity alignment with rotation allowed, the settings update leaves the built handles as they are |
| Build.SpawnedMaterialsArePlain | src/mesh/mod.rs:168-486 | every handle is spawned with the material that the highlighter restores when unhighlighting |
| Build.BuildGizmo | src/mesh/mod.rs:135-519 | it builds the catalog, the child list in source order (with its add-child loop), the spawn materials, and a fresh, `Valid` highlighter with nothing highlighted that names these entities and materials |
| Picking.WithCursor | src/picking.rs:50-56 | with no cursor events nothing changes; otherwise the first source's cast method becomes the screen-space position of the latest event, the other sources are untouched, and no hit changes |
| Picking.PickingGate | src/picking.rs:65-76 | None iff there is no gizmo; otherwise scene picking is enabled iff the last gizmo has no current handle and the last source has no hit, and with no source nothing counts as hovered |
| Picking.HoverBlocksScenePicking | src/picking.rs:65-76 | a gizmo hit disables scene picking |
| Picking.ActiveGizmoBlocksScenePicking | src/picking.rs:70-76 | an engaged handle disables scene picking |
| Picking.GizmoPicking.CursorMoved | src/picking.rs:46-57 | a `CursorMoved` event is queued after the unread ones |
| Picking.GizmoPicking.UpdateRaycastWithCursor | src/picking.rs:46-57 | its loop over the sources computes `WithCursor`, and drains the reader when there is a source |
| Picking.GizmoPicking.DisableMeshPickingDuringGizmoHover | src/picking.rs:60-77 | `enable_picking` becomes `PickingGate`'s value, and stays as it was when there is no gizmo |
| ConeMesh.AsU32 | src/mesh/cone.rs:72-78 | the `as u32` cast never increases the index and is exact below 2^32 |
| ConeMesh.Fan | src/mesh/cone.rs:65-79 | six indices per ring point p, none above p + 1 |
| ConeMesh.ConeIndices | src/mesh/cone.rs:60-79 | 6 × subdivisions indices, each < subdivisions + 3 |
| ConeMesh.FanAt | src/mesh/cone.rs:65-79 | the six indices of triangle pair t are the fan of ring point t + 2 |
| ConeMesh.OppositeWinding | src/mesh/cone.rs:65-79 | each ring point p emits (0, p+1, p) and then (1, p, p+1), so the side and base triangles wind oppositely |
| ConeMesh.DefaultConeSizes | src/mesh/cone.rs:13-21 | the default cone (radius 1, height 1, 32 subdivisions) has 192 indices, all below its 35 vertices, and its last fan reaches the last ring vertex, 34 |
| ConeMesh.ConeToMesh | src/mesh/cone.rs:28-79 | subdivisions + 3 positions, normals and uvs: the tip [0, h, 0] with normal +Y and uv [0, 1], the bottom centre at the origin with normal −Y and uv [0, −1], then ring vertices with y = 0, uv v = 0 and u = side / subdivisions; the index buffer is `ConeIndices` |

## Left out

- Floating point: `f32` arithmetic is modelled as exact real arithmetic. NaN and rounding are not modelled.
- Numerics: `normalize`, `atan2`, `Quat::from_axis_angle`, the ray–plane intersection and the cone's `cos`/`sin` and normals are uninterpreted. Only how their results are used is modelled.
- Drag.ArrowPlaneContainsAxis: holds for an ideal `normalize` (`Drag.IdealNormalize`: a rescaling, to unit length for a non-zero vector), which the model takes as a hypothesis. It maps the zero vector to zero, where glam gives NaN.
- Drag.ArrowAnchorDoesNotJump: also takes the ideal `normalize` as a hypothesis. It excludes a hit level with the origin across the axis, where the anchor direction is zero and the source computes NaN.
- Drag.RingAnchorDoesNotJump: takes `atan2(0, x) = 0` for positive x and a zero-angle `from_axis_angle` being the identity as hypotheses, since both functions are uninterpreted.
- Drag.RotationKeepsPivotFixed: takes as a hypothesis that rotating by the product quaternion equals rotating by its factors in turn. This law, which follows from the associativity of the Hamilton product, is not proved here.
- Placement.PlaceStep: with nothing selected, the source writes 0/0 (NaN) into the gizmo translation. The model keeps the old translation in that case, and the gizmo is hidden either way.
- ConeMesh.ConeToMesh: with zero subdivisions the source's uv `u` is 0/0 (NaN). The model uses 0.
- `GlobalTransform` is kept decomposed as a `Transform`, so `compute_transform` and `into` are the identity.
- Transform propagation is not modelled: the scene entities' global transforms are inputs. This leaves out `propagate_gizmo_elements`, `adjust_view_translate_gizmo` (which re-aims the view sphere's normal every frame) and `gizmo_cam_copy_settings`, which are matrix and camera plumbing.
- `src/normalization.rs`, `src/gizmo_material.rs` and `src/render_graph.rs`: screen-size scaling, GPU materials and render-graph wiring. These are not part of this model.
- The plugin's `build`, its system labels and ordering, and the run criterion: only the criterion's value (`PluginEnabled`) is modelled.
- Query cardinality errors:
  - The error-logging early returns for a missing gizmo or camera are modelled as an absent `PickingCamera` only.
  - The panic in `hover_gizmo` when there is not exactly one pick source is not modelled; its topmost hit is an input.
- Deferred `Commands`: inserts and removals take effect at once. None of the modelled systems reads back what it queued.
- `build_gizmo`:
  - Handle ids are consecutive, standing in for Bevy's entity allocator, which also gives distinct ids.
  - The meshes, handle placements, colours, `HIGHLIGHT_AMOUNT`, render layers and the gizmo camera spawn are not modelled.
- The cone's `Vec::with_capacity` hints and `usize` overflow of `subdivisions + 2` are not modelled.
- Keyboard input is reduced to whether keys `1` and `2` are held. Cursor events are reduced to their positions. Ray-cast methods other than screen-space are collapsed into one.
