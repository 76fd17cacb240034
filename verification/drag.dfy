/** `drag_gizmo`: how a dragged handle turns the pick ray into a new transform for the selection. */
module Drag {
  import opened Wrappers
  import opened Vectors
  import opened GizmoTypes

  /** A pick ray in world space. */
  datatype Ray = Ray(origin: Vec3, direction: Vec3)

  /** An infinite plane through `point` with normal `normal`. */
  datatype Plane = Plane(normal: Vec3, point: Vec3)

  /**
   * The picking camera: its current ray, if the cursor is over the window, and its ray–plane
   * intersection, which the picking backend computes.
   */
  datatype PickingCamera = PickingCamera(ray: Option<Ray>, intersectPlane: Plane -> Option<Vec3>)

  /** The floating-point library functions the drag uses, left uninterpreted. */
  datatype Numerics = Numerics(
    normalize: Vec3 -> Vec3,
    atan2: (real, real) -> real,
    fromAxisAngle: (Vec3, real) -> Quat)

  /** Whether the `1` and `2` keys are held. */
  datatype Keys = Keys(key1: bool, key2: bool)

  /** What a drag frame does to each dragged entity, relative to its snapshot. */
  datatype DragEffect =
    | Translate(delta: Vec3)
    | ScaleUp(delta: Vec3)
    | ScaleDown
    | Rotation(rotation: Quat)

  /** The transform a dragged entity gets from its snapshot `i`. */
  function ApplyEffect(eff: DragEffect, i: InitialTransform): (t: Transform)
    // only a rotation drag turns the entity, composing the drag rotation before the snapshot's
    ensures t.rotation == (if eff.Rotation? then Mul(eff.rotation, i.transform.rotation) else i.transform.rotation)
    // only the `1` and `2` keys rescale, by 1.5 and 0.5
    ensures t.scale == (if eff.ScaleUp? then Scale(i.transform.scale, 1.5)
                        else if eff.ScaleDown? then Scale(i.transform.scale, 0.5)
                        else i.transform.scale)
    // translations add the drag vector to the snapshot, scaling down stays in place
    ensures eff.Translate? || eff.ScaleUp? ==> t.translation == Add(i.transform.translation, eff.delta)
    ensures eff.ScaleDown? ==> t.translation == i.transform.translation
  {
    var s := i.transform;
    match eff
    case Translate(d) => Transform(Add(s.translation, d), s.rotation, s.scale)
    case ScaleUp(d) => Transform(Add(s.translation, d), s.rotation, Scale(s.scale, 1.5))
    case ScaleDown => Transform(s.translation, s.rotation, Scale(s.scale, 0.5))
    case Rotation(q) =>
      var worldOffset := Rotate(s.rotation, i.rotationOffset);
      var offsetRotated := Rotate(q, worldOffset);
      Transform(Add(s.translation, Sub(worldOffset, offsetRotated)), Mul(q, s.rotation), s.scale)
  }

  /** The world-space point an entity turns about: its position plus its rotated pivot offset. */
  function Pivot(t: Transform, offset: Vec3): Vec3 {
    Add(t.translation, Rotate(t.rotation, offset))
  }

  /**
   * A rotation drag keeps each entity's pivot where it was, given that rotating by the
   * composed quaternion is rotating by its factors in turn.
   */
  lemma RotationKeepsPivotFixed(q: Quat, i: InitialTransform)
    requires Rotate(Mul(q, i.transform.rotation), i.rotationOffset)
          == Rotate(q, Rotate(i.transform.rotation, i.rotationOffset))
    ensures Pivot(ApplyEffect(Rotation(q), i), i.rotationOffset) == Pivot(i.transform, i.rotationOffset)
  {
  }

  /** The plane the pick ray is intersected with while dragging a translate or rotate handle. */
  function DragPlane(ia: TransformGizmoInteraction, ray: Ray, origin: Vec3, num: Numerics): (p: Plane)
    requires !ia.ScaleAxis?
    ensures p.point == origin
    // a plane handle drags in its own plane, a ring in the plane normal to its axis
    ensures ia.TranslatePlane? ==> p.normal == ia.normal
    ensures ia.RotateAxis? ==> p.normal == num.normalize(ia.axis)
    // an arrow drags in the plane that contains its axis and faces the ray
    ensures ia.TranslateAxis? ==>
      p.normal == num.normalize(Cross(ia.axis, num.normalize(Cross(ray.direction, ia.axis))))
  {
    match ia
    case TranslateAxis(_, axis) =>
      var vertical := num.normalize(Cross(ray.direction, axis));
      Plane(num.normalize(Cross(axis, vertical)), origin)
    case TranslatePlane(_, normal) => Plane(normal, origin)
    case RotateAxis(_, axis) => Plane(num.normalize(axis), origin)
  }

  /** The drag anchor stored on the first frame of a drag, from the cursor's hit point. */
  function Anchor(ia: TransformGizmoInteraction, hit: Vec3, origin: Vec3, num: Numerics): (a: Vec3)
    requires !ia.ScaleAxis?
    // an arrow anchors at the hit point projected onto its (normalised) axis through the origin
    ensures ia.TranslateAxis? ==>
      Sub(a, origin) == Scale(num.normalize(ia.axis), Dot(Sub(hit, origin), num.normalize(ia.axis)))
    // a plane handle anchors at the hit point itself
    ensures ia.TranslatePlane? ==> a == hit
    // a ring anchors at the direction from the origin to the hit point
    ensures ia.RotateAxis? ==> a == num.normalize(Sub(hit, origin))
  {
    match ia
    case TranslateAxis(_, axis) =>
      var h := num.normalize(axis);
      Add(Scale(h, Dot(Sub(hit, origin), h)), origin)
    case TranslatePlane(_, _) => hit
    case RotateAxis(_, _) => num.normalize(Sub(hit, origin))
  }

  /** The arrow's drag vector: the cursor projected onto the anchor direction, less the anchor. */
  function AxisTranslation(hit: Vec3, origin: Vec3, anchor: Vec3, num: Numerics): (d: Vec3)
    ensures Add(d, Sub(anchor, origin))
         == Scale(num.normalize(Sub(anchor, origin)), Dot(Sub(hit, origin), num.normalize(Sub(anchor, origin))))
  {
    var handle := Sub(anchor, origin);
    var n := num.normalize(handle);
    Sub(Scale(n, Dot(Sub(hit, origin), n)), handle)
  }

  /** The ring's drag rotation: about its axis, by the signed angle from the anchor to the cursor. */
  function RingRotation(axis: Vec3, hit: Vec3, origin: Vec3, anchor: Vec3, num: Numerics): (q: Quat)
    // the drag turns about the ring's own axis
    ensures exists angle :: q == num.fromAxisAngle(axis, angle)
  {
    var c := num.normalize(Sub(hit, origin));
    var angle := num.atan2(Dot(axis, Cross(anchor, c)), Dot(anchor, c));
    num.fromAxisAngle(axis, angle)
  }

  /**
   * A ring does not jump when its drag is armed: with the cursor still in the anchor's
   * direction the signed angle is zero, so the drag rotation is the identity (given that
   * `atan2` of zero over a positive value is zero and a zero-angle rotation is the identity).
   */
  lemma RingAnchorDoesNotJump(ia: TransformGizmoInteraction, hit: Vec3, origin: Vec3, num: Numerics)
    requires ia.RotateAxis?
    requires var a := Anchor(ia, hit, origin, num); Dot(a, a) > 0.0 && num.atan2(0.0, Dot(a, a)) == 0.0
    requires num.fromAxisAngle(ia.axis, 0.0) == Identity
    ensures RingRotation(ia.axis, hit, origin, Anchor(ia, hit, origin, num), num) == Identity
  {
    var a := Anchor(ia, hit, origin, num);
    CrossIsPerpendicular(a, a);
    assert Cross(a, a) == Zero;
  }

  /**
   * `normalize` as it behaves on exact reals: it rescales its argument, to a unit vector when
   * the argument is not zero (glam's NaN for the zero vector has no counterpart here).
   */
  ghost predicate IdealNormalize(num: Numerics) {
    forall v: Vec3 :: exists k: real ::
      num.normalize(v) == Scale(v, k) && (v != Zero ==> Dot(Scale(v, k), Scale(v, k)) == 1.0)
  }

  /** The factor an ideal `normalize` rescales `v` by. */
  lemma NormalizeFactor(num: Numerics, v: Vec3) returns (k: real)
    requires IdealNormalize(num)
    ensures num.normalize(v) == Scale(v, k)
    ensures v != Zero ==> Dot(num.normalize(v), num.normalize(v)) == 1.0
  {
    k :| num.normalize(v) == Scale(v, k) && (v != Zero ==> Dot(Scale(v, k), Scale(v, k)) == 1.0);
  }

  /**
   * An arrow is dragged in a plane that contains the arrow's axis and the ray's direction
   * across it (the vertical vector `ray × axis`): the plane the camera sees the arrow in.
   */
  lemma ArrowPlaneContainsAxis(ia: TransformGizmoInteraction, ray: Ray, origin: Vec3, num: Numerics)
    requires ia.TranslateAxis? && IdealNormalize(num)
    ensures var p := DragPlane(ia, ray, origin, num);
      Dot(p.normal, ia.axis) == 0.0 && Dot(p.normal, num.normalize(Cross(ray.direction, ia.axis))) == 0.0
  {
    var vertical := num.normalize(Cross(ray.direction, ia.axis));
    var w := Cross(ia.axis, vertical);
    var k := NormalizeFactor(num, w);
    CrossIsPerpendicular(ia.axis, vertical);
    DotScale(w, ia.axis, k);
    DotScale(w, vertical, k);
  }

  /**
   * Motion of the cursor perpendicular to the dragged arrow has no effect on the arrow's
   * drag vector: only the component along the anchor direction counts.
   */
  lemma PerpendicularMotionIgnored(hit: Vec3, p: Vec3, origin: Vec3, anchor: Vec3, num: Numerics)
    requires Dot(p, num.normalize(Sub(anchor, origin))) == 0.0
    ensures AxisTranslation(Add(hit, p), origin, anchor, num) == AxisTranslation(hit, origin, anchor, num)
  {
    var n := num.normalize(Sub(anchor, origin));
    assert Dot(Sub(Add(hit, p), origin), n) == Dot(Sub(hit, origin), n) + Dot(p, n);
  }

  /**
   * An arrow does not jump when its drag is armed: with the cursor still where it anchored the
   * drag, the drag vector is zero. The hit must not be level with the origin across the axis,
   * where the anchor direction is the zero vector and glam's result is NaN.
   */
  lemma {:induction false} ArrowAnchorDoesNotJump(ia: TransformGizmoInteraction, hit: Vec3, origin: Vec3, num: Numerics)
    requires ia.TranslateAxis? && ia.axis != Zero && IdealNormalize(num)
    requires Dot(Sub(hit, origin), num.normalize(ia.axis)) != 0.0
    ensures AxisTranslation(hit, origin, Anchor(ia, hit, origin, num), num) == Zero
  {
    var h := num.normalize(ia.axis);
    var _ := NormalizeFactor(num, ia.axis);
    var s := Dot(Sub(hit, origin), h);
    var handle := Sub(Anchor(ia, hit, origin, num), origin);
    assert handle == Scale(h, s);
    UnitScaledLength(h, s);
    var k := NormalizeFactor(num, handle);
    ScaleScale(h, s, k);
    UnitScaledLength(h, s * k);
    ProjectionOntoFlippedUnit(Sub(hit, origin), h, s * k);
  }

  /** The effect of a drag frame after the anchor is set. */
  function Effect(ia: TransformGizmoInteraction, hit: Vec3, origin: Vec3, anchor: Vec3,
                  keys: Keys, num: Numerics): (eff: DragEffect)
    requires !ia.ScaleAxis?
    // a plane handle follows the cursor's displacement since the anchor
    ensures ia.TranslatePlane? ==> eff == Translate(Sub(hit, anchor))
    // only a ring rotates, and only an arrow rescales: the `1` key wins over the `2` key
    ensures eff.Rotation? <==> ia.RotateAxis?
    ensures eff.ScaleUp? <==> ia.TranslateAxis? && keys.key1
    ensures eff.ScaleDown? <==> ia.TranslateAxis? && !keys.key1 && keys.key2
    // an arrow moves by its drag vector along the anchor direction, also when scaling up
    ensures ia.TranslateAxis? && (eff.Translate? || eff.ScaleUp?) ==>
      eff.delta == AxisTranslation(hit, origin, anchor, num)
    ensures ia.RotateAxis? ==> eff.rotation == RingRotation(ia.axis, hit, origin, anchor, num)
  {
    match ia
    case TranslateAxis(_, _) =>
      var d := AxisTranslation(hit, origin, anchor, num);
      if keys.key1 then ScaleUp(d) else if keys.key2 then ScaleDown else Translate(d)
    case TranslatePlane(_, _) => Translate(Sub(hit, anchor))
    case RotateAxis(_, axis) => Rotation(RingRotation(axis, hit, origin, anchor, num))
  }

  /** What one frame of `drag_gizmo` leaves in the gizmo, and what it writes to the selection. */
  datatype DragOutcome = DragOutcome(gizmo: TransformGizmo, effect: Option<DragEffect>)

  /** Whether a frame reaches the handle dispatch: a ray exists and the gizmo is clicked. */
  predicate Dragging(interaction: Interaction, camera: Option<PickingCamera>) {
    camera.Some? && camera.value.ray.Some? && interaction == Clicked
  }

  /**
   * One frame of `drag_gizmo` on the gizmo's bookkeeping; `global` is the gizmo's global
   * transform and `camera` the last picking camera, if any.
   */
  function DragStep(g: TransformGizmo, interaction: Interaction, global: Transform,
                    camera: Option<PickingCamera>, keys: Keys, num: Numerics): (r: DragOutcome)
    // without a ray, or while the gizmo is not clicked, nothing happens
    ensures !Dragging(interaction, camera) ==> r == DragOutcome(g, None)
    // the handle being dragged is never changed here
    ensures r.gizmo.currentInteraction == g.currentInteraction
    // each drag bookmark is written at most once
    ensures g.originDragStart.Some? ==> r.gizmo.originDragStart == g.originDragStart
    ensures g.initialTransform.Some? ==> r.gizmo.initialTransform == g.initialTransform
    ensures g.dragStart.Some? ==> r.gizmo.dragStart == g.dragStart
    // while dragging, the origin is the gizmo's position when the drag started
    ensures Dragging(interaction, camera) ==>
      r.gizmo.originDragStart == Some(g.originDragStart.GetOr(global.translation))
    ensures Dragging(interaction, camera) && g.currentInteraction.Some? ==>
      r.gizmo.initialTransform == Some(g.initialTransform.GetOr(global))
    ensures !Dragging(interaction, camera) || g.currentInteraction.None? ==>
      r.gizmo.initialTransform == g.initialTransform
    ensures g.dragStart.None? && r.gizmo.dragStart.Some? ==>
      g.currentInteraction.Some? && !g.currentInteraction.value.ScaleAxis?
    // with a hit on the drag plane, the first frame stores the anchor and every later frame
    // writes the handle's effect; without one, nothing is written or anchored
    ensures Dragging(interaction, camera) && g.currentInteraction.Some? && !g.currentInteraction.value.ScaleAxis? ==>
      var ia, origin := g.currentInteraction.value, g.originDragStart.GetOr(global.translation);
      var hit := camera.value.intersectPlane(DragPlane(ia, camera.value.ray.value, origin, num));
      (hit.None? ==> r.effect.None? && r.gizmo.dragStart == g.dragStart) &&
      (hit.Some? && g.dragStart.None? ==> r.effect.None? && r.gizmo.dragStart == Some(Anchor(ia, hit.value, origin, num))) &&
      (hit.Some? && g.dragStart.Some? ==> r.effect == Some(Effect(ia, hit.value, origin, g.dragStart.value, keys, num)))
    // the first frame of a drag only sets the anchor; the selection is written only after it
    ensures r.effect.Some? ==>
      Dragging(interaction, camera) && g.dragStart.Some? &&
      g.currentInteraction.Some? && !g.currentInteraction.value.ScaleAxis?
  {
    if !Dragging(interaction, camera) then DragOutcome(g, None)
    else
      var cam := camera.value;
      var origin := g.originDragStart.GetOr(global.translation);
      var g1 := g.(originDragStart := Some(origin));
      match g.currentInteraction
      case None => DragOutcome(g1, None)
      case Some(ia) =>
        var g2 := g1.(initialTransform := Some(g.initialTransform.GetOr(global)));
        if ia.ScaleAxis? then DragOutcome(g2, None)
        else
          match cam.intersectPlane(DragPlane(ia, cam.ray.value, origin, num))
          case None => DragOutcome(g2, None)
          case Some(hit) =>
            match g.dragStart
            case None => DragOutcome(g2.(dragStart := Some(Anchor(ia, hit, origin, num))), None)
            case Some(anchor) => DragOutcome(g2, Some(Effect(ia, hit, origin, anchor, keys, num)))
  }

  /** An entity `drag_gizmo` writes: selected, with a snapshot. */
  predicate Dragged(e: SceneEntity) {
    Selected(e) && e.initial.Some?
  }

  function WriteEntity(e: SceneEntity, eff: DragEffect): SceneEntity {
    if Dragged(e) then e.(transform := ApplyEffect(eff, e.initial.value)) else e
  }

  /** The selection write of a drag frame. */
  function WriteSelected(scene: seq<SceneEntity>, eff: DragEffect): (r: seq<SceneEntity>)
    ensures |r| == |scene|
    // only local transforms change, and only those of dragged entities
    ensures forall k :: 0 <= k < |r| ==> r[k] == scene[k].(transform := r[k].transform)
    ensures forall k :: 0 <= k < |r| && !Dragged(scene[k]) ==> r[k] == scene[k]
    // a dragged entity is placed relative to its snapshot, never to its current transform
    ensures forall k :: 0 <= k < |r| && Dragged(scene[k]) ==>
      r[k].transform == ApplyEffect(eff, scene[k].initial.value)
  {
    seq(|scene|, k requires 0 <= k < |scene| => WriteEntity(scene[k], eff))
  }

  /** The scene after a drag frame. */
  function DragScene(scene: seq<SceneEntity>, r: DragOutcome): seq<SceneEntity> {
    if r.effect.Some? then WriteSelected(scene, r.effect.value) else scene
  }

  /**
   * Drags do not compound: a write replaces whatever an earlier frame wrote, so the scene
   * after two frames is the scene after the later one alone.
   */
  lemma {:induction false} WriteSelectedForgetsEarlier(scene: seq<SceneEntity>, e1: DragEffect, e2: DragEffect)
    ensures WriteSelected(WriteSelected(scene, e1), e2) == WriteSelected(scene, e2)
  {
    var once := WriteSelected(scene, e1);
    var twice := WriteSelected(once, e2);
    forall k | 0 <= k < |scene|
      ensures twice[k] == WriteSelected(scene, e2)[k]
    {
      assert Dragged(once[k]) == Dragged(scene[k]);
    }
  }

  /** A frame whose ray misses the drag plane writes nothing and sets no anchor. */
  lemma MissedRayWritesNothing(g: TransformGizmo, interaction: Interaction, global: Transform,
                               cam: PickingCamera, keys: Keys, num: Numerics)
    requires Dragging(interaction, Some(cam)) && g.currentInteraction.Some?
    requires !g.currentInteraction.value.ScaleAxis?
    requires cam.intersectPlane(DragPlane(g.currentInteraction.value, cam.ray.value,
                                          g.originDragStart.GetOr(global.translation), num)).None?
    ensures DragStep(g, interaction, global, Some(cam), keys, num).effect.None?
    ensures DragStep(g, interaction, global, Some(cam), keys, num).gizmo.dragStart == g.dragStart
  {
  }

  /** Dragging a scale handle never moves anything. */
  lemma ScaleHandleIsInert(g: TransformGizmo, interaction: Interaction, global: Transform,
                           camera: Option<PickingCamera>, keys: Keys, num: Numerics)
    requires g.currentInteraction.Some? && g.currentInteraction.value.ScaleAxis?
    ensures DragStep(g, interaction, global, camera, keys, num).effect.None?
    ensures DragStep(g, interaction, global, camera, keys, num).gizmo.dragStart == g.dragStart
  {
  }

  /**
   * A later frame of a drag with unchanged inputs changes nothing more: the bookkeeping is a
   * fixed point and the same effect is written again.
   */
  lemma RepeatedFrameIsStable(g: TransformGizmo, interaction: Interaction, global: Transform,
                              camera: Option<PickingCamera>, keys: Keys, num: Numerics)
    requires DragStep(g, interaction, global, camera, keys, num).effect.Some?
    ensures DragStep(DragStep(g, interaction, global, camera, keys, num).gizmo,
                     interaction, global, camera, keys, num)
         == DragStep(g, interaction, global, camera, keys, num)
  {
  }

  /** What one frame of `drag_gizmo` reads besides the gizmo's bookkeeping. */
  datatype FrameInput = FrameInput(interaction: Interaction, global: Transform,
                                   camera: Option<PickingCamera>, keys: Keys)

  /** The gizmo's bookkeeping after running `drag_gizmo` on each frame in turn. */
  function RunFrames(g: TransformGizmo, frames: seq<FrameInput>, num: Numerics): TransformGizmo
    decreases |frames|
  {
    if frames == [] then g
    else
      var f := frames[|frames| - 1];
      DragStep(RunFrames(g, frames[..|frames| - 1], num), f.interaction, f.global, f.camera, f.keys, num).gizmo
  }

  /** A gizmo whose drag is armed: origin, snapshot and anchor are all set. */
  predicate Armed(g: TransformGizmo) {
    g.originDragStart.Some? && g.initialTransform.Some? && g.dragStart.Some?
  }

  /**
   * No drift: once a drag is armed, no number of frames changes the bookkeeping, so every
   * later frame writes what it would write right after arming, from the snapshot.
   */
  lemma {:induction false} ArmedDragDoesNotDrift(g: TransformGizmo, frames: seq<FrameInput>, num: Numerics,
                                                 f: FrameInput, scene: seq<SceneEntity>)
    requires Armed(g)
    ensures RunFrames(g, frames, num) == g
    ensures DragScene(scene, DragStep(RunFrames(g, frames, num), f.interaction, f.global, f.camera, f.keys, num))
         == DragScene(scene, DragStep(g, f.interaction, f.global, f.camera, f.keys, num))
    decreases |frames|
  {
    if frames != [] {
      ArmedDragDoesNotDrift(g, frames[..|frames| - 1], num, f, scene);
    }
  }

  /**
   * Dragging a plane handle moves every dragged entity by exactly the cursor's displacement
   * in the plane since the anchor, keeping its rotation and scale.
   */
  lemma PlaneDragFollowsCursor(g: TransformGizmo, global: Transform, cam: PickingCamera,
                               keys: Keys, num: Numerics, hit: Vec3, scene: seq<SceneEntity>, k: nat)
    requires cam.ray.Some? && g.currentInteraction.Some? && g.currentInteraction.value.TranslatePlane?
    requires g.dragStart.Some?
    requires cam.intersectPlane(Plane(g.currentInteraction.value.normal,
                                      g.originDragStart.GetOr(global.translation))) == Some(hit)
    requires k < |scene| && Dragged(scene[k])
    ensures var i := scene[k].initial.value.transform;
      DragScene(scene, DragStep(g, Clicked, global, Some(cam), keys, num))[k].transform
        == Transform(Add(i.translation, Sub(hit, g.dragStart.value)), i.rotation, i.scale)
  {
  }

  /**
   * The frame right after a plane handle's anchor frame, with the cursor not moved, puts every
   * dragged entity back exactly on its snapshot: clicking a handle does not make it jump.
   */
  lemma {:induction false} StillCursorKeepsSnapshot(g: TransformGizmo, global: Transform, cam: PickingCamera,
                                                    keys: Keys, num: Numerics, hit: Vec3,
                                                    scene: seq<SceneEntity>, k: nat)
    requires cam.ray.Some? && g.currentInteraction.Some? && g.currentInteraction.value.TranslatePlane?
    requires g.dragStart.None?
    requires cam.intersectPlane(Plane(g.currentInteraction.value.normal,
                                      g.originDragStart.GetOr(global.translation))) == Some(hit)
    requires k < |scene| && Dragged(scene[k])
    ensures var first := DragStep(g, Clicked, global, Some(cam), keys, num);
      first.effect.None? &&
      DragScene(scene, DragStep(first.gizmo, Clicked, global, Some(cam), keys, num))[k].transform
        == scene[k].initial.value.transform
  {
    var first := DragStep(g, Clicked, global, Some(cam), keys, num);
    assert first.gizmo.dragStart == Some(hit);
    assert first.gizmo.originDragStart == Some(g.originDragStart.GetOr(global.translation));
    PlaneDragFollowsCursor(first.gizmo, global, cam, keys, num, hit, scene, k);
    var i := scene[k].initial.value.transform;
    assert Add(i.translation, Sub(hit, hit)) == i.translation;
  }

  /**
   * Dragging an armed arrow with neither key held moves every dragged entity from its snapshot
   * by the arrow's drag vector for the cursor's hit, keeping its rotation and scale.
   */
  lemma ArrowDragMovesAlongAxis(g: TransformGizmo, global: Transform, cam: PickingCamera,
                                num: Numerics, hit: Vec3, scene: seq<SceneEntity>, k: nat)
    requires cam.ray.Some? && g.currentInteraction.Some? && g.currentInteraction.value.TranslateAxis?
    requires g.dragStart.Some?
    requires cam.intersectPlane(DragPlane(g.currentInteraction.value, cam.ray.value,
                                          g.originDragStart.GetOr(global.translation), num)) == Some(hit)
    requires k < |scene| && Dragged(scene[k])
    ensures var i := scene[k].initial.value.transform;
      var d := AxisTranslation(hit, g.originDragStart.GetOr(global.translation), g.dragStart.value, num);
      DragScene(scene, DragStep(g, Clicked, global, Some(cam), Keys(false, false), num))[k].transform
        == Transform(Add(i.translation, d), i.rotation, i.scale)
  {
  }

  /**
   * Dragging an armed ring turns every dragged entity by the ring's drag rotation composed
   * before its snapshot rotation, keeping its scale.
   */
  lemma RingDragTurnsSelection(g: TransformGizmo, global: Transform, cam: PickingCamera, keys: Keys,
                               num: Numerics, hit: Vec3, scene: seq<SceneEntity>, k: nat)
    requires cam.ray.Some? && g.currentInteraction.Some? && g.currentInteraction.value.RotateAxis?
    requires g.dragStart.Some?
    requires cam.intersectPlane(DragPlane(g.currentInteraction.value, cam.ray.value,
                                          g.originDragStart.GetOr(global.translation), num)) == Some(hit)
    requires k < |scene| && Dragged(scene[k])
    ensures var i := scene[k].initial.value.transform;
      var q := RingRotation(g.currentInteraction.value.axis, hit, g.originDragStart.GetOr(global.translation),
                            g.dragStart.value, num);
      var t := DragScene(scene, DragStep(g, Clicked, global, Some(cam), keys, num))[k].transform;
      t.rotation == Mul(q, i.rotation) && t.scale == i.scale
  {
  }

  /**
   * Dragging an arrow with the `2` key held halves every dragged entity's scale and leaves it
   * in place, wherever the cursor is.
   */
  lemma ScaleDownKeepsPlace(g: TransformGizmo, global: Transform, cam: PickingCamera,
                            keys: Keys, num: Numerics, scene: seq<SceneEntity>, k: nat)
    requires g.currentInteraction.Some? && g.currentInteraction.value.TranslateAxis?
    requires keys == Keys(false, true)
    requires DragStep(g, Clicked, global, Some(cam), keys, num).effect.Some?
    requires k < |scene| && Dragged(scene[k])
    ensures var i := scene[k].initial.value.transform;
      DragScene(scene, DragStep(g, Clicked, global, Some(cam), keys, num))[k].transform
        == Transform(i.translation, i.rotation, Scale(i.scale, 0.5))
  {
  }
}
