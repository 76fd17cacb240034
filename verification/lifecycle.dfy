/** The interaction cycle across frames: hover, press, drag, release. */
module Lifecycle {
  import opened Wrappers
  import opened Vectors
  import opened GizmoTypes
  import opened Hover
  import opened Grab
  import opened Drag

  /** One drag frame applied to the grab state. */
  function DragFrame(s: GrabState, global: Transform, camera: Option<PickingCamera>, keys: Keys,
                     num: Numerics): (r: GrabState)
    ensures r.interaction == s.interaction && r.events == s.events
    ensures r.gizmo == DragStep(s.gizmo, s.interaction, global, camera, keys, num).gizmo
  {
    var out := DragStep(s.gizmo, s.interaction, global, camera, keys, num);
    s.(gizmo := out.gizmo, scene := DragScene(s.scene, out))
  }

  /**
   * Hovering a handle from rest, pressing, dragging one frame with a ray and releasing sends
   * exactly one event, from the gizmo's transform at the first drag frame to its transform
   * at release, for the hovered handle; the gizmo is back at its default afterwards.
   */
  lemma {:induction false} ClickDragReleaseSendsOneEvent(
    s: GrabState, top: Entity, children: seq<Entity>, handles: map<Entity, GizmoHandle>,
    dragGlobal: Transform, releaseGlobal: Transform, cam: PickingCamera, keys: Keys, num: Numerics)
    requires s.interaction == Idle && s.gizmo == DefaultGizmo
    requires top in children && top in handles
    requires cam.ray.Some?
    ensures
      var h := HoverStep(HoverState(s.interaction, s.gizmo.currentInteraction), Some(top), children, handles);
      var hovered := s.(interaction := h.interaction, gizmo := s.gizmo.(currentInteraction := h.current));
      var pressed := PressStep(hovered);
      var dragged := DragFrame(pressed, dragGlobal, Some(cam), keys, num);
      var released := ReleaseStep(dragged, releaseGlobal);
      released.interaction == Idle && released.gizmo == DefaultGizmo &&
      released.events == s.events + [TransformGizmoEvent(dragGlobal, releaseGlobal, handles[top].interaction)]
  {
    var h := HoverStep(HoverState(s.interaction, s.gizmo.currentInteraction), Some(top), children, handles);
    assert h == HoverState(Hovered, Some(handles[top].interaction));
    var hovered := s.(interaction := h.interaction, gizmo := s.gizmo.(currentInteraction := h.current));
    var pressed := PressStep(hovered);
    assert pressed.interaction == Clicked && pressed.gizmo == hovered.gizmo;
    var dragged := DragFrame(pressed, dragGlobal, Some(cam), keys, num);
    assert dragged.gizmo.initialTransform == Some(dragGlobal);
    assert dragged.gizmo.currentInteraction == Some(handles[top].interaction);
    var released := ReleaseStep(dragged, releaseGlobal);
    assert ReleaseEvent(dragged.gizmo, releaseGlobal)
        == Some(TransformGizmoEvent(dragGlobal, releaseGlobal, handles[top].interaction));
    assert released.events == dragged.events + [TransformGizmoEvent(dragGlobal, releaseGlobal, handles[top].interaction)];
  }

  /**
   * A press and release with no drag frame between them sends nothing. This is the case of a
   * click whose frames all lack a pick ray: a click with the cursor held still still runs
   * `drag_gizmo` with a ray, which arms the gizmo, and that release does send an event.
   */
  lemma ClickWithoutDragIsSilent(s: GrabState, global: Transform)
    requires s.interaction == Hovered && s.gizmo.initialTransform.None?
    ensures ReleaseStep(PressStep(s), global).events == s.events
    ensures ReleaseStep(PressStep(s), global).interaction == Idle
  {
  }

  /** A press away from the handles, then a release, sends nothing and leaves the default gizmo. */
  lemma PressAwayIsSilent(s: GrabState, global: Transform)
    requires s.interaction != Hovered
    ensures ReleaseStep(PressStep(s), global).events == s.events
    ensures ReleaseStep(PressStep(s), global).gizmo == DefaultGizmo
  {
  }

  /** Hovering cannot start a drag: from rest, drag frames before a press change nothing. */
  lemma HoverAloneNeverDrags(g: TransformGizmo, global: Transform, camera: Option<PickingCamera>,
                             keys: Keys, num: Numerics, top: Option<Entity>, children: seq<Entity>,
                             handles: map<Entity, GizmoHandle>)
    ensures var h := HoverStep(HoverState(Idle, g.currentInteraction), top, children, handles);
      DragStep(g, h.interaction, global, camera, keys, num) == DragOutcome(g, None)
  {
  }
}
