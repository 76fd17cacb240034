/** `grab_gizmo`: the press and release transitions of the gizmo's interaction state machine. */
module Grab {
  import opened Wrappers
  import opened Vectors
  import opened GizmoTypes

  /** The state `grab_gizmo` reads and writes. */
  datatype GrabState = GrabState(
    interaction: Interaction,
    gizmo: TransformGizmo,
    scene: seq<SceneEntity>,
    events: seq<TransformGizmoEvent>)

  /** The snapshot stored for a selected entity when a drag starts. */
  function Snapshot(e: SceneEntity): InitialTransform {
    InitialTransform(e.global, e.rotationOffset.GetOr(Zero))
  }

  function SnapshotEntity(e: SceneEntity): SceneEntity {
    if Selected(e) then e.(initial := Some(Snapshot(e))) else e
  }

  /** The press on a hovered handle: every selected entity gets a fresh `InitialTransform`. */
  function SnapshotSelected(scene: seq<SceneEntity>): (r: seq<SceneEntity>)
    ensures |r| == |scene|
    // only `InitialTransform` components change
    ensures forall k :: 0 <= k < |r| ==> r[k] == scene[k].(initial := r[k].initial)
    // a selected entity snapshots its global transform and its pivot offset, zero if it has none
    ensures forall k :: 0 <= k < |r| && Selected(scene[k]) ==>
      r[k].initial == Some(InitialTransform(scene[k].global,
        if scene[k].rotationOffset.Some? then scene[k].rotationOffset.value else Zero))
    // an entity that is not selected keeps what it had
    ensures forall k :: 0 <= k < |r| && !Selected(scene[k]) ==> r[k] == scene[k]
  {
    seq(|scene|, k requires 0 <= k < |scene| => SnapshotEntity(scene[k]))
  }

  function ClearEntity(e: SceneEntity): SceneEntity {
    e.(initial := None)
  }

  /** The press away from the handles: every `InitialTransform` is removed. */
  function ClearSnapshots(scene: seq<SceneEntity>): (r: seq<SceneEntity>)
    ensures |r| == |scene|
    ensures forall k :: 0 <= k < |r| ==> r[k].initial.None? && r[k] == scene[k].(initial := None)
  {
    seq(|scene|, k requires 0 <= k < |scene| => ClearEntity(scene[k]))
  }

  /** The left button was just pressed. */
  function PressStep(s: GrabState): (r: GrabState)
    ensures r.interaction == (if s.interaction == Hovered then Clicked else s.interaction)
    ensures r.events == s.events && |r.scene| == |s.scene|
    ensures forall k :: 0 <= k < |r.scene| ==> r.scene[k] == s.scene[k].(initial := r.scene[k].initial)
    // pressing a hovered handle starts a drag: the gizmo is kept and the selection is snapshot
    ensures s.interaction == Hovered ==> r.gizmo == s.gizmo && r.scene == SnapshotSelected(s.scene)
    // pressing anywhere else resets the gizmo and drops every snapshot
    ensures s.interaction != Hovered ==>
      r.gizmo == DefaultGizmo && forall k :: 0 <= k < |r.scene| ==> r.scene[k].initial.None?
  {
    if s.interaction == Hovered then
      s.(interaction := Clicked, scene := SnapshotSelected(s.scene))
    else
      s.(gizmo := DefaultGizmo, scene := ClearSnapshots(s.scene))
  }

  /** The event a release reports, if the drag both started and had a handle. */
  function ReleaseEvent(g: TransformGizmo, global: Transform): (ev: Option<TransformGizmoEvent>)
    ensures ev.Some? <==> g.initialTransform.Some? && g.currentInteraction.Some?
    ensures ev.Some? ==>
      ev.value.from == g.initialTransform.value && ev.value.to == global &&
      ev.value.interaction == g.currentInteraction.value
  {
    match (g.initialTransform, g.currentInteraction)
    case (Some(from), Some(interaction)) => Some(TransformGizmoEvent(from, global, interaction))
    case _ => None
  }

  /** The left button was just released; `global` is the gizmo's `GlobalTransform`. */
  function ReleaseStep(s: GrabState, global: Transform): (r: GrabState)
    ensures r.interaction == Idle
    // snapshots are not removed on release
    ensures r.scene == s.scene
    // exactly one event is sent when the drag had started, none otherwise
    ensures |r.events| == |s.events| + (if ReleaseEvent(s.gizmo, global).Some? then 1 else 0)
    ensures r.events[..|s.events|] == s.events
    ensures ReleaseEvent(s.gizmo, global).Some? ==>
      r.events[|s.events|] == ReleaseEvent(s.gizmo, global).value
    // the gizmo is reset only together with the event
    ensures r.gizmo == (if ReleaseEvent(s.gizmo, global).Some? then DefaultGizmo else s.gizmo)
  {
    match ReleaseEvent(s.gizmo, global)
    case Some(ev) => s.(interaction := Idle, gizmo := DefaultGizmo, events := s.events + [ev])
    case None => s.(interaction := Idle)
  }

  /** One frame of `grab_gizmo`: a press takes precedence over a release. */
  function GrabStep(s: GrabState, justPressed: bool, justReleased: bool, global: Transform): (r: GrabState)
    ensures !justPressed && !justReleased ==> r == s
    ensures justPressed ==> r == PressStep(s)
    ensures !justPressed && justReleased ==> r == ReleaseStep(s, global)
  {
    if justPressed then PressStep(s)
    else if justReleased then ReleaseStep(s, global)
    else s
  }
}
