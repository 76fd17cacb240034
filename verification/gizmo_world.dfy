/**
 * The gizmo entity and the scene it edits, as one object whose methods are the plugin's
 * systems. Each method runs the system's loops over the scene or the handle table, and is
 * proved to compute the pure step function of the system's module.
 */
module GizmoWorld {
  import opened Wrappers
  import opened Vectors
  import opened GizmoTypes
  import opened Hover
  import opened Grab
  import opened Drag
  import opened Placement
  import opened Settings

  /** f32::MIN, the coordinate the gizmo is spawned at on every axis. */
  const F32Min: real := -340282346638528859811704183484516925440.0

  class TransformGizmoWorld {
    // components of the gizmo entity
    var interaction: Interaction
    var gizmo: TransformGizmo
    var gizmoLocal: Transform
    var gizmoGlobal: Transform
    var gizmoVisible: bool
    var children: seq<Entity>
    // the handle entities' `TransformGizmoInteraction` and marker components, and visibility
    var handles: map<Entity, GizmoHandle>
    // every other entity, in query order
    var scene: seq<SceneEntity>
    // the `TransformGizmoEvent`s sent so far
    var events: seq<TransformGizmoEvent>
    var settings: GizmoSettings

    /** The gizmo as `TransformGizmoBundle::default` spawns it, over the given scene. */
    constructor (children: seq<Entity>, handles: map<Entity, GizmoHandle>, scene: seq<SceneEntity>,
                 settings: GizmoSettings)
      ensures this.interaction == Idle && this.gizmo == DefaultGizmo
      ensures this.gizmoLocal == Transform(Vec3(F32Min, F32Min, F32Min), Identity, Vec3(1.0, 1.0, 1.0))
      ensures this.gizmoGlobal == Transform(Zero, Identity, Vec3(1.0, 1.0, 1.0))
      ensures !this.gizmoVisible
      ensures this.children == children && this.handles == handles && this.scene == scene
      ensures this.events == [] && this.settings == settings
    {
      this.interaction := Idle;
      this.gizmo := DefaultGizmo;
      this.gizmoLocal := Transform(Vec3(F32Min, F32Min, F32Min), Identity, Vec3(1.0, 1.0, 1.0));
      this.gizmoGlobal := Transform(Zero, Identity, Vec3(1.0, 1.0, 1.0));
      this.gizmoVisible := false;
      this.children := children;
      this.handles := handles;
      this.scene := scene;
      this.events := [];
      this.settings := settings;
    }

    /** `update_gizmo_settings`; `changed` is whether the settings resource changed. */
    method UpdateGizmoSettings(changed: bool)
      modifies this`handles
      ensures handles == RealignHandles(old(handles), settings, changed)
    {
      if !changed {
        return;
      }
      ghost var h0 := handles;
      var todo := handles.Keys;
      while todo != {}
        invariant handles.Keys == h0.Keys && todo <= h0.Keys
        invariant forall e :: e in h0 && e !in todo ==> handles[e] == RealignTag(h0[e], settings.alignmentRotation)
        invariant forall e :: e in todo ==> handles[e] == h0[e]
        decreases todo
      {
        var e :| e in todo;
        if !handles[e].viewTranslate {
          handles := handles[e := handles[e].(interaction := Realign(settings.alignmentRotation, handles[e].interaction))];
        }
        todo := todo - {e};
      }
      ghost var h1 := handles;
      todo := handles.Keys;
      while todo != {}
        invariant handles.Keys == h0.Keys && todo <= h0.Keys
        invariant forall e :: e in h0 && e !in todo ==> handles[e] == ShowRing(h1[e], settings.allowRotation)
        invariant forall e :: e in todo ==> handles[e] == h1[e]
        decreases todo
      {
        var e :| e in todo;
        if handles[e].rotationArc {
          handles := handles[e := handles[e].(visible := settings.allowRotation)];
        }
        todo := todo - {e};
      }
      assert handles == RealignHandles(h0, settings, changed);
    }

    /** `hover_gizmo`; `top` is the gizmo pick source's topmost hit. */
    method HoverGizmo(top: Option<Entity>)
      modifies this`interaction, this`gizmo
      ensures HoverState(interaction, gizmo.currentInteraction)
           == HoverStep(HoverState(old(interaction), old(gizmo.currentInteraction)), top, children, handles)
      ensures gizmo == old(gizmo).(currentInteraction := gizmo.currentInteraction)
    {
      if top.Some? {
        if interaction == Idle {
          var i := 0;
          while i < |children|
            invariant 0 <= i <= |children|
            invariant top.value in children[..i] ==> interaction == Hovered
            invariant top.value !in children[..i] ==> interaction == Idle
            invariant gizmo == old(gizmo).(currentInteraction := gizmo.currentInteraction)
            invariant gizmo.currentInteraction ==
              if top.value in children[..i] && top.value in handles then Some(handles[top.value].interaction)
              else old(gizmo.currentInteraction)
          {
            assert children[..i + 1] == children[..i] + [children[i]];
            if children[i] == top.value {
              interaction := Hovered;
              if children[i] in handles {
                gizmo := gizmo.(currentInteraction := Some(handles[children[i]].interaction));
              }
            }
            i := i + 1;
          }
          assert children[..i] == children;
        }
      } else if interaction == Hovered {
        interaction := Idle;
      }
    }

    /** The state `grab_gizmo` reads and writes. */
    function GrabView(): GrabState
      reads this
    {
      GrabState(interaction, gizmo, scene, events)
    }

    /** `grab_gizmo`, with the left button's `just_pressed` and `just_released`. */
    method GrabGizmo(justPressed: bool, justReleased: bool)
      modifies this`interaction, this`gizmo, this`scene, this`events
      ensures GrabView() == GrabStep(old(GrabView()), justPressed, justReleased, gizmoGlobal)
    {
      if justPressed {
        ghost var s0 := scene;
        var k := 0;
        if interaction == Hovered {
          interaction := Clicked;
          while k < |scene|
            invariant 0 <= k <= |scene| && |scene| == |s0|
            invariant interaction == Clicked && gizmo == old(gizmo) && events == old(events)
            invariant forall j :: 0 <= j < k ==> scene[j] == SnapshotEntity(s0[j])
            invariant forall j :: k <= j < |scene| ==> scene[j] == s0[j]
          {
            if Selected(scene[k]) {
              scene := scene[k := scene[k].(initial := Some(Snapshot(scene[k])))];
            }
            k := k + 1;
          }
          assert scene == SnapshotSelected(s0);
        } else {
          gizmo := DefaultGizmo;
          while k < |scene|
            invariant 0 <= k <= |scene| && |scene| == |s0|
            invariant interaction == old(interaction) && gizmo == DefaultGizmo && events == old(events)
            invariant forall j :: 0 <= j < k ==> scene[j] == ClearEntity(s0[j])
            invariant forall j :: k <= j < |scene| ==> scene[j] == s0[j]
          {
            if scene[k].initial.Some? {
              scene := scene[k := scene[k].(initial := None)];
            }
            k := k + 1;
          }
          assert scene == ClearSnapshots(s0);
        }
      } else if justReleased {
        interaction := Idle;
        if gizmo.initialTransform.Some? && gizmo.currentInteraction.Some? {
          var ev := TransformGizmoEvent(gizmo.initialTransform.value, gizmoGlobal, gizmo.currentInteraction.value);
          events := events + [ev];
          gizmo := DefaultGizmo;
        }
      }
    }

    /** `drag_gizmo`, with the last picking camera, the keyboard and the numerics. */
    method DragGizmo(camera: Option<PickingCamera>, keys: Keys, num: Numerics)
      modifies this`gizmo, this`scene
      ensures gizmo == DragStep(old(gizmo), interaction, gizmoGlobal, camera, keys, num).gizmo
      ensures scene == DragScene(old(scene), DragStep(old(gizmo), interaction, gizmoGlobal, camera, keys, num))
    {
      ghost var outcome := DragStep(gizmo, interaction, gizmoGlobal, camera, keys, num);
      if camera.None? || camera.value.ray.None? || interaction != Clicked {
        return;
      }
      var cam := camera.value;
      var origin: Vec3;
      if gizmo.originDragStart.Some? {
        origin := gizmo.originDragStart.value;
      } else {
        origin := gizmoGlobal.translation;
        gizmo := gizmo.(originDragStart := Some(origin));
      }
      if gizmo.currentInteraction.None? {
        return;
      }
      var ia := gizmo.currentInteraction.value;
      if gizmo.initialTransform.None? {
        gizmo := gizmo.(initialTransform := Some(gizmoGlobal));
      }
      if ia.ScaleAxis? {
        return;
      }
      var hit := cam.intersectPlane(DragPlane(ia, cam.ray.value, origin, num));
      if hit.None? {
        return;
      }
      if gizmo.dragStart.None? {
        gizmo := gizmo.(dragStart := Some(Anchor(ia, hit.value, origin, num)));
        return;
      }
      var eff := Effect(ia, hit.value, origin, gizmo.dragStart.value, keys, num);
      assert outcome.effect == Some(eff);
      ghost var s0 := scene;
      var k := 0;
      while k < |scene|
        invariant 0 <= k <= |scene| && |scene| == |s0|
        invariant gizmo == outcome.gizmo
        invariant forall j :: 0 <= j < k ==> scene[j] == WriteEntity(s0[j], eff)
        invariant forall j :: k <= j < |scene| ==> scene[j] == s0[j]
      {
        if Selected(scene[k]) && scene[k].initial.Some? {
          scene := scene[k := scene[k].(transform := ApplyEffect(eff, scene[k].initial.value))];
        }
        k := k + 1;
      }
      assert scene == WriteSelected(s0, eff);
    }

    /** The gizmo components `place_gizmo` writes. */
    function PlacementView(): Placement
      reads this
    {
      Placement(gizmoGlobal, gizmoLocal, gizmoVisible)
    }

    /** `place_gizmo`: one pass collects the sum and count of the placed positions. */
    method PlaceGizmo()
      modifies this`gizmoGlobal, this`gizmoLocal, this`gizmoVisible
      ensures PlacementView() == PlaceStep(scene, settings.alignmentRotation, old(PlacementView()))
    {
      var sum := Zero;
      var n := 0;
      var k := 0;
      while k < |scene|
        invariant 0 <= k <= |scene|
        invariant n == |PlacedPositions(scene[..k])| && sum == Sum(PlacedPositions(scene[..k]))
      {
        assert scene[..k + 1][..k] == scene[..k];
        if Placed(scene[k]) {
          sum := Add(sum, Position(scene[k]));
          n := n + 1;
        }
        k := k + 1;
      }
      assert scene[..k] == scene;
      if n == 0 {
        gizmoGlobal := gizmoGlobal.(rotation := settings.alignmentRotation);
        gizmoLocal := gizmoLocal.(rotation := settings.alignmentRotation);
        gizmoVisible := false;
      } else {
        var centroid := Div(sum, n as real);
        gizmoGlobal := gizmoGlobal.(translation := centroid, rotation := settings.alignmentRotation);
        gizmoLocal := gizmoLocal.(translation := centroid, rotation := settings.alignmentRotation);
        gizmoVisible := true;
      }
    }
  }
}
