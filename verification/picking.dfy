/** The gizmo's own pick source, and the gate that turns scene picking off around the gizmo. */
module Picking {
  import opened Wrappers
  import opened Vectors
  import opened GizmoTypes

  /** How a pick source builds its ray: from a cursor position on screen, or otherwise. */
  datatype RayCastMethod = Screenspace(position: Vec2) | OtherMethod

  /** A gizmo pick source: its ray's origin and the topmost gizmo handle under it. */
  datatype PickSource = PickSource(castMethod: RayCastMethod, intersectTop: Option<Entity>)

  /** The sources after the cursor update: the newest of `events` goes to the first source only. */
  function WithCursor(sources: seq<PickSource>, events: seq<Vec2>): (r: seq<PickSource>)
    ensures |r| == |sources|
    // no cursor movement leaves every source as it was
    ensures events == [] ==> r == sources
    // the latest cursor position wins
    ensures events != [] && |sources| > 0 ==> r[0].castMethod == Screenspace(events[|events| - 1])
    // the hits are not touched, and the reader is drained by the first source
    ensures forall i :: 0 <= i < |r| ==> r[i].intersectTop == sources[i].intersectTop
    ensures forall i :: 0 < i < |r| ==> r[i] == sources[i]
  {
    if events == [] || sources == [] then sources
    else [sources[0].(castMethod := Screenspace(events[|events| - 1]))] + sources[1..]
  }

  /** Whether the last pick source has no gizmo hit; with no source, nothing is hovered. */
  predicate NotHoveringGizmo(sources: seq<PickSource>) {
    sources == [] || sources[|sources| - 1].intersectTop.None?
  }

  /**
   * The value `disable_mesh_picking_during_gizmo_hover` gives `enable_picking`, or `None`
   * when there is no gizmo and it returns early.
   */
  function PickingGate(sources: seq<PickSource>, gizmos: seq<TransformGizmo>): (r: Option<bool>)
    ensures r.None? <==> gizmos == []
    // scene picking is on exactly when the last gizmo has no handle and its source no hit
    ensures r.Some? ==>
      (r.value <==> gizmos[|gizmos| - 1].currentInteraction.None? &&
                    (sources == [] || sources[|sources| - 1].intersectTop.None?))
  {
    if gizmos == [] then None
    else Some(gizmos[|gizmos| - 1].currentInteraction.None? && NotHoveringGizmo(sources))
  }

  /** While the pointer is over a handle, clicks never reach the scene. */
  lemma HoverBlocksScenePicking(sources: seq<PickSource>, gizmos: seq<TransformGizmo>)
    requires gizmos != [] && sources != [] && sources[|sources| - 1].intersectTop.Some?
    ensures PickingGate(sources, gizmos) == Some(false)
  {
  }

  /** While a handle is engaged, clicks never reach the scene, wherever the pointer is. */
  lemma ActiveGizmoBlocksScenePicking(sources: seq<PickSource>, gizmos: seq<TransformGizmo>)
    requires gizmos != [] && gizmos[|gizmos| - 1].currentInteraction.Some?
    ensures PickingGate(sources, gizmos) == Some(false)
  {
  }

  /** The picking state the two systems act on. */
  class GizmoPicking {
    var sources: seq<PickSource>
    // cursor events this system's reader has not yet read
    var unread: seq<Vec2>
    var enablePicking: bool

    constructor (sources: seq<PickSource>, enablePicking: bool)
      ensures this.sources == sources && this.unread == [] && this.enablePicking == enablePicking
    {
      this.sources := sources;
      this.unread := [];
      this.enablePicking := enablePicking;
    }

    /** A `CursorMoved` event from the window, queued for the reader. */
    method CursorMoved(position: Vec2)
      modifies this`unread
      ensures unread == old(unread) + [position]
    {
      unread := unread + [position];
    }

    /** `update_gizmo_raycast_with_cursor`: each source reads the newest unread cursor event. */
    method UpdateRaycastWithCursor()
      modifies this`sources, this`unread
      // the reader is drained as soon as one source reads it
      ensures unread == (if old(sources) == [] then old(unread) else [])
      ensures sources == WithCursor(old(sources), old(unread))
    {
      ghost var s0 := sources;
      ghost var e0 := unread;
      var i := 0;
      while i < |sources|
        invariant 0 <= i <= |sources| && |sources| == |s0|
        invariant i > 0 ==> unread == []
        invariant i == 0 ==> unread == e0
        invariant forall j :: i <= j < |sources| ==> sources[j] == s0[j]
        invariant forall j :: 0 <= j < i ==> sources[j] == WithCursor(s0, e0)[j]
      {
        if unread != [] {
          sources := sources[i := sources[i].(castMethod := Screenspace(unread[|unread| - 1]))];
        }
        unread := [];
        i := i + 1;
      }
    }

    /** `disable_mesh_picking_during_gizmo_hover`, over the gizmos in query order. */
    method DisableMeshPickingDuringGizmoHover(gizmos: seq<TransformGizmo>)
      modifies this`enablePicking
      ensures enablePicking == PickingGate(sources, gizmos).GetOr(old(enablePicking))
    {
      var notHoveringGizmo := true;
      if |sources| > 0 {
        notHoveringGizmo := sources[|sources| - 1].intersectTop.None?;
      }
      if |gizmos| == 0 {
        return;
      }
      var gizmoInactive := gizmos[|gizmos| - 1].currentInteraction.None?;
      enablePicking := gizmoInactive && notHoveringGizmo;
    }
  }
}
