/** `hover_gizmo`: the hover half of the gizmo's interaction state machine. */
module Hover {
  import opened Wrappers
  import opened GizmoTypes

  /** The state `hover_gizmo` reads and writes: the gizmo's `Interaction` and its current handle. */
  datatype HoverState = HoverState(interaction: Interaction, current: Option<TransformGizmoInteraction>)

  /** The hit is one of the gizmo's own handles. */
  predicate HitsChild(top: Option<Entity>, children: seq<Entity>) {
    top.Some? && top.value in children
  }

  /**
   * One frame of hover detection, given the top entity under the gizmo pick ray (if any),
   * the gizmo's children and the handles' interaction tags.
   */
  function HoverStep(s: HoverState, top: Option<Entity>, children: seq<Entity>,
                     handles: map<Entity, GizmoHandle>): (r: HoverState)
    // with a hit, the gizmo is Hovered afterwards exactly when it already was, or it was
    // idle and the hit is one of its handles
    ensures top.Some? ==>
      (r.interaction == Hovered <==>
        s.interaction == Hovered || (s.interaction == Idle && HitsChild(top, children)))
    // a hit never changes a Hovered or Clicked gizmo
    ensures top.Some? && s.interaction != Idle ==> r == s
    // the current handle changes only by becoming the tag of the hovered handle
    ensures r.current != s.current ==>
      s.interaction == Idle && HitsChild(top, children) && top.value in handles &&
      r.current == Some(handles[top.value].interaction)
    ensures s.interaction == Idle && HitsChild(top, children) && top.value in handles ==>
      r.current == Some(handles[top.value].interaction)
    // without a hit, Hovered falls back to Idle and everything else stays
    ensures top.None? ==>
      r.current == s.current && r.interaction == (if s.interaction == Hovered then Idle else s.interaction)
  {
    match top
    case Some(t) =>
      if s.interaction == Idle && t in children then
        HoverState(Hovered, if t in handles then Some(handles[t].interaction) else s.current)
      else
        s
    case None =>
      if s.interaction == Hovered then s.(interaction := Idle) else s
  }

  /** Hover never starts or ends a drag: Clicked is neither entered nor left. */
  lemma HoverNeverClicks(s: HoverState, top: Option<Entity>, children: seq<Entity>,
                         handles: map<Entity, GizmoHandle>)
    ensures (HoverStep(s, top, children, handles).interaction == Clicked) <==> (s.interaction == Clicked)
  {
  }
}
