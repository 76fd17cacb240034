/** `update_gizmo_settings`: re-deriving the handles' directions from the alignment rotation. */
module Settings {
  import opened Vectors
  import opened GizmoTypes

  /** A handle's tag with its direction re-derived from its unaligned `original`. */
  function Realign(q: Quat, ia: TransformGizmoInteraction): (r: TransformGizmoInteraction)
    // the variant and the original direction are kept
    ensures r.TranslateAxis? == ia.TranslateAxis? && r.TranslatePlane? == ia.TranslatePlane?
    ensures r.RotateAxis? == ia.RotateAxis? && r.ScaleAxis? == ia.ScaleAxis?
    ensures r.original == ia.original
    // the working direction is the original, turned by the alignment
    ensures r.Direction() == Rotate(q, ia.original)
  {
    match ia
    case TranslateAxis(original, _) => TranslateAxis(original, Rotate(q, original))
    case TranslatePlane(original, _) => TranslatePlane(original, Rotate(q, original))
    case RotateAxis(original, _) => RotateAxis(original, Rotate(q, original))
    case ScaleAxis(original, _) => ScaleAxis(original, Rotate(q, original))
  }

  /** The result depends on the original only, so realigning twice is realigning once. */
  lemma RealignIdempotent(q: Quat, ia: TransformGizmoInteraction)
    ensures Realign(q, Realign(q, ia)) == Realign(q, ia)
  {
  }

  /** Realigning with a new rotation forgets every earlier alignment. */
  lemma RealignForgetsEarlierAlignment(p: Quat, q: Quat, ia: TransformGizmoInteraction)
    ensures Realign(q, Realign(p, ia)) == Realign(q, ia)
  {
  }

  /** With the identity alignment every direction is its original again. */
  lemma IdentityAlignmentRestoresOriginal(ia: TransformGizmoInteraction)
    ensures Realign(Identity, ia).Direction() == ia.original
  {
    RotateIdentity(ia.original);
  }

  /** The first loop of the update: every handle but the view sphere is realigned. */
  function RealignTag(h: GizmoHandle, q: Quat): GizmoHandle {
    if h.viewTranslate then h else h.(interaction := Realign(q, h.interaction))
  }

  /** The second loop of the update: the rotation rings follow `allow_rotation`. */
  function ShowRing(h: GizmoHandle, allowRotation: bool): GizmoHandle {
    if h.rotationArc then h.(visible := allowRotation) else h
  }

  function RealignHandle(h: GizmoHandle, settings: GizmoSettings): GizmoHandle {
    ShowRing(RealignTag(h, settings.alignmentRotation), settings.allowRotation)
  }

  /** One run of `update_gizmo_settings` on the handle table. */
  function RealignHandles(handles: map<Entity, GizmoHandle>, settings: GizmoSettings, changed: bool)
    : (r: map<Entity, GizmoHandle>)
    // nothing happens unless the settings changed since the last run
    ensures !changed ==> r == handles
    ensures r.Keys == handles.Keys
    // the handle kinds never change
    ensures forall e :: e in handles ==>
      r[e].viewTranslate == handles[e].viewTranslate && r[e].rotationArc == handles[e].rotationArc
    // every handle but the view sphere is realigned; the view sphere keeps its tag
    ensures changed ==> forall e :: e in handles ==>
      r[e].interaction == (if handles[e].viewTranslate then handles[e].interaction
                           else Realign(settings.alignmentRotation, handles[e].interaction))
    // the rotation rings show exactly when rotation is allowed; other visibility is untouched
    ensures changed ==> forall e :: e in handles ==>
      r[e].visible == (if handles[e].rotationArc then settings.allowRotation else handles[e].visible)
  {
    if !changed then handles
    else map e | e in handles :: RealignHandle(handles[e], settings)
  }

  /** Running the settings update twice with the same settings is running it once. */
  lemma RealignHandlesIdempotent(handles: map<Entity, GizmoHandle>, settings: GizmoSettings, changed: bool)
    ensures RealignHandles(RealignHandles(handles, settings, changed), settings, changed)
         == RealignHandles(handles, settings, changed)
  {
  }

  /** A handle that points along its original and shows exactly when it may. */
  predicate Unaligned(h: GizmoHandle, allowRotation: bool) {
    (!h.viewTranslate ==> h.interaction.Direction() == h.interaction.original) &&
    (h.rotationArc ==> h.visible == allowRotation)
  }

  /** The identity alignment leaves a table of unaligned handles exactly as it is. */
  lemma {:induction false} IdentityKeepsUnalignedHandles(handles: map<Entity, GizmoHandle>, allowRotation: bool)
    requires forall e :: e in handles ==> Unaligned(handles[e], allowRotation)
    ensures RealignHandles(handles, GizmoSettings(Identity, allowRotation), true) == handles
  {
    var r := RealignHandles(handles, GizmoSettings(Identity, allowRotation), true);
    forall e | e in handles
      ensures r[e] == handles[e]
    {
      IdentityAlignmentRestoresOriginal(handles[e].interaction);
    }
  }

  /** A quarter turn about y sends an x arrow to point along -z. */
  lemma QuarterTurnAlignsXArrow(s: real)
    requires s * s == 0.5
    ensures Realign(Quat(0.0, s, 0.0, s), TranslateAxis(UnitX, UnitX)).Direction() == Vec3(0.0, 0.0, -1.0)
  {
    QuarterTurnAboutY(s);
  }
}
