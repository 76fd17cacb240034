/**
 * The records of the transform-gizmo plugin: the gizmo's interaction tags, transforms,
 * per-entity snapshots, the event it emits, and the components of the scene entities
 * the gizmo manipulates. Entities are identifiers; components are fields.
 */
module GizmoTypes {
  import opened Wrappers
  import opened Vectors

  type Entity = nat

  /** bevy's `Interaction` component on the gizmo; `Idle` is its `None` variant. */
  datatype Interaction = Idle | Hovered | Clicked

  /**
   * The interaction a handle stands for. `original` is the unaligned direction from which
   * `axis` (or `normal`) is re-derived whenever the alignment setting changes.
   */
  datatype TransformGizmoInteraction =
    | TranslateAxis(original: Vec3, axis: Vec3)
    | TranslatePlane(original: Vec3, normal: Vec3)
    | RotateAxis(original: Vec3, axis: Vec3)
    | ScaleAxis(original: Vec3, axis: Vec3)
  {
    /** The working direction of the handle: its `axis`, or its `normal` for a plane. */
    function Direction(): Vec3 {
      match this
      case TranslatePlane(_, normal) => normal
      case _ => axis
    }
  }

  /** A decomposed transform; a `GlobalTransform` is kept in this form as well. */
  datatype Transform = Transform(translation: Vec3, rotation: Quat, scale: Vec3)

  /** The snapshot taken of a selected entity when a drag starts. */
  datatype InitialTransform = InitialTransform(transform: Transform, rotationOffset: Vec3)

  /** Sent once per completed drag: the gizmo's transform before and after, and the handle. */
  datatype TransformGizmoEvent =
    TransformGizmoEvent(from: Transform, to: Transform, interaction: TransformGizmoInteraction)

  /** The `TransformGizmo` component: the drag bookkeeping of the one gizmo. */
  datatype TransformGizmo = TransformGizmo(
    currentInteraction: Option<TransformGizmoInteraction>,
    dragStart: Option<Vec3>,
    originDragStart: Option<Vec3>,
    initialTransform: Option<Transform>)

  /** `TransformGizmo::default()`: nothing is being dragged. */
  const DefaultGizmo := TransformGizmo(None, None, None, None)

  /** The `GizmoSettings` resource. */
  datatype GizmoSettings = GizmoSettings(alignmentRotation: Quat, allowRotation: bool)

  /**
   * A scene entity as the gizmo's queries see it: it always has a `Transform` and a
   * `GlobalTransform`; `selection` is its `Selection` component (holding `selected()`),
   * `initial` its `InitialTransform`, `rotationOffset` its `RotationOriginOffset`, and
   * `transformable` whether it carries the `GizmoTransformable` marker.
   */
  datatype SceneEntity = SceneEntity(
    selection: Option<bool>,
    transform: Transform,
    global: Transform,
    initial: Option<InitialTransform>,
    rotationOffset: Option<Vec3>,
    transformable: bool)

  predicate Selected(e: SceneEntity) {
    e.selection == Some(true)
  }

  /**
   * A handle entity of the gizmo: its interaction tag, whether it is the view-plane handle
   * (`ViewTranslateGizmo`) or a rotation arc (`RotationGizmo`), and its visibility.
   */
  datatype GizmoHandle = GizmoHandle(
    interaction: TransformGizmoInteraction,
    viewTranslate: bool,
    rotationArc: bool,
    visible: bool)

  /** bevy's `ShouldRun` run criterion. */
  datatype ShouldRun = Yes | No

  /** `plugin_enabled`: the gizmo systems run exactly when `GizmoSystemsEnabled` holds. */
  function PluginEnabled(enabled: bool): (r: ShouldRun)
    ensures r == Yes <==> enabled
  {
    if enabled then Yes else No
  }
}
