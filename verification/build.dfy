/** `build_gizmo`: the handle entities, their tags and materials, and the gizmo's child list. */
module Build {
  import opened Wrappers
  import opened Vectors
  import opened GizmoTypes
  import opened Highlighter
  import opened Settings

  /** The handle entities, under the names `build_gizmo` gives them. */
  datatype HandleIds = HandleIds(
    xArrowTail: Entity, yArrowTail: Entity, zArrowTail: Entity,
    xArrowCone: Entity, xPlane: Entity, yArrowCone: Entity, yPlane: Entity,
    zArrowCone: Entity, zPlane: Entity, vSphere: Entity,
    xRotationArc: Entity, yRotationArc: Entity, zRotationArc: Entity)

  /** The ids the spawns receive after the parent's: consecutive, in spawn order. */
  function SpawnIds(parent: Entity): (ids: HandleIds)
    ensures parent < ids.xArrowTail
  {
    HandleIds(parent + 1, parent + 2, parent + 3, parent + 4, parent + 5, parent + 6, parent + 7,
              parent + 8, parent + 9, parent + 10, parent + 11, parent + 12, parent + 13)
  }

  /** The children of the gizmo parent, in the order they are added. */
  function ChildList(ids: HandleIds): (r: seq<Entity>)
    ensures |r| == 13
    // every child is a spawned handle
    ensures forall i :: 0 <= i < |r| ==> r[i] in Catalog(ids)
  {
    [ids.xArrowTail, ids.yArrowTail, ids.zArrowTail,
     ids.xArrowCone, ids.yArrowCone, ids.zArrowCone,
     ids.xPlane, ids.yPlane, ids.zPlane,
     ids.xRotationArc, ids.yRotationArc, ids.zRotationArc,
     ids.vSphere]
  }

  /** The handle components each spawn carries; every handle starts visible. */
  function Catalog(ids: HandleIds): (c: map<Entity, GizmoHandle>)
    // no handle is a scale handle: `build_gizmo` spawns none
    ensures forall e :: e in c ==> !c[e].interaction.ScaleAxis?
  {
    map[ids.xArrowTail := GizmoHandle(TranslateAxis(UnitX, UnitX), false, false, true),
        ids.yArrowTail := GizmoHandle(TranslateAxis(UnitY, UnitY), false, false, true),
        ids.zArrowTail := GizmoHandle(TranslateAxis(UnitZ, UnitZ), false, false, true),
        ids.xArrowCone := GizmoHandle(TranslateAxis(UnitX, UnitX), false, false, true),
        ids.xPlane := GizmoHandle(TranslatePlane(UnitX, UnitX), false, false, true),
        ids.yArrowCone := GizmoHandle(TranslateAxis(UnitY, UnitY), false, false, true),
        ids.yPlane := GizmoHandle(TranslatePlane(UnitY, UnitY), false, false, true),
        ids.zArrowCone := GizmoHandle(TranslateAxis(UnitZ, UnitZ), false, false, true),
        ids.zPlane := GizmoHandle(TranslatePlane(UnitZ, UnitZ), false, false, true),
        ids.vSphere := GizmoHandle(TranslatePlane(Zero, UnitZ), true, false, true),
        ids.xRotationArc := GizmoHandle(RotateAxis(UnitX, UnitX), false, true, true),
        ids.yRotationArc := GizmoHandle(RotateAxis(UnitY, UnitY), false, true, true),
        ids.zRotationArc := GizmoHandle(RotateAxis(UnitZ, UnitZ), false, true, true)]
  }

  /** The parent gets exactly thirteen distinct children, none of them itself. */
  lemma ChildrenAreDistinct(parent: Entity)
    ensures var cs := ChildList(SpawnIds(parent));
      |cs| == 13 && parent !in cs && forall i, j :: 0 <= i < j < |cs| ==> cs[i] != cs[j]
  {
  }

  /** Exactly the children are handles. */
  lemma ChildrenAreTheHandles(parent: Entity)
    ensures Catalog(SpawnIds(parent)).Keys == set e | e in ChildList(SpawnIds(parent))
  {
  }

  /**
   * Every handle starts aligned with the world axes: its direction is its original, except
   * the view sphere, which has original zero and normal +Z. Only the rings are rotation
   * handles, and they are exactly the `RotateAxis` tags.
   */
  lemma CatalogStartsUnaligned(parent: Entity)
    ensures var c := Catalog(SpawnIds(parent));
      (forall e :: e in c && !c[e].viewTranslate ==> c[e].interaction.Direction() == c[e].interaction.original) &&
      (forall e :: e in c && c[e].viewTranslate <==> e == SpawnIds(parent).vSphere) &&
      c[SpawnIds(parent).vSphere].interaction == TranslatePlane(Zero, UnitZ) &&
      (forall e :: e in c ==> (c[e].rotationArc <==> c[e].interaction.RotateAxis?)) &&
      (forall e :: e in c ==> c[e].visible)
  {
  }

  /**
   * Under the default settings (identity alignment, rotation allowed) the settings update
   * leaves the freshly built handles as they are.
   */
  lemma DefaultSettingsKeepCatalog(parent: Entity)
    ensures RealignHandles(Catalog(SpawnIds(parent)), GizmoSettings(Identity, true), true)
         == Catalog(SpawnIds(parent))
  {
    CatalogStartsUnaligned(parent);
    IdentityKeepsUnalignedHandles(Catalog(SpawnIds(parent)), true);
  }

  /** The material each handle is spawned with: its axis's plain material, white for the sphere. */
  function SpawnMaterials(ids: HandleIds, firstMaterial: nat): (r: map<Entity, MaterialHandle>)
    // every handle starts in one of the four plain materials, never a highlight one
    ensures forall e :: e in r ==> firstMaterial <= r[e].id < firstMaterial + 4
  {
    var x := MaterialHandle(firstMaterial);
    var y := MaterialHandle(firstMaterial + 1);
    var z := MaterialHandle(firstMaterial + 2);
    var v := MaterialHandle(firstMaterial + 3);
    map[ids.xArrowTail := x, ids.yArrowTail := y, ids.zArrowTail := z,
        ids.xArrowCone := x, ids.xPlane := x, ids.yArrowCone := y, ids.yPlane := y,
        ids.zArrowCone := z, ids.zPlane := z, ids.vSphere := v,
        ids.xRotationArc := x, ids.yRotationArc := y, ids.zRotationArc := z]
  }

  /** The highlighter `build_gizmo` inserts names the spawned handles and the eight materials. */
  predicate Describes(hl: GizmoHighlighter, ids: HandleIds, firstMaterial: nat) {
    hl.xArrowTail == ids.xArrowTail && hl.xArrowCone == ids.xArrowCone &&
    hl.yArrowTail == ids.yArrowTail && hl.yArrowCone == ids.yArrowCone &&
    hl.zArrowTail == ids.zArrowTail && hl.zArrowCone == ids.zArrowCone &&
    hl.xPlane == ids.xPlane && hl.yPlane == ids.yPlane && hl.zPlane == ids.zPlane &&
    hl.xRotationArc == ids.xRotationArc && hl.yRotationArc == ids.yRotationArc &&
    hl.zRotationArc == ids.zRotationArc &&
    hl.xMat == MaterialHandle(firstMaterial) && hl.yMat == MaterialHandle(firstMaterial + 1) &&
    hl.zMat == MaterialHandle(firstMaterial + 2) && hl.vMat == MaterialHandle(firstMaterial + 3) &&
    hl.xMatHighlight == MaterialHandle(firstMaterial + 4) &&
    hl.yMatHighlight == MaterialHandle(firstMaterial + 5) &&
    hl.zMatHighlight == MaterialHandle(firstMaterial + 6) &&
    hl.vMatHighlight == MaterialHandle(firstMaterial + 7)
  }

  /**
   * Every handle is spawned with the material the highlighter restores on unhighlighting,
   * so highlighting and unhighlighting returns a handle to how it was built.
   */
  lemma SpawnedMaterialsArePlain(hl: GizmoHighlighter, parent: Entity, firstMaterial: nat)
    requires Describes(hl, SpawnIds(parent), firstMaterial)
    ensures hl.Valid()
    ensures SpawnMaterials(SpawnIds(parent), firstMaterial).Keys == Catalog(SpawnIds(parent)).Keys
    ensures forall e :: e in SpawnMaterials(SpawnIds(parent), firstMaterial) ==>
      SpawnMaterials(SpawnIds(parent), firstMaterial)[e] == hl.GetMaterial(e, false)
  {
    var m := SpawnMaterials(SpawnIds(parent), firstMaterial);
    forall e | e in m
      ensures m[e] == hl.GetMaterial(e, false)
    {
    }
  }

  /** The results of `build_gizmo` that the rest of the plugin uses. */
  datatype BuiltGizmo = BuiltGizmo(
    parent: Entity,
    ids: HandleIds,
    handles: map<Entity, GizmoHandle>,
    children: seq<Entity>,
    materials: map<Entity, MaterialHandle>)

  /**
   * `build_gizmo`: spawns the parent and the handles with fresh consecutive ids, adds the
   * four plain materials before the spawns and the four highlight materials after them,
   * inserts the highlighter, and adds the children in a loop.
   */
  method BuildGizmo(parent: Entity, firstMaterial: nat) returns (b: BuiltGizmo, hl: GizmoHighlighter)
    ensures b.parent == parent && b.ids == SpawnIds(parent)
    ensures b.handles == Catalog(b.ids) && b.children == ChildList(b.ids)
    ensures b.materials == SpawnMaterials(b.ids, firstMaterial)
    ensures fresh(hl) && hl.highlighted == None && hl.Valid() && Describes(hl, b.ids, firstMaterial)
  {
    var ids := SpawnIds(parent);
    var handles := Catalog(ids);
    var materials := SpawnMaterials(ids, firstMaterial);
    hl := new GizmoHighlighter(ids.xArrowTail, ids.yArrowTail, ids.zArrowTail,
                               ids.xArrowCone, ids.yArrowCone, ids.zArrowCone,
                               ids.xPlane, ids.yPlane, ids.zPlane,
                               ids.xRotationArc, ids.yRotationArc, ids.zRotationArc,
                               MaterialHandle(firstMaterial), MaterialHandle(firstMaterial + 1),
                               MaterialHandle(firstMaterial + 2), MaterialHandle(firstMaterial + 3),
                               MaterialHandle(firstMaterial + 4), MaterialHandle(firstMaterial + 5),
                               MaterialHandle(firstMaterial + 6), MaterialHandle(firstMaterial + 7));
    var entities := ChildList(ids);
    var children: seq<Entity> := [];
    for i := 0 to |entities|
      invariant children == entities[..i]
    {
      assert entities[..i + 1] == entities[..i] + [entities[i]];
      children := children + [entities[i]];
    }
    b := BuiltGizmo(parent, ids, handles, children, materials);
  }
}
