/** `GizmoHighlighter`: which handle is highlighted, and the materials that shows it. */
module Highlighter {
  import opened Wrappers
  import opened GizmoTypes

  /** A handle to a gizmo material asset. */
  datatype MaterialHandle = MaterialHandle(id: nat)

  /** The material component of every entity, and which entities exist. */
  class MaterialTable {
    var alive: set<Entity>
    var material: map<Entity, MaterialHandle>

    constructor (alive: set<Entity>, material: map<Entity, MaterialHandle>)
      ensures this.alive == alive && this.material == material
    {
      this.alive := alive;
      this.material := material;
    }
  }

  /** The colour group of a handle: one per axis, and `V` for the view sphere and anything else. */
  datatype Group = X | Y | Z | V

  class GizmoHighlighter {
    const xArrowTail: Entity
    const yArrowTail: Entity
    const zArrowTail: Entity
    const xArrowCone: Entity
    const yArrowCone: Entity
    const zArrowCone: Entity
    const xPlane: Entity
    const yPlane: Entity
    const zPlane: Entity
    const xRotationArc: Entity
    const yRotationArc: Entity
    const zRotationArc: Entity
    const xMat: MaterialHandle
    const yMat: MaterialHandle
    const zMat: MaterialHandle
    const vMat: MaterialHandle
    const xMatHighlight: MaterialHandle
    const yMatHighlight: MaterialHandle
    const zMatHighlight: MaterialHandle
    const vMatHighlight: MaterialHandle
    var highlighted: Option<Entity>

    /** The parts of each axis. */
    function XParts(): set<Entity> { {xArrowTail, xArrowCone, xPlane, xRotationArc} }
    function YParts(): set<Entity> { {yArrowTail, yArrowCone, yPlane, yRotationArc} }
    function ZParts(): set<Entity> { {zArrowTail, zArrowCone, zPlane, zRotationArc} }

    /**
     * No entity is a part of two axes, and no highlight material is also a plain one, as
     * `build_gizmo` spawns them.
     */
    predicate Valid() {
      XParts() !! YParts() && XParts() !! ZParts() && YParts() !! ZParts() &&
      {xMat, yMat, zMat, vMat} !! {xMatHighlight, yMatHighlight, zMatHighlight, vMatHighlight}
    }

    constructor (xArrowTail: Entity, yArrowTail: Entity, zArrowTail: Entity,
                 xArrowCone: Entity, yArrowCone: Entity, zArrowCone: Entity,
                 xPlane: Entity, yPlane: Entity, zPlane: Entity,
                 xRotationArc: Entity, yRotationArc: Entity, zRotationArc: Entity,
                 xMat: MaterialHandle, yMat: MaterialHandle, zMat: MaterialHandle, vMat: MaterialHandle,
                 xMatHighlight: MaterialHandle, yMatHighlight: MaterialHandle,
                 zMatHighlight: MaterialHandle, vMatHighlight: MaterialHandle)
      // the parts of different axes are different entities, and the materials are all distinct
      requires {xArrowTail, xArrowCone, xPlane, xRotationArc} !! {yArrowTail, yArrowCone, yPlane, yRotationArc}
      requires {xArrowTail, xArrowCone, xPlane, xRotationArc} !! {zArrowTail, zArrowCone, zPlane, zRotationArc}
      requires {yArrowTail, yArrowCone, yPlane, yRotationArc} !! {zArrowTail, zArrowCone, zPlane, zRotationArc}
      requires {xMat, yMat, zMat, vMat} !! {xMatHighlight, yMatHighlight, zMatHighlight, vMatHighlight}
      ensures Valid()
      ensures this.xArrowTail == xArrowTail && this.yArrowTail == yArrowTail && this.zArrowTail == zArrowTail
      ensures this.xArrowCone == xArrowCone && this.yArrowCone == yArrowCone && this.zArrowCone == zArrowCone
      ensures this.xPlane == xPlane && this.yPlane == yPlane && this.zPlane == zPlane
      ensures this.xRotationArc == xRotationArc && this.yRotationArc == yRotationArc
      ensures this.zRotationArc == zRotationArc
      ensures this.xMat == xMat && this.yMat == yMat && this.zMat == zMat && this.vMat == vMat
      ensures this.xMatHighlight == xMatHighlight && this.yMatHighlight == yMatHighlight
      ensures this.zMatHighlight == zMatHighlight && this.vMatHighlight == vMatHighlight
      ensures this.highlighted == None
    {
      this.xArrowTail := xArrowTail;
      this.yArrowTail := yArrowTail;
      this.zArrowTail := zArrowTail;
      this.xArrowCone := xArrowCone;
      this.yArrowCone := yArrowCone;
      this.zArrowCone := zArrowCone;
      this.xPlane := xPlane;
      this.yPlane := yPlane;
      this.zPlane := zPlane;
      this.xRotationArc := xRotationArc;
      this.yRotationArc := yRotationArc;
      this.zRotationArc := zRotationArc;
      this.xMat := xMat;
      this.yMat := yMat;
      this.zMat := zMat;
      this.vMat := vMat;
      this.xMatHighlight := xMatHighlight;
      this.yMatHighlight := yMatHighlight;
      this.zMatHighlight := zMatHighlight;
      this.vMatHighlight := vMatHighlight;
      this.highlighted := None;
    }

    /** The parts of an arrow: its tail and its cone. */
    predicate IsArrowPart(e: Entity) {
      e in {xArrowTail, xArrowCone, yArrowTail, yArrowCone, zArrowTail, zArrowCone}
    }

    /** The entities highlighted together with `e`: both parts of an arrow, else `e` alone. */
    function GetConnected(e: Entity): (r: seq<Entity>)
      ensures e in r
      // an arrow part lights up its whole arrow, tail first; anything else lights up alone
      ensures IsArrowPart(e) ==> |r| == 2 && r[0] in {xArrowTail, yArrowTail, zArrowTail}
      ensures IsArrowPart(e) ==> r in {[xArrowTail, xArrowCone], [yArrowTail, yArrowCone], [zArrowTail, zArrowCone]}
      ensures !IsArrowPart(e) ==> r == [e]
    {
      if e == xArrowTail || e == xArrowCone then [xArrowTail, xArrowCone]
      else if e == yArrowTail || e == yArrowCone then [yArrowTail, yArrowCone]
      else if e == zArrowTail || e == zArrowCone then [zArrowTail, zArrowCone]
      else [e]
    }

    /** The colour group of an entity, by the first axis whose four parts include it. */
    function GroupOf(e: Entity): Group {
      if e in XParts() then X
      else if e in YParts() then Y
      else if e in ZParts() then Z
      else V
    }

    /** The material of an entity in its group's colour, plain or highlighted. */
    function GetMaterial(e: Entity, highlight: bool): (m: MaterialHandle)
      ensures GroupOf(e) == X ==> m == (if highlight then xMatHighlight else xMat)
      ensures GroupOf(e) == Y ==> m == (if highlight then yMatHighlight else yMat)
      ensures GroupOf(e) == Z ==> m == (if highlight then zMatHighlight else zMat)
      ensures GroupOf(e) == V ==> m == (if highlight then vMatHighlight else vMat)
    {
      match GroupOf(e)
      case X => if highlight then xMatHighlight else xMat
      case Y => if highlight then yMatHighlight else yMat
      case Z => if highlight then zMatHighlight else zMat
      case V => if highlight then vMatHighlight else vMat
    }

    /** Whether `e` is the highlighted entity. */
    function IsHighlighted(e: Entity): (r: bool)
      reads this
      ensures r <==> highlighted == Some(e)
    {
      match highlighted
      case Some(h) => h == e
      case None => false
    }

    /**
     * The material table after inserting the plain or highlight material on each of `es` that
     * exists, in order.
     */
    function Paint(m: map<Entity, MaterialHandle>, alive: set<Entity>, es: seq<Entity>, highlight: bool)
      : (r: map<Entity, MaterialHandle>)
      ensures r.Keys == m.Keys + (set e | e in es && e in alive)
      ensures forall e :: e in es && e in alive ==> r[e] == GetMaterial(e, highlight)
      ensures forall e :: e in m && (e !in es || e !in alive) ==> r[e] == m[e]
      decreases |es|
    {
      if es == [] then m
      else
        var r := Paint(m, alive, es[..|es| - 1], highlight);
        var e := es[|es| - 1];
        if e in alive then r[e := GetMaterial(e, highlight)] else r
    }

    /** `unhighlight`: restore the plain material on what is highlighted, if anything. */
    method Unhighlight(mats: MaterialTable)
      modifies this`highlighted, mats`material
      ensures highlighted == None
      ensures old(highlighted).None? ==> mats.material == old(mats.material)
      ensures old(highlighted).Some? ==>
        mats.material == Paint(old(mats.material), mats.alive, GetConnected(old(highlighted).value), false)
    {
      if highlighted.Some? {
        var es := GetConnected(highlighted.value);
        ghost var m0 := mats.material;
        var i := 0;
        while i < |es|
          invariant 0 <= i <= |es|
          invariant mats.material == Paint(m0, mats.alive, es[..i], false)
        {
          assert es[..i + 1][..i] == es[..i];
          if es[i] in mats.alive {
            mats.material := mats.material[es[i] := GetMaterial(es[i], false)];
          }
          i := i + 1;
        }
        assert es[..i] == es;
        highlighted := None;
      }
    }

    /**
     * `highlight`: unhighlight what was highlighted, then put the highlight material on
     * everything connected to `e`.
     */
    method Highlight(e: Entity, mats: MaterialTable)
      modifies this`highlighted, mats`material
      ensures highlighted == Some(e)
      ensures mats.material ==
        Paint(if old(highlighted).Some?
              then Paint(old(mats.material), mats.alive, GetConnected(old(highlighted).value), false)
              else old(mats.material),
              mats.alive, GetConnected(e), true)
      // only the entities connected to the old or the new highlight change material
      ensures forall f :: f in old(mats.material) && f !in GetConnected(e) &&
                          (old(highlighted).None? || f !in GetConnected(old(highlighted).value))
                          ==> mats.material[f] == old(mats.material)[f]
    {
      if highlighted.Some? {
        Unhighlight(mats);
      }
      var es := GetConnected(e);
      ghost var m0 := mats.material;
      var i := 0;
      while i < |es|
        invariant 0 <= i <= |es|
        invariant mats.material == Paint(m0, mats.alive, es[..i], true)
      {
        assert es[..i + 1][..i] == es[..i];
        if es[i] in mats.alive {
          mats.material := mats.material[es[i] := GetMaterial(es[i], true)];
        }
        i := i + 1;
      }
      assert es[..i] == es;
      highlighted := Some(e);
    }

    /** Connectedness is symmetric and closed: each member of a connected set has the same set. */
    lemma ConnectedIsClosed(e: Entity, f: Entity)
      requires Valid()
      requires f in GetConnected(e)
      ensures GetConnected(f) == GetConnected(e)
    {
    }

    /** The entities highlighted together share one colour. */
    lemma ConnectedShareMaterial(e: Entity, f: Entity, highlight: bool)
      requires Valid()
      requires f in GetConnected(e)
      ensures GetMaterial(f, highlight) == GetMaterial(e, highlight)
    {
    }

    /** A highlighted entity always looks different from its plain self. */
    lemma HighlightIsVisible(e: Entity)
      requires Valid()
      ensures GetMaterial(e, true) != GetMaterial(e, false)
    {
    }

    /**
     * Highlighting `e` and then unhighlighting leaves every existing entity connected to `e`
     * in its plain material, and changes nothing outside the two connected sets.
     */
    lemma {:induction false} PaintTwiceRestoresPlain(m: map<Entity, MaterialHandle>, alive: set<Entity>, e: Entity)
      ensures var lit := Paint(m, alive, GetConnected(e), true);
        var back := Paint(lit, alive, GetConnected(e), false);
        back.Keys == m.Keys + (set f | f in GetConnected(e) && f in alive) &&
        (forall f :: f in GetConnected(e) && f in alive ==> back[f] == GetMaterial(f, false)) &&
        (forall f :: f in m && f !in GetConnected(e) ==> back[f] == m[f])
    {
    }
  }
}
