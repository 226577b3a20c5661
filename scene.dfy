/**
 * The scene graph the cutlist is derived from, as a finite value.
 *
 * A component instance carries its definition (name and child entities)
 * inline, so a scene is a finite tree and every walk over it terminates.
 * Lengths are integers in one abstract unit.
 */
module Scene {

  datatype Option<+T> = None | Some(value: T)

  /** MaterialAttributes::TYPE_UNKNOW, TYPE_SOLID_WOOD, TYPE_SHEET_GOOD. */
  datatype MaterialType = Unknown | SolidWood | SheetGood

  /** What MaterialAttributes.new(material) exposes to the cutlist controller. */
  datatype Attributes = Attributes(
    kind: MaterialType,
    lengthIncrease: int,
    widthIncrease: int,
    thicknessIncrease: int,
    stdThicknesses: seq<int>)

  datatype Material = Material(name: string, displayName: string, attributes: Attributes)

  /** An axis-aligned bounding box; Empty is a freshly created Geom::BoundingBox. */
  datatype Box =
    | Empty
    | Box(minX: int, minY: int, minZ: int, maxX: int, maxY: int, maxZ: int)

  /** Extent along x (BoundingBox#width); an empty box has no extent. */
  function Width(b: Box): int { if b.Empty? then 0 else b.maxX - b.minX }

  /** Extent along y (BoundingBox#height). */
  function Height(b: Box): int { if b.Empty? then 0 else b.maxY - b.minY }

  /** Extent along z (BoundingBox#depth). */
  function Depth(b: Box): int { if b.Empty? then 0 else b.maxZ - b.minZ }

  function Min(x: int, y: int): int { if x <= y then x else y }
  function Max(x: int, y: int): int { if x <= y then y else x }

  /** `a` lies inside `outer` on every axis (an empty box lies inside anything). */
  predicate Within(a: Box, outer: Box) {
    a.Empty? ||
    (outer.Box? &&
     outer.minX <= a.minX && outer.minY <= a.minY && outer.minZ <= a.minZ &&
     a.maxX <= outer.maxX && a.maxY <= outer.maxY && a.maxZ <= outer.maxZ)
  }

  /** BoundingBox#add of a box: the smallest box holding both. */
  function Union(a: Box, b: Box): (u: Box)
    ensures Within(a, u) && Within(b, u)
    ensures forall outer: Box :: Within(a, outer) && Within(b, outer) ==> Within(u, outer)
    ensures u.Empty? <==> a.Empty? && b.Empty?
  {
    if a.Empty? then b
    else if b.Empty? then a
    else Box(Min(a.minX, b.minX), Min(a.minY, b.minY), Min(a.minZ, b.minZ),
             Max(a.maxX, b.maxX), Max(a.maxY, b.maxY), Max(a.maxZ, b.maxZ))
  }

  /**
   * An entity of a SketchUp entities collection. `visible` is Drawingelement#visible?,
   * `layerVisible` is the visibility of the entity's layer. `Other` stands for every
   * other entity class (edges, texts, ...); `drawingElement` says whether its class
   * derives from Sketchup::Drawingelement.
   */
  datatype Node =
    | Face(visible: bool, layerVisible: bool, material: Option<Material>, bounds: Box)
    | Group(visible: bool, layerVisible: bool, material: Option<Material>, entities: seq<Node>)
    | Instance(visible: bool, layerVisible: bool, material: Option<Material>,
               definition: Definition, entityId: int)
    | Other(visible: bool, layerVisible: bool, material: Option<Material>, drawingElement: bool)

  /** A ComponentDefinition: its name (the definition id) and its own entities. */
  datatype Definition = Definition(name: string, entities: seq<Node>)

  /** Sketchup::Face, Group and ComponentInstance are all Drawingelements. */
  predicate IsDrawingElement(e: Node) {
    !e.Other? || e.drawingElement
  }

  /** An instance path: the chain of entities from the traversal root to one placement. */
  type Path = seq<Node>

  function Last(p: Path): Node
    requires |p| > 0
  {
    p[|p| - 1]
  }
}
