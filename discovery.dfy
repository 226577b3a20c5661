/**
 * Component discovery (`_fetch_useful_component_paths`): a depth-first walk
 * that records the instance paths of the components that bound solid
 * geometry and returns, up the recursion, the number of visible faces that
 * no recorded component has claimed yet.
 */
module Discovery {
  import opened Scene
  import opened Bounds

  /** What the walk of one subtree yields: unclaimed face count and recorded paths. */
  datatype Found = Found(faceCount: nat, paths: seq<Path>)

  /** Strictly positive width, height and depth. */
  predicate Solid(b: Box) {
    Width(b) > 0 && Height(b) > 0 && Depth(b) > 0
  }

  /** A recordable path: it ends with an instance whose definition's faces bounds are solid. */
  predicate Useful(p: Path) {
    |p| > 0 && Last(p).Instance? && Solid(FacesBounds(Last(p).definition.entities))
  }

  /** `p` is `prefix` followed by at least one more entity. */
  predicate Extends(p: Path, prefix: Path) {
    |prefix| < |p| && p[..|prefix|] == prefix
  }

  predicate Shown(e: Node) {
    e.visible && e.layerVisible
  }

  /** Reference definition of the walk over one entity, reached with instance path `path`. */
  function Discover(e: Node, path: Path): (r: Found)
    ensures forall p :: p in r.paths ==> Useful(p) && Extends(p, path) && p[|path|] == e
    decreases e, 1
  {
    if !Shown(e) then Found(0, [])
    else match e
      case Face(_, _, _, _) => Found(1, [])
      case Group(_, _, _, children) =>
        var r := DiscoverAll(children, path + [e]);
        ExtendsOneMore(r.paths, path, e);
        r
      case Instance(_, _, _, def, _) =>
        var inner := DiscoverAll(def.entities, path + [e]);
        ExtendsOneMore(inner.paths, path, e);
        if inner.faceCount > 0 && Solid(FacesBounds(def.entities))
        then Found(0, inner.paths + [path + [e]])
        else inner
      case Other(_, _, _, _) => Found(0, [])
  }

  /** The walk over a collection, entity by entity, summing counts and concatenating paths. */
  function DiscoverAll(es: seq<Node>, path: Path): (r: Found)
    ensures forall p :: p in r.paths ==> Useful(p) && Extends(p, path) && p[|path|] in es
    decreases es, 0
  {
    if es == [] then Found(0, [])
    else
      var a := DiscoverAll(es[..|es| - 1], path);
      var b := Discover(es[|es| - 1], path);
      Found(a.faceCount + b.faceCount, a.paths + b.paths)
  }

  lemma ExtendsOneMore(ps: seq<Path>, path: Path, e: Node)
    requires forall p :: p in ps ==> Extends(p, path + [e])
    ensures forall p :: p in ps ==> Extends(p, path) && p[|path|] == e
  {
    forall p | p in ps
      ensures Extends(p, path) && p[|path|] == e
    {
      assert p[..|path| + 1] == path + [e];
      assert p[..|path|] == p[..|path| + 1][..|path|];
    }
  }

  /** `_fetch_useful_component_paths(entity, component_paths, path)`. */
  method FetchUsefulComponentPaths(entity: Node, componentPaths: seq<Path>, path: Path)
    returns (childFaceCount: nat, paths: seq<Path>)
    ensures childFaceCount == Discover(entity, path).faceCount
    ensures paths == componentPaths + Discover(entity, path).paths
    decreases entity, 1
  {
    childFaceCount := 0;
    paths := componentPaths;
    if entity.visible && entity.layerVisible {
      if entity.Group? {
        childFaceCount, paths := FetchChildren(entity.entities, paths, path + [entity]);
      } else if entity.Instance? {
        childFaceCount, paths := FetchChildren(entity.definition.entities, paths, path + [entity]);
        if childFaceCount > 0 {
          var bounds := ComputeFacesBounds(entity.definition.entities);
          if Width(bounds) > 0 && Height(bounds) > 0 && Depth(bounds) > 0 {
            paths := paths + [path + [entity]];
            childFaceCount := 0;
          }
        }
      } else if entity.Face? {
        childFaceCount := 1;
      }
    }
  }

  /** The `entities.each { ... child_face_count += ... }` loop shared by groups and instances. */
  method FetchChildren(es: seq<Node>, componentPaths: seq<Path>, path: Path)
    returns (childFaceCount: nat, paths: seq<Path>)
    ensures childFaceCount == DiscoverAll(es, path).faceCount
    ensures paths == componentPaths + DiscoverAll(es, path).paths
    decreases es, 0
  {
    childFaceCount := 0;
    paths := componentPaths;
    var i := 0;
    while i < |es|
      invariant 0 <= i <= |es|
      invariant childFaceCount == DiscoverAll(es[..i], path).faceCount
      invariant paths == componentPaths + DiscoverAll(es[..i], path).paths
    {
      assert es[..i + 1][..i] == es[..i];
      assert es[i] in es;
      var count;
      count, paths := FetchUsefulComponentPaths(es[i], paths, path);
      childFaceCount := childFaceCount + count;
      i := i + 1;
    }
    assert es[..|es|] == es;
  }

  /** Reference count: the visible faces of a subtree, through groups and instances. */
  function VisibleFaces(e: Node): nat
    decreases e, 1
  {
    if !Shown(e) then 0
    else match e
      case Face(_, _, _, _) => 1
      case Group(_, _, _, children) => VisibleFacesAll(children)
      case Instance(_, _, _, def, _) => VisibleFacesAll(def.entities)
      case Other(_, _, _, _) => 0
  }

  function VisibleFacesAll(es: seq<Node>): nat
    decreases es, 0
  {
    if es == [] then 0 else VisibleFacesAll(es[..|es| - 1]) + VisibleFaces(es[|es| - 1])
  }

  /**
   * Face credit is never invented: the returned count is at most the visible faces
   * of the subtree, and it is all of them when no component in it was recorded.
   */
  lemma {:induction false} FaceCountBound(e: Node, path: Path)
    ensures Discover(e, path).faceCount <= VisibleFaces(e)
    ensures Discover(e, path).paths == [] ==> Discover(e, path).faceCount == VisibleFaces(e)
    decreases e, 1
  {
    if Shown(e) {
      match e
      case Face(_, _, _, _) =>
      case Group(_, _, _, children) => FaceCountBoundAll(children, path + [e]);
      case Instance(_, _, _, def, _) => FaceCountBoundAll(def.entities, path + [e]);
      case Other(_, _, _, _) =>
    }
  }

  lemma {:induction false} FaceCountBoundAll(es: seq<Node>, path: Path)
    ensures DiscoverAll(es, path).faceCount <= VisibleFacesAll(es)
    ensures DiscoverAll(es, path).paths == [] ==> DiscoverAll(es, path).faceCount == VisibleFacesAll(es)
    decreases es, 0
  {
    if es != [] {
      FaceCountBoundAll(es[..|es| - 1], path);
      FaceCountBound(es[|es| - 1], path);
    }
  }

  /**
   * An instance records its own path exactly when it is shown, its children left
   * face credit and its faces bounds are solid; the path then comes after every
   * path recorded inside it, and all of those lie below it.
   */
  lemma InstanceRecorded(e: Node, path: Path)
    requires e.Instance?
    ensures var inner := DiscoverAll(e.definition.entities, path + [e]);
      (path + [e] in Discover(e, path).paths) <==>
      (Shown(e) && inner.faceCount > 0 && Solid(FacesBounds(e.definition.entities)))
    ensures var r := Discover(e, path);
      path + [e] in r.paths ==>
        r.paths[|r.paths| - 1] == path + [e] &&
        forall i :: 0 <= i < |r.paths| - 1 ==> Extends(r.paths[i], path + [e])
    ensures var r, inner := Discover(e, path), DiscoverAll(e.definition.entities, path + [e]);
      r.faceCount == (if path + [e] in r.paths then 0 else if Shown(e) then inner.faceCount else 0)
    ensures var r, inner := Discover(e, path), DiscoverAll(e.definition.entities, path + [e]);
      Shown(e) ==> r.paths == inner.paths + (if path + [e] in r.paths then [path + [e]] else [])
  {
    var inner := DiscoverAll(e.definition.entities, path + [e]);
    assert forall p :: p in inner.paths ==> |p| > |path + [e]|;
  }

  /** `_fetch_useful_component_paths` on a hidden entity, a face and a group. */
  lemma DiscoverBasics(e: Node, path: Path)
    ensures !Shown(e) ==> Discover(e, path) == Found(0, [])
    ensures Shown(e) && e.Face? ==> Discover(e, path) == Found(1, [])
    ensures Shown(e) && e.Group? ==> Discover(e, path) == DiscoverAll(e.entities, path + [e])
    ensures Shown(e) && e.Other? ==> Discover(e, path) == Found(0, [])
  {
  }

  /**
   * A recorded component does not hide an enclosing one: an instance with a face
   * of its own wrapped around a qualifying nested instance is recorded too, after it,
   * so one recorded path can be a prefix of another.
   */
  lemma AncestorAlsoRecorded()
    ensures
      var solidFace := Face(true, true, None, Box(0, 0, 0, 1, 1, 1));
      var inner := Instance(true, true, None, Definition("drawer", [solidFace]), 2);
      var outer := Instance(true, true, None, Definition("cabinet", [solidFace, inner]), 1);
      Discover(outer, []).paths == [[outer, inner], [outer]]
  {
    var solidFace := Face(true, true, None, Box(0, 0, 0, 1, 1, 1));
    var inner := Instance(true, true, None, Definition("drawer", [solidFace]), 2);
    var outer := Instance(true, true, None, Definition("cabinet", [solidFace, inner]), 1);
    assert [solidFace, inner][..1] == [solidFace];
    assert [solidFace][..0] == [];
    assert FacesBounds([solidFace]) == Box(0, 0, 0, 1, 1, 1);
    assert [outer] + [inner] == [outer, inner];
    assert Discover(solidFace, [outer, inner]) == Found(1, []);
    assert DiscoverAll([solidFace], [outer, inner]) == Found(1, []);
    assert Discover(inner, [outer]).paths == [[outer, inner]];
    assert Discover(solidFace, [outer]) == Found(1, []);
    assert DiscoverAll([solidFace], [outer]) == Found(1, []);
    assert DiscoverAll([solidFace, inner], [outer]) == Found(1, [[outer, inner]]);
    assert [] + [outer] == [outer];
    assert FacesBounds([solidFace, inner]) == Box(0, 0, 0, 1, 1, 1);
  }
}
