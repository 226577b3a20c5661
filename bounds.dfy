/**
 * The faces bounds of a definition: the union of the bounds of its faces,
 * reached through nested groups only (component instances are not entered,
 * and visibility plays no part).
 */
module Bounds {
  import opened Scene

  /** The box one entity adds: a face its bounds, a group the bounds of its faces. */
  function Contribution(e: Node): Box
    decreases e, 1
  {
    match e
    case Face(_, _, _, b) => b
    case Group(_, _, _, children) => FacesBounds(children)
    case Instance(_, _, _, _, _) => Empty
    case Other(_, _, _, _) => Empty
  }

  /** The box grown entity by entity in collection order. */
  function FacesBounds(es: seq<Node>): Box
    decreases es, 0
  {
    if es == [] then Empty
    else Union(FacesBounds(es[..|es| - 1]), Contribution(es[|es| - 1]))
  }

  /** Reference definition: the face boxes reached through groups, in order. */
  function ReachedBoxes(e: Node): seq<Box>
    decreases e, 1
  {
    match e
    case Face(_, _, _, b) => [b]
    case Group(_, _, _, children) => ReachedBoxesAll(children)
    case Instance(_, _, _, _, _) => []
    case Other(_, _, _, _) => []
  }

  function ReachedBoxesAll(es: seq<Node>): seq<Box>
    decreases es, 0
  {
    if es == [] then []
    else ReachedBoxesAll(es[..|es| - 1]) + ReachedBoxes(es[|es| - 1])
  }

  /** Every face box reached lies inside the faces bounds. */
  lemma {:induction false} FacesBoundsCovers(es: seq<Node>)
    ensures forall b :: b in ReachedBoxesAll(es) ==> Within(b, FacesBounds(es))
    decreases es, 0
  {
    if es != [] {
      var init, e := es[..|es| - 1], es[|es| - 1];
      FacesBoundsCovers(init);
      ContributionCovers(e);
      forall b | b in ReachedBoxesAll(es)
        ensures Within(b, FacesBounds(es))
      {
        var u := FacesBounds(es);
        assert u == Union(FacesBounds(init), Contribution(e));
        if b in ReachedBoxesAll(init) {
          WithinTrans(b, FacesBounds(init), u);
        } else {
          assert b in ReachedBoxes(e);
          WithinTrans(b, Contribution(e), u);
        }
      }
    }
  }

  lemma {:induction false} ContributionCovers(e: Node)
    ensures forall b :: b in ReachedBoxes(e) ==> Within(b, Contribution(e))
    decreases e, 1
  {
    match e
    case Face(_, _, _, b) =>
    case Group(_, _, _, children) => FacesBoundsCovers(children);
    case Instance(_, _, _, _, _) =>
    case Other(_, _, _, _) =>
  }

  /** The faces bounds is the least box holding every reached face box. */
  lemma {:induction false} FacesBoundsLeast(es: seq<Node>, outer: Box)
    requires forall b :: b in ReachedBoxesAll(es) ==> Within(b, outer)
    ensures Within(FacesBounds(es), outer)
    decreases es, 0
  {
    if es != [] {
      var init, e := es[..|es| - 1], es[|es| - 1];
      FacesBoundsLeast(init, outer);
      ContributionLeast(e, outer);
    }
  }

  lemma {:induction false} ContributionLeast(e: Node, outer: Box)
    requires forall b :: b in ReachedBoxes(e) ==> Within(b, outer)
    ensures Within(Contribution(e), outer)
    decreases e, 1
  {
    match e
    case Face(_, _, _, b) =>
    case Group(_, _, _, children) => FacesBoundsLeast(children, outer);
    case Instance(_, _, _, _, _) =>
    case Other(_, _, _, _) =>
  }

  lemma WithinTrans(a: Box, b: Box, c: Box)
    requires Within(a, b) && Within(b, c)
    ensures Within(a, c)
  {
  }

  /** Union does not depend on the order in which boxes are added. */
  lemma UnionCommutes(a: Box, b: Box, c: Box)
    ensures Union(a, b) == Union(b, a)
    ensures Union(Union(a, b), c) == Union(a, Union(b, c))
  {
  }

  /** `_compute_faces_bounds`: the loop growing `bounds` over the definition's entities. */
  method ComputeFacesBounds(es: seq<Node>) returns (bounds: Box)
    ensures bounds == FacesBounds(es)
    decreases es
  {
    bounds := Empty;
    var i := 0;
    while i < |es|
      invariant 0 <= i <= |es|
      invariant bounds == FacesBounds(es[..i])
    {
      var entity := es[i];
      assert es[..i + 1][..i] == es[..i];
      if entity.Face? {
        bounds := Union(bounds, entity.bounds);
      } else if entity.Group? {
        assert entity in es;
        var sub := ComputeFacesBounds(entity.entities);
        bounds := Union(bounds, sub);
      }
      i := i + 1;
    }
    assert es[..|es|] == es;
  }
}
