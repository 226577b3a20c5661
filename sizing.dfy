/**
 * Stock sizing: the part size taken from a bounding box, and the thickness
 * snapped against a material's list of standard thicknesses.
 */
module Sizing {
  import opened Scene

  /** model/size: length, width, thickness. */
  datatype Size = Size(length: int, width: int, thickness: int)

  /** `_size_from_bounds`: with auto orientation the extents sorted, longest first. */
  function SizeFromBounds(b: Box, autoOrient: bool): (s: Size)
    ensures autoOrient ==>
      s.length >= s.width >= s.thickness &&
      multiset{s.length, s.width, s.thickness} == multiset{Width(b), Height(b), Depth(b)}
    ensures !autoOrient ==> s == Size(Width(b), Height(b), Depth(b))
  {
    var w, h, d := Width(b), Height(b), Depth(b);
    if !autoOrient then Size(w, h, d)
    else
      var lo := Min(w, Min(h, d));
      var hi := Max(w, Max(h, d));
      var mid := w + h + d - lo - hi;
      Size(hi, mid, lo)
  }

  /** The result of `_find_std_thickness`: `:value` and `:available`. */
  datatype StdThickness = StdThickness(available: bool, value: int)

  /** Reference definition of the scan: the first standard thickness not below `thickness` decides. */
  function StdThicknessOf(thickness: int, stds: seq<int>, nearestHighest: bool): StdThickness
  {
    if stds == [] then StdThickness(false, thickness)
    else if thickness <= stds[0] then
      (if nearestHighest then StdThickness(true, stds[0])
       else StdThickness(thickness == stds[0], thickness))
    else StdThicknessOf(thickness, stds[1..], nearestHighest)
  }

  /** `k` is the first position whose standard thickness is not below `thickness`. */
  predicate FirstFit(thickness: int, stds: seq<int>, k: int) {
    0 <= k < |stds| && thickness <= stds[k] &&
    forall j :: 0 <= j < k ==> stds[j] < thickness
  }

  /**
   * The standardised thickness: the first fitting entry with `nearestHighest`
   * (available), otherwise the thickness itself (available iff it equals that
   * entry); without a fitting entry the thickness itself, not available. It is
   * never below the thickness it was given.
   */
  lemma {:induction false} StdThicknessFirstMatch(thickness: int, stds: seq<int>, nearestHighest: bool)
    ensures var r := StdThicknessOf(thickness, stds, nearestHighest);
      r.value >= thickness &&
      (forall k :: FirstFit(thickness, stds, k) ==>
         r == (if nearestHighest then StdThickness(true, stds[k])
               else StdThickness(thickness == stds[k], thickness))) &&
      ((forall j :: 0 <= j < |stds| ==> stds[j] < thickness) ==> r == StdThickness(false, thickness))
  {
    if stds != [] && stds[0] < thickness {
      StdThicknessFirstMatch(thickness, stds[1..], nearestHighest);
      forall k | FirstFit(thickness, stds, k)
        ensures FirstFit(thickness, stds[1..], k - 1)
      {
        assert k != 0;
        forall j | 0 <= j < k - 1 ensures stds[1..][j] < thickness {
          assert stds[1..][j] == stds[j + 1];
        }
      }
      forall j | 0 <= j < |stds[1..]|
        ensures (forall i :: 0 <= i < |stds| ==> stds[i] < thickness) ==> stds[1..][j] < thickness
      {
        assert stds[1..][j] == stds[j + 1];
      }
    } else if stds != [] {
      forall k | FirstFit(thickness, stds, k) ensures k == 0 {
      }
    }
  }

  /** The standard thickness is never below the thickness asked for. */
  lemma {:induction false} StdThicknessNotBelow(thickness: int, stds: seq<int>, nearestHighest: bool)
    ensures StdThicknessOf(thickness, stds, nearestHighest).value >= thickness
  {
    if stds != [] && stds[0] < thickness {
      StdThicknessNotBelow(thickness, stds[1..], nearestHighest);
    }
  }

  /** An available thickness is one of the standard thicknesses. */
  lemma {:induction false} StdThicknessAvailable(thickness: int, stds: seq<int>, nearestHighest: bool)
    ensures StdThicknessOf(thickness, stds, nearestHighest).available ==>
      StdThicknessOf(thickness, stds, nearestHighest).value in stds
  {
    if stds != [] && stds[0] < thickness {
      StdThicknessAvailable(thickness, stds[1..], nearestHighest);
    }
  }

  /** `_find_std_thickness`: the scan with early return. */
  method FindStdThickness(thickness: int, stdThicknesses: seq<int>, nearestHighest: bool)
    returns (r: StdThickness)
    ensures r == StdThicknessOf(thickness, stdThicknesses, nearestHighest)
  {
    var i := 0;
    while i < |stdThicknesses|
      invariant 0 <= i <= |stdThicknesses|
      invariant StdThicknessOf(thickness, stdThicknesses, nearestHighest)
             == StdThicknessOf(thickness, stdThicknesses[i..], nearestHighest)
    {
      var stdThickness := stdThicknesses[i];
      if thickness <= stdThickness {
        if nearestHighest {
          return StdThickness(true, stdThickness);
        } else {
          return StdThickness(thickness == stdThickness, thickness);
        }
      }
      assert stdThicknesses[i..][1..] == stdThicknesses[i + 1..];
      i := i + 1;
    }
    return StdThickness(false, thickness);
  }

  /** The example table [6, 12, 18, 25] with and without nearest-highest. */
  lemma StdThicknessExamples()
    ensures StdThicknessOf(10, [6, 12, 18, 25], true) == StdThickness(true, 12)
    ensures StdThicknessOf(30, [6, 12, 18, 25], true) == StdThickness(false, 30)
    ensures StdThicknessOf(18, [6, 12, 18, 25], true) == StdThickness(true, 18)
    ensures StdThicknessOf(10, [6, 12, 18, 25], false) == StdThickness(false, 10)
    ensures StdThicknessOf(12, [6, 12, 18, 25], false) == StdThickness(true, 12)
  {
    var t := [6, 12, 18, 25];
    assert t[1..] == [12, 18, 25] && t[1..][1..] == [18, 25];
    assert t[1..][1..][1..] == [25] && t[1..][1..][1..][1..] == [];
  }
}
