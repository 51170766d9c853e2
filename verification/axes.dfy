/** Where the highlighted axes land after the grid is redrawn. The grid sweep
    visits the gridlines 0, boxWidth, 2*boxWidth, ... below the canvas extent and
    keeps the LAST one lying less than one box past the canvas midpoint. */
module Axes {

  /** The k-th gridline, k boxes from the canvas edge. */
  function Gridline(k: nat, boxWidth: real): real
  {
    k as real * boxWidth
  }

  /** The sweep's test: the line is on the canvas and less than one box past its midpoint. */
  predicate SnapCandidate(x: real, extent: real, boxWidth: real)
  {
    x < extent && x - extent / 2.0 < boxWidth
  }

  /** `a` is the gridline the sweep settles on: a gridline that passes the test
      while the next gridline does not. */
  ghost predicate IsAxisSnap(a: real, extent: real, boxWidth: real)
  {
    && (exists k: nat :: a == Gridline(k, boxWidth))
    && SnapCandidate(a, extent, boxWidth)
    && !SnapCandidate(a + boxWidth, extent, boxWidth)
  }

  lemma GridlineNext(k: nat, boxWidth: real)
    ensures Gridline(k + 1, boxWidth) == Gridline(k, boxWidth) + boxWidth
  {
  }

  /** Gridlines are ordered as their indices are. */
  lemma GridlineOrder(j: nat, k: nat, boxWidth: real)
    requires boxWidth > 0.0
    ensures j <= k <==> Gridline(j, boxWidth) <= Gridline(k, boxWidth)
  {
  }

  /** Every index the sweep visits lies below a bound fixed before the loop starts. */
  lemma SweepIndexBound(k: nat, extent: real, boxWidth: real)
    requires boxWidth > 0.0 && Gridline(k, boxWidth) < extent
    ensures k <= (extent / boxWidth).Floor
  {
    var r := extent / boxWidth;
    assert r * boxWidth == extent;
    assert k as real * boxWidth < r * boxWidth;
  }

  /** The `for` loop of drawGrid for one axis: sweep the gridlines below `extent`
      and keep the last one that passes the test; the axis keeps `current` when
      the canvas has no extent in that direction. */
  method SnapAxis(extent: nat, boxWidth: real, current: real) returns (axis: real)
    requires boxWidth > 0.0
    ensures extent > 0 ==> IsAxisSnap(axis, extent as real, boxWidth)
    ensures extent == 0 ==> axis == current
  {
    axis := current;
    var x := 0.0;
    ghost var k: nat := 0;
    ghost var j: nat := 0;
    while x < extent as real
      invariant x == Gridline(k, boxWidth)
      invariant k == 0 ==> axis == current
      invariant k > 0 ==> axis == Gridline(j, boxWidth) && SnapCandidate(axis, extent as real, boxWidth)
      invariant k > 0 ==> axis + boxWidth <= x
      invariant k > 0 ==> axis + boxWidth == x || !SnapCandidate(axis + boxWidth, extent as real, boxWidth)
      decreases (extent as real / boxWidth).Floor + 1 - k
    {
      SweepIndexBound(k, extent as real, boxWidth);
      if x - extent as real / 2.0 < boxWidth {
        axis := x;
        j := k;
      }
      GridlineNext(k, boxWidth);
      x := x + boxWidth;
      k := k + 1;
    }
  }

  /** Last match wins: every gridline that passes the sweep's test lies at or before the snapped axis. */
  lemma {:induction false} SnapIsLastMatch(a: real, extent: real, boxWidth: real, m: nat)
    requires boxWidth > 0.0
    requires IsAxisSnap(a, extent, boxWidth)
    requires SnapCandidate(Gridline(m, boxWidth), extent, boxWidth)
    ensures Gridline(m, boxWidth) <= a
  {
    var k: nat :| a == Gridline(k, boxWidth);
    // the test is closed downwards, so the failing line a + boxWidth lies past every passing one
    assert Gridline(m, boxWidth) < a + boxWidth;
    GridlineNext(k, boxWidth);
    GridlineOrder(k + 1, m, boxWidth);
    GridlineOrder(m, k, boxWidth);
  }

  /** The test and the "next line fails" condition pin the snapped axis down uniquely. */
  lemma SnapIsUnique(a: real, b: real, extent: real, boxWidth: real)
    requires boxWidth > 0.0
    requires IsAxisSnap(a, extent, boxWidth) && IsAxisSnap(b, extent, boxWidth)
    ensures a == b
  {
    var ka: nat :| a == Gridline(ka, boxWidth);
    var kb: nat :| b == Gridline(kb, boxWidth);
    SnapIsLastMatch(a, extent, boxWidth, kb);
    SnapIsLastMatch(b, extent, boxWidth, ka);
  }

  /** On a canvas at least two boxes wide the axis is the first gridline at or
      after the midpoint, not necessarily the nearest one. */
  lemma SnapAtOrAfterMidpoint(a: real, extent: real, boxWidth: real)
    requires boxWidth > 0.0 && extent >= 2.0 * boxWidth
    requires IsAxisSnap(a, extent, boxWidth)
    ensures extent / 2.0 <= a < extent / 2.0 + boxWidth
  {
  }
}
