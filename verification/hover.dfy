/** The hover test of `mouseMoveEvent`: which point, if any, the cursor is
    over. Distances are compared squared, which for integer coordinates
    orders them exactly as the square roots do. */
module Hover {
  import opened Shapes

  /** A point counts as hovered when it is closer than this many pixels. */
  const Radius := 10

  /** The squared distance between point p, taken relative to the window
      whose origin is at (windowX, windowY), and the cursor at (ex, ey) in
      window coordinates. */
  function DistSq(p: Point, windowX: int, windowY: int, ex: int, ey: int): (r: int)
    ensures r >= 0
  {
    var dx := (p.x - windowX) - ex;
    var dy := (p.y - windowY) - ey;
    dx * dx + dy * dy
  }

  /** The squared distances of all points from the cursor, in order. */
  function Distances(ps: seq<Point>, windowX: int, windowY: int, ex: int, ey: int): (ds: seq<int>)
    ensures |ds| == |ps|
    ensures forall i :: 0 <= i < |ps| ==> ds[i] == DistSq(ps[i], windowX, windowY, ex, ey)
  {
    seq(|ps|, i requires 0 <= i < |ps| => DistSq(ps[i], windowX, windowY, ex, ey))
  }

  /** k is the first index at which ds takes its least value. */
  predicate IsFirstMin(ds: seq<int>, k: int) {
    && 0 <= k < |ds|
    && (forall j :: 0 <= j < |ds| ==> ds[k] <= ds[j])
    && (forall j :: 0 <= j < k ==> ds[k] < ds[j])
  }

  /** The index the scan with a strict `<` ends on: a later value replaces
      the current best only when it is strictly smaller. */
  function FirstMin(ds: seq<int>): (k: nat)
    requires |ds| > 0
    ensures k < |ds|
  {
    if |ds| == 1 then 0
    else
      var k := FirstMin(ds[..|ds| - 1]);
      if ds[|ds| - 1] < ds[k] then |ds| - 1 else k
  }

  /** The strict scan finds the first minimum. */
  lemma {:induction false} FirstMinIsFirst(ds: seq<int>)
    requires |ds| > 0
    ensures IsFirstMin(ds, FirstMin(ds))
  {
    if |ds| > 1 {
      var init := ds[..|ds| - 1];
      FirstMinIsFirst(init);
      assert forall j :: 0 <= j < |init| ==> init[j] == ds[j];
    }
  }

  /** There is only one first minimum. */
  lemma FirstMinUnique(ds: seq<int>, k: int, k': int)
    requires IsFirstMin(ds, k) && IsFirstMin(ds, k')
    ensures k == k'
  {
    assert ds[k] == ds[k'];
  }

  /** The point kept as hovered: the first nearest one, if it is within
      the radius; none otherwise, and none when there are no points. */
  function Selection(ds: seq<int>): Option<nat> {
    if |ds| == 0 then None
    else
      var k := FirstMin(ds);
      if ds[k] < Radius * Radius then Some(k) else None
  }

  /** The selection is the first nearest point exactly when that point is
      within the radius, and there is none exactly when every point is at
      least the radius away. */
  lemma SelectionSpec(ds: seq<int>)
    ensures Selection(ds).None? <==> forall j :: 0 <= j < |ds| ==> ds[j] >= Radius * Radius
    ensures Selection(ds).Some? ==>
              IsFirstMin(ds, Selection(ds).value) && ds[Selection(ds).value] < Radius * Radius
    ensures forall k :: IsFirstMin(ds, k) && ds[k] < Radius * Radius ==> Selection(ds) == Some(k)
  {
    if |ds| > 0 {
      FirstMinIsFirst(ds);
      forall k | IsFirstMin(ds, k) && ds[k] < Radius * Radius
        ensures Selection(ds) == Some(k)
      {
        FirstMinUnique(ds, k, FirstMin(ds));
      }
    }
  }
}
