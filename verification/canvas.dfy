/** The overlay window: the three points O, A and B, the point under the
    cursor, whether it is being dragged, and the window rectangle, with
    the mouse handlers that update them. Points are in screen
    coordinates; mouse events arrive in window coordinates. */
module Overlay {
  import opened Shapes
  import AutoFit
  import Hover

  class Canvas {
    /** O, A and B, in that order. */
    var points: seq<Point>
    /** The index of the point under the cursor, if any. */
    var closest: Option<nat>
    /** Whether the selected point follows the cursor. */
    var isMoving: bool
    /** The window's rectangle on the screen. */
    var geometry: Rect

    /** There are three points, a selection names one of them, and a drag
        always has a point to move. */
    ghost predicate Valid()
      reads this
    {
      && |points| == 3
      && (closest.Some? ==> closest.value < |points|)
      && (isMoving ==> closest.Some?)
    }

    /** The squared cursor distances of the points, as the hover test sees
        them from the current window position. */
    function HoverDistances(ex: int, ey: int): (ds: seq<int>)
      reads this
      ensures |ds| == |points|
      ensures forall i :: 0 <= i < |points| ==>
                ds[i] == Hover.DistSq(points[i], geometry.x, geometry.y, ex, ey)
    {
      Hover.Distances(points, geometry.x, geometry.y, ex, ey)
    }

    /** The window starts around O = (200, 200), A = (100, 100) and
        B = (300, 300), with nothing selected or dragged. */
    constructor(screenW: int, screenH: int)
      ensures Valid()
      ensures points == [Point(200, 200), Point(100, 100), Point(300, 300)]
      ensures closest == None && !isMoving
      ensures geometry == AutoFit.ScreenGeometry(points, screenW, screenH)
    {
      points := [Point(200, 200), Point(100, 100), Point(300, 300)];
      closest := None;
      isMoving := false;
      geometry := Rect(0, 0, 0, 0);
      new;
      geometry := GetScreenGeometry(screenW, screenH);
    }

    /** The scan for the extreme coordinates, then padding and clamping:
        the result is the auto-fit rectangle of the current points. */
    method GetScreenGeometry(screenW: int, screenH: int) returns (r: Rect)
      ensures r == AutoFit.ScreenGeometry(points, screenW, screenH)
    {
      var maxX, maxY := -1, -1;
      var minX, minY := screenW, screenH;
      var i := 0;
      while i < |points|
        invariant 0 <= i <= |points|
        invariant AutoFit.Bounds(minX, minY, maxX, maxY)
                  == AutoFit.Scan(points[..i], screenW, screenH)
      {
        var p := points[i];
        if p.x > maxX {
          maxX := p.x;
        }
        if p.y > maxY {
          maxY := p.y;
        }
        if p.x < minX {
          minX := p.x;
        }
        if p.y < minY {
          minY := p.y;
        }
        assert points[..i + 1][..i] == points[..i];
        i := i + 1;
      }
      assert points[..i] == points;
      minX := Max(0, minX - AutoFit.Padding);
      minY := Max(0, minY - AutoFit.Padding);
      maxX := Min(screenW - 1, maxX + AutoFit.Padding);
      maxY := Min(screenH - 1, maxY + AutoFit.Padding);
      r := Rect(minX, minY, maxX - minX, maxY - minY);
    }

    /** Without a drag, the cursor selects the first nearest point when it
        is within the hover radius, and nothing otherwise; nothing else
        changes. During a drag, the selected point moves to the cursor's
        screen position, nothing else about the points changes, and the
        window is refitted around them. */
    method MouseMove(ex: int, ey: int, screenW: int, screenH: int)
      requires Valid()
      modifies this
      ensures Valid()
      ensures isMoving == old(isMoving)
      ensures !old(isMoving) ==>
                && closest == Hover.Selection(old(HoverDistances(ex, ey)))
                && points == old(points) && geometry == old(geometry)
      ensures old(isMoving) ==>
                && closest == old(closest)
                && points == old(points)[old(closest).value :=
                                          Point(ex + old(geometry.x), ey + old(geometry.y))]
                && geometry == AutoFit.ScreenGeometry(points, screenW, screenH)
    {
      if !isMoving {
        ghost var ds := HoverDistances(ex, ey);
        var minDist: Option<int> := None;
        var i := 0;
        while i < |points|
          invariant 0 <= i <= |points|
          invariant ds == HoverDistances(ex, ey)
          invariant points == old(points) && geometry == old(geometry) && !isMoving
          invariant i == 0 ==> minDist == None && closest == old(closest)
          invariant i > 0 ==> && closest == Some(Hover.FirstMin(ds[..i]))
                              && minDist == Some(ds[Hover.FirstMin(ds[..i])])
        {
          var dist := Hover.DistSq(points[i], geometry.x, geometry.y, ex, ey);
          assert ds[..i + 1][..i] == ds[..i];
          assert ds[..i + 1][i] == dist;
          if minDist.None? || dist < minDist.value {
            minDist := Some(dist);
            closest := Some(i);
          }
          i := i + 1;
        }
        assert ds[..i] == ds;
        if !(minDist.Some? && minDist.value < Hover.Radius * Hover.Radius) {
          closest := None;
        }
      } else {
        var k := closest.value;
        points := points[k := Point(ex + geometry.x, ey + geometry.y)];
        geometry := GetScreenGeometry(screenW, screenH);
      }
    }

    /** A left press over a selected point starts a drag; any other press
        changes nothing. */
    method MousePress(leftButton: bool)
      requires Valid()
      modifies this
      ensures Valid()
      ensures isMoving == (old(isMoving) || (closest.Some? && leftButton))
      ensures points == old(points) && closest == old(closest) && geometry == old(geometry)
    {
      if closest.Some? && leftButton {
        isMoving := true;
      }
    }

    /** Releasing any button ends the drag. */
    method MouseRelease()
      requires Valid()
      modifies this
      ensures Valid()
      ensures !isMoving
      ensures points == old(points) && closest == old(closest) && geometry == old(geometry)
    {
      if isMoving {
        isMoving := false;
      }
    }
  }
}
