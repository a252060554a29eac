/** The window auto-fit of `Canvas.getScreenGeometry`: the bounding box of
    the points, padded on every side and clamped to the screen. */
module AutoFit {
  import opened Shapes

  /** How far the window reaches beyond the outermost points. */
  const Padding := 60

  /** The four running bounds of the scan over the points. */
  datatype Bounds = Bounds(minX: int, minY: int, maxX: int, maxY: int)

  /** The bounds before any point is seen: the minima start at the screen
      size and the maxima at -1. */
  function Initial(screenW: int, screenH: int): Bounds {
    Bounds(screenW, screenH, -1, -1)
  }

  /** One step of the scan, with its four strict comparisons. */
  function Include(b: Bounds, p: Point): Bounds {
    Bounds(if p.x < b.minX then p.x else b.minX,
           if p.y < b.minY then p.y else b.minY,
           if p.x > b.maxX then p.x else b.maxX,
           if p.y > b.maxY then p.y else b.maxY)
  }

  /** The bounds after scanning the points in order. */
  function Scan(ps: seq<Point>, screenW: int, screenH: int): Bounds {
    if |ps| == 0 then Initial(screenW, screenH)
    else Include(Scan(ps[..|ps| - 1], screenW, screenH), ps[|ps| - 1])
  }

  /** b holds the extreme coordinates of the points, each compared with the
      initial value that the scan starts from. */
  predicate Extremes(b: Bounds, ps: seq<Point>, screenW: int, screenH: int) {
    && b.minX <= screenW && b.minY <= screenH && b.maxX >= -1 && b.maxY >= -1
    && (forall p | p in ps :: b.minX <= p.x && b.minY <= p.y && p.x <= b.maxX && p.y <= b.maxY)
    && (b.minX == screenW || exists p | p in ps :: p.x == b.minX)
    && (b.minY == screenH || exists p | p in ps :: p.y == b.minY)
    && (b.maxX == -1 || exists p | p in ps :: p.x == b.maxX)
    && (b.maxY == -1 || exists p | p in ps :: p.y == b.maxY)
  }

  /** The scan finds the smallest and largest coordinates (or the initial
      value when it is more extreme than every point). */
  lemma {:induction false} ScanFindsExtremes(ps: seq<Point>, screenW: int, screenH: int)
    ensures Extremes(Scan(ps, screenW, screenH), ps, screenW, screenH)
  {
    if |ps| > 0 {
      var init := ps[..|ps| - 1];
      ScanFindsExtremes(init, screenW, screenH);
      assert ps == init + [ps[|ps| - 1]];
      assert ps[|ps| - 1] in ps;
      forall q | q in init
        ensures q in ps
      {
      }
    }
  }

  /** Padding and clamping of the bounds, and the conversion to a rectangle
      of origin, width and height. */
  function Fit(b: Bounds, screenW: int, screenH: int): Rect {
    var minX := Max(0, b.minX - Padding);
    var minY := Max(0, b.minY - Padding);
    var maxX := Min(screenW - 1, b.maxX + Padding);
    var maxY := Min(screenH - 1, b.maxY + Padding);
    Rect(minX, minY, maxX - minX, maxY - minY)
  }

  /** The window rectangle getScreenGeometry computes. Whatever the points,
      its origin is on the screen and its far corner does not pass the last
      pixel column and row. */
  function ScreenGeometry(ps: seq<Point>, screenW: int, screenH: int): (r: Rect)
    ensures r.x >= 0 && r.y >= 0
    ensures r.x + r.w <= screenW - 1 && r.y + r.h <= screenH - 1
  {
    Fit(Scan(ps, screenW, screenH), screenW, screenH)
  }

  predicate OnScreen(p: Point, screenW: int, screenH: int) {
    0 <= p.x < screenW && 0 <= p.y < screenH
  }

  /** For at least one point, all on the screen: the box has non-negative
      size and contains every point; on each side it lies a full padding
      beyond every point unless it is clamped to the screen edge; and it is
      no larger than that, since each side is either at the screen edge or
      exactly a padding away from some point. */
  lemma FitsPoints(ps: seq<Point>, screenW: int, screenH: int)
    requires |ps| > 0
    requires forall p | p in ps :: OnScreen(p, screenW, screenH)
    ensures var r := ScreenGeometry(ps, screenW, screenH);
            && r.w >= 0 && r.h >= 0
            && (forall p | p in ps :: r.x <= p.x <= r.x + r.w && r.y <= p.y <= r.y + r.h)
            && (forall p | p in ps ::
                  && (r.x == 0 || r.x <= p.x - Padding)
                  && (r.y == 0 || r.y <= p.y - Padding)
                  && (r.x + r.w == screenW - 1 || p.x + Padding <= r.x + r.w)
                  && (r.y + r.h == screenH - 1 || p.y + Padding <= r.y + r.h))
            && (r.x == 0 || exists p | p in ps :: r.x == p.x - Padding)
            && (r.y == 0 || exists p | p in ps :: r.y == p.y - Padding)
            && (r.x + r.w == screenW - 1 || exists p | p in ps :: r.x + r.w == p.x + Padding)
            && (r.y + r.h == screenH - 1 || exists p | p in ps :: r.y + r.h == p.y + Padding)
  {
    var b := Scan(ps, screenW, screenH);
    ScanFindsExtremes(ps, screenW, screenH);
    var p0 := ps[0];
    assert p0 in ps;
    assert b.minX <= p0.x <= b.maxX && b.minY <= p0.y <= b.maxY;
    assert b.minX < screenW && b.minY < screenH && b.maxX >= 0 && b.maxY >= 0 by {
      assert OnScreen(p0, screenW, screenH);
    }
  }
}
