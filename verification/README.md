# Screen protractor: a verified model

The screen protractor is a frameless, translucent overlay window that shows
three draggable points: the vertex O and the arm ends A and B. It draws the
two rays OA and OB and the arc of the angle between them. The window keeps
itself fitted around the points. Hovering within 10 pixels of a point
selects it. A left press on a selected point starts a drag, and releasing
the button ends it.

This project models that core in Dafny and proves properties of it.

- `shapes.dfy`: points and rectangles in screen pixels, `Option`, and `Max`
  and `Min`.
- `angle.dfy`: `getAngle`, the unsigned angle between two vectors in
  degrees, with both of its `ValueError`s.
  - The square root and the arc cosine are passed in as a `MathLib` value.
    The predicate `Sound` states the properties of them that the proofs
    rely on.
  - The file also models how `paintEvent` turns the two angles with the x
    axis into bearings, and the four-way split that picks the arc's start
    and sweep.
- `autofit.dfy`: the window rectangle `getScreenGeometry` computes. This is
  the bounding box of the points, padded by 60 pixels and clamped to the
  screen.
- `hover.dfy`: the hover test of `mouseMoveEvent`. Among the points, it
  selects the first nearest one when that point lies within the radius.
- `canvas.dfy`: the `Canvas` window.
  - Its state is the three points, the selected point, the drag flag and
    the window rectangle.
  - The constructor and the mouse handlers update that state in place.
  - `GetScreenGeometry` and the hover test are loops, proved against the
    functions of `autofit.dfy` and `hover.dfy`.

## Model

| member | source | states |
|---|---|---|
| Angle.NormSq | app.py:12-13 | the squared length under each square root is non-negative, and zero exactly for the zero vector |
| Angle.CauchySchwarz | app.py:17 | the squared dot product is at most the product of the squared lengths |
| Angle.LengthZero | app.py:12-14 | a vector's computed length is non-negative, and zero exactly when both components are zero |
| Angle.CosInRange | app.py:17-18 | for two non-zero vectors the cosine lies in [-1, 1], so `acos` never raises its domain error with exact arithmetic |
| Angle.ZeroVectorFails | app.py:14-15 | a zero vector on either side makes getAngle raise its own zero-length error |
| Angle.NonZeroSucceeds | app.py:12-21 | two non-zero vectors always yield an angle |
| Angle.GetAngleFailsOnlyOnZero | app.py:11-21 | getAngle raises if and only if one of the vectors is zero, and then only the zero-length error |
| Angle.GetAngleRange | app.py:18-19 | a computed angle lies in [0, 180] |
| Angle.GetAngleSymmetric | app.py:11-21 | swapping the two vectors gives the same result, error or angle |
| Angle.GetAngleSame | app.py:11-21 | a non-zero vector makes angle 0 with itself |
| Angle.GetAngleOpposite | app.py:11-21 | a non-zero vector makes angle 180 with its opposite |
| Angle.GetAngleOrthogonal | app.py:11-21 | non-zero vectors with dot product 0 make angle 90 |
| Angle.SampleAngles | app.py:11-21 | (1,0) makes 90 degrees with (0,1), 0 with itself and 180 with (-1,0) |
| Angle.Bearing | app.py:170-173 | the bearing is the angle or 360 minus it; an angle in [0, 180] gives a bearing in [0, 360) |
| Angle.AxisCosine | app.py:161-165 | measured against the x axis, the cosine of a non-zero ray is its x component over its length |
| Angle.BearingOfRay | app.py:161-173 | a ray above the x axis gets a bearing in (0, 180), one below it in (180, 360), along the positive axis 0 and along the negative axis 180 |
| Angle.ArcBetween | app.py:175-187 | the arc starts at one of the two bearings; for bearings in [0, 360) it sweeps the shorter gap between them (at most 180) and ends on the other bearing |
| Angle.ArcOrderIndependent | app.py:175-187 | unless the bearings are exactly opposite, exchanging A and B gives the same arc |
| Angle.AngleArcWellFormed | app.py:161-187 | for any three points the bearings lie in [0, 360), and the arc sweeps at most 180 degrees from one bearing to the other |
| Angle.FallbackArc | app.py:163-168 | when either getAngle call raises, both angles become 0 and the arc is empty |
| Angle.CoincidentRayFails | app.py:161-165 | the ray from a point to itself makes getAngle raise the zero-length error |
| Angle.DegenerateArc | app.py:161-187 | when O coincides with A or with B, the bearings are both 0 and the arc is empty |
| AutoFit.ScanFindsExtremes | app.py:47-62 | the scan ends with the least and greatest coordinates of the points, each compared with the scan's initial value, and every bound is attained or initial |
| AutoFit.ScreenGeometry | app.py:46-78 | whatever the points, the rectangle's origin is non-negative and its far corner stays within the last pixel column and row |
| AutoFit.FitsPoints | app.py:46-78 | for points on the screen: the rectangle has non-negative size and contains every point; each side is a full padding beyond every point unless clamped; each side is at the screen edge or exactly a padding from some point |
| Hover.DistSq | app.py:90-92 | the squared cursor distance of a point, taken in window coordinates, is non-negative |
| Hover.FirstMinIsFirst | app.py:88-95 | the scan with a strict `<` ends on the first index of least distance |
| Hover.FirstMinUnique | app.py:88-95 | there is only one first index of least distance |
| Hover.SelectionSpec | app.py:88-100 | nothing is selected exactly when every point is at least the radius away; otherwise the selection is the first nearest point, which lies within the radius |
| Overlay.Canvas.HoverDistances | app.py:89-92 | one squared distance per point, each measured from the current window origin |
| Overlay.Canvas.constructor | app.py:24-44 | the window starts with O=(200,200), A=(100,100), B=(300,300), nothing selected, no drag, and the auto-fit rectangle |
| Overlay.Canvas.GetScreenGeometry | app.py:46-78 | the loop's result is the auto-fit rectangle of the current points |
| Overlay.Canvas.MouseMove | app.py:80-115 | without a drag, the selection becomes the first nearest point within the radius (or none), and the points and window stay the same; during a drag, only the selected point moves, to the cursor's screen position, and the window is refitted; the drag flag is kept, and a drag always has a selected point |
| Overlay.Canvas.MousePress | app.py:117-120 | a drag starts exactly on a left press with a point selected; the points, the selection and the window do not change |
| Overlay.Canvas.MouseRelease | app.py:132-135 | a release ends any drag; the points, the selection and the window do not change |

## Left out

- Painting is not modelled. That covers the pixmap fill, the lines, the
  ellipses, the text and its box, the pens and brushes, cursor shapes,
  the context menu with its quit action, the resize handler, the window
  flags and the program's entry point. The model keeps only the state
  these read or write.
- The square root and the arc cosine are not computed. `Sound` states the
  properties the proofs use: the exact non-negative square root, and an
  arc cosine with values in [0, 180] that is 0 only at 1, 180 only at -1,
  and 90 at 0.
- Floating point is not modelled; coordinates are integers and the
  cosine is an exact real.
  - With floating-point rounding, the cosine of two parallel vectors can
    fall just outside [-1, 1]. `acos` then raises, and the `except` in
    `paintEvent` catches it. The model keeps that error path
    (`AcosDomain`), and proves that it cannot happen with exact
    arithmetic.
- The conversion of the start and sweep to sixteenths of a degree with
  `int(...)` is not modelled, and neither is the angle text. The arc is
  in degrees.
- The initial start and sweep values in `paintEvent` are not modelled,
  because one of the four branches always overwrites them. The fourth
  test, `180 <= angleAOB`, always holds when it is reached, so the model
  writes it as `else`.
- Angle.ArcBetween: does not prove that the sweep equals the angle AOB
  computed by getAngle between OA and OB. That needs trigonometric
  identities beyond the `Sound` properties. What it proves is the sweep
  as the shorter gap between the two bearings.
- The screen size is queried from the desktop in the program; here it is
  given as parameters.
- Logging is left out.
- Overlay.Canvas.MouseMove: the program compares the new rectangle with
  the current geometry and either repaints or calls `setGeometry`. Both
  leave the window at the new rectangle, so only that rectangle is
  modelled. Any adjustment the window system might make in `setGeometry`
  is not modelled.
- Hover.SelectionSpec: the program compares the real distance with the
  radius 10, and the model compares the squared integer distance with
  100. For integer coordinates these are equivalent.
- Overlay.Canvas.MouseMove: the program holds the selected point as a
  reference to one of the three point objects. The model holds its
  index, so moving it updates that entry of the point sequence.
