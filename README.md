# Romi base outline: a Dafny model

This project models the 2D kernel that draws the base plate of the Pololu
Romi robot platform as one OpenSCAD `polygon(points = …, paths = …)`
statement. It covers two files of `romi_model`:

- `scad.py`:
  - the point value type `P` and its arithmetic, `rotate2d`, `y_mirror` and
    the `-0.000` clean-up of its text form;
  - `Polygon`, a named, growing list of points. Its appenders add one point,
    an arc, a full circle, a turned rectangle or a slot (two half circles);
  - `ScadPolygon`, a list of `Polygon`s that is written out as one
    statement. The points come 4 per line and the path indices 25 per line,
    and a running index is threaded through the polygons.
- `romi_model.py`, the `Romi` class:
  - the constructor's origin offset and `hole_locate`, which map .dxf
    inches to millimetres around the robot centre;
  - the hex pattern parser `hex_pattern_get` and its two patterns;
  - the outline, battery holes, line of holes and arc of holes and
    rectangles;
  - `base_scad_polygon_generate`, which puts all of these together.

The model is organised in modules:

| module | what it holds |
|---|---|
| `Outcomes` | the Python exceptions the core raises, as values |
| `Geometry` | `P`, the `math` functions as a `Math` value, point algebra |
| `Text` | `str(int)`, `"{:.3f}"` and the `-0.000` clean-up |
| `Chunking` | splitting a list into lines of 4 or 25 |
| `Tessellation` | the point lists the `Polygon` appenders add |
| `Render` | the lines `ScadPolygon.scad_lines_append` produces, as functions |
| `Scad` | the `Polygon` and `ScadPolygon` classes, their methods and the line-writing loops |
| `HexGrid` | the hex pattern parser as functions |
| `Layout` | where every hole, slot and rectangle of the base goes |
| `RomiModel` | the `Romi` class and its methods |

`Polygon` and `ScadPolygon` are classes whose methods update their `points`
and `polygons` fields in place. Each method is proved against a
specification function: a `Polygon` appender leaves
`points == old(points) + <function of the arguments>`. The line-writing
methods return `lines + <function of the contours>`. The `Romi` methods
build their polygon lists in loops and are proved to produce the contours
that the `Layout` functions define. Properties of those functions, such as
counts, order, index ranges, symmetry and error cases, are proved as lemmas.

Coordinates are exact reals. `sin`, `cos`, `atan2`, `asin`, `sqrt` and `pi`
are fields of a `Math` value passed to every operation, so nothing is
assumed about them. A lemma that needs a fact such as sin² + cos² = 1 at
some angle states it as a precondition (`UnitAt`, `HalfTurnAt`, `RootAt`).

The `convexity=` suffix is omitted exactly when `convexity < 0`
(romi_model/romi_model/scad.py:628), so `convexity=0` is written out
(`Render.ConvexityText`).

## Model

| member | source | states |
|---|---|---|
| Geometry.P2 | romi_model/romi_model/scad.py:43-47 | a point made from two coordinates has them as x and y and has z = 0 |
| Geometry.AddCommutes | romi_model/romi_model/scad.py:50-53 | `a + b == b + a` |
| Geometry.SubOfAdd | romi_model/romi_model/scad.py:68-71 | `(a + b) - b == a` |
| Geometry.Sub | romi_model/romi_model/scad.py:68-71 | adding `b` back to `a - b` gives `a` |
| Geometry.Scale | romi_model/romi_model/scad.py:56-65 | scaling by 1 leaves the point unchanged and scaling by 0 gives the origin |
| Geometry.Div | romi_model/romi_model/scad.py:86-89 | dividing by a non-zero `k` is undone by scaling by `k` |
| Geometry.DivOfScale | romi_model/romi_model/scad.py:56-59 | scaling by a non-zero `k` is undone by dividing by `k` |
| Geometry.AddCancel | romi_model/romi_model/scad.py:50-53 | addition is cancellative: `p + a == p + b` implies `a == b` |
| Geometry.ScaleCancel | romi_model/romi_model/scad.py:56-59 | if two different factors scale a point to the same point, that point is the origin |
| Geometry.SquaredDistanceZero | romi_model/romi_model/scad.py:92-98 | the squared distance is 0 exactly when the two points are equal |
| Geometry.Distance | romi_model/romi_model/scad.py:92-98 | where sqrt is a root at the squared distance, `a.distance(b)` is non-negative, squares to the squared distance, and is 0 exactly when `a == b`; `DistanceSymmetric` and `DistanceOfPlanarPoints` below relate it further |
| Geometry.DistanceSymmetric | romi_model/romi_model/scad.py:92-98 | `a.distance(b) == b.distance(a)` |
| Geometry.DistanceOfPlanarPoints | romi_model/romi_model/scad.py:92-98 | for points with z = 0 whose planar squared distance is r², with r ≥ 0 and sqrt a root at r², the distance is r |
| Geometry.Rotate2d | romi_model/romi_model/scad.py:101-113 | a rotated point always has z = 0 |
| Geometry.Rotate2dPreservesNorm | romi_model/romi_model/scad.py:101-113 | where sin² + cos² = 1, rotation keeps the planar distance from the origin |
| Geometry.Rotate2dScale | romi_model/romi_model/scad.py:101-113 | rotation commutes with scaling |
| Geometry.Rotate2dByZero | romi_model/romi_model/scad.py:101-113 | where sin = 0 and cos = 1, rotation only drops z |
| Geometry.YMirror | romi_model/romi_model/scad.py:116-119 | the mirror keeps y, and it negates x and z: the mirror plus the point is `(0, 2y, 0)` |
| Geometry.YMirrorInvolution | romi_model/romi_model/scad.py:116-119 | mirroring twice gives back the point |
| Text.NatToString | romi_model/romi_model/scad.py:292 | `str(n)` of a natural number is non-empty, all digits, and one character long exactly when n < 10 |
| Text.ParseNatToString | romi_model/romi_model/scad.py:292 | reading the digits of `str(n)` back gives n, so the text is faithful |
| Text.RoundHalfEvenNearest | romi_model/romi_model/scad.py:77-79 | the rounding used by `"{:.3f}"` is within one half of its input, and a tie goes to the even neighbour |
| Text.ThreeDigits | romi_model/romi_model/scad.py:77-79 | the fraction part is 3 digits, and it is `"000"` exactly when it is 0; `ThreeDigitsValue` reads it back |
| Text.ThreeDigitsValue | romi_model/romi_model/scad.py:77-79 | the three decimals read back as a number give the fraction they were made from |
| Text.Fixed3Sign | romi_model/romi_model/scad.py:77-79 | the formatted text starts with `-` exactly when the value is negative |
| Text.Fixed3SmallNegative | romi_model/romi_model/scad.py:77-79 | every value in [-0.0005, 0) is formatted as `"-0.000"` |
| Text.Fixed3NegativeZeroOnly | romi_model/romi_model/scad.py:77-79 | only values in [-0.0005, 0) are formatted as `"-0.000"` |
| Text.Fixed3NegativeZero | romi_model/romi_model/scad.py:77-82 | `"{:.3f}"` gives `"-0.000"` if and only if the value lies in [-0.0005, 0) |
| Text.Coord | romi_model/romi_model/scad.py:80-82 | the cleaned text is never `"-0.000"`, and it differs from the formatted text only by replacing `"-0.000"` with `"0.000"` |
| Text.CoordNormalisesOnlyNegativeZero | romi_model/romi_model/scad.py:353-356 | a coordinate is written `"0.000"` for values in [-0.0005, 0) and as formatted otherwise |
| Text.PointToString | romi_model/romi_model/scad.py:74-83 | `str(P)` is `P(` … `)`; `PointToStringCoords` states which points share a text |
| Text.CoordNoComma | romi_model/romi_model/scad.py:77-82 | a cleaned coordinate text has no comma in it |
| Text.PointToStringCoords | romi_model/romi_model/scad.py:74-83 | two points have the same `str` exactly when their three cleaned coordinates x, y and z are equal |
| Text.Join | romi_model/romi_model/scad.py:358 | joining one part gives that part, and joining none gives the empty text; `JoinLength` covers several parts |
| Text.JoinLength | romi_model/romi_model/scad.py:358 | joining n ≥ 1 parts gives the parts' total length plus n - 1 separators |
| Chunking.CeilDiv | romi_model/romi_model/scad.py:276 | `ceil(n / k)` slices cover n items and are 0 exactly when n is 0 |
| Chunking.SliceStartInside | romi_model/romi_model/scad.py:341-348 | every slice the loop visits starts inside the list, so the emptiness check at line 348 never skips a slice |
| Chunking.Slice | romi_model/romi_model/scad.py:343-345 | each slice holds between 1 and k items and lies inside the list |
| Chunking.Slices | romi_model/romi_model/scad.py:334-345 | there are `ceil(n / k)` slices |
| Chunking.SlicesConcat | romi_model/romi_model/scad.py:341-345 | the slices put together are the whole list, in order |
| Chunking.SlicesPrefix | romi_model/romi_model/scad.py:341-345 | the first j slices put together are the prefix of the list up to slice j's start |
| Chunking.SliceSizes | romi_model/romi_model/scad.py:343-344 | every slice but the last is full, and the last ends at the end of the list |
| Chunking.Range | romi_model/romi_model/scad.py:290 | `range(a, b)` has `b - a` elements (none if b ≤ a), element i being a + i |
| Tessellation.PolarOnCircle | romi_model/romi_model/scad.py:215-217 | where sin² + cos² = 1, the point at an angle lies at the given radius from the centre |
| Tessellation.ArcPoints | romi_model/romi_model/scad.py:205-219 | an arc of `count` ≥ 2 points has exactly `count` points, and none for count ≤ 0 |
| Tessellation.ArcEndpoints | romi_model/romi_model/scad.py:205-219 | the first arc point is at the start angle and the last is at the end angle |
| Tessellation.ArcEvenSteps | romi_model/romi_model/scad.py:205-215 | consecutive arc angles differ by `(end - start) / (count - 1)` |
| Tessellation.ArcOnCircle | romi_model/romi_model/scad.py:214-219 | every arc point lies at `radius` from the centre |
| Tessellation.CirclePoints | romi_model/romi_model/scad.py:234-247 | a circle of `count` ≥ 1 points has exactly `count` points, and none for count ≤ 0 |
| Tessellation.CircleStartsAtAngleZero | romi_model/romi_model/scad.py:241-247 | the first circle point is at angle 0, `diameter / 2` to the right of the centre |
| Tessellation.CircleAnglesWithinOneTurn | romi_model/romi_model/scad.py:234-243 | every angle lies in [0, 2π), and the last is one step short of 2π, so the loop does not close back to the first point |
| Tessellation.CircleOnCircle | romi_model/romi_model/scad.py:234-247 | every circle point lies at `diameter / 2` from the centre |
| Tessellation.RectanglePoints | romi_model/romi_model/scad.py:364-400 | a rectangle has 4 corners, each at the centre's z |
| Tessellation.RectangleCentered | romi_model/romi_model/scad.py:371-400 | opposite corners are symmetric about the centre |
| Tessellation.RectangleSides | romi_model/romi_model/scad.py:371-400 | where sin² + cos² = 1, the sides in order upper-right, lower-right, lower-left, upper-left have lengths dy, dx, dy, dx |
| Tessellation.RectangleShortSides | romi_model/romi_model/scad.py:371-400 | the two sides of length dy |
| Tessellation.RectangleLongSides | romi_model/romi_model/scad.py:371-400 | the two sides of length dx |
| Tessellation.RectangleUnrotated | romi_model/romi_model/scad.py:371-400 | at angle 0 the corners are upper-right, lower-right, lower-left, upper-left of the box |
| Tessellation.SlotPoints | romi_model/romi_model/scad.py:424-444 | a slot of `count` ≥ 2 points per end has `2 * count` points |
| Tessellation.SlotCapsApart | romi_model/romi_model/scad.py:424-434 | the two cap centres are `slot_length` apart |
| Tessellation.SlotCapPoints | romi_model/romi_model/scad.py:424-444 | point i of the first cap and point i of the second cap lie on their caps at angles that differ by π |
| Tessellation.SlotPointSymmetric | romi_model/romi_model/scad.py:424-444 | point i of the first cap and point i of the second cap are symmetric about the slot centre |
| Tessellation.SlotFirstCapRound | romi_model/romi_model/scad.py:428-441 | the first cap's points lie at `slot_width / 2` from its centre |
| Tessellation.SlotSecondCapRound | romi_model/romi_model/scad.py:428-444 | the second cap's points lie at `slot_width / 2` from its centre |
| Render.PointText | romi_model/romi_model/scad.py:357 | a point's text is bracketed; `PointTextCoords` states which points share a text |
| Render.PointTextCoords | romi_model/romi_model/scad.py:353-357 | two points have the same `[x, y]` text exactly when their cleaned x and y coordinates are equal; z is not written |
| Render.PointTextsAppend | romi_model/romi_model/scad.py:350-357 | the texts of the points with one more point appended are the old texts plus that point's text |
| Render.PointsLines | romi_model/romi_model/scad.py:329-361 | a polygon's point section has one header line plus `ceil(n / 4)` lines, and the header names `start:end-1` |
| Render.IndicesLines | romi_model/romi_model/scad.py:271-297 | a polygon's index section has one header line plus `ceil(n / 25)` lines, and the header names `start:end-1` |
| Render.IndexTexts | romi_model/romi_model/scad.py:290-292 | index text j is `str(start_index + indices[j])` |
| Render.LineRangeIsSlice | romi_model/romi_model/scad.py:286-292 | index line k shows slice k of `start_index .. start_index + n - 1` |
| Render.EmptyPolygonLines | romi_model/romi_model/scad.py:275-297 | a polygon with no points writes only its header line, in both sections |
| Render.PointsSlicesCover | romi_model/romi_model/scad.py:341-345 | the point lines show every point once, in order |
| Render.IndicesLineOpens | romi_model/romi_model/scad.py:295 | the first index line starts with `"  ["` |
| Render.IndicesLineCloses | romi_model/romi_model/scad.py:296 | an index line ends with `"],"` exactly when it is the last one |
| Render.LastSliceIff | romi_model/romi_model/scad.py:287 | a slice ends at n exactly when it is the last slice |
| Render.ConvexityText | romi_model/romi_model/scad.py:628 | the suffix is empty exactly when convexity < 0, and otherwise it is `", convexity=<n>"` |
| Render.FlatPointsLength | romi_model/romi_model/scad.py:617-619 | the flattened point list holds the total number of points |
| Render.OffsetMonotone | romi_model/romi_model/scad.py:617-619 | the running index never decreases |
| Render.FlatPointsAt | romi_model/romi_model/scad.py:617-625 | point j of contour k is flattened point `offset_k + j` |
| Render.PathIsRange | romi_model/romi_model/scad.py:623-625 | contour k's path is the index range `[offset_k, offset_{k+1})` |
| Render.PathsDisjoint | romi_model/romi_model/scad.py:623-625 | no index is in two paths |
| Render.PathsCover | romi_model/romi_model/scad.py:623-625 | every flattened point is in some path |
| Render.SectionsStep | romi_model/romi_model/scad.py:617-625 | each polygon's lines follow those of the polygons before it, starting at their running index |
| Render.ScadLinesCount | romi_model/romi_model/scad.py:612-630 | the statement is 4 lines plus the two sections, so just 4 lines for no polygons |
| Scad.FormatPoint | romi_model/romi_model/scad.py:353-357 | one point's text as written |
| Scad.FormatSlicePoints | romi_model/romi_model/scad.py:350-357 | the loop produces the texts of all points of the slice, in order |
| Scad.FormatPointsLine | romi_model/romi_model/scad.py:343-361 | point line k as the loop writes it |
| Scad.FormatIndicesLine | romi_model/romi_model/scad.py:286-297 | index line k as the loop writes it |
| Scad.Polygon.constructor | romi_model/romi_model/scad.py:127-138 | the polygon holds the given name and a copy of the points |
| Scad.Polygon.Length | romi_model/romi_model/scad.py:163-169 | `len` is the number of points |
| Scad.Polygon.Get | romi_model/romi_model/scad.py:141-160 | indexing succeeds exactly when 0 ≤ index < len, returns that point, and raises AssertionError otherwise |
| Scad.Polygon.PointAppend | romi_model/romi_model/scad.py:301-306 | the point is added at the end, and the earlier points and the name are unchanged |
| Scad.Polygon.ArcAppend | romi_model/romi_model/scad.py:188-219 | appends the arc's points, or raises ZeroDivisionError for one point and leaves the points unchanged |
| Scad.Polygon.CircleAppend | romi_model/romi_model/scad.py:222-247 | appends the circle's points, or raises ZeroDivisionError for no points and leaves the points unchanged |
| Scad.Polygon.RotatedRectangleAppend | romi_model/romi_model/scad.py:364-400 | appends the 4 turned corners |
| Scad.Polygon.SlotAppend | romi_model/romi_model/scad.py:402-444 | appends both caps, or raises ZeroDivisionError for one point per cap and leaves the points unchanged |
| Scad.Polygon.PointsScadLinesAppend | romi_model/romi_model/scad.py:309-362 | appends the polygon's point section and returns `start_index + len` |
| Scad.Polygon.IndicesScadLinesAppend | romi_model/romi_model/scad.py:250-298 | appends the polygon's index section and returns `start_index + len` |
| Scad.ScadPolygon.constructor | romi_model/romi_model/scad.py:516-527 | holds the name, the convexity and a copy of the polygon list |
| Scad.ScadPolygon.Length | romi_model/romi_model/scad.py:552-564 | `len` is the number of polygons |
| Scad.ScadPolygon.Get | romi_model/romi_model/scad.py:530-549 | indexing succeeds exactly when 0 ≤ index < len, and raises AssertionError otherwise |
| Scad.ScadPolygon.Append | romi_model/romi_model/scad.py:567-578 | adds one polygon at the end |
| Scad.ScadPolygon.Extend | romi_model/romi_model/scad.py:581-592 | adds the given polygons at the end, in order |
| Scad.ScadPolygon.PointsSectionAppend | romi_model/romi_model/scad.py:616-619 | appends every polygon's point section, threading the running index |
| Scad.ScadPolygon.IndicesSectionAppend | romi_model/romi_model/scad.py:622-625 | appends every polygon's index section, threading the running index from 0 again |
| Scad.ScadPolygon.ScadLinesAppend | romi_model/romi_model/scad.py:595-630 | only appends the statement's lines and changes no object, so writing twice gives the same lines |
| HexGrid.Find | romi_model/romi_model/romi_model.py:433 | `find` returns the first occurrence, or -1 exactly when the character is absent |
| HexGrid.AnchorFrom | romi_model/romi_model/romi_model.py:432-439 | finds the first row holding `'O'` and its first `'O'`, or fails with AssertionError exactly when no row has one |
| HexGrid.RowCells | romi_model/romi_model/romi_model.py:456 | a row's cells are its characters with their positions |
| HexGrid.CellsAt | romi_model/romi_model/romi_model.py:452-456 | character x of row y is visited after all cells of the earlier rows |
| HexGrid.LocationsStep | romi_model/romi_model/romi_model.py:458-462 | a `'-'` leaves the table alone, and any other character (re)binds its location |
| HexGrid.LocationsDomain | romi_model/romi_model/romi_model.py:458-462 | a character has a location exactly when it is not `'-'` and occurs |
| HexGrid.LocationsLast | romi_model/romi_model/romi_model.py:458-462 | the location kept is that of the character's last occurrence |
| HexGrid.AnchorAtOrigin | romi_model/romi_model/romi_model.py:435-436 | the anchor's grid position is `hex_origin` |
| HexGrid.GridEquilateral | romi_model/romi_model/romi_model.py:390-396 | with `dx = dy / sqrt(3)`, a hole is as far from its neighbour two columns on as from its diagonal neighbour |
| HexGrid.HolesStep | romi_model/romi_model/romi_model.py:464-469 | a cell adds a hole exactly when its character is upper case |
| HexGrid.HoleCellsExact | romi_model/romi_model/romi_model.py:465 | the hole cells are exactly the cells with upper-case characters |
| HexGrid.HolesOfUpperCells | romi_model/romi_model/romi_model.py:452-469 | hole k is the 8-point circle of the k-th upper-case cell in row-major order |
| HexGrid.SlotContour | romi_model/romi_model/romi_model.py:475-478 | a slot is made exactly when the pair has two letters that both have locations, and then it has 16 points |
| HexGrid.SlotsErrorStays | romi_model/romi_model/romi_model.py:473-479 | after one slot fails, the rest of the pairs are not looked at |
| HexGrid.SlotsFailAt | romi_model/romi_model/romi_model.py:473-479 | the first failing pair's error is the result |
| HexGrid.SlotsOk | romi_model/romi_model/romi_model.py:473-479 | the slots succeed exactly when every pair does, and then slot i is pair i's slot |
| HexGrid.HexPatternNeedsAnchor | romi_model/romi_model/romi_model.py:432-439 | with no `'O'` the parser fails with AssertionError, and it succeeds only if some row has an `'O'` |
| HexGrid.LocatedOnce | romi_model/romi_model/romi_model.py:458-462 | a character that occurs once is located at its own position |
| HexGrid.HexPatternOrigin | romi_model/romi_model/romi_model.py:432-462 | with a single `'O'`, the location recorded for it is `hex_origin` |
| HexGrid.HexPatternShape | romi_model/romi_model/romi_model.py:445-482 | the output is the 8-point holes, followed by one 16-point slot per pair |
| HexGrid.LocatedIff | romi_model/romi_model/romi_model.py:458-462 | the table's keys are exactly the characters other than `'-'` that occur |
| HexGrid.HexPatternSucceeds | romi_model/romi_model/romi_model.py:432-482 | the parser succeeds exactly when there is an `'O'` and both letters of every pair occur, and then every such character is located |
| Layout.HoleLocate | romi_model/romi_model/romi_model.py:485-502 | the centre plus the origin offset is the midpoint of the scaled box |
| Layout.HoleLocateDiameter | romi_model/romi_model/romi_model.py:485-502 | the diameter is the mean of the scaled width and height, and is the width for a square box |
| Layout.HoleLocateShift | romi_model/romi_model/romi_model.py:485-502 | moving the box moves the centre by the scaled shift and keeps the diameter |
| Layout.OriginIsRobotCenter | romi_model/romi_model/romi_model.py:49-62 | the upper castor hole's centre has x = 0, and the axle's centre has y = 0 |
| Layout.OutlinePoints | romi_model/romi_model/romi_model.py:222-242 | the outline has `2 * 21 + 4 = 46` points |
| Layout.OutlineAt | romi_model/romi_model/romi_model.py:225-236 | points 0..20 are the upper arc and points 23..43 are the lower arc |
| Layout.OutlineCorners | romi_model/romi_model/romi_model.py:230-241 | points 21, 22, 44 and 45 are the wheel-well corners |
| Layout.OutlinePointSymmetric | romi_model/romi_model/romi_model.py:225-236 | where the half turn negates sin and cos, the second half of the outline is the first half turned by π |
| Layout.OutlineMeetsWheelWells | romi_model/romi_model/romi_model.py:204-241 | with `sin(asin(dy / r)) = dy / r`, each arc meets its wheel well at height ±`half_wheel_well_dy` |
| Layout.LowerBattery | romi_model/romi_model/romi_model.py:309-333 | one lower hole per populated position |
| Layout.LowerBatteryPrefix | romi_model/romi_model/romi_model.py:320-333 | the lower loop only appends |
| Layout.UpperBatteryPrefix | romi_model/romi_model/romi_model.py:335-345 | the upper loop only appends |
| Layout.LowerBatteryAt | romi_model/romi_model/romi_model.py:320-333 | a populated position's hole comes after the holes of the positions visited before it |
| Layout.UpperBatteryCount | romi_model/romi_model/romi_model.py:337-345 | three upper holes per column |
| Layout.UpperBatteryAt | romi_model/romi_model/romi_model.py:337-345 | upper hole (x, y) is number `3 * x + y` of 30 |
| Layout.LowerPopulatedTotal | romi_model/romi_model/romi_model.py:310-333 | 17 of the 27 lower positions are populated |
| Layout.BatteryCount | romi_model/romi_model/romi_model.py:290-346 | the battery holes are `17 + 30` polygons, each an 8-point circle |
| Layout.LineHoles | romi_model/romi_model/romi_model.py:525-526 | the line of holes is made exactly when both `'S'` and `'Q'` are in the table, and otherwise fails with KeyError for the first one missing |
| Layout.LineHolesCount | romi_model/romi_model/romi_model.py:528-534 | the loop makes `t - (t + 1) / 3` holes in t steps, so 6 in 9, each an 8-point circle |
| Layout.LineHolesAvoidLargeHoles | romi_model/romi_model/romi_model.py:528-531 | the holes kept are never at `S` or `Q` |
| Layout.LineHoleEnds | romi_model/romi_model/romi_model.py:528-531 | index 1 would be at `S` and index 4 at `Q`, which is why the loop skips them |
| Layout.AtAngle | romi_model/romi_model/romi_model.py:150-153 | the point at a radius and angle is the polar point around the robot centre |
| Layout.ArcPairsAt | romi_model/romi_model/romi_model.py:138-165 | the arc gives `2 * 13` polygons, a hole then its rectangle for every step |
| Layout.ArcHolesOnArc | romi_model/romi_model/romi_model.py:140-156 | hole i is on the arc at step i, large exactly when `i % 3 == 0` |
| Layout.ArcRectangleOnRay | romi_model/romi_model/romi_model.py:145-165 | rectangle i lies on the ray of hole i, turned to its angle, long exactly when `i % 3 == 0` |
| Layout.UpperHexSucceeds | romi_model/romi_model/romi_model.py:615-630 | the upper pattern never fails |
| Layout.LowerHexLetters | romi_model/romi_model/romi_model.py:560-570 | every letter the lower slot pairs name occurs in the lower pattern |
| Layout.LowerHexSucceeds | romi_model/romi_model/romi_model.py:560-581 | the lower pattern never fails, and its table has `'S'` and `'Q'` |
| Layout.BaseJoin | romi_model/romi_model/romi_model.py:279-281 | the groups are joined with the outline first, and the count is the sum of the groups plus one |
| Layout.BaseFrom | romi_model/romi_model/romi_model.py:248-287 | the base is made exactly when every group is made |
| Layout.BaseFromOk | romi_model/romi_model/romi_model.py:279-281 | when every group is made, the base is their join |
| Layout.BaseContoursFrom | romi_model/romi_model/romi_model.py:252-281 | the groups as the methods return them give the base |
| Layout.BaseContoursOk | romi_model/romi_model/romi_model.py:248-287 | the base never fails |
| Layout.BaseContoursOutlineFirst | romi_model/romi_model/romi_model.py:279-281 | the first polygon is the outline |
| Layout.BaseContoursCount | romi_model/romi_model/romi_model.py:279-281 | the base has 1 + the hex holes and slots + 47 battery holes + 6 line holes + 26 arc polygons |
| RomiModel.AnchorLocate | romi_model/romi_model/romi_model.py:428-439 | the loop finds the grid of the first `'O'`, or raises AssertionError exactly when there is none |
| RomiModel.PatternVisit | romi_model/romi_model/romi_model.py:445-469 | the nested loop yields the holes of the upper-case cells and the table of last locations |
| RomiModel.SlotPolygonsAppend | romi_model/romi_model/romi_model.py:472-479 | the slot loop appends one slot per pair, or stops with the first pair's error |
| RomiModel.LowerBatteryPolygons | romi_model/romi_model/romi_model.py:316-333 | the lower battery loop yields the lower holes in loop order |
| RomiModel.UpperBatteryPolygons | romi_model/romi_model/romi_model.py:335-345 | the upper battery loop yields the upper holes in loop order |
| RomiModel.ArcPolygons | romi_model/romi_model/romi_model.py:137-165 | the arc loop yields the hole and rectangle pairs |
| RomiModel.Romi.constructor | romi_model/romi_model/romi_model.py:49-66 | `inches2mm` is 25.4 and the origin offset is the axle and castor midpoint |
| RomiModel.Romi.HexPatternGet | romi_model/romi_model/romi_model.py:349-482 | returns the polygons and table of the pattern, or the parser's error |
| RomiModel.Romi.UpperHexPolygonsGet | romi_model/romi_model/romi_model.py:598-633 | never fails and returns the upper pattern's polygons |
| RomiModel.Romi.LowerHexPolygonsTableGet | romi_model/romi_model/romi_model.py:539-581 | never fails and returns the lower pattern's polygons and table |
| RomiModel.Romi.BaseOutlinePolygonGet | romi_model/romi_model/romi_model.py:171-245 | returns the 46-point outline named "Romi Base Exterior" |
| RomiModel.Romi.BatteryPolygonsGet | romi_model/romi_model/romi_model.py:290-346 | returns the lower then the upper battery holes |
| RomiModel.Romi.LineHolePolygonsGet | romi_model/romi_model/romi_model.py:505-536 | returns the line of holes, or KeyError when `'S'` or `'Q'` is missing |
| RomiModel.Romi.ArcHoleRectanglePolygonsGet | romi_model/romi_model/romi_model.py:70-168 | returns the 13 hole and rectangle pairs |
| RomiModel.Romi.HolePolygonsGet | romi_model/romi_model/romi_model.py:262-275 | the four hole groups as the base method fetches them |
| RomiModel.Romi.BasePolygonsGet | romi_model/romi_model/romi_model.py:252-281 | the polygons are the base's contours, outline first |
| RomiModel.Romi.BaseScadPolygonGenerate | romi_model/romi_model/romi_model.py:248-287 | the result holds the base's contours, is named "Romi Base ScadPolygon" and has convexity -1 |

## Left out

- File output and entry points are not modelled: `Scad.file_write`, `main`
  and the commented-out `output`. They are I/O. The
  `Scad.scad_lines_append` base stub, which only raises, is left out too.
- The `debugging` prints are not modelled; they are diagnostic output only.
  `Polygon.__str__` is left out for the same reason.
- Floating point is not modelled. Coordinates are exact reals: there is no
  rounding in arithmetic and no -0.0. The float tolerance `assert` in
  `base_outline_polygon_get` (romi_model/romi_model/romi_model.py:217)
  holds in exact arithmetic only under the `Math` facts a lemma asks for,
  so it is not modelled.
- `"{:.3f}"` is modelled on exact reals. It rounds half to even on
  |x| × 1000 and writes a `-` for every negative value. Python rounds the
  binary value, which can differ for ties that are not exact in binary.
- `str.isupper` is modelled for ASCII letters only.
- `sin`, `cos`, `atan2`, `asin`, `sqrt` and `pi` are fields of a `Math`
  value. Their mathematical facts are preconditions of the lemmas that use
  them, not axioms.
- RomiModel.Romi.HexPatternGet, RomiModel.Romi.UpperHexPolygonsGet,
  RomiModel.Romi.LowerHexPolygonsTableGet, RomiModel.Romi.HolePolygonsGet,
  RomiModel.Romi.BasePolygonsGet and RomiModel.Romi.BaseScadPolygonGenerate
  require `sqrt(3.0) != 0.0`. The source divides by it, and Python's sqrt
  guarantees it; `Math` leaves sqrt arbitrary.
- The `nan` start values of the anchor search in `hex_pattern_get` are not
  modelled. The search's result is a `Result`, and the `nan` values are
  never read when no `'O'` is found, because the `assert` raises first.
- The `split(':')` calls on the slot pair lists are written as the lists
  they produce.
- `int(ceil(float(n) / float(k)))` is modelled as exact integer ceiling
  division; for line counts of this size the float computation is exact.
- Aliasing between `Polygon` objects is not modelled. Each method returns
  fresh polygons, and a `ScadPolygon` reads the polygons it holds when it
  writes them out.
- The `scad_lines` list the caller passes is modelled as a value passed in
  and returned with lines appended, not as a shared list.
- `hole_locate` is a pure function (`Layout.HoleLocate`) of `inches2mm`
  and the origin offset. The `Romi` methods call it with their fields.
- The arc measurements of `arc_hole_rectangle_polygons_get` are computed
  once by `Layout.ArcLayoutOf`, and the loop reads them from there.
- Some steps of the source's methods are separate helper methods in the
  model so that each proof stays small, with the same order of effects:
  - `RomiModel.Romi.HolePolygonsGet` and `RomiModel.Romi.BasePolygonsGet`
    are steps of `base_scad_polygon_generate`;
  - `RomiModel.ArcCornersAppend` is an arc followed by two corners in
    `base_outline_polygon_get`;
  - `Scad.FormatPoint` is the body of the point loop in
    `points_scad_lines_append`.
- `battery_polygons_get` builds one list. The model builds the lower and
  upper parts separately and then joins them, which gives the same list in
  the same order.
