/** The layout rules of the `Romi` class (romi_model.py) as functions of the
    millimetres per inch `k`, the origin offset and the math functions:
    where each hole, slot and rectangle of the Romi base goes, and in which
    order the polygons come. The .dxf numbers are the source's constants,
    in inches. */
module Layout {
  import opened Outcomes
  import opened Geometry
  import opened Text
  import opened Tessellation
  import opened Render
  import opened HexGrid

  /** A located hole: its diameter and its centre relative to the robot centre. */
  datatype Hole = Hole(diameter: real, center: P)

  /** Millimetres per inch (`inches2mm`). */
  const Inches2mm: real := 25.4

  /** `origin_offset`: the .dxf position of the robot centre in millimetres,
      half way between the top and bottom of the axle and between the left
      and right edges of the upper castor hole. */
  function OriginOffset(k: real): P
  {
    var axelYAbove := 2.967165 * k;
    var axelYBelow := 2.908110 * k;
    var yOriginOffset := (axelYAbove + axelYBelow) / 2.0;
    var upperCastorXLeft := -3.930756 * k;
    var upperCastorXRight := -3.805256 * k;
    var xOriginOffset := (upperCastorXLeft + upperCastorXRight) / 2.0;
    P2(xOriginOffset, yOriginOffset)
  }

  // ----- Romi.hole_locate (romi_model.py:485-502) -----

  /** `hole_locate`: the hole inside a bounding box given in .dxf inches.
      Its centre, moved back by the origin offset, is the middle of the box. */
  function HoleLocate(k: real, offset: P, leftX: real, rightX: real, aboveY: real, belowY: real): (h: Hole)
    ensures Add(h.center, offset) == P2((leftX * k + rightX * k) / 2.0, (aboveY * k + belowY * k) / 2.0)
  {
    var left, right, above, below := leftX * k, rightX * k, aboveY * k, belowY * k;
    var dx := right - left;
    var dy := above - below;
    var x := (left + right) / 2.0;
    var y := (above + below) / 2.0;
    Hole((dx + dy) / 2.0, Sub(P2(x, y), offset))
  }

  /** The diameter is the mean of the box's width and height; for a square
      box it is the side. */
  lemma {:induction false} HoleLocateDiameter(k: real, offset: P, leftX: real, rightX: real,
                                              aboveY: real, belowY: real)
    ensures HoleLocate(k, offset, leftX, rightX, aboveY, belowY).diameter
         == ((rightX - leftX) * k + (aboveY - belowY) * k) / 2.0
    ensures rightX - leftX == aboveY - belowY ==>
              HoleLocate(k, offset, leftX, rightX, aboveY, belowY).diameter == (rightX - leftX) * k
  {
    assert rightX * k - leftX * k == (rightX - leftX) * k;
    assert aboveY * k - belowY * k == (aboveY - belowY) * k;
  }

  /** Moving the box moves the centre by the same amount in millimetres and
      keeps the diameter. */
  lemma {:induction false} HoleLocateShift(k: real, offset: P, leftX: real, rightX: real,
                                           aboveY: real, belowY: real, sx: real, sy: real)
    ensures HoleLocate(k, offset, leftX + sx, rightX + sx, aboveY + sy, belowY + sy).center
         == Add(HoleLocate(k, offset, leftX, rightX, aboveY, belowY).center, P(sx * k, sy * k, 0.0))
    ensures HoleLocate(k, offset, leftX + sx, rightX + sx, aboveY + sy, belowY + sy).diameter
         == HoleLocate(k, offset, leftX, rightX, aboveY, belowY).diameter
  {
    assert (leftX + sx) * k == leftX * k + sx * k;
    assert (rightX + sx) * k == rightX * k + sx * k;
    assert (aboveY + sy) * k == aboveY * k + sy * k;
    assert (belowY + sy) * k == belowY * k + sy * k;
  }

  /** The origin offset puts the robot centre on the upper castor hole's
      vertical centre line and on the axle's horizontal centre line. */
  lemma OriginIsRobotCenter(k: real, aboveY: real, belowY: real, leftX: real, rightX: real)
    ensures HoleLocate(k, OriginOffset(k), -3.930756, -3.805256, aboveY, belowY).center.x == 0.0
    ensures HoleLocate(k, OriginOffset(k), leftX, rightX, 2.967165, 2.908110).center.y == 0.0
  {
  }

  // ----- Romi.base_outline_polygon_get (romi_model.py:171-245) -----

  /** The outline's radius (half the 163 mm diameter). */
  const OutlineRadius: real := 163.0 / 2.0

  /** Half the wheel well's width and height (125 mm by 72 mm). */
  const HalfWheelWellDx: real := 125.0 / 2.0
  const HalfWheelWellDy: real := 72.0 / 2.0

  /** Points on each of the outline's two arcs (`arc_count`). */
  const OutlineArcCount: int := 21

  /** The angle where the outline circle meets the top of the right wheel well. */
  function WheelWellAngle(m: Math): real
  {
    m.asin(HalfWheelWellDy / OutlineRadius)
  }

  /** The outline: the upper arc, the left wheel well's two corners, the
      lower arc and the right wheel well's two corners. */
  function OutlinePoints(m: Math): (ps: seq<P>)
    ensures |ps| == 2 * OutlineArcCount + 4
  {
    var angle := WheelWellAngle(m);
    var origin := P2(0.0, 0.0);
    ArcPoints(m, origin, OutlineRadius, angle, m.pi - angle, OutlineArcCount)
      + [P2(-HalfWheelWellDx, HalfWheelWellDy), P2(-HalfWheelWellDx, -HalfWheelWellDy)]
      + ArcPoints(m, origin, OutlineRadius, angle + m.pi, (m.pi - angle) + m.pi, OutlineArcCount)
      + [P2(HalfWheelWellDx, -HalfWheelWellDy), P2(HalfWheelWellDx, HalfWheelWellDy)]
  }

  /** The outline in terms of the values `base_outline_polygon_get` computes. */
  lemma OutlinePointsFrom(m: Math, radius: real, angle: real, dx: real, dy: real, count: int)
    ensures radius == OutlineRadius && angle == WheelWellAngle(m) && dx == HalfWheelWellDx
            && dy == HalfWheelWellDy && count == OutlineArcCount
            ==> (OutlinePoints(m)
                 == ArcPoints(m, P2(0.0, 0.0), radius, angle, m.pi - angle, count) + [P2(-dx, dy), P2(-dx, -dy)]
                    + ArcPoints(m, P2(0.0, 0.0), radius, angle + m.pi, (m.pi - angle) + m.pi, count)
                    + [P2(dx, -dy), P2(dx, dy)])
  {
  }

  /** Point `i` of each arc, where it sits in the outline. */
  lemma {:induction false} OutlineAt(m: Math, i: nat)
    requires i < OutlineArcCount
    ensures var a := WheelWellAngle(m);
      && OutlinePoints(m)[i] == ArcPoints(m, P2(0.0, 0.0), OutlineRadius, a, m.pi - a, OutlineArcCount)[i]
      && OutlinePoints(m)[OutlineArcCount + 2 + i]
         == ArcPoints(m, P2(0.0, 0.0), OutlineRadius, a + m.pi, (m.pi - a) + m.pi, OutlineArcCount)[i]
  {
    var a := WheelWellAngle(m);
    var upper := ArcPoints(m, P2(0.0, 0.0), OutlineRadius, a, m.pi - a, OutlineArcCount);
    var lower := ArcPoints(m, P2(0.0, 0.0), OutlineRadius, a + m.pi, (m.pi - a) + m.pi, OutlineArcCount);
    var left := [P2(-HalfWheelWellDx, HalfWheelWellDy), P2(-HalfWheelWellDx, -HalfWheelWellDy)];
    var right := [P2(HalfWheelWellDx, -HalfWheelWellDy), P2(HalfWheelWellDx, HalfWheelWellDy)];
    var front := upper + left;
    assert OutlinePoints(m) == front + lower + right;
    assert (front + lower)[|front| + i] == lower[i];
  }

  /** The wheel well corners, where they sit in the outline. */
  lemma {:induction false} OutlineCorners(m: Math)
    ensures OutlinePoints(m)[OutlineArcCount] == P2(-HalfWheelWellDx, HalfWheelWellDy)
    ensures OutlinePoints(m)[OutlineArcCount + 1] == P2(-HalfWheelWellDx, -HalfWheelWellDy)
    ensures OutlinePoints(m)[2 * OutlineArcCount + 2] == P2(HalfWheelWellDx, -HalfWheelWellDy)
    ensures OutlinePoints(m)[2 * OutlineArcCount + 3] == P2(HalfWheelWellDx, HalfWheelWellDy)
  {
    var a := WheelWellAngle(m);
    var upper := ArcPoints(m, P2(0.0, 0.0), OutlineRadius, a, m.pi - a, OutlineArcCount);
    var lower := ArcPoints(m, P2(0.0, 0.0), OutlineRadius, a + m.pi, (m.pi - a) + m.pi, OutlineArcCount);
    var left := [P2(-HalfWheelWellDx, HalfWheelWellDy), P2(-HalfWheelWellDx, -HalfWheelWellDy)];
    var right := [P2(HalfWheelWellDx, -HalfWheelWellDy), P2(HalfWheelWellDx, HalfWheelWellDy)];
    var front := upper + left + lower;
    assert OutlinePoints(m) == front + right;
    assert (upper + left)[OutlineArcCount + 1] == left[1];
  }

  /** The outline is symmetric about the robot centre: the second half of
      the points is the first half turned by pi. */
  lemma {:induction false} OutlinePointSymmetric(m: Math, i: nat)
    requires i < OutlineArcCount + 2
    requires i < OutlineArcCount ==>
               HalfTurnAt(m, ArcAngle(WheelWellAngle(m), m.pi - WheelWellAngle(m), OutlineArcCount, i))
    ensures OutlinePoints(m)[OutlineArcCount + 2 + i]
         == P2(-OutlinePoints(m)[i].x, -OutlinePoints(m)[i].y)
  {
    var a := WheelWellAngle(m);
    if i < OutlineArcCount {
      OutlineAt(m, i);
      ArcAngleShift(a, m.pi - a, OutlineArcCount, i, m.pi);
    }
  }

  /** With sin(asin(v)) = v, the upper arc starts at the height of the top
      of the wheel wells, and the lower arc at the height of their bottom. */
  lemma {:induction false} OutlineMeetsWheelWells(m: Math)
    requires m.sin(WheelWellAngle(m)) == HalfWheelWellDy / OutlineRadius
    requires HalfTurnAt(m, WheelWellAngle(m))
    ensures OutlinePoints(m)[0].y == OutlinePoints(m)[OutlineArcCount].y == HalfWheelWellDy
    ensures OutlinePoints(m)[OutlineArcCount + 2].y == OutlinePoints(m)[OutlineArcCount + 1].y
         == -HalfWheelWellDy
  {
    var a := WheelWellAngle(m);
    OutlineAt(m, 0);
    OutlineCorners(m);
    ArcEndpoints(m, P2(0.0, 0.0), OutlineRadius, a, m.pi - a, OutlineArcCount);
    ArcEndpoints(m, P2(0.0, 0.0), OutlineRadius, a + m.pi, (m.pi - a) + m.pi, OutlineArcCount);
    assert OutlinePoints(m)[OutlineArcCount + 2] == PolarPoint(m, P2(0.0, 0.0), OutlineRadius, a + m.pi);
    assert OutlineRadius * m.sin(a + m.pi) == -(OutlineRadius * m.sin(a)) == -HalfWheelWellDy;
  }

  // ----- Romi.battery_polygons_get (romi_model.py:290-346) -----

  /** Which of the 3 by 9 lower battery holes exist ('-' is none). */
  const LowerBatteryPatterns: seq<string> := ["--**O**--", "--*****--", "*-*****-*"]

  /** Row offsets of the lower and upper battery holes from the reference hole. */
  const LowerBatteryYOffsets: seq<real> := [0.0, -12.3, -12.3 - 12.3]
  const UpperBatteryYOffsets: seq<real> := [7.0, 7.0 + 12.3, 7.0 + 12.3 + 12.3]

  /** Column pitch of the battery holes. */
  const HoleDxPitch: real := 10.0

  /** The battery reference hole. */
  function BatteryReference(k: real, offset: P): Hole
  {
    HoleLocate(k, offset, -3.913146, -3.822591, 3.376610, 3.286051)
  }

  /** The name of a battery hole; columns are numbered from 2 down. */
  function BatteryHoleName(level: string, x: nat, y: nat): string
  {
    level + " Battery Hole (" + IntToString(2 - x) + ", " + IntToString(y) + ")"
  }

  /** The centre of the lower hole in column `x`, row `y`. */
  function LowerBatteryCenter(reference: Hole, x: nat, y: nat): P
    requires y < 3
  {
    P2(-4.0 * HoleDxPitch + (x as real) * HoleDxPitch, reference.center.y + LowerBatteryYOffsets[y])
  }

  /** The centre of the upper hole in column `x`, row `y`: half a pitch
      further left than the lower columns. */
  function UpperBatteryCenter(reference: Hole, x: nat, y: nat): P
    requires y < 3
  {
    P2(-4.5 * HoleDxPitch + (x as real) * HoleDxPitch, reference.center.y + UpperBatteryYOffsets[y])
  }

  /** The lower hole in column `x`, row `y`. */
  function LowerBatteryHole(m: Math, reference: Hole, x: nat, y: nat): Contour
    requires y < 3
  {
    Contour(BatteryHoleName("Lower", x, y),
            CirclePoints(m, LowerBatteryCenter(reference, x, y), reference.diameter, PointsCount))
  }

  /** The upper hole in column `x`, row `y`. */
  function UpperBatteryHole(m: Math, reference: Hole, x: nat, y: nat): Contour
    requires y < 3
  {
    Contour(BatteryHoleName("Upper", x, y),
            CirclePoints(m, UpperBatteryCenter(reference, x, y), reference.diameter, PointsCount))
  }

  /** Whether the lower battery grid has a hole in column `x`, row `y`. */
  predicate LowerBatteryPopulated(x: nat, y: nat)
    requires x < 9 && y < 3
  {
    LowerBatteryPatterns[y][x] != '-'
  }

  /** How many populated lower positions the loops visit before column `x`, row `y`. */
  function LowerPopulatedCount(x: nat, y: nat): nat
    requires x <= 9 && y <= 3 && (x == 9 ==> y == 0)
    decreases x, y
  {
    if y == 0 then (if x == 0 then 0 else LowerPopulatedCount(x - 1, 3))
    else LowerPopulatedCount(x, y - 1) + (if LowerBatteryPopulated(x, y - 1) then 1 else 0)
  }

  /** The lower holes made before the loops reach column `x`, row `y`: column
      by column, top to bottom within a column, one per populated position. */
  function LowerBattery(m: Math, reference: Hole, x: nat, y: nat): (holes: seq<Contour>)
    requires x <= 9 && y <= 3 && (x == 9 ==> y == 0)
    ensures |holes| == LowerPopulatedCount(x, y)
    decreases x, y
  {
    if y == 0 then (if x == 0 then [] else LowerBattery(m, reference, x - 1, 3))
    else
      LowerBattery(m, reference, x, y - 1)
        + (if LowerBatteryPopulated(x, y - 1) then [LowerBatteryHole(m, reference, x, y - 1)] else [])
  }

  /** The upper holes made before the loops reach column `x`, row `y`, in
      the same order; every position has one. */
  function UpperBattery(m: Math, reference: Hole, x: nat, y: nat): seq<Contour>
    requires x <= 10 && y <= 3 && (x == 10 ==> y == 0)
    decreases x, y
  {
    if y == 0 then (if x == 0 then [] else UpperBattery(m, reference, x - 1, 3))
    else UpperBattery(m, reference, x, y - 1) + [UpperBatteryHole(m, reference, x, y - 1)]
  }

  /** What `battery_polygons_get` returns: the lower holes, then the upper ones. */
  function BatteryContours(m: Math, k: real, offset: P): seq<Contour>
  {
    var reference := BatteryReference(k, offset);
    LowerBattery(m, reference, 9, 0) + UpperBattery(m, reference, 10, 0)
  }

  /** The holes made before a position come first in the list made by any
      later position, unchanged: the loops only ever append. Positions are
      ordered by `3 * x + y`, so `(x, 3)` and `(x + 1, 0)` are the same. */
  lemma {:induction false} LowerBatteryPrefix(m: Math, reference: Hole, x: nat, y: nat, x': nat, y': nat)
    requires x <= 9 && y <= 3 && (x == 9 ==> y == 0)
    requires x' <= 9 && y' <= 3 && (x' == 9 ==> y' == 0)
    requires 3 * x + y <= 3 * x' + y'
    ensures |LowerBattery(m, reference, x, y)| <= |LowerBattery(m, reference, x', y')|
    ensures LowerBattery(m, reference, x', y')[..|LowerBattery(m, reference, x, y)|] == LowerBattery(m, reference, x, y)
    decreases 3 * x' + y', if y' == 0 then 1 else 0
  {
    var here := LowerBattery(m, reference, x, y);
    var there := LowerBattery(m, reference, x', y');
    if x == x' && y == y' {
      assert there[..|there|] == there;
    } else if y' == 0 {
      LowerBatteryPrefix(m, reference, x, y, x' - 1, 3);
    } else if 3 * x + y == 3 * x' + y' {
      assert x == x' + 1 && y == 0;
      assert here == there;
      assert there[..|there|] == there;
    } else {
      LowerBatteryPrefix(m, reference, x, y, x', y' - 1);
      var before := LowerBattery(m, reference, x', y' - 1);
      assert there[..|here|] == before[..|here|];
    }
  }

  lemma {:induction false} UpperBatteryPrefix(m: Math, reference: Hole, x: nat, y: nat, x': nat, y': nat)
    requires x <= 10 && y <= 3 && (x == 10 ==> y == 0)
    requires x' <= 10 && y' <= 3 && (x' == 10 ==> y' == 0)
    requires 3 * x + y <= 3 * x' + y'
    ensures |UpperBattery(m, reference, x, y)| <= |UpperBattery(m, reference, x', y')|
    ensures UpperBattery(m, reference, x', y')[..|UpperBattery(m, reference, x, y)|] == UpperBattery(m, reference, x, y)
    decreases 3 * x' + y', if y' == 0 then 1 else 0
  {
    var here := UpperBattery(m, reference, x, y);
    var there := UpperBattery(m, reference, x', y');
    if x == x' && y == y' {
      assert there[..|there|] == there;
    } else if y' == 0 {
      UpperBatteryPrefix(m, reference, x, y, x' - 1, 3);
    } else if 3 * x + y == 3 * x' + y' {
      assert x == x' + 1 && y == 0;
      assert here == there;
      assert there[..|there|] == there;
    } else {
      UpperBatteryPrefix(m, reference, x, y, x', y' - 1);
      var before := UpperBattery(m, reference, x', y' - 1);
      assert there[..|here|] == before[..|here|];
    }
  }

  /** The lower hole of a populated position comes after the holes of the
      populated positions the loops visit before it. */
  lemma {:induction false} LowerBatteryAt(m: Math, reference: Hole, x: nat, y: nat)
    requires x < 9 && y < 3 && LowerBatteryPopulated(x, y)
    ensures LowerPopulatedCount(x, y) < |LowerBattery(m, reference, 9, 0)|
    ensures LowerBattery(m, reference, 9, 0)[LowerPopulatedCount(x, y)] == LowerBatteryHole(m, reference, x, y)
  {
    LowerBatteryPrefix(m, reference, x, y + 1, 9, 0);
    var next := LowerBattery(m, reference, x, y + 1);
    assert next[LowerPopulatedCount(x, y)] == LowerBatteryHole(m, reference, x, y);
  }

  /** Three upper holes per column. */
  lemma {:induction false} UpperBatteryCount(m: Math, reference: Hole, x: nat, y: nat)
    requires x <= 10 && y <= 3 && (x == 10 ==> y == 0)
    ensures |UpperBattery(m, reference, x, y)| == 3 * x + y
    decreases x, y
  {
    if y == 0 {
      if x > 0 {
        UpperBatteryCount(m, reference, x - 1, 3);
      }
    } else {
      UpperBatteryCount(m, reference, x, y - 1);
    }
  }

  /** Upper hole `(x, y)` is number `3 * x + y`: column by column. */
  lemma {:induction false} UpperBatteryAt(m: Math, reference: Hole, x: nat, y: nat)
    requires x < 10 && y < 3
    ensures |UpperBattery(m, reference, 10, 0)| == 30
    ensures UpperBattery(m, reference, 10, 0)[3 * x + y] == UpperBatteryHole(m, reference, x, y)
  {
    UpperBatteryPrefix(m, reference, x, y + 1, 10, 0);
    UpperBatteryCount(m, reference, x, y);
    UpperBatteryCount(m, reference, 10, 0);
    var before := UpperBattery(m, reference, x, y);
    var next := UpperBattery(m, reference, x, y + 1);
    assert next == before + [UpperBatteryHole(m, reference, x, y)];
    assert next[|before|] == UpperBatteryHole(m, reference, x, y);
  }

  /** 17 of the 27 lower positions are populated. */
  lemma LowerPopulatedTotal()
    ensures LowerPopulatedCount(9, 0) == 17
  {
    assert LowerPopulatedCount(1, 0) == 1;
    assert LowerPopulatedCount(2, 0) == 1;
    assert LowerPopulatedCount(3, 0) == 4;
    assert LowerPopulatedCount(4, 0) == 7;
    assert LowerPopulatedCount(5, 0) == 10;
    assert LowerPopulatedCount(6, 0) == 13;
    assert LowerPopulatedCount(7, 0) == 16;
    assert LowerPopulatedCount(8, 0) == 16;
  }

  lemma {:induction false} LowerBatteryCircles(m: Math, reference: Hole, x: nat, y: nat)
    requires x <= 9 && y <= 3 && (x == 9 ==> y == 0)
    ensures forall i :: 0 <= i < |LowerBattery(m, reference, x, y)| ==>
              |LowerBattery(m, reference, x, y)[i].points| == PointsCount
    decreases x, y
  {
    if y == 0 {
      if x > 0 {
        LowerBatteryCircles(m, reference, x - 1, 3);
      }
    } else {
      LowerBatteryCircles(m, reference, x, y - 1);
    }
  }

  lemma {:induction false} UpperBatteryCircles(m: Math, reference: Hole, x: nat, y: nat)
    requires x <= 10 && y <= 3 && (x == 10 ==> y == 0)
    ensures forall i :: 0 <= i < |UpperBattery(m, reference, x, y)| ==>
              |UpperBattery(m, reference, x, y)[i].points| == PointsCount
    decreases x, y
  {
    if y == 0 {
      if x > 0 {
        UpperBatteryCircles(m, reference, x - 1, 3);
      }
    } else {
      UpperBatteryCircles(m, reference, x, y - 1);
    }
  }

  /** 17 lower and 30 upper holes, each an 8 point circle. */
  lemma {:induction false} BatteryCount(m: Math, k: real, offset: P)
    ensures |BatteryContours(m, k, offset)| == 17 + 30
    ensures forall i :: 0 <= i < |BatteryContours(m, k, offset)| ==>
              |BatteryContours(m, k, offset)[i].points| == PointsCount
  {
    var reference := BatteryReference(k, offset);
    LowerPopulatedTotal();
    UpperBatteryCount(m, reference, 10, 0);
    LowerBatteryCircles(m, reference, 9, 0);
    UpperBatteryCircles(m, reference, 10, 0);
    CirclesJoin(LowerBattery(m, reference, 9, 0), UpperBattery(m, reference, 10, 0));
  }

  /** Two lists of circles joined are a list of circles. */
  lemma CirclesJoin(lower: seq<Contour>, upper: seq<Contour>)
    requires forall i :: 0 <= i < |lower| ==> |lower[i].points| == PointsCount
    requires forall i :: 0 <= i < |upper| ==> |upper[i].points| == PointsCount
    ensures forall i :: 0 <= i < |lower + upper| ==> |(lower + upper)[i].points| == PointsCount
  {
    forall i | 0 <= i < |lower + upper|
      ensures |(lower + upper)[i].points| == PointsCount
    {
      if i >= |lower| {
        assert (lower + upper)[i] == upper[i - |lower|];
      }
    }
  }

  // ----- Romi.line_hole_polygons_get (romi_model.py:505-536) -----

  /** The small hole at the end of the line of holes. */
  function SmallLineHole(k: real, offset: P): Hole
  {
    HoleLocate(k, offset, -3.289535, -3.198980, 0.256524, 0.165984)
  }

  /** Hole `i` of the line: `s_center + (i - 1) * hole_vector / 3.0`. */
  function LineHoleCenter(s: P, q: P, i: int): P
  {
    Add(s, Div(Scale(Sub(q, s), (i - 1) as real), 3.0))
  }

  /** What step `i` of the loop adds: a hole unless `i % 3 == 1`. */
  function LineHoleStep(m: Math, small: Hole, s: P, q: P, i: nat): seq<Contour>
  {
    if i % 3 != 1
    then [Contour("Vector Hole " + IntToString(i), CirclePoints(m, LineHoleCenter(s, q, i), small.diameter, PointsCount))]
    else []
  }

  /** The line holes made in the first `t` steps. */
  function LineHolesUpTo(m: Math, small: Hole, s: P, q: P, t: nat): seq<Contour>
  {
    if t == 0 then [] else LineHolesUpTo(m, small, s, q, t - 1) + LineHoleStep(m, small, s, q, t - 1)
  }

  /** Steps of the line (`range(9)`). */
  const LineSteps: nat := 9

  /** What `line_hole_polygons_get` returns for the lower hex table: a
      `KeyError` when 'S' or 'Q' has no location. */
  function LineHoles(m: Math, k: real, offset: P, table: map<char, P>): (r: Result<seq<Contour>>)
    ensures r.Ok? <==> 'S' in table && 'Q' in table
    ensures r.Err? ==> r.error == KeyError(if 'S' !in table then 'S' else 'Q')
  {
    if 'S' !in table then Err(KeyError('S'))
    else if 'Q' !in table then Err(KeyError('Q'))
    else Ok(LineHolesUpTo(m, SmallLineHole(k, offset), table['S'], table['Q'], LineSteps))
  }

  lemma ThirdsStep(t: nat)
    requires t > 0
    ensures (t + 1) / 3 == t / 3 + (if (t - 1) % 3 == 1 then 1 else 0)
  {
    var q, r := (t - 1) / 3, (t - 1) % 3;
    assert t == 3 * q + r + 1;
  }

  /** Two of every three steps make a hole: 6 holes for the 9 steps, each an
      8 point circle. */
  lemma {:induction false} LineHolesCount(m: Math, small: Hole, s: P, q: P, t: nat)
    ensures |LineHolesUpTo(m, small, s, q, t)| == t - (t + 1) / 3
    ensures forall i :: 0 <= i < |LineHolesUpTo(m, small, s, q, t)| ==>
              |LineHolesUpTo(m, small, s, q, t)[i].points| == PointsCount
  {
    if t > 0 {
      LineHolesCount(m, small, s, q, t - 1);
      ThirdsStep(t);
    }
  }

  /** The factor `i - 1` of a step that makes a hole is neither 0 nor 3. */
  lemma StepFactor(i: int)
    requires i % 3 != 1
    ensures (i - 1) as real != 0.0 && (i - 1) as real != 3.0
  {
    assert i != 1 && i != 4;
  }

  /** `s + v * f / 3` is not `s` when `v` is not the origin and `f` is not 0. */
  lemma {:induction false} ThirdsAvoidStart(s: P, v: P, f: real)
    requires v != P(0.0, 0.0, 0.0) && f != 0.0
    ensures Add(s, Div(Scale(v, f), 3.0)) != s
  {
    var w := Scale(v, f);
    if Add(s, Div(w, 3.0)) == s {
      AddOrigin(s, P(0.0, 0.0, 0.0));
      AddCancel(s, Div(w, 3.0), P(0.0, 0.0, 0.0));
      DivUndo(w, P(0.0, 0.0, 0.0), 3.0);
      assert Scale(v, 0.0) == P(0.0, 0.0, 0.0);
      ScaleCancel(v, f, 0.0);
    }
  }

  /** `s + v * f / 3` is not `s + v` when `v` is not the origin and `f` is not 3. */
  lemma {:induction false} ThirdsAvoidEnd(s: P, v: P, f: real)
    requires v != P(0.0, 0.0, 0.0) && f != 3.0
    ensures Add(s, Div(Scale(v, f), 3.0)) != Add(s, v)
  {
    var w := Scale(v, f);
    if Add(s, Div(w, 3.0)) == Add(s, v) {
      AddCancel(s, Div(w, 3.0), v);
      DivUndo(w, v, 3.0);
      ScaleCancel(v, f, 3.0);
    }
  }

  /** Every step that makes a hole puts it clear of both large holes. */
  lemma {:induction false} LineHolesAvoidLargeHoles(s: P, q: P, i: int)
    requires s != q && i % 3 != 1
    ensures LineHoleCenter(s, q, i) != s && LineHoleCenter(s, q, i) != q
  {
    StepFactor(i);
    var v := Sub(q, s);
    assert Add(s, v) == q;
    ThirdsAvoidStart(s, v, (i - 1) as real);
    ThirdsAvoidEnd(s, v, (i - 1) as real);
  }

  /** `s + v * 0 / 3` is `s`. */
  lemma {:induction false} ThirdsAtStart(s: P, v: P, f: real)
    requires f == 0.0
    ensures Add(s, Div(Scale(v, f), 3.0)) == s
  {
    DivOrigin(Scale(v, f), 3.0);
    AddOrigin(s, Div(Scale(v, f), 3.0));
  }

  /** `s + v * 3 / 3` is `s + v`. */
  lemma {:induction false} ThirdsAtEnd(s: P, v: P, f: real)
    requires f == 3.0
    ensures Add(s, Div(Scale(v, f), 3.0)) == Add(s, v)
  {
    DivOfScale(v, f);
  }

  /** Steps 1 and 4, the ones the loop skips, fall on the large holes 'S' and 'Q'. */
  lemma {:induction false} LineHoleEnds(s: P, q: P, i: int)
    ensures i == 1 ==> LineHoleCenter(s, q, i) == s
    ensures i == 4 ==> LineHoleCenter(s, q, i) == q
  {
    var v := Sub(q, s);
    assert Add(s, v) == q;
    if i == 1 {
      ThirdsAtStart(s, v, (i - 1) as real);
    } else if i == 4 {
      ThirdsAtEnd(s, v, (i - 1) as real);
    }
  }

  // ----- Romi.arc_hole_rectangle_polygons_get (romi_model.py:70-168) -----

  /** The measurements the arc of holes and rectangles is built from. */
  datatype ArcLayout = ArcLayout(startDiameter: real, startAngle: real, endAngle: real,
                                 holeRadius: real, rectangleRadius: real, width: real,
                                 largeLength: real, smallLength: real)

  /** Holes (and rectangles) along the arc (`lower_holes_count`). */
  const ArcHolesCount: int := 13

  /** The diameter of the holes not at a multiple of 3. */
  const ArcSmallHoleDiameter: real := 1.2

  function ArcLayoutOf(m: Math, k: real, offset: P): ArcLayout
  {
    var lowerStart := HoleLocate(k, offset, -1.483063, -1.357508, 1.348929, 1.223803);
    var startAngle := m.atan2(lowerStart.center.y, lowerStart.center.x);
    var lowerEnd := HoleLocate(k, offset, -3.229035, -3.354591, 0.10461, -0.020516);
    var endAngle := m.atan2(lowerEnd.center.y, lowerEnd.center.x);
    var origin := P(0.0, 0.0, 0.0);
    var holeRadius := Distance(m, origin, lowerStart.center);
    var largeUpperLeft := Sub(P2(-1.248201 * k, 1.259484 * k), offset);
    var largeLowerLeft := Sub(P2(-1.33137 * k, 1.136248 * k), offset);
    var largeUpperRight := Sub(P2(-1.205772 * k, 1.230858 * k), offset);
    var largeLength := Distance(m, largeUpperLeft, largeLowerLeft);
    var width := Distance(m, largeUpperLeft, largeUpperRight);
    var rectangleCenter := Div(Add(largeUpperRight, largeLowerLeft), 2.0);
    var rectangleRadius := Distance(m, origin, rectangleCenter);
    var smallUpperLeft := Sub(P2(-1.368228 * k, 1.081638 * k), offset);
    var smallLowerLeft := Sub(P2(-1.431575 * k, 0.987760 * k), offset);
    var smallLength := Distance(m, smallUpperLeft, smallLowerLeft);
    ArcLayout(lowerStart.diameter, startAngle, endAngle, holeRadius, rectangleRadius, width,
              largeLength, smallLength)
  }

  /** The point at `radius` from the robot centre in direction `angle`. */
  function AtAngle(m: Math, radius: real, angle: real): (p: P)
    ensures p == PolarPoint(m, P(0.0, 0.0, 0.0), radius, angle)
  {
    P2(radius * m.cos(angle), radius * m.sin(angle))
  }

  /** Hole `i` of the arc; every third one, from the first, is large. */
  function ArcHole(m: Math, layout: ArcLayout, i: nat): Contour
  {
    var angle := ArcAngle(layout.startAngle, layout.endAngle, ArcHolesCount, i);
    Contour("Lower hole " + IntToString(i),
            CirclePoints(m, AtAngle(m, layout.holeRadius, angle),
                         if i % 3 == 0 then layout.startDiameter else ArcSmallHoleDiameter, PointsCount))
  }

  /** Rectangle `i` of the arc, turned to the hole's angle; every third one
      is long. */
  function ArcRectangle(m: Math, layout: ArcLayout, i: nat): Contour
  {
    var angle := ArcAngle(layout.startAngle, layout.endAngle, ArcHolesCount, i);
    Contour("Lower left rectangle " + IntToString(i),
            RectanglePoints(m, AtAngle(m, layout.rectangleRadius, angle),
                            layout.width, if i % 3 == 0 then layout.largeLength else layout.smallLength, angle))
  }

  /** The hole and rectangle pairs of the first `t` steps. */
  function ArcPairs(m: Math, layout: ArcLayout, t: nat): seq<Contour>
  {
    if t == 0 then [] else ArcPairs(m, layout, t - 1) + [ArcHole(m, layout, t - 1), ArcRectangle(m, layout, t - 1)]
  }

  /** What `arc_hole_rectangle_polygons_get` returns. */
  function ArcHoleRectangles(m: Math, k: real, offset: P): seq<Contour>
  {
    ArcPairs(m, ArcLayoutOf(m, k, offset), ArcHolesCount)
  }

  /** Step `i` contributes hole `i` and then rectangle `i`. */
  lemma {:induction false} ArcPairsAt(m: Math, layout: ArcLayout, t: nat, i: nat)
    requires i < t
    ensures |ArcPairs(m, layout, t)| == 2 * t
    ensures ArcPairs(m, layout, t)[2 * i] == ArcHole(m, layout, i)
    ensures ArcPairs(m, layout, t)[2 * i + 1] == ArcRectangle(m, layout, i)
  {
    if i < t - 1 {
      ArcPairsAt(m, layout, t - 1, i);
    } else if t > 1 {
      ArcPairsAt(m, layout, t - 1, 0);
    }
  }

  /** The hole centres are the points of an arc from the first hole's
      angle to the last one's. */
  lemma {:induction false} ArcHolesOnArc(m: Math, layout: ArcLayout, i: nat)
    requires i < ArcHolesCount
    ensures ArcHole(m, layout, i).points
         == CirclePoints(m, ArcPoints(m, P(0.0, 0.0, 0.0), layout.holeRadius, layout.startAngle,
                                      layout.endAngle, ArcHolesCount)[i],
                         if i % 3 == 0 then layout.startDiameter else ArcSmallHoleDiameter, PointsCount)
  {
    var angle := ArcAngle(layout.startAngle, layout.endAngle, ArcHolesCount, i);
    var arc := ArcPoints(m, P(0.0, 0.0, 0.0), layout.holeRadius, layout.startAngle, layout.endAngle, ArcHolesCount);
    assert arc[i] == AtAngle(m, layout.holeRadius, angle);
  }



  /** Each rectangle lies on the same ray from the robot centre as its
      hole, at the rectangle radius instead of the hole radius. */
  lemma {:induction false} ArcRectangleOnRay(m: Math, layout: ArcLayout, i: nat)
    requires layout.holeRadius != 0.0
    ensures var angle := ArcAngle(layout.startAngle, layout.endAngle, ArcHolesCount, i);
      ArcRectangle(m, layout, i).points
      == RectanglePoints(m, Scale(AtAngle(m, layout.holeRadius, angle), layout.rectangleRadius / layout.holeRadius),
                         layout.width, if i % 3 == 0 then layout.largeLength else layout.smallLength, angle)
  {
    var angle := ArcAngle(layout.startAngle, layout.endAngle, ArcHolesCount, i);
    AtAngleScaled(m, layout.holeRadius, layout.rectangleRadius, angle);
  }

  /** Scaling the point at radius `r` by `big / r` gives the point at radius `big`. */
  lemma AtAngleScaled(m: Math, r: real, big: real, angle: real)
    requires r != 0.0
    ensures Scale(AtAngle(m, r, angle), big / r) == AtAngle(m, big, angle)
  {
    var c, s := m.cos(angle), m.sin(angle);
    assert r * c * (big / r) == big * c;
    assert r * s * (big / r) == big * s;
  }


  // ----- Romi.upper_hex_polygons_get, lower_hex_polygons_table_get
  //       (romi_model.py:539-581, 598-633) -----

  /** The pitches and slot size of both hex patterns: rows 7.5 mm apart,
      columns `7.5 / sqrt(3)` apart, and the slot measured on the .dxf. */
  function HexPitches(m: Math, k: real): Pitches
    requires m.sqrt(3.0) != 0.0
  {
    var hexDyPitch := 7.50;
    var halfHexDxPitch := hexDyPitch / m.sqrt(3.0);
    var slotLeftX := -2.437146 * k;
    var slotRightX := -2.346591 * k;
    var slotTopY := 1.339205 * k;
    var slotBottomY := 1.051803 * k;
    var slotDx := slotRightX - slotLeftX;
    var slotDy := slotTopY - slotBottomY;
    Pitches(halfHexDxPitch, hexDyPitch, slotDy - slotDx, slotDx)
  }

  const UpperHexRows: seq<string> := ["a------", "-A-O---", "b-B-C-c", "---d---"]
  const UpperSlotPairs: seq<string> := ["aO", "bO", "dO", "cO"]

  const LowerHexRows: seq<string> :=
    ["---A-B-C-D-", "----E-O-F-G", "---a-H-I-J-", "----K-L-M--", "---N-Q-----", "R-S---------"]
  const LowerSlotPairs: seq<string> :=
    ["AO", "OD", "Aa", "aO", "JO", "DJ", "OL", "aL", "LJ", "aN", "NL", "RN"]

  /** The hole at 'O' of the upper pattern, the one at the end of its 4 slots. */
  function UpperHexHole(k: real, offset: P): Hole
  {
    HoleLocate(k, offset, -2.749535, -2.629075, 5.441567, 5.316441)
  }

  /** The hole at 'O' of the lower pattern. */
  function LowerHexHole(k: real, offset: P): Hole
  {
    HoleLocate(k, offset, -2.454646, -2.329091, 1.553776, 1.428650)
  }

  function UpperHex(m: Math, k: real, offset: P): Result<(seq<Contour>, map<char, P>)>
    requires m.sqrt(3.0) != 0.0
  {
    var hole := UpperHexHole(k, offset);
    HexPattern(m, HexPitches(m, k), UpperHexRows, UpperSlotPairs, hole.center, hole.diameter)
  }

  function LowerHex(m: Math, k: real, offset: P): Result<(seq<Contour>, map<char, P>)>
    requires m.sqrt(3.0) != 0.0
  {
    var hole := LowerHexHole(k, offset);
    HexPattern(m, HexPitches(m, k), LowerHexRows, LowerSlotPairs, hole.center, hole.diameter)
  }

  /** The upper pattern has its anchor and every slot letter. */
  lemma {:induction false} UpperHexSucceeds(m: Math, k: real, offset: P)
    requires m.sqrt(3.0) != 0.0
    ensures UpperHex(m, k, offset).Ok?
  {
    var rows := UpperHexRows;
    assert Occurs(rows, 'O') by { assert rows[1][3] == 'O'; }
    assert Occurs(rows, 'a') by { assert rows[0][0] == 'a'; }
    assert Occurs(rows, 'b') by { assert rows[2][0] == 'b'; }
    assert Occurs(rows, 'c') by { assert rows[2][6] == 'c'; }
    assert Occurs(rows, 'd') by { assert rows[3][3] == 'd'; }
    assert forall i :: 0 <= i < |UpperSlotPairs| ==> PairLocated(rows, UpperSlotPairs[i]);
    var hole := UpperHexHole(k, offset);
    HexPatternSucceeds(m, HexPitches(m, k), rows, UpperSlotPairs, hole.center, hole.diameter);
  }

  /** Where the letters the lower slots and the line of holes use sit. */
  lemma LowerHexLetters()
    ensures Occurs(LowerHexRows, 'A') && Occurs(LowerHexRows, 'D') && Occurs(LowerHexRows, 'O')
    ensures Occurs(LowerHexRows, 'a') && Occurs(LowerHexRows, 'J') && Occurs(LowerHexRows, 'L')
    ensures Occurs(LowerHexRows, 'N') && Occurs(LowerHexRows, 'Q') && Occurs(LowerHexRows, 'R')
    ensures Occurs(LowerHexRows, 'S')
  {
    var rows := LowerHexRows;
    assert rows[0][3] == 'A' && rows[0][9] == 'D' && rows[1][6] == 'O';
    assert rows[2][3] == 'a' && rows[2][9] == 'J' && rows[3][6] == 'L';
    assert rows[4][3] == 'N' && rows[4][5] == 'Q' && rows[5][0] == 'R';
    assert rows[5][2] == 'S';
  }

  /** The lower pattern has its anchor and every slot letter, and it
      locates 'S' and 'Q' for the line of holes. */
  lemma {:induction false} LowerHexSucceeds(m: Math, k: real, offset: P)
    requires m.sqrt(3.0) != 0.0
    ensures LowerHex(m, k, offset).Ok?
    ensures 'S' in LowerHex(m, k, offset).value.1 && 'Q' in LowerHex(m, k, offset).value.1
  {
    LowerHexLetters();
    assert forall i :: 0 <= i < |LowerSlotPairs| ==> PairLocated(LowerHexRows, LowerSlotPairs[i]);
    var hole := LowerHexHole(k, offset);
    HexPatternSucceeds(m, HexPitches(m, k), LowerHexRows, LowerSlotPairs, hole.center, hole.diameter);
  }

  // ----- Romi.base_scad_polygon_generate (romi_model.py:248-287) -----

  /** The polygons of the base joined in order: the outline first, then the
      upper and lower hex patterns, the battery holes, the line of holes and
      the arc of holes and rectangles. */
  function BaseJoin(outline: Contour, upper: seq<Contour>, lower: seq<Contour>, battery: seq<Contour>,
                    line: seq<Contour>, arc: seq<Contour>): (all: seq<Contour>)
    ensures |all| == 1 + |upper| + |lower| + |battery| + |line| + |arc|
    ensures all[0] == outline
  {
    [outline] + upper + lower + battery + line + arc
  }

  /** The base from its parts, of which the upper hex pattern, the lower hex
      pattern and the line of holes can fail, and are fetched in that order. */
  function BaseFrom(outline: Contour, upper: Result<(seq<Contour>, map<char, P>)>,
                    lower: Result<(seq<Contour>, map<char, P>)>, battery: seq<Contour>,
                    line: Result<seq<Contour>>, arc: seq<Contour>): (r: Result<seq<Contour>>)
    ensures r.Ok? <==> upper.Ok? && lower.Ok? && line.Ok?
  {
    if upper.Err? then Err(upper.error)
    else if lower.Err? then Err(lower.error)
    else if line.Err? then Err(line.error)
    else Ok(BaseJoin(outline, upper.value.0, lower.value.0, battery, line.value, arc))
  }

  /** Parts that all succeed are joined. */
  lemma BaseFromOk(outline: Contour, upper: Result<(seq<Contour>, map<char, P>)>,
                   lower: Result<(seq<Contour>, map<char, P>)>, battery: seq<Contour>,
                   line: Result<seq<Contour>>, arc: seq<Contour>)
    requires upper.Ok? && lower.Ok? && line.Ok?
    ensures BaseFrom(outline, upper, lower, battery, line, arc)
         == Ok(BaseJoin(outline, upper.value.0, lower.value.0, battery, line.value, arc))
  {
  }

  /** The polygons of the base: the outline, the two hex patterns, the
      battery holes, the line of holes placed from the lower pattern's table
      (not reached when that pattern fails) and the arc of holes and
      rectangles. */
  function BaseContours(m: Math, k: real, offset: P): Result<seq<Contour>>
    requires m.sqrt(3.0) != 0.0
  {
    var lower := LowerHex(m, k, offset);
    var line := if lower.Ok? then LineHoles(m, k, offset, lower.value.1) else Err(lower.error);
    BaseFrom(Contour("Romi Base Exterior", OutlinePoints(m)), UpperHex(m, k, offset), lower,
             BatteryContours(m, k, offset), line, ArcHoleRectangles(m, k, offset))
  }

  /** The hole lists of the base as its definition computes them: both hex
      patterns succeed, the line of holes is placed from the lower pattern's
      table, and the arc of holes and rectangles follows. */
  predicate HoleParts(m: Math, k: real, offset: P, upper: seq<Contour>, lower: seq<Contour>,
                      line: seq<Contour>, arc: seq<Contour>)
    requires m.sqrt(3.0) != 0.0
  {
    && UpperHex(m, k, offset).Ok? && upper == UpperHex(m, k, offset).value.0
    && LowerHex(m, k, offset).Ok? && lower == LowerHex(m, k, offset).value.0
    && LineHoles(m, k, offset, LowerHex(m, k, offset).value.1).Ok?
    && line == LineHoles(m, k, offset, LowerHex(m, k, offset).value.1).value
    && arc == ArcHoleRectangles(m, k, offset)
  }

  /** The base put together from its parts: when the parts are those its
      definition computes, the base is their join. */
  lemma BaseContoursFrom(m: Math, k: real, offset: P, outline: Contour, upper: seq<Contour>,
                         lower: seq<Contour>, battery: seq<Contour>, line: seq<Contour>, arc: seq<Contour>,
                         joined: seq<Contour>)
    requires m.sqrt(3.0) != 0.0
    ensures outline == Contour("Romi Base Exterior", OutlinePoints(m)) && battery == BatteryContours(m, k, offset)
            && HoleParts(m, k, offset, upper, lower, line, arc)
            && joined == BaseJoin(outline, upper, lower, battery, line, arc) ==>
              BaseContours(m, k, offset) == Ok(joined)
  {
    if HoleParts(m, k, offset, upper, lower, line, arc) {
      BaseFromOk(Contour("Romi Base Exterior", OutlinePoints(m)), UpperHex(m, k, offset), LowerHex(m, k, offset),
                 BatteryContours(m, k, offset), LineHoles(m, k, offset, LowerHex(m, k, offset).value.1),
                 ArcHoleRectangles(m, k, offset));
    }
  }

  /** The base never fails: both hex patterns succeed and the lower one
      locates the ends of the line of holes. */
  lemma {:induction false} BaseContoursOk(m: Math, k: real, offset: P)
    requires m.sqrt(3.0) != 0.0
    ensures BaseContours(m, k, offset).Ok?
  {
    UpperHexSucceeds(m, k, offset);
    LowerHexSucceeds(m, k, offset);
  }

  /** The first polygon of the base is the outline. */
  lemma {:induction false} BaseContoursOutlineFirst(m: Math, k: real, offset: P)
    requires m.sqrt(3.0) != 0.0
    ensures BaseContours(m, k, offset).Ok?
    ensures BaseContours(m, k, offset).value[0] == Contour("Romi Base Exterior", OutlinePoints(m))
  {
    BaseContoursOk(m, k, offset);
  }

  /** After the outline come the two hex patterns, the 47 battery holes, the
      6 holes of the line and the 13 arc holes with their 13 rectangles. */
  lemma {:induction false} BaseContoursCount(m: Math, k: real, offset: P)
    requires m.sqrt(3.0) != 0.0
    ensures BaseContours(m, k, offset).Ok?
    ensures |BaseContours(m, k, offset).value|
         == 1 + |UpperHex(m, k, offset).value.0| + |LowerHex(m, k, offset).value.0| + 47 + 6 + 2 * 13
  {
    BaseContoursOk(m, k, offset);
    var table := LowerHex(m, k, offset).value.1;
    LineHolesCount(m, SmallLineHole(k, offset), table['S'], table['Q'], LineSteps);
    BatteryCount(m, k, offset);
    ArcPairsAt(m, ArcLayoutOf(m, k, offset), ArcHolesCount, 0);
  }
}
