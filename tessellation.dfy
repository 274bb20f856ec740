/** The point sequences that the `Polygon` appenders of scad.py add: arcs,
    circles, rotated rectangles and slots, as functions of their arguments,
    with the geometric facts that hold of them. */
module Tessellation {
  import opened Geometry

  /** The point at `angle` on the circle of `radius` about `center`, on the
      XY plane (`P(x, y)` in the source). */
  function PolarPoint(m: Math, center: P, radius: real, angle: real): (p: P)
    ensures p.z == 0.0
  {
    P2(center.x + radius * m.cos(angle), center.y + radius * m.sin(angle))
  }

  /** A point at `angle` lies `radius` away from `center` in the XY plane. */
  lemma {:induction false} PolarOnCircle(m: Math, center: P, radius: real, angle: real)
    requires UnitAt(m, angle)
    ensures SquaredDistance2d(PolarPoint(m, center, radius, angle), center) == radius * radius
  {
    var c, s := m.cos(angle), m.sin(angle);
    var p := PolarPoint(m, center, radius, angle);
    assert p.x - center.x == radius * c && p.y - center.y == radius * s;
    calc {
      (radius * c) * (radius * c) + (radius * s) * (radius * s);
      radius * radius * (c * c + s * s);
      { assert s * s + c * c == 1.0; }
      radius * radius;
    }
  }

  /** Two points at the same radius, half a turn apart, offset from the two
      centres by opposite vectors. */
  lemma PolarHalfTurnSum(m: Math, c1: P, c2: P, radius: real, angle: real)
    requires HalfTurnAt(m, angle)
    ensures PolarPoint(m, c1, radius, angle).x + PolarPoint(m, c2, radius, angle + m.pi).x == c1.x + c2.x
    ensures PolarPoint(m, c1, radius, angle).y + PolarPoint(m, c2, radius, angle + m.pi).y == c1.y + c2.y
  {
    assert radius * m.cos(angle + m.pi) == -(radius * m.cos(angle));
    assert radius * m.sin(angle + m.pi) == -(radius * m.sin(angle));
  }

  // ----- Polygon.arc_append (scad.py:188-219) -----

  /** The angle of arc point `i`: `start_angle + index * delta_angle` with
      `delta_angle = (end_angle - start_angle) / (points_count - 1)`. */
  function ArcAngle(startAngle: real, endAngle: real, count: int, i: int): real
    requires count >= 2
  {
    startAngle + (i as real) * ((endAngle - startAngle) / ((count - 1) as real))
  }

  /** Turning both ends of an arc by `delta` turns each of its angles by `delta`. */
  lemma ArcAngleShift(startAngle: real, endAngle: real, count: int, i: int, delta: real)
    requires count >= 2
    ensures ArcAngle(startAngle + delta, endAngle + delta, count, i)
         == ArcAngle(startAngle, endAngle, count, i) + delta
  {
    assert (endAngle + delta) - (startAngle + delta) == endAngle - startAngle;
  }

  /** The points `arc_append` adds. A count of 1 raises instead (the step
      divides by zero) and a count below 1 adds nothing. */
  function ArcPoints(m: Math, center: P, radius: real, startAngle: real, endAngle: real,
                     count: int): (ps: seq<P>)
    ensures |ps| == if count >= 2 then count else 0
  {
    if count < 2 then []
    else seq(count, i requires 0 <= i < count =>
               PolarPoint(m, center, radius, ArcAngle(startAngle, endAngle, count, i)))
  }

  /** The first arc point is at `start_angle`, the last one at `end_angle`. */
  lemma {:induction false} ArcEndpoints(m: Math, center: P, radius: real,
                                         startAngle: real, endAngle: real, count: int)
    requires count >= 2
    ensures ArcPoints(m, center, radius, startAngle, endAngle, count)[0]
         == PolarPoint(m, center, radius, startAngle)
    ensures ArcPoints(m, center, radius, startAngle, endAngle, count)[count - 1]
         == PolarPoint(m, center, radius, endAngle)
  {
    var n := (count - 1) as real;
    var span := endAngle - startAngle;
    assert ArcAngle(startAngle, endAngle, count, 0) == startAngle;
    calc {
      ArcAngle(startAngle, endAngle, count, count - 1);
      startAngle + n * (span / n);
      { assert n * (span / n) == span; }
      endAngle;
    }
  }

  /** Successive arc points are the same angle apart. */
  lemma {:induction false} ArcEvenSteps(startAngle: real, endAngle: real, count: int, i: int)
    requires count >= 2
    ensures ArcAngle(startAngle, endAngle, count, i + 1) - ArcAngle(startAngle, endAngle, count, i)
         == (endAngle - startAngle) / ((count - 1) as real)
  {
    var d := (endAngle - startAngle) / ((count - 1) as real);
    assert ((i + 1) as real) * d == (i as real) * d + d;
  }

  /** Every arc point lies `radius` from `center`. */
  lemma {:induction false} ArcOnCircle(m: Math, center: P, radius: real,
                                       startAngle: real, endAngle: real, count: int, i: int)
    requires count >= 2 && 0 <= i < count
    requires UnitAt(m, ArcAngle(startAngle, endAngle, count, i))
    ensures SquaredDistance2d(ArcPoints(m, center, radius, startAngle, endAngle, count)[i], center)
         == radius * radius
  {
    PolarOnCircle(m, center, radius, ArcAngle(startAngle, endAngle, count, i));
  }

  // ----- Polygon.circle_append (scad.py:222-247) -----

  /** The angle of circle point `i`: `index * (2 * pi) / points_count`. */
  function CircleAngle(m: Math, count: int, i: int): real
    requires count >= 1
  {
    (i as real) * ((2.0 * m.pi) / (count as real))
  }

  /** The points `circle_append` adds on the circle of `diameter / 2`. A count
      of 0 raises instead (the step divides by zero); a negative count adds
      nothing. */
  function CirclePoints(m: Math, center: P, diameter: real, count: int): (ps: seq<P>)
    ensures |ps| == if count >= 1 then count else 0
  {
    if count < 1 then []
    else seq(count, i requires 0 <= i < count =>
               PolarPoint(m, center, diameter / 2.0, CircleAngle(m, count, i)))
  }

  /** The first circle point is at angle 0, i.e. `center + (diameter / 2, 0)`. */
  lemma CircleStartsAtAngleZero(m: Math, center: P, diameter: real, count: int)
    requires count >= 1
    requires m.cos(0.0) == 1.0 && m.sin(0.0) == 0.0
    ensures CirclePoints(m, center, diameter, count)[0] == P2(center.x + diameter / 2.0, center.y)
  {
    assert CircleAngle(m, count, 0) == 0.0;
  }

  /** The angles go round once and stop one step short of a full turn, so the
      first point is not repeated at the end. */
  lemma {:induction false} CircleAnglesWithinOneTurn(m: Math, count: int, i: int)
    requires count >= 1 && 0 <= i < count && m.pi > 0.0
    ensures 0.0 <= CircleAngle(m, count, i) < 2.0 * m.pi
    ensures CircleAngle(m, count, count - 1) == 2.0 * m.pi - (2.0 * m.pi) / (count as real)
  {
    var n := count as real;
    var turn := 2.0 * m.pi;
    var d := turn / n;
    assert d > 0.0;
    assert n * d == turn;
    calc {
      (i as real) * d;
    <= ((count - 1) as real) * d;
    == n * d - d;
    <  turn;
    }
    assert ((count - 1) as real) * d == n * d - d;
  }

  /** Every circle point lies `diameter / 2` from `center`. */
  lemma {:induction false} CircleOnCircle(m: Math, center: P, diameter: real, count: int, i: int)
    requires count >= 1 && 0 <= i < count
    requires UnitAt(m, CircleAngle(m, count, i))
    ensures SquaredDistance2d(CirclePoints(m, center, diameter, count)[i], center)
         == (diameter / 2.0) * (diameter / 2.0)
  {
    PolarOnCircle(m, center, diameter / 2.0, CircleAngle(m, count, i));
  }

  // ----- Polygon.rotated_rectangle_append (scad.py:364-400) -----

  /** The corners `rotated_rectangle_append` adds, in the order upper right,
      lower right, lower left, upper left: each corner of the `dx` by `dy`
      rectangle about the origin, rotated by `angle`, then moved to `center`. */
  function RectanglePoints(m: Math, center: P, dx: real, dy: real, angle: real): (ps: seq<P>)
    ensures |ps| == 4
    ensures forall i :: 0 <= i < 4 ==> ps[i].z == center.z
  {
    var halfDx, halfDy := dx / 2.0, dy / 2.0;
    [Add(center, Rotate2d(m, P2(halfDx, halfDy), angle)),
     Add(center, Rotate2d(m, P2(halfDx, -halfDy), angle)),
     Add(center, Rotate2d(m, P2(-halfDx, -halfDy), angle)),
     Add(center, Rotate2d(m, P2(-halfDx, halfDy), angle))]
  }

  /** Whatever the angle, opposite corners are symmetric about `center`. */
  lemma {:induction false} RectangleCentered(m: Math, center: P, dx: real, dy: real, angle: real)
    ensures var ps := RectanglePoints(m, center, dx, dy, angle);
      && ps[0].x + ps[2].x == 2.0 * center.x && ps[0].y + ps[2].y == 2.0 * center.y
      && ps[1].x + ps[3].x == 2.0 * center.x && ps[1].y + ps[3].y == 2.0 * center.y
  {
    var halfDx, halfDy := dx / 2.0, dy / 2.0;
    Rotate2dScale(m, P2(halfDx, halfDy), -1.0, angle);
    Rotate2dScale(m, P2(halfDx, -halfDy), -1.0, angle);
    assert Scale(P2(halfDx, halfDy), -1.0) == P2(-halfDx, -halfDy);
    assert Scale(P2(halfDx, -halfDy), -1.0) == P2(-halfDx, halfDy);
  }

  /** Rotated sides keep their lengths: `dy` between the right corners and
      between the left ones, `dx` along the top and the bottom. */
  lemma {:induction false} RectangleSides(m: Math, center: P, dx: real, dy: real, angle: real)
    requires UnitAt(m, angle)
    ensures var ps := RectanglePoints(m, center, dx, dy, angle);
      && SquaredDistance2d(ps[0], ps[1]) == dy * dy
      && SquaredDistance2d(ps[1], ps[2]) == dx * dx
      && SquaredDistance2d(ps[2], ps[3]) == dy * dy
      && SquaredDistance2d(ps[3], ps[0]) == dx * dx
  {
    RectangleShortSides(m, center, dx, dy, angle);
    RectangleLongSides(m, center, dx, dy, angle);
  }

  /** Two corners that differ by `(0, dy)` before the rotation are `dy` apart after it. */
  lemma {:induction false} RectangleShortSides(m: Math, center: P, dx: real, dy: real, angle: real)
    requires UnitAt(m, angle)
    ensures var ps := RectanglePoints(m, center, dx, dy, angle);
      SquaredDistance2d(ps[0], ps[1]) == dy * dy && SquaredDistance2d(ps[2], ps[3]) == dy * dy
  {
    var s, c := m.sin(angle), m.cos(angle);
    var ps := RectanglePoints(m, center, dx, dy, angle);
    assert ps[0].x - ps[1].x == -(dy * s) && ps[0].y - ps[1].y == dy * c;
    assert ps[2].x - ps[3].x == dy * s && ps[2].y - ps[3].y == -(dy * c);
    ScaledUnit(dy, s, c);
    NegatedSquare(dy * s);
    NegatedSquare(dy * c);
  }

  /** Two corners that differ by `(dx, 0)` before the rotation are `dx` apart after it. */
  lemma {:induction false} RectangleLongSides(m: Math, center: P, dx: real, dy: real, angle: real)
    requires UnitAt(m, angle)
    ensures var ps := RectanglePoints(m, center, dx, dy, angle);
      SquaredDistance2d(ps[1], ps[2]) == dx * dx && SquaredDistance2d(ps[3], ps[0]) == dx * dx
  {
    var s, c := m.sin(angle), m.cos(angle);
    var ps := RectanglePoints(m, center, dx, dy, angle);
    assert ps[1].x - ps[2].x == dx * c && ps[1].y - ps[2].y == dx * s;
    assert ps[3].x - ps[0].x == -(dx * c) && ps[3].y - ps[0].y == -(dx * s);
    ScaledUnit(dx, s, c);
    NegatedSquare(dx * c);
    NegatedSquare(dx * s);
  }

  /** Unrotated, the corners are `center + (+-dx/2, +-dy/2)` in the order
      upper right, lower right, lower left, upper left. */
  lemma RectangleUnrotated(m: Math, center: P, dx: real, dy: real, angle: real)
    requires m.sin(angle) == 0.0 && m.cos(angle) == 1.0
    ensures RectanglePoints(m, center, dx, dy, angle)
         == [P(center.x + dx / 2.0, center.y + dy / 2.0, center.z),
             P(center.x + dx / 2.0, center.y - dy / 2.0, center.z),
             P(center.x - dx / 2.0, center.y - dy / 2.0, center.z),
             P(center.x - dx / 2.0, center.y + dy / 2.0, center.z)]
  {
  }

  // ----- Polygon.slot_append (scad.py:402-444) -----

  /** The slot centre: the midpoint of the two end points. */
  function SlotCenter(end1: P, end2: P): P
  {
    Div(Add(end1, end2), 2.0)
  }

  /** The slot direction: `atan2` of `end_point1 - end_point2`. */
  function SlotAngle(m: Math, end1: P, end2: P): real
  {
    m.atan2(end1.y - end2.y, end1.x - end2.x)
  }

  /** The centre of the first end cap, half the slot length along the slot angle. */
  function SlotCenter1(m: Math, end1: P, end2: P, slotLength: real): P
  {
    PolarPoint(m, SlotCenter(end1, end2), slotLength / 2.0, SlotAngle(m, end1, end2))
  }

  /** The centre of the second end cap, half the slot length the other way. */
  function SlotCenter2(m: Math, end1: P, end2: P, slotLength: real): P
  {
    PolarPoint(m, SlotCenter(end1, end2), slotLength / 2.0, SlotAngle(m, end1, end2) + m.pi)
  }

  /** The first end cap: the half circle from `slot_angle - pi/2` to `slot_angle + pi/2`. */
  function SlotArc1(m: Math, end1: P, end2: P, slotLength: real, slotWidth: real,
                    count: int): seq<P>
  {
    var angle := SlotAngle(m, end1, end2);
    ArcPoints(m, SlotCenter1(m, end1, end2, slotLength), slotWidth / 2.0,
              angle - m.pi / 2.0, angle + m.pi / 2.0, count)
  }

  /** The second end cap: the same half circle turned by pi. */
  function SlotArc2(m: Math, end1: P, end2: P, slotLength: real, slotWidth: real,
                    count: int): seq<P>
  {
    var angle := SlotAngle(m, end1, end2);
    ArcPoints(m, SlotCenter2(m, end1, end2, slotLength), slotWidth / 2.0,
              angle + m.pi - m.pi / 2.0, angle + m.pi + m.pi / 2.0, count)
  }

  /** The points `slot_append` adds: the two end caps, one after the other. */
  function SlotPoints(m: Math, end1: P, end2: P, slotLength: real, slotWidth: real,
                      count: int): (ps: seq<P>)
    ensures |ps| == if count >= 2 then 2 * count else 0
  {
    SlotArc1(m, end1, end2, slotLength, slotWidth, count)
      + SlotArc2(m, end1, end2, slotLength, slotWidth, count)
  }

  /** The two cap centres are `slot_length` apart: the length is measured from
      centre to centre. */
  lemma {:induction false} SlotCapsApart(m: Math, end1: P, end2: P, slotLength: real)
    requires UnitAt(m, SlotAngle(m, end1, end2)) && HalfTurnAt(m, SlotAngle(m, end1, end2))
    ensures SquaredDistance2d(SlotCenter1(m, end1, end2, slotLength),
                              SlotCenter2(m, end1, end2, slotLength)) == slotLength * slotLength
  {
    var a := SlotAngle(m, end1, end2);
    var c, s := m.cos(a), m.sin(a);
    var h := slotLength / 2.0;
    var c1, c2 := SlotCenter1(m, end1, end2, slotLength), SlotCenter2(m, end1, end2, slotLength);
    assert c1.x - c2.x == slotLength * c && c1.y - c2.y == slotLength * s;
    calc {
      (slotLength * c) * (slotLength * c) + (slotLength * s) * (slotLength * s);
      slotLength * slotLength * (s * s + c * c);
      { assert s * s + c * c == 1.0; }
      slotLength * slotLength;
    }
  }

  /** Point `i` of each end cap, as a point on the circle round its centre;
      the second cap's angle is the first one's plus pi. */
  lemma {:induction false} SlotCapPoints(m: Math, end1: P, end2: P, slotLength: real,
                                         slotWidth: real, count: int, i: int)
    returns (angle: real)
    requires count >= 2 && 0 <= i < count
    ensures var a := SlotAngle(m, end1, end2);
      angle == ArcAngle(a - m.pi / 2.0, a + m.pi / 2.0, count, i)
    ensures var ps := SlotPoints(m, end1, end2, slotLength, slotWidth, count);
      && ps[i] == PolarPoint(m, SlotCenter1(m, end1, end2, slotLength), slotWidth / 2.0, angle)
      && ps[count + i] == PolarPoint(m, SlotCenter2(m, end1, end2, slotLength), slotWidth / 2.0, angle + m.pi)
  {
    var a := SlotAngle(m, end1, end2);
    var d90 := m.pi / 2.0;
    angle := ArcAngle(a - d90, a + d90, count, i);
    ArcAngleShift(a - d90, a + d90, count, i, m.pi);
    assert a + m.pi - d90 == (a - d90) + m.pi && a + m.pi + d90 == (a + d90) + m.pi;
    var ps := SlotPoints(m, end1, end2, slotLength, slotWidth, count);
    assert ps[i] == SlotArc1(m, end1, end2, slotLength, slotWidth, count)[i];
    assert ps[count + i] == SlotArc2(m, end1, end2, slotLength, slotWidth, count)[i];
  }

  /** The second cap is the first one turned half way round the slot centre:
      point `i` of one and point `i` of the other are symmetric about it. */
  lemma {:induction false} SlotPointSymmetric(m: Math, end1: P, end2: P, slotLength: real,
                                              slotWidth: real, count: int, i: int)
    requires count >= 2 && 0 <= i < count
    requires HalfTurnAt(m, SlotAngle(m, end1, end2))
    requires var a := SlotAngle(m, end1, end2);
      HalfTurnAt(m, ArcAngle(a - m.pi / 2.0, a + m.pi / 2.0, count, i))
    ensures var ps := SlotPoints(m, end1, end2, slotLength, slotWidth, count);
      var center := SlotCenter(end1, end2);
      ps[i].x + ps[count + i].x == 2.0 * center.x && ps[i].y + ps[count + i].y == 2.0 * center.y
  {
    var angle := SlotCapPoints(m, end1, end2, slotLength, slotWidth, count, i);
    PolarHalfTurnSum(m, SlotCenter1(m, end1, end2, slotLength), SlotCenter2(m, end1, end2, slotLength),
                     slotWidth / 2.0, angle);
    PolarHalfTurnSum(m, SlotCenter(end1, end2), SlotCenter(end1, end2), slotLength / 2.0,
                     SlotAngle(m, end1, end2));
  }

  /** Every point of the first end cap lies `slot_width / 2` from its centre. */
  lemma {:induction false} SlotFirstCapRound(m: Math, end1: P, end2: P, slotLength: real,
                                             slotWidth: real, count: int, i: int)
    requires count >= 2 && 0 <= i < count
    requires var a := SlotAngle(m, end1, end2);
      UnitAt(m, ArcAngle(a - m.pi / 2.0, a + m.pi / 2.0, count, i))
    ensures SquaredDistance2d(SlotPoints(m, end1, end2, slotLength, slotWidth, count)[i],
                              SlotCenter1(m, end1, end2, slotLength))
         == (slotWidth / 2.0) * (slotWidth / 2.0)
  {
    var a := SlotAngle(m, end1, end2);
    var arc1 := SlotArc1(m, end1, end2, slotLength, slotWidth, count);
    ArcOnCircle(m, SlotCenter1(m, end1, end2, slotLength), slotWidth / 2.0,
                a - m.pi / 2.0, a + m.pi / 2.0, count, i);
    assert SlotPoints(m, end1, end2, slotLength, slotWidth, count)[i] == arc1[i];
  }

  /** Every point of the second end cap lies `slot_width / 2` from its centre. */
  lemma {:induction false} SlotSecondCapRound(m: Math, end1: P, end2: P, slotLength: real,
                                              slotWidth: real, count: int, i: int)
    requires count >= 2 && 0 <= i < count
    requires var a := SlotAngle(m, end1, end2);
      UnitAt(m, ArcAngle(a + m.pi - m.pi / 2.0, a + m.pi + m.pi / 2.0, count, i))
    ensures SquaredDistance2d(SlotPoints(m, end1, end2, slotLength, slotWidth, count)[count + i],
                              SlotCenter2(m, end1, end2, slotLength))
         == (slotWidth / 2.0) * (slotWidth / 2.0)
  {
    var a := SlotAngle(m, end1, end2);
    var arc1 := SlotArc1(m, end1, end2, slotLength, slotWidth, count);
    var arc2 := SlotArc2(m, end1, end2, slotLength, slotWidth, count);
    ArcOnCircle(m, SlotCenter2(m, end1, end2, slotLength), slotWidth / 2.0,
                a + m.pi - m.pi / 2.0, a + m.pi + m.pi / 2.0, count, i);
    assert |arc1| == count;
    assert SlotPoints(m, end1, end2, slotLength, slotWidth, count)[count + i] == arc2[i];
  }
}
