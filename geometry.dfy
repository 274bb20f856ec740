/** The point value type `P` of scad.py and the mathematical functions the
    core calls. Coordinates are exact reals; floating point is not modelled. */
module Geometry {

  /** A 3 dimensional point; every operation returns a new point. */
  datatype P = P(x: real, y: real, z: real)

  /** The point `P(x, y)` of the source, whose `z` defaults to 0. */
  function P2(x: real, y: real): (r: P)
    ensures r.x == x && r.y == y && r.z == 0.0
  {
    P(x, y, 0.0)
  }

  /** The functions of Python's `math` module that the core uses. They are
      carried as values so that nothing is assumed about them: a lemma that
      needs a fact (sin^2 + cos^2 = 1, say) states it as a precondition. */
  datatype Math = Math(
    pi: real,
    sin: real -> real,
    cos: real -> real,
    atan2: (real, real) -> real,
    asin: real -> real,
    sqrt: real -> real)

  /** sin^2 + cos^2 = 1 at one angle. */
  predicate UnitAt(m: Math, angle: real)
  {
    m.sin(angle) * m.sin(angle) + m.cos(angle) * m.cos(angle) == 1.0
  }

  /** Turning by pi negates both sine and cosine at one angle. */
  predicate HalfTurnAt(m: Math, angle: real)
  {
    m.cos(angle + m.pi) == -m.cos(angle) && m.sin(angle + m.pi) == -m.sin(angle)
  }

  /** sqrt returns the non-negative root of `v`. */
  predicate RootAt(m: Math, v: real)
  {
    v >= 0.0 ==> m.sqrt(v) >= 0.0 && m.sqrt(v) * m.sqrt(v) == v
  }

  /** `P.__add__`: componentwise sum. */
  function Add(a: P, b: P): P
  {
    P(a.x + b.x, a.y + b.y, a.z + b.z)
  }

  /** `P.__sub__`: componentwise difference, the inverse of `Add`. */
  function Sub(a: P, b: P): (r: P)
    ensures Add(r, b) == a
  {
    P(a.x - b.x, a.y - b.y, a.z - b.z)
  }

  /** `P.__mul__` and `P.__rmul__` (the two bodies are the same). */
  function Scale(p: P, k: real): (r: P)
    ensures k == 1.0 ==> r == p
    ensures k == 0.0 ==> r == P(0.0, 0.0, 0.0)
  {
    P(p.x * k, p.y * k, p.z * k)
  }

  /** `P.__truediv__`, the inverse of `Scale` by the same factor. */
  function Div(p: P, k: real): (r: P)
    requires k != 0.0
    ensures Scale(r, k) == p
  {
    P(p.x / k, p.y / k, p.z / k)
  }

  /** Addition does not depend on the order of its operands. */
  lemma AddCommutes(a: P, b: P)
    ensures Add(a, b) == Add(b, a)
  {
  }

  /** Subtracting what was just added gives the point back. */
  lemma SubOfAdd(a: P, b: P)
    ensures Sub(Add(a, b), b) == a
  {
  }

  /** Adding the origin changes nothing. */
  lemma AddOrigin(p: P, o: P)
    requires o == P(0.0, 0.0, 0.0)
    ensures Add(p, o) == p
  {
  }

  /** Adding the same point on the left can be undone. */
  lemma {:induction false} AddCancel(p: P, a: P, b: P)
    requires Add(p, a) == Add(p, b)
    ensures a == b
  {
    assert Add(p, a).x == Add(p, b).x;
  }

  /** Dividing the origin gives the origin. */
  lemma DivOrigin(o: P, k: real)
    requires k != 0.0 && o == P(0.0, 0.0, 0.0)
    ensures Div(o, k) == o
  {
  }

  /** Dividing by the factor just multiplied by gives the point back. */
  lemma DivOfScale(p: P, k: real)
    requires k != 0.0
    ensures Div(Scale(p, k), k) == p
  {
  }

  /** A quotient multiplied back by the divisor is the dividend. */
  lemma DivUndo(p: P, r: P, k: real)
    requires k != 0.0 && Div(p, k) == r
    ensures p == Scale(r, k)
  {
  }

  lemma {:induction false} ProductCancel(x: real, a: real, b: real)
    requires x * a == x * b && a != b
    ensures x == 0.0
  {
    assert x * (a - b) == 0.0;
  }

  /** Two different multiples of a point agree only for the origin. */
  lemma {:induction false} ScaleCancel(p: P, a: real, b: real)
    requires Scale(p, a) == Scale(p, b) && a != b
    ensures p == P(0.0, 0.0, 0.0)
  {
    ProductCancel(p.x, a, b);
    ProductCancel(p.y, a, b);
    ProductCancel(p.z, a, b);
  }

  /** The sum of squared coordinate differences under the root of `P.distance`. */
  function SquaredDistance(a: P, b: P): (d: real)
    ensures d >= 0.0
  {
    var dx := a.x - b.x;
    var dy := a.y - b.y;
    var dz := a.z - b.z;
    dx * dx + dy * dy + dz * dz
  }

  /** Only equal points are at squared distance zero. */
  lemma {:induction false} SquaredDistanceZero(a: P, b: P)
    ensures SquaredDistance(a, b) == 0.0 <==> a == b
  {
    var dx, dy, dz := a.x - b.x, a.y - b.y, a.z - b.z;
    if SquaredDistance(a, b) == 0.0 {
      SquareSign(dx);
      SquareSign(dy);
      SquareSign(dz);
    }
  }

  lemma SquareSign(v: real)
    ensures v * v >= 0.0
    ensures v * v == 0.0 ==> v == 0.0
  {
    if v > 0.0 {
      SquareMonotone(0.0, v);
    } else if v < 0.0 {
      SquareMonotone(0.0, -v);
      assert (-v) * (-v) == v * v;
    }
  }

  lemma SquareMonotone(s: real, a: real)
    requires 0.0 <= s < a
    ensures s * s < a * a
  {
    calc {
      s * s;
    <= s * a;
    <  a * a;
    }
  }

  /** `P.distance`: where sqrt is a root at the squared distance, the
      distance is its non-negative square root, and it is 0 exactly
      between equal points. */
  function Distance(m: Math, a: P, b: P): (d: real)
    ensures RootAt(m, SquaredDistance(a, b))
            ==> d >= 0.0 && d * d == SquaredDistance(a, b) && (d == 0.0 <==> a == b)
  {
    SquaredDistanceZero(a, b);
    var d := m.sqrt(SquaredDistance(a, b));
    SquareSign(d);
    d
  }

  /** The squared distance in the XY plane (the coordinates a 2D outline uses). */
  function SquaredDistance2d(a: P, b: P): (d: real)
    ensures d >= 0.0
  {
    (a.x - b.x) * (a.x - b.x) + (a.y - b.y) * (a.y - b.y)
  }

  /** A vector of length `r` along a unit direction has squared length `r * r`. */
  lemma ScaledUnit(r: real, s: real, c: real)
    requires s * s + c * c == 1.0
    ensures (r * s) * (r * s) + (r * c) * (r * c) == r * r
  {
    calc {
      (r * s) * (r * s) + (r * c) * (r * c);
      r * r * (s * s + c * c);
      r * r;
    }
  }

  lemma NegatedSquare(x: real)
    ensures (-x) * (-x) == x * x
  {
  }

  /** `P.rotate2d`: counter-clockwise rotation about the origin; `z` becomes 0. */
  function Rotate2d(m: Math, p: P, angle: real): (r: P)
    ensures r.z == 0.0
  {
    var s := m.sin(angle);
    var c := m.cos(angle);
    P(p.x * c - p.y * s, p.y * c + p.x * s, 0.0)
  }

  /** `P.y_mirror`: negates `x` and, as the source does, `z`. */
  function YMirror(p: P): (r: P)
    ensures r.y == p.y
    ensures Add(r, p) == P(0.0, 2.0 * p.y, 0.0)
  {
    P(-p.x, p.y, -p.z)
  }

  lemma YMirrorInvolution(p: P)
    ensures YMirror(YMirror(p)) == p
  {
  }

  lemma {:induction false} DistanceSymmetric(m: Math, a: P, b: P)
    ensures Distance(m, a, b) == Distance(m, b, a)
  {
    assert (a.x - b.x) * (a.x - b.x) == (b.x - a.x) * (b.x - a.x);
    assert (a.y - b.y) * (a.y - b.y) == (b.y - a.y) * (b.y - a.y);
    assert (a.z - b.z) * (a.z - b.z) == (b.z - a.z) * (b.z - a.z);
  }

  /** A non-negative root of a square is the absolute value. */
  lemma {:induction false} RootOfSquare(m: Math, v: real)
    requires RootAt(m, v * v)
    ensures m.sqrt(v * v) == if v < 0.0 then -v else v
  {
    SquareSign(v);
    var s := m.sqrt(v * v);
    var a := if v < 0.0 then -v else v;
    assert a * a == v * v;
    assert s >= 0.0 && s * s == a * a;
    if s < a {
      SquareMonotone(s, a);
    } else if a < s {
      SquareMonotone(a, s);
    }
  }

  /** The distance between two points lying on the XY plane and `r` apart
      horizontally is `r`, given sqrt's defining property. */
  lemma {:induction false} DistanceOfPlanarPoints(m: Math, a: P, b: P, r: real)
    requires a.z == 0.0 && b.z == 0.0
    requires r >= 0.0 && SquaredDistance2d(a, b) == r * r
    requires RootAt(m, r * r)
    ensures Distance(m, a, b) == r
  {
    assert SquaredDistance(a, b) == r * r;
    RootOfSquare(m, r);
  }

  /** Rotation preserves the distance from the origin in the XY plane. */
  lemma {:induction false} Rotate2dPreservesNorm(m: Math, p: P, angle: real)
    requires UnitAt(m, angle)
    ensures SquaredDistance2d(Rotate2d(m, p, angle), P(0.0, 0.0, 0.0))
         == SquaredDistance2d(p, P(0.0, 0.0, 0.0))
  {
    var s, c := m.sin(angle), m.cos(angle);
    var x, y := p.x, p.y;
    calc {
      (x * c - y * s) * (x * c - y * s) + (y * c + x * s) * (y * c + x * s);
      x * x * (c * c + s * s) + y * y * (c * c + s * s);
      { assert c * c + s * s == 1.0; }
      x * x + y * y;
    }
  }

  /** Rotation is linear: it commutes with scaling (so with negation). */
  lemma {:induction false} Rotate2dScale(m: Math, p: P, k: real, angle: real)
    ensures Rotate2d(m, Scale(p, k), angle) == Scale(Rotate2d(m, p, angle), k)
  {
    var s, c := m.sin(angle), m.cos(angle);
    assert (p.x * k) * c - (p.y * k) * s == (p.x * c - p.y * s) * k;
    assert (p.y * k) * c + (p.x * k) * s == (p.y * c + p.x * s) * k;
  }

  /** Rotation by an angle whose sine is 0 and cosine is 1 only drops `z`. */
  lemma Rotate2dByZero(m: Math, p: P, angle: real)
    requires m.sin(angle) == 0.0 && m.cos(angle) == 1.0
    ensures Rotate2d(m, p, angle) == P2(p.x, p.y)
  {
  }
}
