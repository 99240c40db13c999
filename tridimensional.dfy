/** `geometry::d3::Point`: a three-component vector with component-wise
    arithmetic, unary minus, dot and right-handed cross products, rotation
    about an axis, and the same tolerant, NaN-aware lexicographic comparison
    as the two-dimensional point, over x, y and z. */
module Tridimensional {
  import opened Coords
  import Algebra

  /** The three coordinates a point stores. */
  datatype Vector = Vector(x: Coord, y: Coord, z: Coord)

  predicate NaNFree(v: Vector) {
    v.x.Num? && v.y.Num? && v.z.Num?
  }

  /** `Point::zero()`, and what the default constructor stores. */
  function Zero(): (z: Vector)
    ensures NaNFree(z) && z.x.r == 0.0 && z.y.r == 0.0 && z.z.r == 0.0
  {
    Vector(Num(0.0), Num(0.0), Num(0.0))
  }

  /** `Point::xaxis()`. */
  function XAxis(): (a: Vector)
    ensures NaNFree(a) && a.x.r == 1.0 && a.y.r == 0.0 && a.z.r == 0.0
  {
    Vector(Num(1.0), Num(0.0), Num(0.0))
  }

  /** `Point::yaxis()`. */
  function YAxis(): (a: Vector)
    ensures NaNFree(a) && a.y.r == 1.0 && a.x.r == 0.0 && a.z.r == 0.0
  {
    Vector(Num(0.0), Num(1.0), Num(0.0))
  }

  /** `Point::zaxis()`. */
  function ZAxis(): (a: Vector)
    ensures NaNFree(a) && a.z.r == 1.0 && a.x.r == 0.0 && a.y.r == 0.0
  {
    Vector(Num(0.0), Num(0.0), Num(1.0))
  }

  /** One of `xaxis()`, `yaxis()` and `zaxis()`. */
  predicate IsAxis(a: Vector) {
    a == XAxis() || a == YAxis() || a == ZAxis()
  }

  /** `-p`: every coordinate sign-flipped. */
  function Neg(p: Vector): (v: Vector)
    ensures NaNFree(v) <==> NaNFree(p)
  {
    Vector(p.x.Negated(), p.y.Negated(), p.z.Negated())
  }

  /** `lhs + rhs`: component-wise sum. */
  function Add(lhs: Vector, rhs: Vector): (v: Vector)
    ensures NaNFree(v) <==> NaNFree(lhs) && NaNFree(rhs)
  {
    Vector(lhs.x.Plus(rhs.x), lhs.y.Plus(rhs.y), lhs.z.Plus(rhs.z))
  }

  /** `lhs - rhs`: component-wise difference. */
  function Sub(lhs: Vector, rhs: Vector): (v: Vector)
    ensures NaNFree(v) <==> NaNFree(lhs) && NaNFree(rhs)
  {
    Vector(lhs.x.Minus(rhs.x), lhs.y.Minus(rhs.y), lhs.z.Minus(rhs.z))
  }

  /** `p * scalar`: every coordinate multiplied by the scalar. */
  function Scale(p: Vector, scalar: Coord): (v: Vector)
    ensures NaNFree(v) <==> NaNFree(p) && scalar.Num?
  {
    Vector(p.x.Times(scalar), p.y.Times(scalar), p.z.Times(scalar))
  }

  /** `scalar * p`: the same copy-then-`*=` as `p * scalar`. */
  function ScaleLeft(scalar: Coord, p: Vector): (v: Vector)
    ensures NaNFree(v) <==> NaNFree(p) && scalar.Num?
  {
    Scale(p, scalar)
  }

  /** `lhs.dot(rhs)`: the sum of the component-wise products. */
  function Dot(lhs: Vector, rhs: Vector): (d: Coord)
    ensures d.Num? <==> NaNFree(lhs) && NaNFree(rhs)
  {
    lhs.x.Times(rhs.x).Plus(lhs.y.Times(rhs.y)).Plus(lhs.z.Times(rhs.z))
  }

  /** `lhs.cross(rhs)`: the right-handed cross product. */
  function Cross(lhs: Vector, rhs: Vector): (v: Vector)
    ensures NaNFree(lhs) && NaNFree(rhs) ==> NaNFree(v)
  {
    Vector(lhs.y.Times(rhs.z).Minus(lhs.z.Times(rhs.y)),
           lhs.z.Times(rhs.x).Minus(lhs.x.Times(rhs.z)),
           lhs.x.Times(rhs.y).Minus(lhs.y.Times(rhs.x)))
  }

  /** `AngleAxis(angle, axis) * v`, what `rotate` stores and `rotated` returns, with
      the angle given by its cosine `c` and sine `s` and the axis used as given:
      Rodrigues' formula c·v + s·(axis × v) + (1 − c)·(axis · v)·axis, which is the
      product of the angle-axis matrix c·I + s·[axis]× + (1 − c)·axis·axisᵀ with v. */
  function Rotation(c: Coord, s: Coord, axis: Vector, v: Vector): (r: Vector)
    ensures c.Num? && s.Num? && NaNFree(axis) && NaNFree(v) ==> NaNFree(r)
    ensures c.NaN? || s.NaN? || !NaNFree(axis) || !NaNFree(v) ==> r == Vector(NaN, NaN, NaN)
  {
    Add(Add(Scale(v, c), Scale(Cross(axis, v), s)), Scale(axis, AxialWeight(c, axis, v)))
  }

  /** The weight (1 − c)·(axis · v) of the axis in the rotated point. */
  function AxialWeight(c: Coord, axis: Vector, v: Vector): (t: Coord)
    ensures t.Num? <==> c.Num? && NaNFree(axis) && NaNFree(v)
  {
    Dot(axis, v).Times(Num(1.0).Minus(c))
  }

  /** `lhs <=> rhs`: x decides unless it compares equivalent, then y, then z. */
  function Compare(lhs: Vector, rhs: Vector): (o: Ordering)
    ensures o == Equivalent <==> Close(lhs.x, rhs.x) && Close(lhs.y, rhs.y) && Close(lhs.z, rhs.z)
    ensures o == Less <==>
      || Below(lhs.x, rhs.x)
      || (Close(lhs.x, rhs.x) && Below(lhs.y, rhs.y))
      || (Close(lhs.x, rhs.x) && Close(lhs.y, rhs.y) && Below(lhs.z, rhs.z))
    ensures o == Greater <==>
      || Below(rhs.x, lhs.x)
      || (Close(lhs.x, rhs.x) && Below(rhs.y, lhs.y))
      || (Close(lhs.x, rhs.x) && Close(lhs.y, rhs.y) && Below(rhs.z, lhs.z))
    ensures o == Unordered <==>
      || lhs.x.NaN? || rhs.x.NaN?
      || (Close(lhs.x, rhs.x) && (lhs.y.NaN? || rhs.y.NaN?))
      || (Close(lhs.x, rhs.x) && Close(lhs.y, rhs.y) && (lhs.z.NaN? || rhs.z.NaN?))
  {
    var comparison := CompareCoord(lhs.x, rhs.x);
    if comparison != Equivalent then comparison
    else
      var comparison := CompareCoord(lhs.y, rhs.y);
      if comparison != Equivalent then comparison
      else
        var comparison := CompareCoord(lhs.z, rhs.z);
        if comparison != Equivalent then comparison
        else Equivalent
  }

  /** `lhs == rhs`: the comparison is equivalent. */
  function Equal(lhs: Vector, rhs: Vector): (b: bool)
    ensures b <==> Close(lhs.x, rhs.x) && Close(lhs.y, rhs.y) && Close(lhs.z, rhs.z)
  {
    Compare(lhs, rhs) == Equivalent
  }

  /** `lhs != rhs`: the comparison is anything but equivalent. */
  function NotEqual(lhs: Vector, rhs: Vector): (b: bool)
    ensures b <==> !Equal(lhs, rhs)
    ensures b <==>
      !NaNFree(lhs) || !NaNFree(rhs) || !Close(lhs.x, rhs.x) || !Close(lhs.y, rhs.y) || !Close(lhs.z, rhs.z)
  {
    Compare(lhs, rhs) != Equivalent
  }

  /** Swapping the operands reverses the comparison; `==` and `!=` are symmetric. */
  lemma CompareSwap(a: Vector, b: Vector)
    ensures Compare(b, a) == Compare(a, b).Reverse()
    ensures Equal(b, a) == Equal(a, b)
    ensures NotEqual(b, a) == NotEqual(a, b)
  {
  }

  /** The first coordinate that does not compare equivalent decides, whatever
      the coordinates after it are. */
  lemma CompareShortCircuit(a: Vector, b: Vector, a': Vector, b': Vector)
    requires a.x == a'.x && b.x == b'.x
    ensures CompareCoord(a.x, b.x) != Equivalent ==>
      Compare(a, b) == Compare(a', b') == CompareCoord(a.x, b.x)
    ensures CompareCoord(a.x, b.x) == Equivalent && a.y == a'.y && b.y == b'.y && CompareCoord(a.y, b.y) != Equivalent ==>
      Compare(a, b) == Compare(a', b') == CompareCoord(a.y, b.y)
  {
  }

  /** A point equals itself exactly when it holds no NaN. */
  lemma EqualReflexive(a: Vector)
    ensures Equal(a, a) <==> NaNFree(a)
  {
  }

  /** A point with a NaN coordinate is unequal to every point, in either order. */
  lemma NaNIsUnequal(a: Vector, b: Vector)
    requires !NaNFree(a)
    ensures NotEqual(a, b) && NotEqual(b, a)
    ensures !Equal(a, b) && !Equal(b, a)
  {
  }

  lemma AddCommutative(a: Vector, b: Vector)
    ensures Add(a, b) == Add(b, a)
    ensures NaNFree(a) && NaNFree(b) ==> Equal(Add(a, b), Add(b, a))
  {
  }

  lemma AddAssociative(a: Vector, b: Vector, c: Vector)
    ensures Add(Add(a, b), c) == Add(a, Add(b, c))
    ensures NaNFree(a) && NaNFree(b) && NaNFree(c) ==> Equal(Add(Add(a, b), c), Add(a, Add(b, c)))
  {
  }

  /** `zero()` is neutral for addition; the result equals the operand unless it holds a NaN. */
  lemma AddZero(a: Vector)
    ensures Add(a, Zero()) == a
    ensures Equal(Add(a, Zero()), a) <==> NaNFree(a)
  {
  }

  /** Adding (1, 1, 1) always yields a point unequal to the original. */
  lemma AddOnesIsUnequal(a: Vector)
    ensures NotEqual(Add(a, Vector(Num(1.0), Num(1.0), Num(1.0))), a)
  {
  }

  /** Subtracting what was added restores the point. */
  lemma SubUndoesAdd(a: Vector, b: Vector)
    requires NaNFree(b)
    ensures Sub(Add(a, b), b) == a
  {
  }

  /** Subtraction is addition of the negation, and a point plus its negation is zero. */
  lemma SubIsAddNeg(a: Vector, b: Vector)
    ensures Sub(a, b) == Add(a, Neg(b))
    ensures Add(a, Neg(a)) == Zero() <==> NaNFree(a)
  {
  }

  /** Negation is its own inverse and is scaling by −1. */
  lemma NegInvolutive(a: Vector)
    ensures Neg(Neg(a)) == a
    ensures Neg(a) == Scale(a, Num(-1.0))
  {
  }

  lemma NegAxes()
    ensures Neg(XAxis()) == Vector(Num(-1.0), Num(0.0), Num(0.0))
    ensures Neg(YAxis()) == Vector(Num(0.0), Num(-1.0), Num(0.0))
    ensures Neg(ZAxis()) == Vector(Num(0.0), Num(0.0), Num(-1.0))
  {
  }

  lemma ScaleBothOrders(p: Vector, scalar: Coord)
    ensures Scale(p, scalar) == ScaleLeft(scalar, p)
  {
  }

  lemma ScaleOne(p: Vector)
    ensures Scale(p, Num(1.0)) == p
  {
  }

  /** Scaling by 0 gives (0, 0, 0) exactly when no coordinate is NaN. */
  lemma ScaleZero(p: Vector)
    ensures Scale(p, Num(0.0)) == Zero() <==> NaNFree(p)
    ensures Equal(Scale(p, Num(0.0)), Zero()) <==> NaNFree(p)
  {
  }

  lemma DotCommutative(a: Vector, b: Vector)
    ensures Dot(a, b) == Dot(b, a)
  {
  }

  /** On numbers the dot product is the real sum of products. */
  lemma DotOfNumbers(a: Vector, b: Vector)
    requires NaNFree(a) && NaNFree(b)
    ensures Dot(a, b) == Num(a.x.r * b.x.r + a.y.r * b.y.r + a.z.r * b.z.r)
  {
  }

  /** The squared length of (k, k, k) is 3k². */
  lemma DotOfDiagonal(k: real)
    ensures Dot(Vector(Num(k), Num(k), Num(k)), Vector(Num(k), Num(k), Num(k))) == Num(3.0 * k * k)
  {
  }

  lemma DotOfZero()
    ensures Dot(Zero(), Zero()) == Num(0.0)
  {
    DotOfNumbers(Zero(), Zero());
  }

  /** A scalar factor moves in and out of the dot product. */
  lemma DotScale(a: Vector, b: Vector, scalar: Coord)
    ensures scalar.Times(Dot(a, b)) == Dot(b, ScaleLeft(scalar, a))
  {
  }

  /** The squared length `p.dot(p)` scales with the square of the scalar. */
  lemma SquaredLengthScales(p: Vector, k: real)
    requires NaNFree(p)
    ensures Dot(Scale(p, Num(k)), Scale(p, Num(k))).r == k * k * Dot(p, p).r
  {
  }

  /** The axes are orthonormal: each has squared length 1 and two different
      axes are orthogonal. */
  lemma AxesOrthonormal(a: Vector, b: Vector)
    requires IsAxis(a) && IsAxis(b)
    ensures Dot(a, b) == if a == b then Num(1.0) else Num(0.0)
  {
  }

  /** The axes are right-handed: x × y = z, y × z = x and z × x = y. */
  lemma AxesRightHanded()
    ensures Cross(XAxis(), YAxis()) == ZAxis()
    ensures Cross(YAxis(), ZAxis()) == XAxis()
    ensures Cross(ZAxis(), XAxis()) == YAxis()
  {
    CrossOfNumbers(XAxis(), YAxis());
    CrossOfNumbers(YAxis(), ZAxis());
    CrossOfNumbers(ZAxis(), XAxis());
  }

  /** Swapping the operands of the cross product negates it. */
  lemma CrossAnticommutative(a: Vector, b: Vector)
    ensures Cross(b, a) == Neg(Cross(a, b))
  {
  }

  /** A point crossed with itself is zero exactly when it holds no NaN. */
  lemma CrossSelf(a: Vector)
    ensures Cross(a, a) == Zero() <==> NaNFree(a)
    ensures Equal(Cross(a, a), Zero()) <==> NaNFree(a)
  {
  }

  /** On numbers the cross product is the real determinant expansion. */
  lemma CrossOfNumbers(a: Vector, b: Vector)
    requires NaNFree(a) && NaNFree(b)
    ensures Cross(a, b) == Vector(Num(a.y.r * b.z.r - a.z.r * b.y.r),
                                  Num(a.z.r * b.x.r - a.x.r * b.z.r),
                                  Num(a.x.r * b.y.r - a.y.r * b.x.r))
  {
  }

  /** The cross product is orthogonal to both operands. */
  lemma CrossOrthogonal(a: Vector, b: Vector)
    requires NaNFree(a) && NaNFree(b)
    ensures Dot(Cross(a, b), a) == Num(0.0)
    ensures Dot(Cross(a, b), b) == Num(0.0)
  {
  }

  /** Lagrange's identity: |a × b|² = |a|²·|b|² − (a · b)². */
  lemma CrossLength(a: Vector, b: Vector)
    requires NaNFree(a) && NaNFree(b)
    ensures Dot(Cross(a, b), Cross(a, b)).r == Dot(a, a).r * Dot(b, b).r - Dot(a, b).r * Dot(a, b).r
  {
    var w := Cross(a, b);
    CrossOfNumbers(a, b);
    DotOfNumbers(w, w);
    DotOfNumbers(a, a);
    DotOfNumbers(b, b);
    DotOfNumbers(a, b);
    Algebra.Lagrange(a.x.r, a.y.r, a.z.r, b.x.r, b.y.r, b.z.r, w.x.r, w.y.r, w.z.r,
                     Dot(w, w).r, Dot(a, a).r, Dot(b, b).r, Dot(a, b).r);
  }

  /** On numbers the rotated point is, coordinate by coordinate,
      v·c + (k × v)·s + k·t with t = (1 − c)·(k · v). */
  lemma RotationOfNumbers(c: real, s: real, k: Vector, v: Vector)
    requires NaNFree(k) && NaNFree(v)
    ensures NaNFree(Rotation(Num(c), Num(s), k, v))
    ensures AxialWeight(Num(c), k, v).r == Dot(k, v).r * (1.0 - c)
    ensures Rotation(Num(c), Num(s), k, v).x.r == v.x.r * c + Cross(k, v).x.r * s + k.x.r * AxialWeight(Num(c), k, v).r
    ensures Rotation(Num(c), Num(s), k, v).y.r == v.y.r * c + Cross(k, v).y.r * s + k.y.r * AxialWeight(Num(c), k, v).r
    ensures Rotation(Num(c), Num(s), k, v).z.r == v.z.r * c + Cross(k, v).z.r * s + k.z.r * AxialWeight(Num(c), k, v).r
  {
  }

  /** The length step of the rotation on the coordinates of its three terms. */
  lemma CombinationKeepsLength(c: real, s: real, t: real, k: Vector, v: Vector, w: Vector, q: Vector)
    requires NaNFree(k) && NaNFree(v) && NaNFree(q) && w == Cross(k, v)
    requires t == Dot(k, v).r * (1.0 - c)
    requires q.x.r == v.x.r * c + w.x.r * s + k.x.r * t
    requires q.y.r == v.y.r * c + w.y.r * s + k.y.r * t
    requires q.z.r == v.z.r * c + w.z.r * s + k.z.r * t
    requires c * c + s * s == 1.0 && Dot(k, k) == Num(1.0)
    ensures Dot(q, q) == Dot(v, v)
  {
    CrossOfNumbers(k, v);
    DotOfNumbers(k, v);
    DotOfNumbers(k, k);
    DotOfNumbers(q, q);
    DotOfNumbers(v, v);
    Algebra.RotationKeepsLength(c, s, t, v.x.r, v.y.r, v.z.r, w.x.r, w.y.r, w.z.r,
                                k.x.r, k.y.r, k.z.r, q.x.r, q.y.r, q.z.r);
  }

  /** A rotation about a unit axis by a proper angle (c² + s² = 1) keeps the
      squared length `p.dot(p)` of the point. */
  lemma RotationPreservesLength(c: real, s: real, k: Vector, v: Vector)
    requires c * c + s * s == 1.0
    requires NaNFree(k) && Dot(k, k) == Num(1.0) && NaNFree(v)
    ensures Dot(Rotation(Num(c), Num(s), k, v), Rotation(Num(c), Num(s), k, v)) == Dot(v, v)
  {
    RotationOfNumbers(c, s, k, v);
    CombinationKeepsLength(c, s, AxialWeight(Num(c), k, v).r, k, v, Cross(k, v), Rotation(Num(c), Num(s), k, v));
  }

  /** Turning by the zero angle (cos 0 = 1, sin 0 = 0) leaves a point where it is,
      whatever the axis. */
  lemma RotationByZeroAngle(k: Vector, v: Vector)
    requires NaNFree(k) && NaNFree(v)
    ensures Rotation(Num(1.0), Num(0.0), k, v) == v
  {
  }

  /** A point on a unit axis stays where it is under every rotation about that axis. */
  lemma RotationFixesAxis(c: real, s: real, k: Vector)
    requires NaNFree(k) && Dot(k, k) == Num(1.0)
    ensures Rotation(Num(c), Num(s), k, k) == k
  {
  }

  /** A quarter turn (cos = 0, sin = 1) takes v to k × v plus its component along k. */
  lemma QuarterTurn(k: Vector, v: Vector)
    requires NaNFree(k) && NaNFree(v)
    ensures Rotation(Num(0.0), Num(1.0), k, v) == Add(Cross(k, v), Scale(k, Dot(k, v)))
  {
  }

  /** A quarter turn takes a point orthogonal to the axis to the axis crossed with it. */
  lemma QuarterTurnOrthogonal(k: Vector, v: Vector)
    requires NaNFree(k) && NaNFree(v) && Dot(k, v) == Num(0.0)
    ensures Rotation(Num(0.0), Num(1.0), k, v) == Cross(k, v)
  {
    QuarterTurn(k, v);
    ScaleZero(k);
    AddZero(Cross(k, v));
  }

  /** A quarter turn about the x axis takes y to `1 * z`. */
  lemma QuarterTurnXTakesY(x: Vector, y: Vector, z: Vector)
    requires x == XAxis() && y == YAxis() && z == ZAxis()
    ensures Rotation(Num(0.0), Num(1.0), x, y) == ScaleLeft(Num(1.0), z)
  {
    DotOfNumbers(x, y);
    QuarterTurnOrthogonal(x, y);
    CrossOfNumbers(x, y);
  }

  /** A quarter turn about the x axis takes z to `-1 * y`. */
  lemma QuarterTurnXTakesZ(x: Vector, y: Vector, z: Vector)
    requires x == XAxis() && y == YAxis() && z == ZAxis()
    ensures Rotation(Num(0.0), Num(1.0), x, z) == ScaleLeft(Num(-1.0), y)
  {
    DotOfNumbers(x, z);
    QuarterTurnOrthogonal(x, z);
    CrossOfNumbers(x, z);
  }

  /** A quarter turn about the y axis takes x to `-1 * z`. */
  lemma QuarterTurnYTakesX(x: Vector, y: Vector, z: Vector)
    requires x == XAxis() && y == YAxis() && z == ZAxis()
    ensures Rotation(Num(0.0), Num(1.0), y, x) == ScaleLeft(Num(-1.0), z)
  {
    DotOfNumbers(y, x);
    QuarterTurnOrthogonal(y, x);
    CrossOfNumbers(y, x);
  }

  /** A quarter turn about the y axis takes z to `1 * x`. */
  lemma QuarterTurnYTakesZ(x: Vector, y: Vector, z: Vector)
    requires x == XAxis() && y == YAxis() && z == ZAxis()
    ensures Rotation(Num(0.0), Num(1.0), y, z) == ScaleLeft(Num(1.0), x)
  {
    DotOfNumbers(y, z);
    QuarterTurnOrthogonal(y, z);
    CrossOfNumbers(y, z);
  }

  /** A quarter turn about the z axis takes x to `1 * y`. */
  lemma QuarterTurnZTakesX(x: Vector, y: Vector, z: Vector)
    requires x == XAxis() && y == YAxis() && z == ZAxis()
    ensures Rotation(Num(0.0), Num(1.0), z, x) == ScaleLeft(Num(1.0), y)
  {
    DotOfNumbers(z, x);
    QuarterTurnOrthogonal(z, x);
    CrossOfNumbers(z, x);
  }

  /** A quarter turn about the z axis takes y to `-1 * x`. */
  lemma QuarterTurnZTakesY(x: Vector, y: Vector, z: Vector)
    requires x == XAxis() && y == YAxis() && z == ZAxis()
    ensures Rotation(Num(0.0), Num(1.0), z, y) == ScaleLeft(Num(-1.0), x)
  {
    DotOfNumbers(z, y);
    QuarterTurnOrthogonal(z, y);
    CrossOfNumbers(z, y);
  }

  /** A point object; the compound operators update its coordinates in place. */
  class Point {
    var x: Coord
    var y: Coord
    var z: Coord

    function Value(): Vector
      reads this
    {
      Vector(x, y, z)
    }

    /** `Point()`: all coordinates value-initialised to 0. */
    constructor ()
      ensures Value() == Zero()
    {
      x, y, z := Num(0.0), Num(0.0), Num(0.0);
    }

    /** `Point(x, y, z)`: the coordinates stored verbatim. */
    constructor At(x: Coord, y: Coord, z: Coord)
      ensures Value() == Vector(x, y, z)
    {
      this.x, this.y, this.z := x, y, z;
    }

    /** `*this += rhs`, returning this point; `rhs` may be this very point. */
    method AddAssign(rhs: Point) returns (self: Point)
      modifies this
      ensures self == this
      ensures Value() == Add(old(Value()), old(rhs.Value()))
    {
      x, y, z := x.Plus(rhs.x), y.Plus(rhs.y), z.Plus(rhs.z);
      self := this;
    }

    /** `*this -= rhs`, returning this point; `rhs` may be this very point. */
    method SubAssign(rhs: Point) returns (self: Point)
      modifies this
      ensures self == this
      ensures Value() == Sub(old(Value()), old(rhs.Value()))
    {
      x, y, z := x.Minus(rhs.x), y.Minus(rhs.y), z.Minus(rhs.z);
      self := this;
    }

    /** `*this *= scalar`, returning this point. */
    method MulAssign(scalar: Coord) returns (self: Point)
      modifies this
      ensures self == this
      ensures Value() == Scale(old(Value()), scalar)
    {
      x, y, z := x.Times(scalar), y.Times(scalar), z.Times(scalar);
      self := this;
    }

    /** `rotate(angle, axis)` with the angle given by its cosine and sine: the
        rotated coordinates replace the stored ones and this point is returned;
        `axis` may be this very point. */
    method Rotate(c: Coord, s: Coord, axis: Point) returns (self: Point)
      modifies this
      ensures self == this
      ensures Value() == Rotation(c, s, old(axis.Value()), old(Value()))
    {
      var r := Rotation(c, s, axis.Value(), Value());
      x, y, z := r.x, r.y, r.z;
      self := this;
    }

    /** `rotated(angle, axis)`: a rotated copy; this point and the axis are left as they were. */
    method Rotated(c: Coord, s: Coord, axis: Point) returns (turned: Point)
      ensures fresh(turned) && turned.Value() == Rotation(c, s, axis.Value(), Value())
      ensures unchanged(this, axis)
    {
      turned := new Point.At(x, y, z);
      var _ := turned.Rotate(c, s, axis);
    }

    /** `-p`: a negated copy; this point is left as it was. */
    method Negated() returns (neg: Point)
      ensures fresh(neg) && neg.Value() == Neg(Value())
      ensures unchanged(this)
    {
      neg := new Point.At(x.Negated(), y.Negated(), z.Negated());
    }

    /** `lhs + rhs`: a copy of `lhs` with `rhs` added; both operands are left as they were. */
    static method Sum(lhs: Point, rhs: Point) returns (add: Point)
      ensures fresh(add) && add.Value() == Add(lhs.Value(), rhs.Value())
      ensures unchanged(lhs, rhs)
    {
      add := new Point.At(lhs.x, lhs.y, lhs.z);
      var _ := add.AddAssign(rhs);
    }

    /** `lhs - rhs`: a copy of `lhs` with `rhs` subtracted; both operands are left as they were. */
    static method Difference(lhs: Point, rhs: Point) returns (sub: Point)
      ensures fresh(sub) && sub.Value() == Sub(lhs.Value(), rhs.Value())
      ensures unchanged(lhs, rhs)
    {
      sub := new Point.At(lhs.x, lhs.y, lhs.z);
      var _ := sub.SubAssign(rhs);
    }

    /** `p * scalar` and `scalar * p`: a scaled copy of `p`, which is left as it was. */
    static method Product(p: Point, scalar: Coord) returns (mul: Point)
      ensures fresh(mul) && mul.Value() == Scale(p.Value(), scalar)
      ensures mul.Value() == ScaleLeft(scalar, p.Value())
      ensures unchanged(p)
    {
      mul := new Point.At(p.x, p.y, p.z);
      var _ := mul.MulAssign(scalar);
    }
  }
}
