/** `geometry::d2::Point`: a two-component vector with component-wise
    arithmetic, a dot product and a tolerant, NaN-aware lexicographic
    comparison from which `==` and `!=` are derived. */
module Bidimensional {
  import opened Coords

  /** The two coordinates a point stores. */
  datatype Vector = Vector(x: Coord, y: Coord)

  predicate NaNFree(v: Vector) {
    v.x.Num? && v.y.Num?
  }

  /** `Point::zero()`, and what the default constructor stores. */
  function Zero(): (z: Vector)
    ensures NaNFree(z) && z.x.r == 0.0 && z.y.r == 0.0
  {
    Vector(Num(0.0), Num(0.0))
  }

  /** `Point::xaxis()`. */
  function XAxis(): (a: Vector)
    ensures NaNFree(a) && a.x.r == 1.0 && a.y.r == 0.0
  {
    Vector(Num(1.0), Num(0.0))
  }

  /** `Point::yaxis()`. */
  function YAxis(): (a: Vector)
    ensures NaNFree(a) && a.y.r == 1.0 && a.x.r == 0.0
  {
    Vector(Num(0.0), Num(1.0))
  }

  /** `lhs + rhs`: component-wise sum. */
  function Add(lhs: Vector, rhs: Vector): (v: Vector)
    ensures NaNFree(v) <==> NaNFree(lhs) && NaNFree(rhs)
  {
    Vector(lhs.x.Plus(rhs.x), lhs.y.Plus(rhs.y))
  }

  /** `lhs - rhs`: component-wise difference. */
  function Sub(lhs: Vector, rhs: Vector): (v: Vector)
    ensures NaNFree(v) <==> NaNFree(lhs) && NaNFree(rhs)
  {
    Vector(lhs.x.Minus(rhs.x), lhs.y.Minus(rhs.y))
  }

  /** `p * scalar`: every coordinate multiplied by the scalar. */
  function Scale(p: Vector, scalar: Coord): (v: Vector)
    ensures NaNFree(v) <==> NaNFree(p) && scalar.Num?
  {
    Vector(p.x.Times(scalar), p.y.Times(scalar))
  }

  /** `scalar * p`: the same copy-then-`*=` as `p * scalar`. */
  function ScaleLeft(scalar: Coord, p: Vector): (v: Vector)
    ensures NaNFree(v) <==> NaNFree(p) && scalar.Num?
  {
    Scale(p, scalar)
  }

  /** `lhs.dot(rhs)`: the sum of the component-wise products. */
  function Dot(lhs: Vector, rhs: Vector): (d: Coord)
    ensures d.Num? <==> NaNFree(lhs) && NaNFree(rhs)
  {
    lhs.x.Times(rhs.x).Plus(lhs.y.Times(rhs.y))
  }

  /** `lhs <=> rhs`: x decides unless it compares equivalent, then y decides. */
  function Compare(lhs: Vector, rhs: Vector): (o: Ordering)
    ensures o == Equivalent <==> Close(lhs.x, rhs.x) && Close(lhs.y, rhs.y)
    ensures o == Less <==> Below(lhs.x, rhs.x) || (Close(lhs.x, rhs.x) && Below(lhs.y, rhs.y))
    ensures o == Greater <==> Below(rhs.x, lhs.x) || (Close(lhs.x, rhs.x) && Below(rhs.y, lhs.y))
    ensures o == Unordered <==>
      lhs.x.NaN? || rhs.x.NaN? || (Close(lhs.x, rhs.x) && (lhs.y.NaN? || rhs.y.NaN?))
  {
    var comparison := CompareCoord(lhs.x, rhs.x);
    if comparison != Equivalent then comparison
    else
      var comparison := CompareCoord(lhs.y, rhs.y);
      if comparison != Equivalent then comparison
      else Equivalent
  }

  /** `lhs == rhs`: the comparison is equivalent. */
  function Equal(lhs: Vector, rhs: Vector): (b: bool)
    ensures b <==> Close(lhs.x, rhs.x) && Close(lhs.y, rhs.y)
  {
    Compare(lhs, rhs) == Equivalent
  }

  /** `lhs != rhs`: the comparison is anything but equivalent. */
  function NotEqual(lhs: Vector, rhs: Vector): (b: bool)
    ensures b <==> !Equal(lhs, rhs)
    ensures b <==> !NaNFree(lhs) || !NaNFree(rhs) || !Close(lhs.x, rhs.x) || !Close(lhs.y, rhs.y)
  {
    Compare(lhs, rhs) != Equivalent
  }

  /** Swapping the operands reverses the comparison; `==` and `!=` are symmetric. */
  lemma CompareSwap(a: Vector, b: Vector)
    ensures Compare(b, a) == Compare(a, b).Reverse()
    ensures Equal(b, a) == Equal(a, b)
    ensures NotEqual(b, a) == NotEqual(a, b)
  {
  }

  /** A non-equivalent x comparison is the result whatever the y coordinates are. */
  lemma CompareShortCircuit(a: Vector, b: Vector, a': Vector, b': Vector)
    requires a.x == a'.x && b.x == b'.x
    requires CompareCoord(a.x, b.x) != Equivalent
    ensures Compare(a, b) == Compare(a', b') == CompareCoord(a.x, b.x)
  {
  }

  /** Because the tolerance lets x pass to y, `<=>` is not a valid ordering:
      (0.02, 0) < (0.01, 1) < (0, 2), yet (0.02, 0) > (0, 2). */
  lemma CompareCyclic()
    ensures Compare(Vector(Num(0.02), Num(0.0)), Vector(Num(0.01), Num(1.0))) == Less
    ensures Compare(Vector(Num(0.01), Num(1.0)), Vector(Num(0.0), Num(2.0))) == Less
    ensures Compare(Vector(Num(0.02), Num(0.0)), Vector(Num(0.0), Num(2.0))) == Greater
  {
  }

  /** A point equals itself exactly when it holds no NaN. */
  lemma EqualReflexive(a: Vector)
    ensures Equal(a, a) <==> NaNFree(a)
  {
  }

  /** A point with a NaN coordinate is unequal to every point, in either order. */
  lemma NaNIsUnequal(a: Vector, b: Vector)
    requires !NaNFree(a)
    ensures NotEqual(a, b) && NotEqual(b, a)
    ensures !Equal(a, b) && !Equal(b, a)
  {
  }

  lemma AddCommutative(a: Vector, b: Vector)
    ensures Add(a, b) == Add(b, a)
    ensures NaNFree(a) && NaNFree(b) ==> Equal(Add(a, b), Add(b, a))
  {
  }

  lemma AddAssociative(a: Vector, b: Vector, c: Vector)
    ensures Add(Add(a, b), c) == Add(a, Add(b, c))
    ensures NaNFree(a) && NaNFree(b) && NaNFree(c) ==> Equal(Add(Add(a, b), c), Add(a, Add(b, c)))
  {
  }

  /** `zero()` is neutral for addition; the result equals the operand unless it holds a NaN. */
  lemma AddZero(a: Vector)
    ensures Add(a, Zero()) == a
    ensures Equal(Add(a, Zero()), a) <==> NaNFree(a)
  {
  }

  /** Adding (1, 1) always yields a point unequal to the original. */
  lemma AddOneOneIsUnequal(a: Vector)
    ensures NotEqual(Add(a, Vector(Num(1.0), Num(1.0))), a)
  {
  }

  /** Subtracting what was added restores the point. */
  lemma SubUndoesAdd(a: Vector, b: Vector)
    requires NaNFree(b)
    ensures Sub(Add(a, b), b) == a
  {
  }

  lemma ScaleBothOrders(p: Vector, scalar: Coord)
    ensures Scale(p, scalar) == ScaleLeft(scalar, p)
  {
  }

  lemma ScaleOne(p: Vector)
    ensures Scale(p, Num(1.0)) == p
  {
  }

  /** Scaling by 0 gives `zero()` exactly when no coordinate is NaN. */
  lemma ScaleZero(p: Vector)
    ensures Scale(p, Num(0.0)) == Zero() <==> NaNFree(p)
    ensures Equal(Scale(p, Num(0.0)), Zero()) <==> NaNFree(p)
  {
  }

  lemma DotCommutative(a: Vector, b: Vector)
    ensures Dot(a, b) == Dot(b, a)
  {
  }

  /** On numbers the dot product is the real sum of products. */
  lemma DotOfNumbers(a: Vector, b: Vector)
    requires NaNFree(a) && NaNFree(b)
    ensures Dot(a, b) == Num(a.x.r * b.x.r + a.y.r * b.y.r)
  {
  }

  /** The squared length of (k, k) is 2k². */
  lemma DotOfDiagonal(k: real)
    ensures Dot(Vector(Num(k), Num(k)), Vector(Num(k), Num(k))) == Num(2.0 * k * k)
  {
  }

  lemma DotOfZero()
    ensures Dot(Zero(), Zero()) == Num(0.0)
  {
    DotOfNumbers(Zero(), Zero());
  }

  /** A scalar factor moves in and out of the dot product. */
  lemma DotScale(a: Vector, b: Vector, scalar: Coord)
    ensures scalar.Times(Dot(a, b)) == Dot(b, ScaleLeft(scalar, a))
  {
  }

  /** The axes are orthonormal: each has squared length 1 and the two are orthogonal. */
  lemma AxesOrthonormal(a: Vector, b: Vector)
    requires a == XAxis() || a == YAxis()
    requires b == XAxis() || b == YAxis()
    ensures Dot(a, b) == if a == b then Num(1.0) else Num(0.0)
  {
    DotOfNumbers(a, b);
  }

  /** `xaxis() + yaxis()` is (1, 1). */
  lemma AxesSum()
    ensures Add(XAxis(), YAxis()) == Vector(Num(1.0), Num(1.0))
  {
  }

  /** The squared length `p.dot(p)` scales with the square of the scalar. */
  lemma SquaredLengthScales(p: Vector, k: real)
    requires NaNFree(p)
    ensures Dot(Scale(p, Num(k)), Scale(p, Num(k))).r == k * k * Dot(p, p).r
  {
  }

  /** A point object; the compound operators update its coordinates in place. */
  class Point {
    var x: Coord
    var y: Coord

    function Value(): Vector
      reads this
    {
      Vector(x, y)
    }

    /** `Point()`: both coordinates value-initialised to 0. */
    constructor ()
      ensures Value() == Zero()
    {
      x, y := Num(0.0), Num(0.0);
    }

    /** `Point(x, y)`: the coordinates stored verbatim. */
    constructor At(x: Coord, y: Coord)
      ensures Value() == Vector(x, y)
    {
      this.x, this.y := x, y;
    }

    /** `*this += rhs`, returning this point; `rhs` may be this very point. */
    method AddAssign(rhs: Point) returns (self: Point)
      modifies this
      ensures self == this
      ensures Value() == Add(old(Value()), old(rhs.Value()))
    {
      x, y := x.Plus(rhs.x), y.Plus(rhs.y);
      self := this;
    }

    /** `*this -= rhs`, returning this point; `rhs` may be this very point. */
    method SubAssign(rhs: Point) returns (self: Point)
      modifies this
      ensures self == this
      ensures Value() == Sub(old(Value()), old(rhs.Value()))
    {
      x, y := x.Minus(rhs.x), y.Minus(rhs.y);
      self := this;
    }

    /** `*this *= scalar`, returning this point. */
    method MulAssign(scalar: Coord) returns (self: Point)
      modifies this
      ensures self == this
      ensures Value() == Scale(old(Value()), scalar)
    {
      x, y := x.Times(scalar), y.Times(scalar);
      self := this;
    }

    /** `lhs + rhs`: a copy of `lhs` with `rhs` added; both operands are left as they were. */
    static method Sum(lhs: Point, rhs: Point) returns (add: Point)
      ensures fresh(add) && add.Value() == Add(lhs.Value(), rhs.Value())
      ensures unchanged(lhs, rhs)
    {
      add := new Point.At(lhs.x, lhs.y);
      var _ := add.AddAssign(rhs);
    }

    /** `lhs - rhs`: a copy of `lhs` with `rhs` subtracted; both operands are left as they were. */
    static method Difference(lhs: Point, rhs: Point) returns (sub: Point)
      ensures fresh(sub) && sub.Value() == Sub(lhs.Value(), rhs.Value())
      ensures unchanged(lhs, rhs)
    {
      sub := new Point.At(lhs.x, lhs.y);
      var _ := sub.SubAssign(rhs);
    }

    /** `p * scalar` and `scalar * p`: a scaled copy of `p`, which is left as it was. */
    static method Product(p: Point, scalar: Coord) returns (mul: Point)
      ensures fresh(mul) && mul.Value() == Scale(p.Value(), scalar)
      ensures mul.Value() == ScaleLeft(scalar, p.Value())
      ensures unchanged(p)
    {
      mul := new Point.At(p.x, p.y);
      var _ := mul.MulAssign(scalar);
    }
  }
}
