/** Scalar coordinates shared by the two- and three-dimensional points:
    a floating-point value is modelled as an exact real or the IEEE not-a-number
    value, and the tolerant per-coordinate comparison both point types use. */
module Coords {

  /** One floating-point coordinate. Rounding is not modelled, so a finite value
      is an exact real; arithmetic on a NaN operand yields NaN. */
  datatype Coord = Num(r: real) | NaN {

    function Plus(that: Coord): (s: Coord)
      ensures s.NaN? <==> NaN? || that.NaN?
    {
      if Num? && that.Num? then Num(r + that.r) else NaN
    }

    function Minus(that: Coord): (s: Coord)
      ensures s.NaN? <==> NaN? || that.NaN?
    {
      if Num? && that.Num? then Num(r - that.r) else NaN
    }

    function Times(that: Coord): (s: Coord)
      ensures s.NaN? <==> NaN? || that.NaN?
    {
      if Num? && that.Num? then Num(r * that.r) else NaN
    }

    function Negated(): (s: Coord)
      ensures s.NaN? <==> NaN?
    {
      if Num? then Num(-r) else NaN
    }
  }

  /** The absolute tolerance under which two coordinates compare equivalent. */
  const Tolerance: real := 1.0 / 100.0

  /** The four results of a partial-order comparison (std::partial_ordering). */
  datatype Ordering = Less | Equivalent | Greater | Unordered {

    /** The result seen from the other operand. */
    function Reverse(): (o: Ordering)
      ensures o == Greater <==> this == Less
      ensures o == Less <==> this == Greater
      ensures o == Equivalent <==> this == Equivalent
      ensures o == Unordered <==> this == Unordered
    {
      match this
      case Less => Greater
      case Greater => Less
      case _ => this
    }
  }

  /** Both coordinates are numbers and `b` lies within the tolerance band around `a`. */
  predicate Close(a: Coord, b: Coord) {
    a.Num? && b.Num? && a.r - Tolerance <= b.r <= a.r + Tolerance
  }

  /** Both coordinates are numbers and `a` lies below `b` by more than the tolerance. */
  predicate Below(a: Coord, b: Coord) {
    a.Num? && b.Num? && a.r + Tolerance < b.r
  }

  function Abs(x: real): (a: real)
    ensures a >= 0.0 && (a == x || a == -x)
  {
    if x < 0.0 then -x else x
  }

  /** The comparison of one coordinate pair: unordered when either side is NaN,
      equivalent when the two are identical or within the tolerance, otherwise
      less or greater by the sign of the difference. */
  function CompareCoord(lh: Coord, rh: Coord): (o: Ordering)
    ensures o == Unordered <==> lh.NaN? || rh.NaN?
    ensures o == Equivalent <==> Close(lh, rh)
    ensures o == Less <==> Below(lh, rh)
    ensures o == Greater <==> Below(rh, lh)
  {
    if lh.NaN? || rh.NaN? then Unordered
    else
      var difference := lh.r - rh.r;
      if lh.r == rh.r || Abs(difference) <= Tolerance then Equivalent
      else if difference < 0.0 then Less
      else Greater
  }

  /** Swapping the operands swaps less and greater and keeps equivalent and unordered. */
  lemma CompareCoordSwap(a: Coord, b: Coord)
    ensures CompareCoord(b, a) == CompareCoord(a, b).Reverse()
  {
  }

  /** The tolerance is absolute, so the equivalence it induces is not transitive:
      0 is close to 0.01 and 0.01 to 0.02, but 0 is not close to 0.02. */
  lemma CloseNotTransitive()
    ensures CompareCoord(Num(0.0), Num(0.01)) == Equivalent
    ensures CompareCoord(Num(0.01), Num(0.02)) == Equivalent
    ensures CompareCoord(Num(0.0), Num(0.02)) == Less
  {
  }
}
