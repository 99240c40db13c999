# geometry points, modelled in Dafny

This project models the two point types of the header-only `geometry` library:

- `geometry::d2::Point<Precision>` in `include/geometry/geometry-bidimensional.hpp`;
- `geometry::d3::Point<Precision>` in `include/geometry/geometry-tridimensional.hpp`.

Each point stores a fixed-size vector of floating-point coordinates. It offers:

- the constructors and the `zero`/`xaxis`/`yaxis` (and `zaxis`) factories;
- component-wise `+=`, `-=` and `*=`, which update the point in place and return it;
- the copying `+`, `-` and `*` built on those;
- `dot`, and in 3D also unary `-`, `cross`, `rotate` and `rotated`;
- a three-way comparison `<=>` from which `==` and `!=` are derived.

The comparison checks the coordinates one after the other. Each pair is:

- unordered when either side is NaN;
- equivalent when the two are identical or differ by at most the absolute tolerance 0.01;
- otherwise less or greater by the sign of the difference.

The first coordinate that does not compare equivalent decides the result.

Layout:

- `coords.dfy` (module `Coords`):
  - a coordinate, as an exact real or NaN, with NaN-propagating arithmetic;
  - the tolerance;
  - the result type of `<=>`;
  - the per-coordinate comparison, with `Close` and `Below` as its independent specification.
- `bidimensional.dfy` (module `Bidimensional`) and `tridimensional.dfy` (module `Tridimensional`). Each has:
  - a `Vector` datatype for the stored value;
  - pure functions for the value operations;
  - the lemmas;
  - a `Point` class whose fields are the coordinates. Its compound operators are `modifies this` methods, stated against the pure functions. Its copying operators are methods returning a fresh point and leaving their operands unchanged.
- `algebra.dfy` (module `Algebra`): the real-polynomial identities behind the cross-product and rotation lemmas. These are Lagrange's identity, orthogonality of the cross product, and the expansion of the rotated squared length.

Rotation follows Eigen's `AngleAxis`. The angle is passed in as its cosine `c` and sine `s`, because Eigen computes those with `std::cos` and `std::sin`.

`Rotation(c, s, axis, v)` is defined as Rodrigues' formula `c·v + s·(axis × v) + (1 − c)·(axis · v)·axis`. In exact arithmetic this equals the product of the angle-axis matrix `c·I + s·[axis]× + (1 − c)·axis·axisᵀ` with `v`, which is what Eigen applies. A NaN anywhere among the inputs makes every output coordinate NaN, as it does in the matrix product.

Eigen uses the axis as given and does not normalise it; `Eigen::AngleAxis` asks its caller for a unit axis. The model uses the axis as given too, and every property that needs a unit axis states `axis · axis = 1` as a precondition.

## Model

| member | source | states |
|---|---|---|
| Coords.Coord.Plus | include/geometry/geometry-bidimensional.hpp:55 | a sum is NaN exactly when either operand is NaN (the per-coordinate addition of `value_ += rhs.value_`) |
| Coords.Coord.Minus | include/geometry/geometry-bidimensional.hpp:61 | a difference is NaN exactly when either operand is NaN (the per-coordinate subtraction of `value_ -= rhs.value_`) |
| Coords.Coord.Times | include/geometry/geometry-bidimensional.hpp:67 | a product is NaN exactly when either factor is NaN (the per-coordinate product of `value_ *= rhs`) |
| Coords.Coord.Negated | include/geometry/geometry-tridimensional.hpp:66 | a negation is NaN exactly when its operand is NaN (the per-coordinate `-value_`) |
| Coords.Abs | include/geometry/geometry-bidimensional.hpp:106 | `std::abs(difference)` is non-negative and is the difference or its negation |
| Coords.CompareCoord | include/geometry/geometry-bidimensional.hpp:101-113 | unordered exactly when either coordinate is NaN; equivalent exactly when both are numbers within 0.01 of each other; less exactly when lh is below rh by more than 0.01; greater exactly when rh is below lh by more than 0.01 |
| Coords.CompareCoordSwap | include/geometry/geometry-tridimensional.hpp:117-129 | swapping the two coordinates turns less into greater and back and keeps equivalent and unordered |
| Coords.CloseNotTransitive | include/geometry/geometry-bidimensional.hpp:102-107 | the tolerance is absolute, so equivalence is not transitive: 0 ≈ 0.01 and 0.01 ≈ 0.02, but 0 < 0.02 |
| Bidimensional.Zero | include/geometry/geometry-bidimensional.hpp:20-25 | `zero()` is NaN-free with both coordinates 0 |
| Bidimensional.XAxis | include/geometry/geometry-bidimensional.hpp:27-33 | `xaxis()` is NaN-free with x = 1 and y = 0 |
| Bidimensional.YAxis | include/geometry/geometry-bidimensional.hpp:35-41 | `yaxis()` is NaN-free with x = 0 and y = 1 |
| Bidimensional.Add | include/geometry/geometry-bidimensional.hpp:71-76 | the sum holds no NaN exactly when neither operand does |
| Bidimensional.Sub | include/geometry/geometry-bidimensional.hpp:78-83 | the difference holds no NaN exactly when neither operand does |
| Bidimensional.Scale | include/geometry/geometry-bidimensional.hpp:85-90 | the scaled point holds no NaN exactly when neither the point nor the scalar does |
| Bidimensional.ScaleLeft | include/geometry/geometry-bidimensional.hpp:92-97 | the same NaN rule for `scalar * p` |
| Bidimensional.Dot | include/geometry/geometry-bidimensional.hpp:133-136 | the dot product is a number exactly when neither point holds a NaN |
| Bidimensional.Compare | include/geometry/geometry-bidimensional.hpp:99-123 | lexicographic order: equivalent exactly when x and y are both close; less (greater) exactly when x is below (above), or x is close and y is below (above); unordered exactly when x has a NaN, or x is close and y has a NaN |
| Bidimensional.Equal | include/geometry/geometry-bidimensional.hpp:125-127 | `==` holds exactly when both coordinate pairs are within the tolerance |
| Bidimensional.NotEqual | include/geometry/geometry-bidimensional.hpp:129-131 | `!=` is the negation of `==`, and holds exactly when some coordinate is NaN or some pair is outside the tolerance |
| Bidimensional.CompareSwap | include/geometry/geometry-bidimensional.hpp:99-131 | swapping the operands reverses `<=>`; `==` and `!=` are symmetric |
| Bidimensional.CompareCyclic | include/geometry/geometry-bidimensional.hpp:99-123 | the tolerant lexicographic `<=>` is cyclic, so it is not a valid ordering: (0.02, 0) < (0.01, 1) < (0, 2), yet (0.02, 0) > (0, 2) |
| Bidimensional.CompareShortCircuit | include/geometry/geometry-bidimensional.hpp:115-118 | a non-equivalent x comparison is the result whatever the y coordinates are |
| Bidimensional.EqualReflexive | include/geometry/geometry-bidimensional.hpp:125-127 | a point equals itself exactly when it holds no NaN |
| Bidimensional.NaNIsUnequal | include/geometry/geometry-bidimensional.hpp:99-131 | a point with a NaN is `!=` to every point, itself included, in either order |
| Bidimensional.AddCommutative | tests/bidimensional.cpp:12-14 | `xs + ys` and `ys + xs` are the same point, and `==` when NaN-free |
| Bidimensional.AddAssociative | tests/bidimensional.cpp:8-10 | regrouping a sum gives the same point, and `==` when NaN-free |
| Bidimensional.AddZero | tests/bidimensional.cpp:16-19 | adding `zero()` gives the point back; the result is `==` to it exactly when it is NaN-free |
| Bidimensional.AddOneOneIsUnequal | tests/bidimensional.cpp:21-24 | `xs + (1, 1) != xs` for every point, NaN or not |
| Bidimensional.SubUndoesAdd | include/geometry/geometry-bidimensional.hpp:53-63 | subtracting what was added restores the point |
| Bidimensional.ScaleBothOrders | tests/bidimensional.cpp:26-29 | `xs * k` and `k * xs` are the same point |
| Bidimensional.ScaleOne | tests/bidimensional.cpp:31-34 | `xs * 1` is `xs` |
| Bidimensional.ScaleZero | tests/bidimensional.cpp:36-39 | `xs * 0` is `zero()`, and `==` to it, exactly when xs is NaN-free |
| Bidimensional.DotCommutative | tests/bidimensional.cpp:46-48 | `xs.dot(ys) == ys.dot(xs)` |
| Bidimensional.DotOfNumbers | include/geometry/geometry-bidimensional.hpp:133-136 | on NaN-free points the dot product is the real sum of coordinate products |
| Bidimensional.DotOfZero | tests/bidimensional.cpp:41-44 | `zero().dot(zero())` is 0 |
| Bidimensional.DotScale | tests/bidimensional.cpp:50-53 | `k * xs.dot(ys)` and `ys.dot(k * xs)` are the same value for every input, NaN included (IEEE `==` would be false on the NaN case) |
| Bidimensional.DotOfDiagonal | tests/bidimensional.cpp:59-65 | the squared length of (k, k) is 2k² |
| Bidimensional.SquaredLengthScales | tests/bidimensional.cpp:67-73 | the squared length of `k * xs` is k² times that of xs |
| Bidimensional.AxesOrthonormal | include/geometry/geometry-bidimensional.hpp:27-41 | `xaxis()` and `yaxis()` each have squared length 1 and are orthogonal to each other |
| Bidimensional.AxesSum | include/geometry/geometry-bidimensional.hpp:27-41 | `xaxis() + yaxis()` is (1, 1) |
| Bidimensional.Point.constructor | include/geometry/geometry-bidimensional.hpp:17 | `Point()` stores `zero()` |
| Bidimensional.Point.At | include/geometry/geometry-bidimensional.hpp:18 | `Point(x, y)` stores x and y |
| Bidimensional.Point.AddAssign | include/geometry/geometry-bidimensional.hpp:53-57 | `+=` replaces the coordinates by the sum with the old rhs (rhs may alias) and returns the receiver |
| Bidimensional.Point.SubAssign | include/geometry/geometry-bidimensional.hpp:59-63 | `-=` replaces the coordinates by the difference and returns the receiver |
| Bidimensional.Point.MulAssign | include/geometry/geometry-bidimensional.hpp:65-69 | `*=` scales the coordinates and returns the receiver |
| Bidimensional.Point.Sum | include/geometry/geometry-bidimensional.hpp:71-76 | `lhs + rhs` is a new point holding the sum; both operands are unchanged |
| Bidimensional.Point.Difference | include/geometry/geometry-bidimensional.hpp:78-83 | `lhs - rhs` is a new point holding the difference; both operands are unchanged |
| Bidimensional.Point.Product | include/geometry/geometry-bidimensional.hpp:85-97 | `p * k` and `k * p` are a new scaled point; p is unchanged |
| Tridimensional.Zero | include/geometry/geometry-tridimensional.hpp:21-26 | `zero()` is NaN-free with all three coordinates 0 |
| Tridimensional.XAxis | include/geometry/geometry-tridimensional.hpp:28-34 | `xaxis()` is NaN-free with x = 1 and y = z = 0 |
| Tridimensional.YAxis | include/geometry/geometry-tridimensional.hpp:36-42 | `yaxis()` is NaN-free with y = 1 and x = z = 0 |
| Tridimensional.ZAxis | include/geometry/geometry-tridimensional.hpp:44-50 | `zaxis()` is NaN-free with z = 1 and x = y = 0 |
| Tridimensional.Neg | include/geometry/geometry-tridimensional.hpp:64-67 | `-p` holds no NaN exactly when p holds none |
| Tridimensional.Add | include/geometry/geometry-tridimensional.hpp:87-92 | the sum holds no NaN exactly when neither operand does |
| Tridimensional.Sub | include/geometry/geometry-tridimensional.hpp:94-99 | the difference holds no NaN exactly when neither operand does |
| Tridimensional.Scale | include/geometry/geometry-tridimensional.hpp:101-106 | the scaled point holds no NaN exactly when neither the point nor the scalar does |
| Tridimensional.ScaleLeft | include/geometry/geometry-tridimensional.hpp:108-113 | the same NaN rule for `scalar * p` |
| Tridimensional.Dot | include/geometry/geometry-tridimensional.hpp:153-156 | the dot product is a number exactly when neither point holds a NaN |
| Tridimensional.Cross | include/geometry/geometry-tridimensional.hpp:158-161 | the cross product of NaN-free points is NaN-free |
| Tridimensional.Rotation | include/geometry/geometry-tridimensional.hpp:179-190 | a rotation of NaN-free inputs is NaN-free; a NaN in the cosine, sine, axis or point makes all three coordinates NaN |
| Tridimensional.AxialWeight | include/geometry/geometry-tridimensional.hpp:181-182 | the axial weight is a number exactly when the cosine, the axis and the point are NaN-free |
| Tridimensional.Compare | include/geometry/geometry-tridimensional.hpp:115-142 | lexicographic order over x, y, z: each of equivalent, less, greater and unordered exactly characterised; z decides only when x and y are both close |
| Tridimensional.Equal | include/geometry/geometry-tridimensional.hpp:144-146 | `==` holds exactly when all three coordinate pairs are within the tolerance |
| Tridimensional.NotEqual | include/geometry/geometry-tridimensional.hpp:148-150 | `!=` is the negation of `==`, and holds exactly when some coordinate is NaN or some pair is outside the tolerance |
| Tridimensional.CompareSwap | include/geometry/geometry-tridimensional.hpp:115-150 | swapping the operands reverses `<=>`; `==` and `!=` are symmetric |
| Tridimensional.CompareShortCircuit | include/geometry/geometry-tridimensional.hpp:131-137 | a non-equivalent x comparison decides whatever y and z are; a non-equivalent y after an equivalent x decides whatever z is |
| Tridimensional.EqualReflexive | include/geometry/geometry-tridimensional.hpp:144-146 | a point equals itself exactly when it holds no NaN |
| Tridimensional.NaNIsUnequal | include/geometry/geometry-tridimensional.hpp:115-150 | a point with a NaN is `!=` to every point, itself included, in either order |
| Tridimensional.AddCommutative | tests/tridimensional.cpp:13-15 | `xs + ys` and `ys + xs` are the same point, and `==` when NaN-free |
| Tridimensional.AddAssociative | tests/tridimensional.cpp:9-11 | regrouping a sum gives the same point, and `==` when NaN-free |
| Tridimensional.AddZero | tests/tridimensional.cpp:17-20 | adding `zero()` gives the point back; the result is `==` to it exactly when it is NaN-free |
| Tridimensional.AddOnesIsUnequal | tests/tridimensional.cpp:22-25 | `xs + (1, 1, 1) != xs` for every point |
| Tridimensional.SubUndoesAdd | include/geometry/geometry-tridimensional.hpp:69-79 | subtracting what was added restores the point |
| Tridimensional.SubIsAddNeg | include/geometry/geometry-tridimensional.hpp:64-99 | `a - b` is `a + (-b)`; `a + (-a)` is `zero()` exactly when a is NaN-free |
| Tridimensional.NegInvolutive | include/geometry/geometry-tridimensional.hpp:64-67 | `-(-a)` is a, and `-a` is `a * -1` |
| Tridimensional.NegAxes | tests/tridimensional.cpp:130-140 | `-xaxis()`, `-yaxis()` and `-zaxis()` are (−1, 0, 0), (0, −1, 0) and (0, 0, −1) |
| Tridimensional.ScaleBothOrders | tests/tridimensional.cpp:27-30 | `xs * k` and `k * xs` are the same point |
| Tridimensional.ScaleOne | tests/tridimensional.cpp:32-35 | `xs * 1` is `xs` |
| Tridimensional.ScaleZero | tests/tridimensional.cpp:37-40 | `xs * 0` is (0, 0, 0), and `==` to it, exactly when xs is NaN-free |
| Tridimensional.DotCommutative | tests/tridimensional.cpp:47-49 | `xs.dot(ys) == ys.dot(xs)` |
| Tridimensional.DotOfNumbers | include/geometry/geometry-tridimensional.hpp:153-156 | on NaN-free points the dot product is the real sum of coordinate products |
| Tridimensional.DotOfZero | tests/tridimensional.cpp:42-45 | `zero().dot(zero())` is 0 |
| Tridimensional.DotScale | tests/tridimensional.cpp:51-54 | `k * xs.dot(ys)` and `ys.dot(k * xs)` are the same value for every input, NaN included (IEEE `==` would be false on the NaN case) |
| Tridimensional.DotOfDiagonal | tests/tridimensional.cpp:60-66 | the squared length of (k, k, k) is 3k² |
| Tridimensional.SquaredLengthScales | tests/tridimensional.cpp:68-74 | the squared length of `k * xs` is k² times that of xs |
| Tridimensional.AxesOrthonormal | include/geometry/geometry-tridimensional.hpp:28-50 | each axis has squared length 1 and two different axes are orthogonal |
| Tridimensional.AxesRightHanded | include/geometry/geometry-tridimensional.hpp:158-161 | x × y = z, y × z = x and z × x = y |
| Tridimensional.CrossAnticommutative | include/geometry/geometry-tridimensional.hpp:158-161 | b × a is −(a × b) |
| Tridimensional.CrossSelf | include/geometry/geometry-tridimensional.hpp:158-161 | a × a is `zero()`, and `==` to it, exactly when a is NaN-free |
| Tridimensional.CrossOfNumbers | include/geometry/geometry-tridimensional.hpp:158-161 | on NaN-free points the cross product is (ay·bz − az·by, az·bx − ax·bz, ax·by − ay·bx) |
| Tridimensional.CrossOrthogonal | include/geometry/geometry-tridimensional.hpp:158-161 | a × b is orthogonal to a and to b |
| Tridimensional.CrossLength | include/geometry/geometry-tridimensional.hpp:158-161 | Lagrange's identity: the squared length of a × b is \|a\|²·\|b\|² − (a · b)² |
| Tridimensional.RotationOfNumbers | include/geometry/geometry-tridimensional.hpp:179-190 | on numbers each rotated coordinate is v·c + (axis × v)·s + axis·(axis · v)·(1 − c) |
| Tridimensional.RotationPreservesLength | include/geometry/geometry-tridimensional.hpp:179-190 | with a unit axis and c² + s² = 1, the rotated point has the squared length of the original |
| Tridimensional.RotationByZeroAngle | include/geometry/geometry-tridimensional.hpp:179-190 | turning by the zero angle (c = 1, s = 0) leaves the point where it is, whatever the axis |
| Tridimensional.RotationFixesAxis | include/geometry/geometry-tridimensional.hpp:179-190 | a unit axis is left where it is by every rotation about itself |
| Tridimensional.QuarterTurn | include/geometry/geometry-tridimensional.hpp:179-190 | a quarter turn (c = 0, s = 1) takes v to k × v + (k · v)·k |
| Tridimensional.QuarterTurnOrthogonal | include/geometry/geometry-tridimensional.hpp:179-190 | a quarter turn takes a point orthogonal to the axis to k × v |
| Tridimensional.QuarterTurnXTakesY | tests/tridimensional.cpp:106 | a quarter turn about the x axis takes y to `1 * z` |
| Tridimensional.QuarterTurnXTakesZ | tests/tridimensional.cpp:107 | a quarter turn about the x axis takes z to `-1 * y` |
| Tridimensional.QuarterTurnYTakesX | tests/tridimensional.cpp:116 | a quarter turn about the y axis takes x to `-1 * z` |
| Tridimensional.QuarterTurnYTakesZ | tests/tridimensional.cpp:117 | a quarter turn about the y axis takes z to `1 * x` |
| Tridimensional.QuarterTurnZTakesX | tests/tridimensional.cpp:126 | a quarter turn about the z axis takes x to `1 * y` |
| Tridimensional.QuarterTurnZTakesY | tests/tridimensional.cpp:127 | a quarter turn about the z axis takes y to `-1 * x` |
| Tridimensional.Point.constructor | include/geometry/geometry-tridimensional.hpp:18 | `Point()` stores `zero()` |
| Tridimensional.Point.At | include/geometry/geometry-tridimensional.hpp:19 | `Point(x, y, z)` stores x, y and z |
| Tridimensional.Point.AddAssign | include/geometry/geometry-tridimensional.hpp:69-73 | `+=` replaces the coordinates by the sum with the old rhs (rhs may alias) and returns the receiver |
| Tridimensional.Point.SubAssign | include/geometry/geometry-tridimensional.hpp:75-79 | `-=` replaces the coordinates by the difference and returns the receiver |
| Tridimensional.Point.MulAssign | include/geometry/geometry-tridimensional.hpp:81-85 | `*=` scales the coordinates and returns the receiver |
| Tridimensional.Point.Rotate | include/geometry/geometry-tridimensional.hpp:179-184 | `rotate` replaces the coordinates by the rotation of the old ones about the old axis (the axis may alias) and returns the receiver |
| Tridimensional.Point.Rotated | include/geometry/geometry-tridimensional.hpp:186-190 | `rotated` returns a new point holding the rotation; the receiver and the axis are unchanged |
| Tridimensional.Point.Negated | include/geometry/geometry-tridimensional.hpp:64-67 | unary `-` returns a new point holding the negation; the receiver is unchanged |
| Tridimensional.Point.Sum | include/geometry/geometry-tridimensional.hpp:87-92 | `lhs + rhs` is a new point holding the sum; both operands are unchanged |
| Tridimensional.Point.Difference | include/geometry/geometry-tridimensional.hpp:94-99 | `lhs - rhs` is a new point holding the difference; both operands are unchanged |
| Tridimensional.Point.Product | include/geometry/geometry-tridimensional.hpp:101-113 | `p * k` and `k * p` are a new scaled point; p is unchanged |

## Left out

- Floating-point rounding and the choice of `float`, `double` or `long double`: a finite coordinate is an exact real. The tolerance exists to absorb rounding, and the model has none to absorb, so the tests' approximate results (a quarter turn computed from a rounded π/2) become exact.
- Infinities are not modelled. The `lh == rh` test in the comparison is kept as written; without infinities it is subsumed by the tolerance test.
- The tolerance is the exact rational 1/100, not the nearest `float` or `double`.
- `norm`, `normalize` and `normalized` need a square root and are not modelled. The squared length `dot(p, p)` stands in for the norm in the `Norm` test properties.
- The 2D tests call `normalized()` and `normalize()`, which the 2D header does not define. They are not modelled.
- `std::cos` and `std::sin` inside Eigen's `AngleAxis`: the angle is given by its cosine and sine. The rotation lemmas state c² + s² = 1 where they need it.
- `Tridimensional.Rotation` is stated as Rodrigues' formula. Its equality with the angle-axis matrix product is a fact of exact arithmetic, not a lemma.
- Eigen's `Vector<Precision, N>` storage is replaced by one field per coordinate. The private 3D constructor from an Eigen vector is inlined where the source uses it.
- `operator<<` stream formatting is debug output and is not modelled.
- `geometry::zero` and `geometry::one` are tables of 0 and 1 per precision. They are inlined as `0.0` and `1.0`.
- The `static_assert` on the precision type is a compile-time restriction.
- The tests' random-input generators carry no behaviour of the points.
- The `Add.Associative` tests compare `(xs + ys) + zs` with `xs + ys + zs`, which C++ parses the same way. The model proves the stronger regrouping law.
