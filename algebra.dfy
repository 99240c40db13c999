/** Polynomial identities over the reals behind the rotation and cross-product
    lemmas. Every quantity the vector lemmas name is a parameter here, tied to
    the coordinates by a precondition, so that the solver sees the identity
    itself rather than products it would have to unfold. */
module Algebra {

  /** The cross product w = a × b is orthogonal to a and to b. */
  lemma Orthogonal(a1: real, a2: real, a3: real, b1: real, b2: real, b3: real,
                   w1: real, w2: real, w3: real)
    requires w1 == a2 * b3 - a3 * b2 && w2 == a3 * b1 - a1 * b3 && w3 == a1 * b2 - a2 * b1
    ensures w1 * a1 + w2 * a2 + w3 * a3 == 0.0
    ensures w1 * b1 + w2 * b2 + w3 * b3 == 0.0
  {
  }

  /** Lagrange's identity for w = a × b. */
  lemma Lagrange(a1: real, a2: real, a3: real, b1: real, b2: real, b3: real,
                 w1: real, w2: real, w3: real, ww: real, aa: real, bb: real, ab: real)
    requires w1 == a2 * b3 - a3 * b2 && w2 == a3 * b1 - a1 * b3 && w3 == a1 * b2 - a2 * b1
    requires ww == w1 * w1 + w2 * w2 + w3 * w3
    requires aa == a1 * a1 + a2 * a2 + a3 * a3
    requires bb == b1 * b1 + b2 * b2 + b3 * b3
    requires ab == a1 * b1 + a2 * b2 + a3 * b3
    ensures ww == aa * bb - ab * ab
  {
  }

  /** The squared length of q = v·c + w·s + k·t expanded over the dot products of
      v, w and k. */
  lemma CombinationLength(c: real, s: real, t: real,
                          vx: real, vy: real, vz: real, wx: real, wy: real, wz: real,
                          kx: real, ky: real, kz: real, qx: real, qy: real, qz: real,
                          qq: real, vv: real, ww: real, kk: real, wv: real, kv: real, wk: real)
    requires qx == vx * c + wx * s + kx * t
    requires qy == vy * c + wy * s + ky * t
    requires qz == vz * c + wz * s + kz * t
    requires qq == qx * qx + qy * qy + qz * qz
    requires vv == vx * vx + vy * vy + vz * vz
    requires ww == wx * wx + wy * wy + wz * wz
    requires kk == kx * kx + ky * ky + kz * kz
    requires wv == wx * vx + wy * vy + wz * vz
    requires kv == kx * vx + ky * vy + kz * vz
    requires wk == wx * kx + wy * ky + wz * kz
    ensures qq == c * c * vv + s * s * ww + t * t * kk + 2.0 * c * s * wv + 2.0 * c * t * kv + 2.0 * s * t * wk
  {
  }

  /** The expansion above collapses to vv when c² + s² = 1, the axis is a unit
      vector orthogonal to w, w is orthogonal to v with |w|² = |v|²·|k|² − (k · v)²,
      and t = (k · v)·(1 − c). */
  lemma CollapsedLength(c: real, s: real, t: real,
                        qq: real, vv: real, ww: real, kk: real, wv: real, kv: real, wk: real)
    requires qq == c * c * vv + s * s * ww + t * t * kk + 2.0 * c * s * wv + 2.0 * c * t * kv + 2.0 * s * t * wk
    requires c * c + s * s == 1.0 && kk == 1.0 && wv == 0.0 && wk == 0.0
    requires ww == kk * vv - kv * kv
    requires t == kv * (1.0 - c)
    ensures qq == vv
  {
  }

  /** Rodrigues' rotation q = v·c + w·s + k·t, with w = k × v and t = (k · v)·(1 − c),
      keeps the squared length of v when k is a unit vector and c² + s² = 1. */
  lemma RotatedLength(c: real, s: real, t: real,
                      vx: real, vy: real, vz: real, wx: real, wy: real, wz: real,
                      kx: real, ky: real, kz: real, qx: real, qy: real, qz: real,
                      qq: real, vv: real, ww: real, kk: real, wv: real, kv: real, wk: real)
    requires qx == vx * c + wx * s + kx * t
    requires qy == vy * c + wy * s + ky * t
    requires qz == vz * c + wz * s + kz * t
    requires qq == qx * qx + qy * qy + qz * qz
    requires vv == vx * vx + vy * vy + vz * vz
    requires ww == wx * wx + wy * wy + wz * wz
    requires kk == kx * kx + ky * ky + kz * kz
    requires wv == wx * vx + wy * vy + wz * vz
    requires kv == kx * vx + ky * vy + kz * vz
    requires wk == wx * kx + wy * ky + wz * kz
    requires c * c + s * s == 1.0 && kk == 1.0 && wv == 0.0 && wk == 0.0
    requires ww == kk * vv - kv * kv
    requires t == kv * (1.0 - c)
    ensures qq == vv
  {
    CombinationLength(c, s, t, vx, vy, vz, wx, wy, wz, kx, ky, kz, qx, qy, qz, qq, vv, ww, kk, wv, kv, wk);
    CollapsedLength(c, s, t, qq, vv, ww, kk, wv, kv, wk);
  }

  /** The same on coordinates alone: w = k × v, t = (k · v)·(1 − c), |k| = 1. */
  lemma RotationKeepsLength(c: real, s: real, t: real,
                            vx: real, vy: real, vz: real, wx: real, wy: real, wz: real,
                            kx: real, ky: real, kz: real, qx: real, qy: real, qz: real)
    requires wx == ky * vz - kz * vy && wy == kz * vx - kx * vz && wz == kx * vy - ky * vx
    requires t == (kx * vx + ky * vy + kz * vz) * (1.0 - c)
    requires qx == vx * c + wx * s + kx * t
    requires qy == vy * c + wy * s + ky * t
    requires qz == vz * c + wz * s + kz * t
    requires c * c + s * s == 1.0 && kx * kx + ky * ky + kz * kz == 1.0
    ensures qx * qx + qy * qy + qz * qz == vx * vx + vy * vy + vz * vz
  {
    Orthogonal(kx, ky, kz, vx, vy, vz, wx, wy, wz);
    Lagrange(kx, ky, kz, vx, vy, vz, wx, wy, wz,
             wx * wx + wy * wy + wz * wz, kx * kx + ky * ky + kz * kz,
             vx * vx + vy * vy + vz * vz, kx * vx + ky * vy + kz * vz);
    RotatedLength(c, s, t, vx, vy, vz, wx, wy, wz, kx, ky, kz, qx, qy, qz,
                  qx * qx + qy * qy + qz * qz, vx * vx + vy * vy + vz * vz,
                  wx * wx + wy * wy + wz * wz, kx * kx + ky * ky + kz * kz,
                  wx * vx + wy * vy + wz * vz, kx * vx + ky * vy + kz * vz,
                  wx * kx + wy * ky + wz * kz);
  }
}
