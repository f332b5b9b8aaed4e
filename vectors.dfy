/**
 * Three-component vectors over the reals, standing in for the `THREE.Vector3`
 * operations used by the explosion and spaceship code (`add`, `lerp`,
 * `multiplyScalar`, `distanceTo`, `normalize`). Coordinates are `real`, so no
 * floating-point rounding is modelled. Lengths are handled squared: the host's
 * square root is never computed here. Values of `Math.random()` are passed
 * in as parameters; `IsDraw` says what such a value can be.
 */
module Vectors {

  datatype Vec3 = Vec3(x: real, y: real, z: real)

  const Zero: Vec3 := Vec3(0.0, 0.0, 0.0)

  /** A value `Math.random()` can return. */
  predicate IsDraw(r: real) {
    0.0 <= r < 1.0
  }

  /** Three values of `Math.random()`, in the order they are drawn. */
  predicate IsDrawVec(d: Vec3) {
    IsDraw(d.x) && IsDraw(d.y) && IsDraw(d.z)
  }

  function Abs(r: real): real {
    if r < 0.0 then -r else r
  }

  function Add(a: Vec3, b: Vec3): Vec3 {
    Vec3(a.x + b.x, a.y + b.y, a.z + b.z)
  }

  function Sub(a: Vec3, b: Vec3): Vec3 {
    Vec3(a.x - b.x, a.y - b.y, a.z - b.z)
  }

  function Scale(a: Vec3, s: real): Vec3 {
    Vec3(a.x * s, a.y * s, a.z * s)
  }

  lemma ScaleZero(s: real)
    ensures Scale(Zero, s) == Zero
  {
  }

  function LengthSq(a: Vec3): real {
    a.x * a.x + a.y * a.y + a.z * a.z
  }

  /** The square of `a.distanceTo(b)`. */
  function DistanceSq(a: Vec3, b: Vec3): real {
    LengthSq(Sub(a, b))
  }

  /** `a.lerp(b, t)`: every component moves by `(b - a) * t`. */
  function Lerp(a: Vec3, b: Vec3, t: real): Vec3 {
    Vec3(a.x + (b.x - a.x) * t, a.y + (b.y - a.y) * t, a.z + (b.z - a.z) * t)
  }

  /** `len` is what the host's `Vector3.length()` returns for `v`. */
  predicate IsLengthOf(len: real, v: Vec3) {
    len >= 0.0 && len * len == LengthSq(v)
  }

  lemma LengthSqPositive(a: Vec3)
    ensures LengthSq(a) >= 0.0
    ensures a != Zero ==> LengthSq(a) > 0.0
  {
    SquareNonNegative(a.x);
    SquareNonNegative(a.y);
    SquareNonNegative(a.z);
    if a.x != 0.0 {
      calc {
        LengthSq(a);
      ==
        a.x * a.x + (a.y * a.y + a.z * a.z);
      >= { AddNonNegative(a.x * a.x, a.y * a.y, a.z * a.z); }
        a.x * a.x;
      > { SquarePositive(a.x); }
        0.0;
      }
    } else if a.y != 0.0 {
      calc {
        LengthSq(a);
      ==
        a.y * a.y + (a.x * a.x + a.z * a.z);
      >= { AddNonNegative(a.y * a.y, a.x * a.x, a.z * a.z); }
        a.y * a.y;
      > { SquarePositive(a.y); }
        0.0;
      }
    } else if a.z != 0.0 {
      calc {
        LengthSq(a);
      ==
        a.z * a.z + (a.x * a.x + a.y * a.y);
      >= { AddNonNegative(a.z * a.z, a.x * a.x, a.y * a.y); }
        a.z * a.z;
      > { SquarePositive(a.z); }
        0.0;
      }
    } else {
      assert a == Zero;
    }
  }

  lemma AddNonNegative(p: real, q: real, r: real)
    requires q >= 0.0 && r >= 0.0
    ensures p + (q + r) >= p
  {
  }

  lemma MulPositive(a: real, b: real)
    requires a > 0.0 && b > 0.0
    ensures a * b > 0.0
  {
  }

  lemma SquarePositive(r: real)
    requires r != 0.0
    ensures r * r > 0.0
  {
    if r > 0.0 {
      MulPositive(r, r);
    } else {
      MulPositive(-r, -r);
    }
  }

  lemma SquareNonNegative(r: real)
    ensures r * r >= 0.0
  {
    if r != 0.0 {
      SquarePositive(r);
    }
  }

  lemma ScaleLengthSq(a: Vec3, s: real)
    ensures LengthSq(Scale(a, s)) == s * s * LengthSq(a)
  {
    calc {
      LengthSq(Scale(a, s));
      (a.x * s) * (a.x * s) + (a.y * s) * (a.y * s) + (a.z * s) * (a.z * s);
      s * s * (a.x * a.x) + s * s * (a.y * a.y) + s * s * (a.z * a.z);
    }
  }

  /** Moving a fraction `t` of the way towards `b` leaves `1 - t` of the distance. */
  lemma LerpDistanceSq(a: Vec3, b: Vec3, t: real)
    ensures DistanceSq(Lerp(a, b, t), b) == (1.0 - t) * (1.0 - t) * DistanceSq(a, b)
  {
    var l := Lerp(a, b, t);
    assert Sub(l, b) == Scale(Sub(a, b), 1.0 - t);
    ScaleLengthSq(Sub(a, b), 1.0 - t);
  }
}
