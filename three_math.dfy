/** The handful of three.js helpers the scroll animation relies on
    (`THREE.MathUtils.lerp`, `THREE.MathUtils.clamp`, componentwise
    `Vector3.lerp`/`lerpVectors`), over exact reals instead of IEEE doubles. */
module ThreeMath {

  function Abs(x: real): real { if x < 0.0 then -x else x }

  function Min(x: real, y: real): real { if x <= y then x else y }

  function Max(x: real, y: real): real { if x <= y then y else x }

  lemma MulNonneg(a: real, b: real)
    requires 0.0 <= a && 0.0 <= b
    ensures 0.0 <= a * b
  {
  }

  lemma SquareNonneg(a: real)
    ensures 0.0 <= a * a
  {
    if a < 0.0 { MulNonneg(-a, -a); } else { MulNonneg(a, a); }
  }

  lemma MulAssoc(a: real, b: real, c: real)
    ensures a * (b * c) == (a * b) * c
  {
  }

  /** `b` raised to the natural power `n`. */
  function Pow(b: real, n: nat): real
  {
    if n == 0 then 1.0 else b * Pow(b, n - 1)
  }

  /** `THREE.MathUtils.lerp(x, y, t)`, written `(1 - t) * x + t * y` there. */
  function Lerp(x: real, y: real, t: real): (r: real)
    ensures t == 0.0 ==> r == x
    ensures t == 1.0 ==> r == y
  {
    (1.0 - t) * x + t * y
  }

  /** Lerp moves `x` the fraction `t` of the way to `y`. */
  lemma LerpOffset(x: real, y: real, t: real)
    ensures Lerp(x, y, t) - x == t * (y - x)
    ensures Lerp(x, y, t) - y == (1.0 - t) * (x - y)
  {
  }

  /** For `t` in [0, 1] lerp stays between its two ends. */
  lemma LerpWithin(x: real, y: real, t: real)
    requires 0.0 <= t <= 1.0
    ensures Min(x, y) <= Lerp(x, y, t) <= Max(x, y)
  {
    LerpOffset(x, y, t);
    if x <= y {
      MulNonneg(t, y - x);
      MulNonneg(1.0 - t, y - x);
    } else {
      MulNonneg(t, x - y);
      MulNonneg(1.0 - t, x - y);
    }
  }

  /** `THREE.MathUtils.clamp(v, lo, hi)`, written `Math.max(lo, Math.min(hi, v))`. */
  function Clamp(v: real, lo: real, hi: real): (r: real)
    requires lo <= hi
    ensures lo <= r <= hi
    ensures lo <= v <= hi ==> r == v
    ensures v <= lo ==> r == lo
    ensures hi <= v ==> r == hi
  {
    Max(lo, Min(hi, v))
  }

  /** Clamping preserves order. */
  lemma ClampMonotone(a: real, b: real, lo: real, hi: real)
    requires lo <= hi && a <= b
    ensures Clamp(a, lo, hi) <= Clamp(b, lo, hi)
  {
  }

  /** One step of the trailing filter that moves `x` the fraction `t` of the way
      to `y` shrinks the gap to `y` by the factor `1 - t`. */
  lemma LerpShrinksGap(x: real, y: real, t: real)
    requires 0.0 <= t <= 1.0
    ensures Abs(Lerp(x, y, t) - y) == (1.0 - t) * Abs(x - y)
  {
    LerpOffset(x, y, t);
    if x < y {
      MulNonneg(1.0 - t, y - x);
    } else {
      MulNonneg(1.0 - t, x - y);
    }
  }

  /** `n` successive steps of `Lerp(_, y, t)` starting from `x`. */
  function LerpSteps(x: real, y: real, t: real, n: nat): real
  {
    if n == 0 then x else Lerp(LerpSteps(x, y, t, n - 1), y, t)
  }

  /** After `n` steps of the trailing filter the signed gap to a fixed target
      is `(1 - t)^n` times the original signed gap. */
  lemma {:induction false} LerpStepsOffset(x: real, y: real, t: real, n: nat)
    ensures LerpSteps(x, y, t, n) - y == Pow(1.0 - t, n) * (x - y)
  {
    if n > 0 {
      var prev := LerpSteps(x, y, t, n - 1);
      LerpStepsOffset(x, y, t, n - 1);
      var q := Pow(1.0 - t, n - 1);
      LerpOffset(prev, y, t);
      MulAssoc(1.0 - t, q, x - y);
    }
  }

  lemma {:induction false} PowNonneg(b: real, n: nat)
    requires 0.0 <= b
    ensures 0.0 <= Pow(b, n)
  {
    if n > 0 {
      PowNonneg(b, n - 1);
      MulNonneg(b, Pow(b, n - 1));
    }
  }

  lemma AbsScale(c: real, v: real)
    requires 0.0 <= c
    ensures Abs(c * v) == c * Abs(v)
  {
    if v < 0.0 {
      MulNonneg(c, -v);
    } else {
      MulNonneg(c, v);
    }
  }

  lemma AbsScaled(g: real, c: real, v: real)
    requires 0.0 <= c && g == c * v
    ensures Abs(g) == c * Abs(v)
  {
    AbsScale(c, v);
  }

  /** After `n` steps of the trailing filter the distance to a fixed target is
      `(1 - t)^n` times the original distance. */
  lemma LerpStepsGap(x: real, y: real, t: real, n: nat)
    requires 0.0 <= t <= 1.0
    ensures Abs(LerpSteps(x, y, t, n) - y) == Pow(1.0 - t, n) * Abs(x - y)
  {
    LerpStepsOffset(x, y, t, n);
    PowNonneg(1.0 - t, n);
    AbsScaled(LerpSteps(x, y, t, n) - y, Pow(1.0 - t, n), x - y);
  }

  /** `0.9^n` decays at least like `9 / (9 + n)`. */
  lemma {:induction false} PowNineTenthsBound(n: nat)
    ensures 0.0 <= Pow(0.9, n) && Pow(0.9, n) * (9.0 + n as real) <= 9.0
  {
    if n > 0 {
      PowNineTenthsBound(n - 1);
      var p := Pow(0.9, n - 1);
      var k := (n - 1) as real;
      assert Pow(0.9, n) == 0.9 * p;
      assert 0.9 * p * (9.0 + n as real) == 0.9 * (p * (9.0 + k)) + 0.9 * p;
      assert p * (9.0 + k) <= 9.0;
      assert 0.9 * p * 9.0 <= 0.9 * p * (9.0 + k);
    }
  }

  /** Arithmetic step of a convergence bound: a factor `p` with
      `p * (9 + k) <= 9` takes a distance `d <= eps * k / 9` below `eps`. */
  lemma DecayBelow(p: real, d: real, eps: real, k: real)
    requires 0.0 <= p && 0.0 <= d && 0.0 < eps && 0.0 <= k
    requires 9.0 * d <= eps * k
    requires p * (9.0 + k) <= 9.0
    ensures p * d <= eps
  {
    MulNonneg(p, eps * k - 9.0 * d);
    assert p * (9.0 * d) <= p * (eps * k);
    MulNonneg(eps, 9.0 - p * (9.0 + k));
    assert eps * (p * k) <= eps * (9.0 - 9.0 * p);
    MulAssoc(p, eps, k);
    MulNonneg(eps, p);
  }

  /** A point in space; the componentwise part of `THREE.Vector3`. */
  datatype Vec3 = Vec3(x: real, y: real, z: real)

  /** `Vector3.lerpVectors(a, b, t)` and `a.lerp(b, t)`: each component is
      `a + (b - a) * t`. */
  function LerpVec(a: Vec3, b: Vec3, t: real): (r: Vec3)
    ensures r.x == Lerp(a.x, b.x, t) && r.y == Lerp(a.y, b.y, t) && r.z == Lerp(a.z, b.z, t)
  {
    Vec3(a.x + (b.x - a.x) * t, a.y + (b.y - a.y) * t, a.z + (b.z - a.z) * t)
  }

  /** `v` lies in the axis-aligned box spanned by `a` and `b`. */
  predicate InBox(v: Vec3, a: Vec3, b: Vec3)
  {
    && Min(a.x, b.x) <= v.x <= Max(a.x, b.x)
    && Min(a.y, b.y) <= v.y <= Max(a.y, b.y)
    && Min(a.z, b.z) <= v.z <= Max(a.z, b.z)
  }

  /** `n` successive `lerp(target, t)` steps from `v`. */
  function LerpVecSteps(v: Vec3, target: Vec3, t: real, n: nat): Vec3
  {
    if n == 0 then v else LerpVec(LerpVecSteps(v, target, t, n - 1), target, t)
  }

  lemma {:induction false} LerpVecStepsComponents(v: Vec3, target: Vec3, t: real, n: nat)
    ensures LerpVecSteps(v, target, t, n)
         == Vec3(LerpSteps(v.x, target.x, t, n), LerpSteps(v.y, target.y, t, n), LerpSteps(v.z, target.z, t, n))
  {
    if n > 0 {
      LerpVecStepsComponents(v, target, t, n - 1);
    }
  }
}
