/** Exact plane geometry for movement directions.

    A resolved movement direction is one of the eight sign pairs, and its
    normalisation has components 0, ±1 or ±1/√2. Each coordinate is therefore
    kept as `a + b·h` with `h = 1/√2`: sums and real scalings stay in this
    form. Equal pairs `(a, b)` denote equal numbers; the converse holds
    only for rational `a` and `b`, and nothing here relies on it. */
module Geometry {

  /** The real number `a + b/√2`. */
  datatype Scalar = Scalar(a: real, b: real)

  const Zero: Scalar := Scalar(0.0, 0.0)
  const One: Scalar := Scalar(1.0, 0.0)

  function Plus(s: Scalar, t: Scalar): Scalar { Scalar(s.a + t.a, s.b + t.b) }

  /** `s · r` for a real `r`. */
  function Times(s: Scalar, r: real): Scalar { Scalar(s.a * r, s.b * r) }

  function Neg(s: Scalar): Scalar { Scalar(-s.a, -s.b) }

  /** A sufficient condition for `a + b/√2 > 0`. */
  predicate Positive(s: Scalar) { s.a >= 0.0 && s.b >= 0.0 && (s.a > 0.0 || s.b > 0.0) }

  datatype Vec2 = Vec2(x: Scalar, y: Scalar)

  const ZeroVec: Vec2 := Vec2(Zero, Zero)

  function Add(v: Vec2, w: Vec2): Vec2 { Vec2(Plus(v.x, w.x), Plus(v.y, w.y)) }

  /** `v * r` for a real `r`. */
  function Scale(v: Vec2, r: real): Vec2 { Vec2(Times(v.x, r), Times(v.y, r)) }

  /** A direction component as the input resolves it: -1, 0 or 1. */
  type Sign = i: int | -1 <= i <= 1

  /** A resolved movement direction before normalisation. */
  datatype Dir = Dir(x: Sign, y: Sign)

  const Still: Dir := Dir(0, 0)

  function ToVec(d: Dir): (v: Vec2)
    ensures v == ZeroVec <==> d == Still
  {
    Vec2(Scalar(d.x as real, 0.0), Scalar(d.y as real, 0.0))
  }

  /** `direction.normalize()` for a non-zero sign pair: an axis direction is
      already of unit length, a diagonal one is divided by √2. */
  function Normalize(d: Dir): (u: Vec2)
    requires d != Still
    ensures (d.x == 0 || d.y == 0) ==> u == ToVec(d)
    ensures (u.x == Zero <==> d.x == 0) && (u.y == Zero <==> d.y == 0)
    ensures (d.x > 0 ==> Positive(u.x)) && (d.x < 0 ==> Positive(Neg(u.x)))
    ensures (d.y > 0 ==> Positive(u.y)) && (d.y < 0 ==> Positive(Neg(u.y)))
    ensures d.x == d.y ==> u.x == u.y
    ensures d.x == -d.y ==> u.x == Neg(u.y)
  {
    var diag := d.x != 0 && d.y != 0;
    Vec2(Component(d.x, diag), Component(d.y, diag))
  }

  /** One component of a normalised sign pair: 0, ±1, or ±1/√2 on a diagonal. */
  function Component(s: Sign, diagonal: bool): Scalar
  {
    if s == 0 then Zero
    else if s == 1 then (if diagonal then Scalar(0.0, 1.0) else One)
    else (if diagonal then Scalar(0.0, -1.0) else Scalar(-1.0, 0.0))
  }

  /** Moving along `u` by `r1` and then by `r2` is moving along `u` by `r1 + r2`. */
  lemma ScaleAddsUp(p: Vec2, u: Vec2, r1: real, r2: real)
    ensures Add(Add(p, Scale(u, r1)), Scale(u, r2)) == Add(p, Scale(u, r1 + r2))
  {
    assert u.x.a * r1 + u.x.a * r2 == u.x.a * (r1 + r2);
    assert u.x.b * r1 + u.x.b * r2 == u.x.b * (r1 + r2);
    assert u.y.a * r1 + u.y.a * r2 == u.y.a * (r1 + r2);
    assert u.y.b * r1 + u.y.b * r2 == u.y.b * (r1 + r2);
  }
}
