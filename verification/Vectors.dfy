/** Exact dot products over the reals and the Cauchy-Schwarz inequality with its equality case. */
module Vectors {

  type Vector = seq<real>

  function Dot(u: Vector, v: Vector): real
    requires |u| == |v|
  {
    if u == [] then 0.0
    else Dot(u[..|u| - 1], v[..|v| - 1]) + u[|u| - 1] * v[|v| - 1]
  }

  /** One component each is their product, and components side by side add up. */
  lemma {:induction false} DotAdds(a: Vector, b: Vector, c: Vector, d: Vector)
    requires |a| == |b| && |c| == |d|
    ensures Dot(a + c, b + d) == Dot(a, b) + Dot(c, d)
    ensures forall x: real, y: real :: Dot([x], [y]) == x * y
  {
    forall x: real, y: real ensures Dot([x], [y]) == x * y {
      assert Dot([x], [y]) == Dot([x][..0], [y][..0]) + x * y;
    }
    if c == [] {
      assert a + c == a && b + d == b;
    } else {
      var n := |c| - 1;
      DotAdds(a, b, c[..n], d[..n]);
      assert (a + c)[..|a + c| - 1] == a + c[..n] && (b + d)[..|b + d| - 1] == b + d[..n];
    }
  }

  function Scale(u: Vector, x: real): (w: Vector)
    ensures |w| == |u| && forall i :: 0 <= i < |u| ==> w[i] == u[i] * x
  {
    seq(|u|, i requires 0 <= i < |u| => u[i] * x)
  }

  /** The vector x u - y v. */
  function Combine(u: Vector, v: Vector, x: real, y: real): (w: Vector)
    requires |u| == |v|
    ensures |w| == |u| && forall i :: 0 <= i < |u| ==> w[i] == x * u[i] - y * v[i]
  {
    seq(|u|, i requires 0 <= i < |u| => x * u[i] - y * v[i])
  }

  predicate Zero(u: Vector) { forall i :: 0 <= i < |u| ==> u[i] == 0.0 }

  predicate NonNegative(u: Vector) { forall i :: 0 <= i < |u| ==> u[i] >= 0.0 }

  /** Two vectors of which each is a multiple of the other, unless one is zero. */
  predicate Proportional(u: Vector, v: Vector)
    requires |u| == |v|
  {
    forall i, j :: 0 <= i < |u| && 0 <= j < |u| ==> u[i] * v[j] == u[j] * v[i]
  }

  lemma {:induction false} DotSymmetric(u: Vector, v: Vector)
    requires |u| == |v|
    ensures Dot(u, v) == Dot(v, u)
  {
    if u != [] {
      DotSymmetric(u[..|u| - 1], v[..|v| - 1]);
    }
  }

  lemma {:induction false} DotNonNegative(u: Vector, v: Vector)
    requires |u| == |v| && NonNegative(u) && NonNegative(v)
    ensures Dot(u, v) >= 0.0
  {
    if u != [] {
      DotNonNegative(u[..|u| - 1], v[..|v| - 1]);
      assert u[|u| - 1] * v[|v| - 1] >= 0.0;
    }
  }

  lemma CancelFactor(b: real, x: real, y: real)
    requires b != 0.0 && b * x == b * y
    ensures x == y
  {
  }

  lemma ProductIsZero(x: real, y: real)
    requires x != 0.0 && x * y == 0.0
    ensures y == 0.0
  {
  }

  lemma SquareNonNegative(x: real)
    ensures x * x >= 0.0
    ensures x * x == 0.0 ==> x == 0.0
  {
    if x != 0.0 && x * x == 0.0 {
      ProductIsZero(x, x);
    }
  }

  lemma {:induction false} SquareSum(u: Vector)
    ensures Dot(u, u) >= 0.0
    ensures Dot(u, u) == 0.0 <==> Zero(u)
  {
    if u != [] {
      SquareSum(u[..|u| - 1]);
      SquareNonNegative(u[|u| - 1]);
    }
  }

  predicate IsProduct(p: real, x: real, y: real) { p == x * y }

  lemma {:induction false} DotScale(u: Vector, v: Vector, x: real)
    requires |u| == |v|
    ensures IsProduct(Dot(Scale(u, x), v), Dot(u, v), x)
  {
    if u != [] {
      var n := |u| - 1;
      DotScale(u[..n], v[..n], x);
      forall i | 0 <= i < n
        ensures Scale(u, x)[..n][i] == Scale(u[..n], x)[i]
      {
        assert u[..n][i] == u[i];
      }
      assert Scale(u, x)[..n] == Scale(u[..n], x);
      assert u[n] * x * v[n] == u[n] * v[n] * x;
    }
  }

  lemma ProductChain(p: real, m: real, c: real, x: real, y: real)
    requires IsProduct(p, m, x) && IsProduct(m, c, y)
    ensures IsProduct(p, c, x * y)
  {
  }

  lemma DotScaleBoth(u: Vector, v: Vector, x: real, y: real)
    requires |u| == |v|
    ensures IsProduct(Dot(Scale(u, x), Scale(v, y)), Dot(u, v), x * y)
  {
    DotScale(u, Scale(v, y), x);
    DotSymmetric(u, Scale(v, y));
    DotScale(v, u, y);
    DotSymmetric(u, v);
    ProductChain(Dot(Scale(u, x), Scale(v, y)), Dot(u, Scale(v, y)), Dot(u, v), x, y);
  }

  /** The squared norm of x u - y v from a = u.u, b = v.v and c = u.v. */
  function Quadratic(a: real, b: real, c: real, x: real, y: real): real {
    x * x * a - 2.0 * (x * y) * c + y * y * b
  }

  predicate IsQuadratic(norm: real, a: real, b: real, c: real, x: real, y: real) {
    norm == Quadratic(a, b, c, x, y)
  }

  /** One more pair of components in a dot product. */
  predicate Grown(d': real, d: real, p: real, q: real) { d' == d + p * q }

  lemma QuadraticGrows(a: real, b: real, c: real, a': real, b': real, c': real, norm: real, norm': real,
                       x: real, y: real, p: real, q: real, t: real)
    requires Grown(a', a, p, p) && Grown(b', b, q, q) && Grown(c', c, p, q)
    requires t == x * p - y * q && Grown(norm', norm, t, t) && IsQuadratic(norm, a, b, c, x, y)
    ensures IsQuadratic(norm', a', b', c', x, y)
  {
  }

  lemma CombinePrefix(u: Vector, v: Vector, x: real, y: real, n: nat)
    requires |u| == |v| && n <= |u|
    ensures Combine(u, v, x, y)[..n] == Combine(u[..n], v[..n], x, y)
  {
    forall i | 0 <= i < n
      ensures Combine(u, v, x, y)[..n][i] == Combine(u[..n], v[..n], x, y)[i]
    {
      assert u[..n][i] == u[i] && v[..n][i] == v[i];
    }
  }

  lemma CombineLast(u: Vector, v: Vector, x: real, y: real, n: nat)
    requires |u| == |v| == n + 1
    ensures var w, w0 := Combine(u, v, x, y), Combine(u[..n], v[..n], x, y);
            Grown(Dot(w, w), Dot(w0, w0), w[n], w[n]) && w[n] == x * u[n] - y * v[n]
  {
    CombinePrefix(u, v, x, y, n);
  }

  lemma {:induction false} DotCombine(u: Vector, v: Vector, x: real, y: real)
    requires |u| == |v|
    ensures var w := Combine(u, v, x, y);
            IsQuadratic(Dot(w, w), Dot(u, u), Dot(v, v), Dot(u, v), x, y)
  {
    if u != [] {
      var n := |u| - 1;
      var u0, v0 := u[..n], v[..n];
      var w, w0 := Combine(u, v, x, y), Combine(u0, v0, x, y);
      DotCombine(u0, v0, x, y);
      CombineLast(u, v, x, y, n);
      QuadraticGrows(Dot(u0, u0), Dot(v0, v0), Dot(u0, v0), Dot(u, u), Dot(v, v), Dot(u, v), Dot(w0, w0), Dot(w, w),
                     x, y, u[n], v[n], w[n]);
    }
  }

  lemma EqualScales(u: Vector, v: Vector, j: nat)
    requires |u| == |v| && j < |u| && Proportional(u, v)
    ensures Scale(u, v[j]) == Scale(v, u[j])
  {
  }

  lemma BoundFromScaling(a: real, b: real, c: real, x: real, y: real, mixed: real, square: real)
    requires x != 0.0
    requires IsProduct(mixed, c, x) && IsProduct(mixed, b, y)
    requires IsProduct(square, a, x * x) && IsProduct(square, b, y * y)
    ensures Tight(a, b, c)
  {
    assert (c * c) * (x * x) == mixed * mixed == b * (b * (y * y));
    assert b * square == (a * b) * (x * x);
    SquareNonNegative(x);
    CancelFactor(x * x, c * c, a * b);
  }

  /** If u is proportional to a nonzero v then u.v, u.u and v.v meet the Cauchy-Schwarz bound. */
  lemma ProportionalMeetsBound(u: Vector, v: Vector, j: nat)
    requires |u| == |v| && j < |u| && v[j] != 0.0 && Proportional(u, v)
    ensures Tight(Dot(u, u), Dot(v, v), Dot(u, v))
  {
    var x, y := v[j], u[j];
    EqualScales(u, v, j);
    DotScaleBoth(u, u, x, x);
    DotScaleBoth(v, v, y, y);
    DotScale(u, v, x);
    DotScale(v, v, y);
    BoundFromScaling(Dot(u, u), Dot(v, v), Dot(u, v), x, y, Dot(Scale(u, x), v), Dot(Scale(u, x), Scale(u, x)));
  }

  /** The Cauchy-Schwarz bound on a = u.u, b = v.v and c = u.v, and its equality case. */
  predicate WithinBound(a: real, b: real, c: real) { c * c <= a * b }

  predicate Tight(a: real, b: real, c: real) { c * c == a * b }

  lemma PositiveFactor(b: real, d: real)
    requires b > 0.0 && b * d >= 0.0
    ensures d >= 0.0
    ensures b * d == 0.0 <==> d == 0.0
  {
  }

  lemma BoundFromNorm(a: real, b: real, c: real, norm: real)
    requires b > 0.0 && norm >= 0.0 && norm == Quadratic(a, b, c, b, c)
    ensures WithinBound(a, b, c)
    ensures Tight(a, b, c) <==> norm == 0.0
  {
  }

  /** The bound and its equality case, from the norm of B u - C v. */
  lemma ResidualNorm(u: Vector, v: Vector)
    requires |u| == |v| && Dot(v, v) > 0.0
    ensures WithinBound(Dot(u, u), Dot(v, v), Dot(u, v))
    ensures Tight(Dot(u, u), Dot(v, v), Dot(u, v)) <==> Zero(Combine(u, v, Dot(v, v), Dot(u, v)))
  {
    var w := Combine(u, v, Dot(v, v), Dot(u, v));
    SquareSum(w);
    DotCombine(u, v, Dot(v, v), Dot(u, v));
    BoundFromNorm(Dot(u, u), Dot(v, v), Dot(u, v), Dot(w, w));
  }

  lemma ZeroResidualIsProportional(u: Vector, v: Vector, b: real, c: real)
    requires |u| == |v| && b != 0.0 && Zero(Combine(u, v, b, c))
    ensures Proportional(u, v)
  {
  }

  /** Cauchy-Schwarz, with equality exactly for proportional vectors. */
  lemma CauchySchwarz(u: Vector, v: Vector)
    requires |u| == |v| && !Zero(v)
    ensures WithinBound(Dot(u, u), Dot(v, v), Dot(u, v))
    ensures Tight(Dot(u, u), Dot(v, v), Dot(u, v)) <==> Proportional(u, v)
  {
    SquareSum(v);
    ResidualNorm(u, v);
    if Zero(Combine(u, v, Dot(v, v), Dot(u, v))) {
      ZeroResidualIsProportional(u, v, Dot(v, v), Dot(u, v));
    }
    if Proportional(u, v) {
      var j :| 0 <= j < |v| && v[j] != 0.0;
      ProportionalMeetsBound(u, v, j);
    }
  }
}
