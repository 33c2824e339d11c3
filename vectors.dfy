/** Vector2, Vector3 and Vector4 of Math.h/Math.cpp: fixed-length tuples of components.
    Each vector is a value: the source copies them by value everywhere (into matrices,
    entities and vertices), so its in-place `*=` and `/=` are modelled as the functions
    `Scale` and `Div` whose result replaces the old value. */
module Vectors {
  import opened Scalars

  type Vector2 = v: seq<real> | |v| == 2 witness [0.0, 0.0]
  type Vector3 = v: seq<real> | |v| == 3 witness [0.0, 0.0, 0.0]
  type Vector4 = v: seq<real> | |v| == 4 witness [0.0, 0.0, 0.0, 0.0]

  /** The zero vector of a given arity. */
  function Zero(n: nat): (z: seq<real>)
    ensures |z| == n && forall i :: 0 <= i < n ==> z[i] == 0.0
  {
    seq(n, i => 0.0)
  }

  // ---------------------------------------------------------------------------
  // Constructors that change arity

  /** Vector3(const Vector2&, z): the caller supplies the new trailing component. */
  function Widen2To3(v: Vector2, z: real): Vector3
  {
    [v[0], v[1], z]
  }

  /** Vector4(const Vector2&, z, w). */
  function Widen2To4(v: Vector2, z: real, w: real): Vector4
  {
    [v[0], v[1], z, w]
  }

  /** Vector4(const Vector3&, w). */
  function Widen3To4(v: Vector3, w: real): Vector4
  {
    [v[0], v[1], v[2], w]
  }

  /** explicit Vector2(const Vector3&): keeps components 0 and 1. */
  function Narrow3To2(v: Vector3): Vector2
  {
    [v[0], v[1]]
  }

  /** explicit Vector2(const Vector4&). */
  function Narrow4To2(v: Vector4): Vector2
  {
    [v[0], v[1]]
  }

  /** explicit Vector3(const Vector4&): drops component 3. */
  function Narrow4To3(v: Vector4): Vector3
  {
    [v[0], v[1], v[2]]
  }

  /** Narrowing undoes widening, and widening a narrowed vector with the dropped
      components restores it. */
  lemma WidenNarrowRoundTrip(v2: Vector2, v3: Vector3, v4: Vector4, z: real, w: real)
    ensures Narrow3To2(Widen2To3(v2, z)) == v2
    ensures Narrow4To2(Widen2To4(v2, z, w)) == v2
    ensures Narrow4To3(Widen3To4(v3, w)) == v3
    ensures Widen3To4(Narrow4To3(v4), v4[3]) == v4
    ensures Widen2To4(Narrow4To2(v4), v4[2], v4[3]) == v4
    ensures Widen2To3(Narrow3To2(v3), v3[2]) == v3
  {
  }

  // ---------------------------------------------------------------------------
  // Componentwise operators (the same for every arity)

  /** operator+ */
  function Add(a: seq<real>, b: seq<real>): (r: seq<real>)
    requires |a| == |b|
    ensures |r| == |a|
  {
    seq(|a|, i requires 0 <= i < |a| => a[i] + b[i])
  }

  /** operator- (binary) */
  function Sub(a: seq<real>, b: seq<real>): (r: seq<real>)
    requires |a| == |b|
    ensures |r| == |a|
  {
    seq(|a|, i requires 0 <= i < |a| => a[i] - b[i])
  }

  /** operator* between two vectors: the componentwise product. */
  function Mul(a: seq<real>, b: seq<real>): (r: seq<real>)
    requires |a| == |b|
    ensures |r| == |a|
  {
    seq(|a|, i requires 0 <= i < |a| => a[i] * b[i])
  }

  /** operator*(s, v), operator*(v, s) and the in-place `*=`: every component times s. */
  function Scale(s: real, v: seq<real>): (r: seq<real>)
    ensures |r| == |v|
  {
    seq(|v|, i requires 0 <= i < |v| => s * v[i])
  }

  /** operator/(v, s) and the in-place `/=`. Division by zero yields Inf/NaN in the
      source; over the reals it is excluded. */
  function Div(v: seq<real>, s: real): (r: seq<real>)
    requires s != 0.0
    ensures |r| == |v|
  {
    seq(|v|, i requires 0 <= i < |v| => v[i] / s)
  }

  /** Unary operator-, which the source writes as `-1 * v`. */
  function Neg(v: seq<real>): (r: seq<real>)
    ensures |r| == |v|
  {
    Scale(-1.0, v)
  }

  /** v + (-v) is the zero vector, and negation is an involution. */
  lemma AddNegIsZero(v: seq<real>)
    ensures Add(v, Neg(v)) == Zero(|v|)
    ensures Neg(Neg(v)) == v
  {
    assert forall i :: 0 <= i < |v| ==> Add(v, Neg(v))[i] == 0.0;
    assert forall i :: 0 <= i < |v| ==> Neg(Neg(v))[i] == v[i];
  }

  /** Dividing by s undoes scaling by s, and the other way round. */
  lemma ScaleDivRoundTrip(v: seq<real>, s: real)
    requires s != 0.0
    ensures Div(Scale(s, v), s) == v
    ensures Scale(s, Div(v, s)) == v
  {
    assert forall i :: 0 <= i < |v| ==> Div(Scale(s, v), s)[i] == (s * v[i]) / s == v[i];
    assert forall i :: 0 <= i < |v| ==> Scale(s, Div(v, s))[i] == s * (v[i] / s) == v[i];
  }

  /** Subtraction undoes addition and is adding the negation; addition and the
      componentwise product commute; scaling distributes over addition. */
  lemma ComponentwiseAlgebra(a: seq<real>, b: seq<real>, s: real)
    requires |a| == |b|
    ensures Sub(Add(a, b), b) == a
    ensures Sub(a, b) == Add(a, Neg(b))
    ensures Add(a, b) == Add(b, a) && Mul(a, b) == Mul(b, a)
    ensures Scale(s, Add(a, b)) == Add(Scale(s, a), Scale(s, b))
  {
    assert forall i :: 0 <= i < |a| ==> Sub(Add(a, b), b)[i] == a[i];
    assert forall i :: 0 <= i < |a| ==> Sub(a, b)[i] == Add(a, Neg(b))[i];
    assert forall i :: 0 <= i < |a| ==> Scale(s, Add(a, b))[i] == Add(Scale(s, a), Scale(s, b))[i];
  }

  /** The componentwise product distributes over addition, and scaling one factor scales
      the product. */
  lemma MulDistributes(a: seq<real>, b: seq<real>, c: seq<real>, s: real)
    requires |a| == |b| == |c|
    ensures Mul(a, Add(b, c)) == Add(Mul(a, b), Mul(a, c))
    ensures Mul(Scale(s, a), b) == Scale(s, Mul(a, b))
  {
    assert forall i :: 0 <= i < |a| ==> Mul(a, Add(b, c))[i] == Add(Mul(a, b), Mul(a, c))[i];
    assert forall i :: 0 <= i < |a| ==> Mul(Scale(s, a), b)[i] == Scale(s, Mul(a, b))[i];
  }

  // ---------------------------------------------------------------------------
  // dot, cross and length

  function Dot2(a: Vector2, b: Vector2): real
  {
    a[0] * b[0] + a[1] * b[1]
  }

  function Dot3(a: Vector3, b: Vector3): real
  {
    a[0] * b[0] + a[1] * b[1] + a[2] * b[2]
  }

  function Dot4(a: Vector4, b: Vector4): real
  {
    a[0] * b[0] + a[1] * b[1] + a[2] * b[2] + a[3] * b[3]
  }

  /** The right-handed cross product of two Vector3. */
  function Cross(a: Vector3, b: Vector3): Vector3
  {
    [a[1] * b[2] - a[2] * b[1],
     a[2] * b[0] - a[0] * b[2],
     a[0] * b[1] - a[1] * b[0]]
  }

  /** The cross product is orthogonal to both factors and anticommutative. */
  lemma CrossProperties(a: Vector3, b: Vector3)
    ensures Dot3(a, Cross(a, b)) == 0.0
    ensures Dot3(b, Cross(a, b)) == 0.0
    ensures Cross(a, b) == Neg(Cross(b, a))
    ensures Cross(a, a) == Zero(3)
  {
  }

  /** dot is symmetric, pulls scalars out, is non-negative on a vector with itself, and
      the dot of (v, 0) with (w, 0) is the dot of v with w. */
  lemma DotProperties(a: Vector3, b: Vector3, s: real)
    ensures Dot3(a, b) == Dot3(b, a)
    ensures Dot3(Scale(s, a), b) == s * Dot3(a, b)
    ensures Dot3(a, a) >= 0.0
    ensures Dot4(Widen3To4(a, 0.0), Widen3To4(b, 0.0)) == Dot3(a, b)
  {
    assert a[0] * a[0] >= 0.0 && a[1] * a[1] >= 0.0 && a[2] * a[2] >= 0.0;
  }

  /** The Vector2 and Vector4 dot products are symmetric, pull scalars out and are
      non-negative on a vector with itself, like the Vector3 one. */
  lemma Dot2And4Properties(a: Vector2, b: Vector2, c: Vector4, d: Vector4, s: real)
    ensures Dot2(a, b) == Dot2(b, a) && Dot4(c, d) == Dot4(d, c)
    ensures Dot2(Scale(s, a), b) == s * Dot2(a, b)
    ensures Dot4(Scale(s, c), d) == s * Dot4(c, d)
    ensures Dot2(a, a) >= 0.0 && Dot4(c, c) >= 0.0
  {
    assert a[0] * a[0] >= 0.0 && a[1] * a[1] >= 0.0;
    assert c[0] * c[0] >= 0.0 && c[1] * c[1] >= 0.0 && c[2] * c[2] >= 0.0 && c[3] * c[3] >= 0.0;
    var sa, sc := Scale(s, a), Scale(s, c);
    var x0, x1 := a[0] * b[0], a[1] * b[1];
    assert (s * a[0]) * b[0] == s * x0 && (s * a[1]) * b[1] == s * x1;
    assert Dot2(sa, b) == s * x0 + s * x1;
    var y0, y1, y2, y3 := c[0] * d[0], c[1] * d[1], c[2] * d[2], c[3] * d[3];
    assert (s * c[0]) * d[0] == s * y0 && (s * c[1]) * d[1] == s * y1;
    assert (s * c[2]) * d[2] == s * y2 && (s * c[3]) * d[3] == s * y3;
    assert Dot4(sc, d) == s * y0 + s * y1 + s * y2 + s * y3;
  }

  /** length() of each arity: sqrt of the sum of squared components. */
  function Length2(v: Vector2, libm: Libm): real
  {
    libm.sqrt(Dot2(v, v))
  }

  function Length3(v: Vector3, libm: Libm): real
  {
    libm.sqrt(Dot3(v, v))
  }

  function Length4(v: Vector4, libm: Libm): real
  {
    libm.sqrt(Dot4(v, v))
  }

  /** A `sqrt` that returns the exact non-negative square root. */
  ghost predicate ExactSqrt(libm: Libm)
  {
    forall a: real {:trigger libm.sqrt(a)} :: 0.0 <= a ==> 0.0 <= libm.sqrt(a) && libm.sqrt(a) * libm.sqrt(a) == a
  }

  /** A factor that is a non-zero square cancels. */
  lemma CancelSquare(a: real, n: real)
    requires n != 0.0 && a * (n * n) == n * n
    ensures a == 1.0
  {
    assert ((a - 1.0) * n) * n == 0.0;
  }

  /** Three components divided by a common non-zero norm have squares summing to 1. */
  lemma UnitQuotients(v0: real, v1: real, v2: real, len: real)
    requires len != 0.0 && len * len == v0 * v0 + v1 * v1 + v2 * v2
    ensures (v0 / len) * (v0 / len) + (v1 / len) * (v1 / len) + (v2 / len) * (v2 / len) == 1.0
  {
    var u0, u1, u2 := v0 / len, v1 / len, v2 / len;
    assert u0 * len == v0 && u1 * len == v1 && u2 * len == v2;
    assert (u0 * u0) * (len * len) == (u0 * len) * (u0 * len);
    assert (u1 * u1) * (len * len) == (u1 * len) * (u1 * len);
    assert (u2 * u2) * (len * len) == (u2 * len) * (u2 * len);
    calc {
      (u0 * u0 + u1 * u1 + u2 * u2) * (len * len);
      (u0 * u0) * (len * len) + (u1 * u1) * (len * len) + (u2 * u2) * (len * len);
      v0 * v0 + v1 * v1 + v2 * v2;
      1.0 * (len * len);
    }
    CancelSquare(u0 * u0 + u1 * u1 + u2 * u2, len);
  }

  /** With an exact square root, `v /= v.length()` (as lookAt does) gives a unit vector. */
  lemma NormalizedIsUnit(v: Vector3, libm: Libm)
    requires ExactSqrt(libm) && Length3(v, libm) != 0.0
    ensures Dot3(Div(v, Length3(v, libm)), Div(v, Length3(v, libm))) == 1.0
  {
    var len := Length3(v, libm);
    assert 0.0 <= v[0] * v[0] && 0.0 <= v[1] * v[1] && 0.0 <= v[2] * v[2];
    assert len * len == Dot3(v, v);
    UnitQuotients(v[0], v[1], v[2], len);
  }
}
