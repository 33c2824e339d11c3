/** The value of a Matrix4 (Math.h/Math.cpp) and every operation on it that produces a
    new matrix: the free operators, and the transform each in-place builder applies.
    A matrix is four Vector4 columns, so `m[c][r]` is column c, row r, as in the source. */
module Matrices {
  import opened Scalars
  import opened Vectors

  type Matrix = m: seq<Vector4> | |m| == 4 witness [UnitX, UnitY, UnitZ, UnitW]

  const UnitX: Vector4 := [1.0, 0.0, 0.0, 0.0]
  const UnitY: Vector4 := [0.0, 1.0, 0.0, 0.0]
  const UnitZ: Vector4 := [0.0, 0.0, 1.0, 0.0]
  /** Column 3 of the identity and of every matrix the builders multiply by. */
  const UnitW: Vector4 := [0.0, 0.0, 0.0, 1.0]

  /** The default-constructed Matrix4, also what loadIdentity() writes. */
  const Identity: Matrix := [UnitX, UnitY, UnitZ, UnitW]

  /** Two matrices with the same sixteen entries are equal. */
  lemma Ext(a: Matrix, b: Matrix)
    requires forall c, r | 0 <= c < 4 && 0 <= r < 4 :: a[c][r] == b[c][r]
    ensures a == b
  {
    forall c | 0 <= c < 4
      ensures a[c] == b[c]
    {
      assert forall r | 0 <= r < 4 :: a[c][r] == b[c][r];
    }
  }

  // ---------------------------------------------------------------------------
  // Products

  /** Entry (c, r) of m1 * m2: row r of m1 against column c of m2, summed over k in order. */
  function RowTimesColumn(a: Matrix, b: Matrix, c: nat, r: nat): real
    requires c < 4 && r < 4
  {
    a[0][r] * b[c][0] + a[1][r] * b[c][1] + a[2][r] * b[c][2] + a[3][r] * b[c][3]
  }

  /** operator*(const Matrix4&, const Matrix4&) */
  function Product(a: Matrix, b: Matrix): Matrix
  {
    seq(4, c requires 0 <= c < 4 => seq(4, r requires 0 <= r < 4 => RowTimesColumn(a, b, c, r)))
  }

  /** The running sum the product's inner loop holds after its first n steps. */
  function PartialRowTimesColumn(a: Matrix, b: Matrix, c: nat, r: nat, n: nat): real
    requires c < 4 && r < 4 && n <= 4
  {
    if n == 0 then 0.0 else PartialRowTimesColumn(a, b, c, r, n - 1) + a[n - 1][r] * b[c][n - 1]
  }

  lemma PartialRowTimesColumnComplete(a: Matrix, b: Matrix, c: nat, r: nat)
    requires c < 4 && r < 4
    ensures PartialRowTimesColumn(a, b, c, r, 4) == RowTimesColumn(a, b, c, r)
  {
    assert PartialRowTimesColumn(a, b, c, r, 1) == a[0][r] * b[c][0];
    assert PartialRowTimesColumn(a, b, c, r, 2) == a[0][r] * b[c][0] + a[1][r] * b[c][1];
  }

  /** The triple loop of operator*(const Matrix4&, const Matrix4&): every entry of a
      default-constructed result is zeroed, then accumulated over k. */
  method Multiply(m1: Matrix, m2: Matrix) returns (result: Matrix)
    ensures result == Product(m1, m2)
  {
    result := Identity;
    for col := 0 to 4
      invariant forall c, r | 0 <= c < col && 0 <= r < 4 :: result[c][r] == RowTimesColumn(m1, m2, c, r)
    {
      for row := 0 to 4
        invariant forall c, r | 0 <= c < col && 0 <= r < 4 :: result[c][r] == RowTimesColumn(m1, m2, c, r)
        invariant forall r | 0 <= r < row :: result[col][r] == RowTimesColumn(m1, m2, col, r)
      {
        result := result[col := result[col][row := 0.0]];
        for k := 0 to 4
          invariant forall c, r | 0 <= c < col && 0 <= r < 4 :: result[c][r] == RowTimesColumn(m1, m2, c, r)
          invariant forall r | 0 <= r < row :: result[col][r] == RowTimesColumn(m1, m2, col, r)
          invariant result[col][row] == PartialRowTimesColumn(m1, m2, col, row, k)
        {
          result := result[col := result[col][row := result[col][row] + m1[k][row] * m2[col][k]]];
        }
        PartialRowTimesColumnComplete(m1, m2, col, row);
      }
    }
    Ext(result, Product(m1, m2));
  }

  /** operator*(const Matrix4& m, const Vector4& v): v as a column vector. */
  function Transform(m: Matrix, v: Vector4): Vector4
  {
    seq(4, k requires 0 <= k < 4 => m[0][k] * v[0] + m[1][k] * v[1] + m[2][k] * v[2] + m[3][k] * v[3])
  }

  /** Row k of M v, with the entries of row k and of v named: the step that lets an
      arithmetic fact about the named entries speak about M v. */
  lemma TransformRow(m: Matrix, v: Vector4, k: nat, e0: real, e1: real, e2: real, e3: real,
                     v0: real, v1: real, v2: real, v3: real)
    requires k < 4 && m[0][k] == e0 && m[1][k] == e1 && m[2][k] == e2 && m[3][k] == e3
    requires v[0] == v0 && v[1] == v1 && v[2] == v2 && v[3] == v3
    ensures Transform(m, v)[k] == e0 * v0 + e1 * v1 + e2 * v2 + e3 * v3
  {
  }

  /** operator*(const Vector4& v, const Matrix4& m): v as a row vector. */
  function RowTransform(v: Vector4, m: Matrix): Vector4
  {
    seq(4, k requires 0 <= k < 4 => m[k][0] * v[0] + m[k][1] * v[1] + m[k][2] * v[2] + m[k][3] * v[3])
  }

  /** The loop of operator*(const Matrix4&, const Vector4&). The result starts as a
      default Vector4, whose components 2 and 3 are uninitialised; every one of them is
      written before it is read. */
  method MatrixTimesVector(m: Matrix, v: Vector4, unset2: real, unset3: real) returns (result: Vector4)
    ensures result == Transform(m, v)
  {
    result := [0.0, 0.0, unset2, unset3];
    for k := 0 to 4
      invariant forall j | 0 <= j < k :: result[j] == Transform(m, v)[j]
    {
      result := result[k := m[0][k] * v[0] + m[1][k] * v[1] + m[2][k] * v[2] + m[3][k] * v[3]];
    }
  }

  /** The loop of operator*(const Vector4&, const Matrix4&). */
  method VectorTimesMatrix(v: Vector4, m: Matrix, unset2: real, unset3: real) returns (result: Vector4)
    ensures result == RowTransform(v, m)
  {
    result := [0.0, 0.0, unset2, unset3];
    for k := 0 to 4
      invariant forall j | 0 <= j < k :: result[j] == RowTransform(v, m)[j]
    {
      result := result[k := m[k][0] * v[0] + m[k][1] * v[1] + m[k][2] * v[2] + m[k][3] * v[3]];
    }
  }

  // ---------------------------------------------------------------------------
  // Transpose

  /** The matrix after transpose(): entry (c, r) is the old entry (r, c). */
  function Transposed(m: Matrix): Matrix
  {
    seq(4, c requires 0 <= c < 4 => seq(4, r requires 0 <= r < 4 => m[r][c]))
  }

  /** Transposing twice restores the matrix; v * M is the column product with M transposed. */
  lemma TransposeProperties(m: Matrix, v: Vector4)
    ensures Transposed(Transposed(m)) == m
    ensures RowTransform(v, m) == Transform(Transposed(m), v)
  {
    Ext(Transposed(Transposed(m)), m);
    assert forall k | 0 <= k < 4 :: RowTransform(v, m)[k] == Transform(Transposed(m), v)[k];
  }

  /** Entry k of (transposed B) * v is column k of B dotted with v. */
  lemma TransformTransposed(b: Matrix, v: Vector4, k: nat)
    requires k < 4
    ensures Transform(Transposed(b), v)[k] == Dot4(b[k], v)
  {
  }

  // ---------------------------------------------------------------------------
  // Algebra of the product

  /** The default-constructed identity is a left and a right neutral element. */
  lemma IdentityNeutral(m: Matrix)
    ensures Product(Identity, m) == m
    ensures Product(m, Identity) == m
  {
    forall c, r | 0 <= c < 4 && 0 <= r < 4
      ensures Product(Identity, m)[c][r] == m[c][r] && Product(m, Identity)[c][r] == m[c][r]
    {
      if r == 0 {} else if r == 1 {} else if r == 2 {} else {}
      if c == 0 {} else if c == 1 {} else if c == 2 {} else {}
    }
    Ext(Product(Identity, m), m);
    Ext(Product(m, Identity), m);
  }

  /** Summing a product over two indices in either order: the arithmetic behind both
      composition lemmas below. */
  lemma Regroup(a0: real, a1: real, a2: real, a3: real,
                b00: real, b01: real, b02: real, b03: real,
                b10: real, b11: real, b12: real, b13: real,
                b20: real, b21: real, b22: real, b23: real,
                b30: real, b31: real, b32: real, b33: real,
                v0: real, v1: real, v2: real, v3: real)
    ensures (a0 * b00 + a1 * b01 + a2 * b02 + a3 * b03) * v0
          + (a0 * b10 + a1 * b11 + a2 * b12 + a3 * b13) * v1
          + (a0 * b20 + a1 * b21 + a2 * b22 + a3 * b23) * v2
          + (a0 * b30 + a1 * b31 + a2 * b32 + a3 * b33) * v3
         == a0 * (b00 * v0 + b10 * v1 + b20 * v2 + b30 * v3)
          + a1 * (b01 * v0 + b11 * v1 + b21 * v2 + b31 * v3)
          + a2 * (b02 * v0 + b12 * v1 + b22 * v2 + b32 * v3)
          + a3 * (b03 * v0 + b13 * v1 + b23 * v2 + b33 * v3)
  {
  }

  /** Row r of a against column c of b, regrouped against a vector v. */
  lemma RegroupAt(a: Matrix, b: Matrix, r: nat, v: Vector4)
    requires r < 4
    ensures RowTimesColumn(a, b, 0, r) * v[0] + RowTimesColumn(a, b, 1, r) * v[1]
          + RowTimesColumn(a, b, 2, r) * v[2] + RowTimesColumn(a, b, 3, r) * v[3]
         == a[0][r] * Transform(b, v)[0] + a[1][r] * Transform(b, v)[1]
          + a[2][r] * Transform(b, v)[2] + a[3][r] * Transform(b, v)[3]
  {
    Regroup(a[0][r], a[1][r], a[2][r], a[3][r],
            b[0][0], b[0][1], b[0][2], b[0][3],
            b[1][0], b[1][1], b[1][2], b[1][3],
            b[2][0], b[2][1], b[2][2], b[2][3],
            b[3][0], b[3][1], b[3][2], b[3][3],
            v[0], v[1], v[2], v[3]);
  }

  /** Applying a product to a vector applies the right factor first: this is why
      `M *= R` means "transform by R, then by the old M". */
  lemma TransformOfProduct(a: Matrix, b: Matrix, v: Vector4)
    ensures Transform(Product(a, b), v) == Transform(a, Transform(b, v))
  {
    forall k | 0 <= k < 4
      ensures Transform(Product(a, b), v)[k] == Transform(a, Transform(b, v))[k]
    {
      RegroupAt(a, b, k, v);
    }
  }

  /** Column c of a product is the left factor applied to column c of the right one. */
  lemma ProductColumn(a: Matrix, b: Matrix, c: nat)
    requires c < 4
    ensures Product(a, b)[c] == Transform(a, b[c])
  {
    assert forall r | 0 <= r < 4 :: Product(a, b)[c][r] == Transform(a, b[c])[r];
  }

  /** Composing transforms does not depend on grouping. */
  lemma ProductAssociative(a: Matrix, b: Matrix, d: Matrix)
    ensures Product(Product(a, b), d) == Product(a, Product(b, d))
  {
    forall c | 0 <= c < 4
      ensures Product(Product(a, b), d)[c] == Product(a, Product(b, d))[c]
    {
      calc {
        Product(Product(a, b), d)[c];
        { ProductColumn(Product(a, b), d, c); }
        Transform(Product(a, b), d[c]);
        { TransformOfProduct(a, b, d[c]); }
        Transform(a, Transform(b, d[c]));
        { ProductColumn(b, d, c); ProductColumn(a, Product(b, d), c); }
        Product(a, Product(b, d))[c];
      }
    }
  }

  /** Right-multiplying by a matrix whose column 3 is (0,0,0,1) leaves column 3 alone. */
  lemma ProductKeepsColumn3(m: Matrix, n: Matrix)
    requires n[3] == UnitW
    ensures Product(m, n)[3] == m[3]
  {
    assert forall r | 0 <= r < 4 :: Product(m, n)[3][r] == m[3][r];
  }

  // ---------------------------------------------------------------------------
  // Scalar operators

  /** Matrix4::operator*=(float), and the free operator*(s, M) / operator*(M, s) built on
      it: only columns 0, 1 and 2 are scaled. */
  function ScalarTimes(m: Matrix, s: real): Matrix
  {
    [Scale(s, m[0]), Scale(s, m[1]), Scale(s, m[2]), m[3]]
  }

  /** Matrix4::operator/=(float) and the free operator/(M, s): columns 0 to 2 only. */
  function ScalarDivide(m: Matrix, s: real): Matrix
    requires s != 0.0
  {
    [Div(m[0], s), Div(m[1], s), Div(m[2], s), m[3]]
  }

  /** Unary operator-, written in the source as `-1 * m`. */
  function Negated(m: Matrix): Matrix
  {
    ScalarTimes(m, -1.0)
  }

  /** Scaling by a scalar is the uniform `scale(s, s, s)`, i.e. right-multiplication by
      diag(s, s, s, 1), not multiplication of every entry; dividing by s undoes it; and
      negation therefore keeps column 3 and is an involution. */
  lemma ScalarOperatorProperties(m: Matrix, s: real)
    ensures ScalarTimes(m, s) == Scaled(m, s, s, s)
    ensures ScalarTimes(m, s) == Product(m, ScaleMatrix(s, s, s))
    ensures ScalarTimes(m, s)[3] == m[3]
    ensures s != 0.0 ==> ScalarDivide(ScalarTimes(m, s), s) == m
    ensures Negated(m)[3] == m[3]
    ensures forall c | 0 <= c < 3 :: Negated(m)[c] == Neg(m[c])
    ensures Negated(Negated(m)) == m
  {
    ScaleIsProduct(m, s, s, s);
    if s != 0.0 {
      ScaleDivRoundTrip(m[0], s);
      ScaleDivRoundTrip(m[1], s);
      ScaleDivRoundTrip(m[2], s);
    }
    AddNegIsZero(m[0]);
    AddNegIsZero(m[1]);
    AddNegIsZero(m[2]);
  }

  // ---------------------------------------------------------------------------
  // translate and scale

  /** The translation matrix T(x, y, z) of glTranslate. */
  function TranslationMatrix(x: real, y: real, z: real): Matrix
  {
    [[1.0, 0.0, 0.0, 0.0], [0.0, 1.0, 0.0, 0.0], [0.0, 0.0, 1.0, 0.0], [x, y, z, 1.0]]
  }

  /** The matrix after translate(x, y, z): row by row, column 3 becomes
      x*M[0] + y*M[1] + z*M[2] + M[3]. */
  function Translated(m: Matrix, x: real, y: real, z: real): Matrix
  {
    m[3 := seq(4, r requires 0 <= r < 4 => x * m[0][r] + y * m[1][r] + z * m[2][r] + m[3][r])]
  }

  /** Column 3 of Translated, given its four entries by name. */
  lemma TranslatedColumn3(m: Matrix, x: real, y: real, z: real, p: Vector4)
    requires p[0] == x * m[0][0] + y * m[1][0] + z * m[2][0] + m[3][0]
    requires p[1] == x * m[0][1] + y * m[1][1] + z * m[2][1] + m[3][1]
    requires p[2] == x * m[0][2] + y * m[1][2] + z * m[2][2] + m[3][2]
    requires p[3] == x * m[0][3] + y * m[1][3] + z * m[2][3] + m[3][3]
    ensures Translated(m, x, y, z) == m[3 := p]
  {
    var t := Translated(m, x, y, z)[3];
    assert t[0] == p[0] && t[1] == p[1] && t[2] == p[2] && t[3] == p[3];
    assert t == p;
  }

  /** translate rewrites only column 3, to the combination x*col0 + y*col1 + z*col2 + col3. */
  lemma TranslatedColumns(m: Matrix, x: real, y: real, z: real)
    ensures forall c | 0 <= c < 3 :: Translated(m, x, y, z)[c] == m[c]
    ensures Translated(m, x, y, z)[3] == Add(Add(Add(Scale(x, m[0]), Scale(y, m[1])), Scale(z, m[2])), m[3])
  {
    assert forall r | 0 <= r < 4 ::
      Translated(m, x, y, z)[3][r] == Add(Add(Add(Scale(x, m[0]), Scale(y, m[1])), Scale(z, m[2])), m[3])[r];
  }

  /** translate is right-multiplication by T(x, y, z). */
  lemma TranslateIsProduct(m: Matrix, x: real, y: real, z: real)
    ensures Translated(m, x, y, z) == Product(m, TranslationMatrix(x, y, z))
  {
    var t, p := Translated(m, x, y, z), Product(m, TranslationMatrix(x, y, z));
    forall c, r | 0 <= c < 4 && 0 <= r < 4
      ensures t[c][r] == p[c][r]
    {
      if c == 0 {} else if c == 1 {} else if c == 2 {} else {}
    }
    Ext(t, p);
  }

  lemma SumOfOffsets(x: real, y: real, z: real, x2: real, y2: real, z2: real, a: real, b: real, c: real, d: real)
    ensures x2 * a + y2 * b + z2 * c + (x * a + y * b + z * c + d) == (x + x2) * a + (y + y2) * b + (z + z2) * c + d
  {
  }

  /** Two successive translations are one translation by the sum. */
  lemma TranslateComposes(m: Matrix, x: real, y: real, z: real, x2: real, y2: real, z2: real)
    ensures Translated(Translated(m, x, y, z), x2, y2, z2) == Translated(m, x + x2, y + y2, z + z2)
  {
    var t := Translated(m, x, y, z);
    var tt, u := Translated(t, x2, y2, z2), Translated(m, x + x2, y + y2, z + z2);
    forall r | 0 <= r < 4
      ensures tt[3][r] == u[3][r]
    {
      SumOfOffsets(x, y, z, x2, y2, z2, m[0][r], m[1][r], m[2][r], m[3][r]);
    }
    Ext(tt, u);
  }

  /** The scale matrix diag(x, y, z, 1) of glScale. */
  function ScaleMatrix(x: real, y: real, z: real): Matrix
  {
    [[x, 0.0, 0.0, 0.0], [0.0, y, 0.0, 0.0], [0.0, 0.0, z, 0.0], [0.0, 0.0, 0.0, 1.0]]
  }

  /** The matrix after scale(x, y, z): columns 0, 1, 2 times x, y, z. */
  function Scaled(m: Matrix, x: real, y: real, z: real): Matrix
  {
    [Scale(x, m[0]), Scale(y, m[1]), Scale(z, m[2]), m[3]]
  }

  /** scale is right-multiplication by diag(x, y, z, 1). */
  lemma ScaleIsProduct(m: Matrix, x: real, y: real, z: real)
    ensures Scaled(m, x, y, z) == Product(m, ScaleMatrix(x, y, z))
  {
    var p := Product(m, ScaleMatrix(x, y, z));
    forall c, r | 0 <= c < 4 && 0 <= r < 4
      ensures Scaled(m, x, y, z)[c][r] == p[c][r]
    {
      if c == 0 {} else if c == 1 {} else if c == 2 {} else {}
    }
    Ext(Scaled(m, x, y, z), p);
  }

  // ---------------------------------------------------------------------------
  // rotate

  /** The rotation matrix R that rotate() fills, for cosine c, sine s and a normalised
      axis (x, y, z), entry by entry as the source writes it. */
  function RotationMatrix(c: real, s: real, x: real, y: real, z: real): Matrix
  {
    [[c + x * x * (1.0 - c), z * s + y * x * (1.0 - c), -y * s + z * x * (1.0 - c), 0.0],
     [-z * s + x * y * (1.0 - c), c + y * y * (1.0 - c), x * s + z * y * (1.0 - c), 0.0],
     [y * s + x * z * (1.0 - c), -x * s + y * z * (1.0 - c), c + z * z * (1.0 - c), 0.0],
     [0.0, 0.0, 0.0, 1.0]]
  }

  /** The rotation matrix that rotate(angle, x, y, z) builds: cosine and sine of the angle
      in radians (with M_PI) and the axis divided by its length. */
  function RotationFor(angle: real, axis: Vector3, libm: Libm): Matrix
    requires Length3(axis, libm) != 0.0
  {
    var cosine := libm.cos(DegreesToRadians(angle));
    var sine := libm.sin(DegreesToRadians(angle));
    var u := Div(axis, Length3(axis, libm));
    RotationMatrix(cosine, sine, u[0], u[1], u[2])
  }

  /** The matrix after rotate(angle, x, y, z): `M *= R`. */
  function Rotated(m: Matrix, angle: real, axis: Vector3, libm: Libm): Matrix
    requires Length3(axis, libm) != 0.0
  {
    Product(m, RotationFor(angle, axis, libm))
  }

  /** R has column 3 equal to (0,0,0,1) and zeros in row 3 elsewhere, so rotate never
      changes column 3 of M; with cosine 1 and sine 0 (rotate by 0 or by a full turn)
      R is the identity whatever the axis, and M is unchanged. */
  lemma RotateProperties(m: Matrix, angle: real, axis: Vector3, libm: Libm)
    requires Length3(axis, libm) != 0.0
    ensures RotationFor(angle, axis, libm)[3] == UnitW
    ensures forall c | 0 <= c < 3 :: RotationFor(angle, axis, libm)[c][3] == 0.0
    ensures Rotated(m, angle, axis, libm)[3] == m[3]
    ensures libm.cos(DegreesToRadians(angle)) == 1.0 && libm.sin(DegreesToRadians(angle)) == 0.0
            ==> Rotated(m, angle, axis, libm) == m
  {
    ProductKeepsColumn3(m, RotationFor(angle, axis, libm));
    if libm.cos(DegreesToRadians(angle)) == 1.0 && libm.sin(DegreesToRadians(angle)) == 0.0 {
      var u := Div(axis, Length3(axis, libm));
      RotationAtZeroAngle(u[0], u[1], u[2]);
      IdentityNeutral(m);
    }
  }

  /** With an exact square root the normalised axis is a unit vector, so the matrix
      rotate() multiplies by leaves the direction of its axis fixed. */
  lemma RotateFixesItsAxis(angle: real, axis: Vector3, libm: Libm)
    requires ExactSqrt(libm) && Length3(axis, libm) != 0.0
    ensures var u := Div(axis, Length3(axis, libm));
      Transform(RotationFor(angle, axis, libm), Widen3To4(u, 0.0)) == Widen3To4(u, 0.0)
  {
    var u := Div(axis, Length3(axis, libm));
    NormalizedIsUnit(axis, libm);
    RotationFixesAxis(libm.cos(DegreesToRadians(angle)), libm.sin(DegreesToRadians(angle)), u[0], u[1], u[2]);
    assert [u[0], u[1], u[2], 0.0] == Widen3To4(u, 0.0);
  }

  lemma RotationAtZeroAngle(x: real, y: real, z: real)
    ensures RotationMatrix(1.0, 0.0, x, y, z) == Identity
  {
  }

  /** Row 0 of R times its own unit axis, with the entries named. */
  lemma AxisRow0(e0: real, e1: real, e2: real, c: real, s: real, x: real, y: real, z: real)
    requires x * x + y * y + z * z == 1.0
    requires e0 == c + x * x * (1.0 - c) && e1 == -z * s + x * y * (1.0 - c) && e2 == y * s + x * z * (1.0 - c)
    ensures e0 * x + e1 * y + e2 * z == x
  {
  }

  /** Row 1 of R times its own unit axis. */
  lemma AxisRow1(e0: real, e1: real, e2: real, c: real, s: real, x: real, y: real, z: real)
    requires x * x + y * y + z * z == 1.0
    requires e0 == z * s + y * x * (1.0 - c) && e1 == c + y * y * (1.0 - c) && e2 == -x * s + y * z * (1.0 - c)
    ensures e0 * x + e1 * y + e2 * z == y
  {
  }

  /** Row 2 of R times its own unit axis. */
  lemma AxisRow2(e0: real, e1: real, e2: real, c: real, s: real, x: real, y: real, z: real)
    requires x * x + y * y + z * z == 1.0
    requires e0 == -y * s + z * x * (1.0 - c) && e1 == x * s + z * y * (1.0 - c) && e2 == c + z * z * (1.0 - c)
    ensures e0 * x + e1 * y + e2 * z == z
  {
  }

  /** Rows 0 to 2 of R applied to the unit axis (x, y, z, 0), one lemma each. */
  lemma AxisFixedRow0(c: real, s: real, x: real, y: real, z: real)
    requires x * x + y * y + z * z == 1.0
    ensures Transform(RotationMatrix(c, s, x, y, z), [x, y, z, 0.0])[0] == x
  {
    var m := RotationMatrix(c, s, x, y, z);
    TransformRow(m, [x, y, z, 0.0], 0, m[0][0], m[1][0], m[2][0], m[3][0], x, y, z, 0.0);
    AxisRow0(m[0][0], m[1][0], m[2][0], c, s, x, y, z);
  }

  lemma AxisFixedRow1(c: real, s: real, x: real, y: real, z: real)
    requires x * x + y * y + z * z == 1.0
    ensures Transform(RotationMatrix(c, s, x, y, z), [x, y, z, 0.0])[1] == y
  {
    var m := RotationMatrix(c, s, x, y, z);
    TransformRow(m, [x, y, z, 0.0], 1, m[0][1], m[1][1], m[2][1], m[3][1], x, y, z, 0.0);
    AxisRow1(m[0][1], m[1][1], m[2][1], c, s, x, y, z);
  }

  lemma AxisFixedRow2(c: real, s: real, x: real, y: real, z: real)
    requires x * x + y * y + z * z == 1.0
    ensures Transform(RotationMatrix(c, s, x, y, z), [x, y, z, 0.0])[2] == z
  {
    var m := RotationMatrix(c, s, x, y, z);
    TransformRow(m, [x, y, z, 0.0], 2, m[0][2], m[1][2], m[2][2], m[3][2], x, y, z, 0.0);
    AxisRow2(m[0][2], m[1][2], m[2][2], c, s, x, y, z);
  }

  /** For a unit axis, R leaves the axis itself fixed: rotate spins about (x, y, z). */
  lemma RotationFixesAxis(c: real, s: real, x: real, y: real, z: real)
    requires x * x + y * y + z * z == 1.0
    ensures Transform(RotationMatrix(c, s, x, y, z), [x, y, z, 0.0]) == [x, y, z, 0.0]
  {
    AxisFixedRow0(c, s, x, y, z);
    AxisFixedRow1(c, s, x, y, z);
    AxisFixedRow2(c, s, x, y, z);
    var m := RotationMatrix(c, s, x, y, z);
    TransformRow(m, [x, y, z, 0.0], 3, 0.0, 0.0, 0.0, 1.0, x, y, z, 0.0);
  }

  // ---------------------------------------------------------------------------
  // frustum and prespective

  /** The matrix F that frustum(l, r, b, t, n, f) fills (glFrustum). Degenerate bounds
      divide by zero in the source; here they are excluded. */
  function FrustumMatrix(l: real, r: real, b: real, t: real, n: real, f: real): Matrix
    requires r != l && t != b && f != n
  {
    [[2.0 * n / (r - l), 0.0, 0.0, 0.0],
     [0.0, 2.0 * n / (t - b), 0.0, 0.0],
     [(r + l) / (r - l), (t + b) / (t - b), -(f + n) / (f - n), -1.0],
     [0.0, 0.0, -2.0 * f * n / (f - n), 0.0]]
  }

  /** The matrix after frustum(...): `M *= F`. */
  function Frustumed(m: Matrix, l: real, r: real, b: real, t: real, n: real, f: real): Matrix
    requires r != l && t != b && f != n
  {
    Product(m, FrustumMatrix(l, r, b, t, n, f))
  }

  /** F sends eye-space depth -n to clip depth -w and depth -f to +w, so after the
      perspective divide the near plane lands on -1 and the far plane on +1; w is the
      distance in front of the eye. */
  lemma FrustumDepth(l: real, r: real, b: real, t: real, n: real, f: real, x: real, y: real, z: real)
    requires r != l && t != b && f != n
    ensures Transform(FrustumMatrix(l, r, b, t, n, f), [x, y, -n, 1.0])[2] == -n
    ensures Transform(FrustumMatrix(l, r, b, t, n, f), [x, y, -n, 1.0])[3] == n
    ensures Transform(FrustumMatrix(l, r, b, t, n, f), [x, y, -f, 1.0])[2] == f
    ensures Transform(FrustumMatrix(l, r, b, t, n, f), [x, y, -f, 1.0])[3] == f
    ensures Transform(FrustumMatrix(l, r, b, t, n, f), [x, y, z, 1.0])[3] == -z
  {
    var fm := FrustumMatrix(l, r, b, t, n, f);
    var a, c := -(f + n) / (f - n), -2.0 * f * n / (f - n);
    assert a * (f - n) == -(f + n);
    assert c * (f - n) == -2.0 * f * n;
    assert Transform(fm, [x, y, -n, 1.0])[2] == a * -n + c;
    assert (a * -n + c) * (f - n) == -n * (f - n);
    assert Transform(fm, [x, y, -f, 1.0])[2] == a * -f + c;
    assert (a * -f + c) * (f - n) == f * (f - n);
  }

  /** Half the height of the near plane that prespective() derives:
      `near * tan((angle / 2) * M_PI / 180)`. */
  function PerspectiveTop(angle: real, near: real, libm: Libm): real
  {
    near * libm.tan(DegreesToRadians(angle / 2.0))
  }

  /** The matrix after prespective(angle, aspect, near, far): a frustum symmetric about
      the view axis whose near plane reaches t = PerspectiveTop(angle, near) up and down and
      aspect * t left and right. */
  function Perspective(m: Matrix, angle: real, aspect: real, near: real, far: real, libm: Libm): Matrix
    requires aspect != 0.0 && PerspectiveTop(angle, near, libm) != 0.0 && far != near
  {
    SymmetricFrustumed(m, aspect, PerspectiveTop(angle, near, libm), near, far)
  }

  /** frustum(-aspect * t, aspect * t, -t, t, near, far) */
  function SymmetricFrustumed(m: Matrix, aspect: real, t: real, near: real, far: real): Matrix
    requires aspect != 0.0 && t != 0.0 && far != near
  {
    Frustumed(m, -aspect * t, aspect * t, -t, t, near, far)
  }

  /** Unfolds SymmetricFrustumed for callers whose t is itself a computed value. */
  lemma SymmetricFrustumedUnfold(m: Matrix, aspect: real, t: real, near: real, far: real)
    requires aspect != 0.0 && t != 0.0 && far != near
    ensures SymmetricFrustumed(m, aspect, t, near, far) == Frustumed(m, -aspect * t, aspect * t, -t, t, near, far)
  {
  }

  /** A frustum with bounds -w..w and -t..t has no skew and scales by n/w and n/t. */
  lemma SymmetricFrustum(w: real, t: real, n: real, f: real)
    requires w != 0.0 && t != 0.0 && f != n
    ensures var fm := FrustumMatrix(-w, w, -t, t, n, f);
      fm[2][0] == 0.0 && fm[2][1] == 0.0 && fm[0][0] == n / w && fm[1][1] == n / t
  {
    assert w - -w == 2.0 * w && t - -t == 2.0 * t;
    assert (2.0 * n) / (2.0 * w) == n / w && (2.0 * n) / (2.0 * t) == n / t;
  }

  /** The symmetric frustum applied to the identity is F itself, with its entries in the
      simple form SymmetricFrustum gives. */
  lemma SymmetricFrustumOfIdentity(w: real, t: real, n: real, f: real)
    requires w != 0.0 && t != 0.0 && f != n
    ensures var p := Frustumed(Identity, -w, w, -t, t, n, f);
      && p[2][0] == 0.0 && p[2][1] == 0.0 && p[0][0] == n / w && p[1][1] == n / t
      && p[2][2] == -(f + n) / (f - n) && p[2][3] == -1.0
      && p[3] == [0.0, 0.0, -2.0 * f * n / (f - n), 0.0]
  {
    SymmetricFrustum(w, t, n, f);
    IdentityNeutral(FrustumMatrix(-w, w, -t, t, n, f));
  }

  /** prespective() builds a frustum symmetric about the view axis: no skew in x or y,
      x and y scaled by near/(aspect*t) and near/t, the depth row of glFrustum, and w
      taken from -z. */
  lemma PerspectiveIsSymmetric(angle: real, aspect: real, near: real, far: real, libm: Libm)
    requires aspect != 0.0 && PerspectiveTop(angle, near, libm) != 0.0 && far != near
    ensures var p, t := Perspective(Identity, angle, aspect, near, far, libm), PerspectiveTop(angle, near, libm);
      && p[2][0] == 0.0 && p[2][1] == 0.0
      && p[0][0] == near / (aspect * t) && p[1][1] == near / t
      && p[2][2] == -(far + near) / (far - near) && p[2][3] == -1.0
      && p[3] == [0.0, 0.0, -2.0 * far * near / (far - near), 0.0]
  {
    var t := PerspectiveTop(angle, near, libm);
    var w := aspect * t;
    assert w != 0.0 && -aspect * t == -w;
    SymmetricFrustumedUnfold(Identity, aspect, t, near, far);
    SymmetricFrustumOfIdentity(w, t, near, far);
  }

  // ---------------------------------------------------------------------------
  // lookAt

  /** `forward = center - eye`, divided by its length. */
  function LookAtForward(eye: Vector3, center: Vector3, libm: Libm): Vector3
    requires Length3(Sub(center, eye), libm) != 0.0
  {
    Div(Sub(center, eye), Length3(Sub(center, eye), libm))
  }

  /** `side = cross(forward, up)`, divided by its length. */
  function LookAtSide(forward: Vector3, up: Vector3, libm: Libm): Vector3
    requires Length3(Cross(forward, up), libm) != 0.0
  {
    Div(Cross(forward, up), Length3(Cross(forward, up), libm))
  }

  /** The two normalisations lookAt performs divide by non-zero lengths: the eye is not
      the center and the up vector is not parallel to the line of sight. */
  predicate LookAtDefined(eye: Vector3, center: Vector3, up: Vector3, libm: Libm)
  {
    Length3(Sub(center, eye), libm) != 0.0
    && Length3(Cross(LookAtForward(eye, center, libm), up), libm) != 0.0
  }

  /** The matrix L of lookAt: columns (side, 0), (cross(side, forward), 0),
      (-forward, 0) and the identity's (0, 0, 0, 1), then transposed. */
  function LookAtMatrix(eye: Vector3, center: Vector3, up: Vector3, libm: Libm): Matrix
    requires LookAtDefined(eye, center, up, libm)
  {
    var forward := LookAtForward(eye, center, libm);
    var side := LookAtSide(forward, up, libm);
    var trueUp := Cross(side, forward);
    Transposed([Widen3To4(side, 0.0), Widen3To4(trueUp, 0.0), Widen3To4(Neg(forward), 0.0), UnitW])
  }

  /** The matrix after lookAt(eye, center, up): `M *= L`, then translate(-eye). */
  function LookedAt(m: Matrix, eye: Vector3, center: Vector3, up: Vector3, libm: Libm): Matrix
    requires LookAtDefined(eye, center, up, libm)
  {
    Translated(Product(m, LookAtMatrix(eye, center, up, libm)), -eye[0], -eye[1], -eye[2])
  }

  /** lookAt carries the eye point to what column 3 of the old matrix holds: applied to
      the identity, the camera sits at the origin of eye space. */
  lemma LookAtMovesEyeToOrigin(m: Matrix, eye: Vector3, center: Vector3, up: Vector3, libm: Libm)
    requires LookAtDefined(eye, center, up, libm)
    ensures Transform(LookedAt(m, eye, center, up, libm), Widen3To4(eye, 1.0)) == m[3]
    ensures Transform(LookedAt(Identity, eye, center, up, libm), Widen3To4(eye, 1.0)) == UnitW
  {
    forall n: Matrix
      ensures Transform(LookedAt(n, eye, center, up, libm), Widen3To4(eye, 1.0)) == n[3]
    {
      var l := LookAtMatrix(eye, center, up, libm);
      var p := Product(n, l);
      TranslateIsProduct(p, -eye[0], -eye[1], -eye[2]);
      TransformOfProduct(p, TranslationMatrix(-eye[0], -eye[1], -eye[2]), Widen3To4(eye, 1.0));
      assert Transform(TranslationMatrix(-eye[0], -eye[1], -eye[2]), Widen3To4(eye, 1.0)) == UnitW;
      assert l[3] == UnitW;
      ProductColumn(n, l, 3);
    }
  }

  /** A vector orthogonal to w stays orthogonal when divided by a non-zero length. */
  lemma DivKeepsOrthogonal(v: Vector3, w: Vector3, len: real)
    requires len != 0.0 && Dot3(v, w) == 0.0
    ensures Dot3(Div(v, len), w) == 0.0
  {
    var d := Div(v, len);
    assert d[0] * len == v[0] && d[1] * len == v[1] && d[2] * len == v[2];
    assert Dot3(d, w) * len == Dot3(v, w);
  }

  /** With an exact square root the viewing frame of lookAt is orthonormal where it
      matters: forward is a unit vector and both side and cross(side, forward) are
      orthogonal to it. */
  lemma LookAtFrameOrthogonal(eye: Vector3, center: Vector3, up: Vector3, libm: Libm)
    requires ExactSqrt(libm) && LookAtDefined(eye, center, up, libm)
    ensures var forward := LookAtForward(eye, center, libm);
      var side := LookAtSide(forward, up, libm);
      && Dot3(forward, forward) == 1.0
      && Dot3(side, forward) == 0.0
      && Dot3(Cross(side, forward), forward) == 0.0
  {
    var forward := LookAtForward(eye, center, libm);
    var side := LookAtSide(forward, up, libm);
    NormalizedIsUnit(Sub(center, eye), libm);
    CrossProperties(forward, up);
    DivKeepsOrthogonal(Cross(forward, up), forward, Length3(Cross(forward, up), libm));
    CrossProperties(side, forward);
  }

  /** Negating one side of a dot of widened vectors negates it. */
  lemma NegatedWidenedDot(a: Vector3, b: Vector3)
    ensures Dot4(Widen3To4(Neg(a), 0.0), Widen3To4(b, 0.0)) == -Dot3(a, b)
  {
  }

  /** The transposed frame (side, up, -forward, w) sends a unit forward orthogonal to
      side and up to -z. */
  lemma FrameSendsForwardToMinusZ(side: Vector3, trueUp: Vector3, forward: Vector3)
    requires Dot3(forward, forward) == 1.0 && Dot3(side, forward) == 0.0 && Dot3(trueUp, forward) == 0.0
    ensures Transform(Transposed([Widen3To4(side, 0.0), Widen3To4(trueUp, 0.0), Widen3To4(Neg(forward), 0.0), UnitW]),
                      Widen3To4(forward, 0.0))
            == [0.0, 0.0, -1.0, 0.0]
  {
    var w := Widen3To4(forward, 0.0);
    DotProperties(side, forward, 1.0);
    DotProperties(trueUp, forward, 1.0);
    NegatedWidenedDot(forward, forward);
    var b := [Widen3To4(side, 0.0), Widen3To4(trueUp, 0.0), Widen3To4(Neg(forward), 0.0), UnitW];
    TransformTransposed(b, w, 0);
    TransformTransposed(b, w, 1);
    TransformTransposed(b, w, 2);
    TransformTransposed(b, w, 3);
    var t := Transform(Transposed(b), w);
    assert t[0] == 0.0 && t[1] == 0.0 && t[2] == -1.0 && t[3] == 0.0;
  }

  /** With an exact square root, L sends the line of sight to -z: the camera looks down
      the negative z axis of eye space, as OpenGL expects. */
  lemma LookAtLooksDownMinusZ(eye: Vector3, center: Vector3, up: Vector3, libm: Libm)
    requires ExactSqrt(libm) && LookAtDefined(eye, center, up, libm)
    ensures Transform(LookAtMatrix(eye, center, up, libm), Widen3To4(LookAtForward(eye, center, libm), 0.0))
            == [0.0, 0.0, -1.0, 0.0]
  {
    var forward := LookAtForward(eye, center, libm);
    var side := LookAtSide(forward, up, libm);
    LookAtFrameOrthogonal(eye, center, up, libm);
    FrameSendsForwardToMinusZ(side, Cross(side, forward), forward);
  }
}
