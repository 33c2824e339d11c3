/** Matrix4 as the object the source mutates in place: its four columns live in a
    fixed array (`m_columns[4]`), and every mutator rewrites that array. Each mutator is
    specified by the pure function of the old value that Matrices defines for it. */
module Matrix4Class {
  import opened Scalars
  import opened Vectors
  import opened Matrices

  /** The matrix transpose() holds once it has swapped the entries of the top-left
      col x col block and, in column col, the first row rows. */
  ghost function PartlyTransposed(m: Matrix, col: nat, row: nat): Matrix
  {
    seq(4, c requires 0 <= c < 4 => seq(4, r requires 0 <= r < 4 =>
      if (c < col && r < col) || (c == col && r < row) || (r == col && c < row) then m[r][c] else m[c][r]))
  }

  /** Before the first swap the matrix is as given. */
  lemma NothingSwapped(m: Matrix)
    ensures PartlyTransposed(m, 0, 0) == m
  {
    Ext(PartlyTransposed(m, 0, 0), m);
  }

  /** One swap of entry (col, row) with its mirror (row, col) extends the swapped part
      by one row of column col. */
  lemma SwapStep(v: Matrix, m: Matrix, col: nat, row: nat)
    requires row < col < 4 && v == PartlyTransposed(m, col, row)
    ensures v[col := v[col][row := v[row][col]]][row := v[row][col := v[col][row]]]
            == PartlyTransposed(m, col, row + 1)
  {
    Ext(v[col := v[col][row := v[row][col]]][row := v[row][col := v[col][row]]],
        PartlyTransposed(m, col, row + 1));
  }

  /** Column col finished: the diagonal entry needs no swap, so the block grows by one. */
  lemma ColumnDone(m: Matrix, col: nat)
    requires col < 4
    ensures PartlyTransposed(m, col, col) == PartlyTransposed(m, col + 1, 0)
  {
    Ext(PartlyTransposed(m, col, col), PartlyTransposed(m, col + 1, 0));
  }

  /** All four columns finished: the matrix is transposed. */
  lemma AllSwapped(m: Matrix)
    ensures PartlyTransposed(m, 4, 0) == Transposed(m)
  {
    Ext(PartlyTransposed(m, 4, 0), Transposed(m));
  }

  class Matrix4 {
    /** m_columns[4]: column c is columns[c]. */
    const columns: array<Vector4>

    ghost predicate Valid()
    {
      columns.Length == 4
    }

    /** The matrix the object currently holds. */
    function Value(): Matrix
      requires Valid()
      reads columns
    {
      [columns[0], columns[1], columns[2], columns[3]]
    }

    /** Matrix4(): the identity. */
    constructor ()
      ensures Valid() && fresh(columns)
      ensures Value() == Identity
    {
      columns := new Vector4[4] [UnitX, UnitY, UnitZ, UnitW];
    }

    /** Matrix4(column1, column2, column3, column4). */
    constructor FromColumns(column1: Vector4, column2: Vector4, column3: Vector4, column4: Vector4)
      ensures Valid() && fresh(columns)
      ensures Value() == [column1, column2, column3, column4]
    {
      columns := new Vector4[4] [column1, column2, column3, column4];
    }

    /** Matrix4(m00, ..., m33): parameter m{c}{r} is column c, row r. */
    constructor FromEntries(m00: real, m01: real, m02: real, m03: real,
                            m10: real, m11: real, m12: real, m13: real,
                            m20: real, m21: real, m22: real, m23: real,
                            m30: real, m31: real, m32: real, m33: real)
      ensures Valid() && fresh(columns)
      ensures Value() == [[m00, m01, m02, m03], [m10, m11, m12, m13],
                          [m20, m21, m22, m23], [m30, m31, m32, m33]]
    {
      columns := new Vector4[4] [[m00, m01, m02, m03], [m10, m11, m12, m13],
                                 [m20, m21, m22, m23], [m30, m31, m32, m33]];
    }

    /** Writing through operator[]: column `index` becomes `column`, the others stay. */
    method SetColumn(index: nat, column: Vector4)
      requires Valid() && index < 4
      modifies columns
      ensures Valid()
      ensures Value() == old(Value())[index := column]
    {
      columns[index] := column;
    }

    /** operator*=(const Matrix4&): the product is computed before it is stored, so
        `m *= m` squares m. */
    method MulAssign(other: Matrix4)
      requires Valid() && other.Valid()
      modifies columns
      ensures Valid()
      ensures Value() == Product(old(Value()), old(other.Value()))
    {
      var result := Multiply(Value(), other.Value());
      columns[0], columns[1], columns[2], columns[3] := result[0], result[1], result[2], result[3];
    }

    /** operator*=(float): columns 0 to 2 only. */
    method ScaleAssign(s: real)
      requires Valid()
      modifies columns
      ensures Valid()
      ensures Value() == ScalarTimes(old(Value()), s)
    {
      columns[0] := Vectors.Scale(s, columns[0]);
      columns[1] := Vectors.Scale(s, columns[1]);
      columns[2] := Vectors.Scale(s, columns[2]);
    }

    /** operator/=(float): columns 0 to 2 only. */
    method DivAssign(s: real)
      requires Valid() && s != 0.0
      modifies columns
      ensures Valid()
      ensures Value() == ScalarDivide(old(Value()), s)
    {
      columns[0] := Div(columns[0], s);
      columns[1] := Div(columns[1], s);
      columns[2] := Div(columns[2], s);
    }

    /** transpose(): swaps every entry below the diagonal with its mirror, column by
        column. */
    method Transpose()
      requires Valid()
      modifies columns
      ensures Valid()
      ensures Value() == Transposed(old(Value()))
    {
      ghost var m0 := Value();
      NothingSwapped(m0);
      for col := 0 to 4
        invariant Value() == PartlyTransposed(m0, col, 0)
      {
        for row := 0 to col
          invariant Value() == PartlyTransposed(m0, col, row)
        {
          ghost var v := Value();
          var tmp := columns[col][row];
          columns[col] := columns[col][row := columns[row][col]];
          columns[row] := columns[row][col := tmp];
          SwapStep(v, m0, col, row);
        }
        ColumnDone(m0, col);
      }
      AllSwapped(m0);
    }

    /** loadIdentity() */
    method LoadIdentity()
      requires Valid()
      modifies columns
      ensures Valid()
      ensures Value() == Identity
    {
      columns[0] := UnitX;
      columns[1] := UnitY;
      columns[2] := UnitZ;
      columns[3] := UnitW;
    }

    /** translate(x, y, z): the four entries of column 3, one after the other. */
    method Translate(x: real, y: real, z: real)
      requires Valid()
      modifies columns
      ensures Valid()
      ensures Value() == Translated(old(Value()), x, y, z)
    {
      var m := Value();  // columns 0 to 2 and the unwritten rows of column 3 keep these values
      columns[3] := columns[3][0 := x * m[0][0] + y * m[1][0] + z * m[2][0] + m[3][0]];
      columns[3] := columns[3][1 := x * m[0][1] + y * m[1][1] + z * m[2][1] + m[3][1]];
      columns[3] := columns[3][2 := x * m[0][2] + y * m[1][2] + z * m[2][2] + m[3][2]];
      columns[3] := columns[3][3 := x * m[0][3] + y * m[1][3] + z * m[2][3] + m[3][3]];
      TranslatedColumn3(m, x, y, z, columns[3]);
    }

    /** scale(x, y, z) */
    method Scale(x: real, y: real, z: real)
      requires Valid()
      modifies columns
      ensures Valid()
      ensures Value() == Scaled(old(Value()), x, y, z)
    {
      columns[0] := Vectors.Scale(x, columns[0]);
      columns[1] := Vectors.Scale(y, columns[1]);
      columns[2] := Vectors.Scale(z, columns[2]);
    }

    /** rotate(angle, x, y, z): normalise the axis, fill R, then `M *= R`. */
    method Rotate(angle: real, x: real, y: real, z: real, libm: Libm)
      requires Valid() && Length3([x, y, z], libm) != 0.0
      modifies columns
      ensures Valid()
      ensures Value() == Rotated(old(Value()), angle, [x, y, z], libm)
    {
      var cosine := libm.cos(DegreesToRadians(angle));
      var sine := libm.sin(DegreesToRadians(angle));
      var axis := Div([x, y, z], Length3([x, y, z], libm));
      var entries := RotationMatrix(cosine, sine, axis[0], axis[1], axis[2]);
      var r := new Matrix4();
      r.SetColumn(0, entries[0]);
      r.SetColumn(1, entries[1]);
      r.SetColumn(2, entries[2]);
      r.SetColumn(3, entries[3]);
      assert r.Value() == entries;
      MulAssign(r);
    }

    /** lookAt(eye, center, up): build L from the normalised viewing frame, transpose
        it, `M *= L`, then translate by -eye. */
    method LookAt(eyeX: real, eyeY: real, eyeZ: real,
                  centerX: real, centerY: real, centerZ: real,
                  upX: real, upY: real, upZ: real, libm: Libm)
      requires Valid() && LookAtDefined([eyeX, eyeY, eyeZ], [centerX, centerY, centerZ], [upX, upY, upZ], libm)
      modifies columns
      ensures Valid()
      ensures Value() == LookedAt(old(Value()), [eyeX, eyeY, eyeZ], [centerX, centerY, centerZ], [upX, upY, upZ], libm)
    {
      var forward := LookAtForward([eyeX, eyeY, eyeZ], [centerX, centerY, centerZ], libm);
      var side := LookAtSide(forward, [upX, upY, upZ], libm);
      var up := Cross(side, forward);
      var l := new Matrix4();
      l.SetColumn(0, Widen3To4(side, 0.0));
      l.SetColumn(1, Widen3To4(up, 0.0));
      l.SetColumn(2, Widen3To4(Neg(forward), 0.0));
      ghost var frame := l.Value();
      assert frame == [Widen3To4(side, 0.0), Widen3To4(up, 0.0), Widen3To4(Neg(forward), 0.0), UnitW];
      l.Transpose();
      assert l.Value() == LookAtMatrix([eyeX, eyeY, eyeZ], [centerX, centerY, centerZ], [upX, upY, upZ], libm);
      MulAssign(l);
      Translate(-eyeX, -eyeY, -eyeZ);
    }

    /** frustum(l, r, b, t, n, f): fill F entry by entry, then `M *= F`. */
    method Frustum(l: real, r: real, b: real, t: real, n: real, f: real)
      requires Valid() && r != l && t != b && f != n
      modifies columns
      ensures Valid()
      ensures Value() == Frustumed(old(Value()), l, r, b, t, n, f)
    {
      var fm := new Matrix4();
      fm.SetColumn(0, [2.0 * n / (r - l), 0.0, 0.0, 0.0]);
      fm.SetColumn(1, [0.0, 2.0 * n / (t - b), 0.0, 0.0]);
      fm.SetColumn(2, [(r + l) / (r - l), (t + b) / (t - b), -(f + n) / (f - n), -1.0]);
      fm.SetColumn(3, [0.0, 0.0, -2.0 * f * n / (f - n), 0.0]);
      assert fm.Value() == FrustumMatrix(l, r, b, t, n, f);
      MulAssign(fm);
    }

    /** prespective(angle, aspect, near, far): a frustum symmetric about the view axis. */
    method Prespective(angle: real, aspect: real, near: real, far: real, libm: Libm)
      requires Valid() && aspect != 0.0 && PerspectiveTop(angle, near, libm) != 0.0 && far != near
      modifies columns
      ensures Valid()
      ensures Value() == Perspective(old(Value()), angle, aspect, near, far, libm)
    {
      var t := PerspectiveTop(angle, near, libm);
      assert aspect * t != 0.0;
      ghost var m0 := Value();
      Frustum(-aspect * t, aspect * t, -t, t, near, far);
      SymmetricFrustumedUnfold(m0, aspect, t, near, far);
    }

    /** translate(Vector3) */
    method TranslateBy(v: Vector3)
      requires Valid()
      modifies columns
      ensures Valid()
      ensures Value() == Translated(old(Value()), v[0], v[1], v[2])
    {
      Translate(v[0], v[1], v[2]);
    }

    /** scale(Vector3) */
    method ScaleBy(v: Vector3)
      requires Valid()
      modifies columns
      ensures Valid()
      ensures Value() == Scaled(old(Value()), v[0], v[1], v[2])
    {
      Scale(v[0], v[1], v[2]);
    }

    /** rotate(angle, Vector3) */
    method RotateAbout(angle: real, v: Vector3, libm: Libm)
      requires Valid() && Length3(v, libm) != 0.0
      modifies columns
      ensures Valid()
      ensures Value() == Rotated(old(Value()), angle, v, libm)
    {
      assert [v[0], v[1], v[2]] == v;
      Rotate(angle, v[0], v[1], v[2], libm);
    }

    /** lookAt(Vector3 eye, Vector3 center, Vector3 up) */
    method LookAtPoints(eye: Vector3, center: Vector3, up: Vector3, libm: Libm)
      requires Valid() && LookAtDefined(eye, center, up, libm)
      modifies columns
      ensures Valid()
      ensures Value() == LookedAt(old(Value()), eye, center, up, libm)
    {
      assert [eye[0], eye[1], eye[2]] == eye && [center[0], center[1], center[2]] == center;
      assert [up[0], up[1], up[2]] == up;
      LookAt(eye[0], eye[1], eye[2], center[0], center[1], center[2], up[0], up[1], up[2], libm);
    }
  }
}
