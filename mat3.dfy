/** mthz::Mat3: a 3x3 matrix of reals stored in a 3x3 array, with the
    operators of Math/src/Mat3.h as methods that fill or update that array
    step by step. Every method is proved against the corresponding function of
    module Linear, and the algebraic properties are lemmas there. */
module Mthz {
  import opened Linear

  /** The value held by a 3x3 array. */
  ghost function Entries(a: array2<real>): Matrix
    reads a
    requires a.Length0 == 3 && a.Length1 == 3
  {
    Matrix(a[0, 0], a[0, 1], a[0, 2], a[1, 0], a[1, 1], a[1, 2], a[2, 0], a[2, 1], a[2, 2])
  }

  lemma AtEntries(a: array2<real>, i: int, j: int)
    requires a.Length0 == 3 && a.Length1 == 3
    requires 0 <= i < 3 && 0 <= j < 3
    ensures a[i, j] == At(Entries(a), i, j)
  {
  }

  /** Position (i', j') comes before (i, j) in the row-major order of the loops. */
  ghost predicate Before(i': int, j': int, i: int, j: int) {
    i' < i || (i' == i && j' < j)
  }

  /** The entries of a before (i, j) hold those of t, the others those of f. */
  ghost predicate Filled(a: array2<real>, t: Matrix, f: Matrix, i: int, j: int)
    reads a
    requires a.Length0 == 3 && a.Length1 == 3
  {
    forall i', j' :: 0 <= i' < 3 && 0 <= j' < 3 ==>
      a[i', j'] == (if Before(i', j', i, j) then At(t, i', j') else At(f, i', j'))
  }

  lemma FilledAll(a: array2<real>, t: Matrix, f: Matrix)
    requires a.Length0 == 3 && a.Length1 == 3
    requires Filled(a, t, f, 3, 0)
    ensures Entries(a) == t
  {
    AtEntries(a, 0, 0); AtEntries(a, 0, 1); AtEntries(a, 0, 2);
    AtEntries(a, 1, 0); AtEntries(a, 1, 1); AtEntries(a, 1, 2);
    AtEntries(a, 2, 0); AtEntries(a, 2, 1); AtEntries(a, 2, 2);
  }

  lemma FilledNone(a: array2<real>, f: Matrix)
    requires a.Length0 == 3 && a.Length1 == 3
    requires Entries(a) == f
    ensures forall t :: Filled(a, t, f, 0, 0)
  {
    forall i', j' | 0 <= i' < 3 && 0 <= j' < 3 {
      AtEntries(a, i', j');
    }
  }

  /** Every entry other than (i, j) that comes before it holds that of t; the
      entries after it hold those of f. */
  ghost predicate FilledExcept(a: array2<real>, t: Matrix, f: Matrix, i: int, j: int)
    reads a
    requires a.Length0 == 3 && a.Length1 == 3
  {
    forall i', j' :: 0 <= i' < 3 && 0 <= j' < 3 && (i' != i || j' != j) ==>
      a[i', j'] == (if Before(i', j', i, j) then At(t, i', j') else At(f, i', j'))
  }

  /** Entry (i, j) set aside from Filled, and put back once it holds that of t. */
  lemma FilledSplit(a: array2<real>, t: Matrix, f: Matrix, i: int, j: int)
    requires a.Length0 == 3 && a.Length1 == 3 && 0 <= i < 3 && 0 <= j < 3
    requires Filled(a, t, f, i, j)
    ensures FilledExcept(a, t, f, i, j) && a[i, j] == At(f, i, j)
  {
  }

  lemma FilledJoin(a: array2<real>, t: Matrix, f: Matrix, i: int, j: int)
    requires a.Length0 == 3 && a.Length1 == 3 && 0 <= i < 3 && 0 <= j < 3
    requires FilledExcept(a, t, f, i, j) && a[i, j] == At(t, i, j)
    ensures Filled(a, t, f, i, j + 1)
  {
  }

  /** Writes the three entries of row r and leaves the other rows alone. */
  method SetRow(a: array2<real>, r: int, x: real, y: real, z: real)
    requires a.Length0 == 3 && a.Length1 == 3 && 0 <= r < 3
    modifies a
    ensures a[r, 0] == x && a[r, 1] == y && a[r, 2] == z
    ensures forall i, j :: 0 <= i < 3 && 0 <= j < 3 && i != r ==> a[i, j] == old(a[i, j])
  {
    a[r, 0] := x;
    a[r, 1] := y;
    a[r, 2] := z;
  }

  /** Writes entry (i, j) of an array that is filled up to (i, j), with the
      value that t has there, so that it is filled up to the next entry. */
  method SetEntry(a: array2<real>, ghost t: Matrix, ghost f: Matrix, i: int, j: int, x: real)
    requires a.Length0 == 3 && a.Length1 == 3 && 0 <= i < 3 && 0 <= j < 3
    requires Filled(a, t, f, i, j) && x == At(t, i, j)
    modifies a
    ensures Filled(a, t, f, i, j + 1)
  {
    FilledSplit(a, t, f, i, j);
    a[i, j] := x;
    FilledJoin(a, t, f, i, j);
  }

  /** The innermost loop of a product: entry (i, j) of out, starting at zero,
      accumulates a[i][k] * b[k][j] for k = 0, 1, 2; no other entry changes. */
  method AccumulateEntry(a: array2<real>, b: array2<real>, out: array2<real>, i: int, j: int)
    requires a.Length0 == 3 && a.Length1 == 3 && b.Length0 == 3 && b.Length1 == 3
    requires out.Length0 == 3 && out.Length1 == 3
    requires out != a && out != b
    requires 0 <= i < 3 && 0 <= j < 3
    requires out[i, j] == 0.0
    modifies out
    ensures out[i, j] == PartialProduct(Entries(a), Entries(b), i, j, 3)
    ensures forall i', j' :: 0 <= i' < 3 && 0 <= j' < 3 && (i' != i || j' != j) ==> out[i', j'] == old(out[i', j'])
  {
    ghost var x, y := Entries(a), Entries(b);
    for k := 0 to 3
      invariant out[i, j] == PartialProduct(x, y, i, j, k)
      invariant forall i', j' :: 0 <= i' < 3 && 0 <= j' < 3 && (i' != i || j' != j) ==> out[i', j'] == old(out[i', j'])
    {
      AtEntries(a, i, k);
      AtEntries(b, k, j);
      PartialProductStep(x, y, i, j, k, a[i, k], b[k, j]);
      out[i, j] := out[i, j] + a[i, k] * b[k, j];
    }
  }

  /** The row-major triple loop shared by operator*(Mat3) and operator*=(Mat3):
      out starts at zero and every entry (i, j) is accumulated in turn. */
  method MultiplyInto(a: array2<real>, b: array2<real>, out: array2<real>)
    requires a.Length0 == 3 && a.Length1 == 3 && b.Length0 == 3 && b.Length1 == 3
    requires out.Length0 == 3 && out.Length1 == 3
    requires out != a && out != b
    requires Entries(out) == Zero()
    modifies out
    ensures Entries(out) == Mul(Entries(a), Entries(b))
  {
    ghost var p := Mul(Entries(a), Entries(b));
    FilledNone(out, Zero());
    for i := 0 to 3
      invariant Filled(out, p, Zero(), i, 0)
    {
      for j := 0 to 3
        invariant Filled(out, p, Zero(), i, j)
      {
        FilledSplit(out, p, Zero(), i, j);
        AccumulateEntry(a, b, out, i, j);
        PartialProductComplete(Entries(a), Entries(b), i, j);
        FilledJoin(out, p, Zero(), i, j);
      }
    }
    FilledAll(out, p, Zero());
  }

  class Mat3 {
    var v: array2<real>

    ghost predicate Valid()
      reads this
    {
      v.Length0 == 3 && v.Length1 == 3
    }

    /** The matrix this object holds. */
    ghost function Value(): Matrix
      reads this, v
      requires Valid()
    {
      Entries(v)
    }

    /** Mat3(): every entry is zero (also mthz::Mat3::zero). */
    constructor()
      ensures Valid() && fresh(v)
      ensures Value() == Zero()
    {
      v := new real[3, 3]((i, j) => 0.0);
    }

    /** The copy constructor: entry by entry, the copy equals m. */
    constructor Copy(m: Mat3)
      requires m.Valid()
      ensures Valid() && fresh(v)
      ensures Value() == m.Value()
    {
      var a := new real[3, 3]((i, j) => 0.0);
      ghost var t := m.Value();
      ghost var z := Entries(a);
      FilledNone(a, z);
      for i := 0 to 3
        invariant Filled(a, t, z, i, 0)
      {
        for j := 0 to 3
          invariant Filled(a, t, z, i, j)
        {
          AtEntries(m.v, i, j);
          SetEntry(a, t, z, i, j, m.v[i, j]);
        }
      }
      FilledAll(a, t, z);
      v := a;
    }

    static method ZeroMat() returns (out: Mat3)
      ensures out.Valid() && fresh(out) && fresh(out.v)
      ensures out.Value() == Zero()
    {
      out := new Mat3();
    }

    static method IdenMat() returns (out: Mat3)
      ensures out.Valid() && fresh(out) && fresh(out.v)
      ensures out.Value() == Iden()
    {
      out := new Mat3();
      out.v[0, 0] := 1.0;
      out.v[1, 1] := 1.0;
      out.v[2, 2] := 1.0;
    }

    /** The matrix held by a given 3x3 array. Mat3.h has no such constructor:
        cross_mat writes the entries of a default-constructed matrix directly.
        Filling a fresh array first and wrapping it here states the same
        result in a form whose proof stays small. */
    constructor FromArray(a: array2<real>)
      requires a.Length0 == 3 && a.Length1 == 3
      ensures Valid() && v == a
      ensures Value() == Entries(a)
    {
      v := a;
    }

    /** cross_mat(w): the skew matrix of w, written row by row. */
    static method CrossMatOf(w: Vec3) returns (out: Mat3)
      ensures out.Valid() && fresh(out) && fresh(out.v)
      ensures out.Value() == CrossMat(w)
    {
      var o := new real[3, 3];
      SetRow(o, 0,  0.0, -w.z,  w.y);
      SetRow(o, 1,  w.z,  0.0, -w.x);
      SetRow(o, 2, -w.y,  w.x,  0.0);
      out := new Mat3.FromArray(o);
    }

    /** det(): the first-row cofactor expansion of the held matrix. */
    function DetOf(): (r: real)
      reads this, v
      requires Valid()
      ensures r == Det(Value())
    {
      var a, b, c := v[0, 0], v[0, 1], v[0, 2];
      var d, e, f := v[1, 0], v[1, 1], v[1, 2];
      var g, h, i := v[2, 0], v[2, 1], v[2, 2];
      a * (e * i - f * h) - b * (d * i - f * g) + c * (d * h - e * g)
    }

    /** operator*(Vec3): the matrix-vector product. */
    function MulVecOf(w: Vec3): (r: Vec3)
      reads this, v
      requires Valid()
      ensures r == MulVec(Value(), w)
    {
      Vec3(v[0, 0] * w.x + v[0, 1] * w.y + v[0, 2] * w.z,
           v[1, 0] * w.x + v[1, 1] * w.y + v[1, 2] * w.z,
           v[2, 0] * w.x + v[2, 1] * w.y + v[2, 2] * w.z)
    }

    /** inverse(): the adjugate divided by the determinant, which is a two-sided
        inverse when the determinant is non-zero. */
    method InverseOf() returns (out: Mat3)
      requires Valid() && Det(Value()) != 0.0
      ensures out.Valid() && fresh(out) && fresh(out.v)
      ensures out.Value() == Inverse(Value())
      ensures Mul(Value(), out.Value()) == Iden() && Mul(out.Value(), Value()) == Iden()
    {
      out := new Mat3();
      var a, b, c := v[0, 0], v[0, 1], v[0, 2];
      var d, e, f := v[1, 0], v[1, 1], v[1, 2];
      var g, h, i := v[2, 0], v[2, 1], v[2, 2];
      var det := a * (e * i - f * h) - b * (d * i - f * g) + c * (d * h - e * g);
      ghost var m := Value();
      assert m == Matrix(a, b, c, d, e, f, g, h, i);
      assert det == Det(m);

      var adj := AdjugateOfEntries(a, b, c, d, e, f, g, h, i);
      out.v[0, 0] := adj.m00;  out.v[0, 1] := adj.m01;  out.v[0, 2] := adj.m02;
      out.v[1, 0] := adj.m10;  out.v[1, 1] := adj.m11;  out.v[1, 2] := adj.m12;
      out.v[2, 0] := adj.m20;  out.v[2, 1] := adj.m21;  out.v[2, 2] := adj.m22;
      assert out.Value() == Adjugate(m);

      out.DivAssign(det);
      assert Value() == m;
      InverseIsInverse(m);
    }

    /** Unary operator-: a new matrix holding the negated entries. */
    method NegOf() returns (out: Mat3)
      requires Valid()
      ensures out.Valid() && fresh(out) && fresh(out.v)
      ensures out.Value() == Neg(Value())
    {
      out := new Mat3();
      var o := out.v;
      ghost var t := Neg(Value());
      FilledNone(o, Zero());
      for i := 0 to 3
        modifies o
        invariant Filled(o, t, Zero(), i, 0)
      {
        for j := 0 to 3
          modifies o
          invariant Filled(o, t, Zero(), i, j)
        {
          AtEntries(v, i, j);
          AtNeg(Value(), i, j);
          SetEntry(o, t, Zero(), i, j, -v[i, j]);
        }
      }
      FilledAll(o, t, Zero());
    }

    /** operator*(Mat3): a new matrix holding this * m. */
    method MulOf(m: Mat3) returns (out: Mat3)
      requires Valid() && m.Valid()
      ensures out.Valid() && fresh(out) && fresh(out.v)
      ensures out.Value() == Mul(Value(), m.Value())
    {
      out := new Mat3();
      MultiplyInto(v, m.v, out.v);
    }

    /** operator+=: adds m entry by entry. m may be this object itself. */
    method AddAssign(m: Mat3)
      requires Valid() && m.Valid()
      modifies v
      ensures Value() == Add(old(Value()), old(m.Value()))
    {
      ghost var a, b := Value(), m.Value();
      ghost var t := Add(a, b);
      FilledNone(v, a);
      for i := 0 to 3
        invariant Filled(v, t, a, i, 0)
        invariant m.v != v ==> Entries(m.v) == b
        invariant m.v == v ==> a == b
      {
        for j := 0 to 3
          invariant Filled(v, t, a, i, j)
          invariant m.v != v ==> Entries(m.v) == b
        {
          AtEntries(m.v, i, j);
          FilledSplit(v, t, a, i, j);
          AtAdd(a, b, i, j);
          SetEntry(v, t, a, i, j, v[i, j] + m.v[i, j]);
        }
      }
      FilledAll(v, t, a);
    }

    /** operator*=(Mat3): the product goes into a temporary and is then copied
        back, so the result is this * m even when m is this object itself. */
    method MulAssign(m: Mat3)
      requires Valid() && m.Valid()
      modifies v
      ensures Value() == Mul(old(Value()), old(m.Value()))
    {
      var tmp := new real[3, 3]((i, j) => 0.0);
      MultiplyInto(v, m.v, tmp);
      ghost var t := Entries(tmp);
      ghost var a := Value();
      FilledNone(v, a);
      for i := 0 to 3
        modifies v
        invariant Filled(v, t, a, i, 0)
      {
        for j := 0 to 3
          modifies v
          invariant Filled(v, t, a, i, j)
        {
          AtEntries(tmp, i, j);
          SetEntry(v, t, a, i, j, tmp[i, j]);
        }
      }
      FilledAll(v, t, a);
    }

    /** operator*=(double): every entry multiplied by d. */
    method ScaleAssign(d: real)
      requires Valid()
      modifies v
      ensures Value() == Scale(old(Value()), d)
    {
      ghost var a := Value();
      ghost var t := Scale(a, d);
      FilledNone(v, a);
      for i := 0 to 3
        invariant Filled(v, t, a, i, 0)
      {
        for j := 0 to 3
          invariant Filled(v, t, a, i, j)
        {
          FilledSplit(v, t, a, i, j);
          var x := v[i, j];
          AtScale(a, d, i, j, x);
          SetEntry(v, t, a, i, j, x * d);
        }
      }
      FilledAll(v, t, a);
    }

    /** operator/=: every entry divided by d, which must not be zero. */
    method DivAssign(d: real)
      requires Valid() && d != 0.0
      modifies v
      ensures Value() == DivScalar(old(Value()), d)
    {
      ghost var a := Value();
      ghost var t := DivScalar(a, d);
      FilledNone(v, a);
      for i := 0 to 3
        invariant Filled(v, t, a, i, 0)
      {
        for j := 0 to 3
          invariant Filled(v, t, a, i, j)
        {
          FilledSplit(v, t, a, i, j);
          var x := v[i, j];
          AtDivScalar(a, d, i, j, x);
          SetEntry(v, t, a, i, j, x / d);
        }
      }
      FilledAll(v, t, a);
    }
  }

  /** m *= d followed by m /= d leaves m as it was, for any non-zero d. */
  method ScaleThenDivideRestores(m: Mat3, d: real)
    requires m.Valid() && d != 0.0
    modifies m.v
    ensures m.Value() == old(m.Value())
  {
    m.ScaleAssign(d);
    m.DivAssign(d);
    ScaleThenDivide(old(m.Value()), d);
  }

  /** m += -m leaves the zero matrix. */
  method AddNegationIsZero(m: Mat3)
    requires m.Valid()
    modifies m.v
    ensures m.Value() == Zero()
  {
    var n := m.NegOf();
    m.AddAssign(n);
    AddNegIsZero(old(m.Value()));
  }
}
