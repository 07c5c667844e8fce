/** Exact real-valued 3-vectors and 3x3 matrices: the values that mthz::Vec3 and
    mthz::Mat3 hold, the operations of Mat3 as functions on those values, and the
    algebraic identities they satisfy. Doubles are modelled as reals, so the
    identities hold exactly rather than up to rounding. */
module Linear {

  /** A 3-vector (mthz::Vec3). */
  datatype Vec3 = Vec3(x: real, y: real, z: real)

  /** The cross product v × w. */
  function Cross(v: Vec3, w: Vec3): Vec3 {
    Vec3(v.y * w.z - v.z * w.y, v.z * w.x - v.x * w.z, v.x * w.y - v.y * w.x)
  }

  /** A 3x3 matrix; mIJ is the entry in row I, column J (Mat3::v[I][J]). */
  datatype Matrix = Matrix(m00: real, m01: real, m02: real,
                           m10: real, m11: real, m12: real,
                           m20: real, m21: real, m22: real)

  /** The entry in row i, column j. */
  function At(m: Matrix, i: int, j: int): real
    requires 0 <= i < 3 && 0 <= j < 3
  {
    if i == 0 then (if j == 0 then m.m00 else if j == 1 then m.m01 else m.m02)
    else if i == 1 then (if j == 0 then m.m10 else if j == 1 then m.m11 else m.m12)
    else (if j == 0 then m.m20 else if j == 1 then m.m21 else m.m22)
  }

  function Zero(): Matrix {
    Matrix(0.0, 0.0, 0.0, 0.0, 0.0, 0.0, 0.0, 0.0, 0.0)
  }

  function Iden(): Matrix {
    Matrix(1.0, 0.0, 0.0, 0.0, 1.0, 0.0, 0.0, 0.0, 1.0)
  }

  /** The skew matrix of v, whose product with a vector w is v × w. */
  function CrossMat(v: Vec3): Matrix {
    Matrix( 0.0, -v.z,  v.y,
            v.z,  0.0, -v.x,
           -v.y,  v.x,  0.0)
  }

  /** The determinant, by cofactor expansion along the first row. */
  function Det(m: Matrix): real {
    m.m00 * (m.m11 * m.m22 - m.m12 * m.m21)
      - m.m01 * (m.m10 * m.m22 - m.m12 * m.m20)
      + m.m02 * (m.m10 * m.m21 - m.m11 * m.m20)
  }

  /** The adjugate (transposed cofactor matrix) of the matrix with rows
      (a, b, c), (d, e, f), (g, h, i). */
  function AdjugateOfEntries(a: real, b: real, c: real, d: real, e: real, f: real, g: real, h: real, i: real): Matrix {
    Matrix(e * i - f * h, c * h - b * i, b * f - c * e,
           f * g - d * i, a * i - c * g, c * d - a * f,
           d * h - e * g, b * g - a * h, a * e - b * d)
  }

  function Adjugate(m: Matrix): Matrix {
    AdjugateOfEntries(m.m00, m.m01, m.m02, m.m10, m.m11, m.m12, m.m20, m.m21, m.m22)
  }

  /** Every entry multiplied by d (Mat3::operator*=(double)). */
  function Scale(m: Matrix, d: real): Matrix {
    Matrix(m.m00 * d, m.m01 * d, m.m02 * d,
           m.m10 * d, m.m11 * d, m.m12 * d,
           m.m20 * d, m.m21 * d, m.m22 * d)
  }

  /** Every entry divided by d (Mat3::operator/=). */
  function DivScalar(m: Matrix, d: real): Matrix
    requires d != 0.0
  {
    Matrix(m.m00 / d, m.m01 / d, m.m02 / d,
           m.m10 / d, m.m11 / d, m.m12 / d,
           m.m20 / d, m.m21 / d, m.m22 / d)
  }

  /** The adjugate divided by the determinant (Mat3::inverse). */
  function Inverse(m: Matrix): Matrix
    requires Det(m) != 0.0
  {
    DivScalar(Adjugate(m), Det(m))
  }

  function Neg(m: Matrix): Matrix {
    Matrix(-m.m00, -m.m01, -m.m02, -m.m10, -m.m11, -m.m12, -m.m20, -m.m21, -m.m22)
  }

  function Add(a: Matrix, b: Matrix): Matrix {
    Matrix(a.m00 + b.m00, a.m01 + b.m01, a.m02 + b.m02,
           a.m10 + b.m10, a.m11 + b.m11, a.m12 + b.m12,
           a.m20 + b.m20, a.m21 + b.m21, a.m22 + b.m22)
  }

  function MulVec(m: Matrix, w: Vec3): Vec3 {
    Vec3(m.m00 * w.x + m.m01 * w.y + m.m02 * w.z,
         m.m10 * w.x + m.m11 * w.y + m.m12 * w.z,
         m.m20 * w.x + m.m21 * w.y + m.m22 * w.z)
  }

  /** The row-by-column product a * b. */
  function Mul(a: Matrix, b: Matrix): Matrix {
    Matrix(a.m00 * b.m00 + a.m01 * b.m10 + a.m02 * b.m20,
           a.m00 * b.m01 + a.m01 * b.m11 + a.m02 * b.m21,
           a.m00 * b.m02 + a.m01 * b.m12 + a.m02 * b.m22,
           a.m10 * b.m00 + a.m11 * b.m10 + a.m12 * b.m20,
           a.m10 * b.m01 + a.m11 * b.m11 + a.m12 * b.m21,
           a.m10 * b.m02 + a.m11 * b.m12 + a.m12 * b.m22,
           a.m20 * b.m00 + a.m21 * b.m10 + a.m22 * b.m20,
           a.m20 * b.m01 + a.m21 * b.m11 + a.m22 * b.m21,
           a.m20 * b.m02 + a.m21 * b.m12 + a.m22 * b.m22)
  }

  /** The sum of the first k terms of entry (i, j) of a * b, accumulated in the
      order of the innermost loop of Mat3's products. */
  function PartialProduct(a: Matrix, b: Matrix, i: int, j: int, k: int): real
    requires 0 <= i < 3 && 0 <= j < 3 && 0 <= k <= 3
  {
    if k == 0 then 0.0 else PartialProduct(a, b, i, j, k - 1) + At(a, i, k - 1) * At(b, k - 1, j)
  }

  /** One more step of the accumulation adds the product of the next two entries. */
  lemma PartialProductStep(a: Matrix, b: Matrix, i: int, j: int, k: int, x: real, y: real)
    requires 0 <= i < 3 && 0 <= j < 3 && 0 <= k < 3
    requires x == At(a, i, k) && y == At(b, k, j)
    ensures PartialProduct(a, b, i, j, k + 1) == PartialProduct(a, b, i, j, k) + x * y
  {
  }

  /** Iden is a two-sided identity of the product and fixes every vector. */
  lemma IdenIsIdentity(m: Matrix, w: Vec3)
    ensures Mul(Iden(), m) == m && Mul(m, Iden()) == m
    ensures MulVec(Iden(), w) == w
  {
  }

  /** The cross-product matrix is skew-symmetric (so its diagonal is zero) and
      multiplying by it is taking the cross product. */
  lemma CrossMatIsSkewCross(v: Vec3, w: Vec3)
    ensures forall i, j :: 0 <= i < 3 && 0 <= j < 3 ==> At(CrossMat(v), i, j) == -At(CrossMat(v), j, i)
    ensures forall i :: 0 <= i < 3 ==> At(CrossMat(v), i, i) == 0.0
    ensures MulVec(CrossMat(v), w) == Cross(v, w)
  {
  }

  lemma DetOfIdenAndZero()
    ensures Det(Iden()) == 1.0 && Det(Zero()) == 0.0
  {
  }

  function Dot(v: Vec3, w: Vec3): real {
    v.x * w.x + v.y * w.y + v.z * w.z
  }

  function DivVec(v: Vec3, d: real): Vec3
    requires d != 0.0
  {
    Vec3(v.x / d, v.y / d, v.z / d)
  }

  function Row0(m: Matrix): Vec3 { Vec3(m.m00, m.m01, m.m02) }
  function Row1(m: Matrix): Vec3 { Vec3(m.m10, m.m11, m.m12) }
  function Row2(m: Matrix): Vec3 { Vec3(m.m20, m.m21, m.m22) }
  function Col0(m: Matrix): Vec3 { Vec3(m.m00, m.m10, m.m20) }
  function Col1(m: Matrix): Vec3 { Vec3(m.m01, m.m11, m.m21) }
  function Col2(m: Matrix): Vec3 { Vec3(m.m02, m.m12, m.m22) }

  /** Entry (i, j) of a product is row i of a dotted with column j of b. */
  lemma MulByRowsAndColumns(a: Matrix, b: Matrix)
    ensures Mul(a, b) == Matrix(Dot(Row0(a), Col0(b)), Dot(Row0(a), Col1(b)), Dot(Row0(a), Col2(b)),
                                Dot(Row1(a), Col0(b)), Dot(Row1(a), Col1(b)), Dot(Row1(a), Col2(b)),
                                Dot(Row2(a), Col0(b)), Dot(Row2(a), Col1(b)), Dot(Row2(a), Col2(b)))
  {
  }

  /** Row i and column j of m, for an index known only at run time. */
  function RowOf(m: Matrix, i: int): (r: Vec3)
    requires 0 <= i < 3
    ensures r == Vec3(At(m, i, 0), At(m, i, 1), At(m, i, 2))
  {
    if i == 0 then Row0(m) else if i == 1 then Row1(m) else Row2(m)
  }

  function ColOf(m: Matrix, j: int): (r: Vec3)
    requires 0 <= j < 3
    ensures r == Vec3(At(m, 0, j), At(m, 1, j), At(m, 2, j))
  {
    if j == 0 then Col0(m) else if j == 1 then Col1(m) else Col2(m)
  }

  /** The dot product of two vectors given by their components. */
  lemma DotComponents(v: Vec3, w: Vec3, x0: real, x1: real, x2: real, y0: real, y1: real, y2: real)
    requires v == Vec3(x0, x1, x2) && w == Vec3(y0, y1, y2)
    ensures Dot(v, w) == x0 * y0 + x1 * y1 + x2 * y2
  {
  }

  /** The same, for indices known only at run time. */
  lemma MulEntry(a: Matrix, b: Matrix, i: int, j: int)
    requires 0 <= i < 3 && 0 <= j < 3
    ensures At(Mul(a, b), i, j) == Dot(RowOf(a, i), ColOf(b, j))
  {
    MulByRowsAndColumns(a, b);
  }

  /** All three terms accumulated give the entry of the product. */
  lemma {:induction false} PartialProductComplete(a: Matrix, b: Matrix, i: int, j: int)
    requires 0 <= i < 3 && 0 <= j < 3
    ensures PartialProduct(a, b, i, j, 3) == At(Mul(a, b), i, j)
  {
    PartialProductStep(a, b, i, j, 0, At(a, i, 0), At(b, 0, j));
    PartialProductStep(a, b, i, j, 1, At(a, i, 1), At(b, 1, j));
    PartialProductStep(a, b, i, j, 2, At(a, i, 2), At(b, 2, j));
    DotComponents(RowOf(a, i), ColOf(b, j), At(a, i, 0), At(a, i, 1), At(a, i, 2), At(b, 0, j), At(b, 1, j), At(b, 2, j));
    MulEntry(a, b, i, j);
  }

  lemma DotSymmetric(v: Vec3, w: Vec3)
    ensures Dot(v, w) == Dot(w, v)
  {
  }

  /** A vector is orthogonal to its cross product with any other vector. */
  lemma CrossOrthogonal(u: Vec3, v: Vec3)
    ensures Dot(u, Cross(u, v)) == 0.0 && Dot(v, Cross(u, v)) == 0.0
  {
    CrossOrthogonalLeft(u, v);
    CrossOrthogonalRight(u, v);
  }

  lemma CrossOrthogonalLeft(u: Vec3, v: Vec3)
    ensures Dot(u, Cross(u, v)) == 0.0
  {
  }

  lemma CrossOrthogonalRight(u: Vec3, v: Vec3)
    ensures Dot(v, Cross(u, v)) == 0.0
  {
  }

  /** The scalar triple product is invariant under cyclic rotation. */
  lemma TripleProductCyclic(u: Vec3, v: Vec3, w: Vec3)
    ensures Dot(u, Cross(v, w)) == Dot(v, Cross(w, u))
  {
  }

  /** The determinant is the triple product of the rows, and of the columns. */
  lemma DetIsTripleProduct(m: Matrix)
    ensures Det(m) == Dot(Row0(m), Cross(Row1(m), Row2(m)))
    ensures Det(m) == Dot(Col0(m), Cross(Col1(m), Col2(m)))
  {
  }

  /** The columns of the adjugate are cross products of the rows of m... */
  lemma AdjugateColumns(m: Matrix)
    ensures Col0(Adjugate(m)) == Cross(Row1(m), Row2(m))
    ensures Col1(Adjugate(m)) == Cross(Row2(m), Row0(m))
    ensures Col2(Adjugate(m)) == Cross(Row0(m), Row1(m))
  {
    AdjugateColumn0(m);
    AdjugateColumn1(m);
    AdjugateColumn2(m);
  }

  lemma AdjugateColumn0(m: Matrix) ensures Col0(Adjugate(m)) == Cross(Row1(m), Row2(m)) { }
  lemma AdjugateColumn1(m: Matrix) ensures Col1(Adjugate(m)) == Cross(Row2(m), Row0(m)) { }
  lemma AdjugateColumn2(m: Matrix) ensures Col2(Adjugate(m)) == Cross(Row0(m), Row1(m)) { }

  /** ...and its rows are cross products of the columns of m. */
  lemma AdjugateRows(m: Matrix)
    ensures Row0(Adjugate(m)) == Cross(Col1(m), Col2(m))
    ensures Row1(Adjugate(m)) == Cross(Col2(m), Col0(m))
    ensures Row2(Adjugate(m)) == Cross(Col0(m), Col1(m))
  {
    AdjugateRow0(m);
    AdjugateRow1(m);
    AdjugateRow2(m);
  }

  lemma AdjugateRow0(m: Matrix) ensures Row0(Adjugate(m)) == Cross(Col1(m), Col2(m)) { }
  lemma AdjugateRow1(m: Matrix) ensures Row1(Adjugate(m)) == Cross(Col2(m), Col0(m)) { }
  lemma AdjugateRow2(m: Matrix) ensures Row2(Adjugate(m)) == Cross(Col0(m), Col1(m)) { }

  /** m * adj(m) == det(m) * I: every entry is a triple product of rows of m,
      which is det(m) when the three rows are distinct and 0 when one repeats. */
  lemma MulAdjugate(m: Matrix)
    ensures Mul(m, Adjugate(m)) == Matrix(Det(m), 0.0, 0.0, 0.0, Det(m), 0.0, 0.0, 0.0, Det(m))
  {
    var r0, r1, r2 := Row0(m), Row1(m), Row2(m);
    MulByRowsAndColumns(m, Adjugate(m));
    AdjugateColumns(m);
    DetIsTripleProduct(m);
    CrossOrthogonal(r1, r2);
    CrossOrthogonal(r2, r0);
    CrossOrthogonal(r0, r1);
    TripleProductCyclic(r0, r1, r2);
    TripleProductCyclic(r1, r2, r0);
  }

  /** adj(m) * m == det(m) * I, by the same argument on the columns. */
  lemma AdjugateMul(m: Matrix)
    ensures Mul(Adjugate(m), m) == Matrix(Det(m), 0.0, 0.0, 0.0, Det(m), 0.0, 0.0, 0.0, Det(m))
  {
    var c0, c1, c2 := Col0(m), Col1(m), Col2(m);
    var a0, a1, a2 := Row0(Adjugate(m)), Row1(Adjugate(m)), Row2(Adjugate(m));
    MulByRowsAndColumns(Adjugate(m), m);
    AdjugateRows(m);
    DetIsTripleProduct(m);
    DotSymmetric(a0, c0); DotSymmetric(a0, c1); DotSymmetric(a0, c2);
    DotSymmetric(a1, c0); DotSymmetric(a1, c1); DotSymmetric(a1, c2);
    DotSymmetric(a2, c0); DotSymmetric(a2, c1); DotSymmetric(a2, c2);
    CrossOrthogonal(c1, c2);
    CrossOrthogonal(c2, c0);
    CrossOrthogonal(c0, c1);
    TripleProductCyclic(c0, c1, c2);
    TripleProductCyclic(c1, c2, c0);
  }

  /** Dividing one side of a dot product by d divides the dot product by d. */
  lemma DotDivVec(v: Vec3, w: Vec3, d: real)
    requires d != 0.0
    ensures Dot(v, DivVec(w, d)) == Dot(v, w) / d
    ensures Dot(DivVec(v, d), w) == Dot(v, w) / d
  {
    var e := 1.0 / d;
    assert w.x / d == w.x * e && w.y / d == w.y * e && w.z / d == w.z * e;
    assert v.x / d == v.x * e && v.y / d == v.y * e && v.z / d == v.z * e;
    assert Dot(v, w) / d == Dot(v, w) * e;
  }

  /** With a non-zero determinant, Inverse is a right and a left inverse. */
  lemma {:induction false} InverseIsInverse(m: Matrix)
    requires Det(m) != 0.0
    ensures Mul(m, Inverse(m)) == Iden()
    ensures Mul(Inverse(m), m) == Iden()
  {
    var d, a, n := Det(m), Adjugate(m), Inverse(m);
    MulAdjugate(m);
    AdjugateMul(m);
    MulByRowsAndColumns(m, a);
    MulByRowsAndColumns(a, m);
    MulByRowsAndColumns(m, n);
    MulByRowsAndColumns(n, m);
    assert Col0(n) == DivVec(Col0(a), d) && Col1(n) == DivVec(Col1(a), d) && Col2(n) == DivVec(Col2(a), d);
    assert Row0(n) == DivVec(Row0(a), d) && Row1(n) == DivVec(Row1(a), d) && Row2(n) == DivVec(Row2(a), d);
    DotDivVec(Row0(m), Col0(a), d); DotDivVec(Row0(m), Col1(a), d); DotDivVec(Row0(m), Col2(a), d);
    DotDivVec(Row1(m), Col0(a), d); DotDivVec(Row1(m), Col1(a), d); DotDivVec(Row1(m), Col2(a), d);
    DotDivVec(Row2(m), Col0(a), d); DotDivVec(Row2(m), Col1(a), d); DotDivVec(Row2(m), Col2(a), d);
    DotDivVec(Row0(a), Col0(m), d); DotDivVec(Row0(a), Col1(m), d); DotDivVec(Row0(a), Col2(m), d);
    DotDivVec(Row1(a), Col0(m), d); DotDivVec(Row1(a), Col1(m), d); DotDivVec(Row1(a), Col2(m), d);
    DotDivVec(Row2(a), Col0(m), d); DotDivVec(Row2(a), Col1(m), d); DotDivVec(Row2(a), Col2(m), d);
  }

  /** Multiplying every entry by a non-zero d and then dividing by d restores the matrix. */
  lemma ScaleThenDivide(m: Matrix, d: real)
    requires d != 0.0
    ensures DivScalar(Scale(m, d), d) == m
  {
    var e := 1.0 / d;
    assert e * d == 1.0;
    assert (m.m00 * d) / d == m.m00 * d * e == m.m00;
    assert (m.m01 * d) / d == m.m01 * d * e == m.m01;
    assert (m.m02 * d) / d == m.m02 * d * e == m.m02;
    assert (m.m10 * d) / d == m.m10 * d * e == m.m10;
    assert (m.m11 * d) / d == m.m11 * d * e == m.m11;
    assert (m.m12 * d) / d == m.m12 * d * e == m.m12;
    assert (m.m20 * d) / d == m.m20 * d * e == m.m20;
    assert (m.m21 * d) / d == m.m21 * d * e == m.m21;
    assert (m.m22 * d) / d == m.m22 * d * e == m.m22;
  }

  /** Entry-wise views of the entry-wise operations. */
  lemma AtScale(m: Matrix, d: real, i: int, j: int, x: real)
    requires 0 <= i < 3 && 0 <= j < 3 && x == At(m, i, j)
    ensures At(Scale(m, d), i, j) == x * d
  {
  }

  lemma AtDivScalar(m: Matrix, d: real, i: int, j: int, x: real)
    requires d != 0.0 && 0 <= i < 3 && 0 <= j < 3 && x == At(m, i, j)
    ensures At(DivScalar(m, d), i, j) == x / d
  {
  }

  lemma AtAdd(a: Matrix, b: Matrix, i: int, j: int)
    requires 0 <= i < 3 && 0 <= j < 3
    ensures At(Add(a, b), i, j) == At(a, i, j) + At(b, i, j)
  {
  }

  lemma AtNeg(m: Matrix, i: int, j: int)
    requires 0 <= i < 3 && 0 <= j < 3
    ensures At(Neg(m), i, j) == -At(m, i, j)
  {
  }

  /** Adding the negation gives the zero matrix. */
  lemma AddNegIsZero(m: Matrix)
    ensures Add(m, Neg(m)) == Zero()
  {
  }
}
