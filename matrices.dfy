/**
  Dense real vectors and matrices: the small part of a linear-algebra library
  that the cost builders use (zero, identity and ones constants, transpose,
  products, sums, scaling, single-entry updates, symmetrisation and quadratic
  forms). A vector is a sequence of reals; a matrix is a sequence of rows.
  Row vectors and column vectors are both plain vectors.
 */
module Matrices {

  type Vector = seq<real>
  type Matrix = seq<seq<real>>

  /** A has m rows of n entries each. */
  predicate IsMatrix(A: Matrix, m: nat, n: nat) {
    |A| == m && forall i :: 0 <= i < m ==> |A[i]| == n
  }

  predicate Symmetric(A: Matrix, n: nat)
    requires IsMatrix(A, n, n)
  {
    forall i, j :: 0 <= i < n && 0 <= j < n ==> A[i][j] == A[j][i]
  }

  // ---------------------------------------------------------------------------
  // Scalars

  /** a * b. Contracts write a product of two computed quantities as
      Times(a, b), so that a caller whose arguments are equal expressions
      matches it term for term; squares are Times(v, v), whose sign facts
      are stated once, by the two lemmas that follow. */
  function Times(a: real, b: real): real {
    a * b
  }

  lemma TimesPositive(a: real, b: real)
    requires (a > 0.0 && b > 0.0) || (a < 0.0 && b < 0.0)
    ensures Times(a, b) > 0.0
  {
  }

  lemma SquareNonnegative(a: real)
    ensures Times(a, a) >= 0.0
    ensures a != 0.0 ==> Times(a, a) > 0.0
  {
    if a != 0.0 {
      TimesPositive(a, a);
    } else {
      assert Times(a, a) == 0.0;
    }
  }

  // ---------------------------------------------------------------------------
  // Constants

  function Zeros(n: nat): (v: Vector)
    ensures |v| == n && forall i :: 0 <= i < n ==> v[i] == 0.0
  {
    seq(n, i => 0.0)
  }

  function Ones(n: nat): (v: Vector)
    ensures |v| == n && forall i :: 0 <= i < n ==> v[i] == 1.0
  {
    seq(n, i => 1.0)
  }

  /** The k-th standard basis vector of length n. */
  function Unit(n: nat, k: nat): (v: Vector)
    requires k < n
    ensures |v| == n && v[k] == 1.0
    ensures forall i :: 0 <= i < n && i != k ==> v[i] == 0.0
  {
    Zeros(n)[k := 1.0]
  }

  function ZeroMatrix(m: nat, n: nat): (A: Matrix)
    ensures IsMatrix(A, m, n)
    ensures forall i, j :: 0 <= i < m && 0 <= j < n ==> A[i][j] == 0.0
  {
    seq(m, i => Zeros(n))
  }

  function Identity(n: nat): (A: Matrix)
    ensures IsMatrix(A, n, n)
    ensures forall i, j :: 0 <= i < n && 0 <= j < n ==> A[i][j] == if i == j then 1.0 else 0.0
  {
    seq(n, i => seq(n, j => if i == j then 1.0 else 0.0))
  }

  /** The square matrix with v on its diagonal. */
  function Diag(v: Vector): (A: Matrix)
    ensures IsMatrix(A, |v|, |v|)
    ensures forall i, j :: 0 <= i < |v| && 0 <= j < |v| ==> A[i][j] == if i == j then v[i] else 0.0
  {
    seq(|v|, i requires 0 <= i < |v| => seq(|v|, j => if i == j then v[i] else 0.0))
  }

  /** The rank-one matrix c * u * u^T. */
  function Outer(c: real, u: Vector): (A: Matrix)
    ensures IsMatrix(A, |u|, |u|)
    ensures forall i, j :: 0 <= i < |u| && 0 <= j < |u| ==> A[i][j] == c * u[i] * u[j]
  {
    seq(|u|, i requires 0 <= i < |u| => seq(|u|, j requires 0 <= j < |u| => c * u[i] * u[j]))
  }

  // ---------------------------------------------------------------------------
  // Entry updates

  /** A with entry (i, j) overwritten by x. */
  function Set(A: Matrix, m: nat, n: nat, i: nat, j: nat, x: real): (B: Matrix)
    requires IsMatrix(A, m, n) && i < m && j < n
    ensures IsMatrix(B, m, n) && B[i][j] == x
    ensures forall a, b :: 0 <= a < m && 0 <= b < n && (a != i || b != j) ==> B[a][b] == A[a][b]
  {
    A[i := A[i][j := x]]
  }

  // ---------------------------------------------------------------------------
  // Element-wise operations

  function AddVec(u: Vector, v: Vector): (w: Vector)
    requires |u| == |v|
    ensures |w| == |u| && forall i :: 0 <= i < |u| ==> w[i] == u[i] + v[i]
  {
    seq(|u|, i requires 0 <= i < |u| => u[i] + v[i])
  }

  function SubVec(u: Vector, v: Vector): (w: Vector)
    requires |u| == |v|
    ensures |w| == |u| && forall i :: 0 <= i < |u| ==> w[i] == u[i] - v[i]
  {
    seq(|u|, i requires 0 <= i < |u| => u[i] - v[i])
  }

  function ScaleVec(c: real, u: Vector): (w: Vector)
    ensures |w| == |u| && forall i :: 0 <= i < |u| ==> w[i] == c * u[i]
  {
    seq(|u|, i requires 0 <= i < |u| => c * u[i])
  }

  function Add(A: Matrix, B: Matrix, m: nat, n: nat): (C: Matrix)
    requires IsMatrix(A, m, n) && IsMatrix(B, m, n)
    ensures IsMatrix(C, m, n)
    ensures forall i, j :: 0 <= i < m && 0 <= j < n ==> C[i][j] == A[i][j] + B[i][j]
  {
    seq(m, i requires 0 <= i < m => AddVec(A[i], B[i]))
  }

  function Scale(c: real, A: Matrix, m: nat, n: nat): (C: Matrix)
    requires IsMatrix(A, m, n)
    ensures IsMatrix(C, m, n)
    ensures forall i, j :: 0 <= i < m && 0 <= j < n ==> C[i][j] == c * A[i][j]
  {
    seq(m, i requires 0 <= i < m => ScaleVec(c, A[i]))
  }

  function Transpose(A: Matrix, m: nat, n: nat): (T: Matrix)
    requires IsMatrix(A, m, n)
    ensures IsMatrix(T, n, m)
    ensures forall i, j :: 0 <= i < n && 0 <= j < m ==> T[i][j] == A[j][i]
  {
    seq(n, i requires 0 <= i < n => seq(m, j requires 0 <= j < m => A[j][i]))
  }

  /** (A + A^T) / 2, the symmetric part of A. */
  function Symmetrize(A: Matrix, n: nat): (S: Matrix)
    requires IsMatrix(A, n, n)
    ensures IsMatrix(S, n, n) && Symmetric(S, n)
    ensures forall i, j :: 0 <= i < n && 0 <= j < n ==> S[i][j] == 0.5 * (A[j][i] + A[i][j])
  {
    Scale(0.5, Add(Transpose(A, n, n), A, n, n), n, n)
  }

  // ---------------------------------------------------------------------------
  // Products

  function Dot(u: Vector, v: Vector): real
    requires |u| == |v|
  {
    SumOfProducts(u, v)
  }

  function SumOfProducts(u: Vector, v: Vector): real
    requires |u| == |v|
    decreases |u|
  {
    if |u| == 0 then 0.0 else u[0] * v[0] + SumOfProducts(u[1..], v[1..])
  }

  /** Column j of A. */
  function Col(A: Matrix, m: nat, n: nat, j: nat): (c: Vector)
    requires IsMatrix(A, m, n) && j < n
    ensures |c| == m && forall i :: 0 <= i < m ==> c[i] == A[i][j]
  {
    seq(m, i requires 0 <= i < m => A[i][j])
  }

  /** The row vector v^T * B, for B with p rows and n columns. */
  function VecMat(v: Vector, B: Matrix, p: nat, n: nat): (w: Vector)
    requires |v| == p && IsMatrix(B, p, n)
    ensures |w| == n && forall j :: 0 <= j < n ==> w[j] == Dot(v, Col(B, p, n, j))
  {
    seq(n, j requires 0 <= j < n => Dot(v, Col(B, p, n, j)))
  }

  /** The column vector A * v, for A with m rows and n columns. */
  function MatVec(A: Matrix, v: Vector, m: nat, n: nat): (w: Vector)
    requires IsMatrix(A, m, n) && |v| == n
    ensures |w| == m && forall i :: 0 <= i < m ==> w[i] == Dot(A[i], v)
  {
    seq(m, i requires 0 <= i < m => Dot(A[i], v))
  }

  function Mul(A: Matrix, B: Matrix, m: nat, p: nat, n: nat): (C: Matrix)
    requires IsMatrix(A, m, p) && IsMatrix(B, p, n)
    ensures IsMatrix(C, m, n)
    ensures forall i, j :: 0 <= i < m && 0 <= j < n ==> C[i][j] == Dot(A[i], Col(B, p, n, j))
  {
    seq(m, i requires 0 <= i < m => VecMat(A[i], B, p, n))
  }

  /** v^T * A * v. */
  function QuadForm(A: Matrix, v: Vector): real
    requires IsMatrix(A, |v|, |v|)
  {
    Dot(v, MatVec(A, v, |v|, |v|))
  }

  ghost predicate PositiveSemidefinite(A: Matrix, n: nat)
    requires IsMatrix(A, n, n)
  {
    forall v: Vector {:trigger QuadForm(A, v)} | |v| == n :: QuadForm(A, v) >= 0.0
  }

  // ---------------------------------------------------------------------------
  // Equality and symmetry

  /** Matrices of the same shape with the same entries are equal. */
  lemma MatrixExt(A: Matrix, B: Matrix, m: nat, n: nat)
    requires IsMatrix(A, m, n) && IsMatrix(B, m, n)
    requires forall i, j :: 0 <= i < m && 0 <= j < n ==> A[i][j] == B[i][j]
    ensures A == B
  {
    forall i | 0 <= i < m ensures A[i] == B[i] {
      assert forall j :: 0 <= j < n ==> A[i][j] == B[i][j];
    }
  }

  /** Symmetrising a matrix that is already symmetric leaves it unchanged. */
  lemma SymmetrizeSymmetric(A: Matrix, n: nat)
    requires IsMatrix(A, n, n) && Symmetric(A, n)
    ensures Symmetrize(A, n) == A
  {
    MatrixExt(Symmetrize(A, n), A, n, n);
  }

  /** A rank-one matrix c * u * u^T is symmetric, */
  lemma OuterSymmetric(c: real, u: Vector)
    ensures Symmetric(Outer(c, u), |u|)
  {
    var A := Outer(c, u);
    forall i, j | 0 <= i < |u| && 0 <= j < |u| ensures A[i][j] == A[j][i] {
      assert c * u[i] * u[j] == c * u[j] * u[i];
    }
  }

  /** and its row i and column i vanish wherever u[i] does. */
  lemma OuterZeroEntry(c: real, u: Vector, i: nat, j: nat)
    requires i < |u| && j < |u| && (u[i] == 0.0 || u[j] == 0.0)
    ensures Outer(c, u)[i][j] == 0.0
  {
  }

  /** c * e_k * e_k^T has c at (k, k). */
  lemma OuterUnitEntry(c: real, n: nat, k: nat)
    requires k < n
    ensures Outer(c, Unit(n, k))[k][k] == c
  {
    assert Unit(n, k)[k] == 1.0;
  }

  /** Sums of symmetric matrices are symmetric. */
  lemma AddSymmetric(A: Matrix, B: Matrix, n: nat)
    requires IsMatrix(A, n, n) && IsMatrix(B, n, n) && Symmetric(A, n) && Symmetric(B, n)
    ensures Symmetric(Add(A, B, n, n), n)
  {
  }

  // ---------------------------------------------------------------------------
  // Facts about Dot

  lemma {:induction false} DotZeros(v: Vector)
    ensures Dot(Zeros(|v|), v) == 0.0
  {
    if |v| > 0 {
      assert Zeros(|v|)[1..] == Zeros(|v| - 1);
      DotZeros(v[1..]);
    }
  }

  lemma {:induction false} DotComm(u: Vector, v: Vector)
    requires |u| == |v|
    ensures Dot(u, v) == Dot(v, u)
  {
    if |u| > 0 {
      DotComm(u[1..], v[1..]);
    }
  }

  /** Overwriting entry k of the left factor changes the product by the difference at k. */
  lemma {:induction false} DotUpdate(u: Vector, v: Vector, k: nat, x: real)
    requires |u| == |v| && k < |u|
    ensures Dot(u[k := x], v) == Dot(u, v) + (x - u[k]) * v[k]
    decreases |u|
  {
    if k > 0 {
      assert u[k := x][1..] == u[1..][k - 1 := x];
      DotUpdate(u[1..], v[1..], k - 1, x);
    } else {
      assert u[k := x][1..] == u[1..];
    }
  }

  /** A vector that is zero except at two distinct offsets picks those two entries. */
  lemma DotTwoEntries(n: nat, a: nat, b: nat, p: real, q: real, v: Vector)
    requires |v| == n && a < n && b < n && a != b
    ensures Dot(Zeros(n)[a := p][b := q], v) == Times(p, v[a]) + Times(q, v[b])
  {
    DotUpdate(Zeros(n)[a := p], v, b, q);
    DotUpdate(Zeros(n), v, a, p);
    DotZeros(v);
  }

  /** The k-th basis vector picks entry k. */
  lemma DotUnit(k: nat, v: Vector)
    requires k < |v|
    ensures Dot(Unit(|v|, k), v) == v[k]
  {
    DotUpdate(Zeros(|v|), v, k, 1.0);
    DotZeros(v);
  }

  lemma DotScaledUnit(c: real, k: nat, v: Vector)
    requires k < |v|
    ensures Dot(ScaleVec(c, Unit(|v|, k)), v) == Times(c, v[k])
  {
    DotScale(c, Unit(|v|, k), v);
    DotUnit(k, v);
  }

  lemma DotSub(u: Vector, v: Vector, w: Vector)
    requires |u| == |v| == |w|
    ensures Dot(SubVec(u, v), w) == Dot(u, w) - Dot(v, w)
  {
    var mv := ScaleVec(-1.0, v);
    assert SubVec(u, v) == AddVec(u, mv);
    DotAdd(u, mv, w);
    DotScale(-1.0, v, w);
  }

  lemma {:induction false} DotAdd(u: Vector, v: Vector, w: Vector)
    requires |u| == |v| == |w|
    ensures Dot(AddVec(u, v), w) == Dot(u, w) + Dot(v, w)
    decreases |u|
  {
    if |u| > 0 {
      assert AddVec(u, v)[1..] == AddVec(u[1..], v[1..]);
      DotAdd(u[1..], v[1..], w[1..]);
    }
  }

  lemma {:induction false} DotScale(c: real, u: Vector, v: Vector)
    requires |u| == |v|
    ensures Dot(ScaleVec(c, u), v) == Times(c, Dot(u, v))
    decreases |u|
  {
    if |u| > 0 {
      forall i | 0 <= i < |u| - 1 ensures ScaleVec(c, u)[1..][i] == ScaleVec(c, u[1..])[i] {
        assert ScaleVec(c, u)[1..][i] == ScaleVec(c, u)[i + 1];
      }
      assert ScaleVec(c, u)[1..] == ScaleVec(c, u[1..]);
      DotScale(c, u[1..], v[1..]);
    }
  }

  /** A sum of products with non-negative weights: v^T diag(w) v. */
  lemma {:induction false} DotWeightedSquaresNonneg(w: Vector, v: Vector)
    requires |w| == |v|
    requires forall i :: 0 <= i < |w| ==> w[i] >= 0.0
    ensures Dot(v, seq(|v|, i requires 0 <= i < |v| => w[i] * v[i])) >= 0.0
    decreases |v|
  {
    if |v| > 0 {
      var p := seq(|v|, i requires 0 <= i < |v| => w[i] * v[i]);
      var p' := seq(|v| - 1, i requires 0 <= i < |v| - 1 => w[1..][i] * v[1..][i]);
      forall i | 0 <= i < |v| - 1 ensures p[1..][i] == p'[i] {
        assert p[1..][i] == p[i + 1];
      }
      assert p[1..] == p';
      DotWeightedSquaresNonneg(w[1..], v[1..]);
      assert v[0] * p[0] == w[0] * (v[0] * v[0]);
      assert v[0] * v[0] >= 0.0;
    }
  }

  /** Dot of two vectors of length two, written out. */
  lemma Dot1(u: Vector, v: Vector)
    requires |u| == |v| == 1
    ensures Dot(u, v) == u[0] * v[0]
  {
    assert SumOfProducts(u[1..], v[1..]) == 0.0;
  }

  lemma Dot2(u: Vector, v: Vector)
    requires |u| == |v| == 2
    ensures Dot(u, v) == u[0] * v[0] + u[1] * v[1]
  {
    assert Dot(u[1..], v[1..]) == u[1] * v[1] + Dot(u[1..][1..], v[1..][1..]);
    assert u[1..][1..] == [];
  }

  // ---------------------------------------------------------------------------
  // Facts about quadratic forms

  lemma QuadFormAdd(A: Matrix, B: Matrix, v: Vector)
    requires IsMatrix(A, |v|, |v|) && IsMatrix(B, |v|, |v|)
    ensures QuadForm(Add(A, B, |v|, |v|), v) == QuadForm(A, v) + QuadForm(B, v)
  {
    var n := |v|;
    var mA, mB := MatVec(A, v, n, n), MatVec(B, v, n, n);
    var mAB := MatVec(Add(A, B, n, n), v, n, n);
    forall i | 0 <= i < n ensures mAB[i] == mA[i] + mB[i] {
      assert Add(A, B, n, n)[i] == AddVec(A[i], B[i]);
      DotAdd(A[i], B[i], v);
    }
    assert mAB == AddVec(mA, mB);
    DotComm(v, mAB);
    DotAdd(mA, mB, v);
    DotComm(mA, v);
    DotComm(mB, v);
  }

  /** The quadratic form of c * u * u^T is c * (u . v)^2. */
  lemma QuadFormOuter(c: real, u: Vector, v: Vector)
    requires |u| == |v|
    ensures QuadForm(Outer(c, u), v) == Times(c, Times(Dot(u, v), Dot(u, v)))
  {
    var n := |v|;
    var d := Dot(u, v);
    var m := MatVec(Outer(c, u), v, n, n);
    OuterTimesVector(c, u, v, d);
    DotComm(v, m);
    DotScale(c * d, u, v);
    assert (c * d) * d == c * Times(d, d);
  }

  /** The quadratic form of a sum of three rank-one matrices. */
  lemma QuadFormThreeOuters(a: real, u: Vector, b: real, w: Vector, c: real, z: Vector,
                                               v: Vector, n: nat)
    requires |u| == n && |w| == n && |z| == n && |v| == n
    ensures QuadForm(Add(Add(Outer(a, u), Outer(b, w), n, n), Outer(c, z), n, n), v)
            == Times(a, Times(Dot(u, v), Dot(u, v))) + Times(b, Times(Dot(w, v), Dot(w, v)))
               + Times(c, Times(Dot(z, v), Dot(z, v)))
  {
    var A, B, C := Outer(a, u), Outer(b, w), Outer(c, z);
    QuadFormAdd(Add(A, B, n, n), C, v);
    QuadFormAdd(A, B, v);
    QuadFormOuter(a, u, v);
    QuadFormOuter(b, w, v);
    QuadFormOuter(c, z, v);
  }

  /** (c * u * u^T) * v == (c * d) * u, where d is u . v. */
  lemma OuterTimesVector(c: real, u: Vector, v: Vector, d: real)
    requires |u| == |v| && d == Dot(u, v)
    ensures MatVec(Outer(c, u), v, |v|, |v|) == ScaleVec(c * d, u)
  {
    var n := |v|;
    var m := MatVec(Outer(c, u), v, n, n);
    var r := ScaleVec(c * d, u);
    forall i | 0 <= i < n ensures m[i] == r[i] {
      OuterRowTimesVector(c, u, v, i);
    }
    assert m == r;
  }

  lemma OuterRowTimesVector(c: real, u: Vector, v: Vector, i: nat)
    requires |u| == |v| && i < |u|
    ensures Dot(Outer(c, u)[i], v) == (c * Dot(u, v)) * u[i]
  {
    OuterRow(c, u, i);
    var a, d := c * u[i], Dot(u, v);
    DotScale(a, u, v);
    assert a * d == (c * d) * u[i];
  }

  lemma OuterRow(c: real, u: Vector, i: nat)
    requires i < |u|
    ensures Outer(c, u)[i] == ScaleVec(c * u[i], u)
  {
    forall j | 0 <= j < |u| ensures Outer(c, u)[i][j] == ScaleVec(c * u[i], u)[j] {
      assert c * u[i] * u[j] == (c * u[i]) * u[j];
    }
  }

  lemma QuadFormOuterNonneg(c: real, u: Vector, v: Vector)
    requires |u| == |v| && c >= 0.0
    ensures QuadForm(Outer(c, u), v) >= 0.0
  {
    QuadFormOuter(c, u, v);
    SquareNonnegative(Dot(u, v));
  }

  /** c u u^T with c >= 0 is positive semidefinite. */
  lemma OuterPositiveSemidefinite(c: real, u: Vector)
    requires c >= 0.0
    ensures PositiveSemidefinite(Outer(c, u), |u|)
  {
    forall v: Vector | |v| == |u| ensures QuadForm(Outer(c, u), v) >= 0.0 {
      QuadFormOuterNonneg(c, u, v);
    }
  }

  /** The sum of two positive semidefinite matrices is positive semidefinite. */
  lemma AddPositiveSemidefinite(A: Matrix, B: Matrix, n: nat)
    requires IsMatrix(A, n, n) && IsMatrix(B, n, n)
    requires PositiveSemidefinite(A, n) && PositiveSemidefinite(B, n)
    ensures PositiveSemidefinite(Add(A, B, n, n), n)
  {
    forall v: Vector | |v| == n ensures QuadForm(Add(A, B, n, n), v) >= 0.0 {
      assert QuadForm(A, v) >= 0.0 && QuadForm(B, v) >= 0.0;
      QuadFormAdd(A, B, v);
    }
  }

  /** A diagonal matrix with a non-negative diagonal is positive semidefinite. */
  lemma QuadFormDiagNonneg(w: Vector, v: Vector)
    requires |w| == |v|
    requires forall i :: 0 <= i < |w| ==> w[i] >= 0.0
    ensures QuadForm(Diag(w), v) >= 0.0
  {
    var n := |v|;
    var m := MatVec(Diag(w), v, n, n);
    var p := seq(n, i requires 0 <= i < n => w[i] * v[i]);
    forall i | 0 <= i < n ensures m[i] == p[i] {
      assert Diag(w)[i] == Zeros(n)[i := w[i]];
      DotUpdate(Zeros(n), v, i, w[i]);
      DotZeros(v);
    }
    assert m == p;
    DotWeightedSquaresNonneg(w, v);
  }

  /** The lemma above for every vector: the matrix itself is positive semidefinite. */
  lemma DiagPositiveSemidefinite(w: Vector)
    requires forall i :: 0 <= i < |w| ==> w[i] >= 0.0
    ensures PositiveSemidefinite(Diag(w), |w|)
  {
    forall v: Vector | |v| == |w| ensures QuadForm(Diag(w), v) >= 0.0 {
      QuadFormDiagNonneg(w, v);
    }
  }

  /** Diag is linear: the diagonal a u + b w gives a Diag(u) + b Diag(w). */
  lemma DiagLinear(a: real, b: real, u: Vector, w: Vector)
    requires |u| == |w|
    ensures Diag(AddVec(ScaleVec(a, u), ScaleVec(b, w)))
            == Add(Scale(a, Diag(u), |u|, |u|), Scale(b, Diag(w), |u|, |u|), |u|, |u|)
  {
    var n := |u|;
    MatrixExt(Diag(AddVec(ScaleVec(a, u), ScaleVec(b, w))),
              Add(Scale(a, Diag(u), n, n), Scale(b, Diag(w), n, n), n, n), n, n);
  }
}
