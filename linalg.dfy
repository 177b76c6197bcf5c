/**
 * Dense vectors and matrices over the reals, as values. They stand for the
 * Eigen VectorXd / MatrixXd temporaries of the filter, which have value
 * semantics. A matrix is the sequence of its rows, except for sigma-point
 * sets, which are kept as the sequence of their columns.
 */
module LinAlg {

  type Vec = seq<real>
  type Mat = seq<Vec>

  ghost predicate IsMatrix(M: Mat, rows: nat, cols: nat) {
    |M| == rows && forall i :: 0 <= i < rows ==> |M[i]| == cols
  }

  ghost predicate IsSymmetric(M: Mat) {
    IsMatrix(M, |M|, |M|) &&
    forall r, c :: 0 <= r < |M| && 0 <= c < |M| ==> M[r][c] == M[c][r]
  }

  function Zeros(n: nat): (v: Vec)
    ensures |v| == n && forall i :: 0 <= i < n ==> v[i] == 0.0
  {
    seq(n, i => 0.0)
  }

  function Add(a: Vec, b: Vec): (c: Vec)
    requires |a| == |b|
    ensures |c| == |a| && forall i :: 0 <= i < |a| ==> c[i] == a[i] + b[i]
  {
    seq(|a|, i requires 0 <= i < |a| => a[i] + b[i])
  }

  function Sub(a: Vec, b: Vec): (c: Vec)
    requires |a| == |b|
    ensures |c| == |a| && forall i :: 0 <= i < |a| ==> c[i] == a[i] - b[i]
  {
    seq(|a|, i requires 0 <= i < |a| => a[i] - b[i])
  }

  function Scale(s: real, a: Vec): (c: Vec)
    ensures |c| == |a| && forall i :: 0 <= i < |a| ==> c[i] == s * a[i]
  {
    seq(|a|, i requires 0 <= i < |a| => s * a[i])
  }

  /** Sum of the products of matching entries. */
  function Dot(a: Vec, b: Vec): real
    requires |a| == |b|
  {
    DotUpTo(a, b, |a|)
  }

  /** Sum of the products of the first k matching entries. */
  function DotUpTo(a: Vec, b: Vec, k: nat): real
    requires k <= |a| && k <= |b|
  {
    if k == 0 then 0.0 else DotUpTo(a, b, k - 1) + a[k - 1] * b[k - 1]
  }

  function ZeroMatrix(rows: nat, cols: nat): (M: Mat)
    ensures IsMatrix(M, rows, cols)
  {
    seq(rows, i => Zeros(cols))
  }

  function Identity(n: nat): (M: Mat)
    ensures IsMatrix(M, n, n)
  {
    seq(n, i => seq(n, j => if i == j then 1.0 else 0.0))
  }

  /** Column j of a matrix given by rows (or row j of a column list). */
  function Column(M: Mat, j: nat): (v: Vec)
    requires forall i :: 0 <= i < |M| ==> j < |M[i]|
    ensures |v| == |M| && forall i :: 0 <= i < |M| ==> v[i] == M[i][j]
  {
    seq(|M|, i requires 0 <= i < |M| => M[i][j])
  }

  function MatAdd(A: Mat, B: Mat, rows: nat, cols: nat): (C: Mat)
    requires IsMatrix(A, rows, cols) && IsMatrix(B, rows, cols)
    ensures IsMatrix(C, rows, cols)
    ensures forall i, j :: 0 <= i < rows && 0 <= j < cols ==> C[i][j] == A[i][j] + B[i][j]
  {
    seq(rows, i requires 0 <= i < rows => Add(A[i], B[i]))
  }

  function MatSub(A: Mat, B: Mat, rows: nat, cols: nat): (C: Mat)
    requires IsMatrix(A, rows, cols) && IsMatrix(B, rows, cols)
    ensures IsMatrix(C, rows, cols)
  {
    seq(rows, i requires 0 <= i < rows => Sub(A[i], B[i]))
  }

  function Transpose(M: Mat, rows: nat, cols: nat): (T: Mat)
    requires IsMatrix(M, rows, cols)
    ensures IsMatrix(T, cols, rows)
  {
    seq(cols, j requires 0 <= j < cols => Column(M, j))
  }

  /** Product of a rows x inner matrix A and an inner x cols matrix B. */
  function MatMul(A: Mat, B: Mat, rows: nat, inner: nat, cols: nat): (C: Mat)
    requires IsMatrix(A, rows, inner) && IsMatrix(B, inner, cols)
    ensures IsMatrix(C, rows, cols)
  {
    seq(rows, i requires 0 <= i < rows =>
      seq(cols, j requires 0 <= j < cols => Dot(A[i], Column(B, j))))
  }

  function MatVec(A: Mat, v: Vec, rows: nat): (w: Vec)
    requires IsMatrix(A, rows, |v|)
    ensures |w| == rows
  {
    seq(rows, i requires 0 <= i < rows => Dot(A[i], v))
  }

  /** The outer product a * b^T. */
  function Outer(a: Vec, b: Vec): (M: Mat)
    ensures IsMatrix(M, |a|, |b|)
    ensures forall i, j :: 0 <= i < |a| && 0 <= j < |b| ==> M[i][j] == a[i] * b[j]
  {
    seq(|a|, i requires 0 <= i < |a| => Scale(a[i], b))
  }

  /** The matrix built from an entry function, as Eigen results are read. */
  function Tabulate(f: (nat, nat) -> real, rows: nat, cols: nat): (M: Mat)
    ensures IsMatrix(M, rows, cols)
    ensures forall i, j :: 0 <= i < rows && 0 <= j < cols ==> M[i][j] == f(i, j)
  {
    seq(rows, i requires 0 <= i < rows => seq(cols, j requires 0 <= j < cols => f(i, j)))
  }

  /** All vectors of a sequence have length n. */
  ghost predicate AllOfLength(vs: seq<Vec>, n: nat) {
    forall i :: 0 <= i < |vs| ==> |vs[i]| == n
  }

  /**
   * sum_{i<k} w[i] * cols[i]: the first k weighted columns added onto the zero
   * vector one at a time.
   */
  function WeightedSum(w: seq<real>, cols: seq<Vec>, n: nat, k: nat): (s: Vec)
    requires k <= |w| && k <= |cols| && AllOfLength(cols, n)
    ensures |s| == n
  {
    if k == 0 then Zeros(n)
    else Add(WeightedSum(w, cols, n, k - 1), Scale(w[k - 1], cols[k - 1]))
  }

  /** Entry r of WeightedSum, as a sum of reals. */
  ghost function RowSum(w: seq<real>, cols: seq<Vec>, n: nat, r: nat, k: nat): real
    requires k <= |w| && k <= |cols| && AllOfLength(cols, n) && r < n
  {
    if k == 0 then 0.0 else RowSum(w, cols, n, r, k - 1) + w[k - 1] * cols[k - 1][r]
  }

  lemma {:induction false} WeightedSumRow(w: seq<real>, cols: seq<Vec>, n: nat, r: nat, k: nat)
    requires k <= |w| && k <= |cols| && AllOfLength(cols, n) && r < n
    ensures WeightedSum(w, cols, n, k)[r] == RowSum(w, cols, n, r, k)
  {
    if k > 0 {
      WeightedSumRow(w, cols, n, r, k - 1);
    }
  }

  /**
   * sum_{i<k} w[i] * a[i] * b[i]^T: the first k weighted outer products added
   * onto the zero matrix one at a time.
   */
  function WeightedCross(w: seq<real>, a: seq<Vec>, b: seq<Vec>, n: nat, m: nat, k: nat): (T: Mat)
    requires k <= |w| && k <= |a| && k <= |b| && AllOfLength(a, n) && AllOfLength(b, m)
    ensures IsMatrix(T, n, m)
  {
    if k == 0 then ZeroMatrix(n, m)
    else MatAdd(WeightedCross(w, a, b, n, m, k - 1), Outer(Scale(w[k - 1], a[k - 1]), b[k - 1]), n, m)
  }

  /** A weighted sum of outer products d * d^T is symmetric, whatever the weights. */
  lemma {:induction false} WeightedOuterSymmetric(w: seq<real>, d: seq<Vec>, n: nat, k: nat)
    requires k <= |w| && k <= |d| && AllOfLength(d, n)
    ensures IsSymmetric(WeightedCross(w, d, d, n, n, k))
  {
    if k > 0 {
      WeightedOuterSymmetric(w, d, n, k - 1);
      ScaledOuterSymmetric(w[k - 1], d[k - 1]);
      SymmetricAdd(WeightedCross(w, d, d, n, n, k - 1), Outer(Scale(w[k - 1], d[k - 1]), d[k - 1]), n);
    }
  }

  /** s * x * x^T is symmetric. */
  lemma ScaledOuterSymmetric(s: real, x: Vec)
    ensures IsSymmetric(Outer(Scale(s, x), x))
  {
    var O := Outer(Scale(s, x), x);
    forall r, c | 0 <= r < |x| && 0 <= c < |x|
      ensures O[r][c] == O[c][r]
    {
      ProductSwap(s, x[r], x[c]);
    }
  }

  lemma ProductSwap(s: real, a: real, b: real)
    ensures (s * a) * b == (s * b) * a
  {
  }

  /** Adding a symmetric matrix to a symmetric matrix keeps it symmetric. */
  lemma SymmetricAdd(A: Mat, B: Mat, n: nat)
    requires IsSymmetric(A) && IsSymmetric(B) && |A| == n && |B| == n
    ensures IsSymmetric(MatAdd(A, B, n, n))
  {
  }

  // ------------------------------------------------- K * S * K^T is symmetric

  /** The term a[m] * S[m][l] * b[l] of the bilinear form a^T S b (0 out of range). */
  ghost function Term(a: Vec, S: Mat, b: Vec, m: nat, l: nat): real {
    if m < |a| && m < |S| && l < |S[m]| && l < |b| then a[m] * S[m][l] * b[l] else 0.0
  }

  /** sum_{l<k} Term(m, l). */
  ghost function RowTerms(a: Vec, S: Mat, b: Vec, m: nat, k: nat): real {
    if k == 0 then 0.0 else RowTerms(a, S, b, m, k - 1) + Term(a, S, b, m, k - 1)
  }

  /** sum_{m<k} Term(m, l). */
  ghost function ColTerms(a: Vec, S: Mat, b: Vec, l: nat, k: nat): real {
    if k == 0 then 0.0 else ColTerms(a, S, b, l, k - 1) + Term(a, S, b, k - 1, l)
  }

  /** sum_{m<r} sum_{l<c} Term(m, l), row by row. */
  ghost function ByRows(a: Vec, S: Mat, b: Vec, r: nat, c: nat): real {
    if r == 0 then 0.0 else ByRows(a, S, b, r - 1, c) + RowTerms(a, S, b, r - 1, c)
  }

  /** sum_{l<c} sum_{m<r} Term(m, l), column by column. */
  ghost function ByCols(a: Vec, S: Mat, b: Vec, r: nat, c: nat): real {
    if c == 0 then 0.0 else ByCols(a, S, b, r, c - 1) + ColTerms(a, S, b, c - 1, r)
  }

  lemma {:induction false} ByColsEmpty(a: Vec, S: Mat, b: Vec, c: nat)
    ensures ByCols(a, S, b, 0, c) == 0.0
  {
    if c > 0 {
      ByColsEmpty(a, S, b, c - 1);
    }
  }

  /** Taking the last row out of the column-by-column sum. */
  lemma {:induction false} ByColsPeel(a: Vec, S: Mat, b: Vec, r: nat, c: nat)
    requires r >= 1
    ensures ByCols(a, S, b, r, c) == ByCols(a, S, b, r - 1, c) + RowTerms(a, S, b, r - 1, c)
  {
    if c > 0 {
      ByColsPeel(a, S, b, r, c - 1);
    }
  }

  /** A finite double sum can be taken in either order. */
  lemma {:induction false} SumOrder(a: Vec, S: Mat, b: Vec, r: nat, c: nat)
    ensures ByRows(a, S, b, r, c) == ByCols(a, S, b, r, c)
  {
    if r == 0 {
      ByColsEmpty(a, S, b, c);
    } else {
      SumOrder(a, S, b, r - 1, c);
      ByColsPeel(a, S, b, r, c);
    }
  }

  /** For symmetric S, the terms of a^T S b are those of b^T S a transposed. */
  lemma {:induction false} RowsAreSwappedCols(a: Vec, S: Mat, b: Vec, n: nat, m: nat, k: nat)
    requires IsSymmetric(S) && |S| == n && |a| == n && |b| == n && m < n && k <= n
    ensures RowTerms(a, S, b, m, k) == ColTerms(b, S, a, m, k)
  {
    if k > 0 {
      RowsAreSwappedCols(a, S, b, n, m, k - 1);
      assert S[m][k - 1] == S[k - 1][m];
      ProductSwap(a[m] * S[m][k - 1], b[k - 1], 1.0);
      assert Term(a, S, b, m, k - 1) == Term(b, S, a, k - 1, m);
    }
  }

  lemma {:induction false} ByRowsIsSwappedByCols(a: Vec, S: Mat, b: Vec, n: nat, k: nat)
    requires IsSymmetric(S) && |S| == n && |a| == n && |b| == n && k <= n
    ensures ByRows(a, S, b, k, n) == ByCols(b, S, a, n, k)
  {
    if k > 0 {
      ByRowsIsSwappedByCols(a, S, b, n, k - 1);
      RowsAreSwappedCols(a, S, b, n, k - 1, n);
    }
  }

  /** Column l of the sum is the l-th entry of a^T S, times b[l]. */
  lemma {:induction false} ColTermsIsDot(a: Vec, S: Mat, b: Vec, n: nat, l: nat, k: nat)
    requires IsMatrix(S, n, n) && |a| == n && |b| == n && l < n && k <= n
    ensures ColTerms(a, S, b, l, k) == DotUpTo(a, Column(S, l), k) * b[l]
  {
    if k > 0 {
      ColTermsIsDot(a, S, b, n, l, k - 1);
      var d := DotUpTo(a, Column(S, l), k - 1);
      assert DotUpTo(a, Column(S, l), k) == d + a[k - 1] * S[k - 1][l];
      Distribute(d, a[k - 1] * S[k - 1][l], b[l]);
    }
  }

  /** (a^T S) b written as the column-by-column double sum. */
  lemma {:induction false} ByColsIsDot(a: Vec, S: Mat, b: Vec, u: Vec, n: nat, k: nat)
    requires IsMatrix(S, n, n) && |a| == n && |b| == n && |u| == n && k <= n
    requires forall l :: 0 <= l < n ==> u[l] == Dot(a, Column(S, l))
    ensures ByCols(a, S, b, n, k) == DotUpTo(u, b, k)
  {
    if k > 0 {
      ByColsIsDot(a, S, b, u, n, k - 1);
      ColTermsIsDot(a, S, b, n, k - 1, n);
    }
  }

  lemma Distribute(a: real, b: real, c: real)
    ensures (a + b) * c == a * c + b * c
  {
  }

  /**
   * For symmetric S, (a^T S) b == (b^T S) a: the bilinear form of a symmetric
   * matrix is symmetric. u and v are the row vectors a^T S and b^T S.
   */
  lemma BilinearSymmetric(a: Vec, S: Mat, b: Vec, u: Vec, v: Vec)
    requires IsSymmetric(S) && |a| == |S| && |b| == |S| && |u| == |S| && |v| == |S|
    requires forall l :: 0 <= l < |S| ==> u[l] == Dot(a, Column(S, l))
    requires forall l :: 0 <= l < |S| ==> v[l] == Dot(b, Column(S, l))
    ensures Dot(u, b) == Dot(v, a)
  {
    var n := |S|;
    ByColsIsDot(a, S, b, u, n, n);
    SumOrder(a, S, b, n, n);
    ByRowsIsSwappedByCols(a, S, b, n, n);
    ByColsIsDot(b, S, a, v, n, n);
  }

  /** K * S * K^T is symmetric whenever S is. */
  lemma SandwichSymmetric(K: Mat, S: Mat, r: nat, n: nat)
    requires IsMatrix(K, r, n) && IsSymmetric(S) && |S| == n
    ensures IsSymmetric(MatMul(MatMul(K, S, r, n, n), Transpose(K, r, n), r, n, r))
  {
    var KS := MatMul(K, S, r, n, n);
    var KT := Transpose(K, r, n);
    var M := MatMul(KS, KT, r, n, r);
    forall i, j | 0 <= i < r && 0 <= j < r
      ensures M[i][j] == M[j][i]
    {
      assert Column(KT, j) == K[j];
      assert Column(KT, i) == K[i];
      BilinearSymmetric(K[i], S, K[j], KS[i], KS[j]);
    }
  }

  /**
   * The covariance correction P - K * S * K^T keeps P symmetric when S is
   * symmetric.
   */
  lemma CorrectionSymmetric(P: Mat, K: Mat, S: Mat, r: nat, n: nat)
    requires IsMatrix(P, r, r) && IsMatrix(K, r, n) && IsMatrix(S, n, n)
    ensures IsSymmetric(P) && IsSymmetric(S) ==>
              IsSymmetric(MatSub(P, MatMul(MatMul(K, S, r, n, n), Transpose(K, r, n), r, n, r), r, r))
  {
    if IsSymmetric(P) && IsSymmetric(S) {
      var M := MatMul(MatMul(K, S, r, n, n), Transpose(K, r, n), r, n, r);
      SandwichSymmetric(K, S, r, n);
      var D := MatSub(P, M, r, r);
      forall i, j | 0 <= i < r && 0 <= j < r
        ensures D[i][j] == D[j][i]
      {
        assert D[i][j] == P[i][j] - M[i][j];
        assert D[j][i] == P[j][i] - M[j][i];
      }
    }
  }
}
