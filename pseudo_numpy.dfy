/**
 * The explicit-loop versions of `np.matmul` and `np.kron` the tile uses under
 * MicroPython: zero-filled arrays written in place by nested loops.
 *
 * The kernels are generic in the element type: `Arith` supplies the zero that
 * `np.zeros` fills with and the `+` and `*` the loops apply. None of the
 * properties below depends on what the elements are.
 */
module PseudoNumpy {

  /** The element type's zero, addition and multiplication. */
  datatype Arith<!S> = Arith(zero: S, add: (S, S) -> S, mul: (S, S) -> S)

  /** A numpy array of dimension one or two, with its shape. */
  datatype NdArray<S> =
    | Vector(elems: seq<S>)
    | Matrix(rows: nat, cols: nat, entries: seq<seq<S>>)

  /** The shape and the element count per row agree. */
  predicate WellShaped<S>(x: NdArray<S>) {
    x.Matrix? ==> |x.entries| == x.rows && forall i :: 0 <= i < x.rows ==> |x.entries[i]| == x.cols
  }

  /** `len(x)`: the first dimension. */
  function Len<S>(x: NdArray<S>): nat {
    if x.Vector? then |x.elems| else x.rows
  }

  // ---------------------------------------------------------------------------
  // Index arithmetic of the blocks of a Kronecker product. Block offsets are
  // written as repeated addition (`Times`) and split back into block and offset
  // by repeated subtraction, so that the solver reasons about them linearly;
  // the lemmas TimesIsMul and BlockIsDivMod tie them to `*`, `/` and `%`.

  /** i * p as repeated addition: the first row of block i. */
  function Times(i: nat, p: nat): nat {
    if i == 0 then 0 else Times(i - 1, p) + p
  }

  lemma {:induction false} TimesIsMul(i: nat, p: nat)
    ensures Times(i, p) == i * p
  {
    if i > 0 {
      TimesIsMul(i - 1, p);
      assert i * p == (i - 1) * p + p;
    }
  }

  lemma {:induction false} TimesMono(i: nat, j: nat, p: nat)
    requires i <= j
    ensures Times(i, p) <= Times(j, p)
    decreases j
  {
    if i < j {
      TimesMono(i, j - 1, p);
    }
  }

  /** The block that index x falls in, blocks being p long. */
  function BlockIndex(x: nat, p: nat): nat
    requires p > 0
    decreases x
  {
    if x < p then 0 else BlockIndex(x - p, p) + 1
  }

  /** The position of index x inside its block. */
  function BlockOffset(x: nat, p: nat): nat
    requires p > 0
    decreases x
  {
    if x < p then x else BlockOffset(x - p, p)
  }

  /** Every index is the start of its block plus its offset, the offset being less than p. */
  lemma {:induction false} BlockSplit(x: nat, p: nat)
    requires p > 0
    ensures BlockOffset(x, p) < p && x == Times(BlockIndex(x, p), p) + BlockOffset(x, p)
    decreases x
  {
    if x >= p {
      BlockSplit(x - p, p);
    }
  }

  /** Offset r of block i is found again as block i, offset r. */
  lemma {:induction false} BlockOfTimes(i: nat, p: nat, r: nat)
    requires r < p
    ensures BlockIndex(Times(i, p) + r, p) == i && BlockOffset(Times(i, p) + r, p) == r
  {
    if i > 0 {
      BlockOfTimes(i - 1, p, r);
    }
  }

  /** An index below m blocks of length p lies in one of those m blocks. */
  lemma BlockBound(x: nat, m: nat, p: nat)
    requires x < Times(m, p)
    ensures p > 0 && BlockIndex(x, p) < m && BlockOffset(x, p) < p
    ensures x == Times(BlockIndex(x, p), p) + BlockOffset(x, p)
  {
    TimesIsMul(m, p);
    BlockSplit(x, p);
    if BlockIndex(x, p) >= m {
      TimesMono(m, BlockIndex(x, p), p);
    }
  }

  lemma MulMono(a: int, b: int, p: nat)
    requires a <= b
    ensures a * p <= b * p
  {
    assert b * p - a * p == (b - a) * p;
  }

  /** (i * p + r) / p == i and (i * p + r) % p == r when r < p. */
  lemma DivModOfBlock(i: nat, p: nat, r: nat)
    requires r < p
    ensures (i * p + r) / p == i && (i * p + r) % p == r
  {
    var x := i * p + r;
    var d := x / p;
    assert x == d * p + x % p;
    if d > i {
      MulMono(i + 1, d, p);
    } else if d < i {
      MulMono(d + 1, i, p);
    }
  }

  /** Block and offset are Euclidean quotient and remainder. */
  lemma BlockIsDivMod(x: nat, p: nat)
    requires p > 0
    ensures BlockIndex(x, p) == x / p && BlockOffset(x, p) == x % p
  {
    BlockSplit(x, p);
    TimesIsMul(BlockIndex(x, p), p);
    DivModOfBlock(BlockIndex(x, p), p, BlockOffset(x, p));
  }

  // ---------------------------------------------------------------------------
  // Matrix-vector product

  /** `sum(row[k] * col[k] for k < n)`, accumulated from zero left to right as the loop does. */
  function Dot<S>(ar: Arith<S>, row: seq<S>, col: seq<S>, n: nat): S
    requires n <= |row| && n <= |col|
  {
    if n == 0 then ar.zero else ar.add(Dot(ar, row, col, n - 1), ar.mul(row[n - 1], col[n - 1]))
  }

  /** Column j of a list of rows. */
  function Column<S>(b: seq<seq<S>>, j: nat): (c: seq<S>)
    requires forall k :: 0 <= k < |b| ==> j < |b[k]|
    ensures |c| == |b| && forall k :: 0 <= k < |b| ==> c[k] == b[k][j]
  {
    seq(|b|, k requires 0 <= k < |b| => b[k][j])
  }

  /**
   * `mat_vec_mul(a, b)`: a is a 2-D array. For a vector b the result has a.rows
   * entries, c[i] = sum over k of a[i][k] * b[k]; for a matrix b it has shape
   * a.rows x b.cols, c[i][j] = sum over k of a[i][k] * b[k][j].
   */
  method MatVecMul<S>(ar: Arith<S>, a: NdArray<S>, b: NdArray<S>) returns (c: NdArray<S>)
    requires a.Matrix? && WellShaped(a) && WellShaped(b)
    requires a.cols <= Len(b)
    ensures WellShaped(c)
    ensures b.Vector? ==> c.Vector? && |c.elems| == a.rows
    ensures b.Vector? ==> forall i :: 0 <= i < a.rows ==> c.elems[i] == Dot(ar, a.entries[i], b.elems, a.cols)
    ensures b.Matrix? ==> c.Matrix? && c.rows == a.rows && c.cols == b.cols
    ensures b.Matrix? ==> forall i, j :: 0 <= i < a.rows && 0 <= j < b.cols ==>
              c.entries[i][j] == Dot(ar, a.entries[i], Column(b.entries, j), a.cols)
  {
    if b.Vector? {
      var v := new S[a.rows](_ => ar.zero);
      for i := 0 to a.rows
        invariant forall i' :: 0 <= i' < i ==> v[i'] == Dot(ar, a.entries[i'], b.elems, a.cols)
        invariant forall i' :: i <= i' < a.rows ==> v[i'] == ar.zero
      {
        for k := 0 to a.cols
          invariant forall i' :: 0 <= i' < i ==> v[i'] == Dot(ar, a.entries[i'], b.elems, a.cols)
          invariant forall i' :: i < i' < a.rows ==> v[i'] == ar.zero
          invariant v[i] == Dot(ar, a.entries[i], b.elems, k)
        {
          v[i] := ar.add(v[i], ar.mul(a.entries[i][k], b.elems[k]));
        }
      }
      c := Vector(v[..]);
    } else {
      var m := new S[a.rows, b.cols]((_, _) => ar.zero);
      for i := 0 to a.rows
        invariant forall i', j' :: 0 <= i' < i && 0 <= j' < b.cols ==>
                    m[i', j'] == Dot(ar, a.entries[i'], Column(b.entries, j'), a.cols)
        invariant forall i', j' :: i <= i' < a.rows && 0 <= j' < b.cols ==> m[i', j'] == ar.zero
      {
        MatMulRow(ar, a, b, m, i);
      }
      c := Matrix(a.rows, b.cols, Rows(m));
    }
  }

  /** The two inner loops of `mat_vec_mul` for a matrix b: row i of the product. */
  method MatMulRow<S>(ar: Arith<S>, a: NdArray<S>, b: NdArray<S>, m: array2<S>, i: nat)
    requires a.Matrix? && b.Matrix? && WellShaped(a) && WellShaped(b) && a.cols <= b.rows
    requires m.Length0 == a.rows && m.Length1 == b.cols && i < a.rows
    requires forall j :: 0 <= j < b.cols ==> m[i, j] == ar.zero
    modifies m
    ensures forall j :: 0 <= j < b.cols ==> m[i, j] == Dot(ar, a.entries[i], Column(b.entries, j), a.cols)
    ensures forall i', j :: 0 <= i' < a.rows && 0 <= j < b.cols && i' != i ==> m[i', j] == old(m[i', j])
  {
    for j := 0 to b.cols
      invariant forall j' :: 0 <= j' < j ==> m[i, j'] == Dot(ar, a.entries[i], Column(b.entries, j'), a.cols)
      invariant forall j' :: j <= j' < b.cols ==> m[i, j'] == ar.zero
      invariant forall i', j' :: 0 <= i' < a.rows && 0 <= j' < b.cols && i' != i ==> m[i', j'] == old(m[i', j'])
    {
      ghost var col := Column(b.entries, j);
      for k := 0 to a.cols
        invariant forall j' :: 0 <= j' < j ==> m[i, j'] == Dot(ar, a.entries[i], Column(b.entries, j'), a.cols)
        invariant forall j' :: j < j' < b.cols ==> m[i, j'] == ar.zero
        invariant forall i', j' :: 0 <= i' < a.rows && 0 <= j' < b.cols && i' != i ==> m[i', j'] == old(m[i', j'])
        invariant m[i, j] == Dot(ar, a.entries[i], col, k)
      {
        m[i, j] := ar.add(m[i, j], ar.mul(a.entries[i][k], b.entries[k][j]));
      }
    }
  }

  // ---------------------------------------------------------------------------
  // Kronecker products: reference definitions, one per shape case

  /** Entry x of vector (x) vector: a[x / p] * b[x % p], p = |b|. */
  function KronVVEntry<S>(ar: Arith<S>, a: seq<S>, b: seq<S>, x: nat): S
    requires x < Times(|a|, |b|)
  {
    BlockBound(x, |a|, |b|);
    ar.mul(a[BlockIndex(x, |b|)], b[BlockOffset(x, |b|)])
  }

  function KronVV<S>(ar: Arith<S>, a: seq<S>, b: seq<S>): (r: seq<S>)
    ensures |r| == Times(|a|, |b|)
  {
    seq(Times(|a|, |b|), x requires 0 <= x < Times(|a|, |b|) => KronVVEntry(ar, a, b, x))
  }

  /** Entry (x, y) of matrix (x) matrix: a[x / p][y / q] * b[x % p][y % q], b being p x q. */
  function KronMMEntry<S>(ar: Arith<S>, a: NdArray<S>, b: NdArray<S>, x: nat, y: nat): S
    requires a.Matrix? && b.Matrix? && WellShaped(a) && WellShaped(b)
    requires x < Times(a.rows, b.rows) && y < Times(a.cols, b.cols)
  {
    BlockBound(x, a.rows, b.rows);
    BlockBound(y, a.cols, b.cols);
    ar.mul(a.entries[BlockIndex(x, b.rows)][BlockIndex(y, b.cols)],
           b.entries[BlockOffset(x, b.rows)][BlockOffset(y, b.cols)])
  }

  function KronMM<S>(ar: Arith<S>, a: NdArray<S>, b: NdArray<S>): (r: seq<seq<S>>)
    requires a.Matrix? && b.Matrix? && WellShaped(a) && WellShaped(b)
    ensures |r| == Times(a.rows, b.rows) && forall x :: 0 <= x < |r| ==> |r[x]| == Times(a.cols, b.cols)
  {
    seq(Times(a.rows, b.rows), x requires 0 <= x < Times(a.rows, b.rows) =>
      seq(Times(a.cols, b.cols), y requires 0 <= y < Times(a.cols, b.cols) => KronMMEntry(ar, a, b, x, y)))
  }

  /** Entry (x, j) of matrix (x) vector, column-wise: a[x / p][j] * b[x % p]. */
  function KronMVEntry<S>(ar: Arith<S>, a: NdArray<S>, b: seq<S>, x: nat, j: nat): S
    requires a.Matrix? && WellShaped(a) && x < Times(a.rows, |b|) && j < a.cols
  {
    BlockBound(x, a.rows, |b|);
    ar.mul(a.entries[BlockIndex(x, |b|)][j], b[BlockOffset(x, |b|)])
  }

  function KronMV<S>(ar: Arith<S>, a: NdArray<S>, b: seq<S>): (r: seq<seq<S>>)
    requires a.Matrix? && WellShaped(a)
    ensures |r| == Times(a.rows, |b|) && forall x :: 0 <= x < |r| ==> |r[x]| == a.cols
  {
    seq(Times(a.rows, |b|), x requires 0 <= x < Times(a.rows, |b|) =>
      seq(a.cols, j requires 0 <= j < a.cols => KronMVEntry(ar, a, b, x, j)))
  }

  /** Entry (x, c) of vector (x) matrix: a[x / p] * b[x % p][c]. */
  function KronVMEntry<S>(ar: Arith<S>, a: seq<S>, b: NdArray<S>, x: nat, c: nat): S
    requires b.Matrix? && WellShaped(b) && x < Times(|a|, b.rows) && c < b.cols
  {
    BlockBound(x, |a|, b.rows);
    ar.mul(a[BlockIndex(x, b.rows)], b.entries[BlockOffset(x, b.rows)][c])
  }

  function KronVM<S>(ar: Arith<S>, a: seq<S>, b: NdArray<S>): (r: seq<seq<S>>)
    requires b.Matrix? && WellShaped(b)
    ensures |r| == Times(|a|, b.rows) && forall x :: 0 <= x < |r| ==> |r[x]| == b.cols
  {
    seq(Times(|a|, b.rows), x requires 0 <= x < Times(|a|, b.rows) =>
      seq(b.cols, c requires 0 <= c < b.cols => KronVMEntry(ar, a, b, x, c)))
  }

  /** The reference definition of `kronecker_product`, by shape case. */
  function Kron<S>(ar: Arith<S>, a: NdArray<S>, b: NdArray<S>): NdArray<S>
    requires WellShaped(a) && WellShaped(b)
  {
    match (a, b)
    case (Matrix(m, n, _), Matrix(p, q, _)) => Matrix(m * p, n * q, KronMM(ar, a, b))
    case (Matrix(m, n, _), Vector(bv)) => Matrix(m * |bv|, n, KronMV(ar, a, bv))
    case (Vector(av), Matrix(p, q, _)) => Matrix(|av| * p, q, KronVM(ar, av, b))
    case (Vector(av), Vector(bv)) => Vector(KronVV(ar, av, bv))
  }

  /** Entry i * p + r of a vector Kronecker product is a[i] * b[r]. */
  lemma KronVVAt<S>(ar: Arith<S>, a: seq<S>, b: seq<S>, i: nat, r: nat)
    requires i < |a| && r < |b|
    ensures i * |b| + r < |KronVV(ar, a, b)|
    ensures KronVV(ar, a, b)[i * |b| + r] == ar.mul(a[i], b[r])
  {
    TimesIsMul(i, |b|);
    TimesMono(i + 1, |a|, |b|);
    BlockOfTimes(i, |b|, r);
  }

  /** Entry (i * p + r, j * q + s) of a matrix Kronecker product is a[i][j] * b[r][s]. */
  lemma KronMMAt<S>(ar: Arith<S>, a: NdArray<S>, b: NdArray<S>, i: nat, j: nat, r: nat, s: nat)
    requires a.Matrix? && b.Matrix? && WellShaped(a) && WellShaped(b)
    requires i < a.rows && j < a.cols && r < b.rows && s < b.cols
    ensures i * b.rows + r < |KronMM(ar, a, b)| && j * b.cols + s < |KronMM(ar, a, b)[i * b.rows + r]|
    ensures KronMM(ar, a, b)[i * b.rows + r][j * b.cols + s] == ar.mul(a.entries[i][j], b.entries[r][s])
  {
    TimesIsMul(i, b.rows);
    TimesIsMul(j, b.cols);
    TimesMono(i + 1, a.rows, b.rows);
    TimesMono(j + 1, a.cols, b.cols);
    BlockOfTimes(i, b.rows, r);
    BlockOfTimes(j, b.cols, s);
  }

  /** Entry (i * p + r, j) of matrix (x) vector is a[i][j] * b[r]. */
  lemma KronMVAt<S>(ar: Arith<S>, a: NdArray<S>, b: seq<S>, i: nat, j: nat, r: nat)
    requires a.Matrix? && WellShaped(a) && i < a.rows && j < a.cols && r < |b|
    ensures i * |b| + r < |KronMV(ar, a, b)|
    ensures KronMV(ar, a, b)[i * |b| + r][j] == ar.mul(a.entries[i][j], b[r])
  {
    TimesIsMul(i, |b|);
    TimesMono(i + 1, a.rows, |b|);
    BlockOfTimes(i, |b|, r);
  }

  /** Entry (i * p + r, c) of vector (x) matrix is a[i] * b[r][c]. */
  lemma KronVMAt<S>(ar: Arith<S>, a: seq<S>, b: NdArray<S>, i: nat, r: nat, c: nat)
    requires b.Matrix? && WellShaped(b) && i < |a| && r < b.rows && c < b.cols
    ensures i * b.rows + r < |KronVM(ar, a, b)|
    ensures KronVM(ar, a, b)[i * b.rows + r][c] == ar.mul(a[i], b.entries[r][c])
  {
    TimesIsMul(i, b.rows);
    TimesMono(i + 1, |a|, b.rows);
    BlockOfTimes(i, b.rows, r);
  }

  /** Every entry of a matrix Kronecker product is of that form: block (x / p, y / q), offset (x % p, y % q). */
  lemma KronMMCovers<S>(ar: Arith<S>, a: NdArray<S>, b: NdArray<S>, x: nat, y: nat)
    requires a.Matrix? && b.Matrix? && WellShaped(a) && WellShaped(b)
    requires x < a.rows * b.rows && y < a.cols * b.cols
    ensures b.rows > 0 && b.cols > 0 && x / b.rows < a.rows && y / b.cols < a.cols
    ensures x < |KronMM(ar, a, b)| && y < |KronMM(ar, a, b)[x]|
    ensures KronMM(ar, a, b)[x][y] == ar.mul(a.entries[x / b.rows][y / b.cols], b.entries[x % b.rows][y % b.cols])
  {
    TimesIsMul(a.rows, b.rows);
    TimesIsMul(a.cols, b.cols);
    BlockBound(x, a.rows, b.rows);
    BlockBound(y, a.cols, b.cols);
    BlockIsDivMod(x, b.rows);
    BlockIsDivMod(y, b.cols);
  }

  // ---------------------------------------------------------------------------
  // Kronecker products: the in-place loops

  /**
   * `kronecker_product(a, b)`: fills a zero array block by block, block (i, j)
   * being a[i][j] * b. The result is the reference product of the same shape case.
   */
  method KroneckerProduct<S>(ar: Arith<S>, a: NdArray<S>, b: NdArray<S>) returns (r: NdArray<S>)
    requires WellShaped(a) && WellShaped(b)
    ensures WellShaped(r)
    ensures r == Kron(ar, a, b)
  {
    match (a, b)
    case (Matrix(_, _, _), Matrix(_, _, _)) =>
      var e := KronMatMat(ar, a, b);
      TimesIsMul(a.rows, b.rows);
      TimesIsMul(a.cols, b.cols);
      r := Matrix(a.rows * b.rows, a.cols * b.cols, e);
    case (Matrix(_, _, _), Vector(bv)) =>
      var e := KronMatVec(ar, a, bv);
      TimesIsMul(a.rows, |bv|);
      r := Matrix(a.rows * |bv|, a.cols, e);
    case (Vector(av), Matrix(_, _, _)) =>
      var e := KronVecMat(ar, av, b);
      TimesIsMul(|av|, b.rows);
      r := Matrix(|av| * b.rows, b.cols, e);
    case (Vector(av), Vector(bv)) =>
      var e := KronVecVec(ar, av, bv);
      r := Vector(e);
  }

  /** Numpy's slice assignment `res[lo:lo + len(blk)] = blk`. */
  method AssignSlice<S>(res: array<S>, lo: nat, blk: seq<S>)
    requires lo + |blk| <= res.Length
    modifies res
    ensures forall x :: lo <= x < lo + |blk| ==> res[x] == blk[x - lo]
    ensures forall x :: 0 <= x < res.Length && !(lo <= x < lo + |blk|) ==> res[x] == old(res[x])
  {
    for r := 0 to |blk|
      invariant forall x :: 0 <= x < res.Length ==>
                  res[x] == if lo <= x < lo + r then blk[x - lo] else old(res[x])
    {
      res[lo + r] := blk[r];
    }
  }

  /** Numpy's slice assignment `res[lo:lo + len(blk), co:co + w] = blk`, w being the width of blk. */
  method AssignBlock<S>(res: array2<S>, lo: nat, co: nat, blk: seq<seq<S>>, w: nat)
    requires lo + |blk| <= res.Length0 && co + w <= res.Length1
    requires forall r :: 0 <= r < |blk| ==> |blk[r]| == w
    modifies res
    ensures forall x, y :: lo <= x < lo + |blk| && co <= y < co + w ==> res[x, y] == blk[x - lo][y - co]
    ensures forall x, y :: 0 <= x < res.Length0 && 0 <= y < res.Length1 && !(lo <= x < lo + |blk| && co <= y < co + w) ==>
              res[x, y] == old(res[x, y])
  {
    for r := 0 to |blk|
      invariant forall x, y :: 0 <= x < res.Length0 && 0 <= y < res.Length1 ==>
                  res[x, y] == if lo <= x < lo + r && co <= y < co + w then blk[x - lo][y - co] else old(res[x, y])
    {
      for s := 0 to w
        invariant forall x, y :: 0 <= x < res.Length0 && 0 <= y < res.Length1 ==>
                    res[x, y] == if (lo <= x < lo + r && co <= y < co + w) || (x == lo + r && co <= y < co + s)
                                 then blk[x - lo][y - co] else old(res[x, y])
      {
        res[lo + r, co + s] := blk[r][s];
      }
    }
  }

  /** `c * v` for a scalar c and a vector v. */
  function ScaleVec<S>(ar: Arith<S>, c: S, v: seq<S>): (r: seq<S>)
    ensures |r| == |v| && forall k :: 0 <= k < |v| ==> r[k] == ar.mul(c, v[k])
  {
    seq(|v|, k requires 0 <= k < |v| => ar.mul(c, v[k]))
  }

  /** `c * b` for a scalar c and a matrix b. */
  function ScaleMat<S>(ar: Arith<S>, c: S, b: NdArray<S>): (r: seq<seq<S>>)
    requires b.Matrix? && WellShaped(b)
    ensures |r| == b.rows
    ensures forall k :: 0 <= k < b.rows ==> |r[k]| == b.cols
    ensures forall k, l :: 0 <= k < b.rows && 0 <= l < b.cols ==> r[k][l] == ar.mul(c, b.entries[k][l])
  {
    seq(b.rows, k requires 0 <= k < b.rows => ScaleVec(ar, c, b.entries[k]))
  }

  /** A vector as a one-column matrix, the shape of a slice `res[lo:hi, j:(j+1)]`. */
  function AsColumn<S>(v: seq<S>): (c: seq<seq<S>>)
    ensures |c| == |v| && forall k :: 0 <= k < |v| ==> c[k] == [v[k]]
  {
    seq(|v|, k requires 0 <= k < |v| => [v[k]])
  }

  /** The contents of a 2-D array as a list of rows. */
  function Rows<S>(res: array2<S>): (r: seq<seq<S>>)
    reads res
    ensures |r| == res.Length0
    ensures forall x :: 0 <= x < res.Length0 ==> |r[x]| == res.Length1
    ensures forall x, y :: 0 <= x < res.Length0 && 0 <= y < res.Length1 ==> r[x][y] == res[x, y]
  {
    seq(res.Length0, x requires 0 <= x < res.Length0 reads res =>
      seq(res.Length1, y requires 0 <= y < res.Length1 reads res => res[x, y]))
  }

  /** Two lists of rows of the same shape with the same entries are equal. */
  lemma RowsExtensional<S>(r: seq<seq<S>>, k: seq<seq<S>>, w: nat)
    requires |r| == |k|
    requires forall x :: 0 <= x < |r| ==> |r[x]| == w && |k[x]| == w
    requires forall x, y :: 0 <= x < |r| && 0 <= y < w ==> r[x][y] == k[x][y]
    ensures r == k
  {
    forall x | 0 <= x < |r|
      ensures r[x] == k[x]
    {
      assert forall y :: 0 <= y < w ==> r[x][y] == k[x][y];
    }
  }

  /** The rows k have the shape of the 2-D array res. */
  ghost predicate SameShape<S>(res: array2<S>, k: seq<seq<S>>)
    reads res
  {
    |k| == res.Length0 && forall x :: 0 <= x < |k| ==> |k[x]| == res.Length1
  }

  /** res agrees with the rows k on the rectangle [x0, x1) x [y0, y1). */
  ghost predicate Agrees<S>(res: array2<S>, k: seq<seq<S>>, x0: int, x1: int, y0: int, y1: int)
    reads res
  {
    forall x, y ::
      x0 <= x < x1 && y0 <= y < y1 && 0 <= x < res.Length0 && 0 <= y < res.Length1 && x < |k| && y < |k[x]|
      ==> res[x, y] == k[x][y]
  }

  /** Two stacked rectangles on which res agrees with k make one. */
  lemma AgreesJoinRows<S>(res: array2<S>, k: seq<seq<S>>, x0: int, x1: int, x2: int, y0: int, y1: int)
    requires x0 <= x1 <= x2
    requires Agrees(res, k, x0, x1, y0, y1) && Agrees(res, k, x1, x2, y0, y1)
    ensures Agrees(res, k, x0, x2, y0, y1)
  {
  }

  /** Two side-by-side rectangles on which res agrees with k make one. */
  lemma AgreesJoinCols<S>(res: array2<S>, k: seq<seq<S>>, x0: int, x1: int, y0: int, y1: int, y2: int)
    requires y0 <= y1 <= y2
    requires Agrees(res, k, x0, x1, y0, y1) && Agrees(res, k, x0, x1, y1, y2)
    ensures Agrees(res, k, x0, x1, y0, y2)
  {
  }

  /** Block i of vector (x) vector, entries lo = i * p onwards, is a[i] * b. */
  lemma KronVVBlock<S>(ar: Arith<S>, a: seq<S>, b: seq<S>, i: nat, lo: nat)
    requires i < |a| && lo == Times(i, |b|)
    ensures lo + |b| <= Times(|a|, |b|)
    ensures forall r :: 0 <= r < |b| ==> KronVV(ar, a, b)[lo + r] == ScaleVec(ar, a[i], b)[r]
  {
    TimesMono(i + 1, |a|, |b|);
    forall r | 0 <= r < |b|
      ensures KronVV(ar, a, b)[lo + r] == ScaleVec(ar, a[i], b)[r]
    {
      BlockOfTimes(i, |b|, r);
    }
  }

  /** Block i of vector (x) matrix, rows lo = i * p onwards, is a[i] * b. */
  lemma KronVMBlock<S>(ar: Arith<S>, a: seq<S>, b: NdArray<S>, i: nat, lo: nat)
    requires b.Matrix? && WellShaped(b) && i < |a| && lo == Times(i, b.rows)
    ensures lo + b.rows <= Times(|a|, b.rows)
    ensures forall r, c :: 0 <= r < b.rows && 0 <= c < b.cols ==>
              KronVM(ar, a, b)[lo + r][c] == ScaleMat(ar, a[i], b)[r][c]
  {
    TimesMono(i + 1, |a|, b.rows);
    forall r, c | 0 <= r < b.rows && 0 <= c < b.cols
      ensures KronVM(ar, a, b)[lo + r][c] == ScaleMat(ar, a[i], b)[r][c]
    {
      BlockOfTimes(i, b.rows, r);
    }
  }

  /** Column j of block i of matrix (x) vector, rows lo = i * p onwards, is a[i][j] * b. */
  lemma KronMVBlock<S>(ar: Arith<S>, a: NdArray<S>, b: seq<S>, i: nat, j: nat, lo: nat)
    requires a.Matrix? && WellShaped(a) && i < a.rows && j < a.cols && lo == Times(i, |b|)
    ensures lo + |b| <= Times(a.rows, |b|)
    ensures forall r :: 0 <= r < |b| ==> KronMV(ar, a, b)[lo + r][j] == ScaleVec(ar, a.entries[i][j], b)[r]
  {
    TimesMono(i + 1, a.rows, |b|);
    forall r | 0 <= r < |b|
      ensures KronMV(ar, a, b)[lo + r][j] == ScaleVec(ar, a.entries[i][j], b)[r]
    {
      BlockOfTimes(i, |b|, r);
    }
  }

  /** Block (i, j) of matrix (x) matrix, at rows lo = i * p and columns co = j * q, is a[i][j] * b. */
  lemma KronMMBlock<S>(ar: Arith<S>, a: NdArray<S>, b: NdArray<S>, i: nat, j: nat, lo: nat, co: nat)
    requires a.Matrix? && b.Matrix? && WellShaped(a) && WellShaped(b) && i < a.rows && j < a.cols
    requires lo == Times(i, b.rows) && co == Times(j, b.cols)
    ensures lo + b.rows <= Times(a.rows, b.rows) && co + b.cols <= Times(a.cols, b.cols)
    ensures forall r, s :: 0 <= r < b.rows && 0 <= s < b.cols ==>
              KronMM(ar, a, b)[lo + r][co + s] == ScaleMat(ar, a.entries[i][j], b)[r][s]
  {
    TimesMono(i + 1, a.rows, b.rows);
    TimesMono(j + 1, a.cols, b.cols);
    forall r, s | 0 <= r < b.rows && 0 <= s < b.cols
      ensures KronMM(ar, a, b)[lo + r][co + s] == ScaleMat(ar, a.entries[i][j], b)[r][s]
    {
      BlockOfTimes(i, b.rows, r);
      BlockOfTimes(j, b.cols, s);
    }
  }

  /** `result[i*p:(i+1)*p] = a[i] * b` for each i. */
  method KronVecVec<S>(ar: Arith<S>, a: seq<S>, b: seq<S>) returns (r: seq<S>)
    ensures r == KronVV(ar, a, b)
  {
    var m, p := |a|, |b|;
    var res := new S[m * p](_ => ar.zero);
    TimesIsMul(m, p);
    ghost var K := KronVV(ar, a, b);
    var i, lo := 0, 0;
    while i < m
      invariant i <= m && lo == Times(i, p) && lo <= res.Length
      invariant forall x :: 0 <= x < lo ==> res[x] == K[x]
    {
      KronVVBlock(ar, a, b, i, lo);
      AssignSlice(res, lo, ScaleVec(ar, a[i], b));
      i, lo := i + 1, lo + p;
    }
    r := res[..];
  }

  /** `result[i*p:(i+1)*p, 0:q] = a[i] * b` for each i. */
  method KronVecMat<S>(ar: Arith<S>, a: seq<S>, b: NdArray<S>) returns (r: seq<seq<S>>)
    requires b.Matrix? && WellShaped(b)
    ensures r == KronVM(ar, a, b)
  {
    var m, p, q := |a|, b.rows, b.cols;
    var res := new S[m * p, q]((_, _) => ar.zero);
    TimesIsMul(m, p);
    ghost var K := KronVM(ar, a, b);
    var i, lo := 0, 0;
    while i < m
      invariant i <= m && lo == Times(i, p) && lo <= res.Length0
      invariant Agrees(res, K, 0, lo, 0, q)
    {
      TimesMono(i + 1, m, p);
      KronVecMatBlock(ar, a, b, res, i, lo, K);
      i, lo := i + 1, lo + p;
    }
    r := Rows(res);
    RowsExtensional(r, K, q);
  }

  /** One block row of `KronVecMat`: rows lo .. lo + p become a[i] * b. */
  method KronVecMatBlock<S>(ar: Arith<S>, a: seq<S>, b: NdArray<S>, res: array2<S>, i: nat, lo: nat,
                            ghost K: seq<seq<S>>)
    requires b.Matrix? && WellShaped(b) && i < |a| && lo == Times(i, b.rows)
    requires K == KronVM(ar, a, b) && res.Length1 == b.cols
    requires lo + b.rows <= res.Length0 && Agrees(res, K, 0, lo, 0, b.cols)
    modifies res
    ensures Agrees(res, K, 0, lo + b.rows, 0, b.cols)
  {
    var p, q := b.rows, b.cols;
    KronVMBlock(ar, a, b, i, lo);
    AssignBlock(res, lo, 0, ScaleMat(ar, a[i], b), q);
    assert Agrees(res, K, 0, lo, 0, q);
    assert Agrees(res, K, lo, lo + p, 0, q);
    AgreesJoinRows(res, K, 0, lo, lo + p, 0, q);
  }

  /**
   * `result[i*p:(i+1)*p, j:(j+1)] = a[i, j] * b`: the vector a[i, j] * b fills
   * column j of the block, one entry per row.
   */
  method KronMatVec<S>(ar: Arith<S>, a: NdArray<S>, b: seq<S>) returns (r: seq<seq<S>>)
    requires a.Matrix? && WellShaped(a)
    ensures r == KronMV(ar, a, b)
  {
    var m, n, p := a.rows, a.cols, |b|;
    var res := new S[m * p, n]((_, _) => ar.zero);
    TimesIsMul(m, p);
    ghost var K := KronMV(ar, a, b);
    var i, lo := 0, 0;
    while i < m
      invariant i <= m && lo == Times(i, p) && lo <= res.Length0
      invariant Agrees(res, K, 0, lo, 0, n)
    {
      TimesMono(i + 1, m, p);
      KronMatVecRow(ar, a, b, res, i, lo, K);
      i, lo := i + 1, lo + p;
    }
    r := Rows(res);
    RowsExtensional(r, K, n);
  }

  /** The inner loop of matrix (x) vector: the columns of block row i, which starts at row lo. */
  method KronMatVecRow<S>(ar: Arith<S>, a: NdArray<S>, b: seq<S>, res: array2<S>, i: nat, lo: nat,
                          ghost K: seq<seq<S>>)
    requires a.Matrix? && WellShaped(a) && i < a.rows && lo == Times(i, |b|)
    requires K == KronMV(ar, a, b) && res.Length1 == a.cols
    requires lo + |b| <= res.Length0 && Agrees(res, K, 0, lo, 0, a.cols)
    modifies res
    ensures Agrees(res, K, 0, lo + |b|, 0, a.cols)
  {
    var n, p := a.cols, |b|;
    for j := 0 to n
      invariant Agrees(res, K, 0, lo, 0, n)
      invariant Agrees(res, K, lo, lo + p, 0, j)
    {
      KronMVBlock(ar, a, b, i, j, lo);
      AssignBlock(res, lo, j, AsColumn(ScaleVec(ar, a.entries[i][j], b)), 1);
      assert Agrees(res, K, 0, lo, 0, n);
      assert Agrees(res, K, lo, lo + p, 0, j);
      assert Agrees(res, K, lo, lo + p, j, j + 1);
      AgreesJoinCols(res, K, lo, lo + p, 0, j, j + 1);
    }
    AgreesJoinRows(res, K, 0, lo, lo + p, 0, n);
  }

  /** `result[i*p:(i+1)*p, j*q:(j+1)*q] = a[i, j] * b` for each block (i, j). */
  method KronMatMat<S>(ar: Arith<S>, a: NdArray<S>, b: NdArray<S>) returns (r: seq<seq<S>>)
    requires a.Matrix? && b.Matrix? && WellShaped(a) && WellShaped(b)
    ensures r == KronMM(ar, a, b)
  {
    var m, n, p, q := a.rows, a.cols, b.rows, b.cols;
    var res := new S[m * p, n * q]((_, _) => ar.zero);
    TimesIsMul(m, p);
    TimesIsMul(n, q);
    ghost var K := KronMM(ar, a, b);
    var i, lo := 0, 0;
    while i < m
      invariant i <= m && lo == Times(i, p) && lo <= res.Length0
      invariant Agrees(res, K, 0, lo, 0, res.Length1)
    {
      TimesMono(i + 1, m, p);
      KronMatMatRow(ar, a, b, res, i, lo, K);
      i, lo := i + 1, lo + p;
    }
    r := Rows(res);
    RowsExtensional(r, K, res.Length1);
  }

  /** The inner loop of matrix (x) matrix: the blocks (i, 0), (i, 1), ... of block row i, which starts at row lo. */
  method KronMatMatRow<S>(ar: Arith<S>, a: NdArray<S>, b: NdArray<S>, res: array2<S>, i: nat, lo: nat,
                          ghost K: seq<seq<S>>)
    requires a.Matrix? && b.Matrix? && WellShaped(a) && WellShaped(b) && i < a.rows && lo == Times(i, b.rows)
    requires K == KronMM(ar, a, b) && res.Length1 == Times(a.cols, b.cols)
    requires lo + b.rows <= res.Length0 && Agrees(res, K, 0, lo, 0, res.Length1)
    modifies res
    ensures Agrees(res, K, 0, lo + b.rows, 0, res.Length1)
  {
    var n, p, q := a.cols, b.rows, b.cols;
    var j, co := 0, 0;
    while j < n
      invariant j <= n && co == Times(j, q) && co <= res.Length1
      invariant Agrees(res, K, 0, lo, 0, res.Length1)
      invariant Agrees(res, K, lo, lo + p, 0, co)
    {
      KronMMBlock(ar, a, b, i, j, lo, co);
      AssignBlock(res, lo, co, ScaleMat(ar, a.entries[i][j], b), q);
      assert Agrees(res, K, 0, lo, 0, res.Length1);
      assert Agrees(res, K, lo, lo + p, 0, co);
      assert Agrees(res, K, lo, lo + p, co, co + q);
      AgreesJoinCols(res, K, lo, lo + p, 0, co, co + q);
      j, co := j + 1, co + q;
    }
    AgreesJoinRows(res, K, 0, lo, lo + p, 0, res.Length1);
  }
}
