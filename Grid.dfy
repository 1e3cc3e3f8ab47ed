/**
 * Row-major concatenation of per-point blocks, the shape of a buffer that a
 * pair of nested loops `for z { for x { push block(x, z) } }` fills. The
 * block function is a parameter, so the layout facts below hold for the
 * vertex buffer and for the index buffer alike.
 */
module Grid {

  /** Blocks f(0, z), ..., f(n - 1, z) of row z, in order. */
  function Row<T>(f: (int, int) -> seq<T>, z: int, n: nat): seq<T>
  {
    if n == 0 then [] else Row(f, z, n - 1) + f(n - 1, z)
  }

  /** Rows 0, ..., m - 1, each made of the blocks of its first `width` points. */
  function Rows<T>(f: (int, int) -> seq<T>, width: nat, m: nat): seq<T>
  {
    if m == 0 then [] else Rows(f, width, m - 1) + Row(f, m - 1, width)
  }

  /** Pushing block n of row z onto a buffer holding the row so far extends it to n + 1 blocks. */
  lemma AppendBlock<T>(f: (int, int) -> seq<T>, buffer: seq<T>, z: int, n: nat)
    ensures buffer + Row(f, z, n) + f(n, z) == buffer + Row(f, z, n + 1)
  {
    assert Row(f, z, n + 1) == Row(f, z, n) + f(n, z);
  }

  /** Pushing row m onto a buffer holding rows 0, ..., m - 1 extends it to m + 1 rows. */
  lemma AppendRow<T>(f: (int, int) -> seq<T>, buffer: seq<T>, width: nat, m: nat)
    ensures buffer + Rows(f, width, m) + Row(f, m, width) == buffer + Rows(f, width, m + 1)
  {
    assert Rows(f, width, m + 1) == Rows(f, width, m) + Row(f, m, width);
  }

  /** A row of n blocks of k items each holds k * n items. */
  lemma {:induction false} RowLength<T>(f: (int, int) -> seq<T>, z: int, n: nat, k: nat)
    requires forall x :: 0 <= x < n ==> |f(x, z)| == k
    ensures |Row(f, z, n)| == k * n
  {
    if n > 0 {
      RowLength(f, z, n - 1, k);
    }
  }

  /** When the blocks up to x hold k items each, block x of the row starts at k * x. */
  lemma {:induction false} RowAt<T>(f: (int, int) -> seq<T>, z: int, n: nat, k: nat, x: int)
    requires 0 <= x < n
    requires forall i :: 0 <= i <= x ==> |f(i, z)| == k
    ensures k * x + k <= |Row(f, z, n)|
    ensures Row(f, z, n)[k * x .. k * x + k] == f(x, z)
  {
    var prev := Row(f, z, n - 1);
    if x < n - 1 {
      RowAt(f, z, n - 1, k, x);
      SliceOfLeft(prev, f(n - 1, z), k * x, k);
    } else {
      RowLength(f, z, x, k);
      SliceOfRight(prev, f(n - 1, z), 0, k);
    }
  }

  /** m rows of `rowLength` items each hold rowLength * m items. */
  lemma {:induction false} RowsLength<T>(f: (int, int) -> seq<T>, width: nat, m: nat, rowLength: nat)
    requires forall z :: 0 <= z < m ==> |Row(f, z, width)| == rowLength
    ensures |Rows(f, width, m)| == rowLength * m
  {
    if m > 0 {
      RowsLength(f, width, m - 1, rowLength);
    }
  }

  /** Row z starts right after the rows before it. */
  lemma {:induction false} RowsAt<T>(f: (int, int) -> seq<T>, width: nat, m: nat, z: nat, i: int, len: nat)
    requires z < m
    requires 0 <= i && i + len <= |Row(f, z, width)|
    ensures |Rows(f, width, z)| + i + len <= |Rows(f, width, m)|
    ensures Rows(f, width, m)[|Rows(f, width, z)| + i .. |Rows(f, width, z)| + i + len] == Row(f, z, width)[i .. i + len]
  {
    var prev, last := Rows(f, width, m - 1), Row(f, m - 1, width);
    assert Rows(f, width, m) == prev + last;
    if z < m - 1 {
      RowsAt(f, width, m - 1, z, i, len);
      SliceOfLeft(prev, last, |Rows(f, width, z)| + i, len);
    } else {
      SliceOfRight(prev, last, i, len);
    }
  }

  /**
   * When, in each of the first `rows` rows, the first `cols` blocks hold k
   * items each and the remaining blocks are empty, block (x, z) of that part
   * starts at k * (z * cols + x).
   */
  lemma GridAt<T>(f: (int, int) -> seq<T>, width: nat, m: nat, cols: nat, rows: nat, k: nat, x: int, z: int)
    requires cols <= width && rows <= m
    requires 0 <= x < cols && 0 <= z < rows
    requires forall i, j :: 0 <= i < width && 0 <= j < rows ==> |f(i, j)| == if i < cols then k else 0
    ensures 0 <= k * (z * cols + x) && k * (z * cols + x) + k <= |Rows(f, width, m)|
    ensures Rows(f, width, m)[k * (z * cols + x) .. k * (z * cols + x) + k] == f(x, z)
  {
    PaddedRowsLength(f, width, rows, cols, k, z);
    RowAt(f, z, width, k, x);
    RowsAt(f, width, m, z, k * x, k);
    BlockOffset(k, cols, x, z);
  }

  /** The first z of those rows hold k * cols items each, so k * cols * z in all. */
  lemma PaddedRowsLength<T>(f: (int, int) -> seq<T>, width: nat, rows: nat, cols: nat, k: nat, z: nat)
    requires cols <= width && z <= rows
    requires forall i, j :: 0 <= i < width && 0 <= j < rows ==> |f(i, j)| == if i < cols then k else 0
    ensures |Rows(f, width, z)| == k * cols * z
  {
    forall j | 0 <= j < z
      ensures |Row(f, j, width)| == k * cols
    {
      PaddedRowLength(f, j, width, cols, k);
    }
    RowsLength(f, width, z, k * cols);
  }

  /** A row whose first `cols` blocks hold k items each and whose other blocks are empty holds k * cols items. */
  lemma {:induction false} PaddedRowLength<T>(f: (int, int) -> seq<T>, z: int, n: nat, cols: nat, k: nat)
    requires cols <= n
    requires forall i :: 0 <= i < n ==> |f(i, z)| == if i < cols then k else 0
    ensures |Row(f, z, n)| == k * cols
  {
    if n > cols {
      PaddedRowLength(f, z, n - 1, cols, k);
    } else {
      RowLength(f, z, n, k);
    }
  }

  /** Block x of row z, with k items per block and `width` blocks per row, starts at k * (z * width + x). */
  lemma BlockOffset(k: nat, width: nat, x: nat, z: nat)
    ensures 0 <= k * (z * width + x) == k * width * z + k * x
  {
    assert k * (z * width) == k * width * z;
  }

  /** Every item of every block satisfies `p`, so every item of the rows does. */
  lemma {:induction false} RowsAll<T>(f: (int, int) -> seq<T>, width: nat, m: nat, p: T -> bool)
    requires forall x, z, k :: 0 <= x < width && 0 <= z < m && 0 <= k < |f(x, z)| ==> p(f(x, z)[k])
    ensures forall k :: 0 <= k < |Rows(f, width, m)| ==> p(Rows(f, width, m)[k])
  {
    if m > 0 {
      RowsAll(f, width, m - 1, p);
      RowAll(f, m - 1, width, p);
      var prev, last := Rows(f, width, m - 1), Row(f, m - 1, width);
      forall k | 0 <= k < |prev + last|
        ensures p((prev + last)[k])
      {
        if k >= |prev| {
          assert (prev + last)[k] == last[k - |prev|];
        }
      }
    }
  }

  lemma {:induction false} RowAll<T>(f: (int, int) -> seq<T>, z: int, n: nat, p: T -> bool)
    requires forall x, k :: 0 <= x < n && 0 <= k < |f(x, z)| ==> p(f(x, z)[k])
    ensures forall k :: 0 <= k < |Row(f, z, n)| ==> p(Row(f, z, n)[k])
  {
    if n > 0 {
      RowAll(f, z, n - 1, p);
      var prev, last := Row(f, z, n - 1), f(n - 1, z);
      forall k | 0 <= k < |prev + last|
        ensures p((prev + last)[k])
      {
        if k >= |prev| {
          assert (prev + last)[k] == last[k - |prev|];
        }
      }
    }
  }

  /** A slice that lies inside the left operand of a concatenation. */
  lemma SliceOfLeft<T>(a: seq<T>, b: seq<T>, i: int, n: nat)
    requires 0 <= i && i + n <= |a|
    ensures (a + b)[i .. i + n] == a[i .. i + n]
  {
  }

  /** A slice that lies inside the right operand of a concatenation. */
  lemma SliceOfRight<T>(a: seq<T>, b: seq<T>, i: int, n: nat)
    requires 0 <= i && i + n <= |b|
    ensures (a + b)[|a| + i .. |a| + i + n] == b[i .. i + n]
  {
  }
}
