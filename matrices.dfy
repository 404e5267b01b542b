/** Two-dimensional grids as sequences of rows (the shape of a numpy
    2-D array), row-major flattening, and the view of an `array2` as such
    a grid. */
module Matrices {
  import opened Numerics

  /** m has exactly `rows` rows of `cols` entries each. */
  predicate IsMatrix<T>(m: seq<seq<T>>, rows: nat, cols: nat)
  {
    |m| == rows && forall i :: 0 <= i < rows ==> |m[i]| == cols
  }

  function Height<T>(m: seq<seq<T>>): nat
  {
    |m|
  }

  function Width<T>(m: seq<seq<T>>): nat
  {
    if |m| == 0 then 0 else |m[0]|
  }

  /** Every row has the width of the first (a numpy 2-D array). */
  predicate Rectangular<T>(m: seq<seq<T>>)
  {
    IsMatrix(m, Height(m), Width(m))
  }

  /** The entries in row-major order (numpy's `ravel`). */
  function Flatten<T>(m: seq<seq<T>>): seq<T>
  {
    if |m| == 0 then [] else m[0] + Flatten(m[1..])
  }

  lemma {:induction false} FlattenLength<T>(m: seq<seq<T>>, rows: nat, cols: nat)
    requires IsMatrix(m, rows, cols)
    ensures |Flatten(m)| == rows * cols
  {
    if rows > 0 {
      FlattenLength(m[1..], rows - 1, cols);
    }
  }

  /** Entry (i, j) sits at position i * cols + j of the flattening. */
  lemma {:induction false} FlattenAt<T>(m: seq<seq<T>>, rows: nat, cols: nat, i: nat, j: nat)
    requires IsMatrix(m, rows, cols) && i < rows && j < cols
    ensures i * cols + j < |Flatten(m)| && Flatten(m)[i * cols + j] == m[i][j]
  {
    FlattenLength(m, rows, cols);
    if i > 0 {
      FlattenAt(m[1..], rows - 1, cols, i - 1, j);
      FlattenLength(m[1..], rows - 1, cols);
      assert (i - 1) * cols + j + cols == i * cols + j;
    }
  }

  /** Every element of the flattening is an entry of the grid. */
  lemma {:induction false} FlattenMember<T>(m: seq<seq<T>>, x: T)
    requires x in Flatten(m)
    ensures exists i, j :: 0 <= i < |m| && 0 <= j < |m[i]| && m[i][j] == x
  {
    assert Flatten(m) == m[0] + Flatten(m[1..]);
    if x in m[0] {
      var j :| 0 <= j < |m[0]| && m[0][j] == x;
      assert m[0][j] == x;
    } else {
      FlattenMember(m[1..], x);
      var i, j :| 0 <= i < |m[1..]| && 0 <= j < |m[1..][i]| && m[1..][i][j] == x;
      assert m[i + 1][j] == x;
    }
  }

  /** Two grids of one shape with the same entries are the same grid. */
  lemma SameEntries<T>(a: seq<seq<T>>, b: seq<seq<T>>, rows: nat, cols: nat)
    requires IsMatrix(a, rows, cols) && IsMatrix(b, rows, cols)
    requires forall i, j :: 0 <= i < rows && 0 <= j < cols ==> a[i][j] == b[i][j]
    ensures a == b
  {
    forall i | 0 <= i < rows
      ensures a[i] == b[i]
    {
      assert forall j :: 0 <= j < cols ==> a[i][j] == b[i][j];
    }
  }

  /** The current contents of a 2-D array as a grid value. */
  function GridOf<T>(a: array2<T>): (g: seq<seq<T>>)
    reads a
    ensures IsMatrix(g, a.Length0, a.Length1)
    ensures forall i, j :: 0 <= i < a.Length0 && 0 <= j < a.Length1 ==> g[i][j] == a[i, j]
  {
    seq(a.Length0, i requires 0 <= i < a.Length0 reads a =>
      seq(a.Length1, j requires 0 <= j < a.Length1 reads a => a[i, j]))
  }

  /** Every entry shifted by c (numpy's `m + c`). */
  function AddConstant(m: seq<seq<real>>, c: real): (r: seq<seq<real>>)
    ensures |r| == |m| && forall i :: 0 <= i < |m| ==> |r[i]| == |m[i]|
  {
    seq(|m|, i requires 0 <= i < |m| => Shift(m[i], c))
  }

  lemma {:induction false} FlattenAddConstant(m: seq<seq<real>>, c: real)
    ensures Flatten(AddConstant(m, c)) == Shift(Flatten(m), c)
  {
    if |m| > 0 {
      assert AddConstant(m, c)[1..] == AddConstant(m[1..], c);
      FlattenAddConstant(m[1..], c);
    }
  }

  /** Every entry of m equals k. */
  predicate IsConstant(m: seq<seq<real>>, k: real)
  {
    forall i, j :: 0 <= i < |m| && 0 <= j < |m[i]| ==> m[i][j] == k
  }

  lemma {:induction false} FlattenOfConstant(m: seq<seq<real>>, k: real)
    requires IsConstant(m, k)
    ensures forall n :: 0 <= n < |Flatten(m)| ==> Flatten(m)[n] == k
  {
    if |m| > 0 {
      FlattenOfConstant(m[1..], k);
      assert IsConstant(m[1..], k) by {
        forall i, j | 0 <= i < |m[1..]| && 0 <= j < |m[1..][i]| ensures m[1..][i][j] == k {
          assert m[1..][i] == m[i + 1];
        }
      }
    }
  }
}
