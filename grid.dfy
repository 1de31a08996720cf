/**
 * Flat buffers that hold a grid row by row, or equally sized blocks one
 * after another. The mesh builders fill such buffers with nested counting
 * loops; the definitions here are the specification those loops meet, and
 * the lemmas turn a (row, column, component) position into a flat offset.
 */
module Grid {

  /** The first `k` cells of a row-major walk over a grid with `cols` columns: cell t is f(t / cols, t % cols). */
  function Prefix<T>(k: nat, cols: nat, f: (nat, nat) -> T): (r: seq<T>)
    requires cols > 0
    ensures |r| == k
  {
    seq(k, t requires 0 <= t < k => f(t / cols, t % cols))
  }

  /** Cell t of the walk is f(t / cols, t % cols). */
  lemma {:induction false} PrefixAt<T>(k: nat, cols: nat, f: (nat, nat) -> T, t: nat)
    requires cols > 0 && t < k
    ensures Prefix(k, cols, f)[t] == f(t / cols, t % cols)
  {
    if t < k - 1 {
      PrefixAt(k - 1, cols, f, t);
    }
  }

  /** All cells of a `rows` x `cols` grid in row-major order. */
  function RowMajor<T>(rows: nat, cols: nat, f: (nat, nat) -> T): seq<T>
    requires cols > 0
  {
    Prefix(rows * cols, cols, f)
  }

  /** The blocks of `ss`, one after another. */
  function Concat<T>(ss: seq<seq<T>>): seq<T>
  {
    if ss == [] then [] else Concat(ss[..|ss| - 1]) + ss[|ss| - 1]
  }

  /** Every block of `ss` has length `b`. */
  ghost predicate Uniform<T>(ss: seq<seq<T>>, b: nat)
  {
    forall k :: 0 <= k < |ss| ==> |ss[k]| == b
  }

  /** The `k`-th block of length `b` of a flat buffer. */
  function Block<T>(s: seq<T>, b: nat, k: nat): seq<T>
    requires b * k + b <= |s|
  {
    s[b * k .. b * k + b]
  }

  /** The first two numbers of a block of three are not its third. */
  lemma ThreeBlock(c: nat)
    ensures (3 * c) % 3 == 0 && (3 * c + 1) % 3 == 1
  {
  }

  /** One more row of `b` cells. */
  lemma MulSucc(a: nat, b: nat)
    ensures a * b + b == (a + 1) * b
  {
  }

  lemma MulAtLeast(a: nat, b: nat)
    requires a >= 1
    ensures a * b >= b
  {
    if a > 1 {
      MulAtLeast(a - 1, b);
    }
  }

  lemma MulMonotone(a: nat, a': nat, b: nat)
    requires a <= a'
    ensures a * b <= a' * b
  {
    if a < a' {
      MulAtLeast(a' - a, b);
      assert a' * b == a * b + (a' - a) * b;
    }
  }

  /** The flat index of cell (i, j) determines the cell: division and remainder by the row width give it back. */
  lemma {:induction false} DivModCell(i: nat, j: nat, cols: nat)
    requires j < cols
    ensures (i * cols + j) / cols == i && (i * cols + j) % cols == j
  {
    var n := i * cols + j;
    var q, r := n / cols, n % cols;
    assert q * cols + r == n;
    assert (q - i) * cols == j - r;
    if q > i {
      MulAtLeast(q - i, cols);
      assert false;
    } else if q < i {
      MulAtLeast(i - q, cols);
      assert false;
    }
  }

  /** Cell (i, j) of a `rows` x `cols` grid sits at flat index i * cols + j, inside the grid. */
  lemma {:induction false} CellIndexBelow(i: nat, j: nat, rows: nat, cols: nat)
    requires i < rows && j < cols
    ensures i * cols + j < rows * cols
  {
    MulMonotone(i + 1, rows, cols);
    assert (i + 1) * cols == i * cols + cols;
  }

  /** Cell (i, j) of the row-major walk is f(i, j). */
  lemma {:induction false} RowMajorAt<T>(rows: nat, cols: nat, f: (nat, nat) -> T, i: nat, j: nat)
    requires i < rows && j < cols
    ensures i * cols + j < |RowMajor(rows, cols, f)|
    ensures RowMajor(rows, cols, f)[i * cols + j] == f(i, j)
  {
    CellIndexBelow(i, j, rows, cols);
    DivModCell(i, j, cols);
    PrefixAt(rows * cols, cols, f, i * cols + j);
  }

  /** Visiting cell (i, j) next extends the walk's prefix by f(i, j). */
  lemma {:induction false} PrefixStep<T>(k: nat, cols: nat, f: (nat, nat) -> T, i: nat, j: nat)
    requires j < cols && k == i * cols + j
    ensures Prefix(k + 1, cols, f) == Prefix(k, cols, f) + [f(i, j)]
  {
    DivModCell(i, j, cols);
  }

  lemma ConcatSnoc<T>(ss: seq<seq<T>>, s: seq<T>)
    ensures Concat(ss + [s]) == Concat(ss) + s
  {
    assert (ss + [s])[..|ss|] == ss;
  }

  /** Visiting cell (i, j) next appends the block f(i, j) to the flattened prefix. */
  lemma {:induction false} ConcatPrefixStep<T>(k: nat, cols: nat, f: (nat, nat) -> seq<T>, i: nat, j: nat)
    requires j < cols && k == i * cols + j
    ensures Concat(Prefix(k + 1, cols, f)) == Concat(Prefix(k, cols, f)) + f(i, j)
  {
    PrefixStep(k, cols, f, i, j);
    ConcatSnoc(Prefix(k, cols, f), f(i, j));
  }

  lemma {:induction false} ConcatAppend<T>(xs: seq<seq<T>>, ys: seq<seq<T>>)
    ensures Concat(xs + ys) == Concat(xs) + Concat(ys)
    decreases |ys|
  {
    if ys == [] {
      assert xs + ys == xs;
    } else {
      var n := |ys| - 1;
      assert xs + ys == (xs + ys[..n]) + [ys[n]];
      assert ys == ys[..n] + [ys[n]];
      ConcatSnoc(xs + ys[..n], ys[n]);
      ConcatAppend(xs, ys[..n]);
      ConcatSnoc(ys[..n], ys[n]);
    }
  }

  /** Blocks of length `b` flatten to `b` values per block. */
  lemma {:induction false} ConcatLength<T>(ss: seq<seq<T>>, b: nat)
    requires Uniform(ss, b)
    ensures |Concat(ss)| == b * |ss|
  {
    if ss != [] {
      var n := |ss| - 1;
      assert Uniform(ss[..n], b) by {
        forall k | 0 <= k < n ensures |ss[..n][k]| == b {
          assert ss[..n][k] == ss[k];
        }
      }
      ConcatLength(ss[..n], b);
      assert |ss[n]| == b;
      assert b * n + b == b * |ss|;
    }
  }

  /** Component `c` of block `k` lands at flat offset b * k + c. */
  lemma {:induction false} ConcatAt<T>(ss: seq<seq<T>>, b: nat, k: nat, c: nat)
    requires Uniform(ss, b) && k < |ss| && c < b
    ensures b * k + c < |Concat(ss)|
    ensures Concat(ss)[b * k + c] == ss[k][c]
  {
    var n := |ss| - 1;
    assert Uniform(ss[..n], b) by {
      forall t | 0 <= t < n ensures |ss[..n][t]| == b {
        assert ss[..n][t] == ss[t];
      }
    }
    ConcatLength(ss, b);
    ConcatLength(ss[..n], b);
    if k < n {
      ConcatAt(ss[..n], b, k, c);
    } else {
      assert b * k == b * n;
    }
  }

  /** Block `k` of the flattened buffer is the `k`-th block. */
  lemma {:induction false} ConcatBlock<T>(ss: seq<seq<T>>, b: nat, k: nat)
    requires Uniform(ss, b) && k < |ss|
    ensures b * k + b <= |Concat(ss)|
    ensures Block(Concat(ss), b, k) == ss[k]
  {
    ConcatLength(ss, b);
    MulMonotone(k + 1, |ss|, b);
    assert b * (k + 1) == b * k + b;
    forall c | 0 <= c < b
      ensures Block(Concat(ss), b, k)[c] == ss[k][c]
    {
      ConcatAt(ss, b, k, c);
    }
  }

  /** A value of the flattened buffer comes from one of the blocks. */
  lemma {:induction false} ConcatMember<T>(ss: seq<seq<T>>, x: T)
    requires x in Concat(ss)
    ensures exists k :: 0 <= k < |ss| && x in ss[k]
  {
    var n := |ss| - 1;
    if x !in ss[n] {
      ConcatMember(ss[..n], x);
      var k :| 0 <= k < n && x in ss[..n][k];
      assert x in ss[k];
    }
  }

  /** A flat index below rows * cols decomposes into a row below `rows` and a column below `cols`. */
  lemma {:induction false} CellOf(k: nat, rows: nat, cols: nat)
    requires cols > 0 && k < rows * cols
    ensures 0 <= k / cols < rows && k % cols < cols
  {
    if k / cols >= rows {
      MulMonotone(rows, k / cols, cols);
      assert false;
    }
  }

  /** Blocks that all have length `b` make a uniform row-major walk. */
  lemma RowMajorUniform<T>(rows: nat, cols: nat, f: (nat, nat) -> seq<T>, b: nat)
    requires cols > 0
    requires forall i: nat, j: nat :: |f(i, j)| == b
    ensures Uniform(RowMajor(rows, cols, f), b)
  {
    forall k | 0 <= k < rows * cols
      ensures |RowMajor(rows, cols, f)[k]| == b
    {
      CellOf(k, rows, cols);
      PrefixAt(rows * cols, cols, f, k);
    }
  }

  /** Block i cols + j of a flattened row-major walk of equal-length blocks is the block of cell (i, j). */
  lemma {:induction false} ConcatRowMajorBlock<T>(rows: nat, cols: nat, f: (nat, nat) -> seq<T>, b: nat, i: nat, j: nat)
    requires i < rows && j < cols
    requires forall i: nat, j: nat :: |f(i, j)| == b
    ensures b * (i * cols + j) + b <= |Concat(RowMajor(rows, cols, f))|
    ensures Block(Concat(RowMajor(rows, cols, f)), b, i * cols + j) == f(i, j)
  {
    RowMajorUniform(rows, cols, f, b);
    RowMajorAt(rows, cols, f, i, j);
    ConcatBlock(RowMajor(rows, cols, f), b, i * cols + j);
  }

  /** A value of a flattened row-major walk comes from the block of some cell inside the grid. */
  lemma {:induction false} ConcatRowMajorMember<T>(rows: nat, cols: nat, f: (nat, nat) -> seq<T>, x: T)
    requires cols > 0 && x in Concat(RowMajor(rows, cols, f))
    ensures exists i: nat, j: nat :: i < rows && j < cols && x in f(i, j)
  {
    var ss := RowMajor(rows, cols, f);
    ConcatMember(ss, x);
    var k :| 0 <= k < |ss| && x in ss[k];
    CellOf(k, rows, cols);
    var i, j := k / cols, k % cols;
    PrefixAt(rows * cols, cols, f, k);
    assert i < rows && j < cols && x in f(i, j);
  }

  /** Component `c` of the block of cell (i, j) lands at flat offset b(i * cols + j) + c of the flattened walk. */
  lemma {:induction false} ConcatRowMajorAt<T>(rows: nat, cols: nat, f: (nat, nat) -> seq<T>, b: nat, i: nat, j: nat, c: nat)
    requires forall i: nat, j: nat :: |f(i, j)| == b
    requires i < rows && j < cols && c < b
    ensures b * (i * cols + j) + c < |Concat(RowMajor(rows, cols, f))|
    ensures Concat(RowMajor(rows, cols, f))[b * (i * cols + j) + c] == f(i, j)[c]
  {
    RowMajorUniform(rows, cols, f, b);
    RowMajorAt(rows, cols, f, i, j);
    ConcatAt(RowMajor(rows, cols, f), b, i * cols + j, c);
  }

  /** A property that holds of every value of every cell's block holds of every value of the flattened walk. */
  lemma {:induction false} ConcatRowMajorAll<T>(rows: nat, cols: nat, f: (nat, nat) -> seq<T>, P: T -> bool)
    requires cols > 0
    requires forall i: nat, j: nat, x :: i < rows && j < cols && x in f(i, j) ==> P(x)
    ensures forall x :: x in Concat(RowMajor(rows, cols, f)) ==> P(x)
  {
    forall x | x in Concat(RowMajor(rows, cols, f))
      ensures P(x)
    {
      ConcatRowMajorMember(rows, cols, f, x);
    }
  }

  /** A buffer holding `base` then the first k cells' blocks grows to the first k + 1 cells' blocks when cell (i, j), the k-th, is appended. */
  lemma {:induction false} AppendCell<T>(base: seq<T>, before: seq<T>, k: nat, cols: nat, f: (nat, nat) -> seq<T>, i: nat, j: nat)
    requires j < cols && k == i * cols + j
    requires before == base + Concat(Prefix(k, cols, f))
    ensures before + f(i, j) == base + Concat(Prefix(k + 1, cols, f))
  {
    ConcatPrefixStep(k, cols, f, i, j);
    assert (base + Concat(Prefix(k, cols, f))) + f(i, j) == base + (Concat(Prefix(k, cols, f)) + f(i, j));
  }

  /** Component `c` of the block of the k-th cell lands at flat offset b * k + c of the flattened walk. */
  lemma {:induction false} ConcatRowMajorFlat<T>(rows: nat, cols: nat, f: (nat, nat) -> seq<T>, b: nat, k: nat, c: nat)
    requires cols > 0 && forall i: nat, j: nat :: |f(i, j)| == b
    requires k < rows * cols && c < b
    ensures b * k + c < |Concat(RowMajor(rows, cols, f))|
    ensures Concat(RowMajor(rows, cols, f))[b * k + c] == f(k / cols, k % cols)[c]
  {
    RowMajorUniform(rows, cols, f, b);
    ConcatAt(RowMajor(rows, cols, f), b, k, c);
    PrefixAt(rows * cols, cols, f, k);
  }

  /** When component `c` of every block is `v`, the flattened walk holds `v` at component `c` of every cell. */
  lemma {:induction false} ConcatRowMajorComponent<T>(rows: nat, cols: nat, f: (nat, nat) -> seq<T>, b: nat, c: nat, v: T, k: nat)
    requires cols > 0 && c < b && k < rows * cols
    requires forall i: nat, j: nat :: |f(i, j)| == b && f(i, j)[c] == v
    ensures b * k + c < |Concat(RowMajor(rows, cols, f))|
    ensures Concat(RowMajor(rows, cols, f))[b * k + c] == v
  {
    ConcatRowMajorFlat(rows, cols, f, b, k, c);
    CellOf(k, rows, cols);
    var i, j := k / cols, k % cols;
    assert f(i, j)[c] == v;
  }
}
