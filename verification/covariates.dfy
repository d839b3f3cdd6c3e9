/**
 * The covariate builder `grid_and_fields_to_covariates`, defined identically in both
 * driver scripts: `np.moveaxis(a, 1, -1)` followed by `np.reshape(a, (-1, num_var))`.
 *
 * An n-dimensional array is a flat sequence in row-major (C) order together with its
 * shape. Axis 1 is the variable axis; every other axis is a grid axis. Write
 * d0 = shape[0], V = shape[1] and P for the product of shape[2..]. The input is then
 * d0 consecutive slabs, each a V-by-P row-major matrix; moving axis 1 to the end
 * transposes each slab into P rows of V entries, and the reshape stacks those rows.
 */
module Covariates {
  import opened Wrappers

  /** The two ways numpy rejects the call. */
  datatype CovariateError =
    | AxisOutOfBounds    // moveaxis: source axis 1 does not exist (fewer than two axes)
    | AmbiguousReshape   // reshape(-1, 0): the unknown dimension cannot be inferred

  /** Number of elements of an array of the given shape. */
  function Prod(shape: seq<nat>): nat
  {
    if |shape| == 0 then 1 else shape[0] * Prod(shape[1..])
  }

  /** A shape or multi-index with axis 1 removed: axis 0 first, then the remaining grid axes. */
  function WithoutAxis1<T>(s: seq<T>): (r: seq<T>)
    requires |s| >= 2
    ensures |r| == |s| - 1 && r[0] == s[0] && r[1..] == s[2..]
  {
    [s[0]] + s[2..]
  }

  /** idx is a valid multi-index into an array of this shape. */
  predicate InBounds(idx: seq<nat>, shape: seq<nat>)
  {
    |idx| == |shape| && forall i :: 0 <= i < |idx| ==> idx[i] < shape[i]
  }

  lemma MulSucc(a: nat, c: nat)
    ensures (a + 1) * c == a * c + c
  {
  }

  lemma MulStep(a: nat, b: nat, c: nat)
    requires a < b
    ensures a * c + c <= b * c
    decreases b - a
  {
    MulSucc(a, c);
    MulSucc(b - 1, c);
    if a + 1 < b {
      // (a + 1) * c + c <= b * c by recursion on the gap b - a
      MulStep(a + 1, b, c);
    }
  }

  lemma MulStepIf(a: nat, b: nat, c: nat)
    ensures a < b ==> a * c + c <= b * c
  {
    if a < b {
      MulStep(a, b, c);
    }
  }

  /** Position of the element at multi-index idx in the row-major flat sequence. */
  function RowMajor(idx: seq<nat>, shape: seq<nat>): (k: nat)
    requires |idx| == |shape|
    ensures InBounds(idx, shape) ==> k < Prod(shape)
  {
    if |idx| == 0 then 0
    else
      var rest := RowMajor(idx[1..], shape[1..]);
      MulStepIf(idx[0], shape[0], Prod(shape[1..]));
      idx[0] * Prod(shape[1..]) + rest
  }

  // ---------------------------------------------------------------------------
  // Sequence reshaping helpers

  /** s cut into n consecutive pieces of length w: the rows of an n-by-w row-major matrix. */
  function Blocks<T>(s: seq<T>, n: nat, w: nat): (m: seq<seq<T>>)
    requires |s| == n * w
    ensures |m| == n && forall i :: 0 <= i < n ==> |m[i]| == w
    decreases n
  {
    if n == 0 then []
    else
      MulSucc(n - 1, w);
      [s[..w]] + Blocks(s[w..], n - 1, w)
  }

  /** Concatenation of a sequence of sequences. */
  function Flatten<T>(ss: seq<seq<T>>): seq<T>
  {
    if |ss| == 0 then [] else ss[0] + Flatten(ss[1..])
  }

  predicate Uniform<T>(ss: seq<seq<T>>, w: nat)
  {
    forall i :: 0 <= i < |ss| ==> |ss[i]| == w
  }

  /** Matrix transpose: m has rows of length w; the result has w rows of length |m|. */
  function Transpose<T>(m: seq<seq<T>>, w: nat): (t: seq<seq<T>>)
    requires Uniform(m, w)
    ensures |t| == w && Uniform(t, |m|)
  {
    seq(w, c requires 0 <= c < w => seq(|m|, r requires 0 <= r < |m| => m[r][c]))
  }

  lemma {:induction false} BlocksAt<T>(s: seq<T>, n: nat, w: nat, i: nat, j: nat)
    requires |s| == n * w && i < n && j < w
    ensures i * w + j < |s| && Blocks(s, n, w)[i][j] == s[i * w + j]
    decreases i
  {
    MulSucc(n - 1, w);
    MulStep(i, n, w);
    var m := Blocks(s, n, w);
    if i == 0 {
      assert m[0] == s[..w];
    } else {
      MulSucc(i - 1, w);
      assert m[i] == Blocks(s[w..], n - 1, w)[i - 1];
      BlocksAt(s[w..], n - 1, w, i - 1, j);
      assert s[w..][(i - 1) * w + j] == s[i * w + j];
    }
  }

  lemma {:induction false} FlattenLength<T>(ss: seq<seq<T>>, w: nat)
    requires Uniform(ss, w)
    ensures |Flatten(ss)| == |ss| * w
  {
    if |ss| > 0 {
      FlattenLength(ss[1..], w);
      MulSucc(|ss| - 1, w);
    }
  }

  lemma {:induction false} FlattenAt<T>(ss: seq<seq<T>>, w: nat, i: nat, j: nat)
    requires Uniform(ss, w) && i < |ss| && j < w
    ensures |Flatten(ss)| == |ss| * w && i * w + j < |Flatten(ss)|
    ensures Flatten(ss)[i * w + j] == ss[i][j]
  {
    FlattenLength(ss, w);
    MulStep(i, |ss|, w);
    if i > 0 {
      var tail := ss[1..];
      MulSucc(i - 1, w);
      FlattenAt(tail, w, i - 1, j);
      assert Flatten(ss) == ss[0] + Flatten(tail);
      assert tail[i - 1] == ss[i];
    }
  }

  lemma {:induction false} FlattenBlocks<T>(s: seq<T>, n: nat, w: nat)
    requires |s| == n * w
    ensures Flatten(Blocks(s, n, w)) == s
    decreases n
  {
    if n > 0 {
      assert |s| == (n - 1) * w + w;
      FlattenBlocks(s[w..], n - 1, w);
      assert Blocks(s, n, w)[1..] == Blocks(s[w..], n - 1, w);
    }
  }

  lemma {:induction false} BlocksFlatten<T>(ss: seq<seq<T>>, w: nat)
    requires Uniform(ss, w)
    ensures |Flatten(ss)| == |ss| * w && Blocks(Flatten(ss), |ss|, w) == ss
  {
    FlattenLength(ss, w);
    if |ss| > 0 {
      BlocksFlatten(ss[1..], w);
      assert Flatten(ss)[..w] == ss[0];
      assert Flatten(ss)[w..] == Flatten(ss[1..]);
    }
  }

  lemma TransposeTwice<T>(m: seq<seq<T>>, w: nat)
    requires Uniform(m, w)
    ensures Transpose(Transpose(m, w), |m|) == m
  {
    var t := Transpose(Transpose(m, w), |m|);
    forall r | 0 <= r < |m| ensures t[r] == m[r] {
    }
  }

  // ---------------------------------------------------------------------------
  // The covariate builder and its inverse

  /** The slab-wise transpose and reshape: d0 slabs of a V-by-P matrix become d0 * P rows of V entries. */
  function MoveAndReshape<T>(data: seq<T>, d0: nat, v: nat, p: nat): (x: seq<seq<T>>)
    requires |data| == d0 * (v * p)
    ensures |x| == d0 * p && Uniform(x, v)
  {
    var slabs := Blocks(data, d0, v * p);
    var parts := seq(d0, i requires 0 <= i < d0 => Transpose(Blocks(slabs[i], v, p), p));
    FlattenLength(parts, p);
    var x := Flatten(parts);
    FlattenAllUniform(parts, p, v);
    x
  }

  lemma {:induction false} FlattenAllUniform<T>(parts: seq<seq<seq<T>>>, p: nat, v: nat)
    requires forall i :: 0 <= i < |parts| ==> |parts[i]| == p && Uniform(parts[i], v)
    ensures Uniform(Flatten(parts), v)
  {
    if |parts| > 0 {
      FlattenAllUniform(parts[1..], p, v);
    }
  }

  /**
   * grid_and_fields_to_covariates on an array of the given shape. Succeeds exactly
   * when the array has an axis 1 of non-zero length; the result then has V columns and
   * one row per combination of the other axes.
   */
  function ToCovariates<T>(data: seq<T>, shape: seq<nat>): (r: Result<seq<seq<T>>, CovariateError>)
    requires |data| == Prod(shape)
    ensures r.Success? <==> |shape| >= 2 && shape[1] > 0
    ensures |shape| < 2 ==> r == Failure(AxisOutOfBounds)
    ensures |shape| >= 2 && shape[1] == 0 ==> r == Failure(AmbiguousReshape)
    ensures r.Success? ==> |r.value| == Prod(WithoutAxis1(shape)) && Uniform(r.value, shape[1])
  {
    if |shape| < 2 then Failure(AxisOutOfBounds)
    else if shape[1] == 0 then Failure(AmbiguousReshape)
    else
      assert shape[1..][1..] == shape[2..];
      assert Prod(shape) == shape[0] * (shape[1] * Prod(shape[2..]));
      Success(MoveAndReshape(data, shape[0], shape[1], Prod(shape[2..])))
  }

  /** Rebuilds the flat input array from a design matrix, given the original shape. */
  function FromCovariates<T>(x: seq<seq<T>>, shape: seq<nat>): (data: seq<T>)
    requires |shape| >= 2
    requires |x| == Prod(WithoutAxis1(shape)) && Uniform(x, shape[1])
    ensures |data| == Prod(shape)
  {
    var d0, v, p := shape[0], shape[1], Prod(shape[2..]);
    var groups := Blocks(x, d0, p);
    var slabs := seq(d0, i requires 0 <= i < d0 =>
      assert Uniform(groups[i], v) by { BlocksRowsUniform(x, d0, p, v, i); }
      Flatten(Transpose(groups[i], v)));
    assert forall i :: 0 <= i < d0 ==> |slabs[i]| == v * p by {
      forall i | 0 <= i < d0 ensures |slabs[i]| == v * p {
        BlocksRowsUniform(x, d0, p, v, i);
        FlattenLength(Transpose(groups[i], v), p);
      }
    }
    FlattenLength(slabs, v * p);
    assert shape[1..][1..] == shape[2..];
    Flatten(slabs)
  }

  lemma BlocksRowsUniform<T>(x: seq<seq<T>>, n: nat, p: nat, v: nat, i: nat)
    requires |x| == n * p && Uniform(x, v) && i < n
    ensures Uniform(Blocks(x, n, p)[i], v)
  {
    forall j | 0 <= j < p ensures |Blocks(x, n, p)[i][j]| == v {
      BlocksAt(x, n, p, i, j);
    }
  }

  // ---------------------------------------------------------------------------
  // Properties

  lemma MoveAndReshapeAt<T>(data: seq<T>, d0: nat, v: nat, p: nat, i0: nat, c: nat, q: nat)
    requires |data| == d0 * (v * p) && i0 < d0 && c < v && q < p
    ensures i0 * p + q < d0 * p && c * p + q < v * p && i0 * (v * p) + (c * p + q) < |data|
    ensures MoveAndReshape(data, d0, v, p)[i0 * p + q][c] == data[i0 * (v * p) + (c * p + q)]
  {
    var slabs := Blocks(data, d0, v * p);
    var parts := seq(d0, i requires 0 <= i < d0 => Transpose(Blocks(slabs[i], v, p), p));
    MulStep(c, v, p);
    FlattenAt(parts, p, i0, q);
    BlocksAt(slabs[i0], v, p, c, q);
    BlocksAt(data, d0, v * p, i0, c * p + q);
  }

  /**
   * Element mapping: the entry at multi-index (i0, v, i2, ..., ik) of the input lands in
   * column v of the row whose index is the row-major position of (i0, i2, ..., ik) among
   * the remaining axes.
   */
  lemma CovariatesAt<T>(data: seq<T>, shape: seq<nat>, idx: seq<nat>)
    requires |data| == Prod(shape) && |shape| >= 2 && shape[1] > 0 && InBounds(idx, shape)
    ensures InBounds(WithoutAxis1(idx), WithoutAxis1(shape))
    ensures ToCovariates(data, shape).Success?
    ensures var x := ToCovariates(data, shape).value;
            var row := RowMajor(WithoutAxis1(idx), WithoutAxis1(shape));
            row < |x| && idx[1] < |x[row]| && x[row][idx[1]] == data[RowMajor(idx, shape)]
  {
    var d0, v, p := shape[0], shape[1], Prod(shape[2..]);
    var gidx, gshape := WithoutAxis1(idx), WithoutAxis1(shape);
    assert InBounds(gidx, gshape) by {
      forall i | 0 <= i < |gidx| ensures gidx[i] < gshape[i] {
        if i > 0 {
          assert gidx[i] == idx[i + 1] && gshape[i] == shape[i + 1];
        }
      }
    }
    var q := RowMajor(idx[2..], shape[2..]);
    RowMajorSplit(idx, shape);
    MoveAndReshapeAt(data, d0, v, p, idx[0], idx[1], q);
  }

  /** The row-major position of a multi-index, split at axes 0 and 1. */
  lemma RowMajorSplit(idx: seq<nat>, shape: seq<nat>)
    requires |shape| >= 2 && |idx| == |shape|
    ensures Prod(shape) == shape[0] * (shape[1] * Prod(shape[2..]))
    ensures RowMajor(idx, shape)
            == idx[0] * (shape[1] * Prod(shape[2..])) + (idx[1] * Prod(shape[2..]) + RowMajor(idx[2..], shape[2..]))
    ensures RowMajor(WithoutAxis1(idx), WithoutAxis1(shape))
            == idx[0] * Prod(shape[2..]) + RowMajor(idx[2..], shape[2..])
  {
    var tailShape, tailIdx := shape[1..], idx[1..];
    assert tailShape[1..] == shape[2..] && tailIdx[1..] == idx[2..];
    assert Prod(tailShape) == shape[1] * Prod(shape[2..]);
    assert RowMajor(tailIdx, tailShape) == idx[1] * Prod(shape[2..]) + RowMajor(idx[2..], shape[2..]);
    var gidx, gshape := WithoutAxis1(idx), WithoutAxis1(shape);
    assert gidx[1..] == idx[2..] && gshape[1..] == shape[2..];
  }

  /** The flattening loses nothing: the input is recovered from the design matrix and the shape. */
  lemma CovariatesRoundTrip<T>(data: seq<T>, shape: seq<nat>)
    requires |data| == Prod(shape) && |shape| >= 2 && shape[1] > 0
    ensures ToCovariates(data, shape).Success?
    ensures FromCovariates(ToCovariates(data, shape).value, shape) == data
  {
    var d0, v, p := shape[0], shape[1], Prod(shape[2..]);
    assert shape[1..][1..] == shape[2..];
    assert Prod(shape) == d0 * (v * p);
    var slabs := Blocks(data, d0, v * p);
    var parts := seq(d0, i requires 0 <= i < d0 => Transpose(Blocks(slabs[i], v, p), p));
    var x := Flatten(parts);
    assert ToCovariates(data, shape).value == x;
    BlocksFlatten(parts, p);
    var groups := Blocks(x, d0, p);
    assert groups == parts;
    var back := seq(d0, i requires 0 <= i < d0 => Flatten(Transpose(groups[i], v)));
    forall i | 0 <= i < d0 ensures back[i] == slabs[i] {
      TransposeTwice(Blocks(slabs[i], v, p), p);
      FlattenBlocks(slabs[i], v, p);
    }
    assert back == slabs;
    FlattenBlocks(data, d0, v * p);
  }

  /** Every well-shaped design matrix is the image of exactly the array FromCovariates rebuilds. */
  lemma CovariatesOfRebuilt<T>(x: seq<seq<T>>, shape: seq<nat>)
    requires |shape| >= 2 && shape[1] > 0
    requires |x| == Prod(WithoutAxis1(shape)) && Uniform(x, shape[1])
    ensures ToCovariates(FromCovariates(x, shape), shape) == Success(x)
  {
    var d0, v, p := shape[0], shape[1], Prod(shape[2..]);
    assert shape[1..][1..] == shape[2..];
    var groups := Blocks(x, d0, p);
    forall i | 0 <= i < d0 ensures Uniform(groups[i], v) {
      BlocksRowsUniform(x, d0, p, v, i);
    }
    var slabs := seq(d0, i requires 0 <= i < d0 => Flatten(Transpose(groups[i], v)));
    forall i | 0 <= i < d0 ensures |slabs[i]| == v * p {
      FlattenLength(Transpose(groups[i], v), p);
    }
    var data := Flatten(slabs);
    assert FromCovariates(x, shape) == data;
    BlocksFlatten(slabs, v * p);
    var slabs' := Blocks(data, d0, v * p);
    assert slabs' == slabs;
    var parts := seq(d0, i requires 0 <= i < d0 => Transpose(Blocks(slabs'[i], v, p), p));
    forall i | 0 <= i < d0 ensures parts[i] == groups[i] {
      BlocksFlatten(Transpose(groups[i], v), p);
      TransposeTwice(groups[i], v);
    }
    assert parts == groups;
    FlattenBlocks(x, d0, p);
    assert Prod(shape) == d0 * (v * p);
    assert ToCovariates(data, shape) == Success(Flatten(parts));
  }

  /** Distinct multi-indices have distinct row-major positions. */
  lemma {:induction false} RowMajorInjective(a: seq<nat>, b: seq<nat>, shape: seq<nat>)
    requires InBounds(a, shape) && InBounds(b, shape)
    requires RowMajor(a, shape) == RowMajor(b, shape)
    ensures a == b
  {
    if |shape| > 0 {
      var w := Prod(shape[1..]);
      var ra, rb := RowMajor(a[1..], shape[1..]), RowMajor(b[1..], shape[1..]);
      if a[0] < b[0] {
        MulStep(a[0], b[0], w);
        assert false;
      } else if b[0] < a[0] {
        MulStep(b[0], a[0], w);
        assert false;
      }
      RowMajorInjective(a[1..], b[1..], shape[1..]);
      assert a == [a[0]] + a[1..] && b == [b[0]] + b[1..];
    }
  }

  /**
   * Each input element occupies its own cell of the design matrix: two in-bounds
   * multi-indices that land on the same (row, column) pair are the same multi-index.
   */
  lemma CovariateCellsDistinct(shape: seq<nat>, a: seq<nat>, b: seq<nat>)
    requires |shape| >= 2 && InBounds(a, shape) && InBounds(b, shape)
    requires RowMajor(WithoutAxis1(a), WithoutAxis1(shape)) == RowMajor(WithoutAxis1(b), WithoutAxis1(shape))
    requires a[1] == b[1]
    ensures a == b
  {
    var ga, gb, gs := WithoutAxis1(a), WithoutAxis1(b), WithoutAxis1(shape);
    forall i | 0 <= i < |gs| ensures ga[i] < gs[i] && gb[i] < gs[i] {
      if i > 0 {
        assert ga[i] == a[i + 1] && gb[i] == b[i + 1] && gs[i] == shape[i + 1];
      }
    }
    assert a == [ga[0]] + [a[1]] + ga[1..];
    assert b == [gb[0]] + [b[1]] + gb[1..];
    RowMajorInjective(ga, gb, gs);
  }
}
