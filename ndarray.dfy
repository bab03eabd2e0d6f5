/**
 * The slice of numpy / jax.numpy array semantics the orchestrator relies on:
 * shapes, squeezing, reshaping, selecting rows along axis 0, lifting a vector
 * to a column and stacking blocks side by side along axis 1.
 *
 * An array is its shape and its elements in row-major order; "row i" is the
 * sub-array at index i of axis 0, i.e. `Stride` consecutive elements.
 */
module NdArrays {
  import opened Wrappers

  datatype NdArray = NdArray(shape: seq<nat>, data: seq<real>)

  /** Number of elements of an array of this shape (1 for a 0-d array). */
  function Size(shape: seq<nat>): nat
  {
    if shape == [] then 1 else shape[0] * Size(shape[1..])
  }

  /** The elements fill the shape exactly. */
  predicate Valid(a: NdArray)
  {
    |a.data| == Size(a.shape)
  }

  function Rank(a: NdArray): nat
  {
    |a.shape|
  }

  /** A 0-d array holding one number (a Python scalar stored in a data dictionary). */
  function Scalar(x: real): (r: NdArray)
    ensures Valid(r) && Rank(r) == 0 && r.data == [x]
  {
    NdArray([], [x])
  }

  // ---------------------------------------------------------------- squeeze

  /** The shape with every axis of length one removed, as `ndarray.squeeze()`. */
  function SqueezeShape(s: seq<nat>): (r: seq<nat>)
    ensures |r| <= |s|
    ensures forall i :: 0 <= i < |r| ==> r[i] != 1
    ensures forall i :: 0 <= i < |r| ==> r[i] in s
  {
    if s == [] then []
    else if s[0] == 1 then SqueezeShape(s[1..])
    else [s[0]] + SqueezeShape(s[1..])
  }

  lemma {:induction false} SqueezeShapeSize(s: seq<nat>)
    ensures Size(SqueezeShape(s)) == Size(s)
  {
    if s != [] {
      SqueezeShapeSize(s[1..]);
      if s[0] != 1 {
        assert ([s[0]] + SqueezeShape(s[1..]))[1..] == SqueezeShape(s[1..]);
      }
    }
  }

  /** Appending a trailing axis of length one does not change the squeezed shape. */
  lemma {:induction false} SqueezeTrailingOne(s: seq<nat>)
    ensures SqueezeShape(s + [1]) == SqueezeShape(s)
  {
    if s == [] {
      assert SqueezeShape([1]) == SqueezeShape([1][1..]);
    } else {
      assert (s + [1])[1..] == s[1..] + [1];
      SqueezeTrailingOne(s[1..]);
    }
  }

  /** `a.squeeze()`: same elements, no axis of length one, still a valid array. */
  function Squeeze(a: NdArray): (r: NdArray)
    ensures Valid(a) ==> Valid(r)
    ensures r.data == a.data
    ensures forall i :: 0 <= i < Rank(r) ==> r.shape[i] != 1
  {
    SqueezeShapeSize(a.shape);
    NdArray(SqueezeShape(a.shape), a.data)
  }

  // ---------------------------------------------------------------- reshape

  /** `a.reshape(shape)`: fails with ValueError unless the sizes agree. */
  function Reshape(a: NdArray, shape: seq<nat>): (r: Result<NdArray>)
    ensures r.Success? <==> Size(shape) == |a.data|
    ensures r.Success? ==> Valid(r.value) && r.value.shape == shape && r.value.data == a.data
  {
    if Size(shape) == |a.data| then Success(NdArray(shape, a.data)) else Failure(ValueError)
  }

  // ---------------------------------------------------------------- rows

  lemma MulStep(k: nat, s: nat)
    ensures (k + 1) * s == k * s + s
  {
  }

  lemma MulDistrib(a: nat, b: nat, c: nat)
    ensures (a + b) * c == a * c + b * c
  {
  }

  /** A buffer of n * st elements cut into n consecutive pieces of st elements. */
  function Chunks(data: seq<real>, st: nat, n: nat): (r: seq<seq<real>>)
    requires n * st == |data|
    ensures |r| == n
    ensures forall i :: 0 <= i < n ==> |r[i]| == st
  {
    if n == 0 then []
    else
      MulStep(n - 1, st);
      [data[..st]] + Chunks(data[st..], st, n - 1)
  }

  /** The pieces concatenated in order. */
  function Flatten(rows: seq<seq<real>>): seq<real>
  {
    if rows == [] then [] else rows[0] + Flatten(rows[1..])
  }

  lemma {:induction false} FlattenLength(rows: seq<seq<real>>, st: nat)
    requires forall i :: 0 <= i < |rows| ==> |rows[i]| == st
    ensures |Flatten(rows)| == |rows| * st
  {
    if rows != [] {
      FlattenLength(rows[1..], st);
      MulStep(|rows| - 1, st);
    }
  }

  /** Cutting a concatenation of equal-length pieces gives the pieces back. */
  lemma {:induction false} ChunksOfFlatten(rows: seq<seq<real>>, st: nat)
    requires forall i :: 0 <= i < |rows| ==> |rows[i]| == st
    ensures |rows| * st == |Flatten(rows)|
    ensures Chunks(Flatten(rows), st, |rows|) == rows
  {
    FlattenLength(rows, st);
    if rows != [] {
      ChunksOfFlatten(rows[1..], st);
      var f := Flatten(rows);
      assert f == rows[0] + Flatten(rows[1..]);
      assert f[..st] == rows[0];
      assert f[st..] == Flatten(rows[1..]);
    }
  }

  /** Number of elements in one row (one index of axis 0). */
  function Stride(a: NdArray): (st: nat)
    requires Rank(a) >= 1
    ensures Rank(a) == 1 ==> st == 1
    ensures Rank(a) == 2 ==> st == a.shape[1]
  {
    if Rank(a) == 2 then
      assert a.shape[1..] == [a.shape[1]] && a.shape[1..][1..] == [];
      assert Size(a.shape[1..]) == a.shape[1] * Size([]);
      Size(a.shape[1..])
    else Size(a.shape[1..])
  }

  /** The rows of an array of rank one or more: `list(a)`, each row flattened. */
  function Rows(a: NdArray): (r: seq<seq<real>>)
    requires Valid(a) && Rank(a) >= 1
    ensures |r| == a.shape[0]
    ensures forall i :: 0 <= i < |r| ==> |r[i]| == Stride(a)
  {
    Chunks(a.data, Stride(a), a.shape[0])
  }

  /** Row i, as `a[i]` flattened. */
  function Row(a: NdArray, i: nat): (r: seq<real>)
    requires Valid(a) && Rank(a) >= 1 && i < a.shape[0]
    ensures |r| == Stride(a)
  {
    Rows(a)[i]
  }

  /** The rows named by idx, in that order. */
  function Select(rows: seq<seq<real>>, idx: seq<nat>): (r: seq<seq<real>>)
    requires forall j :: 0 <= j < |idx| ==> idx[j] < |rows|
    ensures |r| == |idx|
    ensures forall j :: 0 <= j < |idx| ==> r[j] == rows[idx[j]]
  {
    seq(|idx|, j requires 0 <= j < |idx| => rows[idx[j]])
  }

  /** Every index names an existing row. */
  predicate InRange(idx: seq<nat>, n: nat)
  {
    forall j :: 0 <= j < |idx| ==> idx[j] < n
  }

  /**
   * `a[idx]` (1-d) or `a[idx, :]` (2-d and more): the rows named by idx, in
   * that order. A 0-d array and an index past the last row raise IndexError.
   */
  function TakeRows(a: NdArray, idx: seq<nat>): (r: Result<NdArray>)
    requires Valid(a)
    ensures r.Success? ==> Valid(r.value)
    ensures r.Failure? ==> r.error == IndexError
  {
    if Rank(a) == 0 then Failure(IndexError)
    else if !InRange(idx, a.shape[0]) then Failure(IndexError)
    else
      var picked := Select(Rows(a), idx);
      FlattenLength(picked, Stride(a));
      var r := NdArray([|idx|] + a.shape[1..], Flatten(picked));
      assert r.shape[1..] == a.shape[1..];
      Success(r)
  }

  /**
   * Selecting rows keeps the trailing axes, yields one row per index, row i
   * being input row idx[i]; it fails exactly on a 0-d array or an index past
   * the last row.
   */
  lemma TakeRowsSpec(a: NdArray, idx: seq<nat>)
    requires Valid(a)
    ensures TakeRows(a, idx).Failure? <==>
              Rank(a) == 0 || exists j :: 0 <= j < |idx| && idx[j] >= a.shape[0]
    ensures TakeRows(a, idx).Success? ==>
              var r := TakeRows(a, idx).value;
              && Rank(r) == Rank(a) && r.shape[0] == |idx| && r.shape[1..] == a.shape[1..]
              && forall i :: 0 <= i < |idx| ==> Row(r, i) == Row(a, idx[i])
  {
    if TakeRows(a, idx).Success? {
      var r := TakeRows(a, idx).value;
      assert r.shape[1..] == a.shape[1..];
      var picked := Select(Rows(a), idx);
      ChunksOfFlatten(picked, Stride(a));
      assert Rows(r) == picked;
    }
  }

  // ---------------------------------------------------------------- lift and stack

  /**
   * `x[:, newaxis]` when `len(x.shape) <= 1`, else `x` itself: a 1-d block
   * becomes one column; indexing a 0-d array that way raises IndexError.
   */
  function Lift(a: NdArray): (r: Result<NdArray>)
    requires Valid(a)
    ensures r.Success? <==> Rank(a) >= 1
    ensures r.Success? ==> Valid(r.value) && Rank(r.value) >= 2 && r.value.data == a.data
    ensures r.Success? ==> r.value.shape[0] == a.shape[0]
    ensures r.Success? ==> r.value.shape[1] == (if Rank(a) == 1 then 1 else a.shape[1])
    ensures r.Success? && Rank(a) >= 2 ==> r.value == a
  {
    if Rank(a) == 0 then Failure(IndexError)
    else if Rank(a) == 1 then
      assert a.shape[1..] == [] && [a.shape[0], 1][1..] == [1] && [1][1..] == [];
      assert Size([a.shape[0], 1]) == a.shape[0] == Size(a.shape);
      Success(NdArray([a.shape[0], 1], a.data))
    else Success(a)
  }

  /** Length of axis 1 (the number of columns of a 2-d block). */
  function Width(a: NdArray): nat
    requires Rank(a) >= 2
  {
    a.shape[1]
  }

  /** Row i of the first list followed by row i of the second, for every i. */
  function JoinRows(ra: seq<seq<real>>, rb: seq<seq<real>>): (r: seq<seq<real>>)
    requires |ra| == |rb|
    ensures |r| == |ra|
    ensures forall i :: 0 <= i < |r| ==> r[i] == ra[i] + rb[i]
  {
    seq(|ra|, i requires 0 <= i < |ra| => ra[i] + rb[i])
  }

  /**
   * `hstack((a, b))` for blocks of rank two or more: concatenation along
   * axis 1. The ranks, the row counts and every axis after the first two
   * must agree; otherwise jax's concatenate shape rule raises TypeError.
   */
  function HStack(a: NdArray, b: NdArray): (r: Result<NdArray>)
    requires Valid(a) && Valid(b) && Rank(a) >= 2 && Rank(b) >= 2
    ensures r.Success? <==> Rank(a) == Rank(b) && a.shape[0] == b.shape[0] && a.shape[2..] == b.shape[2..]
    ensures r.Success? ==> Valid(r.value)
    ensures r.Failure? ==> r.error == TypeError
  {
    if Rank(a) != Rank(b) || a.shape[0] != b.shape[0] || a.shape[2..] != b.shape[2..] then Failure(TypeError)
    else
      var n, rest := a.shape[0], Size(a.shape[2..]);
      assert a.shape[1..][1..] == a.shape[2..] && b.shape[1..][1..] == b.shape[2..];
      var shape := [n, a.shape[1] + b.shape[1]] + a.shape[2..];
      assert shape[1..] == [a.shape[1] + b.shape[1]] + a.shape[2..];
      assert shape[1..][1..] == a.shape[2..];
      MulDistrib(a.shape[1], b.shape[1], rest);
      var joined := JoinRows(Rows(a), Rows(b));
      FlattenLength(joined, Stride(a) + Stride(b));
      Success(NdArray(shape, Flatten(joined)))
  }

  /**
   * The stacked block has the rows of both inputs, width(a) + width(b)
   * columns, and row i is row i of a followed by row i of b.
   */
  lemma HStackSpec(a: NdArray, b: NdArray)
    requires Valid(a) && Valid(b) && Rank(a) >= 2 && Rank(b) >= 2
    requires HStack(a, b).Success?
    ensures var r := HStack(a, b).value;
            && Rank(r) == Rank(a) && r.shape[0] == a.shape[0]
            && Width(r) == Width(a) + Width(b)
            && forall i :: 0 <= i < a.shape[0] ==> Row(r, i) == Row(a, i) + Row(b, i)
  {
    var r := HStack(a, b).value;
    var rest := Size(a.shape[2..]);
    assert a.shape[1..][1..] == a.shape[2..] && b.shape[1..][1..] == b.shape[2..];
    assert r.shape[1..][1..] == a.shape[2..];
    MulDistrib(a.shape[1], b.shape[1], rest);
    assert Stride(r) == Stride(a) + Stride(b);
    var joined := JoinRows(Rows(a), Rows(b));
    ChunksOfFlatten(joined, Stride(a) + Stride(b));
    assert Rows(r) == joined;
  }
}
