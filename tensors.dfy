/**
 * Row-major array shapes: the reshape, split and stack operations the models
 * apply to flat buffers, and element-wise vector arithmetic over reals.
 */
module Tensors {
  import opened Wrappers

  type Vec = seq<real>

  /**
   * A sub-layer whose internals are not modelled (a norm, an attention or
   * MLP projection): any function that keeps the length of its input.
   */
  type Sublayer = f: Vec -> Vec | forall v :: |f(v)| == |v| witness (v: Vec) => v

  /** Element-wise sum; the two operands have the same length. */
  function Add(u: Vec, v: Vec): (r: Vec)
    requires |u| == |v|
    ensures |r| == |u|
    ensures forall i :: 0 <= i < |r| ==> r[i] == u[i] + v[i]
  {
    seq(|u|, i requires 0 <= i < |u| => u[i] + v[i])
  }

  function Scale(c: real, v: Vec): (r: Vec)
    ensures |r| == |v|
    ensures forall i :: 0 <= i < |r| ==> r[i] == c * v[i]
  {
    seq(|v|, i requires 0 <= i < |v| => c * v[i])
  }

  function Zeros(n: nat): (r: Vec)
    ensures |r| == n
    ensures forall i :: 0 <= i < n ==> r[i] == 0.0
  {
    seq(n, i => 0.0)
  }

  /** Number of elements of an array of the given shape. */
  function Product(shape: seq<nat>): nat
  {
    if shape == [] then 1 else shape[0] * Product(shape[1..])
  }

  lemma ProductOne(n: nat)
    ensures Product([n]) == n
  {
    assert [n][1..] == [];
  }

  lemma ProductCons(n: nat, s: seq<nat>)
    ensures Product([n] + s) == n * Product(s)
  {
    assert ([n] + s)[1..] == s;
  }

  lemma ProductPair(a: nat, b: nat)
    ensures Product([a, b]) == a * b
  {
    ProductCons(a, [b]);
    ProductOne(b);
    assert [a] + [b] == [a, b];
  }

  lemma MulBound(i: nat, count: nat, size: nat)
    requires i < count
    ensures i * size + size <= count * size
  {
    assert count * size == i * size + (count - i) * size;
    assert (count - i) * size == size + (count - i - 1) * size;
    assert (count - i - 1) * size >= 0;
  }

  lemma MulBoundAll(count: nat, size: nat)
    ensures forall i: nat :: i < count ==> i * size + size <= count * size
  {
    forall i: nat | i < count
      ensures i * size + size <= count * size
    {
      MulBound(i, count, size);
    }
  }

  /** `s` read as `count` consecutive rows of `size` elements (a row-major reshape). */
  function Chunks<T>(s: seq<T>, size: nat, count: nat): (rows: seq<seq<T>>)
    requires |s| == size * count
    ensures |rows| == count
    ensures forall i :: 0 <= i < count ==>
      i * size + size <= |s| && rows[i] == s[i * size .. i * size + size]
  {
    MulBoundAll(count, size);
    seq(count, i requires 0 <= i < count => s[i * size .. i * size + size])
  }

  /** Concatenation of the rows, in order (the inverse reshape). */
  function Flatten<T>(rows: seq<seq<T>>): seq<T>
  {
    if rows == [] then [] else rows[0] + Flatten(rows[1..])
  }

  ghost predicate Uniform<T>(rows: seq<seq<T>>, size: nat)
  {
    forall i :: 0 <= i < |rows| ==> |rows[i]| == size
  }

  /** Row `i` of uniform rows sits at offset `i * size` of their concatenation. */
  lemma {:induction false} FlattenAt<T>(rows: seq<seq<T>>, size: nat)
    requires Uniform(rows, size)
    ensures |Flatten(rows)| == |rows| * size
    ensures forall i :: 0 <= i < |rows| ==>
      i * size + size <= |Flatten(rows)| && Flatten(rows)[i * size .. i * size + size] == rows[i]
  {
    if rows != [] {
      FlattenAt(rows[1..], size);
      var f := Flatten(rows[1..]);
      assert Flatten(rows) == rows[0] + f;
      assert (1 + (|rows| - 1)) * size == size + (|rows| - 1) * size;
      forall i | 0 <= i < |rows|
        ensures i * size + size <= |Flatten(rows)| && Flatten(rows)[i * size .. i * size + size] == rows[i]
      {
        if i > 0 {
          assert (1 + (i - 1)) * size == size + (i - 1) * size;
          var k := (i - 1) * size;
          assert rows[1..][i - 1] == rows[i];
          SliceAppend(rows[0], f, k, k + size);
        }
      }
    }
  }

  /** A prefix one longer is the prefix followed by the next element; the loops that collect outputs use it. */
  lemma PrefixStep<T>(s: seq<T>, i: nat)
    requires i < |s|
    ensures s[..i + 1] == s[..i] + [s[i]]
  {
  }

  lemma SliceAppend<T>(a: seq<T>, b: seq<T>, x: nat, y: nat)
    requires x <= y <= |b|
    ensures (a + b)[|a| + x .. |a| + y] == b[x..y]
  {
  }

  lemma ChunksCons<T>(s: seq<T>, size: nat, count: nat)
    requires |s| == size * count && count > 0
    ensures size <= |s| && |s[size..]| == size * (count - 1)
    ensures Chunks(s, size, count) == [s[..size]] + Chunks(s[size..], size, count - 1)
  {
    assert (1 + (count - 1)) * size == size + (count - 1) * size;
    var c := Chunks(s, size, count);
    var c' := Chunks(s[size..], size, count - 1);
    forall i | 1 <= i < count
      ensures c[i] == c'[i - 1]
    {
      ChunkShift(s, size, count, i);
    }
    assert c == [s[..size]] + c';
  }

  /** Row `i` of a buffer is row `i - 1` of the buffer without its first row. */
  lemma ChunkShift<T>(s: seq<T>, size: nat, count: nat, i: nat)
    requires |s| == size * count && 1 <= i < count
    ensures size <= |s| && |s[size..]| == size * (count - 1)
    ensures Chunks(s, size, count)[i] == Chunks(s[size..], size, count - 1)[i - 1]
  {
    assert (1 + (count - 1)) * size == size + (count - 1) * size;
    assert (1 + (i - 1)) * size == size + (i - 1) * size;
    var k := (i - 1) * size;
    assert i * size == size + k;
    MulBound(i - 1, count - 1, size);
    assert Chunks(s[size..], size, count - 1)[i - 1] == s[size..][k .. k + size];
    assert s[size..][k .. k + size] == s[size + k .. size + k + size];
  }

  /** Splitting into rows and concatenating them back gives the buffer again. */
  lemma {:induction false} FlattenChunks<T>(s: seq<T>, size: nat, count: nat)
    requires |s| == size * count
    ensures Flatten(Chunks(s, size, count)) == s
    decreases count
  {
    if count > 0 {
      ChunksCons(s, size, count);
      FlattenChunks(s[size..], size, count - 1);
      assert Chunks(s, size, count)[1..] == Chunks(s[size..], size, count - 1);
      assert s == s[..size] + s[size..];
    }
  }

  /** Concatenating uniform rows and splitting again gives the rows back. */
  lemma ChunksFlatten<T>(rows: seq<seq<T>>, size: nat)
    requires Uniform(rows, size)
    ensures |Flatten(rows)| == size * |rows|
    ensures Chunks(Flatten(rows), size, |rows|) == rows
  {
    FlattenAt(rows, size);
  }

  /**
   * `reshape(count, size)` of a flat buffer: defined exactly when the sizes
   * agree, and then the rows have the requested shape and concatenate back
   * to the buffer.
   */
  function Reshape<T>(s: seq<T>, count: nat, size: nat): (r: Option<seq<seq<T>>>)
    ensures r.Some? <==> |s| == count * size
    ensures r.Some? ==> |r.value| == count && Uniform(r.value, size) && Flatten(r.value) == s
  {
    if |s| != count * size then None
    else
      FlattenChunks(s, size, count);
      Some(Chunks(s, size, count))
  }

  /** Reshaping uniform rows after concatenating them gives the rows back. */
  lemma ReshapeFlatten<T>(rows: seq<seq<T>>, size: nat)
    requires Uniform(rows, size)
    ensures Reshape(Flatten(rows), |rows|, size) == Some(rows)
  {
    ChunksFlatten(rows, size);
  }

  /** Every element of a row occurs in the concatenation. */
  lemma {:induction false} FlattenContains<T>(rows: seq<seq<T>>, t: nat, j: nat)
    requires t < |rows| && j < |rows[t]|
    ensures rows[t][j] in Flatten(rows)
  {
    if t > 0 {
      FlattenContains(rows[1..], t - 1, j);
    }
  }

  /** Rows of equal lengths concatenate to buffers of equal length. */
  lemma {:induction false} FlattenLength<T, U>(a: seq<seq<T>>, b: seq<seq<U>>)
    requires |a| == |b| && forall i :: 0 <= i < |a| ==> |a[i]| == |b[i]|
    ensures |Flatten(a)| == |Flatten(b)|
  {
    if a != [] {
      FlattenLength(a[1..], b[1..]);
    }
  }

  /** An n-dimensional array: its shape and its elements in row-major order. */
  datatype Tensor<T> = Tensor(shape: seq<nat>, data: seq<T>) {
    ghost predicate Valid() {
      |data| == Product(shape)
    }

    function NDim(): nat {
      |shape|
    }
  }

  /** Element block `i` along the leading axis (`t[i]` in the source). */
  function Slice<T>(t: Tensor<T>, i: nat): (r: Tensor<T>)
    requires t.Valid() && |t.shape| > 0 && i < t.shape[0]
    ensures r.Valid() && r.shape == t.shape[1..]
  {
    var m := Product(t.shape[1..]);
    MulBound(i, t.shape[0], m);
    Tensor(t.shape[1..], t.data[i * m .. i * m + m])
  }

  /** Stacks equally shaped arrays along a new leading axis. */
  function Stack<T>(inner: seq<nat>, ts: seq<Tensor<T>>): (r: Tensor<T>)
    requires forall i :: 0 <= i < |ts| ==> ts[i].Valid() && ts[i].shape == inner
    ensures r.Valid() && r.shape == [|ts|] + inner
  {
    var rows := seq(|ts|, i requires 0 <= i < |ts| => ts[i].data);
    assert forall i :: 0 <= i < |rows| ==> ts[i].Valid() && rows[i] == ts[i].data;
    FlattenAt(rows, Product(inner));
    assert ([|ts|] + inner)[1..] == inner;
    Tensor([|ts|] + inner, Flatten(rows))
  }

  /** The `i`-th slice of a stack is the `i`-th stacked array. */
  lemma SliceStack<T>(inner: seq<nat>, ts: seq<Tensor<T>>, i: nat)
    requires forall k :: 0 <= k < |ts| ==> ts[k].Valid() && ts[k].shape == inner
    requires i < |ts|
    ensures Slice(Stack(inner, ts), i) == ts[i]
  {
    var rows := seq(|ts|, k requires 0 <= k < |ts| => ts[k].data);
    assert Uniform(rows, Product(inner));
    FlattenAt(rows, Product(inner));
  }
}
