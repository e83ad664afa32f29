/**
 * The fused query/key/value projection of `DbrxAttention` in
 * easydel/modules/dbrx/modelling_dbrx_flax.py: the head layout checks of the
 * constructor, the optional clipping of the projected row, and its split
 * into query, key and value heads. One row is one token's projection.
 */
module DbrxAttention {
  import opened Wrappers
  import opened Tensors
  import opened Heads

  datatype HeadLayout = HeadLayout(numHeads: nat, numKvHeads: nat, headDim: nat, groups: nat)

  /**
   * The constructor's head arithmetic: `head_dim = d_model // n_heads` and
   * the key/value group count with its assertion.
   */
  function Layout(dModel: nat, numHeads: nat, numKvHeads: nat): (r: Result<HeadLayout, AttentionError>)
    ensures r.Err? <==> numHeads == 0 || numKvHeads == 0 || (numKvHeads < numHeads < 2 * numKvHeads)
    ensures r.Ok? ==> r.value.numHeads == numHeads && r.value.numKvHeads == numKvHeads
    ensures r.Ok? ==> r.value.headDim * numHeads <= dModel < (r.value.headDim + 1) * numHeads
    ensures r.Ok? ==> r.value.groups * numKvHeads <= numHeads < (r.value.groups + 1) * numKvHeads
    ensures r.Ok? && r.value.groups == 1 ==> numHeads == numKvHeads
  {
    var headDim :- FloorDiv(dModel, numHeads);
    var groups :- Groups(numHeads, numKvHeads);
    Ok(HeadLayout(numHeads, numKvHeads, headDim, groups))
  }

  /** Width of the fused projection: the hidden size plus a key and a value block. */
  function QkvWidth(hidden: nat, l: HeadLayout): (w: nat)
    ensures w >= hidden
    ensures w - hidden == 2 * (l.numKvHeads * l.headDim)
  {
    hidden + 2 * l.numKvHeads * l.headDim
  }

  /** `jnp.clip(x, min=lo, max=hi)`, that is `minimum(maximum(x, lo), hi)`. */
  function Clip(x: real, lo: real, hi: real): real
  {
    var m := if x < lo then lo else x;
    if m > hi then hi else m
  }

  /**
   * The projected row clipped to [-clip, clip] when `clip_qkv` is set. A
   * non-negative clip bounds every entry and keeps the entries already in
   * range; a negative one sends every entry to the value of `clip` itself.
   */
  function ClipRow(row: Vec, clip: Option<real>): (r: Vec)
    ensures |r| == |row|
    ensures clip.None? ==> r == row
    ensures clip.Some? && clip.value >= 0.0 ==> forall i :: 0 <= i < |r| ==>
      -clip.value <= r[i] <= clip.value &&
      (-clip.value <= row[i] <= clip.value ==> r[i] == row[i])
    ensures clip.Some? && clip.value >= 0.0 ==> forall i :: 0 <= i < |r| ==>
      (row[i] > clip.value ==> r[i] == clip.value) && (row[i] < -clip.value ==> r[i] == -clip.value)
    ensures clip.Some? && clip.value < 0.0 ==> forall i :: 0 <= i < |r| ==> r[i] == clip.value
  {
    if clip.None? then row
    else seq(|row|, i requires 0 <= i < |row| => Clip(row[i], -clip.value, clip.value))
  }

  /** `jnp.split(a, [i])`: a split point past the end leaves the second part empty. */
  function SplitAt(a: Vec, i: nat): (r: (Vec, Vec))
    ensures r.0 + r.1 == a
    ensures |r.0| == if i <= |a| then i else |a|
  {
    if i <= |a| then (a[..i], a[i..]) else (a, [])
  }

  /**
   * One token's fused projection, clipped, split at `hidden` and then at
   * `kv_heads * head_dim`, with each part reshaped to (heads, head_dim).
   */
  function SplitQkv(row: Vec, clip: Option<real>, hidden: nat, l: HeadLayout): (r: Result<QkvHeads, AttentionError>)
    ensures r.Ok? ==> |r.value.query| == l.numHeads && Uniform(r.value.query, l.headDim)
    ensures r.Ok? ==> |r.value.key| == l.numKvHeads && Uniform(r.value.key, l.headDim)
    ensures r.Ok? ==> |r.value.value| == l.numKvHeads && Uniform(r.value.value, l.headDim)
    ensures r.Ok? ==> Flatten(r.value.query) + Flatten(r.value.key) + Flatten(r.value.value) == ClipRow(row, clip)
  {
    var x := ClipRow(row, clip);
    var (q, kv) := SplitAt(x, hidden);
    var (k, v) := SplitAt(kv, l.numKvHeads * l.headDim);
    match (Reshape(q, l.numHeads, l.headDim), Reshape(k, l.numKvHeads, l.headDim), Reshape(v, l.numKvHeads, l.headDim))
    case (Some(qh), Some(kh), Some(vh)) => Ok(QkvHeads(qh, kh, vh))
    case _ => Err(HeadReshape)
  }

  /**
   * For a row of the projection's width the split succeeds exactly when the
   * query block fills the query heads, and then the query is columns
   * [0, hidden), the key the next `kv_heads * head_dim` columns and the
   * value the rest.
   */
  lemma SplitQkvColumns(row: Vec, clip: Option<real>, hidden: nat, l: HeadLayout)
    requires |row| == QkvWidth(hidden, l)
    ensures SplitQkv(row, clip, hidden, l).Ok? <==> hidden == l.numHeads * l.headDim
    ensures SplitQkv(row, clip, hidden, l).Ok? ==>
      var h := SplitQkv(row, clip, hidden, l).value;
      var x := ClipRow(row, clip);
      var kw := l.numKvHeads * l.headDim;
      Flatten(h.query) == x[..hidden] &&
      Flatten(h.key) == x[hidden .. hidden + kw] &&
      Flatten(h.value) == x[hidden + kw ..]
  {
    var x := ClipRow(row, clip);
    var kw := l.numKvHeads * l.headDim;
    assert x[hidden..][..kw] == x[hidden .. hidden + kw];
    assert x[hidden..][kw..] == x[hidden + kw ..];
  }

  /** With the layout's own head_dim the split succeeds exactly when d_model divides evenly into the heads. */
  lemma SplitQkvDivisible(row: Vec, clip: Option<real>, dModel: nat, numHeads: nat, numKvHeads: nat)
    requires Layout(dModel, numHeads, numKvHeads).Ok?
    requires |row| == QkvWidth(dModel, Layout(dModel, numHeads, numKvHeads).value)
    ensures SplitQkv(row, clip, dModel, Layout(dModel, numHeads, numKvHeads).value).Ok? <==> dModel % numHeads == 0
  {
    var l := Layout(dModel, numHeads, numKvHeads).value;
    SplitQkvColumns(row, clip, dModel, l);
    DivisibleIff(dModel, numHeads, l.headDim);
  }
}
