/**
 * The control logic of easydel/modules/gpt_neo_x/modeling_gpt_neo_x_flax.py:
 * the three-way split of the fused projection of `GPTNeoXAttention`, the
 * two residual forms of `GPTNeoXBlock`, the input handling and layer loop
 * of `GPTNeoXModel.__call__`, and the tying of the output projection to
 * the input embedding in `GPTNeoXForCausalLM`. Norms, attention and the MLP
 * are function values; dropout is the identity.
 */
module GptNeoX {
  import opened Wrappers
  import opened Tensors
  import opened Heads
  import opened Decoder
  import opened ModelInputs

  /**
   * One token's fused projection split into three equal parts, each
   * reshaped to (heads, hidden // heads).
   */
  function SplitThirds(row: Vec, hidden: nat, numHeads: nat): (r: Result<QkvHeads, AttentionError>)
    ensures r.Ok? <==> numHeads > 0 && |row| % 3 == 0 && |row| / 3 == numHeads * (hidden / numHeads)
    ensures numHeads == 0 ==> r == Err(ZeroHeads)
    ensures r.Ok? ==> |r.value.query| == numHeads && |r.value.key| == numHeads && |r.value.value| == numHeads
    ensures r.Ok? ==> var d := hidden / numHeads;
      Uniform(r.value.query, d) && Uniform(r.value.key, d) && Uniform(r.value.value, d)
    ensures r.Ok? ==> var w := |row| / 3;
      Flatten(r.value.query) == row[..w] && Flatten(r.value.key) == row[w .. 2 * w] &&
      Flatten(r.value.value) == row[2 * w ..]
  {
    var headDim :- FloorDiv(hidden, numHeads);
    if |row| % 3 != 0 then Err(UnevenSplit)
    else
      var w := |row| / 3;
      var q, k, v := row[..w], row[w .. 2 * w], row[2 * w ..];
      match (Reshape(q, numHeads, headDim), Reshape(k, numHeads, headDim), Reshape(v, numHeads, headDim))
      case (Some(qh), Some(kh), Some(vh)) => Ok(QkvHeads(qh, kh, vh))
      case _ => Err(HeadReshape)
  }

  /**
   * For a row of the projection's width `3 * hidden` the split succeeds
   * exactly when the heads divide the hidden size, and the query, key and
   * value are then the column blocks [0, h), [h, 2h) and [2h, 3h).
   */
  lemma SplitThirdsOfProjection(row: Vec, hidden: nat, numHeads: nat)
    requires |row| == 3 * hidden
    ensures SplitThirds(row, hidden, numHeads).Ok? <==> numHeads > 0 && hidden % numHeads == 0
    ensures SplitThirds(row, hidden, numHeads).Ok? ==>
      var h := SplitThirds(row, hidden, numHeads).value;
      Flatten(h.query) == row[..hidden] && Flatten(h.key) == row[hidden .. 2 * hidden] &&
      Flatten(h.value) == row[2 * hidden ..]
  {
    assert |row| % 3 == 0 && |row| / 3 == hidden;
    if numHeads > 0 {
      var d := hidden / numHeads;
      assert d * numHeads <= hidden < (d + 1) * numHeads;
      DivisibleIff(hidden, numHeads, d);
    }
  }

  datatype Block = Block(inputNorm: Mixer, attn: WeightedAttnFn, postNorm: Mixer, mlp: Mixer,
                         useParallelResidual: bool)

  /**
   * `GPTNeoXBlock.__call__`: with the parallel residual the MLP reads the
   * normed block input and both sub-layer outputs are added to it;
   * otherwise the attention output is added first and the MLP reads the
   * normed result. The attention weights are returned when requested.
   */
  function BlockForward(b: Block, h: Hidden, ctx: Context, outputAttentions: bool): (r: LayerOut)
    ensures r.weights.Some? <==> outputAttentions
    ensures r.weights.Some? ==> r.weights.value == b.attn(b.inputNorm(h), ctx).weights
  {
    var attnOut := b.attn(b.inputNorm(h), ctx);
    var attn := attnOut.output;
    var hidden := if b.useParallelResidual then
        AddRows(AddRows(b.mlp(b.postNorm(h)), h), attn)
      else
        var h1 := AddRows(attn, h);
        AddRows(b.mlp(b.postNorm(h1)), h1);
    LayerOut(hidden, if outputAttentions then Some(attnOut.weights) else None)
  }

  /** The two residual forms are the shared parallel and pre-norm block forms. */
  lemma BlockForms(b: Block, h: Hidden, ctx: Context, outputAttentions: bool)
    ensures BlockForward(b, h, ctx, outputAttentions).hidden == if b.useParallelResidual
      then Parallel(h, x => b.attn(b.inputNorm(x), ctx).output, x => b.mlp(b.postNorm(x)))
      else Sequential(h, x => b.attn(b.inputNorm(x), ctx).output, x => b.mlp(b.postNorm(x)))
  {
  }

  /**
   * The two residual forms give the same state when the attention adds
   * nothing (and the sub-layers keep the shape): they differ only in what
   * the MLP reads.
   */
  lemma ResidualFormsAgree(b: Block, h: Hidden, ctx: Context, outputAttentions: bool)
    requires SameShape(b.attn(b.inputNorm(h), ctx).output, h) && SameShape(b.mlp(b.postNorm(h)), h)
    requires IsZero(b.attn(b.inputNorm(h), ctx).output)
    ensures BlockForward(b.(useParallelResidual := true), h, ctx, outputAttentions) ==
            BlockForward(b.(useParallelResidual := false), h, ctx, outputAttentions)
  {
    var f: Mixer := x => b.attn(b.inputNorm(x), ctx).output;
    var g: Mixer := x => b.mlp(b.postNorm(x));
    BlockForms(b.(useParallelResidual := true), h, ctx, outputAttentions);
    BlockForms(b.(useParallelResidual := false), h, ctx, outputAttentions);
    ParallelZeroAttention(h, f, g);
  }

  /** The state before block `i`, for every `i`, and the state after the last block. */
  function States(blocks: seq<Block>, h: Hidden, ctx: Context): (r: seq<Hidden>)
    ensures |r| == |blocks| + 1 && r[0] == h
    ensures forall i :: 0 <= i < |blocks| ==> r[i + 1] == BlockForward(blocks[i], r[i], ctx, false).hidden
    decreases |blocks|
  {
    if blocks == [] then [h]
    else
      var s := States(blocks[..|blocks| - 1], h, ctx);
      s + [BlockForward(blocks[|blocks| - 1], s[|blocks| - 1], ctx, false).hidden]
  }

  /** The attention weights of every block, each on the state that block read. */
  function BlockWeights(blocks: seq<Block>, s: seq<Hidden>, ctx: Context): (r: seq<AttnWeights>)
    requires |s| > |blocks|
    ensures |r| == |blocks|
    ensures forall i :: 0 <= i < |blocks| ==> r[i] == blocks[i].attn(blocks[i].inputNorm(s[i]), ctx).weights
  {
    seq(|blocks|, i requires 0 <= i < |blocks| => blocks[i].attn(blocks[i].inputNorm(s[i]), ctx).weights)
  }

  /**
   * What `GPTNeoXModel.__call__` returns: the state after `final_layer_norm`,
   * the state before every block and the final one when hidden states are
   * requested, and the weights of every block when attentions are
   * requested; an output that is not requested is None.
   */
  function Collected(blocks: seq<Block>, finalNorm: Mixer, h: Hidden, ctx: Context,
                     outputAttentions: bool, outputHiddenStates: bool): (r: BaseModelOutput)
  {
    var s := States(blocks, h, ctx);
    var last := finalNorm(s[|blocks|]);
    BaseModelOutput(
      last,
      if outputHiddenStates then Some(s[..|blocks|] + [last]) else None,
      if outputAttentions then Some(BlockWeights(blocks, s, ctx)) else None)
  }

  /** With hidden states requested there are blocks + 1 of them, the last being the output. */
  lemma CollectedCounts(blocks: seq<Block>, finalNorm: Mixer, h: Hidden, ctx: Context,
                        outputAttentions: bool, outputHiddenStates: bool)
    ensures var r := Collected(blocks, finalNorm, h, ctx, outputAttentions, outputHiddenStates);
      (r.hiddenStates.Some? <==> outputHiddenStates) &&
      (r.attentions.Some? <==> outputAttentions) &&
      (r.hiddenStates.Some? ==> |r.hiddenStates.value| == |blocks| + 1 &&
                                r.hiddenStates.value[|blocks|] == r.lastHiddenState) &&
      (r.hiddenStates.Some? && |blocks| > 0 ==> r.hiddenStates.value[0] == h) &&
      (r.attentions.Some? ==> |r.attentions.value| == |blocks|)
  {
  }

  /** The loop of `GPTNeoXModel.__call__` over the blocks, followed by `final_layer_norm`. */
  method RunBlocks(blocks: seq<Block>, finalNorm: Mixer, h0: Hidden, ctx: Context,
                   outputAttentions: bool, outputHiddenStates: bool)
    returns (out: BaseModelOutput)
    ensures out == Collected(blocks, finalNorm, h0, ctx, outputAttentions, outputHiddenStates)
  {
    ghost var s := States(blocks, h0, ctx);
    ghost var w := BlockWeights(blocks, s, ctx);
    var allAttentions: Option<seq<AttnWeights>> := if outputAttentions then Some([]) else None;
    var allHiddenStates: Option<seq<Hidden>> := if outputHiddenStates then Some([]) else None;
    var hidden := h0;
    var idx := 0;
    while idx < |blocks|
      invariant 0 <= idx <= |blocks|
      invariant hidden == s[idx]
      invariant allHiddenStates == if outputHiddenStates then Some(s[..idx]) else None
      invariant allAttentions == if outputAttentions then Some(w[..idx]) else None
    {
      if outputHiddenStates {
        allHiddenStates := Some(allHiddenStates.value + [hidden]);
        PrefixStep(s, idx);
      }
      var blockOut := BlockForward(blocks[idx], hidden, ctx, outputAttentions);
      assert blockOut.hidden == BlockForward(blocks[idx], hidden, ctx, false).hidden;
      hidden := blockOut.hidden;
      if outputAttentions {
        allAttentions := Some(allAttentions.value + [blockOut.weights.value]);
        PrefixStep(w, idx);
      }
      idx := idx + 1;
    }
    hidden := finalNorm(hidden);
    if outputHiddenStates {
      allHiddenStates := Some(allHiddenStates.value + [hidden]);
    }
    assert s[..|blocks|] == s[..idx];
    assert w[..idx] == w;
    out := BaseModelOutput(hidden, allHiddenStates, allAttentions);
  }

  /**
   * The input handling of `GPTNeoXModel.__call__`, in its order: token ids
   * only, embedding, the mask and position defaults, the length assertion
   * (after the positions), then the extra embedding added when one is
   * given.
   */
  function Prepare(maxPositionEmbeddings: nat, inputIds: Option<Tensor<nat>>, hasEmbeds: bool,
                   mask: Option<Tensor<int>>, positions: Option<Tensor<nat>>,
                   extraEmbedding: Option<Hidden>, table: nat -> Vec)
    : (r: Result<(Hidden, Context), InputError>)
    requires mask.Some? ==> mask.value.Valid()
    ensures r.Ok? ==> inputIds.Some? && !hasEmbeds
    ensures inputIds.Some? && hasEmbeds ==> r == Err(BothInputs)
    ensures inputIds.None? ==> r == Err(MissingIds)
    ensures inputIds.Some? && !hasEmbeds ==>
      var ids := inputIds.value;
      var e := EmbedIds(ids, table);
      (e.Err? ==> r == Err(EmbedsRank)) &&
      (e.Ok? ==>
        var mp := MaskAndPositions(mask, positions, ids.shape[0], ids.shape[1]);
        (mp.Err? ==> r == Err(MaskShape)) &&
        (mp.Ok? && ids.shape[1] > maxPositionEmbeddings ==> r == Err(SequenceTooLong)) &&
        (mp.Ok? && ids.shape[1] <= maxPositionEmbeddings ==>
          r == Ok((if extraEmbedding.Some? then AddRows(e.value, extraEmbedding.value) else e.value,
                   Context(mp.value.0, mp.value.1)))))
  {
    var _ :- IdsOnly(inputIds.Some?, hasEmbeds);
    var ids := inputIds.value;
    var embeds :- EmbedIds(ids, table);
    var mp :- MaskAndPositions(mask, positions, ids.shape[0], ids.shape[1]);
    if ids.shape[1] > maxPositionEmbeddings then Err(SequenceTooLong)
    else
      var hidden := if extraEmbedding.Some? then AddRows(embeds, extraEmbedding.value) else embeds;
      Ok((hidden, Context(mp.0, mp.1)))
  }

  /** `GPTNeoXModel.__call__`; the output flags are plain booleans that default to false. */
  method Forward(maxPositionEmbeddings: nat, blocks: seq<Block>, finalNorm: Mixer, table: nat -> Vec,
                 inputIds: Option<Tensor<nat>>, inputEmbeds: Option<Tensor<real>>,
                 mask: Option<Tensor<int>>, positions: Option<Tensor<nat>>, extraEmbedding: Option<Hidden>,
                 outputAttentions: bool, outputHiddenStates: bool)
    returns (r: Result<BaseModelOutput, InputError>)
    requires mask.Some? ==> mask.value.Valid()
    ensures var p := Prepare(maxPositionEmbeddings, inputIds, inputEmbeds.Some?, mask, positions, extraEmbedding, table);
      (r.Err? <==> p.Err?) && (r.Err? ==> r.error == p.error) &&
      (r.Ok? ==> r.value == Collected(blocks, finalNorm, p.value.0, p.value.1, outputAttentions, outputHiddenStates))
  {
    var p := Prepare(maxPositionEmbeddings, inputIds, inputEmbeds.Some?, mask, positions, extraEmbedding, table);
    if p.Err? {
      return Err(p.error);
    }
    var out := RunBlocks(blocks, finalNorm, p.value.0, p.value.1, outputAttentions, outputHiddenStates);
    return Ok(out);
  }

  /** The sum of `u[i] * v[i]` over the positions both vectors have. */
  function Dot(u: Vec, v: Vec): real
  {
    if u == [] || v == [] then 0.0 else u[0] * v[0] + Dot(u[1..], v[1..])
  }

  /** Column `j` of a matrix, with 0 where a row is too short. */
  function Column(m: seq<Vec>, j: nat): (c: Vec)
    ensures |c| == |m|
    ensures forall i :: 0 <= i < |m| ==> c[i] == if j < |m[i]| then m[i][j] else 0.0
  {
    seq(|m|, i requires 0 <= i < |m| => if j < |m[i]| then m[i][j] else 0.0)
  }

  /** The transpose of a (rows, width) matrix. */
  function Transpose(m: seq<Vec>, width: nat): (t: seq<Vec>)
    requires Uniform(m, width)
    ensures |t| == width && Uniform(t, |m|)
    ensures forall i, j :: 0 <= i < width && 0 <= j < |m| ==> t[i][j] == m[j][i]
  {
    seq(width, i requires 0 <= i < width => Column(m, i))
  }

  /** Transposing twice gives the matrix back. */
  lemma TransposeTwice(m: seq<Vec>, width: nat)
    requires Uniform(m, width)
    ensures Transpose(Transpose(m, width), |m|) == m
  {
    var t := Transpose(Transpose(m, width), |m|);
    forall j | 0 <= j < |m|
      ensures t[j] == m[j]
    {
    }
  }

  /** The output projection `nn.Linear(hidden_size, vocab_size, use_bias=False)`. */
  class LMHead {
    var kernel: seq<Vec>
    const inFeatures: nat
    const outFeatures: nat

    ghost predicate Valid()
      reads this
    {
      |kernel| == inFeatures && Uniform(kernel, outFeatures)
    }

    constructor (inFeatures: nat, outFeatures: nat, kernel: seq<Vec>)
      requires |kernel| == inFeatures && Uniform(kernel, outFeatures)
      ensures Valid()
      ensures this.inFeatures == inFeatures && this.outFeatures == outFeatures && this.kernel == kernel
    {
      this.inFeatures := inFeatures;
      this.outFeatures := outFeatures;
      this.kernel := kernel;
    }

    /** `x @ kernel`, one output row per input row. */
    function Apply(x: Hidden): (y: Hidden)
      reads this
      ensures |y| == |x| && Uniform(y, outFeatures)
      ensures forall t, j :: 0 <= t < |x| && 0 <= j < outFeatures ==> y[t][j] == Dot(x[t], Column(kernel, j))
    {
      var k := kernel;
      seq(|x|, t requires 0 <= t < |x| => seq(outFeatures, j requires 0 <= j < outFeatures => Dot(x[t], Column(k, j))))
    }

    /**
     * `GPTNeoXForCausalLM.__call__` after the model: with tied embeddings the
     * kernel is overwritten in place by the transposed input embedding
     * (a (vocab, hidden) table), and the logits are taken with the kernel
     * as it then is.
     */
    method Logits(tieWordEmbeddings: bool, embedding: seq<Vec>, hidden: Hidden) returns (logits: Hidden)
      requires Valid()
      requires tieWordEmbeddings ==> |embedding| == outFeatures && Uniform(embedding, inFeatures)
      modifies this
      ensures Valid()
      ensures tieWordEmbeddings ==> kernel == Transpose(embedding, inFeatures)
      ensures !tieWordEmbeddings ==> kernel == old(kernel)
      ensures logits == Apply(hidden)
    {
      if tieWordEmbeddings {
        kernel := Transpose(embedding, inFeatures);
      }
      logits := Apply(hidden);
    }
  }

  /**
   * With tied embeddings the logit of token `v` is the dot product of the
   * state with the embedding of `v`.
   */
  lemma TiedLogits(embedding: seq<Vec>, inFeatures: nat, x: Hidden, t: nat, v: nat)
    requires Uniform(embedding, inFeatures) && t < |x| && v < |embedding|
    ensures Dot(x[t], Column(Transpose(embedding, inFeatures), v)) == Dot(x[t], embedding[v])
  {
    var k := Transpose(embedding, inFeatures);
    assert Column(k, v) == embedding[v];
  }
}
