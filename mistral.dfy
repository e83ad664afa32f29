/**
 * The control logic of easydel/modules/mistral/modeling_mistral_flax.py:
 * the residual order of `MistralDecoderLayer`, the input handling and layer
 * loop of `MistralModel.__call__`, and the pooling index of
 * `MistralForSequenceClassification`. Norms, attention and the MLP are
 * function values. The head-group check of `MistralAttention` is
 * `Heads.Groups`.
 */
module Mistral {
  import opened Wrappers
  import opened Tensors
  import opened Decoder
  import opened ModelInputs

  datatype Layer = Layer(inputNorm: Mixer, attn: WeightedAttnFn, postNorm: Mixer, mlp: Mixer)

  /** The attention half of a layer: the attention output added to the layer input. */
  function Attended(l: Layer, h: Hidden, ctx: Context): Hidden
  {
    AddRows(l.attn(l.inputNorm(h), ctx).output, h)
  }

  /**
   * `MistralDecoderLayer.__call__`: the attended state plus the MLP of its
   * norm, and the attention weights when `output_attentions` is set.
   */
  function LayerForward(l: Layer, h: Hidden, ctx: Context, outputAttentions: bool): (r: LayerOut)
    ensures r.weights.Some? <==> outputAttentions
    ensures r.weights.Some? ==> r.weights.value == l.attn(l.inputNorm(h), ctx).weights
  {
    var attentionOutput := l.attn(l.inputNorm(h), ctx);
    var hidden := AddRows(attentionOutput.output, h);
    var feedForward := l.mlp(l.postNorm(hidden));
    LayerOut(AddRows(hidden, feedForward), if outputAttentions then Some(attentionOutput.weights) else None)
  }

  /**
   * The layer is the pre-norm residual form: the MLP reads the normed
   * attended state, not the layer input, whenever the MLP keeps the shape
   * of what it reads.
   */
  lemma LayerIsSequential(l: Layer, h: Hidden, ctx: Context, outputAttentions: bool)
    requires SameShape(l.mlp(l.postNorm(Attended(l, h, ctx))), Attended(l, h, ctx))
    ensures LayerForward(l, h, ctx, outputAttentions).hidden ==
      Sequential(h, x => l.attn(l.inputNorm(x), ctx).output, x => l.mlp(l.postNorm(x)))
  {
    var h1 := Attended(l, h, ctx);
    AddRowsCommutes(h1, l.mlp(l.postNorm(h1)));
  }

  /** The state before layer `i`, for every `i`, and the state after the last layer. */
  function States(layers: seq<Layer>, h: Hidden, ctx: Context): (r: seq<Hidden>)
    ensures |r| == |layers| + 1 && r[0] == h
    ensures forall i :: 0 <= i < |layers| ==> r[i + 1] == LayerForward(layers[i], r[i], ctx, false).hidden
    decreases |layers|
  {
    if layers == [] then [h]
    else
      var s := States(layers[..|layers| - 1], h, ctx);
      s + [LayerForward(layers[|layers| - 1], s[|layers| - 1], ctx, false).hidden]
  }

  /** The new state of a layer does not depend on whether its weights are requested. */
  lemma HiddenIgnoresFlag(l: Layer, h: Hidden, ctx: Context)
    ensures LayerForward(l, h, ctx, true).hidden == LayerForward(l, h, ctx, false).hidden
  {
  }

  /**
   * What `MistralModel.__call__` returns: the normed last state, the state
   * before every layer and the normed last state when hidden states are
   * requested, and the weights of every layer when attentions are
   * requested; an output that is not requested is None.
   */
  function Collected(layers: seq<Layer>, norm: Mixer, h: Hidden, ctx: Context,
                     outputAttentions: bool, outputHiddenStates: bool): (r: BaseModelOutput)
  {
    var s := States(layers, h, ctx);
    var last := norm(s[|layers|]);
    BaseModelOutput(
      last,
      if outputHiddenStates then Some(s[..|layers|] + [last]) else None,
      if outputAttentions then Some(LayerWeights(layers, s, ctx)) else None)
  }

  /** The attention weights of every layer, each on the state that layer read. */
  function LayerWeights(layers: seq<Layer>, s: seq<Hidden>, ctx: Context): (r: seq<AttnWeights>)
    requires |s| > |layers|
    ensures |r| == |layers|
    ensures forall i {:trigger r[i]} :: 0 <= i < |layers| ==> r[i] == layers[i].attn(layers[i].inputNorm(s[i]), ctx).weights
  {
    seq(|layers|, i requires 0 <= i < |layers| => layers[i].attn(layers[i].inputNorm(s[i]), ctx).weights)
  }

  /** With hidden states requested there are layers + 1 of them, the last being the output. */
  lemma CollectedCounts(layers: seq<Layer>, norm: Mixer, h: Hidden, ctx: Context,
                        outputAttentions: bool, outputHiddenStates: bool)
    ensures var r := Collected(layers, norm, h, ctx, outputAttentions, outputHiddenStates);
      (r.hiddenStates.Some? <==> outputHiddenStates) &&
      (r.attentions.Some? <==> outputAttentions) &&
      (r.hiddenStates.Some? ==> |r.hiddenStates.value| == |layers| + 1 &&
                                r.hiddenStates.value[|layers|] == r.lastHiddenState) &&
      (r.hiddenStates.Some? && |layers| > 0 ==> r.hiddenStates.value[0] == h) &&
      (r.attentions.Some? ==> |r.attentions.value| == |layers|)
  {
  }

  /** The loop of `MistralModel.__call__` over the layers, followed by the final norm. */
  method RunLayers(layers: seq<Layer>, norm: Mixer, h0: Hidden, ctx: Context,
                   outputAttentions: bool, outputHiddenStates: bool)
    returns (out: BaseModelOutput)
    ensures out == Collected(layers, norm, h0, ctx, outputAttentions, outputHiddenStates)
  {
    ghost var s := States(layers, h0, ctx);
    ghost var w := LayerWeights(layers, s, ctx);
    var allAttentions: Option<seq<AttnWeights>> := if outputAttentions then Some([]) else None;
    var allHiddenStates: Option<seq<Hidden>> := if outputHiddenStates then Some([]) else None;
    var hidden := h0;
    var idx := 0;
    while idx < |layers|
      invariant 0 <= idx <= |layers|
      invariant hidden == s[idx]
      invariant allHiddenStates == if outputHiddenStates then Some(s[..idx]) else None
      invariant allAttentions == if outputAttentions then Some(w[..idx]) else None
    {
      LayerStep(layers, h0, ctx, idx, outputAttentions);
      if outputHiddenStates {
        allHiddenStates := Some(allHiddenStates.value + [hidden]);
        PrefixStep(s, idx);
      }
      var layerOutputs := LayerForward(layers[idx], hidden, ctx, outputAttentions);
      hidden := layerOutputs.hidden;
      if outputAttentions {
        allAttentions := Some(allAttentions.value + [layerOutputs.weights.value]);
        PrefixStep(w, idx);
      }
      idx := idx + 1;
    }
    hidden := norm(hidden);
    if outputHiddenStates {
      allHiddenStates := Some(allHiddenStates.value + [hidden]);
    }
    assert s[..|layers|] == s[..idx];
    assert w[..idx] == w;
    out := BaseModelOutput(hidden, allHiddenStates, allAttentions);
  }

  /** One pass of the layer loop: the layer maps state `idx` to state `idx + 1`, whatever the flag. */
  lemma LayerStep(layers: seq<Layer>, h0: Hidden, ctx: Context, idx: nat, outputAttentions: bool)
    requires idx < |layers|
    ensures var s := States(layers, h0, ctx);
      LayerForward(layers[idx], s[idx], ctx, outputAttentions).hidden == s[idx + 1]
  {
    var s := States(layers, h0, ctx);
    HiddenIgnoresFlag(layers[idx], s[idx], ctx);
  }

  /** `expand_dims(mask, (1, 2))` on a 2-D mask; a mask of any other rank is kept. */
  function ExpandMask(m: Tensor<int>): (r: Tensor<int>)
    requires m.Valid()
    ensures r.Valid() && r.data == m.data
    ensures |m.shape| == 2 ==> r.shape == [m.shape[0], 1, 1, m.shape[1]]
    ensures |m.shape| != 2 ==> r == m
  {
    if |m.shape| != 2 then m
    else
      ProductPair(m.shape[0], m.shape[1]);
      ProductUnits(m.shape[0], m.shape[1]);
      assert m.shape == [m.shape[0], m.shape[1]];
      Tensor([m.shape[0], 1, 1, m.shape[1]], m.data)
  }

  lemma ProductUnits(a: nat, b: nat)
    ensures Product([a, 1, 1, b]) == a * b
  {
    assert [a, 1, 1, b] == [a] + [1, 1, b];
    assert [1, 1, b] == [1] + [1, b];
    ProductCons(a, [1, 1, b]);
    ProductCons(1, [1, b]);
    ProductPair(1, b);
  }

  datatype MistralConfig = MistralConfig(maxPositionEmbeddings: nat, padTokenId: Option<nat>)

  /**
   * The embeddings of the one input given, with the batch size and sequence
   * length read from their shape: token ids must be (batch, length) and
   * embeddings (batch, length, hidden).
   */
  function Embeddings(inputIds: Option<Tensor<nat>>, inputEmbeds: Option<Tensor<real>>, table: nat -> Vec)
    : (r: Result<(Hidden, nat, nat), InputError>)
    requires inputEmbeds.Some? ==> inputEmbeds.value.Valid()
    requires inputIds.Some? || inputEmbeds.Some?
    ensures inputEmbeds.Some? ==>
      (r.Ok? <==> |inputEmbeds.value.shape| == 3) &&
      (r.Ok? ==> r.value == (EmbedRows(inputEmbeds.value).value, inputEmbeds.value.shape[0], inputEmbeds.value.shape[1]))
    ensures inputEmbeds.None? ==>
      (r.Ok? <==> |inputIds.value.shape| == 2) &&
      (r.Ok? ==> r.value == (EmbedIds(inputIds.value, table).value, inputIds.value.shape[0], inputIds.value.shape[1]))
    ensures r.Err? ==> r.error == EmbedsRank
  {
    if inputEmbeds.Some? then
      var x :- EmbedRows(inputEmbeds.value);
      Ok((x, inputEmbeds.value.shape[0], inputEmbeds.value.shape[1]))
    else
      var x :- EmbedIds(inputIds.value, table);
      Ok((x, inputIds.value.shape[0], inputIds.value.shape[1]))
  }

  /**
   * The input handling of `MistralModel.__call__`, in its order: exactly one
   * input, embedding, the length assertion (before any mask or position is
   * looked at), the mask and position defaults, then the expansion of a 2-D
   * mask.
   */
  function Prepare(cfg: MistralConfig, inputIds: Option<Tensor<nat>>, inputEmbeds: Option<Tensor<real>>,
                   mask: Option<Tensor<int>>, positions: Option<Tensor<nat>>, table: nat -> Vec)
    : (r: Result<(Hidden, Context), InputError>)
    requires inputEmbeds.Some? ==> inputEmbeds.value.Valid()
    requires mask.Some? ==> mask.value.Valid()
    ensures inputIds.Some? == inputEmbeds.Some? ==> r == Err(NotExactlyOne)
    ensures inputIds.Some? != inputEmbeds.Some? ==>
      var e := Embeddings(inputIds, inputEmbeds, table);
      (e.Err? ==> r == Err(EmbedsRank)) &&
      (e.Ok? && e.value.2 > cfg.maxPositionEmbeddings ==> r == Err(SequenceTooLong)) &&
      (e.Ok? && e.value.2 <= cfg.maxPositionEmbeddings ==>
        var mp := MaskAndPositions(mask, positions, e.value.1, e.value.2);
        (r.Ok? <==> mp.Ok?) && (r.Err? ==> r.error == MaskShape) &&
        (r.Ok? ==> r.value == (e.value.0, Context(ExpandMask(mp.value.0), mp.value.1))))
  {
    var _ :- ExactlyOne(inputIds.Some?, inputEmbeds.Some?);
    var e :- Embeddings(inputIds, inputEmbeds, table);
    if e.2 > cfg.maxPositionEmbeddings then Err(SequenceTooLong)
    else
      var mp :- MaskAndPositions(mask, positions, e.1, e.2);
      Ok((e.0, Context(ExpandMask(mp.0), mp.1)))
  }

  /**
   * `MistralModel.__call__`. The output flags are not defaulted from the
   * configuration: a flag that is not given counts as false.
   */
  method Forward(cfg: MistralConfig, layers: seq<Layer>, norm: Mixer, table: nat -> Vec,
                 inputIds: Option<Tensor<nat>>, inputEmbeds: Option<Tensor<real>>,
                 mask: Option<Tensor<int>>, positions: Option<Tensor<nat>>,
                 outputAttentions: Option<bool>, outputHiddenStates: Option<bool>)
    returns (r: Result<BaseModelOutput, InputError>)
    requires inputEmbeds.Some? ==> inputEmbeds.value.Valid()
    requires mask.Some? ==> mask.value.Valid()
    ensures var p := Prepare(cfg, inputIds, inputEmbeds, mask, positions, table);
      (r.Err? <==> p.Err?) && (r.Err? ==> r.error == p.error) &&
      (r.Ok? ==> r.value == Collected(layers, norm, p.value.0, p.value.1,
                   outputAttentions == Some(true), outputHiddenStates == Some(true)))
  {
    var p := Prepare(cfg, inputIds, inputEmbeds, mask, positions, table);
    if p.Err? {
      return Err(p.error);
    }
    var out := RunLayers(layers, norm, p.value.0, p.value.1,
                         outputAttentions.GetOr(false), outputHiddenStates.GetOr(false));
    return Ok(out);
  }

  /** The first index of `pad` in the row, or the row's length when it does not occur. */
  function IndexOf(row: seq<nat>, pad: nat): (r: nat)
    ensures r <= |row|
    ensures r < |row| ==> row[r] == pad
    ensures forall j :: 0 <= j < r ==> row[j] != pad
  {
    if row == [] then 0
    else if row[0] == pad then 0
    else 1 + IndexOf(row[1..], pad)
  }

  /** `argmax(row == pad)`: the first pad position, or 0 when the row has no pad. */
  function FirstPad(row: seq<nat>, pad: nat): nat
  {
    var i := IndexOf(row, pad);
    if i < |row| then i else 0
  }

  datatype PoolError =
    | NoPadBatch      // no pad token is configured and the batch is not a single row
    | EmptySequence   // there is no position to pool from

  /**
   * The position `MistralForSequenceClassification` pools for each row:
   * `(argmax(ids == pad) - 1) % length` with the ids, and the last position
   * (index -1) without a pad token or without ids.
   */
  function PoolIndices(padTokenId: Option<nat>, inputIds: Option<seq<seq<nat>>>, batch: nat, length: nat)
    : (r: Result<seq<nat>, PoolError>)
    requires inputIds.Some? ==> |inputIds.value| == batch
    requires inputIds.Some? ==> forall b :: 0 <= b < batch ==> |inputIds.value[b]| == length
    ensures r.Err? <==> (padTokenId.None? && batch != 1) || length == 0
    ensures padTokenId.None? && batch != 1 ==> r == Err(NoPadBatch)
    ensures r.Ok? ==> |r.value| == batch && forall b :: 0 <= b < batch ==> r.value[b] < length
    ensures r.Ok? && (padTokenId.None? || inputIds.None?) ==> forall b :: 0 <= b < batch ==> r.value[b] == length - 1
    ensures r.Ok? && padTokenId.Some? && inputIds.Some? ==> forall b :: 0 <= b < batch ==>
      var p := IndexOf(inputIds.value[b], padTokenId.value);
      r.value[b] == if 0 < p < length then p - 1 else length - 1
  {
    if padTokenId.None? && batch != 1 then Err(NoPadBatch)
    else if length == 0 then Err(EmptySequence)
    else if padTokenId.None? || inputIds.None? then Ok(seq(batch, _ => length - 1))
    else
      Ok(seq(batch, b requires 0 <= b < batch => PoolIndex(inputIds.value[b], padTokenId.value, length)))
  }

  /** One row's pooled position: the token before the first pad, wrapping to the last position at 0. */
  function PoolIndex(row: seq<nat>, pad: nat, length: nat): (r: nat)
    requires |row| == length > 0
    ensures r < length
    ensures var p := IndexOf(row, pad); r == if 0 < p < length then p - 1 else length - 1
  {
    var i := (FirstPad(row, pad) as int - 1) % length;
    MinusOneMod(length);
    i
  }

  /** Python's `-1 % n` is `n - 1`; Dafny's `%` agrees for a positive divisor. */
  lemma MinusOneMod(n: nat)
    requires n > 0
    ensures (-1) % n == n - 1
  {
    assert -1 == (-1) * n + (n - 1);
  }
}
