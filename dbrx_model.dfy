/**
 * The DBRX decoder stack of easydel/modules/dbrx/modelling_dbrx_flax.py:
 * `DbrxNormAttentionNorm`, the output tuple of `DbrxBlock`, the input
 * handling and layer loop of `DbrxModel.__call__`, and the gating of the
 * auxiliary loss in `DbrxForCausalLM.__call__`. Norms, attention and the
 * MoE feed-forward are function values; dropout is the identity.
 */
module DbrxModel {
  import opened Wrappers
  import opened Tensors
  import opened Decoder
  import opened ModelInputs

  /** The router weights of one block, one row per token. */
  type RouterLogits = seq<Vec>

  /** What `DbrxFFN` returns: the combined expert output and the router weights. */
  datatype FfnOut = FfnOut(hidden: Hidden, logits: RouterLogits)

  /** `DbrxFFN` as a function of its input state; `DbrxMoe.Ffn` models its inside. */
  type FfnFn = Hidden -> FfnOut

  datatype Block = Block(norm1: Mixer, attn: AttnFn, norm2: Mixer, ffn: FfnFn)

  /** The attention half of a block: the attention output added to the block input. */
  function Resid(b: Block, h: Hidden, ctx: Context): Hidden
  {
    AddRows(b.attn(b.norm1(h), ctx), h)
  }

  datatype NormAttn = NormAttn(resid: Hidden, hidden: Hidden, weights: Option<bool>)

  /**
   * `DbrxNormAttentionNorm.__call__`. The attention appends its
   * `output_attentions` flag, not its weights, so the weights handed on are
   * the flag itself when it is set and None otherwise.
   */
  function NormAttentionNorm(b: Block, h: Hidden, ctx: Context, outputAttentions: bool): (r: NormAttn)
    ensures r.resid == Resid(b, h, ctx) && r.hidden == b.norm2(r.resid)
    ensures r.weights == if outputAttentions then Some(true) else None
  {
    var attnOutput := b.attn(b.norm1(h), ctx);
    var weights := if outputAttentions then Some(outputAttentions) else None;
    var resid := AddRows(attnOutput, h);
    NormAttn(resid, b.norm2(resid), weights)
  }

  /** The state a block hands to the next one. */
  function BlockHidden(b: Block, h: Hidden, ctx: Context): Hidden
  {
    var resid := Resid(b, h, ctx);
    AddRows(resid, b.ffn(b.norm2(resid)).hidden)
  }

  /** The router weights a block computes. */
  function BlockLogits(b: Block, h: Hidden, ctx: Context): RouterLogits
  {
    b.ffn(b.norm2(Resid(b, h, ctx))).logits
  }

  /** An entry of the tuple a block returns. */
  datatype BlockItem = HiddenOut(hidden: Hidden) | WeightsOut(weights: Option<bool>) | LogitsOut(logits: RouterLogits)

  /**
   * `DbrxBlock.__call__`: the new state, then the attention entry when
   * `output_attentions` is set, then the router weights when
   * `output_router_logits` is set.
   */
  function BlockOutputs(b: Block, h: Hidden, ctx: Context, outputAttentions: bool, outputRouterLogits: bool)
    : (r: seq<BlockItem>)
    ensures |r| == 1 + (if outputAttentions then 1 else 0) + (if outputRouterLogits then 1 else 0)
    ensures r[0] == HiddenOut(BlockHidden(b, h, ctx))
    ensures outputAttentions ==> r[1] == WeightsOut(Some(true))
    ensures outputRouterLogits ==> r[|r| - 1] == LogitsOut(BlockLogits(b, h, ctx))
  {
    var na := NormAttentionNorm(b, h, ctx, outputAttentions);
    var ffnOut := b.ffn(na.hidden);
    var outputs := [HiddenOut(AddRows(na.resid, ffnOut.hidden))];
    var outputs := if outputAttentions then outputs + [WeightsOut(na.weights)] else outputs;
    if outputRouterLogits then outputs + [LogitsOut(ffnOut.logits)] else outputs
  }

  /**
   * A block is the pre-norm residual form with the normed attention and the
   * normed MoE, when the MoE keeps the shape of its input.
   */
  lemma BlockIsSequential(b: Block, h: Hidden, ctx: Context)
    requires SameShape(b.ffn(b.norm2(Resid(b, h, ctx))).hidden, Resid(b, h, ctx))
    ensures BlockHidden(b, h, ctx) ==
      Sequential(h, x => b.attn(b.norm1(x), ctx), x => b.ffn(b.norm2(x)).hidden)
  {
    var resid := Resid(b, h, ctx);
    AddRowsCommutes(resid, b.ffn(b.norm2(resid)).hidden);
  }

  /** The state before block `i`, for every `i`, and the state after the last block. */
  function States(blocks: seq<Block>, h: Hidden, ctx: Context): (r: seq<Hidden>)
    ensures |r| == |blocks| + 1 && r[0] == h
    ensures forall i :: 0 <= i < |blocks| ==> r[i + 1] == BlockHidden(blocks[i], r[i], ctx)
    decreases |blocks|
  {
    if blocks == [] then [h]
    else
      var s := States(blocks[..|blocks| - 1], h, ctx);
      s + [BlockHidden(blocks[|blocks| - 1], s[|blocks| - 1], ctx)]
  }

  /** What `DbrxModel.__call__` collects, with `all_*` empty when the flag is off. */
  datatype ModelOutput = ModelOutput(
    lastHiddenState: Hidden,
    hiddenStates: seq<Hidden>,
    attentions: seq<Option<bool>>,
    routerLogits: seq<RouterLogits>)

  datatype Flags = Flags(outputAttentions: bool, outputHiddenStates: bool, outputRouterLogits: bool)

  /**
   * The outputs of the layer loop and the final norm: the state before every
   * block and the normed last state when hidden states are requested, the
   * flag of every block when attentions are requested, and the router
   * weights of every block, on the state that block read, when router
   * logits are requested.
   */
  function Collected(blocks: seq<Block>, normF: Mixer, h: Hidden, ctx: Context, flags: Flags): (r: ModelOutput)
  {
    var s := States(blocks, h, ctx);
    var last := normF(s[|blocks|]);
    ModelOutput(
      last,
      if flags.outputHiddenStates then s[..|blocks|] + [last] else [],
      if flags.outputAttentions then Flagged(|blocks|) else [],
      if flags.outputRouterLogits then AllLogits(blocks, s, ctx) else [])
  }

  /** The attention entry of every block: the flag itself. */
  function Flagged(n: nat): (r: seq<Option<bool>>)
    ensures |r| == n && forall i :: 0 <= i < n ==> r[i] == Some(true)
  {
    seq(n, i => Some(true))
  }

  /** The router weights of every block, each on the state that block read. */
  function AllLogits(blocks: seq<Block>, s: seq<Hidden>, ctx: Context): (r: seq<RouterLogits>)
    requires |s| > |blocks|
    ensures |r| == |blocks|
    ensures forall i {:trigger r[i]} :: 0 <= i < |blocks| ==> r[i] == BlockLogits(blocks[i], s[i], ctx)
  {
    seq(|blocks|, i requires 0 <= i < |blocks| => BlockLogits(blocks[i], s[i], ctx))
  }

  /**
   * The counts the outputs promise: one router entry per block exactly when
   * router logits are requested, layers + 1 hidden states when hidden
   * states are requested (the first being the embeddings when there is at
   * least one block, and the last the normed output), and attention entries
   * that are all the flag.
   */
  lemma CollectedCounts(blocks: seq<Block>, normF: Mixer, h: Hidden, ctx: Context, flags: Flags)
    ensures var r := Collected(blocks, normF, h, ctx, flags);
      |r.routerLogits| == (if flags.outputRouterLogits then |blocks| else 0) &&
      |r.hiddenStates| == (if flags.outputHiddenStates then |blocks| + 1 else 0) &&
      |r.attentions| == (if flags.outputAttentions then |blocks| else 0) &&
      (forall i :: 0 <= i < |r.attentions| ==> r.attentions[i] == Some(true)) &&
      (flags.outputHiddenStates ==> r.hiddenStates[|blocks|] == r.lastHiddenState) &&
      (flags.outputHiddenStates && |blocks| > 0 ==> r.hiddenStates[0] == h)
  {
  }

  /** The loop of `DbrxModel.__call__` over the blocks, followed by `norm_f`. */
  method RunBlocks(blocks: seq<Block>, normF: Mixer, h0: Hidden, ctx: Context, flags: Flags)
    returns (out: ModelOutput)
    ensures out == Collected(blocks, normF, h0, ctx, flags)
  {
    ghost var s := States(blocks, h0, ctx);
    ghost var logits := AllLogits(blocks, s, ctx);
    ghost var flagged := Flagged(|blocks|);
    var hidden := h0;
    var allHidden: seq<Hidden> := [];
    var allRouter: seq<RouterLogits> := [];
    var allAttn: seq<Option<bool>> := [];
    var idx := 0;
    while idx < |blocks|
      invariant 0 <= idx <= |blocks|
      invariant hidden == s[idx]
      invariant allHidden == if flags.outputHiddenStates then s[..idx] else []
      invariant allAttn == if flags.outputAttentions then flagged[..idx] else []
      invariant allRouter == if flags.outputRouterLogits then logits[..idx] else []
    {
      if flags.outputHiddenStates {
        allHidden := allHidden + [hidden];
        PrefixStep(s, idx);
      }
      var outputs := BlockOutputs(blocks[idx], hidden, ctx, flags.outputAttentions, flags.outputRouterLogits);
      hidden := outputs[0].hidden;
      if flags.outputAttentions {
        allAttn := allAttn + [outputs[1].weights];
        PrefixStep(flagged, idx);
      }
      if flags.outputRouterLogits {
        allRouter := allRouter + [outputs[|outputs| - 1].logits];
        PrefixStep(logits, idx);
      }
      idx := idx + 1;
    }
    hidden := normF(hidden);
    if flags.outputHiddenStates {
      allHidden := allHidden + [hidden];
    }
    assert s[..|blocks|] == s[..idx];
    assert flagged[..idx] == flagged && logits[..idx] == logits;
    out := ModelOutput(hidden, allHidden, allAttn, allRouter);
  }

  /** The configuration values `DbrxModel.__call__` falls back on. */
  datatype DbrxConfig = DbrxConfig(
    outputAttentions: bool, outputHiddenStates: bool, outputRouterLogits: bool,
    routerAuxLossCoef: real)

  /** Each output flag is the argument when given and the configuration's value otherwise. */
  function ResolveFlags(cfg: DbrxConfig, outputAttentions: Option<bool>, outputHiddenStates: Option<bool>,
                        outputRouterLogits: Option<bool>): Flags
  {
    Flags(outputAttentions.GetOr(cfg.outputAttentions), outputHiddenStates.GetOr(cfg.outputHiddenStates),
          outputRouterLogits.GetOr(cfg.outputRouterLogits))
  }

  /**
   * The input handling of `DbrxModel.__call__`: only token ids are accepted;
   * they are embedded (a (batch, length) array of ids), and the mask and
   * positions are defaulted from the batch and length.
   */
  function Prepare(inputIds: Option<Tensor<nat>>, hasEmbeds: bool, mask: Option<Tensor<int>>,
                   positions: Option<Tensor<nat>>, wte: nat -> Vec): (r: Result<(Hidden, Context), InputError>)
    requires mask.Some? ==> mask.value.Valid()
    ensures r.Ok? ==> inputIds.Some? && !hasEmbeds
    ensures inputIds.Some? && hasEmbeds ==> r == Err(BothInputs)
    ensures inputIds.None? ==> r == Err(MissingIds)
    ensures inputIds.Some? && !hasEmbeds ==>
      (r.Ok? <==> EmbedIds(inputIds.value, wte).Ok? &&
                  MaskAndPositions(mask, positions, inputIds.value.shape[0], inputIds.value.shape[1]).Ok?)
    ensures r.Ok? ==>
      var ids := inputIds.value;
      var mp := MaskAndPositions(mask, positions, ids.shape[0], ids.shape[1]).value;
      r.value == (EmbedIds(ids, wte).value, Context(mp.0, mp.1))
  {
    var _ :- IdsOnly(inputIds.Some?, hasEmbeds);
    var ids := inputIds.value;
    var embeds :- EmbedIds(ids, wte);
    var mp :- MaskAndPositions(mask, positions, ids.shape[0], ids.shape[1]);
    Ok((embeds, Context(mp.0, mp.1)))
  }

  /** `DbrxModel.__call__`. */
  method Forward(cfg: DbrxConfig, blocks: seq<Block>, normF: Mixer, wte: nat -> Vec,
                 inputIds: Option<Tensor<nat>>, inputEmbeds: Option<Tensor<real>>,
                 mask: Option<Tensor<int>>, positions: Option<Tensor<nat>>,
                 outputAttentions: Option<bool>, outputHiddenStates: Option<bool>, outputRouterLogits: Option<bool>)
    returns (r: Result<ModelOutput, InputError>)
    requires mask.Some? ==> mask.value.Valid()
    ensures var p := Prepare(inputIds, inputEmbeds.Some?, mask, positions, wte);
      (r.Err? <==> p.Err?) && (r.Err? ==> r.error == p.error) &&
      (r.Ok? ==> r.value == Collected(blocks, normF, p.value.0, p.value.1,
                   ResolveFlags(cfg, outputAttentions, outputHiddenStates, outputRouterLogits)))
  {
    var p := Prepare(inputIds, inputEmbeds.Some?, mask, positions, wte);
    if p.Err? {
      return Err(p.error);
    }
    var flags := ResolveFlags(cfg, outputAttentions, outputHiddenStates, outputRouterLogits);
    var out := RunBlocks(blocks, normF, p.value.0, p.value.1, flags);
    return Ok(out);
  }

  /**
   * The auxiliary loss of `DbrxForCausalLM.__call__`: computed from the
   * collected router weights and scaled by `router_aux_loss_coef` when
   * router logits are requested, and None otherwise. The collected weights
   * are a tuple, never None, so the flag alone decides. `loss` is the
   * load-balancing loss, which is not modelled.
   */
  function AuxLoss(outputRouterLogits: bool, routerLogits: seq<RouterLogits>,
                   loss: seq<RouterLogits> -> real, coef: real): (r: Option<real>)
    ensures r.Some? <==> outputRouterLogits
    ensures r.Some? ==> r.value == loss(routerLogits) * coef
  {
    if outputRouterLogits then Some(loss(routerLogits) * coef) else None
  }

  /**
   * Through the whole model: the auxiliary loss exists exactly when router
   * logits are requested (explicitly or by the configuration), and it is
   * then computed from one router entry per block.
   */
  lemma AuxLossOfModel(cfg: DbrxConfig, blocks: seq<Block>, normF: Mixer, h: Hidden, ctx: Context,
                       outputAttentions: Option<bool>, outputHiddenStates: Option<bool>,
                       outputRouterLogits: Option<bool>, loss: seq<RouterLogits> -> real)
    ensures var flags := ResolveFlags(cfg, outputAttentions, outputHiddenStates, outputRouterLogits);
      var out := Collected(blocks, normF, h, ctx, flags);
      var aux := AuxLoss(flags.outputRouterLogits, out.routerLogits, loss, cfg.routerAuxLossCoef);
      (aux.Some? <==> outputRouterLogits == Some(true) || (outputRouterLogits.None? && cfg.outputRouterLogits)) &&
      (aux.Some? ==> |out.routerLogits| == |blocks|)
  {
    var flags := ResolveFlags(cfg, outputAttentions, outputHiddenStates, outputRouterLogits);
    CollectedCounts(blocks, normF, h, ctx, flags);
  }
}
