# EasyDeL core, modelled in Dafny

This project models part of EasyDeL, a JAX/Flax library for training and
serving large language models, and proves properties of that model. The
modelled parts are:

- **The NF4 weight codec** (`easydel/layers/quantization/linear_nf4.py`).
  Weights are cut into blocks and each block is scaled by its absolute
  maximum. Each scaled value is coded as the index of its cell in a table of
  16 boundaries. Two 4-bit codes are packed into one byte. Decoding unpacks
  the codes, looks up their levels and multiplies by the block's absmax.
  - Module `NF4` holds the single-array codec.
  - Module `NF4Batched` holds the versions that map over a leading batch axis.
  - Module `LinearNF4Layer` holds the `LinearNF4` layer as a class: its
    stored arrays, `from_linear`, `to_linear` and the bias check of
    `__call__`.
- **The DBRX model** (`easydel/modules/dbrx/modelling_dbrx_flax.py`):
  - `DbrxAttention`: the head layout and the split of the fused, clipped QKV
    projection.
  - `DbrxMoe`: the mixture-of-experts router, with top-k selection
    (descending weights, lowest index first on ties), jitter, optional
    renormalisation and uniform expert assignment. It also holds the expert
    loop, proved equal to a sparse sum over the selected experts.
  - `DbrxModel`: the block and model forward passes, the outputs each flag
    requests, and the auxiliary loss.
- **Mistral** (`easydel/modules/mistral/modeling_mistral_flax.py`), in module
  `Mistral`: the decoder layer, the model's input handling and layer loop,
  and the pooled position of sequence classification.
- **GPT-NeoX** (`easydel/modules/gpt_neo_x/modeling_gpt_neo_x_flax.py`), in
  module `GptNeoX`: the three-way QKV split, the parallel and sequential
  residual block, the model loop, and the tied language-model head as a class
  whose kernel is overwritten.
- **Shared modules**:
  - `Decoder`: the residual block forms.
  - `Heads`: key/value head grouping.
  - `ModelInputs`: default masks and cumulative-sum position ids, and the
    input checks.
  - `Tensors`: flat row-major arrays with a shape.
  - `Wrappers`: `Option` and `Result`.
- **The Qwen2-VL configuration**
  (`easydel/modules/qwen2_vl/qwen2_vl_configuration.py`), in module
  `Qwen2VLConfiguration`:
  - the vision defaults;
  - the key/value head and head-size defaults;
  - the in-place `mrope` rewrite of the rope dictionary;
  - the partition-rule table.
- **Timers** (`easydel/utils/helpers.py`), in module `Helpers`:
  - `Timer` and `Timers` as classes whose state the methods update;
  - the reading loop of `write` and `log`;
  - the unit chosen for printing;
  - `get_cache_dir`.
- **The chat prompt of `train_clm.py`**, in module `TrainClm`.

Numerics the code gets from JAX are parameters of the model: matrix
products, softmax, norms, rotary embedding, activations and the attention
kernel itself. A sub-layer is a function from a state to a state. The
properties proved are about structure:
- what is selected;
- what is added to what;
- which array shape comes out;
- which error is raised;
- which outputs a flag produces;
- what a round trip through the codec gives back.

Real numbers stand for floating-point values.

Points where the code differs from what a reader might expect, and which
the model follows:
- **Mistral flags.** `MistralModel.__call__` does not default
  `output_attentions` and `output_hidden_states` from the configuration. A
  flag that is not given counts as false.
- **DBRX flags.** `DbrxModel.__call__` takes each flag from the argument when
  given, and from the configuration otherwise.
- **DBRX attention output.** `DbrxAttention.__call__` returns its
  `output_attentions` flag in the place of the attention weights. Every
  collected attention entry is therefore `True`.
- **DBRX and GPT-NeoX inputs.** Both accept only token ids. Passing
  embeddings raises, and so does giving neither input.
- **Order of the length check.** GPT-NeoX checks the sequence length after
  defaulting the positions. Mistral checks it before looking at the mask.
- **`LinearNF4.__init__` with `do_init`.** It calls `_quantize_kernel`
  without its block size argument, which is a `TypeError`. The model returns
  an error there.
- **All-zero blocks.** A block whose absmax is zero divides by zero when
  encoded. The model reports this as an error instead of producing NaN.

## Model

| member | source | states |
|---|---|---|
| `NF4.LevelsShape` | easydel/layers/quantization/linear_nf4.py:27-47 | the NF4 level table has 16 strictly increasing entries from -1 to 1, with 0 at index 7 |
| `NF4.BoundariesShape` | easydel/layers/quantization/linear_nf4.py:49-69 | the boundary table has 16 strictly increasing entries, the first minus infinity and all others finite |
| `NF4.SearchSorted` | easydel/layers/quantization/linear_nf4.py:88 | left-side sorted search: every boundary before the result is below the value, and the one at the result is not |
| `NF4.SearchSortedSplits` | easydel/layers/quantization/linear_nf4.py:88 | over an ascending table, boundary `i` is below the value if and only if `i` is less than the search result |
| `NF4.CodeCell` | easydel/layers/quantization/linear_nf4.py:88 | `searchsorted - 1` gives code `c` if and only if the value lies in cell c, that is `Boundaries[c] < v <= Boundaries[c+1]` (or c is 15) |
| `NF4.CodeMonotone` | easydel/layers/quantization/linear_nf4.py:88 | a larger normalised value never gets a smaller code |
| `NF4.CodeOfLevel` | easydel/layers/quantization/linear_nf4.py:88 | coding a table level returns that level's index, so every level is a fixed point of the coder |
| `NF4.CodeExact` | easydel/layers/quantization/linear_nf4.py:88 | 0, 1 and -1 are coded as 7, 15 and 0 |
| `NF4.LevelRange` | easydel/layers/quantization/linear_nf4.py:27-47 | every level lies in [-1, 1]; codes from 7 upward are non-negative and codes up to 7 non-positive |
| `NF4.CodeSign` | easydel/layers/quantization/linear_nf4.py:88 | non-negative values get codes of at least 7, non-positive values codes of at most 7 |
| `NF4.MaxAbs` | easydel/layers/quantization/linear_nf4.py:82 | the block absmax bounds every element's magnitude and is attained by some element |
| `NF4.NormalisedRange` | easydel/layers/quantization/linear_nf4.py:82-85 | dividing by a positive absmax puts every element in [-1, 1] |
| `NF4.BlockCodes` | easydel/layers/quantization/linear_nf4.py:85-88 | one code per element of the block |
| `NF4.ByteValue` | easydel/layers/quantization/linear_nf4.py:92 | shifting the high code left by 4 and or-ing in the low code gives the byte `16 * hi + lo` |
| `NF4.SplitByte` | easydel/layers/quantization/linear_nf4.py:102-103 | `(p >> 4) & 0xF` and `p & 0xF` recover the two packed codes |
| `NF4.JoinByte` | easydel/layers/quantization/linear_nf4.py:92-103 | every byte is the packing of its own high and low nibbles |
| `NF4.Pack` | easydel/layers/quantization/linear_nf4.py:91-92 | an even number of codes gives half as many bytes; byte `i` carries code `2i` high and code `2i+1` low |
| `NF4.Unpack` | easydel/layers/quantization/linear_nf4.py:102-104 | unpacking gives two codes per byte |
| `NF4.UnpackAt` | easydel/layers/quantization/linear_nf4.py:102-104 | unpacked code `2i` is the high nibble of byte `i` and code `2i+1` its low nibble |
| `NF4.UnpackPack` | easydel/layers/quantization/linear_nf4.py:91-104 | unpacking inverts packing on every even-length code sequence |
| `NF4.PackUnpack` | easydel/layers/quantization/linear_nf4.py:91-104 | packing inverts unpacking on every byte sequence |
| `NF4.DecodeBounds` | easydel/layers/quantization/linear_nf4.py:106-110 | a decoded value lies within the block absmax and has the sign of its level |
| `NF4.DecodeExact` | easydel/layers/quantization/linear_nf4.py:106-110 | codes 7, 15 and 0 decode to 0, the absmax and minus the absmax |
| `NF4.DecodeNormalised` | easydel/layers/quantization/linear_nf4.py:85-110 | encoding then decoding one value keeps it within the absmax and keeps its sign; 0 and plus or minus the absmax come back exactly |
| `NF4.Blocks` | easydel/layers/quantization/linear_nf4.py:79 | `reshape(-1, block_size)` succeeds if and only if the block size is positive and divides the length; the blocks then concatenate back to the input |
| `NF4.Absmax` | easydel/layers/quantization/linear_nf4.py:82 | entry `b` is the absmax of block `b` |
| `NF4.Codes` | easydel/layers/quantization/linear_nf4.py:85-88 | the codes of each block are computed with that block's own absmax |
| `NF4.SingleQuantizeAndPack` | easydel/layers/quantization/linear_nf4.py:73-94 | the error cases and their order: a block/length mismatch, then an odd length, then a zero absmax; success exactly when every block has a non-zero absmax; the byte count is half the element count and the absmax is the per-block absmax |
| `NF4.SingleDequantize` | easydel/layers/quantization/linear_nf4.py:98-111 | succeeds if and only if twice the byte count equals `len(absmax) * block_size`; element `j` of row `b` is the level of unpacked code `(b, j)` times `absmax[b]` |
| `NF4.SingleQuantizeCodes` | easydel/layers/quantization/linear_nf4.py:73-104 | the packed bytes of the encoder unpack, row by row, to the codes of the blocks |
| `NF4.SingleRoundTrip` | easydel/layers/quantization/linear_nf4.py:73-111 | decoding what the encoder produced succeeds, and element `(b, j)` is the level of that weight's code times the block absmax |
| `NF4.SingleRoundTripBounds` | easydel/layers/quantization/linear_nf4.py:73-111 | after a round trip every element lies within its block absmax and keeps its sign; zeros and elements of largest magnitude come back exactly |
| `NF4Batched.ShapeOkBlockSize` | easydel/layers/quantization/linear_nf4.py:115-120 | a shape the encoder accepts has a positive block size |
| `NF4Batched.QuantizeAndPack` | easydel/layers/quantization/linear_nf4.py:115-120 | the shape errors are those of the innermost slices; the only other error is a zero absmax; a success gives the batched packed and absmax shapes |
| `NF4Batched.QuantizeSlices` | easydel/layers/quantization/linear_nf4.py:116-119 | for rank above two, slice `i` of the batched result is the encoding of slice `i` of the input (the vmap) |
| `NF4Batched.DequantizeNF4` | easydel/layers/quantization/linear_nf4.py:124-129 | the decoder with the batch recursion taken while the packed rank exceeds one: it succeeds exactly when the slice shapes agree, and gives that shape |
| `NF4Batched.RoundTripShapes` | easydel/layers/quantization/linear_nf4.py:115-129 | the decoder accepts every shape pair the encoder produces, and returns the leading axes followed by (blocks, block size), with the element count unchanged |
| `NF4Batched.QuantizeDequantize` | easydel/layers/quantization/linear_nf4.py:115-129 | quantising then dequantising any tensor succeeds and keeps the number of elements |
| `NF4Batched.AsWrittenFlatAgrees` | easydel/layers/quantization/linear_nf4.py:124-129 | on flat packed arrays, the decoder as written agrees with the corrected one |
| `NF4Batched.AsWrittenShapeDefect` | easydel/layers/quantization/linear_nf4.py:124-129 | for input shape (B, 1, block_size) with B >= 2, the decoder as written returns shape (B, B, block_size); the corrected one returns (B, 1, block_size) |
| `NF4Batched.AsWrittenRejectsTwoBlocks` | easydel/layers/quantization/linear_nf4.py:124-129 | for input shape (2, 2, 64) and block size 64, the decoder as written fails its reshape; the corrected one gives (2, 2, 64) |
| `LinearNF4Layer.Linear.Abstract` | easydel/layers/quantization/linear_nf4.py:219-232 | the shape-only `nnx.Linear` has the kernel shape (in, out) and no bias values |
| `LinearNF4Layer.DequantizedKernel` | easydel/layers/quantization/linear_nf4.py:247-253 | fails with NotQuantized when either stored array is missing; passes on decoder errors; when the decoder succeeds, succeeds exactly when it yields in_features * out_features values, and then holds the decoder's values with shape (in_features, out_features) |
| `LinearNF4Layer.LinearNF4.constructor` | easydel/layers/quantization/linear_nf4.py:135-177 | `__init__` without initialisation stores the sizes, use_bias and block size, and no kernel, scales or bias |
| `LinearNF4Layer.LinearNF4.Create` | easydel/layers/quantization/linear_nf4.py:152-157 | with `do_init`, the call fails (the missing block size argument); without it, gives the empty layer |
| `LinearNF4Layer.LinearNF4.FromLinear` | easydel/layers/quantization/linear_nf4.py:179-213 | fails exactly when quantising the kernel fails; otherwise stores the sizes and use_bias, the packed kernel and scales of `quantize_and_pack_nf4`, and the bias only when use_bias is set |
| `LinearNF4Layer.LinearNF4.DequantizeKernel` | easydel/layers/quantization/linear_nf4.py:247-253 | fails with NotQuantized while the layer stores no kernel or no scales; succeeds exactly when both are stored and the decoder yields in_features * out_features values; a decoded kernel holds the decoder's values with shape (in_features, out_features) |
| `LinearNF4Layer.LinearNF4.ToLinear` | easydel/layers/quantization/linear_nf4.py:215-240 | fails exactly when decoding fails; otherwise gives a fresh linear layer with the same sizes, the decoded kernel, and this layer's bias when use_bias is set |
| `LinearNF4Layer.EncodeDecodeLinear` | easydel/layers/quantization/linear_nf4.py:180-240 | `from_linear` then `to_linear` succeeds exactly when the kernel can be encoded, keeps sizes and bias, and gives a kernel of the original shape whose element `j` of block `b` is the level of that weight's code times the block absmax |
| `LinearNF4Layer.KernelRoundTrip` | easydel/layers/quantization/linear_nf4.py:242-253 | decoding a freshly encoded kernel gives shape (in, out), and element `j` of block `b` is the level of that weight's code times the block absmax |
| `LinearNF4Layer.FromLinearKeepsBias` | easydel/layers/quantization/linear_nf4.py:271-273 | the layer built from a consistent `nnx.Linear` passes the bias assertion of `__call__` and keeps its bias |
| `DbrxMoe.Best` | easydel/modules/dbrx/modelling_dbrx_flax.py:484 | the largest weight among the positions not yet taken, with the lowest index on ties, or None when every position is taken |
| `DbrxMoe.Pigeonhole` | easydel/modules/dbrx/modelling_dbrx_flax.py:484 | fewer than `n` selected indices leave some index below `n` free, so top-k always finds a next index |
| `DbrxMoe.TopIndices` | easydel/modules/dbrx/modelling_dbrx_flax.py:484 | `k` distinct in-range indices; each is a maximum of the weights not chosen before it and beats every lower-indexed unchosen one strictly |
| `DbrxMoe.TopIndicesExtend` | easydel/modules/dbrx/modelling_dbrx_flax.py:484 | appending the best free index to a valid top-k prefix gives a valid prefix one longer |
| `DbrxMoe.TopKRow` | easydel/modules/dbrx/modelling_dbrx_flax.py:484 | fails if and only if `k` exceeds the row length; otherwise gives `k` distinct in-range indices and their weights |
| `DbrxMoe.TopIndicesDescending` | easydel/modules/dbrx/modelling_dbrx_flax.py:484 | selected weights are non-increasing; equal weights come lowest index first |
| `DbrxMoe.TopIndicesDominate` | easydel/modules/dbrx/modelling_dbrx_flax.py:484 | every selected weight is at least every unselected one |
| `DbrxMoe.TopKRowOrder` | easydel/modules/dbrx/modelling_dbrx_flax.py:484 | the full top-k ordering promise on the returned values and indices |
| `DbrxMoe.Jitter` | easydel/modules/dbrx/modelling_dbrx_flax.py:468-474 | fails if and only if `moe_jitter_eps` is unset; otherwise one factor per entry |
| `DbrxMoe.NormalNoiseLeavesBand` | easydel/modules/dbrx/modelling_dbrx_flax.py:471-474 | with the normal draw the code makes, a negative draw gives a factor below 1 - eps, a draw above 1 one above 1 + eps, and a draw below (eps - 1) / (2 eps) a negative factor |
| `DbrxMoe.NormalNoiseFlipsSign` | easydel/modules/dbrx/modelling_dbrx_flax.py:473-474 | a draw of -60 with eps = 0.01 makes the factor negative |
| `DbrxMoe.JitterRange` | easydel/modules/dbrx/modelling_dbrx_flax.py:471-474 | a uniform draw in [0, 1] gives factors between 1 - eps and 1 + eps, for either sign of eps |
| `DbrxMoe.UniformJitter` | easydel/modules/dbrx/modelling_dbrx_flax.py:471-474 | jitter on a uniform draw: the factors of the code's formula, within [1 - eps, 1 + eps], equal to 1 - eps at draw 0 and 1 + eps at draw 1 |
| `DbrxMoe.RouterInput` | easydel/modules/dbrx/modelling_dbrx_flax.py:479-480 | deterministic calls, and calls without eps, use the tokens unchanged; otherwise each entry is multiplied by its jitter factor, which then cannot fail, and which is the `UniformJitter` factor for a uniform draw |
| `DbrxMoe.ArangeMod` | easydel/modules/dbrx/modelling_dbrx_flax.py:497-505 | entry `i` of `arange(n) % num_experts` is `i mod num_experts`, below num_experts |
| `DbrxMoe.UniformAssignment` | easydel/modules/dbrx/modelling_dbrx_flax.py:494-507 | a (tokens, top_k) array whose row-major flattening is `arange % num_experts` |
| `DbrxMoe.UniformAssignmentInRange` | easydel/modules/dbrx/modelling_dbrx_flax.py:494-507 | every uniformly assigned expert is a valid expert index |
| `DbrxMoe.UniformAssignmentFlat` | easydel/modules/dbrx/modelling_dbrx_flax.py:494-507 | flat entry `i` of the uniform assignment is `i mod num_experts`, whatever the weights |
| `DbrxMoe.TopRows` | easydel/modules/dbrx/modelling_dbrx_flax.py:484 | row `t` is the top-k of token `t`'s weights |
| `DbrxMoe.Select` | easydel/modules/dbrx/modelling_dbrx_flax.py:484-507 | the top weights are renormalised exactly when `moe_normalize_expert_weights` is truthy; the experts are the top-k indices, or the uniform assignment when it is enabled; every expert index is valid |
| `DbrxMoe.Route` | easydel/modules/dbrx/modelling_dbrx_flax.py:476-511 | the router fails if and only if top_k exceeds the expert count; otherwise it is `Select` on the gated, possibly jittered tokens |
| `DbrxMoe.GateRows` | easydel/modules/dbrx/modelling_dbrx_flax.py:479-483 | each token's weights are the gate applied after the jitter decision |
| `DbrxMoe.TopRowsInRange` | easydel/modules/dbrx/modelling_dbrx_flax.py:484 | the experts top-k selects from rows of `n` weights are below `n` |
| `DbrxMoe.SelectShapes` | easydel/modules/dbrx/modelling_dbrx_flax.py:484-507 | every token gets exactly top_k weights and top_k experts |
| `DbrxMoe.RouteDeterministic` | easydel/modules/dbrx/modelling_dbrx_flax.py:479-480 | deterministic routing gates the tokens unchanged, so the noise does not affect the result |
| `DbrxMoe.CoefUnselected` | easydel/modules/dbrx/modelling_dbrx_flax.py:427 | `sum(multiply(e == top_experts, top_weights))` is 0 for an expert that was not selected |
| `DbrxMoe.SparseScalarStep` | easydel/modules/dbrx/modelling_dbrx_flax.py:423-429 | admitting expert `n` adds its coefficient times its output to the sparse sum |
| `DbrxMoe.DenseScalarIsSparse` | easydel/modules/dbrx/modelling_dbrx_flax.py:423-430 | for one coordinate, the loop over all experts equals the sum over the selected (weight, expert) pairs |
| `DbrxMoe.SparseAt` | easydel/modules/dbrx/modelling_dbrx_flax.py:423-430 | each coordinate of the sparse vector sum is the scalar sparse sum of that coordinate |
| `DbrxMoe.DenseIsSparse` | easydel/modules/dbrx/modelling_dbrx_flax.py:423-430 | for one token, the dense accumulation over every expert is the weighted sum of the selected experts' outputs |
| `DbrxMoe.TokenOutputs` | easydel/modules/dbrx/modelling_dbrx_flax.py:423-429 | entry `e` is expert `e`'s output for token `t` |
| `DbrxMoe.Experts` | easydel/modules/dbrx/modelling_dbrx_flax.py:416-430 | the expert loop returns, for every token, the sum of the selected experts' outputs scaled by their top weights |
| `DbrxMoe.DenseAllStep` | easydel/modules/dbrx/modelling_dbrx_flax.py:424-429 | one pass of the loop adds expert `n`'s output, scaled by each token's coefficient, to every token |
| `DbrxMoe.DenseAllIsSparse` | easydel/modules/dbrx/modelling_dbrx_flax.py:423-430 | after all experts, every token holds its sparse sum |
| `DbrxMoe.Ffn` | easydel/modules/dbrx/modelling_dbrx_flax.py:546-550 | `DbrxFFN.__call__` fails if and only if top_k exceeds the expert count; the router weights are the gate outputs of the unjittered tokens; the output combines the experts `Select` picks |
| `DbrxMoe.ExpertRows` | easydel/modules/dbrx/modelling_dbrx_flax.py:362-370 | expert `e`'s slice of the reshaped parameter is rows `e * ffn_hidden ..` of the flat parameter |
| `DbrxMoe.ExpertRowsTile` | easydel/modules/dbrx/modelling_dbrx_flax.py:352-370 | the experts' slices, in order, tile the whole parameter |
| `DbrxAttention.Layout` | easydel/modules/dbrx/modelling_dbrx_flax.py:82-86 | head_dim is `d_model // n_heads`; the group count and its assertion fail exactly for no heads or for kv < heads < 2 kv |
| `DbrxAttention.QkvWidth` | easydel/modules/dbrx/modelling_dbrx_flax.py:87-89 | the fused projection is the hidden size plus two key/value blocks wide |
| `DbrxAttention.ClipRow` | easydel/modules/dbrx/modelling_dbrx_flax.py:163-167 | without `clip_qkv` the row is unchanged; with a non-negative clip every entry is clamped to [-clip, clip] and entries in range are kept; a negative clip sends every entry to the clip value |
| `DbrxAttention.SplitAt` | easydel/modules/dbrx/modelling_dbrx_flax.py:172-173 | the two parts concatenate to the input, the first being `i` long or the whole input |
| `DbrxAttention.SplitQkv` | easydel/modules/dbrx/modelling_dbrx_flax.py:161-191 | the query has n_heads heads and key and value kv heads of head_dim each, and together they are the clipped row |
| `DbrxAttention.SplitQkvColumns` | easydel/modules/dbrx/modelling_dbrx_flax.py:169-173 | on rows of the projection width the split succeeds exactly when the hidden size equals heads times head_dim; the parts are then the three column ranges |
| `DbrxAttention.SplitQkvDivisible` | easydel/modules/dbrx/modelling_dbrx_flax.py:174-191 | with the layout's own head_dim the reshape succeeds exactly when d_model is divisible by n_heads |
| `DbrxModel.NormAttentionNorm` | easydel/modules/dbrx/modelling_dbrx_flax.py:312-333 | the residual is attention plus input, the output is its second norm, and the attention entry is the flag itself when set |
| `DbrxModel.BlockOutputs` | easydel/modules/dbrx/modelling_dbrx_flax.py:630-653 | the block returns the new state, then the attention entry when requested, then the router weights when requested |
| `DbrxModel.BlockIsSequential` | easydel/modules/dbrx/modelling_dbrx_flax.py:630-643 | the block is the pre-norm residual form with normed attention and normed MoE |
| `DbrxModel.States` | easydel/modules/dbrx/modelling_dbrx_flax.py:771-785 | state `i + 1` is block `i` applied to state `i` |
| `DbrxModel.Flagged` | easydel/modules/dbrx/modelling_dbrx_flax.py:235-238 | every collected attention entry is `True` |
| `DbrxModel.AllLogits` | easydel/modules/dbrx/modelling_dbrx_flax.py:788-789 | router entry `i` is block `i`'s router weights on the state it read |
| `DbrxModel.CollectedCounts` | easydel/modules/dbrx/modelling_dbrx_flax.py:771-794 | one router entry and one attention entry per block exactly when requested; blocks + 1 hidden states when requested, the last being the normed output and the first the embeddings |
| `DbrxModel.RunBlocks` | easydel/modules/dbrx/modelling_dbrx_flax.py:765-794 | the block loop and `norm_f` produce exactly the collected outputs |
| `DbrxModel.Prepare` | easydel/modules/dbrx/modelling_dbrx_flax.py:732-748 | both inputs and no ids are errors; otherwise the embedded ids with the defaulted mask and positions |
| `DbrxModel.Forward` | easydel/modules/dbrx/modelling_dbrx_flax.py:717-811 | fails exactly when input handling fails; otherwise the collected outputs under flags taken from the arguments or else the configuration |
| `DbrxModel.AuxLoss` | easydel/modules/dbrx/modelling_dbrx_flax.py:886-899 | the auxiliary loss exists exactly when router logits are requested; it is the loss of the collected weights times `router_aux_loss_coef` |
| `DbrxModel.AuxLossOfModel` | easydel/modules/dbrx/modelling_dbrx_flax.py:884-899 | through the model, the loss exists exactly when router logits are requested by argument or configuration, and it then sees one router entry per block |
| `Mistral.LayerForward` | easydel/modules/mistral/modeling_mistral_flax.py:323-349 | the attention weights are returned exactly when requested, and they are the attention's weights on the normed input |
| `Mistral.LayerIsSequential` | easydel/modules/mistral/modeling_mistral_flax.py:323-345 | the layer is the pre-norm residual form: the MLP reads the normed attended state |
| `Mistral.States` | easydel/modules/mistral/modeling_mistral_flax.py:441-458 | state `i + 1` is layer `i` applied to state `i` |
| `Mistral.HiddenIgnoresFlag` | easydel/modules/mistral/modeling_mistral_flax.py:323-349 | a layer's new state does not depend on `output_attentions` |
| `Mistral.LayerWeights` | easydel/modules/mistral/modeling_mistral_flax.py:460-461 | attention entry `i` is layer `i`'s weights on the state it read |
| `Mistral.CollectedCounts` | easydel/modules/mistral/modeling_mistral_flax.py:441-477 | hidden states and attentions are present exactly when requested; there are layers + 1 hidden states, the last the normed output and the first the embeddings |
| `Mistral.RunLayers` | easydel/modules/mistral/modeling_mistral_flax.py:441-477 | the layer loop and final norm produce exactly the collected outputs |
| `Mistral.LayerStep` | easydel/modules/mistral/modeling_mistral_flax.py:444-458 | one loop pass maps state `idx` to state `idx + 1`, whatever the flag |
| `Mistral.ExpandMask` | easydel/modules/mistral/modeling_mistral_flax.py:438-439 | a 2-D mask becomes (batch, 1, 1, length) with the same data |
| `Mistral.Embeddings` | easydel/modules/mistral/modeling_mistral_flax.py:421-423 | embeddings must be rank 3 and ids rank 2; batch and length are read from their shape |
| `Mistral.Prepare` | easydel/modules/mistral/modeling_mistral_flax.py:417-439 | the order of checks: exactly one input, then the embedding, then the length assertion, then the mask and position defaults, then the mask expansion |
| `Mistral.Forward` | easydel/modules/mistral/modeling_mistral_flax.py:402-477 | fails exactly when input handling fails; otherwise the collected outputs, with a missing flag counting as false |
| `Mistral.IndexOf` | easydel/modules/mistral/modeling_mistral_flax.py:652-653 | the first position of the pad token, or the row length when it does not occur |
| `Mistral.PoolIndices` | easydel/modules/mistral/modeling_mistral_flax.py:641-658 | fails exactly without a pad token for batch sizes other than 1 (or on empty rows); otherwise one position per row: the last position without a pad token or ids, else `(first pad - 1) mod length` |
| `Mistral.PoolIndex` | easydel/modules/mistral/modeling_mistral_flax.py:652-656 | the token before the first pad, wrapping to the last position when the pad is first or absent |
| `Mistral.MinusOneMod` | easydel/modules/mistral/modeling_mistral_flax.py:656 | Python's `-1 % n` is `n - 1` |
| `GptNeoX.SplitThirds` | easydel/modules/gpt_neo_x/modeling_gpt_neo_x_flax.py:115-123 | the split into query, key and value succeeds exactly when the thirds reshape into the heads; they are then the three equal column blocks |
| `GptNeoX.SplitThirdsOfProjection` | easydel/modules/gpt_neo_x/modeling_gpt_neo_x_flax.py:99-123 | on rows of width `3 * hidden` the split succeeds exactly when the heads divide the hidden size, giving columns [0,h), [h,2h), [2h,3h) |
| `GptNeoX.BlockForward` | easydel/modules/gpt_neo_x/modeling_gpt_neo_x_flax.py:283-302 | the attention weights are returned exactly when requested |
| `GptNeoX.BlockForms` | easydel/modules/gpt_neo_x/modeling_gpt_neo_x_flax.py:294-301 | `use_parallel_residual` selects the parallel form, and otherwise the pre-norm sequential form |
| `GptNeoX.ResidualFormsAgree` | easydel/modules/gpt_neo_x/modeling_gpt_neo_x_flax.py:294-301 | the two forms agree when the attention adds nothing; they differ only in what the MLP reads |
| `GptNeoX.States` | easydel/modules/gpt_neo_x/modeling_gpt_neo_x_flax.py:406-418 | state `i + 1` is block `i` applied to state `i` |
| `GptNeoX.BlockWeights` | easydel/modules/gpt_neo_x/modeling_gpt_neo_x_flax.py:419-420 | attention entry `i` is block `i`'s weights on the state it read |
| `GptNeoX.CollectedCounts` | easydel/modules/gpt_neo_x/modeling_gpt_neo_x_flax.py:406-437 | outputs present exactly when requested; blocks + 1 hidden states, the last the final-normed output |
| `GptNeoX.RunBlocks` | easydel/modules/gpt_neo_x/modeling_gpt_neo_x_flax.py:403-437 | the block loop and `final_layer_norm` produce exactly the collected outputs |
| `GptNeoX.Prepare` | easydel/modules/gpt_neo_x/modeling_gpt_neo_x_flax.py:378-401 | the order of checks: ids only, embedding, mask and position defaults, then the length assertion, then the extra embedding added when given |
| `GptNeoX.Forward` | easydel/modules/gpt_neo_x/modeling_gpt_neo_x_flax.py:363-437 | fails exactly when input handling fails; otherwise the collected outputs |
| `GptNeoX.Column` | easydel/modules/gpt_neo_x/modeling_gpt_neo_x_flax.py:507-510 | column `j` of the kernel, entry by entry |
| `GptNeoX.Transpose` | easydel/modules/gpt_neo_x/modeling_gpt_neo_x_flax.py:507 | entry `(i, j)` of the transpose is entry `(j, i)` of the matrix |
| `GptNeoX.TransposeTwice` | easydel/modules/gpt_neo_x/modeling_gpt_neo_x_flax.py:507 | transposing twice gives the matrix back |
| `GptNeoX.LMHead.constructor` | easydel/modules/gpt_neo_x/modeling_gpt_neo_x_flax.py:504-510 | a head holds its sizes and an (in, out) kernel |
| `GptNeoX.LMHead.Apply` | easydel/modules/gpt_neo_x/modeling_gpt_neo_x_flax.py:508-510 | logit `(t, j)` is the state of token `t` dotted with kernel column `j` |
| `GptNeoX.LMHead.Logits` | easydel/modules/gpt_neo_x/modeling_gpt_neo_x_flax.py:504-510 | with tied embeddings the kernel is overwritten by the transposed embedding, otherwise left unchanged; the logits use the resulting kernel |
| `GptNeoX.TiedLogits` | easydel/modules/gpt_neo_x/modeling_gpt_neo_x_flax.py:506-508 | with tied embeddings the logit of token `v` is the state dotted with `v`'s embedding |
| `Decoder.Widths` | easydel/modules/mistral/modeling_mistral_flax.py:336-345 | the row widths of a state, which the residual additions must match |
| `Decoder.ZerosLike` | easydel/modules/dbrx/modelling_dbrx_flax.py:423 | `jnp.zeros_like`: the zero state of the same shape |
| `Decoder.AddRows` | easydel/modules/mistral/modeling_mistral_flax.py:336-345 | the residual `+` on same-shaped states is element-wise addition |
| `Decoder.AddRowsCommutes` | easydel/modules/gpt_neo_x/modeling_gpt_neo_x_flax.py:294-296 | residual addition commutes |
| `Decoder.AddRowsAssociates` | easydel/modules/gpt_neo_x/modeling_gpt_neo_x_flax.py:294-296 | residual addition associates, so the order of the parallel sum does not matter |
| `Decoder.AddRowsZero` | easydel/modules/dbrx/modelling_dbrx_flax.py:423-430 | adding the zero state changes nothing |
| `Decoder.Sequential` | easydel/modules/mistral/modeling_mistral_flax.py:336-345 | the pre-norm sequential block keeps the shape when its sub-layers do |
| `Decoder.Parallel` | easydel/modules/gpt_neo_x/modeling_gpt_neo_x_flax.py:294-296 | the parallel block keeps the shape when its sub-layers do |
| `Decoder.ParallelZeroAttention` | easydel/modules/gpt_neo_x/modeling_gpt_neo_x_flax.py:294-301 | the parallel and sequential forms agree when the attention output is zero |
| `Decoder.SequentialZero` | easydel/modules/gpt_neo_x/modeling_gpt_neo_x_flax.py:297-301 | with zero attention the sequential form is the MLP of the input plus the input |
| `Decoder.ParallelZero` | easydel/modules/gpt_neo_x/modeling_gpt_neo_x_flax.py:294-296 | with zero attention the parallel form is the MLP of the input plus the input |
| `Heads.FloorDiv` | easydel/modules/mistral/modeling_mistral_flax.py:117-119 | Python's `//` fails on a zero divisor and otherwise gives the quotient `q` with `q*b <= a < (q+1)*b` |
| `Heads.Groups` | easydel/modules/mistral/modeling_mistral_flax.py:117-122 | the group count and its assertion fail exactly for no kv heads, or for kv < heads < 2 kv; a group count of 1 means equal head counts |
| `Heads.OneGroup` | easydel/modules/mistral/modeling_mistral_flax.py:120-122 | a quotient of 1 means the heads lie in [kv, 2 kv) |
| `Heads.DivisibleIff` | easydel/modules/gpt_neo_x/modeling_gpt_neo_x_flax.py:99-102 | reshaping into heads of size `a // n` keeps every element exactly when `n` divides `a` |
| `ModelInputs.CumSum` | easydel/modules/mistral/modeling_mistral_flax.py:432-436 | entry `i` of the cumulative sum is the sum of the first `i + 1` entries |
| `ModelInputs.PositionIds` | easydel/modules/mistral/modeling_mistral_flax.py:432-436 | position `i` is `max(0, cumsum(mask)[i] - 1)` |
| `ModelInputs.SumBinary` | easydel/modules/mistral/modeling_mistral_flax.py:432-436 | a prefix sum of a 0/1 mask lies between 0 and its length |
| `ModelInputs.PositionIdsBinary` | easydel/modules/mistral/modeling_mistral_flax.py:432-436 | for a 0/1 mask the ids are bounded by the token index and advance by 0 or 1, exactly at attended tokens after the first |
| `ModelInputs.PositionIdsAllOnes` | easydel/modules/mistral/modeling_mistral_flax.py:429-436 | with every token attended the ids are 0, 1, 2, ... |
| `ModelInputs.DefaultMask` | easydel/modules/mistral/modeling_mistral_flax.py:429-430 | the default mask is all ones of shape (batch, length) |
| `ModelInputs.DefaultPositions` | easydel/modules/mistral/modeling_mistral_flax.py:432-436 | defined exactly for a (batch, length) mask; each row of ids is the position ids of that mask row |
| `ModelInputs.DefaultPositionsOfDefaultMask` | easydel/modules/mistral/modeling_mistral_flax.py:429-436 | without a mask and positions, every row's positions are 0 .. length - 1 |
| `ModelInputs.IdsOnly` | easydel/modules/dbrx/modelling_dbrx_flax.py:732-740 | DBRX and GPT-NeoX accept exactly the case of ids without embeddings, with distinct errors for both inputs and for missing ids |
| `ModelInputs.ExactlyOne` | easydel/modules/mistral/modeling_mistral_flax.py:417-420 | Mistral accepts exactly one of ids and embeddings |
| `ModelInputs.EmbedIds` | easydel/modules/dbrx/modelling_dbrx_flax.py:737-738 | ids of rank 2 are embedded one row per token in row-major order; other ranks are refused |
| `ModelInputs.MaskAndPositions` | easydel/modules/dbrx/modelling_dbrx_flax.py:741-748 | given values are kept; a missing mask is all ones; missing positions are the cumulative-sum positions of the mask, which must then be (batch, length) |
| `ModelInputs.EmbedRows` | easydel/modules/mistral/modeling_mistral_flax.py:423 | embeddings of rank 3 give one row per token that concatenate back to the data; other ranks are refused |
| `Qwen2VLConfiguration.RopeScaling.constructor` | easydel/modules/qwen2_vl/qwen2_vl_configuration.py:225-228 | the rope dictionary holds the given entries |
| `Qwen2VLConfiguration.RewriteRope` | easydel/modules/qwen2_vl/qwen2_vl_configuration.py:225-228 | a dictionary with "type" gets "mrope" renamed to "default" and "rope_type" set to the type; other keys are kept; a dictionary without "type" is unchanged |
| `Qwen2VLConfiguration.RewriteRopeIdempotent` | easydel/modules/qwen2_vl/qwen2_vl_configuration.py:225-228 | rewriting twice is the same as rewriting once |
| `Qwen2VLConfiguration.VisionConfig.constructor` | easydel/modules/qwen2_vl/qwen2_vl_configuration.py:41-50 | every vision argument is stored as given |
| `Qwen2VLConfiguration.BuildVision` | easydel/modules/qwen2_vl/qwen2_vl_configuration.py:25-50 | a vision configuration built from a dictionary holds the given values and the defaults for the rest |
| `Qwen2VLConfiguration.Qwen2VLConfig.constructor` | easydel/modules/qwen2_vl/qwen2_vl_configuration.py:196-219 | the text-model fields, the kv head count, head size, rope dictionary and vision configuration are stored as given |
| `Qwen2VLConfiguration.Qwen2VLConfig.Create` | easydel/modules/qwen2_vl/qwen2_vl_configuration.py:163-230 | fails (division by zero) exactly without attention heads, leaving the rope dictionary untouched; otherwise kv heads default to the heads, head_dim is `hidden // heads`, every other text field is stored as given, the rope dictionary is rewritten in place, and the vision config is built from a dictionary, defaulted for None, and absent for anything else |
| `Qwen2VLConfiguration.PartitionRules` | easydel/modules/qwen2_vl/qwen2_vl_configuration.py:238-283 | the table has 30 rules; only the last is the catch-all ".*", which replicates |
| `Qwen2VLConfiguration.FirstMatch` | easydel/modules/qwen2_vl/qwen2_vl_configuration.py:238-283 | the first rule whose pattern matches the path, with no earlier match; None only when no rule matches |
| `Qwen2VLConfiguration.EveryPathHasARule` | easydel/modules/qwen2_vl/qwen2_vl_configuration.py:281-283 | the catch-all rule gives every path a partition spec |
| `Helpers.StartStep` | easydel/utils/helpers.py:103-107 | `start` fails exactly on a running timer; otherwise the timer runs from `now` with its total unchanged |
| `Helpers.StopStep` | easydel/utils/helpers.py:109-113 | `stop` fails exactly on a stopped timer; otherwise it adds `now - start_time` to the total |
| `Helpers.ElapsedStep` | easydel/utils/helpers.py:120-126 | `elapsed_time` reads the total including a running interval, leaves the timer stopped, and clears it when `reset` is set |
| `Helpers.Timer.constructor` | easydel/utils/helpers.py:97-101 | a new timer is stopped with no elapsed time |
| `Helpers.Timer.Start` | easydel/utils/helpers.py:103-107 | updates the timer's fields as `StartStep` says, or leaves them on error |
| `Helpers.Timer.Stop` | easydel/utils/helpers.py:109-113 | updates the timer's fields as `StopStep` says, or leaves them on error |
| `Helpers.Timer.Reset` | easydel/utils/helpers.py:115-118 | the timer is cleared |
| `Helpers.Timer.ElapsedTime` | easydel/utils/helpers.py:120-126 | returns the reading and leaves the timer as `ElapsedStep` says |
| `Helpers.StartThenStop` | easydel/utils/helpers.py:103-113 | starting at `t0` and stopping at `t1` adds exactly `t1 - t0` |
| `Helpers.AccumulatesIntervals` | easydel/utils/helpers.py:103-113 | any run of start/stop pairs adds the interval lengths and leaves the timer stopped |
| `Helpers.ReadTwiceAfterReset` | easydel/utils/helpers.py:120-126 | after a reading with reset, the next reading with reset is zero |
| `Helpers.Timers.constructor` | easydel/utils/helpers.py:137-140 | a new group holds no timers |
| `Helpers.Timers.Get` | easydel/utils/helpers.py:142-145 | `Timers(name)` returns the stored timer, or stores and returns a fresh one under that name only |
| `Helpers.Timers.ReadAll` | easydel/utils/helpers.py:149-150 | the read loop gives the values and timer states of `ReadSpec`, and the missing-timer error exactly when it fails |
| `Helpers.Timers.ReadOne` | easydel/utils/helpers.py:150 | reading one stored timer changes only that timer |
| `Helpers.Timers.SnapshotAfterUpdate` | easydel/utils/helpers.py:150 | updating one timer changes only its own entry of the group's state |
| `Helpers.Timers.Write` | easydel/utils/helpers.py:147-163 | a non-positive normaliser is an error that changes nothing; otherwise the values are the totals divided by the normaliser, an unknown name fails after the names before it are read |
| `Helpers.Timers.Log` | easydel/utils/helpers.py:165-172 | as `write`, with values in milliseconds, and each value printed in its unit |
| `Helpers.ReadSpec` | easydel/utils/helpers.py:149-150 | the read loop keeps the set of timers and gives at most one value per name, one per name when no name is missing |
| `Helpers.ReadSpecFails` | easydel/utils/helpers.py:149-150 | the loop fails exactly when some name has no timer |
| `Helpers.ReadSpecDistinct` | easydel/utils/helpers.py:149-150 | with distinct, known names each value is that name's own scaled total, and each timer is left as `elapsed_time` leaves it |
| `Helpers.ReadsEachStep` | easydel/utils/helpers.py:149-150 | reading one more known name extends the per-name result by that name's reading |
| `Helpers.ReadSpecNext` | easydel/utils/helpers.py:149-150 | one more name either stops the loop or reads its timer |
| `Helpers.ReadSpecStaysFailed` | easydel/utils/helpers.py:149-150 | once a missing name has stopped the loop, later names change nothing |
| `Helpers.Names.AsList` | easydel/utils/helpers.py:168-169 | a single name is read as a one-element list |
| `Helpers.Divisor` | easydel/utils/helpers.py:174-186 | every unit divides by at least 1 |
| `Helpers.Print` | easydel/utils/helpers.py:174-186 | the printed amount times the unit's divisor is the duration in milliseconds |
| `Helpers.PrintAll` | easydel/utils/helpers.py:170-172 | one printed line per value, each with its own name |
| `Helpers.UnitBounds` | easydel/utils/helpers.py:174-186 | a non-negative duration is printed below 1000 in ms, in [1, 60) in seconds or minutes, or at least 1 in hours |
| `Helpers.Contains` | easydel/utils/helpers.py:213 | Python's `in` on strings: the substring occurs at some position |
| `Helpers.CacheDir` | easydel/utils/helpers.py:205-218 | the cache path ends in "easydel": under LOCALAPPDATA or AppData/Local on Windows, Library/Caches on macOS, .cache elsewhere |
| `TrainClm.Contents` | train_clm.py:66-71 | at most one content per message |
| `TrainClm.ContentsAppend` | train_clm.py:66-71 | collecting the contents of a role distributes over concatenation of message lists |
| `TrainClm.ContentsFromRole` | train_clm.py:66-71 | every collected content comes from a message of that role; without such messages none is collected |
| `TrainClm.Zip` | train_clm.py:75 | `zip` pairs by position, as many pairs as the shorter list |
| `TrainClm.Turn` | train_clm.py:76 | one turn adds 33 template characters to the two contents |
| `TrainClm.TurnParts` | train_clm.py:76 | the user and assistant contents sit at fixed offsets between the template tags |
| `TrainClm.RenderAppend` | train_clm.py:75-76 | rendering a concatenation of pairs is concatenating their renderings |
| `TrainClm.RenderLength` | train_clm.py:73-76 | the prompt length is the contents' lengths plus 33 per pair |
| `TrainClm.RenderStartsWithFirstTurn` | train_clm.py:73-76 | a non-empty prompt starts with the first user/assistant turn |
| `TrainClm.NoPairNoPrompt` | train_clm.py:66-76 | without a user message or without an assistant message the prompt is empty |
| `TrainClm.UltraChatPromptingProcess` | train_clm.py:63-78 | the result has the single key "prompt", holding the turns of the zipped user/assistant contents in order |
| `Tensors.Reshape` | easydel/layers/quantization/linear_nf4.py:108-109 | `reshape(count, size)` is defined exactly when the sizes agree, and the rows concatenate back to the buffer |
| `Tensors.SliceStack` | easydel/layers/quantization/linear_nf4.py:116-118 | slice `i` of a vmapped (stacked) result is the `i`-th result |

## Left out

- Tensor numerics are parameters of the model: matrix products, softmax, the p-norm renormalisation of the router, RMS and layer norms, rotary embeddings, GLU and other activations, float32 casts, and `int(head_dim * rotary_pct)`. Sub-layers are functions from state to state, so the properties are structural.
- Floating-point rounding: reals stand for floats, so quantisation error bounds beyond "within the block absmax, same sign" are not stated.
- Dropout is the identity (deterministic evaluation). The DBRX jitter noise (any draw: `DbrxMoe.RouterInput` covers the normal draw of the code and the uniform draw of `DbrxMoe.UniformJitter`) and the Python clock (`time.time`) are parameters, with one clock instant per `write`/`log` call.
- The auxiliary-loss function of the DBRX causal LM comes from another library and is a parameter.
- The key/value cache, `concatenate` of cached keys and values, the attention kernel (`FlexibleAttention`), sharding constraints, rematerialisation, `control_mlp_sharding` and block-wise FFN: these live outside the modelled files or are performance-only.
- `ModelInputs.DefaultPositions`: a user mask of a shape other than (batch, length) is refused (MaskShape), where JAX would broadcast it.
- `ModelInputs.EmbedIds`: token ids of rank other than 2 are refused, where the source fails only later.
- `Decoder.AddRows`: rows of different widths, which the sub-layers never produce, keep the row of the left operand instead of raising a broadcast error.
- `Mistral.PoolIndices`: a sequence length of 0 is an error, and the logits gather that uses the positions is not modelled.
- Qwen2-VL fields that are only stored are not modelled: `hidden_act`, `rms_norm_eps`, `rope_theta`, token ids, `tie_word_embeddings`, extra keyword arguments and the base-class constructor.
- `NF4.SingleQuantizeAndPack`: a block whose absmax is zero is an error, where the source produces NaN codes.
- `LinearNF4Layer.LinearNF4.Create`: with `do_init` the source raises a `TypeError`, so the model returns an error and leaves out the initialiser.
- `LinearNF4.__call__`: the `dot_general` product is not modelled; only its bias assertion is, as `BiasConsistent`. The accessors `get_kernel` and `get_quantized_kernel` only return stored arrays.
- `NF4Batched.DequantizeNF4`: its contract states the result shape and the errors; the decoded values are stated on the flat path by `NF4.SingleDequantize` and, for layer kernels, by `LinearNF4Layer.KernelRoundTrip`.
- The `timed` context manager and `Timer.__enter__`/`__exit__` are sugar for `start`/`stop`.
- Output to logging, wandb, TensorBoard and ANSI colour codes, and the directory creation of `get_cache_dir`, are left out.
- The regular-expression matcher applied to the partition rules is a parameter of `FirstMatch`.
- `TrainClm`: every message is assumed to carry the role and content keys; the rest of `train_clm.py` (argument parsing, dataset loading, the trainer) is not part of this model.

## Findings

| source | as written | input that shows it | evidently intended | confidence | as-written member | corrected member |
|---|---|---|---|---|---|---|
| easydel/layers/quantization/linear_nf4.py:124-129 | `dequantize_nf4` maps over the leading axis only while the packed array has rank above 2. The encoder's packed output loses one axis, so the packed array of a rank-3 input has rank 2 and goes straight to `single_dequantize_nf4`, which flattens all B slices together and scales them by `absmax[:, None]`, an array of rank 3. On that rank-2 packed array `stack([high, low], axis=1).reshape(-1)` also puts all high nibbles of a row before all its low nibbles, so even where the shapes fit, the values come out of order | a kernel of shape (B, 1, block_size) with B >= 2 decodes to shape (B, B, block_size); a kernel of shape (2, 2, 64) with block size 64 fails its reshape | recurse while the packed array has rank above 1, so each slice is decoded as it was encoded and a (B, n, block_size) kernel comes back with (B, n, block_size) as its shape, which `NF4Batched.QuantizeDequantize` proves for the corrected decoder | not executed | `NF4Batched.AsWrittenShapeDefect` | `NF4Batched.DequantizeNF4` |
| easydel/modules/dbrx/modelling_dbrx_flax.py:471-474 | `DbrxRouter.jitter` computes `low + noise * (high - low)` with `low = 1 - eps` and `high = 1 + eps`, which spans [1 - eps, 1 + eps] only for noise in [0, 1], but draws the noise with `jax.random.normal`, which is signed and unbounded | eps = 0.01 and a draw of -60 give the factor 0.99 - 1.2 = -0.21, so the router input changes sign; every negative draw, half of all draws, gives a factor below 1 - eps | a uniform draw on [0, 1] (or directly on [1 - eps, 1 + eps]), as multiplicative jitter in the band is meant, so every factor lies in [1 - eps, 1 + eps] | not executed | `DbrxMoe.NormalNoiseLeavesBand` | `DbrxMoe.UniformJitter` |
