/**
 * Input preparation shared by the DBRX, Mistral and GPT-NeoX model wrappers:
 * the default attention mask (all ones) and the default position ids
 * `clip(cumsum(mask, axis=-1) - 1, a_min=0)`, one row per batch element.
 */
module ModelInputs {
  import opened Wrappers
  import opened Tensors

  /** Sum of a sequence, peeled from the right so that growing a prefix adds one term. */
  function Sum(m: seq<int>): int
  {
    if m == [] then 0 else Sum(m[..|m| - 1]) + m[|m| - 1]
  }

  /** `jnp.cumsum` along one row: entry `i` is the sum of the first `i + 1` entries. */
  function CumSum(m: seq<int>): (r: seq<int>)
    ensures |r| == |m|
    ensures forall i :: 0 <= i < |m| ==> r[i] == Sum(m[..i + 1])
  {
    if m == [] then []
    else
      var init := m[..|m| - 1];
      assert forall j :: 1 <= j <= |init| ==> init[..j] == m[..j];
      assert m[..|m|] == m;
      CumSum(init) + [Sum(m)]
  }

  /** Default position ids of one row of the mask: `max(0, cumsum(mask) - 1)`. */
  function PositionIds(mask: seq<int>): (r: seq<nat>)
    ensures |r| == |mask|
    ensures forall i :: 0 <= i < |mask| ==> r[i] as int == if Sum(mask[..i + 1]) > 0 then Sum(mask[..i + 1]) - 1 else 0
  {
    var c := CumSum(mask);
    seq(|mask|, i requires 0 <= i < |mask| => if c[i] > 0 then c[i] - 1 else 0)
  }

  ghost predicate Binary(mask: seq<int>)
  {
    forall i :: 0 <= i < |mask| ==> 0 <= mask[i] <= 1
  }

  /** The sum of a prefix of a 0/1 mask lies between 0 and its length. */
  lemma {:induction false} SumBinary(mask: seq<int>, k: nat)
    requires Binary(mask) && k <= |mask|
    ensures 0 <= Sum(mask[..k]) <= k
  {
    if k > 0 {
      SumBinary(mask, k - 1);
      assert mask[..k][..k - 1] == mask[..k - 1];
    }
  }

  /** Extending a prefix by one element adds that element to its sum. */
  lemma SumStep(mask: seq<int>, i: nat)
    requires i < |mask|
    ensures Sum(mask[..i + 1]) == Sum(mask[..i]) + mask[i]
  {
    assert mask[..i + 1][..i] == mask[..i];
  }

  /**
   * For a 0/1 mask the position ids are bounded by the token index and move
   * by 0 or 1 from one token to the next: they advance exactly at an
   * attended token that has an attended token before it.
   */
  lemma PositionIdsBinary(mask: seq<int>)
    requires Binary(mask)
    ensures forall i :: 0 <= i < |mask| ==> PositionIds(mask)[i] <= i
    ensures forall i :: 0 < i < |mask| ==>
      PositionIds(mask)[i] == PositionIds(mask)[i - 1] || PositionIds(mask)[i] == PositionIds(mask)[i - 1] + 1
    ensures forall i :: 0 < i < |mask| ==>
      (PositionIds(mask)[i] == PositionIds(mask)[i - 1] + 1 <==> mask[i] == 1 && Sum(mask[..i]) > 0)
  {
    var r := PositionIds(mask);
    forall i | 0 <= i < |mask|
      ensures r[i] <= i
      ensures i > 0 ==> (r[i] == r[i - 1] || r[i] == r[i - 1] + 1)
      ensures i > 0 ==> (r[i] == r[i - 1] + 1 <==> mask[i] == 1 && Sum(mask[..i]) > 0)
    {
      SumBinary(mask, i + 1);
      SumStep(mask, i);
      SumBinary(mask, i);
    }
  }

  /** With every token attended, the position ids count 0, 1, 2, ... */
  lemma {:induction false} PositionIdsAllOnes(mask: seq<int>)
    requires forall i :: 0 <= i < |mask| ==> mask[i] == 1
    ensures forall i :: 0 <= i < |mask| ==> PositionIds(mask)[i] == i
  {
    forall i | 0 <= i < |mask|
      ensures PositionIds(mask)[i] == i
    {
      OnesSum(mask, i + 1);
    }
  }

  lemma {:induction false} OnesSum(mask: seq<int>, k: nat)
    requires forall i :: 0 <= i < |mask| ==> mask[i] == 1
    requires k <= |mask|
    ensures Sum(mask[..k]) == k
  {
    if k > 0 {
      OnesSum(mask, k - 1);
      SumStep(mask, k - 1);
    }
  }

  /** The all-ones mask of shape (batch, length) that the models use when none is given. */
  function DefaultMask(batch: nat, length: nat): (m: Tensor<int>)
    ensures m.Valid() && m.shape == [batch, length]
    ensures forall i :: 0 <= i < |m.data| ==> m.data[i] == 1
  {
    ProductPair(batch, length);
    Tensor([batch, length], seq(batch * length, _ => 1))
  }

  datatype InputError =
    | BothInputs        // token ids and embeddings were both given
    | MissingIds        // DBRX and GPT-NeoX: only the embeddings, or nothing, was given
    | NotExactlyOne     // Mistral: both inputs or neither
    | EmbedsRank        // the embeddings do not have the rank the unpacking of their shape expects
    | SequenceTooLong   // the length assertion against max_position_embeddings
    | MaskShape         // the mask does not have shape (batch, length), so the default positions cannot be built

  /**
   * Default position ids for a mask of shape (batch, length): each row of the
   * mask gives its own row of ids. A mask of any other shape is refused.
   */
  function DefaultPositions(mask: Tensor<int>, batch: nat, length: nat): (r: Result<Tensor<nat>, InputError>)
    requires mask.Valid()
    ensures r.Ok? <==> mask.shape == [batch, length]
    ensures r.Err? ==> r.error == MaskShape
    ensures r.Ok? ==> r.value.Valid() && r.value.shape == [batch, length]
    ensures r.Ok? ==> Reshape(mask.data, batch, length).Some?
    ensures r.Ok? ==>
      var rows := Reshape(mask.data, batch, length).value;
      Reshape(r.value.data, batch, length) == Some(seq(batch, b requires 0 <= b < batch => PositionIds(rows[b])))
  {
    if mask.shape != [batch, length] then Err(MaskShape)
    else
      ProductPair(batch, length);
      var rows := Reshape(mask.data, batch, length).value;
      var ids := seq(batch, b requires 0 <= b < batch => PositionIds(rows[b]));
      assert Uniform(ids, length);
      ReshapeFlatten(ids, length);
      Ok(Tensor([batch, length], Flatten(ids)))
  }

  /** The default positions for the default mask are 0 .. length - 1 in every row. */
  lemma DefaultPositionsOfDefaultMask(batch: nat, length: nat)
    ensures DefaultPositions(DefaultMask(batch, length), batch, length).Ok?
    ensures var p := DefaultPositions(DefaultMask(batch, length), batch, length).value;
      forall b, i :: 0 <= b < batch && 0 <= i < length ==> Reshape(p.data, batch, length).value[b][i] == i
  {
    ProductPair(batch, length);
    var m := DefaultMask(batch, length);
    var rows := Reshape(m.data, batch, length).value;
    forall b | 0 <= b < batch
      ensures forall i :: 0 <= i < length ==> PositionIds(rows[b])[i] == i
    {
      RowsOfOnes(m.data, rows, batch, length, b);
      PositionIdsAllOnes(rows[b]);
    }
  }

  /** Every row cut from an all-ones buffer is all ones. */
  lemma RowsOfOnes(data: seq<int>, rows: seq<seq<int>>, batch: nat, length: nat, b: nat)
    requires forall i :: 0 <= i < |data| ==> data[i] == 1
    requires Reshape(data, batch, length) == Some(rows) && b < batch
    ensures |rows[b]| == length && forall i :: 0 <= i < length ==> rows[b][i] == 1
  {
    FlattenAt(rows, length);
    MulBound(b, batch, length);
    assert rows[b] == data[b * length .. b * length + length];
  }

  /**
   * The input check of DBRX and GPT-NeoX: both inputs is an error, and so is
   * every case without token ids, because the embedding branch is taken
   * only for ids without embeddings and its `else` raises.
   */
  function IdsOnly(hasIds: bool, hasEmbeds: bool): (r: Result<(), InputError>)
    ensures r.Ok? <==> hasIds && !hasEmbeds
    ensures hasIds && hasEmbeds ==> r == Err(BothInputs)
    ensures !hasIds ==> r == Err(MissingIds)
  {
    if hasIds && hasEmbeds then Err(BothInputs)
    else if !hasEmbeds && hasIds then Ok(())
    else Err(MissingIds)
  }

  /** Mistral's check `(input_ids is None) ^ (inputs_embeds is not None)`: exactly one input is required. */
  function ExactlyOne(hasIds: bool, hasEmbeds: bool): (r: Result<(), InputError>)
    ensures r.Ok? <==> hasIds != hasEmbeds
    ensures r.Err? ==> r.error == NotExactlyOne
  {
    if !hasIds != hasEmbeds then Err(NotExactlyOne) else Ok(())
  }

  /**
   * The embedding lookup of a (batch, length) array of token ids: one row
   * per token, in row-major order. Ids of any other rank are refused.
   */
  function EmbedIds(ids: Tensor<nat>, table: nat -> Vec): (r: Result<seq<Vec>, InputError>)
    ensures r.Ok? <==> |ids.shape| == 2
    ensures r.Err? ==> r.error == EmbedsRank
    ensures r.Ok? ==> |r.value| == |ids.data| && forall i :: 0 <= i < |ids.data| ==> r.value[i] == table(ids.data[i])
  {
    if |ids.shape| != 2 then Err(EmbedsRank)
    else Ok(seq(|ids.data|, i requires 0 <= i < |ids.data| => table(ids.data[i])))
  }

  /**
   * The mask and position defaults: the all-ones mask when none is given,
   * and the cumulative-sum positions of the (possibly defaulted) mask when
   * no positions are given. Given values are kept as they are.
   */
  function MaskAndPositions(mask: Option<Tensor<int>>, positions: Option<Tensor<nat>>, batch: nat, length: nat)
    : (r: Result<(Tensor<int>, Tensor<nat>), InputError>)
    requires mask.Some? ==> mask.value.Valid()
    ensures r.Ok? ==> r.value.0 == if mask.Some? then mask.value else DefaultMask(batch, length)
    ensures positions.Some? ==> r.Ok? && r.value.1 == positions.value
    ensures positions.None? && mask.None? ==> r.Ok? && r.value.1 == DefaultPositions(DefaultMask(batch, length), batch, length).value
    ensures positions.None? && mask.Some? ==>
      (r.Ok? <==> mask.value.shape == [batch, length]) &&
      (r.Ok? ==> r.value.1 == DefaultPositions(mask.value, batch, length).value) &&
      (r.Err? ==> r.error == MaskShape)
  {
    var m := if mask.Some? then mask.value else DefaultMask(batch, length);
    if positions.Some? then Ok((m, positions.value))
    else
      var p :- DefaultPositions(m, batch, length);
      Ok((m, p))
  }

  /**
   * The rows of a (batch, length, hidden) array of embeddings, one per
   * token in row-major order; an array of any other rank is refused, as
   * the unpacking of its shape into three names fails.
   */
  function EmbedRows(e: Tensor<real>): (r: Result<seq<Vec>, InputError>)
    requires e.Valid()
    ensures r.Ok? <==> |e.shape| == 3
    ensures r.Err? ==> r.error == EmbedsRank
    ensures r.Ok? ==> |r.value| == e.shape[0] * e.shape[1] && Uniform(r.value, e.shape[2])
    ensures r.Ok? ==> Flatten(r.value) == e.data
  {
    if |e.shape| != 3 then Err(EmbedsRank)
    else
      ProductTriple(e.shape[0], e.shape[1], e.shape[2]);
      assert e.shape == [e.shape[0], e.shape[1], e.shape[2]];
      Ok(Reshape(e.data, e.shape[0] * e.shape[1], e.shape[2]).value)
  }

  lemma ProductTriple(a: nat, b: nat, c: nat)
    ensures Product([a, b, c]) == (a * b) * c
  {
    assert [a, b, c] == [a] + [b, c];
    ProductCons(a, [b, c]);
    ProductPair(b, c);
  }
}
