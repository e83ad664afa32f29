/**
 * The residual stream the decoder models share: the hidden state as one row
 * per token (batch-major), the element-wise sum of two states, and the
 * shape-preserving sub-layers (norms, attention, MLPs) whose numerics are
 * not modelled. The mask and position ids reach the attention through a
 * context value.
 */
module Decoder {
  import opened Wrappers
  import opened Tensors

  /** A hidden state of shape (batch, seq, hidden), one row per token. */
  type Hidden = seq<Vec>

  /** The row lengths of a state; two states have the same shape when these agree. */
  function Widths(h: Hidden): (w: seq<nat>)
    ensures |w| == |h| && forall i :: 0 <= i < |h| ==> w[i] == |h[i]|
  {
    seq(|h|, i requires 0 <= i < |h| => |h[i]|)
  }

  predicate SameShape(a: Hidden, b: Hidden)
  {
    Widths(a) == Widths(b)
  }

  /** Every entry of the state is zero. */
  predicate IsZero(z: Hidden)
  {
    forall i, j :: 0 <= i < |z| && 0 <= j < |z[i]| ==> z[i][j] == 0.0
  }

  /** The state of the given shape that is zero everywhere. */
  function ZerosLike(h: Hidden): (r: Hidden)
    ensures SameShape(r, h) && IsZero(r)
  {
    seq(|h|, i requires 0 <= i < |h| => Zeros(|h[i]|))
  }

  /**
   * `a + b` on two states of the same shape. Rows whose widths differ, which
   * the sub-layers never produce, keep the row of `a`.
   */
  function AddRows(a: Hidden, b: Hidden): (r: Hidden)
    ensures |r| == |a|
    ensures SameShape(a, b) ==> SameShape(r, a)
    ensures SameShape(a, b) ==> forall i, j :: 0 <= i < |r| && 0 <= j < |r[i]| ==> r[i][j] == a[i][j] + b[i][j]
  {
    seq(|a|, i requires 0 <= i < |a| => if i < |b| && |a[i]| == |b[i]| then Add(a[i], b[i]) else a[i])
  }

  lemma AddRowsCommutes(a: Hidden, b: Hidden)
    requires SameShape(a, b)
    ensures AddRows(a, b) == AddRows(b, a)
  {
    forall i | 0 <= i < |a|
      ensures AddRows(a, b)[i] == AddRows(b, a)[i]
    {
    }
  }

  lemma AddRowsAssociates(a: Hidden, b: Hidden, c: Hidden)
    requires SameShape(a, b) && SameShape(b, c)
    ensures AddRows(AddRows(a, b), c) == AddRows(a, AddRows(b, c))
  {
    forall i | 0 <= i < |a|
      ensures AddRows(AddRows(a, b), c)[i] == AddRows(a, AddRows(b, c))[i]
    {
    }
  }

  /** Adding the zero state changes nothing. */
  lemma AddRowsZero(a: Hidden, z: Hidden)
    requires SameShape(z, a) && IsZero(z)
    ensures AddRows(z, a) == a
  {
    forall i | 0 <= i < |a|
      ensures AddRows(z, a)[i] == a[i]
    {
    }
  }

  /** A norm or MLP on the state; its numerics are not modelled. */
  type Mixer = Hidden -> Hidden

  /** What a layer's attention reads besides the state: the mask and the position ids. */
  datatype Context = Context(mask: Tensor<int>, positions: Tensor<nat>)

  /** The output projection of an attention layer, as a function of its input state and the context. */
  type AttnFn = (Hidden, Context) -> Hidden

  /** The attention weights of a layer, which are not modelled beyond being a value. */
  type AttnWeights = seq<real>

  /** An attention layer that also returns its weights. */
  datatype AttnOut = AttnOut(output: Hidden, weights: AttnWeights)

  type WeightedAttnFn = (Hidden, Context) -> AttnOut

  /** What a layer returns: its new state, and its attention weights when they are requested. */
  datatype LayerOut = LayerOut(hidden: Hidden, weights: Option<AttnWeights>)

  /**
   * `FlaxBaseModelOutput`: the normed last state, and the collected states
   * and weights, each None when it is not requested.
   */
  datatype BaseModelOutput = BaseModelOutput(
    lastHiddenState: Hidden,
    hiddenStates: Option<seq<Hidden>>,
    attentions: Option<seq<AttnWeights>>)

  /**
   * The pre-norm residual block: `h1 = f(h) + h`, then `g(h1) + h1`, where
   * `f` is the normed attention and `g` the normed MLP.
   */
  function Sequential(h: Hidden, f: Mixer, g: Mixer): (r: Hidden)
    ensures SameShape(f(h), h) && SameShape(g(AddRows(f(h), h)), h) ==> SameShape(r, h)
  {
    var h1 := AddRows(f(h), h);
    AddRows(g(h1), h1)
  }

  /** The parallel residual block: `g(h) + h + f(h)`; both sub-layers read the block input. */
  function Parallel(h: Hidden, f: Mixer, g: Mixer): (r: Hidden)
    ensures SameShape(f(h), h) && SameShape(g(h), h) ==> SameShape(r, h)
  {
    AddRows(AddRows(g(h), h), f(h))
  }

  /**
   * When the attention contributes nothing to a state the two block forms
   * agree on it.
   */
  lemma ParallelZeroAttention(h: Hidden, f: Mixer, g: Mixer)
    requires SameShape(f(h), h) && SameShape(g(h), h) && IsZero(f(h))
    ensures Parallel(h, f, g) == Sequential(h, f, g)
  {
    SequentialZero(h, f, g);
    ParallelZero(h, f, g);
  }

  lemma SequentialZero(h: Hidden, f: Mixer, g: Mixer)
    requires SameShape(f(h), h) && SameShape(g(h), h) && IsZero(f(h))
    ensures Sequential(h, f, g) == AddRows(g(h), h)
  {
    AddRowsZero(h, f(h));
  }

  lemma ParallelZero(h: Hidden, f: Mixer, g: Mixer)
    requires SameShape(f(h), h) && SameShape(g(h), h) && IsZero(f(h))
    ensures Parallel(h, f, g) == AddRows(g(h), h)
  {
    var s := AddRows(g(h), h);
    AddRowsCommutes(s, f(h));
    AddRowsZero(s, f(h));
  }
}
