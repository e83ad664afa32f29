/**
 * `LinearNF4` of easydel/layers/quantization/linear_nf4.py: a linear layer that
 * stores its kernel NF4-packed, and the conversions from and to a plain
 * `nnx.Linear`. Parameter initialisers, dtypes and the RNG streams are not
 * modelled; a kernel is an array of reals.
 */
module LinearNF4Layer {
  import opened Wrappers
  import opened Tensors
  import opened NF4
  import opened NF4Batched

  /** `nnx.Linear`: a kernel of shape (in_features, out_features) and an optional bias. */
  class Linear {
    var inFeatures: nat
    var outFeatures: nat
    var useBias: bool
    var kernel: Tensor<real>
    var bias: Option<seq<real>>

    /** A layer as nnx builds it: the kernel has the declared shape and the bias exists exactly when use_bias is set. */
    ghost predicate Valid()
      reads this
    {
      kernel.Valid() && kernel.shape == [inFeatures, outFeatures] && useBias == bias.Some?
    }

    constructor (inFeatures: nat, outFeatures: nat, useBias: bool, kernel: Tensor<real>, bias: Option<seq<real>>)
      ensures this.inFeatures == inFeatures && this.outFeatures == outFeatures
      ensures this.useBias == useBias && this.kernel == kernel && this.bias == bias
    {
      this.inFeatures := inFeatures;
      this.outFeatures := outFeatures;
      this.useBias := useBias;
      this.kernel := kernel;
      this.bias := bias;
    }

    /** The shape-only layer `nnx.eval_shape` yields: no kernel values and no bias values yet. */
    constructor Abstract(inFeatures: nat, outFeatures: nat, useBias: bool)
      ensures this.inFeatures == inFeatures && this.outFeatures == outFeatures && this.useBias == useBias
      ensures this.kernel.shape == [inFeatures, outFeatures] && this.bias == None
    {
      this.inFeatures := inFeatures;
      this.outFeatures := outFeatures;
      this.useBias := useBias;
      this.kernel := Tensor([inFeatures, outFeatures], []);
      this.bias := None;
    }
  }

  datatype LayerError =
    | MissingBlockSize        // __init__ with do_init calls _quantize_kernel without its block_size argument
    | Quantize(q: QuantError) // the kernel could not be encoded
    | NotQuantized            // no packed kernel or no scales are stored
    | Dequantize(d: DequantError)
    | KernelReshape           // the decoded kernel does not hold in_features * out_features values

  /**
   * `_dequantize_kernel`: decode the stored kernel and reshape it to
   * (in_features, out_features).
   */
  function DequantizedKernel(packed: Option<Tensor<bv8>>, scales: Option<Tensor<real>>,
                             inFeatures: nat, outFeatures: nat, blockSize: nat)
    : (r: Result<Tensor<real>, LayerError>)
    requires packed.Some? ==> packed.value.Valid()
    requires scales.Some? ==> scales.value.Valid()
    ensures packed.None? || scales.None? ==> r == Err(NotQuantized)
    ensures r.Ok? ==> r.value.Valid() && r.value.shape == [inFeatures, outFeatures]
    ensures r.Ok? ==> DequantizeNF4(packed.value, scales.value, blockSize).Ok?
    ensures r.Ok? ==> r.value.data == DequantizeNF4(packed.value, scales.value, blockSize).value.data
    ensures packed.Some? && scales.Some? && DequantizeNF4(packed.value, scales.value, blockSize).Err? ==>
      r == Err(Dequantize(DequantizeNF4(packed.value, scales.value, blockSize).error))
    ensures packed.Some? && scales.Some? && DequantizeNF4(packed.value, scales.value, blockSize).Ok? ==>
      (r.Ok? <==> |DequantizeNF4(packed.value, scales.value, blockSize).value.data| == inFeatures * outFeatures)
    ensures r.Err? && r.error == KernelReshape ==>
      packed.Some? && scales.Some? && DequantizeNF4(packed.value, scales.value, blockSize).Ok?
  {
    if packed.None? || scales.None? then Err(NotQuantized)
    else
      match DequantizeNF4(packed.value, scales.value, blockSize)
      case Err(e) => Err(Dequantize(e))
      case Ok(d) =>
        if |d.data| != inFeatures * outFeatures then Err(KernelReshape)
        else
          ProductCons(inFeatures, [outFeatures]);
          ProductOne(outFeatures);
          Ok(Tensor([inFeatures, outFeatures], d.data))
  }

  /** `LinearNF4`: the packed kernel, its per-block scales and the bias. */
  class LinearNF4 {
    var inFeatures: nat
    var outFeatures: nat
    var useBias: bool
    var blockSize: nat
    var packedKernel: Option<Tensor<bv8>>
    var scales: Option<Tensor<real>>
    var bias: Option<seq<real>>

    ghost predicate Valid()
      reads this
    {
      (packedKernel.Some? ==> packedKernel.value.Valid()) && (scales.Some? ==> scales.value.Valid())
    }

    /** `__init__` with `do_init=False`: nothing is stored yet. */
    constructor (inFeatures: nat, outFeatures: nat, useBias: bool, blockSize: nat)
      ensures Valid()
      ensures this.inFeatures == inFeatures && this.outFeatures == outFeatures
      ensures this.useBias == useBias && this.blockSize == blockSize
      ensures packedKernel == None && scales == None && bias == None
    {
      this.inFeatures := inFeatures;
      this.outFeatures := outFeatures;
      this.useBias := useBias;
      this.blockSize := blockSize;
      packedKernel := None;
      scales := None;
      bias := None;
    }

    /**
     * `__init__`: with `do_init` it fails (TypeError), because it calls
     * `_quantize_kernel` without the block size; otherwise it builds the empty layer.
     */
    static method Create(inFeatures: nat, outFeatures: nat, useBias: bool, doInit: bool, blockSize: nat)
      returns (r: Result<LinearNF4, LayerError>)
      ensures r.Err? <==> doInit
      ensures r.Err? ==> r.error == MissingBlockSize
      ensures r.Ok? ==> fresh(r.value) && r.value.Valid()
      ensures r.Ok? ==> r.value.inFeatures == inFeatures && r.value.outFeatures == outFeatures
      ensures r.Ok? ==> r.value.useBias == useBias && r.value.blockSize == blockSize
      ensures r.Ok? ==> r.value.packedKernel == None && r.value.scales == None && r.value.bias == None
    {
      if doInit {
        return Err(MissingBlockSize);
      }
      var layer := new LinearNF4(inFeatures, outFeatures, useBias, blockSize);
      return Ok(layer);
    }

    /**
     * `from_linear`: copies the sizes and use_bias, stores the encoded kernel
     * and copies the bias when use_bias is set.
     */
    static method FromLinear(linear: Linear, blockSize: nat := 128) returns (r: Result<LinearNF4, LayerError>)
      requires linear.kernel.Valid()
      ensures r.Ok? <==> QuantizeAndPack(linear.kernel, blockSize).Ok?
      ensures r.Err? ==> r.error == Quantize(QuantizeAndPack(linear.kernel, blockSize).error)
      ensures r.Ok? ==> fresh(r.value) && r.value.Valid()
      ensures r.Ok? ==> r.value.inFeatures == linear.inFeatures && r.value.outFeatures == linear.outFeatures
      ensures r.Ok? ==> r.value.useBias == linear.useBias && r.value.blockSize == blockSize
      ensures r.Ok? ==>
        r.value.packedKernel == Some(QuantizeAndPack(linear.kernel, blockSize).value.packed) &&
        r.value.scales == Some(QuantizeAndPack(linear.kernel, blockSize).value.absmax)
      ensures r.Ok? ==> r.value.bias == if linear.useBias then linear.bias else None
    {
      var instance := new LinearNF4(linear.inFeatures, linear.outFeatures, linear.useBias, blockSize);
      var q := QuantizeAndPack(linear.kernel, blockSize);
      if q.Err? {
        return Err(Quantize(q.error));
      }
      instance.packedKernel := Some(q.value.packed);
      instance.scales := Some(q.value.absmax);
      if linear.useBias {
        instance.bias := linear.bias;
      }
      return Ok(instance);
    }

    /** `_dequantize_kernel` on this layer's stored arrays. */
    function DequantizeKernel(): (r: Result<Tensor<real>, LayerError>)
      reads this
      requires Valid()
      ensures packedKernel.None? || scales.None? ==> r == Err(NotQuantized)
      ensures r.Ok? <==>
        packedKernel.Some? && scales.Some? && DequantizeNF4(packedKernel.value, scales.value, blockSize).Ok? &&
        |DequantizeNF4(packedKernel.value, scales.value, blockSize).value.data| == inFeatures * outFeatures
      ensures r.Ok? ==> r.value.Valid() && r.value.shape == [inFeatures, outFeatures]
      ensures r.Ok? ==> r.value.data == DequantizeNF4(packedKernel.value, scales.value, blockSize).value.data
    {
      DequantizedKernel(packedKernel, scales, inFeatures, outFeatures, blockSize)
    }

    /**
     * `to_linear`: a fresh `nnx.Linear` with the same sizes, whose kernel is
     * the decoded kernel and whose bias is this layer's bias when use_bias is set.
     */
    method ToLinear() returns (r: Result<Linear, LayerError>)
      requires Valid()
      ensures r.Ok? <==> DequantizeKernel().Ok?
      ensures r.Err? ==> r.error == DequantizeKernel().error
      ensures r.Ok? ==> fresh(r.value)
      ensures r.Ok? ==> r.value.inFeatures == inFeatures && r.value.outFeatures == outFeatures
      ensures r.Ok? ==> r.value.useBias == useBias && r.value.kernel == DequantizeKernel().value
      ensures r.Ok? ==> r.value.bias == if useBias then bias else None
    {
      var linear := new Linear.Abstract(inFeatures, outFeatures, useBias);
      var kernel := DequantizeKernel();
      if kernel.Err? {
        return Err(kernel.error);
      }
      linear.kernel := kernel.value;
      if useBias {
        linear.bias := bias;
      }
      return Ok(linear);
    }

    /** The check `__call__` asserts before adding the bias. */
    predicate BiasConsistent()
      reads this
    {
      useBias == bias.Some?
    }
  }

  /**
   * Decoding a freshly encoded 2-D kernel gives back an (in_features,
   * out_features) kernel whose block `b`, element `j`, is the level of that
   * weight's code scaled by the block's absmax.
   */
  lemma KernelRoundTrip(kernel: Tensor<real>, inFeatures: nat, outFeatures: nat, blockSize: nat)
    requires kernel.Valid() && kernel.shape == [inFeatures, outFeatures]
    requires QuantizeAndPack(kernel, blockSize).Ok?
    ensures var q := QuantizeAndPack(kernel, blockSize).value;
      var k := DequantizedKernel(Some(q.packed), Some(q.absmax), inFeatures, outFeatures, blockSize);
      var blocks := Blocks(kernel.data, blockSize).value;
      var x := SingleQuantizeAndPack(kernel.data, blockSize).value;
      k.Ok? && k.value.shape == [inFeatures, outFeatures] &&
      Reshape(k.value.data, |blocks|, blockSize).Some? &&
      forall b, j :: 0 <= b < |blocks| && 0 <= j < blockSize ==>
        Reshape(k.value.data, |blocks|, blockSize).value[b][j] ==
          Decode(Code(blocks[b][j] / x.absmax[b]), x.absmax[b])
  {
    var q := QuantizeAndPack(kernel, blockSize).value;
    var x := SingleQuantizeAndPack(kernel.data, blockSize).value;
    QuantizeDequantize(kernel, blockSize);
    ProductCons(inFeatures, [outFeatures]);
    ProductOne(outFeatures);
    SingleRoundTrip(kernel.data, blockSize);
    ProductOne(|x.bytes|);
    ProductOne(|x.absmax|);
    var rows := SingleDequantize(x.bytes, x.absmax, blockSize).value;
    assert q.packed == Tensor([|x.bytes|], x.bytes) && q.absmax == Tensor([|x.absmax|], x.absmax);
    assert Uniform(rows, blockSize);
    ReshapeFlatten(rows, blockSize);
  }

  /**
   * `from_linear` followed by `to_linear` on a consistent layer succeeds
   * exactly when the kernel can be encoded, and gives back a layer with the
   * same sizes and bias whose kernel has the original shape and holds, in
   * block `b`, element `j`, the level of that weight's code scaled by the
   * block's absmax.
   */
  method EncodeDecodeLinear(linear: Linear, blockSize: nat) returns (r: Result<Linear, LayerError>)
    requires linear.Valid()
    ensures r.Ok? <==> QuantizeAndPack(linear.kernel, blockSize).Ok?
    ensures r.Err? ==> r.error == Quantize(QuantizeAndPack(linear.kernel, blockSize).error)
    ensures r.Ok? ==> r.value.inFeatures == linear.inFeatures && r.value.outFeatures == linear.outFeatures
    ensures r.Ok? ==> r.value.useBias == linear.useBias && r.value.bias == linear.bias
    ensures r.Ok? ==> r.value.kernel.Valid() && r.value.kernel.shape == linear.kernel.shape
    ensures r.Ok? ==>
      var blocks := Blocks(linear.kernel.data, blockSize).value;
      var x := SingleQuantizeAndPack(linear.kernel.data, blockSize).value;
      Reshape(r.value.kernel.data, |blocks|, blockSize).Some? &&
      forall b, j :: 0 <= b < |blocks| && 0 <= j < blockSize ==>
        Reshape(r.value.kernel.data, |blocks|, blockSize).value[b][j] ==
          Decode(Code(blocks[b][j] / x.absmax[b]), x.absmax[b])
  {
    var layer := LinearNF4.FromLinear(linear, blockSize);
    if layer.Err? {
      return Err(layer.error);
    }
    KernelRoundTrip(linear.kernel, linear.inFeatures, linear.outFeatures, blockSize);
    r := layer.value.ToLinear();
  }

  /**
   * An encoded copy of a consistent `nnx.Linear` is consistent too, so the
   * bias check in `__call__` passes on it.
   */
  method FromLinearKeepsBias(linear: Linear, blockSize: nat) returns (layer: Result<LinearNF4, LayerError>)
    requires linear.Valid()
    ensures layer.Ok? ==> layer.value.BiasConsistent()
    ensures layer.Ok? ==> layer.value.bias == linear.bias
  {
    layer := LinearNF4.FromLinear(linear, blockSize);
  }
}
