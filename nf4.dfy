/**
 * The NF4 ("normal float, 4 bits") block codec of
 * easydel/layers/quantization/linear_nf4.py.
 *
 * A weight array is cut into blocks of `block_size` elements; each block is
 * divided by its largest magnitude (its absmax), every normalised value is
 * mapped to one of 16 codes by a sorted search over a boundary table, and two
 * codes are packed into one byte, high nibble first. Decoding unpacks the
 * nibbles, looks the codes up in a 16-entry level table and multiplies by the
 * block's absmax. Floating-point values are modelled as reals.
 */
module NF4 {
  import opened Wrappers
  import opened Tensors

  /** A 4-bit code. */
  type Nibble = c: int | 0 <= c < 16

  /** NF4_TABLE: the 16 levels a code stands for, before scaling by absmax. */
  const Levels: seq<real> := [
    -1.0,
    -0.6961928009986877,
    -0.5250730514526367,
    -0.39491748809814453,
    -0.28444138169288635,
    -0.18477343022823334,
    -0.09105003625154495,
    0.0,
    0.07958029955625534,
    0.16093020141124725,
    0.24611230194568634,
    0.33791524171829224,
    0.44070982933044434,
    0.5626170039176941,
    0.7229568362236023,
    1.0
  ]

  /** A boundary of the code table; the first one is minus infinity. */
  datatype Bound = NegInf | Fin(x: real)

  /** NF4_BOUNDARIES: the lower edges of the 16 code cells. */
  const Boundaries: seq<Bound> := [
    NegInf,
    Fin(-0.8480964004993439),
    Fin(-0.6106329262256622),
    Fin(-0.4599952697753906),
    Fin(-0.33967943489551544),
    Fin(-0.23460740596055984),
    Fin(-0.13791173323988914),
    Fin(-0.045525018125772476),
    Fin(0.03979014977812767),
    Fin(0.1202552504837513),
    Fin(0.2035212516784668),
    Fin(0.2920137718319893),
    Fin(0.3893125355243683),
    Fin(0.5016634166240692),
    Fin(0.6427869200706482),
    Fin(0.8614784181118011)
  ]

  /** The boundary lies strictly below the value. */
  predicate Below(b: Bound, v: real) {
    b.NegInf? || b.x < v
  }

  predicate Less(a: Bound, b: Bound) {
    b.Fin? && (a.NegInf? || a.x < b.x)
  }

  ghost predicate Increasing(s: seq<real>) {
    forall i, j :: 0 <= i < j < |s| ==> s[i] < s[j]
  }

  ghost predicate Ascending(bs: seq<Bound>) {
    forall i, j :: 0 <= i < j < |bs| ==> Less(bs[i], bs[j])
  }

  lemma {:induction false} StepChain(s: seq<real>, i: nat, j: nat)
    requires forall k :: 0 <= k < |s| - 1 ==> s[k] < s[k + 1]
    requires i < j < |s|
    ensures s[i] < s[j]
    decreases j - i
  {
    if i + 1 < j {
      StepChain(s, i + 1, j);
    }
  }

  lemma {:induction false} BoundStepChain(bs: seq<Bound>, i: nat, j: nat)
    requires forall k :: 0 <= k < |bs| - 1 ==> Less(bs[k], bs[k + 1])
    requires i < j < |bs|
    ensures Less(bs[i], bs[j])
    decreases j - i
  {
    if i + 1 < j {
      BoundStepChain(bs, i + 1, j);
    }
  }

  /** The level table: 16 strictly increasing entries from -1 to 1, with 0 at index 7. */
  lemma LevelsShape()
    ensures |Levels| == 16 && Increasing(Levels)
    ensures Levels[0] == -1.0 && Levels[7] == 0.0 && Levels[15] == 1.0
  {
    forall i, j | 0 <= i < j < |Levels|
      ensures Levels[i] < Levels[j]
    {
      StepChain(Levels, i, j);
    }
  }

  /** The boundary table: 16 strictly increasing entries, the first minus infinity. */
  lemma BoundariesShape()
    ensures |Boundaries| == 16 && Boundaries[0] == NegInf && Ascending(Boundaries)
    ensures forall i :: 1 <= i < 16 ==> Boundaries[i].Fin?
  {
    forall i, j | 0 <= i < j < |Boundaries|
      ensures Less(Boundaries[i], Boundaries[j])
    {
      BoundStepChain(Boundaries, i, j);
    }
  }

  /**
   * Left-side sorted search (jnp.searchsorted): the index of the first
   * boundary that is not below `v`, or |bs| when every boundary is.
   */
  function SearchSorted(bs: seq<Bound>, v: real): (n: nat)
    ensures n <= |bs|
    ensures forall i :: 0 <= i < n ==> Below(bs[i], v)
    ensures n < |bs| ==> !Below(bs[n], v)
  {
    if bs == [] || !Below(bs[0], v) then 0 else 1 + SearchSorted(bs[1..], v)
  }

  /** Over a sorted table the search counts the boundaries strictly below `v`. */
  lemma SearchSortedSplits(bs: seq<Bound>, v: real)
    requires Ascending(bs)
    ensures forall i :: 0 <= i < |bs| ==> (Below(bs[i], v) <==> i < SearchSorted(bs, v))
  {
    var n := SearchSorted(bs, v);
    forall i | n < i < |bs|
      ensures !Below(bs[i], v)
    {
      assert Less(bs[n], bs[i]);
    }
  }

  /** The code of a normalised value: the sorted-search index minus one. */
  function Code(v: real): Nibble
  {
    assert Boundaries[0] == NegInf;
    SearchSorted(Boundaries, v) - 1
  }

  /** A code is determined by its cell: `Boundaries[c] < v <= Boundaries[c + 1]`. */
  lemma CodeCell(v: real, c: Nibble)
    ensures Code(v) == c <==>
      Below(Boundaries[c], v) && (c == 15 || v <= Boundaries[c + 1].x)
  {
    BoundariesShape();
    SearchSortedSplits(Boundaries, v);
  }

  /** A larger value never gets a smaller code. */
  lemma CodeMonotone(v: real, w: real)
    requires v <= w
    ensures Code(v) <= Code(w)
  {
    BoundariesShape();
    SearchSortedSplits(Boundaries, w);
  }

  /** Each level falls in its own cell, so quantising a level gives back its code. */
  lemma CodeOfLevel(c: Nibble)
    ensures Code(Levels[c]) == c
  {
    CodeCell(Levels[c], c);
  }

  /** Zero and the extremes of the normalised range are coded exactly. */
  lemma CodeExact()
    ensures Code(0.0) == 7 && Code(1.0) == 15 && Code(-1.0) == 0
  {
    CodeOfLevel(7);
    CodeOfLevel(15);
    CodeOfLevel(0);
  }

  lemma LevelRange(c: Nibble)
    ensures -1.0 <= Levels[c] <= 1.0
    ensures c >= 7 ==> Levels[c] >= 0.0
    ensures c <= 7 ==> Levels[c] <= 0.0
  {
    LevelsShape();
    if c > 0 { assert Levels[0] < Levels[c]; }
    if c < 15 { assert Levels[c] < Levels[15]; }
    if c > 7 { assert Levels[7] < Levels[c]; }
    if c < 7 { assert Levels[c] < Levels[7]; }
  }

  /** Non-negative values get the codes of non-negative levels, non-positive values those of non-positive ones. */
  lemma CodeSign(v: real)
    ensures v >= 0.0 ==> Code(v) >= 7
    ensures v <= 0.0 ==> Code(v) <= 7
  {
    CodeExact();
    if v >= 0.0 {
      CodeMonotone(0.0, v);
    }
    if v <= 0.0 {
      CodeMonotone(v, 0.0);
    }
  }

  function Abs(x: real): real {
    if x < 0.0 then -x else x
  }

  /** `jnp.max(jnp.abs(block))`: the largest magnitude in a non-empty block. */
  function MaxAbs(block: seq<real>): (m: real)
    requires |block| > 0
    ensures forall i :: 0 <= i < |block| ==> Abs(block[i]) <= m
    ensures exists i :: 0 <= i < |block| && Abs(block[i]) == m
  {
    if |block| == 1 then Abs(block[0])
    else
      var rest := MaxAbs(block[1..]);
      assert forall i :: 1 <= i < |block| ==> block[i] == block[1..][i - 1];
      if Abs(block[0]) >= rest then Abs(block[0]) else rest
  }

  lemma DivFacts(x: real, m: real)
    requires m > 0.0
    ensures x >= 0.0 ==> x / m >= 0.0
    ensures x <= 0.0 ==> x / m <= 0.0
    ensures x == 0.0 ==> x / m == 0.0
    ensures x == m ==> x / m == 1.0
    ensures x == -m ==> x / m == -1.0
    ensures -m <= x <= m ==> -1.0 <= x / m <= 1.0
  {
    var q := x / m;
    assert q * m == x;
    if -m <= x <= m {
      assert (1.0 - q) * m == m - x;
      assert (q + 1.0) * m == x + m;
    }
  }

  lemma SignMul(l: real, m: real)
    requires m > 0.0
    ensures l >= 0.0 ==> l * m >= 0.0
    ensures l <= 0.0 ==> l * m <= 0.0
    ensures -1.0 <= l <= 1.0 ==> -m <= l * m <= m
  {
  }

  lemma DivExact(n: nat, d: nat)
    requires d > 0 && n % d == 0
    ensures n == (n / d) * d
  {
  }

  /** Every normalised element of a block lies in [-1, 1]. */
  lemma NormalisedRange(block: seq<real>, j: nat)
    requires j < |block| && MaxAbs(block) > 0.0
    ensures -1.0 <= block[j] / MaxAbs(block) <= 1.0
  {
    var m := MaxAbs(block);
    assert Abs(block[j]) <= m;
    DivFacts(block[j], m);
  }

  /** The codes of one block: each element divided by the block's absmax, then searched. */
  function BlockCodes(block: seq<real>, m: real): (codes: seq<Nibble>)
    requires m > 0.0
    ensures |codes| == |block|
  {
    seq(|block|, j requires 0 <= j < |block| => Code(block[j] / m))
  }

  /** Two codes in one byte, the first in the high nibble. */
  function Byte(hi: Nibble, lo: Nibble): bv8 {
    ((hi as bv8) << 4) | (lo as bv8)
  }

  function High(p: bv8): Nibble {
    ((p >> 4) & 0xF) as int
  }

  function Low(p: bv8): Nibble {
    (p & 0xF) as int
  }

  /** Packing a pair is the byte `16 * hi + lo`. */
  lemma ByteValue(hi: Nibble, lo: Nibble)
    ensures Byte(hi, lo) == (hi as bv8) * 16 + (lo as bv8)
  {
  }

  /** Splitting a packed byte gives the two codes back. */
  lemma SplitByte(hi: Nibble, lo: Nibble)
    ensures High(Byte(hi, lo)) == hi && Low(Byte(hi, lo)) == lo
  {
  }

  /** Every byte is the packing of its two nibbles. */
  lemma JoinByte(p: bv8)
    ensures Byte(High(p), Low(p)) == p
  {
  }

  /** `reshape(-1, 2)` then `(q[:, 0] << 4) | q[:, 1]`: consecutive codes share a byte. */
  function Pack(codes: seq<Nibble>): (bytes: seq<bv8>)
    requires |codes| % 2 == 0
    ensures |bytes| == |codes| / 2
    ensures forall i :: 0 <= i < |bytes| ==>
      High(bytes[i]) == codes[2 * i] && Low(bytes[i]) == codes[2 * i + 1]
  {
    seq(|codes| / 2, i requires 0 <= i < |codes| / 2 => Byte(codes[2 * i], codes[2 * i + 1]))
  }

  /** `stack([high, low], axis=1).reshape(-1)` on a flat byte array: the nibbles interleaved. */
  function Unpack(bytes: seq<bv8>): (codes: seq<Nibble>)
    ensures |codes| == 2 * |bytes|
  {
    if bytes == [] then [] else [High(bytes[0]), Low(bytes[0])] + Unpack(bytes[1..])
  }

  /** Byte `i` supplies codes `2 * i` (its high nibble) and `2 * i + 1` (its low nibble). */
  lemma {:induction false} UnpackAt(bytes: seq<bv8>)
    ensures forall i :: 0 <= i < |bytes| ==>
      Unpack(bytes)[2 * i] == High(bytes[i]) && Unpack(bytes)[2 * i + 1] == Low(bytes[i])
  {
    if bytes != [] {
      UnpackAt(bytes[1..]);
      forall i | 1 <= i < |bytes|
        ensures Unpack(bytes)[2 * i] == High(bytes[i]) && Unpack(bytes)[2 * i + 1] == Low(bytes[i])
      {
        assert bytes[i] == bytes[1..][i - 1];
        assert 2 * i == 2 * (i - 1) + 2;
      }
    }
  }

  /** Unpacking inverts packing for every even-length code sequence. */
  lemma UnpackPack(codes: seq<Nibble>)
    requires |codes| % 2 == 0
    ensures Unpack(Pack(codes)) == codes
  {
    var u := Unpack(Pack(codes));
    UnpackAt(Pack(codes));
    forall k | 0 <= k < |codes|
      ensures u[k] == codes[k]
    {
      var i := k / 2;
      if k % 2 == 0 {
        assert k == 2 * i;
      } else {
        assert k == 2 * i + 1;
      }
    }
  }

  /** Packing inverts unpacking for every byte sequence. */
  lemma PackUnpack(bytes: seq<bv8>)
    ensures |Unpack(bytes)| % 2 == 0 && Pack(Unpack(bytes)) == bytes
  {
    var p := Pack(Unpack(bytes));
    UnpackAt(bytes);
    forall i | 0 <= i < |bytes|
      ensures p[i] == bytes[i]
    {
      assert (2 * i) / 2 == i && (2 * i + 1) / 2 == i && (2 * i + 1) % 2 == 1;
      JoinByte(bytes[i]);
    }
  }

  /** The value code `c` stands for in a block whose absmax is `m`. */
  function Decode(c: Nibble, m: real): real {
    Levels[c] * m
  }

  /** A decoded value lies within the block's absmax and has the sign of its level. */
  lemma DecodeBounds(c: Nibble, m: real)
    requires m > 0.0
    ensures -m <= Decode(c, m) <= m
    ensures c >= 7 ==> Decode(c, m) >= 0.0
    ensures c <= 7 ==> Decode(c, m) <= 0.0
  {
    LevelRange(c);
    SignMul(Levels[c], m);
  }

  lemma DecodeExact(m: real)
    ensures Decode(7, m) == 0.0 && Decode(15, m) == m && Decode(0, m) == -m
  {
  }

  /** Normalising by absmax, coding and decoding keeps a value within absmax and keeps its sign. */
  lemma DecodeNormalised(x: real, m: real)
    requires m > 0.0 && -m <= x <= m
    ensures -m <= Decode(Code(x / m), m) <= m
    ensures x >= 0.0 ==> Decode(Code(x / m), m) >= 0.0
    ensures x <= 0.0 ==> Decode(Code(x / m), m) <= 0.0
    ensures x == 0.0 ==> Decode(Code(x / m), m) == 0.0
    ensures x == m || x == -m ==> Decode(Code(x / m), m) == x
  {
    DivFacts(x, m);
    var v := x / m;
    CodeSign(v);
    CodeExact();
    DecodeBounds(Code(v), m);
    DecodeExact(m);
  }

  datatype QuantError =
    | BlockShape   // reshape(-1, block_size) fails: block_size is 0 or does not divide the size
    | PairShape    // reshape(-1, 2) fails: an odd number of codes
    | ZeroAbsmax   // a block is all zeros; the source divides 0 by 0 here

  /** The packed codes and the per-block absmax of a flat array. */
  datatype Quantized = Quantized(bytes: seq<bv8>, absmax: seq<real>)

  /** `reshape(-1, block_size)`: the blocks of a flat array, when the block size divides its length. */
  function Blocks(x: seq<real>, blockSize: nat): (r: Option<seq<seq<real>>>)
    ensures r.Some? <==> blockSize > 0 && |x| % blockSize == 0
    ensures r.Some? ==> |r.value| == |x| / blockSize
    ensures r.Some? ==> Uniform(r.value, blockSize) && Flatten(r.value) == x
  {
    if blockSize == 0 || |x| % blockSize != 0 then None
    else
      DivExact(|x|, blockSize);
      Reshape(x, |x| / blockSize, blockSize)
  }

  /** The per-block absmax (`jnp.max(jnp.abs(blocks), axis=1)`). */
  function Absmax(blocks: seq<seq<real>>): (m: seq<real>)
    requires forall b :: 0 <= b < |blocks| ==> |blocks[b]| > 0
    ensures |m| == |blocks|
    ensures forall b :: 0 <= b < |blocks| ==> m[b] == MaxAbs(blocks[b])
  {
    seq(|blocks|, b requires 0 <= b < |blocks| => MaxAbs(blocks[b]))
  }

  /** The codes of a flat array, block by block: normalise by the block's absmax, then search. */
  function Codes(blocks: seq<seq<real>>, absmax: seq<real>): (codes: seq<seq<Nibble>>)
    requires |absmax| == |blocks|
    requires forall b :: 0 <= b < |blocks| ==> absmax[b] > 0.0
    ensures |codes| == |blocks|
    ensures forall b :: 0 <= b < |blocks| ==> codes[b] == BlockCodes(blocks[b], absmax[b])
  {
    seq(|blocks|, b requires 0 <= b < |blocks| => BlockCodes(blocks[b], absmax[b]))
  }

  /** The source's order of checks: the block reshape, then the pair reshape. */
  function BlockingError(n: nat, blockSize: nat): Option<QuantError> {
    if blockSize == 0 || n % blockSize != 0 then Some(BlockShape)
    else if n % 2 != 0 then Some(PairShape)
    else None
  }

  /** `single_quantize_and_pack_nf4` on the flattened input. */
  function SingleQuantizeAndPack(x: seq<real>, blockSize: nat): (r: Result<Quantized, QuantError>)
    ensures BlockingError(|x|, blockSize).Some? ==> r == Err(BlockingError(|x|, blockSize).value)
    ensures BlockingError(|x|, blockSize).None? ==>
      var blocks := Blocks(x, blockSize).value;
      (r.Ok? <==> forall b :: 0 <= b < |blocks| ==> MaxAbs(blocks[b]) != 0.0)
    ensures r.Err? ==> BlockingError(|x|, blockSize).Some? || r.error == ZeroAbsmax
    ensures r.Ok? ==>
      var blocks := Blocks(x, blockSize).value;
      Blocks(x, blockSize).Some? && 2 * |r.value.bytes| == |x| &&
      r.value.absmax == Absmax(blocks)
  {
    match Blocks(x, blockSize)
    case None => Err(BlockShape)
    case Some(blocks) =>
      var absmax := Absmax(blocks);
      if |x| % 2 != 0 then Err(PairShape)
      else if exists b :: 0 <= b < |blocks| && absmax[b] == 0.0 then Err(ZeroAbsmax)
      else
        var codes := Codes(blocks, absmax);
        FlattenLength(codes, blocks);
        Ok(Quantized(Pack(Flatten(codes)), absmax))
  }

  datatype DequantError =
    | ReshapeMismatch   // the unpacked codes do not fill len(absmax) rows of block_size
    | RankUnsupported   // an array rank the single-array decoder does not accept

  /** `single_dequantize_nf4` on a flat byte array: `len(absmax)` rows of `block_size` values. */
  function SingleDequantize(bytes: seq<bv8>, absmax: seq<real>, blockSize: nat)
    : (r: Result<seq<seq<real>>, DequantError>)
    ensures r.Ok? <==> 2 * |bytes| == |absmax| * blockSize
    ensures r.Ok? ==>
      var rows := Reshape(Unpack(bytes), |absmax|, blockSize).value;
      |r.value| == |absmax| &&
      forall b :: 0 <= b < |absmax| ==>
        |r.value[b]| == blockSize &&
        forall j :: 0 <= j < blockSize ==> r.value[b][j] == Decode(rows[b][j], absmax[b])
  {
    match Reshape(Unpack(bytes), |absmax|, blockSize)
    case None => Err(ReshapeMismatch)
    case Some(rows) =>
      Ok(seq(|absmax|, b requires 0 <= b < |absmax| =>
        seq(blockSize, j requires 0 <= j < blockSize => Decode(rows[b][j], absmax[b]))))
  }

  /** The packed bytes unpack, row by row, to the codes of the blocks. */
  lemma SingleQuantizeCodes(x: seq<real>, blockSize: nat)
    requires SingleQuantizeAndPack(x, blockSize).Ok?
    ensures var q := SingleQuantizeAndPack(x, blockSize).value;
      var blocks := Blocks(x, blockSize).value;
      |q.absmax| == |blocks| &&
      (forall b :: 0 <= b < |blocks| ==> q.absmax[b] > 0.0) &&
      Reshape(Unpack(q.bytes), |q.absmax|, blockSize) == Some(Codes(blocks, q.absmax))
  {
    var q := SingleQuantizeAndPack(x, blockSize).value;
    var blocks := Blocks(x, blockSize).value;
    var codes := Codes(blocks, q.absmax);
    FlattenLength(codes, blocks);
    assert q.bytes == Pack(Flatten(codes));
    UnpackPack(Flatten(codes));
    assert Uniform(codes, blockSize);
    ReshapeFlatten(codes, blockSize);
  }

  /**
   * Round trip of the single-array codec: decoding what the encoder packed
   * gives, at element `j` of block `b`, the level of that element's code
   * scaled by the block's absmax.
   */
  lemma SingleRoundTrip(x: seq<real>, blockSize: nat)
    requires SingleQuantizeAndPack(x, blockSize).Ok?
    ensures var q := SingleQuantizeAndPack(x, blockSize).value;
      var blocks := Blocks(x, blockSize).value;
      var d := SingleDequantize(q.bytes, q.absmax, blockSize);
      d.Ok? && |d.value| == |blocks| &&
      forall b :: 0 <= b < |blocks| ==>
        q.absmax[b] > 0.0 && |d.value[b]| == blockSize &&
        forall j :: 0 <= j < blockSize ==>
          d.value[b][j] == Decode(Code(blocks[b][j] / q.absmax[b]), q.absmax[b])
  {
    SingleQuantizeCodes(x, blockSize);
    var q := SingleQuantizeAndPack(x, blockSize).value;
    var blocks := Blocks(x, blockSize).value;
    var codes := Codes(blocks, q.absmax);
    var d := SingleDequantize(q.bytes, q.absmax, blockSize).value;
    forall b | 0 <= b < |blocks|
      ensures forall j :: 0 <= j < blockSize ==>
        d[b][j] == Decode(Code(blocks[b][j] / q.absmax[b]), q.absmax[b])
    {
      assert codes[b] == BlockCodes(blocks[b], q.absmax[b]);
    }
  }

  /**
   * Every decoded element lies within its block's absmax and keeps the sign of
   * the input; zeros and the elements of largest magnitude come back exactly.
   */
  lemma SingleRoundTripBounds(x: seq<real>, blockSize: nat, b: nat, j: nat)
    requires SingleQuantizeAndPack(x, blockSize).Ok?
    requires b < |x| / blockSize && j < blockSize
    ensures var q := SingleQuantizeAndPack(x, blockSize).value;
      var blocks := Blocks(x, blockSize).value;
      var d := SingleDequantize(q.bytes, q.absmax, blockSize);
      d.Ok? && b < |d.value| && j < |d.value[b]| &&
      var v := blocks[b][j];
      var m := q.absmax[b];
      var w := d.value[b][j];
      -m <= w <= m &&
      (v >= 0.0 ==> w >= 0.0) && (v <= 0.0 ==> w <= 0.0) &&
      (v == 0.0 ==> w == 0.0) &&
      (Abs(v) == m ==> w == v)
  {
    SingleRoundTrip(x, blockSize);
    var q := SingleQuantizeAndPack(x, blockSize).value;
    var blocks := Blocks(x, blockSize).value;
    assert Abs(blocks[b][j]) <= q.absmax[b];
    DecodeNormalised(blocks[b][j], q.absmax[b]);
  }
}

/**
 * The batched wrappers `quantize_and_pack_nf4` and `dequantize_nf4`, which map
 * the single-array codec along the leading axis (jax.vmap).
 */
module NF4Batched {
  import opened Wrappers
  import opened Tensors
  import opened NF4

  /** Packed codes and absmax arrays as the batched encoder returns them. */
  datatype QTensor = QTensor(packed: Tensor<bv8>, absmax: Tensor<real>)

  /** The shape errors of the batched encoder: those of the innermost two-dimensional slices. */
  function QuantizeShapeError(shape: seq<nat>, blockSize: nat): Option<QuantError>
    decreases |shape|
  {
    if |shape| > 2 then QuantizeShapeError(shape[1..], blockSize)
    else BlockingError(Product(shape), blockSize)
  }

  function PackedShape(shape: seq<nat>): seq<nat>
    decreases |shape|
  {
    if |shape| > 2 then [shape[0]] + PackedShape(shape[1..]) else [Product(shape) / 2]
  }

  function AbsmaxShape(shape: seq<nat>, blockSize: nat): seq<nat>
    requires blockSize > 0
    decreases |shape|
  {
    if |shape| > 2 then [shape[0]] + AbsmaxShape(shape[1..], blockSize)
    else [Product(shape) / blockSize]
  }

  /** A shape the encoder accepts has a positive block size. */
  lemma {:induction false} ShapeOkBlockSize(shape: seq<nat>, blockSize: nat)
    requires QuantizeShapeError(shape, blockSize).None?
    ensures blockSize > 0
    decreases |shape|
  {
    if |shape| > 2 {
      ShapeOkBlockSize(shape[1..], blockSize);
    }
  }

  /**
   * `quantize_and_pack_nf4`: arrays of rank above two are encoded slice by
   * slice along the leading axis; others are flattened and encoded whole.
   */
  function QuantizeAndPack(t: Tensor<real>, blockSize: nat): (r: Result<QTensor, QuantError>)
    requires t.Valid()
    ensures QuantizeShapeError(t.shape, blockSize).Some? ==>
      r == Err(QuantizeShapeError(t.shape, blockSize).value)
    ensures r.Err? ==> QuantizeShapeError(t.shape, blockSize).Some? || r.error == ZeroAbsmax
    ensures r.Ok? ==> r.value.packed.Valid() && r.value.absmax.Valid()
    ensures r.Ok? ==> r.value.packed.shape == PackedShape(t.shape)
    ensures r.Ok? ==> blockSize > 0 && r.value.absmax.shape == AbsmaxShape(t.shape, blockSize)
    decreases |t.shape|
  {
    if |t.shape| > 2 then
      var inner := t.shape[1..];
      if QuantizeShapeError(inner, blockSize).Some? then Err(QuantizeShapeError(inner, blockSize).value)
      else
        ShapeOkBlockSize(inner, blockSize);
        var parts := seq(t.shape[0], i requires 0 <= i < t.shape[0] => QuantizeAndPack(Slice(t, i), blockSize));
        if exists i :: 0 <= i < |parts| && parts[i].Err? then Err(ZeroAbsmax)
        else
          var packed := seq(|parts|, i requires 0 <= i < |parts| => parts[i].value.packed);
          var absmax := seq(|parts|, i requires 0 <= i < |parts| => parts[i].value.absmax);
          Ok(QTensor(Stack(PackedShape(inner), packed), Stack(AbsmaxShape(inner, blockSize), absmax)))
    else
      match SingleQuantizeAndPack(t.data, blockSize)
      case Err(e) => Err(e)
      case Ok(q) =>
        ProductOne(|q.bytes|);
        ProductOne(|q.absmax|);
        Ok(QTensor(Tensor([|q.bytes|], q.bytes), Tensor([|q.absmax|], q.absmax)))
  }

  /** Slice `i` of a batched encoding is the encoding of slice `i` of the input. */
  lemma QuantizeSlices(t: Tensor<real>, blockSize: nat, i: nat)
    requires t.Valid() && |t.shape| > 2 && i < t.shape[0]
    requires QuantizeAndPack(t, blockSize).Ok?
    ensures QuantizeAndPack(Slice(t, i), blockSize).Ok?
    ensures Slice(QuantizeAndPack(t, blockSize).value.packed, i) ==
      QuantizeAndPack(Slice(t, i), blockSize).value.packed
    ensures Slice(QuantizeAndPack(t, blockSize).value.absmax, i) ==
      QuantizeAndPack(Slice(t, i), blockSize).value.absmax
  {
    var inner := t.shape[1..];
    var parts := seq(t.shape[0], k requires 0 <= k < t.shape[0] => QuantizeAndPack(Slice(t, k), blockSize));
    assert parts[i] == QuantizeAndPack(Slice(t, i), blockSize);
    var packed := seq(|parts|, k requires 0 <= k < |parts| => parts[k].value.packed);
    var absmax := seq(|parts|, k requires 0 <= k < |parts| => parts[k].value.absmax);
    SliceStack(PackedShape(inner), packed, i);
    SliceStack(AbsmaxShape(inner, blockSize), absmax, i);
  }

  /**
   * The shape `dequantize_nf4` gives when it maps over the leading axis while
   * the packed array has rank above one (the intended recursion, see Findings).
   */
  function DequantShape(ps: seq<nat>, ms: seq<nat>, blockSize: nat): Result<seq<nat>, DequantError>
    decreases |ps|
  {
    if |ps| > 1 then
      if |ms| == 0 || ms[0] != ps[0] then Err(RankUnsupported)
      else
        match DequantShape(ps[1..], ms[1..], blockSize)
        case Err(e) => Err(e)
        case Ok(s) => Ok([ps[0]] + s)
    else if |ps| == 0 || |ms| != 1 then Err(RankUnsupported)
    else if 2 * ps[0] != ms[0] * blockSize then Err(ReshapeMismatch)
    else Ok([ms[0], blockSize])
  }

  /**
   * Batched decoder: while the packed array has rank above one, decode slice
   * by slice along the leading axis; a flat packed array with a flat absmax is
   * decoded into `len(absmax)` rows of `block_size`.
   */
  function DequantizeNF4(packed: Tensor<bv8>, absmax: Tensor<real>, blockSize: nat)
    : (r: Result<Tensor<real>, DequantError>)
    requires packed.Valid() && absmax.Valid()
    ensures r.Ok? <==> DequantShape(packed.shape, absmax.shape, blockSize).Ok?
    ensures r.Err? ==> r.error == DequantShape(packed.shape, absmax.shape, blockSize).error
    ensures r.Ok? ==> r.value.Valid()
    ensures r.Ok? ==> r.value.shape == DequantShape(packed.shape, absmax.shape, blockSize).value
    decreases |packed.shape|
  {
    if |packed.shape| > 1 then
      if |absmax.shape| == 0 || absmax.shape[0] != packed.shape[0] then Err(RankUnsupported)
      else
        match DequantShape(packed.shape[1..], absmax.shape[1..], blockSize)
        case Err(e) => Err(e)
        case Ok(inner) =>
          var parts := seq(packed.shape[0], i requires 0 <= i < packed.shape[0] =>
            DequantizeNF4(Slice(packed, i), Slice(absmax, i), blockSize).value);
          Ok(Stack(inner, parts))
    else if |packed.shape| == 0 || |absmax.shape| != 1 then Err(RankUnsupported)
    else
      ProductOne(packed.shape[0]);
      ProductOne(absmax.shape[0]);
      match SingleDequantize(packed.data, absmax.data, blockSize)
      case Err(e) => Err(e)
      case Ok(rows) =>
        FlattenAt(rows, blockSize);
        ProductCons(|rows|, [blockSize]);
        ProductOne(blockSize);
        Ok(Tensor([|rows|, blockSize], Flatten(rows)))
  }

  /** The shape the decoder gives for what the encoder produced. */
  function RoundTripShape(shape: seq<nat>, blockSize: nat): seq<nat>
    requires blockSize > 0
    decreases |shape|
  {
    if |shape| > 2 then [shape[0]] + RoundTripShape(shape[1..], blockSize)
    else [Product(shape) / blockSize, blockSize]
  }

  /**
   * Decoding accepts whatever shapes encoding produced, and gives the leading
   * axes of the input followed by (blocks per slice, block size).
   */
  lemma {:induction false} RoundTripShapes(shape: seq<nat>, blockSize: nat)
    requires QuantizeShapeError(shape, blockSize).None?
    ensures blockSize > 0
    ensures DequantShape(PackedShape(shape), AbsmaxShape(shape, blockSize), blockSize) ==
      Ok(RoundTripShape(shape, blockSize))
    ensures Product(RoundTripShape(shape, blockSize)) == Product(shape)
    decreases |shape|
  {
    if |shape| > 2 {
      RoundTripShapes(shape[1..], blockSize);
      ProductCons(shape[0], RoundTripShape(shape[1..], blockSize));
      assert shape == [shape[0]] + shape[1..];
      ProductCons(shape[0], shape[1..]);
    } else {
      var n := Product(shape);
      DivExact(n, blockSize);
      DivExact(n, 2);
      ProductCons(n / blockSize, [blockSize]);
      ProductOne(blockSize);
    }
  }

  /** Quantising and then dequantising succeeds, keeps the number of elements and yields the round-trip shape. */
  lemma QuantizeDequantize(t: Tensor<real>, blockSize: nat)
    requires t.Valid() && QuantizeAndPack(t, blockSize).Ok?
    ensures var q := QuantizeAndPack(t, blockSize).value;
      var d := DequantizeNF4(q.packed, q.absmax, blockSize);
      blockSize > 0 && d.Ok? && d.value.shape == RoundTripShape(t.shape, blockSize) &&
      |d.value.data| == |t.data|
  {
    RoundTripShapes(t.shape, blockSize);
  }

  /**
   * numpy broadcasting of two shapes: aligned on the right, each pair of axes
   * must agree or one of them must be 1.
   */
  function Broadcast(a: seq<nat>, b: seq<nat>): Option<seq<nat>>
    decreases |a| + |b|
  {
    if a == [] then Some(b)
    else if b == [] then Some(a)
    else
      var x, y := a[|a| - 1], b[|b| - 1];
      if x != y && x != 1 && y != 1 then None
      else
        match Broadcast(a[..|a| - 1], b[..|b| - 1])
        case None => None
        case Some(p) => Some(p + [if x == 1 then y else x])
  }

  /**
   * The result shape of `dequantize_nf4` as written: it maps over the leading
   * axis only while the packed array has rank above two, so a two-dimensional
   * packed array reaches `single_dequantize_nf4`, which concatenates the
   * two-dimensional nibble array, takes `len(absmax)` rows of `block_size`,
   * and broadcasts them against `absmax[:, None]`.
   */
  function DequantShapeAsWritten(ps: seq<nat>, ms: seq<nat>, blockSize: nat): Result<seq<nat>, DequantError>
    decreases |ps|
  {
    if |ps| > 2 then
      if |ms| == 0 || ms[0] != ps[0] then Err(RankUnsupported)
      else
        match DequantShapeAsWritten(ps[1..], ms[1..], blockSize)
        case Err(e) => Err(e)
        case Ok(s) => Ok([ps[0]] + s)
    else if |ps| == 0 || |ms| == 0 then Err(RankUnsupported)
    else if 2 * Product(ps) != ms[0] * blockSize then Err(ReshapeMismatch)
    else
      match Broadcast([ms[0], blockSize], [ms[0], 1] + ms[1..])
      case None => Err(ReshapeMismatch)
      case Some(s) => Ok(s)
  }

  /** On flat packed arrays with flat absmax the as-written decoder agrees with the intended one. */
  lemma AsWrittenFlatAgrees(ps: seq<nat>, ms: seq<nat>, blockSize: nat)
    requires |ps| == 1 && |ms| == 1
    ensures DequantShapeAsWritten(ps, ms, blockSize) == DequantShape(ps, ms, blockSize)
  {
    assert ps == [ps[0]];
    ProductOne(ps[0]);
    assert [ms[0], 1] + ms[1..] == [ms[0], 1];
    BroadcastRow(ms[0], blockSize);
  }

  /** `(n, size)` broadcast against `(n, 1)` is `(n, size)`. */
  lemma BroadcastRow(n: nat, size: nat)
    ensures Broadcast([n, size], [n, 1]) == Some([n, size])
  {
    var a: seq<nat> := [n];
    var e: seq<nat> := [];
    assert a[..0] == e;
    assert Broadcast(e, e) == Some(e);
    assert e + [n] == a;
    assert Broadcast(a, a) == Some(a);
    var ab: seq<nat> := [n, size];
    var b1: seq<nat> := [n, 1];
    assert ab[..1] == a && b1[..1] == a;
    assert a + [size] == ab;
  }

  /** `(n, size)` broadcast against `(n, 1, 1)` is `(n, n, size)`. */
  lemma BroadcastBatch(n: nat, size: nat)
    ensures Broadcast([n, size], [n, 1, 1]) == Some([n, n, size])
  {
    var a: seq<nat> := [n];
    var e: seq<nat> := [];
    var b1: seq<nat> := [n, 1];
    assert a[..0] == e && b1[..1] == a;
    assert Broadcast(e, a) == Some(a);
    var nn: seq<nat> := [n, n];
    assert a + [n] == nn;
    assert Broadcast(a, b1) == Some(nn);
    var ab: seq<nat> := [n, size];
    var b2: seq<nat> := [n, 1, 1];
    assert ab[..1] == a && b2[..2] == b1;
    var r: seq<nat> := [n, n, size];
    assert nn + [size] == r;
  }

  /**
   * The defect: encoding a rank-3 array of shape (B, 1, block_size) yields a
   * rank-2 packed array, the as-written decoder sends it to the single-array
   * path and returns shape (B, B, block_size), not the (B, 1, block_size) the
   * intended decoder returns.
   */
  lemma AsWrittenShapeDefect(t: Tensor<real>, blockSize: nat)
    requires t.Valid() && |t.shape| == 3 && t.shape[0] >= 2 && t.shape[1] == 1 && t.shape[2] == blockSize
    requires QuantizeAndPack(t, blockSize).Ok?
    ensures var q := QuantizeAndPack(t, blockSize).value;
      DequantShapeAsWritten(q.packed.shape, q.absmax.shape, blockSize) ==
        Ok([t.shape[0], t.shape[0], blockSize]) &&
      DequantShape(q.packed.shape, q.absmax.shape, blockSize) == Ok([t.shape[0], 1, blockSize])
  {
    var B := t.shape[0];
    assert t.shape[1..] == [1, blockSize];
    ProductCons(1, [blockSize]);
    ProductOne(blockSize);
    assert QuantizeShapeError(t.shape, blockSize) == BlockingError(blockSize, blockSize);
    var half := blockSize / 2;
    assert 2 * half == blockSize;
    assert PackedShape(t.shape) == [B, half];
    assert AbsmaxShape(t.shape, blockSize) == [B, 1];
    ProductCons(B, [half]);
    ProductOne(half);
    ShapeDefect(B, half);
  }

  /** The shapes above, as arithmetic on `B` and half the block size. */
  lemma ShapeDefect(B: nat, half: nat)
    requires half > 0
    ensures DequantShapeAsWritten([B, half], [B, 1], 2 * half) == Ok([B, B, 2 * half])
    ensures DequantShape([B, half], [B, 1], 2 * half) == Ok([B, 1, 2 * half])
  {
    AsWrittenDefect(B, half);
    IntendedShape(B, half);
  }

  lemma AsWrittenDefect(B: nat, half: nat)
    requires half > 0
    ensures DequantShapeAsWritten([B, half], [B, 1], 2 * half) == Ok([B, B, 2 * half])
  {
    var ps: seq<nat> := [B, half];
    var ms: seq<nat> := [B, 1];
    ProductCons(B, [half]);
    ProductOne(half);
    Twice(B, half);
    var tail: seq<nat> := [1];
    assert ms[1..] == tail;
    var b3: seq<nat> := [B, 1, 1];
    assert [B, 1] + tail == b3;
    BroadcastBatch(B, 2 * half);
  }

  lemma Twice(B: nat, half: nat)
    ensures 2 * (B * half) == B * (2 * half)
  {
  }

  lemma IntendedShape(B: nat, half: nat)
    requires half > 0
    ensures DequantShape([B, half], [B, 1], 2 * half) == Ok([B, 1, 2 * half])
  {
    var ps: seq<nat> := [B, half];
    var ms: seq<nat> := [B, 1];
    var tail: seq<nat> := [1];
    assert ms[1..] == tail && ps[1..] == [half];
    var inner: seq<nat> := [1, 2 * half];
    assert DequantShape([half], tail, 2 * half) == Ok(inner);
    assert [B] + inner == [B, 1, 2 * half];
  }

  /**
   * A second face of the same defect: with two blocks per slice the as-written
   * decoder rejects what the encoder produced, while the intended one accepts it.
   */
  lemma AsWrittenRejectsTwoBlocks()
    ensures DequantShapeAsWritten(PackedShape([2, 2, 64]), AbsmaxShape([2, 2, 64], 64), 64) == Err(ReshapeMismatch)
    ensures DequantShape(PackedShape([2, 2, 64]), AbsmaxShape([2, 2, 64], 64), 64) == Ok([2, 2, 64])
  {
    assert [2, 2, 64][1..] == [2, 64];
    assert PackedShape([2, 2, 64]) == [2, 64];
    assert AbsmaxShape([2, 2, 64], 64) == [2, 2];
    var ps: seq<nat> := [2, 64];
    var ms: seq<nat> := [2, 2];
    var p1: seq<nat> := [64];
    var m1: seq<nat> := [2];
    assert ps[1..] == p1 && ms[1..] == m1;
    var inner: seq<nat> := [2, 64];
    assert DequantShape(p1, m1, 64) == Ok(inner);
    assert [2] + inner == [2, 2, 64];
  }
}
