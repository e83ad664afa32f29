/**
 * Head arithmetic shared by the attention layers of DBRX, Mistral and
 * GPT-NeoX: Python's floor division on head counts, the key/value group
 * count with its assertion, and the divisibility facts the head reshapes
 * rest on.
 */
module Heads {
  import opened Wrappers
  import opened Tensors

  datatype AttentionError =
    | ZeroHeads        // a floor division by a zero head count
    | GroupMismatch    // the assertion on the head counts when the group size is 1
    | HeadReshape      // a part of the row does not fill its (heads, head_dim) reshape
    | UnevenSplit      // the fused row does not split into three equal parts

  /** One token's query, key and value, each a sequence of heads. */
  datatype QkvHeads = QkvHeads(query: seq<Vec>, key: seq<Vec>, value: seq<Vec>)

  /** Python's `//` on non-negative operands, with division by zero an error. */
  function FloorDiv(a: nat, b: nat): (r: Result<nat, AttentionError>)
    ensures r.Err? <==> b == 0
    ensures r.Err? ==> r.error == ZeroHeads
    ensures r.Ok? ==> r.value * b <= a < (r.value + 1) * b
  {
    if b == 0 then Err(ZeroHeads) else Ok(a / b)
  }

  /**
   * `num_key_value_groups = num_heads // num_kv_heads` and the assertion that
   * a group size of 1 means equal head counts.
   */
  function Groups(numHeads: nat, numKvHeads: nat): (r: Result<nat, AttentionError>)
    ensures r.Err? <==> numKvHeads == 0 || numKvHeads < numHeads < 2 * numKvHeads
    ensures numKvHeads == 0 ==> r == Err(ZeroHeads)
    ensures numKvHeads > 0 && r.Err? ==> r.error == GroupMismatch
    ensures r.Ok? ==> r.value * numKvHeads <= numHeads < (r.value + 1) * numKvHeads
    ensures r.Ok? && r.value == 1 ==> numHeads == numKvHeads
  {
    var groups :- FloorDiv(numHeads, numKvHeads);
    OneGroup(numHeads, numKvHeads, groups);
    if groups == 1 && numHeads != numKvHeads then Err(GroupMismatch) else Ok(groups)
  }

  /** A quotient of 1 means the dividend lies in [divisor, 2 * divisor). */
  lemma OneGroup(n: nat, kv: nat, g: nat)
    requires kv > 0 && g * kv <= n < (g + 1) * kv
    ensures g == 1 <==> kv <= n < 2 * kv
  {
    if g == 0 {
      assert n < kv;
    } else if g >= 2 {
      assert g * kv >= 2 * kv by { MulMono(2, g, kv); }
    }
  }

  lemma MulMono(a: nat, b: nat, c: nat)
    requires a <= b
    ensures a * c <= b * c
  {
  }

  /** With `q * n <= a < (q + 1) * n`, the product `n * q` is `a` exactly when `n` divides `a`. */
  lemma DivisibleIff(a: nat, n: nat, q: nat)
    requires n > 0 && q * n <= a < (q + 1) * n
    ensures a == n * q <==> a % n == 0
  {
    assert a == n * (a / n) + a % n;
    if a / n < q {
      MulMono(a / n + 1, q, n);
    }
    assert a / n == q;
  }
}
