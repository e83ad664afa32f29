/**
 * The DBRX mixture-of-experts layer of
 * easydel/modules/dbrx/modelling_dbrx_flax.py: the router (`DbrxRouter`),
 * the dense accumulation over experts (`DbrxExperts`) and the slicing of one
 * expert's rows out of the flat GLU parameters (`DbrxExpertGLU`). Tokens are
 * the flattened (batch, sequence) positions; the gate projection, softmax,
 * p-norm renormalisation and the expert MLP are function parameters.
 */
module DbrxMoe {
  import opened Wrappers
  import opened Tensors

  // ---------------------------------------------------------------- top-k

  /**
   * Index of the largest weight among positions `i ..` that are not in `ex`,
   * the lowest such index on ties; `None` when every position is excluded.
   */
  function Best(w: seq<real>, ex: seq<nat>, i: nat): (r: Option<nat>)
    requires i <= |w|
    ensures r.None? <==> forall m :: i <= m < |w| ==> m in ex
    ensures r.Some? ==> i <= r.value < |w| && r.value !in ex
    ensures r.Some? ==> forall m :: i <= m < |w| && m !in ex ==> w[m] <= w[r.value]
    ensures r.Some? ==> forall m :: i <= m < r.value && m !in ex ==> w[m] < w[r.value]
    decreases |w| - i
  {
    if i == |w| then None
    else
      var rest := Best(w, ex, i + 1);
      if i in ex then rest
      else if rest.None? || w[rest.value] <= w[i] then Some(i)
      else rest
  }

  /** A sequence shorter than `n` misses some index below `n`. */
  lemma {:induction false} Pigeonhole(s: seq<nat>, n: nat)
    requires |s| < n
    ensures exists m :: 0 <= m < n && m !in s
  {
    if n - 1 in s {
      var j :| 0 <= j < |s| && s[j] == n - 1;
      var s' := s[..j] + s[j + 1..];
      Pigeonhole(s', n - 1);
      var m :| 0 <= m < n - 1 && m !in s';
      assert s == s[..j] + [s[j]] + s[j + 1..];
      assert m !in s;
    }
  }

  /**
   * The indices `jax.lax.top_k` selects: `k` times the largest remaining
   * weight, lowest index first among equal weights. Each selected index is
   * the argmax of the weights not selected before it.
   */
  function TopIndices(w: seq<real>, k: nat): (r: seq<nat>)
    requires k <= |w|
    ensures |r| == k
    ensures forall a :: 0 <= a < k ==> r[a] < |w|
    ensures forall a, b :: 0 <= a < b < k ==> r[a] != r[b]
    ensures forall a, m :: 0 <= a < k && 0 <= m < |w| && m !in r[..a] ==> w[m] <= w[r[a]]
    ensures forall a, m :: 0 <= a < k && 0 <= m < r[a] && m !in r[..a] ==> w[m] < w[r[a]]
  {
    if k == 0 then []
    else
      var prev := TopIndices(w, k - 1);
      Pigeonhole(prev, |w|);
      var j := Best(w, prev, 0).value;
      TopIndicesExtend(w, prev, j);
      prev + [j]
  }

  /** Appending the best index outside a top prefix gives a top prefix one longer. */
  lemma TopIndicesExtend(w: seq<real>, prev: seq<nat>, j: nat)
    requires forall a :: 0 <= a < |prev| ==> prev[a] < |w|
    requires forall a, b :: 0 <= a < b < |prev| ==> prev[a] != prev[b]
    requires forall a, m :: 0 <= a < |prev| && 0 <= m < |w| && m !in prev[..a] ==> w[m] <= w[prev[a]]
    requires forall a, m :: 0 <= a < |prev| && 0 <= m < prev[a] && m !in prev[..a] ==> w[m] < w[prev[a]]
    requires j < |w| && j !in prev
    requires forall m :: 0 <= m < |w| && m !in prev ==> w[m] <= w[j]
    requires forall m :: 0 <= m < j && m !in prev ==> w[m] < w[j]
    ensures var r := prev + [j];
      (forall a :: 0 <= a < |r| ==> r[a] < |w|) &&
      (forall a, b :: 0 <= a < b < |r| ==> r[a] != r[b]) &&
      (forall a, m :: 0 <= a < |r| && 0 <= m < |w| && m !in r[..a] ==> w[m] <= w[r[a]]) &&
      (forall a, m :: 0 <= a < |r| && 0 <= m < r[a] && m !in r[..a] ==> w[m] < w[r[a]])
  {
    var r := prev + [j];
    assert r[..|prev|] == prev;
    assert forall a :: 0 <= a < |prev| ==> r[..a] == prev[..a] && r[a] == prev[a];
  }

  datatype TopK = TopK(values: seq<real>, indices: seq<nat>)

  datatype RouterError =
    | TopKTooLarge   // top_k asked for more entries than the last axis holds
    | NoJitterEps    // `jitter` called while moe_jitter_eps is None

  /**
   * `jax.lax.top_k` on one row: `k` distinct in-range indices and their
   * weights; more than the row holds is an error.
   */
  function TopKRow(w: seq<real>, k: nat): (r: Result<TopK, RouterError>)
    ensures r.Err? <==> k > |w|
    ensures r.Err? ==> r.error == TopKTooLarge
    ensures r.Ok? ==> |r.value.values| == k && |r.value.indices| == k
    ensures r.Ok? ==> forall a :: 0 <= a < k ==> r.value.indices[a] < |w| && r.value.values[a] == w[r.value.indices[a]]
    ensures r.Ok? ==> forall a, b :: 0 <= a < b < k ==> r.value.indices[a] != r.value.indices[b]
  {
    if k > |w| then Err(TopKTooLarge)
    else
      var idx := TopIndices(w, k);
      Ok(TopK(seq(k, a requires 0 <= a < k => w[idx[a]]), idx))
  }

  /** Every selected index comes before every later one in weight. */
  lemma TopIndicesDescending(w: seq<real>, k: nat, a: nat, b: nat)
    requires k <= |w| && a < b < k
    ensures w[TopIndices(w, k)[a]] >= w[TopIndices(w, k)[b]]
    ensures w[TopIndices(w, k)[a]] == w[TopIndices(w, k)[b]] ==> TopIndices(w, k)[a] < TopIndices(w, k)[b]
  {
    var r := TopIndices(w, k);
    assert forall c :: 0 <= c < a ==> r[..a][c] == r[c];
    assert r[b] !in r[..a];
  }

  /** Every selected index outweighs every unselected one. */
  lemma TopIndicesDominate(w: seq<real>, k: nat, a: nat, m: nat)
    requires k <= |w| && a < k && m < |w| && m !in TopIndices(w, k)
    ensures w[m] <= w[TopIndices(w, k)[a]]
  {
    var r := TopIndices(w, k);
    assert forall c :: 0 <= c < a ==> r[..a][c] == r[c];
    assert m !in r[..a];
  }

  /**
   * The order top-k promises: weights in non-increasing order, every
   * selected weight at least every unselected one, and equal weights taken
   * lowest index first.
   */
  lemma TopKRowOrder(w: seq<real>, k: nat)
    requires k <= |w|
    ensures forall a, b :: 0 <= a < b < k ==> TopKRow(w, k).value.values[a] >= TopKRow(w, k).value.values[b]
    ensures forall a, m :: 0 <= a < k && 0 <= m < |w| && m !in TopKRow(w, k).value.indices ==>
      w[m] <= TopKRow(w, k).value.values[a]
    ensures forall a, b :: 0 <= a < b < k && TopKRow(w, k).value.values[a] == TopKRow(w, k).value.values[b] ==>
      TopKRow(w, k).value.indices[a] < TopKRow(w, k).value.indices[b]
  {
    var t := TopKRow(w, k).value;
    assert t.indices == TopIndices(w, k);
    forall a, b | 0 <= a < b < k
      ensures t.values[a] >= t.values[b]
      ensures t.values[a] == t.values[b] ==> t.indices[a] < t.indices[b]
    {
      TopIndicesDescending(w, k, a, b);
    }
    forall a, m | 0 <= a < k && 0 <= m < |w| && m !in t.indices
      ensures w[m] <= t.values[a]
    {
      TopIndicesDominate(w, k, a, m);
    }
  }

  // ---------------------------------------------------------------- router

  /** `DbrxRouter.jitter`: a multiplicative factor `low + noise * (high - low)` per entry. */
  function Jitter(x: Vec, eps: Option<real>, noise: Vec): (r: Result<Vec, RouterError>)
    requires |noise| == |x|
    ensures r.Err? <==> eps.None?
    ensures r.Err? ==> r.error == NoJitterEps
    ensures r.Ok? ==> |r.value| == |x|
  {
    if eps.None? then Err(NoJitterEps)
    else
      var low := 1.0 - eps.value;
      var high := 1.0 + eps.value;
      Ok(seq(|x|, i requires 0 <= i < |x| => low + noise[i] * (high - low)))
  }

  /**
   * As written, the draw is standard normal, so nothing bounds `noise`: a
   * negative draw gives a factor below 1 - eps, a draw above 1 one above
   * 1 + eps, and a draw below (eps - 1) / (2 eps) a negative factor, which
   * flips the sign of the router input.
   */
  lemma NormalNoiseLeavesBand(x: Vec, eps: real, noise: Vec, i: nat)
    requires |noise| == |x| && 0 <= i < |x| && eps > 0.0
    ensures noise[i] < 0.0 ==> Jitter(x, Some(eps), noise).value[i] < 1.0 - eps
    ensures noise[i] > 1.0 ==> Jitter(x, Some(eps), noise).value[i] > 1.0 + eps
    ensures noise[i] * (2.0 * eps) < eps - 1.0 ==> Jitter(x, Some(eps), noise).value[i] < 0.0
  {
    var f := Jitter(x, Some(eps), noise).value;
    assert f[i] == (1.0 - eps) + noise[i] * (2.0 * eps);
    if noise[i] < 0.0 {
      assert noise[i] * (2.0 * eps) < 0.0;
    }
    if noise[i] > 1.0 {
      assert noise[i] * (2.0 * eps) > 2.0 * eps;
    }
  }

  /** A draw of -60 with eps = 0.01, well inside a normal sample's reach, turns the factor negative. */
  lemma NormalNoiseFlipsSign()
    ensures Jitter([1.0], Some(0.01), [-60.0]).value[0] < 0.0
  {
    NormalNoiseLeavesBand([1.0], 0.01, [-60.0], 0);
  }

  /** Uniform noise in [0, 1] keeps every factor between 1 - eps and 1 + eps. */
  lemma JitterRange(x: Vec, eps: real, u: Vec)
    requires |u| == |x|
    requires forall i :: 0 <= i < |u| ==> 0.0 <= u[i] <= 1.0
    ensures eps >= 0.0 ==> forall i :: 0 <= i < |x| ==> 1.0 - eps <= Jitter(x, Some(eps), u).value[i] <= 1.0 + eps
    ensures eps < 0.0 ==> forall i :: 0 <= i < |x| ==> 1.0 + eps <= Jitter(x, Some(eps), u).value[i] <= 1.0 - eps
  {
    var f := Jitter(x, Some(eps), u).value;
    forall i | 0 <= i < |x|
      ensures eps >= 0.0 ==> 1.0 - eps <= f[i] <= 1.0 + eps
      ensures eps < 0.0 ==> 1.0 + eps <= f[i] <= 1.0 - eps
    {
      assert f[i] == (1.0 - eps) + u[i] * (2.0 * eps);
      if eps >= 0.0 {
        assert u[i] * (2.0 * eps) <= 2.0 * eps;
      } else {
        assert u[i] * (2.0 * eps) >= 2.0 * eps;
      }
    }
  }

  /**
   * The jitter as multiplicative jitter over [1 - eps, 1 + eps] is meant,
   * with `noise` a uniform draw from [0, 1]: the factors are those of
   * `Jitter` and stay in the band, reaching both ends.
   */
  function UniformJitter(x: Vec, eps: real, u: Vec): (r: Vec)
    requires |u| == |x|
    requires forall i :: 0 <= i < |u| ==> 0.0 <= u[i] <= 1.0
    ensures |r| == |x|
    ensures Jitter(x, Some(eps), u) == Ok(r)
    ensures eps >= 0.0 ==> forall i :: 0 <= i < |x| ==> 1.0 - eps <= r[i] <= 1.0 + eps
    ensures forall i :: 0 <= i < |x| && u[i] == 0.0 ==> r[i] == 1.0 - eps
    ensures forall i :: 0 <= i < |x| && u[i] == 1.0 ==> r[i] == 1.0 + eps
  {
    JitterRange(x, eps, u);
    Jitter(x, Some(eps), u).value
  }

  /**
   * The first step of `DbrxRouter.__call__`: jitter only when not
   * deterministic and eps is set. The guard means the jitter error is never
   * raised here, and a deterministic call leaves the input unchanged. With
   * uniform noise the factors are those of `UniformJitter`.
   */
  function RouterInput(x: Vec, deterministic: bool, eps: Option<real>, noise: Vec): (r: Vec)
    requires |noise| == |x|
    ensures |r| == |x|
    ensures deterministic || eps.None? ==> r == x
    ensures !deterministic && eps.Some? ==>
      Jitter(x, eps, noise).Ok? && forall i :: 0 <= i < |x| ==> r[i] == x[i] * Jitter(x, eps, noise).value[i]
    ensures !deterministic && eps.Some? && (forall i :: 0 <= i < |noise| ==> 0.0 <= noise[i] <= 1.0) ==>
      forall i :: 0 <= i < |x| ==> r[i] == x[i] * UniformJitter(x, eps.value, noise)[i]
  {
    if !deterministic && eps.Some? then
      var f := Jitter(x, eps, noise).value;
      seq(|x|, i requires 0 <= i < |x| => x[i] * f[i])
    else x
  }

  datatype RouterConfig = RouterConfig(
    numExperts: nat,
    topK: nat,
    jitterEps: Option<real>,
    normalizeExpertWeights: Option<real>,
    uniformExpertAssignment: bool)

  /** Python truthiness of `moe_normalize_expert_weights`: set and non-zero. */
  predicate Normalizes(cfg: RouterConfig)
  {
    cfg.normalizeExpertWeights.Some? && cfg.normalizeExpertWeights.value != 0.0
  }

  /** `arange(n) % num_experts`. */
  function ArangeMod(n: nat, numExperts: nat): (s: seq<nat>)
    requires numExperts > 0 || n == 0
    ensures |s| == n && forall i :: 0 <= i < n ==> s[i] == i % numExperts && s[i] < numExperts
  {
    seq(n, i requires 0 <= i < n => i % numExperts)
  }

  /**
   * The uniform expert assignment: the flat count modulo the expert count,
   * reshaped to the (count, k) shape of the top-k experts.
   */
  function UniformAssignment(count: nat, k: nat, numExperts: nat): (r: seq<seq<nat>>)
    requires numExperts > 0 || k == 0
    ensures |r| == count && Uniform(r, k)
    ensures numExperts > 0 || count * k == 0
    ensures Flatten(r) == ArangeMod(count * k, numExperts)
  {
    Reshape(ArangeMod(count * k, numExperts), count, k).value
  }

  /** The router's output: the full expert weights and, per token, the chosen weights and experts. */
  datatype Routing = Routing(weights: seq<Vec>, topWeights: seq<Vec>, topExperts: seq<seq<nat>>)

  /** The top-k of every token's weights; `k` is at most the row length. */
  function TopRows(weights: seq<Vec>, k: nat): (r: seq<TopK>)
    requires forall t :: 0 <= t < |weights| ==> k <= |weights[t]|
    ensures |r| == |weights| && forall t :: 0 <= t < |weights| ==> r[t] == TopKRow(weights[t], k).value
  {
    seq(|weights|, t requires 0 <= t < |weights| => TopKRow(weights[t], k).value)
  }

  /**
   * The selection half of `DbrxRouter.__call__` on the softmaxed weights of
   * every token: top-k per token, the p-norm renormalisation of the chosen
   * weights when `moe_normalize_expert_weights` is truthy, and with uniform
   * assignment the experts replaced by the flat count modulo the expert
   * count, while the weights stay those of the top-k selection.
   */
  function Select(cfg: RouterConfig, weights: seq<Vec>, normalise: Sublayer): (r: Routing)
    requires cfg.topK <= cfg.numExperts
    requires forall t :: 0 <= t < |weights| ==> |weights[t]| == cfg.numExperts
    ensures r.weights == weights && |r.topWeights| == |weights| && |r.topExperts| == |weights|
    ensures var tops := TopRows(weights, cfg.topK);
      forall t :: 0 <= t < |weights| ==>
        r.topWeights[t] == (if Normalizes(cfg) then normalise(tops[t].values) else tops[t].values)
    ensures !cfg.uniformExpertAssignment ==> var tops := TopRows(weights, cfg.topK);
      forall t :: 0 <= t < |weights| ==> r.topExperts[t] == tops[t].indices
    ensures cfg.uniformExpertAssignment ==>
      r.topExperts == UniformAssignment(|weights|, cfg.topK, cfg.numExperts)
    ensures forall t, j :: 0 <= t < |weights| && 0 <= j < |r.topExperts[t]| ==>
      r.topExperts[t][j] < cfg.numExperts
  {
    var tops := TopRows(weights, cfg.topK);
    var topWeights := seq(|weights|, t requires 0 <= t < |weights| =>
      if Normalizes(cfg) then normalise(tops[t].values) else tops[t].values);
    if cfg.uniformExpertAssignment then
      var u := UniformAssignment(|weights|, cfg.topK, cfg.numExperts);
      UniformAssignmentInRange(u, |weights|, cfg.topK, cfg.numExperts);
      Routing(weights, topWeights, u)
    else
      TopRowsInRange(weights, cfg.topK, cfg.numExperts);
      Routing(weights, topWeights, seq(|weights|, t requires 0 <= t < |weights| => tops[t].indices))
  }

  /**
   * `DbrxRouter.__call__` over tokens `x`. `gate` is the projection followed
   * by the softmax, `normalise` the p-norm renormalisation, `noise` the
   * normal draw the jitter uses. The router fails when top-k asks for more
   * experts than there are; otherwise it selects on the gate output of the
   * (possibly jittered) tokens.
   */
  function Route(cfg: RouterConfig, x: seq<Vec>, deterministic: bool, noise: seq<Vec>,
                 gate: Vec -> Vec, normalise: Sublayer): (r: Result<Routing, RouterError>)
    requires |noise| == |x| && forall t :: 0 <= t < |x| ==> |noise[t]| == |x[t]|
    requires forall v :: |gate(v)| == cfg.numExperts
    ensures r.Err? <==> cfg.topK > cfg.numExperts
    ensures r.Err? ==> r.error == TopKTooLarge
    ensures r.Ok? ==> r.value == Select(cfg, GateRows(cfg, x, deterministic, noise, gate), normalise)
  {
    if cfg.topK > cfg.numExperts then Err(TopKTooLarge)
    else Ok(Select(cfg, GateRows(cfg, x, deterministic, noise, gate), normalise))
  }

  /** The gate output of every token, taken after the jitter when it applies. */
  function GateRows(cfg: RouterConfig, x: seq<Vec>, deterministic: bool, noise: seq<Vec>,
                    gate: Vec -> Vec): (w: seq<Vec>)
    requires |noise| == |x| && forall t :: 0 <= t < |x| ==> |noise[t]| == |x[t]|
    requires forall v :: |gate(v)| == cfg.numExperts
    ensures |w| == |x|
    ensures forall t :: 0 <= t < |x| ==>
      w[t] == gate(RouterInput(x[t], deterministic, cfg.jitterEps, noise[t])) && |w[t]| == cfg.numExperts
  {
    seq(|x|, t requires 0 <= t < |x| => gate(RouterInput(x[t], deterministic, cfg.jitterEps, noise[t])))
  }

  /** The experts top-k selects from rows of `n` weights are below `n`. */
  lemma TopRowsInRange(weights: seq<Vec>, k: nat, n: nat)
    requires forall t :: 0 <= t < |weights| ==> |weights[t]| == n
    requires k <= n
    ensures forall t, j :: 0 <= t < |weights| && 0 <= j < |TopRows(weights, k)[t].indices| ==>
      TopRows(weights, k)[t].indices[j] < n
  {
  }

  /** Every token gets exactly top-k weights and top-k experts. */
  lemma SelectShapes(cfg: RouterConfig, weights: seq<Vec>, normalise: Sublayer)
    requires cfg.topK <= cfg.numExperts
    requires forall t :: 0 <= t < |weights| ==> |weights[t]| == cfg.numExperts
    ensures var r := Select(cfg, weights, normalise);
      forall t :: 0 <= t < |weights| ==> |r.topWeights[t]| == cfg.topK && |r.topExperts[t]| == cfg.topK
  {
    var r := Select(cfg, weights, normalise);
    forall t | 0 <= t < |weights|
      ensures |r.topWeights[t]| == cfg.topK && |r.topExperts[t]| == cfg.topK
    {
      var top := TopRows(weights, cfg.topK)[t];
      assert |top.values| == cfg.topK;
      if cfg.uniformExpertAssignment {
        assert Uniform(UniformAssignment(|weights|, cfg.topK, cfg.numExperts), cfg.topK);
      }
    }
  }

  /** Every uniformly assigned expert is a valid expert index. */
  lemma UniformAssignmentInRange(r: seq<seq<nat>>, count: nat, k: nat, numExperts: nat)
    requires numExperts > 0 || k == 0
    requires r == UniformAssignment(count, k, numExperts)
    ensures forall t, j :: 0 <= t < |r| && 0 <= j < |r[t]| ==> r[t][j] < numExperts
  {
    forall t, j | 0 <= t < |r| && 0 <= j < |r[t]|
      ensures r[t][j] < numExperts
    {
      FlattenContains(r, t, j);
    }
  }

  /**
   * With uniform assignment, flat entry `i` of the experts (row-major over
   * tokens, then top-k slots) is `i mod num_experts`, whatever the weights.
   */
  lemma UniformAssignmentFlat(count: nat, k: nat, numExperts: nat, i: nat)
    requires numExperts > 0 || k == 0
    requires i < count * k
    ensures numExperts > 0 && Flatten(UniformAssignment(count, k, numExperts))[i] == i % numExperts
  {
  }

  /** Deterministic routing reads the tokens unchanged, so the noise does not matter. */
  lemma RouteDeterministic(cfg: RouterConfig, x: seq<Vec>, noise: seq<Vec>, noise': seq<Vec>,
                           gate: Vec -> Vec, normalise: Sublayer)
    requires |noise| == |x| && forall t :: 0 <= t < |x| ==> |noise[t]| == |x[t]|
    requires |noise'| == |x| && forall t :: 0 <= t < |x| ==> |noise'[t]| == |x[t]|
    requires forall v :: |gate(v)| == cfg.numExperts
    ensures GateRows(cfg, x, true, noise, gate) == seq(|x|, t requires 0 <= t < |x| => gate(x[t]))
    ensures Route(cfg, x, true, noise, gate, normalise) == Route(cfg, x, true, noise', gate, normalise)
  {
    assert GateRows(cfg, x, true, noise, gate) == GateRows(cfg, x, true, noise', gate);
  }

  // ---------------------------------------------------------------- experts

  /** `sum(multiply(e == top_experts, top_weights))`: the total weight a token gives expert `e`. */
  function Coef(w: seq<real>, ex: seq<nat>, e: nat): real
    requires |w| == |ex|
  {
    if w == [] then 0.0 else (if ex[0] == e then w[0] else 0.0) + Coef(w[1..], ex[1..], e)
  }

  /** An expert that was not selected gets coefficient zero. */
  lemma {:induction false} CoefUnselected(w: seq<real>, ex: seq<nat>, e: nat)
    requires |w| == |ex| && e !in ex
    ensures Coef(w, ex, e) == 0.0
  {
    if w != [] {
      CoefUnselected(w[1..], ex[1..], e);
    }
  }

  /** The dense accumulation over experts `0 .. n - 1` for one token. */
  function Dense(w: seq<real>, ex: seq<nat>, outs: seq<Vec>, d: nat, n: nat): (r: Vec)
    requires |w| == |ex| && n <= |outs|
    requires forall e :: 0 <= e < |outs| ==> |outs[e]| == d
    ensures |r| == d
  {
    if n == 0 then Zeros(d)
    else Add(Dense(w, ex, outs, d, n - 1), Scale(Coef(w, ex, n - 1), outs[n - 1]))
  }

  /** The sparse reference: the selected experts' outputs weighted by their top weights. */
  function Sparse(w: seq<real>, ex: seq<nat>, outs: seq<Vec>, d: nat): (r: Vec)
    requires |w| == |ex|
    requires forall e :: 0 <= e < |outs| ==> |outs[e]| == d
    ensures |r| == d
  {
    if w == [] then Zeros(d)
    else Add(if ex[0] < |outs| then Scale(w[0], outs[ex[0]]) else Zeros(d), Sparse(w[1..], ex[1..], outs, d))
  }

  /** The column of entry `i` of every expert's output. */
  function Column(outs: seq<Vec>, d: nat, i: nat): (c: seq<real>)
    requires forall e :: 0 <= e < |outs| ==> |outs[e]| == d
    requires i < d
    ensures |c| == |outs| && forall e :: 0 <= e < |outs| ==> c[e] == outs[e][i]
  {
    seq(|outs|, e requires 0 <= e < |outs| => outs[e][i])
  }

  function DenseScalar(w: seq<real>, ex: seq<nat>, o: seq<real>, n: nat): real
    requires |w| == |ex| && n <= |o|
  {
    if n == 0 then 0.0 else DenseScalar(w, ex, o, n - 1) + Coef(w, ex, n - 1) * o[n - 1]
  }

  function SparseScalar(w: seq<real>, ex: seq<nat>, o: seq<real>, n: nat): real
    requires |w| == |ex| && n <= |o|
  {
    if w == [] then 0.0
    else (if ex[0] < n then w[0] * o[ex[0]] else 0.0) + SparseScalar(w[1..], ex[1..], o, n)
  }

  /** Admitting expert `n` adds its coefficient times its output to the sparse sum. */
  lemma {:induction false} SparseScalarStep(w: seq<real>, ex: seq<nat>, o: seq<real>, n: nat)
    requires |w| == |ex| && n < |o|
    ensures SparseScalar(w, ex, o, n + 1) == SparseScalar(w, ex, o, n) + Coef(w, ex, n) * o[n]
  {
    if w != [] {
      SparseScalarStep(w[1..], ex[1..], o, n);
      var head := if ex[0] == n then w[0] else 0.0;
      assert (head + Coef(w[1..], ex[1..], n)) * o[n] == head * o[n] + Coef(w[1..], ex[1..], n) * o[n];
      assert Coef(w, ex, n) == head + Coef(w[1..], ex[1..], n);
      var h1 := if ex[0] < n + 1 then w[0] * o[ex[0]] else 0.0;
      var h0 := if ex[0] < n then w[0] * o[ex[0]] else 0.0;
      assert h1 == h0 + head * o[n];
    }
  }

  /** Exchanging the two sums: the dense loop equals the sparse sum over selected experts. */
  lemma {:induction false} DenseScalarIsSparse(w: seq<real>, ex: seq<nat>, o: seq<real>, n: nat)
    requires |w| == |ex| && n <= |o|
    ensures DenseScalar(w, ex, o, n) == SparseScalar(w, ex, o, n)
  {
    if n == 0 {
      SparseScalarNone(w, ex, o);
    } else {
      DenseScalarIsSparse(w, ex, o, n - 1);
      SparseScalarStep(w, ex, o, n - 1);
      assert DenseScalar(w, ex, o, n) == DenseScalar(w, ex, o, n - 1) + Coef(w, ex, n - 1) * o[n - 1];
    }
  }

  lemma {:induction false} SparseScalarNone(w: seq<real>, ex: seq<nat>, o: seq<real>)
    requires |w| == |ex|
    ensures SparseScalar(w, ex, o, 0) == 0.0
  {
    if w != [] {
      SparseScalarNone(w[1..], ex[1..], o);
    }
  }

  lemma {:induction false} DenseAt(w: seq<real>, ex: seq<nat>, outs: seq<Vec>, d: nat, n: nat, i: nat)
    requires |w| == |ex| && n <= |outs|
    requires forall e :: 0 <= e < |outs| ==> |outs[e]| == d
    requires i < d
    ensures Dense(w, ex, outs, d, n)[i] == DenseScalar(w, ex, Column(outs, d, i), n)
  {
    if n > 0 {
      DenseAt(w, ex, outs, d, n - 1, i);
    }
  }

  lemma SparseUnfoldAt(w: seq<real>, ex: seq<nat>, outs: seq<Vec>, d: nat, i: nat)
    requires |w| == |ex| && |w| > 0
    requires forall e :: 0 <= e < |outs| ==> |outs[e]| == d
    requires i < d
    ensures Sparse(w, ex, outs, d)[i] ==
      (if ex[0] < |outs| then w[0] * outs[ex[0]][i] else 0.0) + Sparse(w[1..], ex[1..], outs, d)[i]
  {
    var head := if ex[0] < |outs| then Scale(w[0], outs[ex[0]]) else Zeros(d);
    assert Sparse(w, ex, outs, d) == Add(head, Sparse(w[1..], ex[1..], outs, d));
  }

  lemma SparseScalarUnfold(w: seq<real>, ex: seq<nat>, o: seq<real>, n: nat)
    requires |w| == |ex| && |w| > 0 && n <= |o|
    ensures SparseScalar(w, ex, o, n) == (if ex[0] < n then w[0] * o[ex[0]] else 0.0) + SparseScalar(w[1..], ex[1..], o, n)
  {
  }

  lemma {:induction false} SparseAt(w: seq<real>, ex: seq<nat>, outs: seq<Vec>, d: nat, i: nat)
    requires |w| == |ex|
    requires forall e :: 0 <= e < |outs| ==> |outs[e]| == d
    requires i < d
    ensures Sparse(w, ex, outs, d)[i] == SparseScalar(w, ex, Column(outs, d, i), |outs|)
  {
    if w != [] {
      var c := Column(outs, d, i);
      var headVec := if ex[0] < |outs| then w[0] * outs[ex[0]][i] else 0.0;
      var headScalar := if ex[0] < |outs| then w[0] * c[ex[0]] else 0.0;
      assert headVec == headScalar by {
        if ex[0] < |outs| {
          assert c[ex[0]] == outs[ex[0]][i];
        }
      }
      SparseAt(w[1..], ex[1..], outs, d, i);
      SparseUnfoldAt(w, ex, outs, d, i);
      SparseScalarUnfold(w, ex, c, |outs|);
    }
  }

  /** For one token: the dense accumulation over all experts is the sparse sum. */
  lemma DenseIsSparse(w: seq<real>, ex: seq<nat>, outs: seq<Vec>, d: nat)
    requires |w| == |ex|
    requires forall e :: 0 <= e < |outs| ==> |outs[e]| == d
    ensures Dense(w, ex, outs, d, |outs|) == Sparse(w, ex, outs, d)
  {
    forall i | 0 <= i < d
      ensures Dense(w, ex, outs, d, |outs|)[i] == Sparse(w, ex, outs, d)[i]
    {
      DenseAt(w, ex, outs, d, |outs|, i);
      SparseAt(w, ex, outs, d, i);
      DenseScalarIsSparse(w, ex, Column(outs, d, i), |outs|);
    }
  }

  /** The outputs of experts `0 .. numExperts - 1` for token `t`. */
  function TokenOutputs(expertOut: nat -> seq<Vec>, numExperts: nat, t: nat): (r: seq<Vec>)
    requires forall e :: 0 <= e < numExperts ==> t < |expertOut(e)|
    ensures |r| == numExperts && forall e :: 0 <= e < numExperts ==> r[e] == expertOut(e)[t]
  {
    seq(numExperts, e requires 0 <= e < numExperts => expertOut(e)[t])
  }

  /**
   * `DbrxExperts.__call__`: start from zeros shaped like `x` and, for every
   * expert in turn, add the expert's output scaled by each token's total
   * weight for it. `expertOut(e)` is the expert MLP applied to `x`. The
   * result is, per token, the sparse sum over the experts it selected.
   */
  method Experts(x: seq<Vec>, topWeights: seq<Vec>, topExperts: seq<seq<nat>>,
                 numExperts: nat, expertOut: nat -> seq<Vec>) returns (final: seq<Vec>)
    requires ExpertShapes(x, topWeights, topExperts, numExperts, expertOut)
    ensures |final| == |x|
    ensures forall t :: 0 <= t < |x| ==>
      final[t] == Sparse(topWeights[t], topExperts[t], TokenOutputs(expertOut, numExperts, t), |x[t]|)
  {
    final := seq(|x|, t requires 0 <= t < |x| => Zeros(|x[t]|));
    var index := 0;
    while index < numExperts
      invariant 0 <= index <= numExperts
      invariant final == DenseAll(x, topWeights, topExperts, numExperts, expertOut, index)
    {
      var out := expertOut(index);
      DenseAllStep(x, topWeights, topExperts, numExperts, expertOut, index);
      final := seq(|x|, t requires 0 <= t < |x| =>
        Add(final[t], Scale(Coef(topWeights[t], topExperts[t], index), out[t])));
      index := index + 1;
    }
    DenseAllIsSparse(x, topWeights, topExperts, numExperts, expertOut);
  }

  /** The shapes `DbrxExperts.__call__` works with: one row of selections per token, expert outputs shaped like `x`. */
  ghost predicate ExpertShapes(x: seq<Vec>, topWeights: seq<Vec>, topExperts: seq<seq<nat>>,
                               numExperts: nat, expertOut: nat -> seq<Vec>)
  {
    |topWeights| == |x| && |topExperts| == |x| &&
    (forall t :: 0 <= t < |x| ==> |topWeights[t]| == |topExperts[t]|) &&
    (forall e :: 0 <= e < numExperts ==> |expertOut(e)| == |x|) &&
    (forall e, t :: 0 <= e < numExperts && 0 <= t < |x| ==> |expertOut(e)[t]| == |x[t]|)
  }

  /** Every token's dense accumulation over the first `n` experts. */
  ghost function DenseAll(x: seq<Vec>, topWeights: seq<Vec>, topExperts: seq<seq<nat>>,
                          numExperts: nat, expertOut: nat -> seq<Vec>, n: nat): (r: seq<Vec>)
    requires ExpertShapes(x, topWeights, topExperts, numExperts, expertOut) && n <= numExperts
    ensures |r| == |x| && forall t :: 0 <= t < |x| ==> |r[t]| == |x[t]|
  {
    seq(|x|, t requires 0 <= t < |x| =>
      Dense(topWeights[t], topExperts[t], TokenOutputs(expertOut, numExperts, t), |x[t]|, n))
  }

  /** One pass of the loop adds expert `n` to every token's accumulation. */
  lemma DenseAllStep(x: seq<Vec>, topWeights: seq<Vec>, topExperts: seq<seq<nat>>,
                     numExperts: nat, expertOut: nat -> seq<Vec>, n: nat)
    requires ExpertShapes(x, topWeights, topExperts, numExperts, expertOut) && n < numExperts
    ensures var d := DenseAll(x, topWeights, topExperts, numExperts, expertOut, n);
      DenseAll(x, topWeights, topExperts, numExperts, expertOut, n + 1) ==
        seq(|x|, t requires 0 <= t < |x| =>
          Add(d[t], Scale(Coef(topWeights[t], topExperts[t], n), expertOut(n)[t])))
  {
    var d := DenseAll(x, topWeights, topExperts, numExperts, expertOut, n);
    forall t | 0 <= t < |x|
      ensures DenseAll(x, topWeights, topExperts, numExperts, expertOut, n + 1)[t] ==
        Add(d[t], Scale(Coef(topWeights[t], topExperts[t], n), expertOut(n)[t]))
    {
      assert TokenOutputs(expertOut, numExperts, t)[n] == expertOut(n)[t];
    }
  }

  lemma DenseAllIsSparse(x: seq<Vec>, topWeights: seq<Vec>, topExperts: seq<seq<nat>>,
                         numExperts: nat, expertOut: nat -> seq<Vec>)
    requires ExpertShapes(x, topWeights, topExperts, numExperts, expertOut)
    ensures var d := DenseAll(x, topWeights, topExperts, numExperts, expertOut, numExperts);
      forall t :: 0 <= t < |x| ==>
        d[t] == Sparse(topWeights[t], topExperts[t], TokenOutputs(expertOut, numExperts, t), |x[t]|)
  {
    forall t | 0 <= t < |x|
      ensures DenseAll(x, topWeights, topExperts, numExperts, expertOut, numExperts)[t] ==
        Sparse(topWeights[t], topExperts[t], TokenOutputs(expertOut, numExperts, t), |x[t]|)
    {
      DenseIsSparse(topWeights[t], topExperts[t], TokenOutputs(expertOut, numExperts, t), |x[t]|);
    }
  }

  /**
   * `DbrxFFN.__call__`: the router, called without the `deterministic`
   * argument and so never jittered, followed by the experts. `mlp(x, e)` is
   * expert e's GLU on all tokens. The result is the combined output and the
   * router's full weights, which are the softmaxed gate of each token.
   */
  method Ffn(cfg: RouterConfig, x: seq<Vec>, gate: Vec -> Vec, normalise: Sublayer,
             mlp: (seq<Vec>, nat) -> seq<Vec>) returns (r: Result<FfnOutput, RouterError>)
    requires forall v :: |gate(v)| == cfg.numExperts
    requires forall e :: 0 <= e < cfg.numExperts ==> |mlp(x, e)| == |x|
    requires forall e, t :: 0 <= e < cfg.numExperts && 0 <= t < |x| ==> |mlp(x, e)[t]| == |x[t]|
    ensures r.Err? <==> cfg.topK > cfg.numExperts
    ensures r.Ok? ==> |r.value.hidden| == |x| && |r.value.routerWeights| == |x|
    ensures r.Ok? ==> forall t :: 0 <= t < |x| ==>
      r.value.routerWeights[t] == gate(x[t]) && |r.value.routerWeights[t]| == cfg.numExperts
    ensures r.Ok? ==>
      cfg.topK <= cfg.numExperts && Combines(cfg, x, r.value.routerWeights, normalise, mlp, r.value.hidden)
  {
    var route := Route(cfg, x, true, x, gate, normalise);
    if route.Err? {
      return Err(route.error);
    }
    RouteDeterministic(cfg, x, x, x, gate, normalise);
    var sel := route.value;
    var expertOut := OnAllTokens(mlp, x);
    SelectShapes(cfg, sel.weights, normalise);
    assert ExpertShapes(x, sel.topWeights, sel.topExperts, cfg.numExperts, expertOut);
    var out := Experts(x, sel.topWeights, sel.topExperts, cfg.numExperts, expertOut);
    return Ok(FfnOutput(out, sel.weights));
  }

  /**
   * The output of the experts for router weights `weights`: per token, the
   * sparse sum of the outputs of the experts `Select` picks for it, scaled by
   * their selected weights.
   */
  ghost predicate Combines(cfg: RouterConfig, x: seq<Vec>, weights: seq<Vec>, normalise: Sublayer,
                           mlp: (seq<Vec>, nat) -> seq<Vec>, hidden: seq<Vec>)
    requires cfg.topK <= cfg.numExperts
    requires |weights| == |x| && forall t :: 0 <= t < |x| ==> |weights[t]| == cfg.numExperts
    requires forall e :: 0 <= e < cfg.numExperts ==> |mlp(x, e)| == |x|
    requires forall e, t :: 0 <= e < cfg.numExperts && 0 <= t < |x| ==> |mlp(x, e)[t]| == |x[t]|
  {
    SelectShapes(cfg, weights, normalise);
    var sel := Select(cfg, weights, normalise);
    var expertOut := OnAllTokens(mlp, x);
    |hidden| == |x| &&
    forall t :: 0 <= t < |x| ==>
      hidden[t] == Sparse(sel.topWeights[t], sel.topExperts[t], TokenOutputs(expertOut, cfg.numExperts, t), |x[t]|)
  }

  /** What `DbrxFFN.__call__` returns: the combined output and the router's weights. */
  datatype FfnOutput = FfnOutput(hidden: seq<Vec>, routerWeights: seq<Vec>)

  /** Each expert's GLU applied to all tokens. */
  function OnAllTokens(mlp: (seq<Vec>, nat) -> seq<Vec>, x: seq<Vec>): nat -> seq<Vec>
  {
    (e: nat) => mlp(x, e)
  }

  // ---------------------------------------------------------------- expert GLU slices

  /**
   * `w.reshape(num_experts, ffn_hidden_size, d_model)[e]`: the rows of expert
   * `e` in a flat (num_experts * ffn_hidden_size, d_model) parameter.
   */
  function ExpertRows(w: seq<Vec>, numExperts: nat, ffnHidden: nat, e: nat): (r: seq<Vec>)
    requires |w| == ffnHidden * numExperts && e < numExperts
    ensures |r| == ffnHidden
    ensures forall j :: 0 <= j < ffnHidden ==> e * ffnHidden + j < |w| && r[j] == w[e * ffnHidden + j]
  {
    Chunks(w, ffnHidden, numExperts)[e]
  }

  /** The experts' slices, in expert order, tile the whole parameter. */
  lemma ExpertRowsTile(w: seq<Vec>, numExperts: nat, ffnHidden: nat)
    requires |w| == ffnHidden * numExperts
    ensures Flatten(seq(numExperts, e requires 0 <= e < numExperts => ExpertRows(w, numExperts, ffnHidden, e))) == w
  {
    FlattenChunks(w, ffnHidden, numExperts);
    assert seq(numExperts, e requires 0 <= e < numExperts => ExpertRows(w, numExperts, ffnHidden, e))
        == Chunks(w, ffnHidden, numExperts);
  }
}
