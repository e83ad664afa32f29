/**
 * The configuration normalisation of
 * easydel/modules/qwen2_vl/qwen2_vl_configuration.py: the vision
 * configuration, the defaulting of the key/value head count, the derived
 * head size, the in-place rewrite of the `rope_scaling` dictionary the
 * caller passed, and the ordered table of partition rules.
 */
module Qwen2VLConfiguration {
  import opened Wrappers

  /** A value of the `rope_scaling` dictionary. */
  datatype RopeValue = Str(s: string) | Num(x: real) | Ints(xs: seq<int>)

  /** The `rope_scaling` dictionary, an object the configuration shares with its caller. */
  class RopeScaling {
    var entries: map<string, RopeValue>

    constructor (entries: map<string, RopeValue>)
      ensures this.entries == entries
    {
      this.entries := entries;
    }
  }

  /**
   * The rewrite of a dictionary with a "type" key: "mrope" becomes
   * "default", and "rope_type" is set to the (rewritten) type. A dictionary
   * without "type" is left as it is.
   */
  function RewriteRope(m: map<string, RopeValue>): (r: map<string, RopeValue>)
    ensures "type" !in m ==> r == m
    ensures "type" in m ==> r.Keys == m.Keys + {"rope_type"}
    ensures "type" in m ==>
      r["type"] == (if m["type"] == Str("mrope") then Str("default") else m["type"]) && r["rope_type"] == r["type"]
    ensures forall k :: k in m && k != "type" && k != "rope_type" ==> k in r && r[k] == m[k]
  {
    if "type" !in m then m
    else
      var t := if m["type"] == Str("mrope") then Str("default") else m["type"];
      m["type" := t]["rope_type" := t]
  }

  /** Rewriting a second time changes nothing: the type is no longer "mrope" and "rope_type" already equals it. */
  lemma RewriteRopeIdempotent(m: map<string, RopeValue>)
    ensures RewriteRope(RewriteRope(m)) == RewriteRope(m)
  {
    if "type" in m {
      var r := RewriteRope(m);
      assert r["type"] != Str("mrope");
      assert r["type" := r["type"]]["rope_type" := r["type"]] == r;
    }
  }

  /** The arguments a `vision_config` dictionary gives; a missing key takes the constructor's default. */
  datatype VisionArgs = VisionArgs(
    depth: Option<nat>, embedDim: Option<nat>, hiddenSize: Option<nat>, hiddenAct: Option<string>,
    mlpRatio: Option<nat>, numHeads: Option<nat>, inChannels: Option<nat>, patchSize: Option<nat>,
    spatialMergeSize: Option<nat>, temporalPatchSize: Option<nat>)

  /** The empty dictionary: every argument at its default. */
  function NoVisionArgs(): VisionArgs
  {
    VisionArgs(None, None, None, None, None, None, None, None, None, None)
  }

  /** `Qwen2VLVisionConfig`: every constructor argument stored as given. */
  class VisionConfig {
    const depth: nat
    const embedDim: nat
    const hiddenSize: nat
    const hiddenAct: string
    const mlpRatio: nat
    const numHeads: nat
    const inChannels: nat
    const patchSize: nat
    const spatialMergeSize: nat
    const temporalPatchSize: nat

    constructor (depth: nat, embedDim: nat, hiddenSize: nat, hiddenAct: string, mlpRatio: nat,
                 numHeads: nat, inChannels: nat, patchSize: nat, spatialMergeSize: nat, temporalPatchSize: nat)
      ensures this.depth == depth && this.embedDim == embedDim && this.hiddenSize == hiddenSize
      ensures this.hiddenAct == hiddenAct && this.mlpRatio == mlpRatio && this.numHeads == numHeads
      ensures this.inChannels == inChannels && this.patchSize == patchSize
      ensures this.spatialMergeSize == spatialMergeSize && this.temporalPatchSize == temporalPatchSize
    {
      this.depth := depth;
      this.embedDim := embedDim;
      this.hiddenSize := hiddenSize;
      this.hiddenAct := hiddenAct;
      this.mlpRatio := mlpRatio;
      this.numHeads := numHeads;
      this.inChannels := inChannels;
      this.patchSize := patchSize;
      this.spatialMergeSize := spatialMergeSize;
      this.temporalPatchSize := temporalPatchSize;
    }

    /** The configuration holds the given arguments and the defaults for the others. */
    ghost predicate Holds(a: VisionArgs)
    {
      depth == a.depth.GetOr(32) && embedDim == a.embedDim.GetOr(1280) &&
      hiddenSize == a.hiddenSize.GetOr(3584) && hiddenAct == a.hiddenAct.GetOr("quick_gelu") &&
      mlpRatio == a.mlpRatio.GetOr(4) && numHeads == a.numHeads.GetOr(16) &&
      inChannels == a.inChannels.GetOr(3) && patchSize == a.patchSize.GetOr(14) &&
      spatialMergeSize == a.spatialMergeSize.GetOr(2) && temporalPatchSize == a.temporalPatchSize.GetOr(2)
    }
  }

  /** `Qwen2VLVisionConfig(**vision_config)`. */
  method BuildVision(a: VisionArgs) returns (v: VisionConfig)
    ensures fresh(v) && v.Holds(a)
  {
    v := new VisionConfig(a.depth.GetOr(32), a.embedDim.GetOr(1280), a.hiddenSize.GetOr(3584),
                          a.hiddenAct.GetOr("quick_gelu"), a.mlpRatio.GetOr(4), a.numHeads.GetOr(16),
                          a.inChannels.GetOr(3), a.patchSize.GetOr(14), a.spatialMergeSize.GetOr(2),
                          a.temporalPatchSize.GetOr(2));
  }

  /** What the `vision_config` argument was: a dictionary, None, or anything else. */
  datatype VisionConfigArg = VisionDict(args: VisionArgs) | VisionNone | VisionOther

  /** The text-model arguments of `Qwen2VLConfig.__init__` that are modelled. */
  datatype TextArgs = TextArgs(
    vocabSize: nat, hiddenSize: nat, intermediateSize: nat, numHiddenLayers: nat,
    numAttentionHeads: nat, numKeyValueHeads: Option<nat>, maxPositionEmbeddings: nat,
    useSlidingWindow: bool, slidingWindow: nat, maxWindowLayers: nat)

  datatype ConfigError = ZeroAttentionHeads   // `hidden_size // num_attention_heads` with no heads

  function Objects(rope: Option<RopeScaling>): set<RopeScaling>
  {
    if rope.Some? then {rope.value} else {}
  }

  class Qwen2VLConfig {
    const vocabSize: nat
    const hiddenSize: nat
    const intermediateSize: nat
    const numHiddenLayers: nat
    const numAttentionHeads: nat
    const numKeyValueHeads: nat
    const maxPositionEmbeddings: nat
    const useSlidingWindow: bool
    const slidingWindow: nat
    const maxWindowLayers: nat
    const headDim: nat
    /** The caller's dictionary itself, not a copy. */
    const ropeScaling: Option<RopeScaling>
    /** None when `vision_config` was neither a dictionary nor None, so the attribute is never assigned. */
    const visionConfig: Option<VisionConfig>

    constructor (a: TextArgs, numKeyValueHeads: nat, headDim: nat,
                 ropeScaling: Option<RopeScaling>, visionConfig: Option<VisionConfig>)
      ensures vocabSize == a.vocabSize && hiddenSize == a.hiddenSize
      ensures intermediateSize == a.intermediateSize && numHiddenLayers == a.numHiddenLayers
      ensures numAttentionHeads == a.numAttentionHeads && maxPositionEmbeddings == a.maxPositionEmbeddings
      ensures useSlidingWindow == a.useSlidingWindow && slidingWindow == a.slidingWindow
      ensures maxWindowLayers == a.maxWindowLayers
      ensures this.numKeyValueHeads == numKeyValueHeads && this.headDim == headDim
      ensures this.ropeScaling == ropeScaling && this.visionConfig == visionConfig
    {
      vocabSize := a.vocabSize;
      hiddenSize := a.hiddenSize;
      intermediateSize := a.intermediateSize;
      numHiddenLayers := a.numHiddenLayers;
      numAttentionHeads := a.numAttentionHeads;
      maxPositionEmbeddings := a.maxPositionEmbeddings;
      useSlidingWindow := a.useSlidingWindow;
      slidingWindow := a.slidingWindow;
      maxWindowLayers := a.maxWindowLayers;
      this.numKeyValueHeads := numKeyValueHeads;
      this.headDim := headDim;
      this.ropeScaling := ropeScaling;
      this.visionConfig := visionConfig;
    }

    /**
     * `Qwen2VLConfig.__init__`, in its order: the vision configuration, the
     * key/value head default, the head size (which fails without heads,
     * before the dictionary is touched), then the rope rewrite done on the
     * caller's dictionary.
     */
    static method Create(a: TextArgs, vision: VisionConfigArg, ropeScaling: Option<RopeScaling>)
      returns (r: Result<Qwen2VLConfig, ConfigError>)
      modifies Objects(ropeScaling)
      ensures r.Err? <==> a.numAttentionHeads == 0
      ensures r.Err? && ropeScaling.Some? ==> ropeScaling.value.entries == old(ropeScaling.value.entries)
      ensures r.Ok? ==> fresh(r.value)
      ensures r.Ok? ==> r.value.numAttentionHeads == a.numAttentionHeads && r.value.hiddenSize == a.hiddenSize
      ensures r.Ok? ==> r.value.vocabSize == a.vocabSize && r.value.intermediateSize == a.intermediateSize
      ensures r.Ok? ==> r.value.numHiddenLayers == a.numHiddenLayers
      ensures r.Ok? ==> r.value.maxPositionEmbeddings == a.maxPositionEmbeddings
      ensures r.Ok? ==> r.value.useSlidingWindow == a.useSlidingWindow && r.value.slidingWindow == a.slidingWindow
      ensures r.Ok? ==> r.value.maxWindowLayers == a.maxWindowLayers
      ensures r.Ok? ==> r.value.numKeyValueHeads == a.numKeyValueHeads.GetOr(a.numAttentionHeads)
      ensures r.Ok? ==>
        r.value.headDim * a.numAttentionHeads <= a.hiddenSize < (r.value.headDim + 1) * a.numAttentionHeads
      ensures r.Ok? ==> r.value.ropeScaling == ropeScaling
      ensures r.Ok? && ropeScaling.Some? ==> ropeScaling.value.entries == RewriteRope(old(ropeScaling.value.entries))
      ensures r.Ok? ==> (r.value.visionConfig.None? <==> vision.VisionOther?)
      ensures r.Ok? && r.value.visionConfig.Some? ==> fresh(r.value.visionConfig.value)
      ensures r.Ok? && vision.VisionDict? ==> r.value.visionConfig.value.Holds(vision.args)
      ensures r.Ok? && vision.VisionNone? ==> r.value.visionConfig.value.Holds(NoVisionArgs())
    {
      var visionConfig: Option<VisionConfig> := None;
      if vision.VisionDict? {
        var v := BuildVision(vision.args);
        visionConfig := Some(v);
      } else if vision.VisionNone? {
        var v := BuildVision(NoVisionArgs());
        visionConfig := Some(v);
      }
      var numKeyValueHeads := a.numKeyValueHeads.GetOr(a.numAttentionHeads);
      if a.numAttentionHeads == 0 {
        return Err(ZeroAttentionHeads);
      }
      var headDim := a.hiddenSize / a.numAttentionHeads;
      var config := new Qwen2VLConfig(a, numKeyValueHeads, headDim, ropeScaling, visionConfig);
      if ropeScaling.Some? && "type" in ropeScaling.value.entries {
        var rope := ropeScaling.value;
        if rope.entries["type"] == Str("mrope") {
          rope.entries := rope.entries["type" := Str("default")];
        }
        rope.entries := rope.entries["rope_type" := rope.entries["type"]];
      }
      return Ok(config);
    }
  }

  /** One mesh axis of a `PartitionSpec` entry: None, one named axis, or a tuple of axes. */
  datatype AxisSpec = Replicated | Axis(name: string) | Axes(names: seq<string>)

  type PartitionSpec = seq<AxisSpec>

  /** `get_partition_rules`: (parameter path pattern, partition spec) pairs, first match wins. */
  function PartitionRules(): (rules: seq<(string, PartitionSpec)>)
    ensures |rules| == 30
    ensures rules[|rules| - 1] == (".*", [Replicated])
    ensures forall i :: 0 <= i < |rules| - 1 ==> rules[i].0 != ".*"
  {
    var fsdpSp := Axes(["fsdp", "sp"]);
    var tp := Axis("tp");
    [ ("embed_tokens/embedding", [tp, fsdpSp]),
      ("layers/.*/self_attn/(q_proj|k_proj|v_proj)/kernel", [fsdpSp, tp]),
      ("layers/.*/self_attn/o_proj/kernel", [tp, fsdpSp]),
      ("layers/.*/self_attn/(q_proj|k_proj|v_proj)/bias", [tp]),
      ("layers/.*/self_attn/o_proj/bias", [Replicated]),
      ("layers/.*/mlp/gate_proj/kernel", [fsdpSp, tp]),
      ("layers/.*/mlp/down_proj/kernel", [tp, fsdpSp]),
      ("layers/.*/mlp/up_proj/kernel", [fsdpSp, tp]),
      ("layers/.*/mlp/(gate_proj|down_proj|up_proj)/bias", [Replicated]),
      ("layers/.*/input_layernorm/kernel", [Replicated]),
      ("layers/.*/post_attention_layernorm/kernel", [Replicated]),
      ("norm/kernel", [Replicated]),
      ("lm_head/kernel", [fsdpSp, tp]),
      ("lm_head/bias", [Replicated]),
      ("patch_embed/proj/kernel", [Replicated, Replicated, Replicated, Replicated, tp]),
      ("patch_embed/proj/bias", [Replicated]),
      ("blocks/.*/attn/qkv/kernel", [fsdpSp, tp]),
      ("blocks/.*/attn/qkv/bias", [tp]),
      ("blocks/.*/attn/proj/kernel", [tp, fsdpSp]),
      ("blocks/.*/attn/proj/bias", [tp]),
      ("blocks/.*/mlp/fc1/kernel", [fsdpSp, tp]),
      ("blocks/.*/mlp/fc1/bias", [tp]),
      ("blocks/.*/mlp/fc2/kernel", [tp, fsdpSp]),
      ("blocks/.*/mlp/fc2/bias", [tp]),
      ("blocks/.*/norm1/(bias|scale)", [Replicated]),
      ("blocks/.*/norm2/(bias|scale)", [Replicated]),
      ("merger/ln_q/(bias|scale)", [Replicated]),
      ("merger/mlp/.*/kernel", [fsdpSp, tp]),
      ("merger/mlp/.*/bias", [tp]),
      (".*", [Replicated]) ]
  }

  /**
   * The first rule whose pattern matches the path, for a pattern matcher
   * given as a function. With a matcher under which ".*" matches every
   * path, every path finds a rule.
   */
  function FirstMatch(rules: seq<(string, PartitionSpec)>, path: string, matches: (string, string) -> bool)
    : (r: Option<nat>)
    ensures r.Some? ==> r.value < |rules| && matches(rules[r.value].0, path)
    ensures r.Some? ==> forall j :: 0 <= j < r.value ==> !matches(rules[j].0, path)
    ensures r.None? ==> forall j :: 0 <= j < |rules| ==> !matches(rules[j].0, path)
  {
    if rules == [] then None
    else if matches(rules[0].0, path) then Some(0)
    else
      var rest := FirstMatch(rules[1..], path, matches);
      if rest.Some? then Some(rest.value + 1) else None
  }

  /** The catch-all entry makes the table total. */
  lemma EveryPathHasARule(path: string, matches: (string, string) -> bool)
    requires matches(".*", path)
    ensures FirstMatch(PartitionRules(), path, matches).Some?
  {
    var rules := PartitionRules();
    assert !FirstMatch(rules, path, matches).None? by {
      assert matches(rules[|rules| - 1].0, path);
    }
  }
}
