/** From a model file's manifest to a checked description of a dense model: what
    the metadata says, and which tensor plays which part. */
module ModelDescriptor {
  import opened Prelude
  import opened Operators

  datatype MetaValue =
    | MU32(n: u32)
    | MU64(wide: u64)
    | MF32(x: Float)
    | MString(s: string)
    | MArray(length: nat)
    | MOther

  datatype Manifest = Manifest(metadata: map<string, MetaValue>, tensors: seq<Tensor>, fileBytes: u64)

  datatype Code =
    | UnsupportedArchitecture | MissingMetadata | InvalidMetadataType | InvalidDimension | InvalidMetadata
    | UnsupportedExecutionRequirement | InvalidGqa | InvalidHeadDimension | UnsupportedValueDimension | InvalidRope
    | MissingTensor | InvalidTensorShape | VocabularyMismatch | UnsupportedNormPrecision
    | UnsupportedOperatorQuantization | Overflow | UnsupportedPositionSemantics | UnsupportedAttentionSemantics
    | UnplannedTensor | UnsupportedTensorSemantics

  datatype Architecture = Llama | Qwen3

  /** The first tensor of that name. */
  function Lookup(tensors: seq<Tensor>, name: string): Option<Tensor> {
    if tensors == [] then None
    else if tensors[0].name == name then Some(tensors[0])
    else Lookup(tensors[1..], name)
  }

  predicate EndsWith(s: string, suffix: string) {
    |suffix| <= |s| && s[|s| - |suffix|..] == suffix
  }

  // The metadata.

  function Integer(m: Manifest, key: string): Result<u64, Code> {
    if key !in m.metadata then Err(MissingMetadata)
    else match m.metadata[key]
      case MU32(n) => Ok(n)
      case MU64(n) => Ok(n)
      case _ => Err(InvalidMetadataType)
  }

  function Required(m: Manifest, key: string): (r: Result<u64, Code>)
    ensures r.Ok? ==> r.value > 0
  {
    var x :- Integer(m, key);
    if x == 0 then Err(InvalidDimension) else Ok(x)
  }

  function RequiredFloat(m: Manifest, key: string): (r: Result<Float, Code>)
    ensures r.Ok? ==> Positive(r.value)
  {
    if key !in m.metadata then Err(MissingMetadata)
    else match m.metadata[key]
      case MF32(x) => if Positive(x) then Ok(x) else Err(InvalidMetadata)
      case _ => Err(InvalidMetadata)
  }

  function ArchitectureOf(m: Manifest): Result<Architecture, Code> {
    if "general.architecture" !in m.metadata then Err(MissingMetadata)
    else match m.metadata["general.architecture"]
      case MString(s) => if s == "llama" then Ok(Llama) else if s == "qwen3" then Ok(Qwen3) else Err(UnsupportedArchitecture)
      case _ => Err(MissingMetadata)
  }

  function Prefix(a: Architecture): string {
    match a case Llama => "llama." case Qwen3 => "qwen3."
  }

  /** Metadata of executors this one is not. */
  predicate OtherExecutor(key: string, value: MetaValue) {
    && (EndsWith(key, ".expert_count") || EndsWith(key, ".expert_used_count") || Contains(key, ".ssm.")
        || Contains(key, ".recurrent.") || Contains(key, "lora_rank") || EndsWith(key, ".attention.sliding_window"))
    && value != MU32(0) && value != MU64(0)
  }

  predicate ScaledPositions(key: string, value: MetaValue) {
    Contains(key, ".rope.scaling.") && value != MString("none")
  }

  predicate TransformedScores(key: string, value: MetaValue) {
    (Contains(key, "softcapping") || EndsWith(key, ".attention.scale")) && value != MF32(Finite(0.0))
  }

  /** The dimensions of the model, all positive. */
  datatype Geometry = Geometry(
    architecture: Architecture, context: u64, hidden: u64, heads: u64, kvHeads: u64, headDim: u64, ffn: u64,
    layers: u64, rmsEpsilon: Float, ropeBase: Float, ropeDimensions: u64)

  /** What the metadata checks promise of the dimensions. */
  predicate Sound(g: Geometry) {
    && g.hidden > 0 && g.heads > 0 && g.kvHeads > 0 && g.headDim > 0 && g.ffn > 0 && g.context > 0 && g.layers > 0
    && g.heads % g.kvHeads == 0 && 0 < g.ropeDimensions <= g.headDim && g.ropeDimensions % 2 == 0
    && Positive(g.rmsEpsilon) && Positive(g.ropeBase)
  }

  lemma QuotientPositive(a: nat, b: nat)
    requires a > 0 && b > 0 && a % b == 0
    ensures a / b > 0
  {
    assert a == b * (a / b) + a % b;
  }

  function HeadDim(m: Manifest, a: Architecture, hidden: u64, heads: u64): (r: Result<u64, Code>)
    requires hidden > 0 && heads > 0
    ensures r.Ok? ==> r.value > 0
  {
    var key := Prefix(a) + "attention.key_length";
    if a.Qwen3? || key in m.metadata then Required(m, key)
    else if hidden % heads != 0 then Err(InvalidHeadDimension)
    else QuotientPositive(hidden, heads); Ok(hidden / heads)
  }

  /** The head width, checked against the value width if one is given. */
  function CheckedHeadDim(m: Manifest, a: Architecture, hidden: u64, heads: u64): (r: Result<u64, Code>)
    requires hidden > 0 && heads > 0
    ensures r.Ok? ==> r.value > 0
  {
    var headDim :- HeadDim(m, a, hidden, heads);
    var key := Prefix(a) + "attention.value_length";
    var valueDim :- if key in m.metadata then Required(m, key) else Ok(headDim);
    if valueDim != headDim then Err(UnsupportedValueDimension) else Ok(headDim)
  }

  function RopeDimensions(m: Manifest, a: Architecture, headDim: u64): (r: Result<u64, Code>)
    requires headDim > 0
    ensures r.Ok? ==> 0 < r.value <= headDim && r.value % 2 == 0
  {
    var key := Prefix(a) + "rope.dimension_count";
    var ropeDimensions :- if key in m.metadata then Required(m, key) else Ok(headDim);
    if ropeDimensions > headDim || ropeDimensions % 2 != 0 then Err(InvalidRope) else Ok(ropeDimensions)
  }

  /** The dimensions attention works in. */
  datatype HeadDims = HeadDims(hidden: u64, heads: u64, kvHeads: u64, headDim: u64, ropeDimensions: u64)

  function HeadDimsOf(m: Manifest, a: Architecture): (r: Result<HeadDims, Code>)
    ensures r.Ok? ==>
      var h := r.value;
      && h.hidden > 0 && h.heads > 0 && h.kvHeads > 0 && h.headDim > 0
      && h.heads % h.kvHeads == 0 && 0 < h.ropeDimensions <= h.headDim && h.ropeDimensions % 2 == 0
  {
    var p := Prefix(a);
    var hidden :- Required(m, p + "embedding_length");
    var heads :- Required(m, p + "attention.head_count");
    var kvHeads :- Required(m, p + "attention.head_count_kv");
    if heads % kvHeads != 0 then Err(InvalidGqa)
    else
      var headDim :- CheckedHeadDim(m, a, hidden, heads);
      var ropeDimensions :- RopeDimensions(m, a, headDim);
      Ok(HeadDims(hidden, heads, kvHeads, headDim, ropeDimensions))
  }

  /** The sizes of the model and the two numbers its norms and rotations need. */
  datatype Sizes = Sizes(layers: u64, context: u64, ffn: u64, rmsEpsilon: Float, ropeBase: Float)

  function SizesOf(m: Manifest, a: Architecture): (r: Result<Sizes, Code>)
    ensures r.Ok? ==>
      var z := r.value;
      z.layers > 0 && z.context > 0 && z.ffn > 0 && Positive(z.rmsEpsilon) && Positive(z.ropeBase)
  {
    var p := Prefix(a);
    var layers :- Required(m, p + "block_count");
    var context :- Required(m, p + "context_length");
    var ffn :- Required(m, p + "feed_forward_length");
    var rmsEpsilon :- RequiredFloat(m, p + "attention.layer_norm_rms_epsilon");
    var ropeBase :- RequiredFloat(m, p + "rope.freq_base");
    Ok(Sizes(layers, context, ffn, rmsEpsilon, ropeBase))
  }

  /** The metadata checks, in order; what passes is sound. */
  function GeometryOf(m: Manifest): (r: Result<Geometry, Code>)
    ensures r.Ok? ==> Sound(r.value)
  {
    var a :- ArchitectureOf(m);
    var _ :- Check(!exists key :: key in m.metadata && OtherExecutor(key, m.metadata[key]), UnsupportedExecutionRequirement);
    var h :- HeadDimsOf(m, a);
    var z :- SizesOf(m, a);
    Ok(Geometry(a, z.context, h.hidden, h.heads, h.kvHeads, h.headDim, z.ffn, z.layers, z.rmsEpsilon, z.ropeBase,
                h.ropeDimensions))
  }

  /** The vocabulary size: the embedding's rows, and the tokenizer's tokens if given. */
  function VocabularyOf(m: Manifest, hidden: u64): Result<u64, Code> {
    match Lookup(m.tensors, "token_embd.weight")
    case None => Err(MissingTensor)
    case Some(t) =>
      if |t.dimensions| != 2 || t.dimensions[0] != hidden then Err(InvalidTensorShape)
      else if "tokenizer.ggml.tokens" in m.metadata && m.metadata["tokenizer.ggml.tokens"].MArray?
              && m.metadata["tokenizer.ggml.tokens"].length != t.dimensions[1] then Err(VocabularyMismatch)
      else Ok(t.dimensions[1])
  }

  // The tensors.

  /** The part a tensor plays in a layer. */
  datatype Role = AttnNorm | AttnQ | AttnK | AttnV | AttnOutput | FfnNorm | FfnGate | FfnUp | FfnDown | AttnQNorm | AttnKNorm

  function Stem(role: Role): string {
    match role
    case AttnNorm => "attn_norm"
    case AttnQ => "attn_q"
    case AttnK => "attn_k"
    case AttnV => "attn_v"
    case AttnOutput => "attn_output"
    case FfnNorm => "ffn_norm"
    case FfnGate => "ffn_gate"
    case FfnUp => "ffn_up"
    case FfnDown => "ffn_down"
    case AttnQNorm => "attn_q_norm"
    case AttnKNorm => "attn_k_norm"
  }

  function Decimal(n: nat): string {
    if n < 10 then ["0123456789"[n]] else Decimal(n / 10) + ["0123456789"[n % 10]]
  }

  function LayerName(layer: nat, role: Role): string {
    "blk." + Decimal(layer) + "." + Stem(role) + ".weight"
  }

  /** A tensor the graph needs: its name, its shape, and whether it must be f32. */
  datatype Need = Need(name: string, shape: seq<u64>, norm: bool)

  function ValidateTensor(t: Tensor, need: Need): Result<(), Code> {
    if t.dimensions != need.shape then Err(InvalidTensorShape)
    else if need.norm && t.ggmlType != 0 then Err(UnsupportedNormPrecision)
    else if !LinearType(t.ggmlType) then Err(UnsupportedOperatorQuantization)
    else Ok(())
  }

  /** What is needed once for the model. */
  function ModelNeeds(g: Geometry, vocab: u64, outputHead: string, ropeFactors: Option<string>): seq<Need> {
    [Need("token_embd.weight", [g.hidden, vocab], false),
     Need("output_norm.weight", [g.hidden], true),
     Need(outputHead, [g.hidden, vocab], false)] +
    (if ropeFactors.Some? then [Need(ropeFactors.value, [g.ropeDimensions / 2], true)] else [])
  }

  /** What is needed for a layer, in binding order. */
  function LayerNeeds(g: Geometry, qwidth: u64, kvwidth: u64, layer: nat): seq<Need> {
    [Need(LayerName(layer, AttnNorm), [g.hidden], true),
     Need(LayerName(layer, AttnQ), [g.hidden, qwidth], false),
     Need(LayerName(layer, AttnK), [g.hidden, kvwidth], false),
     Need(LayerName(layer, AttnV), [g.hidden, kvwidth], false),
     Need(LayerName(layer, AttnOutput), [qwidth, g.hidden], false),
     Need(LayerName(layer, FfnNorm), [g.hidden], true),
     Need(LayerName(layer, FfnGate), [g.hidden, g.ffn], false),
     Need(LayerName(layer, FfnUp), [g.hidden, g.ffn], false),
     Need(LayerName(layer, FfnDown), [g.ffn, g.hidden], false)] +
    (if g.architecture.Qwen3? then
       [Need(LayerName(layer, AttnQNorm), [g.headDim], true),
        Need(LayerName(layer, AttnKNorm), [g.headDim], true)]
     else [])
  }

  /** The needs of layers `0` to `layers - 1`. */
  function AllLayerNeeds(g: Geometry, qwidth: u64, kvwidth: u64, layers: nat): seq<Need> {
    if layers == 0 then []
    else AllLayerNeeds(g, qwidth, kvwidth, layers - 1) + LayerNeeds(g, qwidth, kvwidth, layers - 1)
  }

  datatype Descriptor = Descriptor(
    geometry: Geometry, vocab: u64, ropeFactors: Option<string>, bindings: seq<Tensor>, outputHead: string)

  /** Why a need is not met, if it is not. */
  function NeedError(m: Manifest, need: Need): Option<Code> {
    match Lookup(m.tensors, need.name)
    case None => Some(MissingTensor)
    case Some(t) => match ValidateTensor(t, need) case Ok(_) => None case Err(e) => Some(e)
  }

  /** The error of the first need that is not met. */
  function BindError(m: Manifest, needs: seq<Need>): Option<Code> {
    if needs == [] then None
    else if NeedError(m, needs[0]).Some? then NeedError(m, needs[0])
    else BindError(m, needs[1..])
  }

  /** Every need is met, and `bindings` holds the tensors that meet them. */
  ghost predicate Binds(m: Manifest, needs: seq<Need>, bindings: seq<Tensor>) {
    && |bindings| == |needs|
    && forall i :: 0 <= i < |needs| ==>
         NeedError(m, needs[i]) == None && Lookup(m.tensors, needs[i].name) == Some(bindings[i])
  }

  lemma {:induction false} BindErrorConcat(m: Manifest, a: seq<Need>, b: seq<Need>)
    ensures BindError(m, a + b) == if BindError(m, a).Some? then BindError(m, a) else BindError(m, b)
  {
    if a == [] {
      assert a + b == b;
    } else {
      assert (a + b)[1..] == a[1..] + b;
      BindErrorConcat(m, a[1..], b);
    }
  }

  /** Bind needs in order, after what is bound already; the first unmet one stops. */
  method BindAll(m: Manifest, needs: seq<Need>, ghost before: seq<Need>, bound: seq<Tensor>)
    returns (r: Result<seq<Tensor>, Code>)
    requires Binds(m, before, bound)
    ensures BindError(m, needs) == if r.Ok? then None else Some(r.error)
    ensures r.Ok? ==> Binds(m, before + needs, r.value)
  {
    var bindings := bound;
    assert before + needs[..0] == before;
    for i := 0 to |needs|
      invariant BindError(m, needs) == BindError(m, needs[i..])
      invariant Binds(m, before + needs[..i], bindings)
    {
      assert needs[i..][1..] == needs[i + 1..];
      assert before + needs[..i + 1] == before + needs[..i] + [needs[i]];
      var t := Lookup(m.tensors, needs[i].name);
      if t == None {
        return Err(MissingTensor);
      }
      var valid := ValidateTensor(t.value, needs[i]);
      if valid.Err? {
        return Err(valid.error);
      }
      bindings := bindings + [t.value];
    }
    assert needs[..|needs|] == needs && needs[|needs|..] == [];
    return Ok(bindings);
  }

  /** Graph-affecting names no first adapter plans for. */
  predicate UnsupportedName(name: string) {
    EndsWith(name, ".bias") || Contains(name, "_exps.") || Contains(name, "attn_qkv")
    || Contains(name, "post_attention_norm") || Contains(name, "post_ffw_norm")
  }

  function OutputHead(m: Manifest): string {
    if Lookup(m.tensors, "output.weight").Some? then "output.weight" else "token_embd.weight"
  }

  function RopeFactors(m: Manifest): Option<string> {
    if Lookup(m.tensors, "rope_freqs.weight").Some? then Some("rope_freqs.weight") else None
  }

  /** Everything the graph of `g` needs from a manifest. */
  function Needs(m: Manifest, g: Geometry, vocab: u64, qwidth: u64, kvwidth: u64): seq<Need> {
    ModelNeeds(g, vocab, OutputHead(m), RopeFactors(m)) + AllLayerNeeds(g, qwidth, kvwidth, g.layers)
  }

  predicate Planned(needs: seq<Need>, t: Tensor) {
    exists i :: 0 <= i < |needs| && needs[i].name == t.name
  }

  // No name the graph plans for is one of the unsupported names.

  /** Free of what every unsupported name has somewhere. */
  predicate Clean(s: string) {
    forall i :: 0 <= i < |s| ==> s[i] != 'x' && (i + 1 < |s| ==> !Marked(s[i], s[i + 1]))
  }

  predicate Marked(c: char, d: char) {
    (c == 'q' && d == 'k') || (c == 'p' && d == 'o')
  }

  lemma CleanConcat(a: string, b: string)
    requires Clean(a) && Clean(b) && (a != [] && b != [] ==> !Marked(a[|a| - 1], b[0]))
    ensures Clean(a + b)
  {
  }

  lemma {:induction false} CleanDecimal(n: nat)
    ensures Clean(Decimal(n)) && forall c :: c in Decimal(n) ==> '0' <= c <= '9'
  {
    if n >= 10 {
      CleanDecimal(n / 10);
    }
  }

  lemma CleanStem(role: Role)
    ensures Clean(Stem(role))
  {
    if role in {AttnNorm, AttnQ, AttnK, AttnV} {
      CleanInput(role);
    } else if role in {FfnNorm, FfnGate, FfnUp, FfnDown} {
      CleanFeedForward(role);
    } else {
      CleanHead(role);
    }
  }

  lemma CleanInput(role: Role)
    requires role.AttnNorm? || role.AttnQ? || role.AttnK? || role.AttnV?
    ensures Clean(Stem(role))
  {
  }

  lemma CleanFeedForward(role: Role)
    requires role.FfnNorm? || role.FfnGate? || role.FfnUp? || role.FfnDown?
    ensures Clean(Stem(role))
  {
  }

  lemma CleanHead(role: Role)
    requires role.AttnOutput? || role.AttnQNorm? || role.AttnKNorm?
    ensures Clean(Stem(role))
  {
  }

  lemma CleanLayerName(layer: nat, role: Role)
    ensures Clean(LayerName(layer, role)) && EndsWith(LayerName(layer, role), ".weight")
  {
    CleanDecimal(layer);
    CleanStem(role);
    CleanConcat("blk.", Decimal(layer));
    CleanConcat("blk." + Decimal(layer), ".");
    CleanConcat("blk." + Decimal(layer) + ".", Stem(role));
    CleanConcat("blk." + Decimal(layer) + "." + Stem(role), ".weight");
  }

  lemma CleanIsSupported(name: string)
    requires Clean(name) && EndsWith(name, ".weight")
    ensures !UnsupportedName(name)
  {
    LastCharacter(name, ".weight");
    LastCharacter(name, ".bias");
    NeverContains(name, "_exps.", 2);
    NeverContains(name, "attn_qkv", 5);
    NeverContains(name, "post_attention_norm", 0);
    NeverContains(name, "post_ffw_norm", 0);
  }

  lemma LastCharacter(s: string, suffix: string)
    requires suffix != []
    ensures EndsWith(s, suffix) ==> s != [] && s[|s| - 1] == suffix[|suffix| - 1]
  {
    assert EndsWith(s, suffix) ==> s[|s| - |suffix|..][|suffix| - 1] == suffix[|suffix| - 1];
  }

  lemma CharacterAt(s: string, part: string, i: nat, at: nat)
    requires i <= |s| && at < |part|
    ensures StartsWith(s[i..], part) ==> i + at < |s| && s[i + at] == part[at]
  {
    assert StartsWith(s[i..], part) ==> s[i..][..|part|][at] == part[at];
  }

  /** A text with a mark at `at` is in no clean name. */
  lemma NeverContains(name: string, part: string, at: nat)
    requires Clean(name) && at + 1 < |part| && (part[at] == 'x' || Marked(part[at], part[at + 1]))
    ensures !Contains(name, part)
  {
    forall i | 0 <= i <= |name|
      ensures !StartsWith(name[i..], part)
    {
      CharacterAt(name, part, i, at);
      CharacterAt(name, part, i, at + 1);
    }
  }

  lemma ModelNamesSupported(m: Manifest, g: Geometry, vocab: u64, i: nat)
    requires i < |ModelNeeds(g, vocab, OutputHead(m), RopeFactors(m))|
    ensures !UnsupportedName(ModelNeeds(g, vocab, OutputHead(m), RopeFactors(m))[i].name)
  {
    EmbeddingSupported();
    NormSupported();
    HeadSupported();
    FactorsSupported();
  }

  lemma WeightSupported(stem: string)
    requires Clean(stem)
    ensures !UnsupportedName(stem + ".weight")
  {
    CleanConcat(stem, ".weight");
    CleanIsSupported(stem + ".weight");
  }

  lemma EmbeddingSupported()
    ensures !UnsupportedName("token_embd.weight")
  {
    WeightSupported("token_embd");
    assert "token_embd" + ".weight" == "token_embd.weight";
  }

  lemma NormSupported()
    ensures !UnsupportedName("output_norm.weight")
  {
    WeightSupported("output_norm");
    assert "output_norm" + ".weight" == "output_norm.weight";
  }

  lemma HeadSupported()
    ensures !UnsupportedName("output.weight")
  {
    WeightSupported("output");
    assert "output" + ".weight" == "output.weight";
  }

  lemma FactorsSupported()
    ensures !UnsupportedName("rope_freqs.weight")
  {
    WeightSupported("rope_freqs");
    assert "rope_freqs" + ".weight" == "rope_freqs.weight";
  }

  lemma {:induction false} LayerNamesSupported(g: Geometry, qwidth: u64, kvwidth: u64, layers: nat, i: nat)
    requires i < |AllLayerNeeds(g, qwidth, kvwidth, layers)|
    ensures !UnsupportedName(AllLayerNeeds(g, qwidth, kvwidth, layers)[i].name)
    decreases layers
  {
    var before := AllLayerNeeds(g, qwidth, kvwidth, layers - 1);
    if i < |before| {
      LayerNamesSupported(g, qwidth, kvwidth, layers - 1, i);
    } else {
      var role := RoleOf(g, qwidth, kvwidth, layers - 1, i - |before|);
      CleanLayerName(layers - 1, role);
      CleanIsSupported(LayerName(layers - 1, role));
    }
  }

  lemma RoleOf(g: Geometry, qwidth: u64, kvwidth: u64, layer: nat, i: nat) returns (role: Role)
    requires i < |LayerNeeds(g, qwidth, kvwidth, layer)|
    ensures LayerNeeds(g, qwidth, kvwidth, layer)[i].name == LayerName(layer, role)
  {
    var roles := [AttnNorm, AttnQ, AttnK, AttnV, AttnOutput, FfnNorm, FfnGate, FfnUp, FfnDown, AttnQNorm, AttnKNorm];
    role := roles[i];
  }

  /** A tensor the graph plans for has no unsupported name, so the second check on
      the tensors never fires. */
  lemma {:induction false} PlannedIsSupported(m: Manifest, g: Geometry, vocab: u64, qwidth: u64, kvwidth: u64, t: Tensor)
    requires Planned(Needs(m, g, vocab, qwidth, kvwidth), t)
    ensures !UnsupportedName(t.name)
  {
    var once, layered := ModelNeeds(g, vocab, OutputHead(m), RopeFactors(m)), AllLayerNeeds(g, qwidth, kvwidth, g.layers);
    forall i: nat | i < |once| ensures !UnsupportedName(once[i].name) {
      ModelNamesSupported(m, g, vocab, i);
    }
    forall i: nat | i < |layered| ensures !UnsupportedName(layered[i].name) {
      LayerNamesSupported(g, qwidth, kvwidth, g.layers, i);
    }
    PlannedByEither(once, layered, t);
  }

  lemma PlannedByEither(a: seq<Need>, b: seq<Need>, t: Tensor)
    requires forall i: nat :: i < |a| ==> !UnsupportedName(a[i].name)
    requires forall i: nat :: i < |b| ==> !UnsupportedName(b[i].name)
    requires Planned(a + b, t)
    ensures !UnsupportedName(t.name)
  {
    var i :| 0 <= i < |a + b| && (a + b)[i].name == t.name;
    assert (a + b)[i] == if i < |a| then a[i] else b[i - |a|];
  }

  /** The error codes with which a manifest may be refused, in the order of the
      checks; none means it is accepted. Only where the loop over the metadata, a
      map, makes two checks may either code come first. */
  function Refusals(m: Manifest): set<Code> {
    match GeometryOf(m)
    case Err(e) => {e}
    case Ok(g) =>
      match VocabularyOf(m, g.hidden)
      case Err(e) => {e}
      case Ok(vocab) => GraphRefusals(m, g, vocab)
  }

  /** ... once geometry and vocabulary are known. */
  function GraphRefusals(m: Manifest, g: Geometry, vocab: u64): set<Code> {
    match BindError(m, ModelNeeds(g, vocab, OutputHead(m), RopeFactors(m)))
    case Some(e) => {e}
    case None =>
      var qwidth, kvwidth := CheckedMul(g.heads, g.headDim), CheckedMul(g.kvHeads, g.headDim);
      if qwidth == None || kvwidth == None then {Overflow}
      else
        match BindError(m, AllLayerNeeds(g, qwidth.value, kvwidth.value, g.layers))
        case Some(e) => {e}
        case None =>
          if MetadataRefusals(m) != {} then MetadataRefusals(m)
          else if exists t :: t in m.tensors && !Planned(Needs(m, g, vocab, qwidth.value, kvwidth.value), t) then
            {UnplannedTensor}
          else {}
  }

  function MetadataRefusals(m: Manifest): set<Code> {
    (if exists key :: key in m.metadata && ScaledPositions(key, m.metadata[key]) then {UnsupportedPositionSemantics} else {}) +
    (if exists key :: key in m.metadata && TransformedScores(key, m.metadata[key]) then {UnsupportedAttentionSemantics} else {})
  }

  /** The check that refuses the first tensor it does not let pass, in file order. */
  function TensorRefusal(tensors: seq<Tensor>, needs: seq<Need>): Option<Code> {
    if tensors == [] then None
    else if !Planned(needs, tensors[0]) then Some(UnplannedTensor)
    else if UnsupportedName(tensors[0].name) then Some(UnsupportedTensorSemantics)
    else TensorRefusal(tensors[1..], needs)
  }

  /** Against the needs of a graph only an unplanned tensor is refused. */
  lemma {:induction false} OnlyUnplanned(
      m: Manifest, g: Geometry, vocab: u64, qwidth: u64, kvwidth: u64, tensors: seq<Tensor>)
    ensures var needs := Needs(m, g, vocab, qwidth, kvwidth);
            TensorRefusal(tensors, needs) ==
              if exists t :: t in tensors && !Planned(needs, t) then Some(UnplannedTensor) else None
  {
    if tensors != [] {
      OnlyUnplanned(m, g, vocab, qwidth, kvwidth, tensors[1..]);
      if Planned(Needs(m, g, vocab, qwidth, kvwidth), tensors[0]) {
        PlannedIsSupported(m, g, vocab, qwidth, kvwidth, tensors[0]);
      }
    }
  }

  /** The two checks on what is left of metadata and tensors. */
  method CheckRest(m: Manifest, needs: seq<Need>) returns (r: Result<(), Code>)
    ensures MetadataRefusals(m) != {} ==> r.Err? && r.error in MetadataRefusals(m)
    ensures MetadataRefusals(m) == {} ==> TensorRefusal(m.tensors, needs) == if r.Ok? then None else Some(r.error)
  {
    var left := m.metadata.Keys;
    while left != {}
      invariant left <= m.metadata.Keys
      invariant forall key :: key in m.metadata && key !in left ==>
        !ScaledPositions(key, m.metadata[key]) && !TransformedScores(key, m.metadata[key])
      decreases left
    {
      var key :| key in left;
      left := left - {key};
      if ScaledPositions(key, m.metadata[key]) {
        return Err(UnsupportedPositionSemantics);
      }
      if TransformedScores(key, m.metadata[key]) {
        return Err(UnsupportedAttentionSemantics);
      }
    }
    for i := 0 to |m.tensors|
      invariant TensorRefusal(m.tensors, needs) == TensorRefusal(m.tensors[i..], needs)
    {
      var t := m.tensors[i];
      assert m.tensors[i..][0] == t && m.tensors[i..][1..] == m.tensors[i + 1..];
      if !Planned(needs, t) {
        return Err(UnplannedTensor);
      }
      if UnsupportedName(t.name) {
        return Err(UnsupportedTensorSemantics);
      }
    }
    return Ok(());
  }

  /** What an accepted descriptor says of its manifest. */
  ghost predicate Describes(m: Manifest, d: Descriptor) {
    && GeometryOf(m) == Ok(d.geometry) && VocabularyOf(m, d.geometry.hidden) == Ok(d.vocab)
    && d.outputHead == OutputHead(m) && d.ropeFactors == RopeFactors(m)
    && var qwidth, kvwidth := CheckedMul(d.geometry.heads, d.geometry.headDim), CheckedMul(d.geometry.kvHeads, d.geometry.headDim);
    && qwidth.Some? && kvwidth.Some?
    && var needs := Needs(m, d.geometry, d.vocab, qwidth.value, kvwidth.value);
    && Binds(m, needs, d.bindings)
    && forall t :: t in m.tensors ==> Planned(needs, t)
  }

  /** Main result for the loader: it accepts exactly the manifests with nothing to
      refuse, refuses with the code of the first failing check, and an accepted
      descriptor binds exactly what its graph needs. */
  method FromManifest(m: Manifest) returns (r: Result<Descriptor, Code>)
    ensures r.Ok? <==> Refusals(m) == {}
    ensures r.Err? ==> r.error in Refusals(m)
    ensures r.Ok? ==> Describes(m, r.value)
  {
    var geometry := GeometryOf(m);
    if geometry.Err? {
      return Err(geometry.error);
    }
    var g := geometry.value;
    var vocab := VocabularyOf(m, g.hidden);
    if vocab.Err? {
      return Err(vocab.error);
    }
    var head, factors := OutputHead(m), RopeFactors(m);
    var needs := ModelNeeds(g, vocab.value, head, factors);
    var bound := BindAll(m, needs, [], []);
    if bound.Err? {
      return Err(bound.error);
    }
    assert [] + needs == needs;
    var qwidth, kvwidth := CheckedMul(g.heads, g.headDim), CheckedMul(g.kvHeads, g.headDim);
    if qwidth == None || kvwidth == None {
      return Err(Overflow);
    }
    bound := BindLayers(m, g, qwidth.value, kvwidth.value, needs, bound.value);
    if bound.Err? {
      return Err(bound.error);
    }
    var rest := CheckRest(m, needs + AllLayerNeeds(g, qwidth.value, kvwidth.value, g.layers));
    OnlyUnplanned(m, g, vocab.value, qwidth.value, kvwidth.value, m.tensors);
    if rest.Err? {
      return Err(rest.error);
    }
    return Ok(Descriptor(g, vocab.value, factors, bound.value, head));
  }

  lemma OneMoreLayer(m: Manifest, g: Geometry, qwidth: u64, kvwidth: u64, before: seq<Need>, layer: nat)
    ensures var soFar, needs := AllLayerNeeds(g, qwidth, kvwidth, layer), LayerNeeds(g, qwidth, kvwidth, layer);
      var next := AllLayerNeeds(g, qwidth, kvwidth, layer + 1);
      && before + next == before + soFar + needs
      && BindError(m, next) == if BindError(m, soFar).Some? then BindError(m, soFar) else BindError(m, needs)
  {
    BindErrorConcat(m, AllLayerNeeds(g, qwidth, kvwidth, layer), LayerNeeds(g, qwidth, kvwidth, layer));
  }

  method BindLayers(m: Manifest, g: Geometry, qwidth: u64, kvwidth: u64, ghost before: seq<Need>, bound: seq<Tensor>)
    returns (r: Result<seq<Tensor>, Code>)
    requires Binds(m, before, bound)
    ensures BindError(m, AllLayerNeeds(g, qwidth, kvwidth, g.layers)) == if r.Ok? then None else Some(r.error)
    ensures r.Ok? ==> Binds(m, before + AllLayerNeeds(g, qwidth, kvwidth, g.layers), r.value)
  {
    var bindings := bound;
    assert before + AllLayerNeeds(g, qwidth, kvwidth, 0) == before;
    for layer := 0 to g.layers
      invariant BindError(m, AllLayerNeeds(g, qwidth, kvwidth, layer)) == None
      invariant Binds(m, before + AllLayerNeeds(g, qwidth, kvwidth, layer), bindings)
    {
      var needs := LayerNeeds(g, qwidth, kvwidth, layer);
      OneMoreLayer(m, g, qwidth, kvwidth, before, layer);
      var more := BindAll(m, needs, before + AllLayerNeeds(g, qwidth, kvwidth, layer), bindings);
      if more.Err? {
        LaterLayersKeepError(m, g, qwidth, kvwidth, layer + 1, g.layers);
        return Err(more.error);
      }
      bindings := more.value;
    }
    return Ok(bindings);
  }

  lemma {:induction false} LaterLayersKeepError(m: Manifest, g: Geometry, qwidth: u64, kvwidth: u64, layer: nat, layers: nat)
    requires layer <= layers && BindError(m, AllLayerNeeds(g, qwidth, kvwidth, layer)).Some?
    ensures BindError(m, AllLayerNeeds(g, qwidth, kvwidth, layers)) == BindError(m, AllLayerNeeds(g, qwidth, kvwidth, layer))
    decreases layers
  {
    if layer < layers {
      LaterLayersKeepError(m, g, qwidth, kvwidth, layer, layers - 1);
      BindErrorConcat(m, AllLayerNeeds(g, qwidth, kvwidth, layers - 1), LayerNeeds(g, qwidth, kvwidth, layers - 1));
    }
  }
}
