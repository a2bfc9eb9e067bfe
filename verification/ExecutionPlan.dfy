/** The plan compiler: from a descriptor to the operators of each layer. */
module ExecutionPlan {
  import opened Prelude
  import opened Operators
  import opened ModelDescriptor

  datatype RopeLayout = AdjacentPairs | SplitHalves

  datatype Operator =
    | RmsNorm(weight: string, epsilon: Float)
    | Linear(weight: string, input: u64, output: u64)
    | HeadRmsNorm(queryWeight: string, keyWeight: string, headDim: u64, epsilon: Float)
    | CacheWrite
    | RelativeRopeCausalAttention(
        layout: RopeLayout, ropeDimensions: u64, ropeBase: Float, frequencyFactors: Option<string>,
        queryHeads: u64, kvHeads: u64, headDim: u64, scale: Float)
    | ResidualAdd
    | SiluGateMultiply

  datatype Plan = Plan(descriptor: Descriptor, layers: seq<seq<Operator>>, finalOperators: seq<Operator>)

  /** The widths the descriptor was checked to have: they fit the machine. */
  predicate WidthsFit(g: Geometry) {
    g.heads * g.headDim < TWO_TO_THE_64 && g.kvHeads * g.headDim < TWO_TO_THE_64
  }

  /** The operators of one layer; `scale` is the attention scale of the head width. */
  function LayerPlan(d: Descriptor, layer: nat, scale: Float): seq<Operator>
    requires WidthsFit(d.geometry)
  {
    Projections(d, layer) + Attention(d, layer, scale) + FeedForward(d, layer)
  }

  function Projections(d: Descriptor, layer: nat): seq<Operator>
    requires WidthsFit(d.geometry)
  {
    var g := d.geometry;
    [RmsNorm(LayerName(layer, AttnNorm), g.rmsEpsilon),
     Linear(LayerName(layer, AttnQ), g.hidden, g.heads * g.headDim),
     Linear(LayerName(layer, AttnK), g.hidden, g.kvHeads * g.headDim),
     Linear(LayerName(layer, AttnV), g.hidden, g.kvHeads * g.headDim)] +
    (if g.architecture.Qwen3? then
       [HeadRmsNorm(LayerName(layer, AttnQNorm), LayerName(layer, AttnKNorm), g.headDim, g.rmsEpsilon)]
     else [])
  }

  function Attention(d: Descriptor, layer: nat, scale: Float): seq<Operator>
    requires WidthsFit(d.geometry)
  {
    var g := d.geometry;
    [CacheWrite,
     RelativeRopeCausalAttention(
       if g.architecture.Qwen3? then SplitHalves else AdjacentPairs, g.ropeDimensions, g.ropeBase, d.ropeFactors,
       g.heads, g.kvHeads, g.headDim, scale),
     Linear(LayerName(layer, AttnOutput), g.heads * g.headDim, g.hidden),
     ResidualAdd]
  }

  function FeedForward(d: Descriptor, layer: nat): seq<Operator> {
    var g := d.geometry;
    [RmsNorm(LayerName(layer, FfnNorm), g.rmsEpsilon),
     Linear(LayerName(layer, FfnGate), g.hidden, g.ffn),
     Linear(LayerName(layer, FfnUp), g.hidden, g.ffn),
     SiluGateMultiply,
     Linear(LayerName(layer, FfnDown), g.ffn, g.hidden),
     ResidualAdd]
  }

  function FinalPlan(d: Descriptor): seq<Operator> {
    [RmsNorm("output_norm.weight", d.geometry.rmsEpsilon),
     Linear(d.outputHead, d.geometry.hidden, d.vocab)]
  }

  /** The body of the compiler's loop: one layer's operators, appended in order. */
  method CompileLayer(d: Descriptor, index: nat, scale: Float) returns (operators: seq<Operator>)
    requires WidthsFit(d.geometry)
    ensures operators == LayerPlan(d, index, scale)
  {
    var g := d.geometry;
    operators := [
      RmsNorm(LayerName(index, AttnNorm), g.rmsEpsilon),
      Linear(LayerName(index, AttnQ), g.hidden, g.heads * g.headDim),
      Linear(LayerName(index, AttnK), g.hidden, g.kvHeads * g.headDim),
      Linear(LayerName(index, AttnV), g.hidden, g.kvHeads * g.headDim)];
    if g.architecture.Qwen3? {
      operators := operators +
        [HeadRmsNorm(LayerName(index, AttnQNorm), LayerName(index, AttnKNorm), g.headDim, g.rmsEpsilon)];
    }
    operators := operators + Attention(d, index, scale) + FeedForward(d, index);
  }

  /** The compiler's loop over the layers. */
  method Compile(d: Descriptor, scale: Float) returns (plan: Plan)
    requires WidthsFit(d.geometry)
    ensures CompiledFrom(plan, d, scale)
  {
    var layers := [];
    for index := 0 to d.geometry.layers
      invariant |layers| == index && forall i :: 0 <= i < index ==> layers[i] == LayerPlan(d, i, scale)
    {
      var operators := CompileLayer(d, index, scale);
      layers := layers + [operators];
    }
    plan := Plan(d, layers, FinalPlan(d));
  }

  /** A plan as the compiler makes it. */
  ghost predicate CompiledFrom(plan: Plan, d: Descriptor, scale: Float) {
    && WidthsFit(d.geometry)
    && plan.descriptor == d && plan.finalOperators == FinalPlan(d) && |plan.layers| == d.geometry.layers
    && forall i :: 0 <= i < |plan.layers| ==> plan.layers[i] == LayerPlan(d, i, scale)
  }

  /** All operators, layer by layer and then the final ones. */
  function AllOperators(plan: Plan): seq<Operator> {
    Flatten(plan.layers) + plan.finalOperators
  }

  /** The weights an operator reads. */
  function WeightsOf(op: Operator): set<string> {
    match op
    case RmsNorm(w, _) => {w}
    case Linear(w, _, _) => {w}
    case HeadRmsNorm(q, k, _, _) => {q, k}
    case RelativeRopeCausalAttention(_, _, _, factors, _, _, _, _) => if factors.Some? then {factors.value} else {}
    case _ => {}
  }

  function WeightsOfAll(ops: seq<Operator>): set<string> {
    if ops == [] then {} else WeightsOf(ops[0]) + WeightsOfAll(ops[1..])
  }

  /** The weights a plan names. */
  function PlanWeights(plan: Plan): set<string> {
    WeightsOfAll(AllOperators(plan))
  }
}
