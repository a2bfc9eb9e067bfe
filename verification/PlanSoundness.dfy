/** The plan compiled from an accepted manifest is well typed, whatever the number
    of layers, and names exactly the tensors of the manifest. */
module PlanSoundness {
  import opened Prelude
  import opened Operators
  import opened ModelDescriptor
  import opened ExecutionPlan
  import opened Admission

  /** The activation widths an operator works on. */
  function Widths(d: Descriptor, op: Operator): set<nat> {
    var g := d.geometry;
    match op
    case RmsNorm(_, _) => {g.hidden}
    case Linear(_, input, output) => {input, output}
    case HeadRmsNorm(_, _, headDim, _) => {g.heads * headDim, g.kvHeads * headDim}
    case CacheWrite => {g.kvHeads * g.headDim}
    case RelativeRopeCausalAttention(_, _, _, _, queryHeads, kvHeads, headDim, _) => {queryHeads * headDim, kvHeads * headDim}
    case ResidualAdd => {g.hidden}
    case SiluGateMultiply => {g.ffn}
  }

  /** What an operator asks of the machine and the file beyond its types. */
  predicate Placed(d: Descriptor, m: Manifest, op: Operator) {
    && (forall n :: n in Widths(d, op) ==> n > 0 && Addressable(n))
    && (forall w :: w in WeightsOf(op) ==> InFile(m, w))
  }

  /** An operator whose weights are needs the manifest meets, and whose parameters
      are in range. */
  predicate Typed(d: Descriptor, m: Manifest, op: Operator) {
    var g := d.geometry;
    && g.hidden > 0 && g.heads > 0 && g.kvHeads > 0 && g.headDim > 0 && g.ffn > 0 && g.context > 0
    && match op
       case RmsNorm(w, epsilon) => Positive(epsilon) && NeedError(m, Need(w, [g.hidden], true)) == None
       case Linear(w, input, output) => NeedError(m, Need(w, [input, output], false)) == None
       case HeadRmsNorm(q, k, headDim, epsilon) =>
         && Positive(epsilon) && headDim > 0
         && NeedError(m, Need(q, [headDim], true)) == None && NeedError(m, Need(k, [headDim], true)) == None
       case RelativeRopeCausalAttention(_, ropeDimensions, base, factors, queryHeads, kvHeads, headDim, scale) =>
         && queryHeads > 0 && kvHeads > 0 && headDim > 0 && queryHeads % kvHeads == 0
         && 0 < ropeDimensions <= headDim && ropeDimensions % 2 == 0 && Positive(base) && Positive(scale)
         && (factors.Some? ==> NeedError(m, Need(factors.value, [ropeDimensions / 2], true)) == None)
       case _ => true
  }

  lemma ProductPositive(a: nat, b: nat)
    requires a > 0 && b > 0
    ensures a * b > 0
  {
  }

  /** A typed operator passes the checker exactly when it is placed. */
  lemma {:induction false} TypedPasses(d: Descriptor, m: Manifest, op: Operator)
    requires Typed(d, m, op)
    ensures CheckOperator(d, m, op).Ok? <==> Placed(d, m, op)
  {
    var g := d.geometry;
    match op
    case RmsNorm(w, epsilon) => NormPasses(d, m, w, epsilon);
    case Linear(w, input, output) =>
      LinearPasses(m, w, input, output);
      assert input in Widths(d, op) && output in Widths(d, op);
    case HeadRmsNorm(q, k, headDim, epsilon) =>
      HeadsPass(m, q, g.heads, headDim, epsilon);
      HeadsPass(m, k, g.kvHeads, headDim, epsilon);
      ProductPositive(g.heads, headDim);
      ProductPositive(g.kvHeads, headDim);
    case CacheWrite =>
      CacheWritePasses(g.kvHeads, g.headDim, g.context);
      ProductPositive(g.kvHeads, g.headDim);
    case RelativeRopeCausalAttention(_, _, _, _, queryHeads, kvHeads, headDim, _) =>
      AttentionPasses(d, m, op);
      ProductPositive(queryHeads, headDim);
      ProductPositive(kvHeads, headDim);
    case ResidualAdd => PairPasses("residual", g.hidden, ResidualAddOp);
    case SiluGateMultiply => PairPasses("FFN", g.ffn, GateMultiply(Silu));
  }

  /** A need of one layer is among the needs of all. */
  lemma {:induction false} LayerNeedIsNeeded(g: Geometry, q: u64, kv: u64, layers: nat, layer: nat, need: Need)
    requires layer < layers && need in LayerNeeds(g, q, kv, layer)
    ensures need in AllLayerNeeds(g, q, kv, layers)
    decreases layers
  {
    if layer < layers - 1 {
      LayerNeedIsNeeded(g, q, kv, layers - 1, layer, need);
    }
  }

  /** Every need of an accepted manifest is met. */
  lemma {:induction false} NeedIsMet(m: Manifest, d: Descriptor, need: Need)
    requires Describes(m, d)
    requires need in Needs(m, d.geometry, d.vocab, CheckedMul(d.geometry.heads, d.geometry.headDim).value,
                           CheckedMul(d.geometry.kvHeads, d.geometry.headDim).value)
    ensures NeedError(m, need) == None
  {
  }

  lemma {:induction false} LayerNeedIsMet(m: Manifest, d: Descriptor, layer: nat, need: Need)
    requires Describes(m, d) && layer < d.geometry.layers
    requires need in LayerNeeds(d.geometry, CheckedMul(d.geometry.heads, d.geometry.headDim).value,
                                CheckedMul(d.geometry.kvHeads, d.geometry.headDim).value, layer)
    ensures NeedError(m, need) == None
  {
    var g := d.geometry;
    var q, kv := CheckedMul(g.heads, g.headDim).value, CheckedMul(g.kvHeads, g.headDim).value;
    LayerNeedIsNeeded(g, q, kv, g.layers, layer, need);
    NeedIsMet(m, d, need);
  }

  /** The needs of a layer, by role. */
  predicate LayerMet(m: Manifest, d: Descriptor, layer: nat)
    requires WidthsFit(d.geometry)
  {
    var g := d.geometry;
    var q: u64, kv: u64 := g.heads * g.headDim, g.kvHeads * g.headDim;
    && NeedError(m, Need(LayerName(layer, AttnNorm), [g.hidden], true)) == None
    && NeedError(m, Need(LayerName(layer, AttnQ), [g.hidden, q], false)) == None
    && NeedError(m, Need(LayerName(layer, AttnK), [g.hidden, kv], false)) == None
    && NeedError(m, Need(LayerName(layer, AttnV), [g.hidden, kv], false)) == None
    && NeedError(m, Need(LayerName(layer, AttnOutput), [q, g.hidden], false)) == None
    && NeedError(m, Need(LayerName(layer, FfnNorm), [g.hidden], true)) == None
    && NeedError(m, Need(LayerName(layer, FfnGate), [g.hidden, g.ffn], false)) == None
    && NeedError(m, Need(LayerName(layer, FfnUp), [g.hidden, g.ffn], false)) == None
    && NeedError(m, Need(LayerName(layer, FfnDown), [g.ffn, g.hidden], false)) == None
    && (g.architecture.Qwen3? ==>
          && NeedError(m, Need(LayerName(layer, AttnQNorm), [g.headDim], true)) == None
          && NeedError(m, Need(LayerName(layer, AttnKNorm), [g.headDim], true)) == None)
  }

  lemma {:induction false} LayersAreMet(m: Manifest, d: Descriptor, layer: nat)
    requires Describes(m, d) && WidthsFit(d.geometry) && layer < d.geometry.layers
    ensures LayerMet(m, d, layer)
  {
    var g := d.geometry;
    var needs := LayerNeeds(g, g.heads * g.headDim, g.kvHeads * g.headDim, layer);
    forall j | 0 <= j < |needs| ensures NeedError(m, needs[j]) == None {
      LayerNeedIsMet(m, d, layer, needs[j]);
    }
    assert NeedError(m, needs[0]) == None && NeedError(m, needs[1]) == None && NeedError(m, needs[2]) == None;
    assert NeedError(m, needs[3]) == None && NeedError(m, needs[4]) == None && NeedError(m, needs[5]) == None;
    assert NeedError(m, needs[6]) == None && NeedError(m, needs[7]) == None && NeedError(m, needs[8]) == None;
    if g.architecture.Qwen3? {
      assert NeedError(m, needs[9]) == None && NeedError(m, needs[10]) == None;
    }
  }

  ghost predicate AllTyped(d: Descriptor, m: Manifest, ops: seq<Operator>) {
    forall i :: 0 <= i < |ops| ==> Typed(d, m, ops[i])
  }

  lemma {:induction false} ProjectionsTyped(m: Manifest, d: Descriptor, layer: nat)
    requires WidthsFit(d.geometry) && Sound(d.geometry) && LayerMet(m, d, layer)
    ensures AllTyped(d, m, Projections(d, layer))
  {
  }

  lemma {:induction false} AttentionTyped(m: Manifest, d: Descriptor, layer: nat, scale: Float)
    requires WidthsFit(d.geometry) && Sound(d.geometry) && LayerMet(m, d, layer) && Positive(scale)
    requires d.ropeFactors.Some? ==> NeedError(m, Need(d.ropeFactors.value, [d.geometry.ropeDimensions / 2], true)) == None
    ensures AllTyped(d, m, Attention(d, layer, scale))
  {
  }

  lemma {:induction false} FeedForwardTyped(m: Manifest, d: Descriptor, layer: nat)
    requires WidthsFit(d.geometry) && Sound(d.geometry) && LayerMet(m, d, layer)
    ensures AllTyped(d, m, FeedForward(d, layer))
  {
  }

  lemma {:induction false} AllTypedConcat(d: Descriptor, m: Manifest, a: seq<Operator>, b: seq<Operator>)
    requires AllTyped(d, m, a) && AllTyped(d, m, b)
    ensures AllTyped(d, m, a + b)
  {
  }

  lemma {:induction false} LayerIsTyped(m: Manifest, d: Descriptor, layer: nat, scale: Float)
    requires Describes(m, d) && WidthsFit(d.geometry) && layer < d.geometry.layers && Positive(scale)
    ensures AllTyped(d, m, LayerPlan(d, layer, scale))
  {
    LayersAreMet(m, d, layer);
    if d.ropeFactors.Some? {
      NeedIsMet(m, d, ModelNeeds(d.geometry, d.vocab, d.outputHead, d.ropeFactors)[3]);
    }
    ProjectionsTyped(m, d, layer);
    AttentionTyped(m, d, layer, scale);
    FeedForwardTyped(m, d, layer);
    AllTypedConcat(d, m, Projections(d, layer), Attention(d, layer, scale));
    AllTypedConcat(d, m, Projections(d, layer) + Attention(d, layer, scale), FeedForward(d, layer));
  }

  lemma {:induction false} FlattenedTyped(d: Descriptor, m: Manifest, layers: seq<seq<Operator>>)
    requires forall i :: 0 <= i < |layers| ==> AllTyped(d, m, layers[i])
    ensures AllTyped(d, m, Flatten(layers))
  {
    if layers != [] {
      FlattenedTyped(d, m, layers[1..]);
      AllTypedConcat(d, m, layers[0], Flatten(layers[1..]));
    }
  }

  lemma {:induction false} FinalIsTyped(m: Manifest, d: Descriptor)
    requires Describes(m, d)
    ensures AllTyped(d, m, FinalPlan(d))
  {
    var needs := ModelNeeds(d.geometry, d.vocab, d.outputHead, d.ropeFactors);
    NeedIsMet(m, d, needs[1]);
    NeedIsMet(m, d, needs[2]);
  }

  lemma {:induction false} PlanIsTyped(m: Manifest, d: Descriptor, scale: Float, plan: Plan)
    requires Describes(m, d) && CompiledFrom(plan, d, scale) && Positive(scale)
    ensures AllTyped(d, m, AllOperators(plan))
  {
    forall i | 0 <= i < |plan.layers| ensures AllTyped(d, m, plan.layers[i]) {
      LayerIsTyped(m, d, i, scale);
    }
    FlattenedTyped(d, m, plan.layers);
    FinalIsTyped(m, d);
    AllTypedConcat(d, m, Flatten(plan.layers), plan.finalOperators);
  }

  // Widths and weights over the whole plan.

  function WidthsOfAll(d: Descriptor, ops: seq<Operator>): set<nat> {
    if ops == [] then {} else Widths(d, ops[0]) + WidthsOfAll(d, ops[1..])
  }

  lemma {:induction false} WidthsConcat(d: Descriptor, a: seq<Operator>, b: seq<Operator>)
    ensures WidthsOfAll(d, a + b) == WidthsOfAll(d, a) + WidthsOfAll(d, b)
    ensures WeightsOfAll(a + b) == WeightsOfAll(a) + WeightsOfAll(b)
  {
    if a == [] {
      assert a + b == b;
    } else {
      assert (a + b)[1..] == a[1..] + b;
      WidthsConcat(d, a[1..], b);
    }
  }

  predicate AllAddressable(widths: set<nat>) {
    forall n :: n in widths ==> n > 0 && Addressable(n)
  }

  predicate AllInFile(m: Manifest, names: set<string>) {
    forall w :: w in names ==> InFile(m, w)
  }

  ghost predicate PlacedAll(d: Descriptor, m: Manifest, ops: seq<Operator>) {
    forall i :: 0 <= i < |ops| ==> Placed(d, m, ops[i])
  }

  /** All operators are placed exactly when all their widths and weights are. */
  lemma {:induction false} PlacedByUse(d: Descriptor, m: Manifest, ops: seq<Operator>)
    ensures PlacedAll(d, m, ops) <==> AllAddressable(WidthsOfAll(d, ops)) && AllInFile(m, WeightsOfAll(ops))
  {
    if ops != [] {
      var rest := ops[1..];
      PlacedByUse(d, m, rest);
      assert PlacedAll(d, m, ops) <==> Placed(d, m, ops[0]) && PlacedAll(d, m, rest) by {
        assert forall i :: 0 <= i < |rest| ==> rest[i] == ops[i + 1];
        assert forall i :: 0 < i < |ops| ==> ops[i] == rest[i - 1];
      }
      UnionAddressable(Widths(d, ops[0]), WidthsOfAll(d, rest));
      UnionInFile(m, WeightsOf(ops[0]), WeightsOfAll(rest));
    }
  }

  lemma UnionAddressable(a: set<nat>, b: set<nat>)
    ensures AllAddressable(a + b) <==> AllAddressable(a) && AllAddressable(b)
  {
    assert forall n :: n in a ==> n in a + b;
    assert forall n :: n in b ==> n in a + b;
  }

  lemma UnionInFile(m: Manifest, a: set<string>, b: set<string>)
    ensures AllInFile(m, a + b) <==> AllInFile(m, a) && AllInFile(m, b)
  {
    assert forall w :: w in a ==> w in a + b;
    assert forall w :: w in b ==> w in a + b;
  }

  function LayerWidths(g: Geometry): set<nat> {
    {g.hidden, g.heads * g.headDim, g.kvHeads * g.headDim, g.ffn}
  }

  /** The tensors of one layer. */
  function RoleNames(d: Descriptor, layer: nat): set<string> {
    {LayerName(layer, AttnNorm), LayerName(layer, AttnQ), LayerName(layer, AttnK), LayerName(layer, AttnV),
     LayerName(layer, AttnOutput), LayerName(layer, FfnNorm), LayerName(layer, FfnGate), LayerName(layer, FfnUp),
     LayerName(layer, FfnDown)} +
    (if d.geometry.architecture.Qwen3? then {LayerName(layer, AttnQNorm), LayerName(layer, AttnKNorm)} else {})
  }

  function AllRoleNames(d: Descriptor, layers: nat): set<string> {
    if layers == 0 then {} else AllRoleNames(d, layers - 1) + RoleNames(d, layers - 1)
  }

  function FactorNames(d: Descriptor): set<string> {
    if d.ropeFactors.Some? then {d.ropeFactors.value} else {}
  }

  lemma {:induction false} OneOperator(d: Descriptor, op: Operator)
    ensures WidthsOfAll(d, [op]) == Widths(d, op) && WeightsOfAll([op]) == WeightsOf(op)
  {
    assert [op][1..] == [];
  }

  lemma {:induction false} ProjectionsUse(d: Descriptor, layer: nat)
    requires WidthsFit(d.geometry)
    ensures var g := d.geometry;
            && WidthsOfAll(d, Projections(d, layer)) == {g.hidden, g.heads * g.headDim, g.kvHeads * g.headDim}
            && WeightsOfAll(Projections(d, layer)) ==
                 {LayerName(layer, AttnNorm), LayerName(layer, AttnQ), LayerName(layer, AttnK), LayerName(layer, AttnV)} +
                 (if g.architecture.Qwen3? then {LayerName(layer, AttnQNorm), LayerName(layer, AttnKNorm)} else {})
  {
    var ops := Projections(d, layer);
    assert ops == [ops[0]] + ([ops[1]] + ([ops[2]] + ([ops[3]] + ops[4..])));
    WidthsConcat(d, [ops[0]], [ops[1]] + ([ops[2]] + ([ops[3]] + ops[4..])));
    WidthsConcat(d, [ops[1]], [ops[2]] + ([ops[3]] + ops[4..]));
    WidthsConcat(d, [ops[2]], [ops[3]] + ops[4..]);
    WidthsConcat(d, [ops[3]], ops[4..]);
    forall op { OneOperator(d, op); }
    if d.geometry.architecture.Qwen3? {
      assert ops[4..] == [ops[4]];
    } else {
      assert ops[4..] == [];
    }
  }

  lemma {:induction false} AttentionUses(d: Descriptor, layer: nat, scale: Float)
    requires WidthsFit(d.geometry)
    ensures var g := d.geometry;
            && WidthsOfAll(d, Attention(d, layer, scale)) == {g.hidden, g.heads * g.headDim, g.kvHeads * g.headDim}
            && WeightsOfAll(Attention(d, layer, scale)) ==
                 {LayerName(layer, AttnOutput)} + FactorNames(d)
  {
    var ops := Attention(d, layer, scale);
    assert ops == [ops[0]] + ([ops[1]] + ([ops[2]] + [ops[3]]));
    WidthsConcat(d, [ops[0]], [ops[1]] + ([ops[2]] + [ops[3]]));
    WidthsConcat(d, [ops[1]], [ops[2]] + [ops[3]]);
    WidthsConcat(d, [ops[2]], [ops[3]]);
    forall op { OneOperator(d, op); }
  }

  lemma {:induction false} FeedForwardUses(d: Descriptor, layer: nat)
    ensures WidthsOfAll(d, FeedForward(d, layer)) == {d.geometry.hidden, d.geometry.ffn}
    ensures WeightsOfAll(FeedForward(d, layer)) ==
              {LayerName(layer, FfnNorm), LayerName(layer, FfnGate), LayerName(layer, FfnUp), LayerName(layer, FfnDown)}
  {
    var ops := FeedForward(d, layer);
    assert ops == [ops[0]] + ([ops[1]] + ([ops[2]] + ([ops[3]] + ([ops[4]] + [ops[5]]))));
    WidthsConcat(d, [ops[0]], [ops[1]] + ([ops[2]] + ([ops[3]] + ([ops[4]] + [ops[5]]))));
    WidthsConcat(d, [ops[1]], [ops[2]] + ([ops[3]] + ([ops[4]] + [ops[5]])));
    WidthsConcat(d, [ops[2]], [ops[3]] + ([ops[4]] + [ops[5]]));
    WidthsConcat(d, [ops[3]], [ops[4]] + [ops[5]]);
    WidthsConcat(d, [ops[4]], [ops[5]]);
    forall op { OneOperator(d, op); }
  }

  lemma {:induction false} LayerUses(d: Descriptor, layer: nat, scale: Float)
    requires WidthsFit(d.geometry)
    ensures WidthsOfAll(d, LayerPlan(d, layer, scale)) == LayerWidths(d.geometry)
    ensures WeightsOfAll(LayerPlan(d, layer, scale)) == RoleNames(d, layer) + FactorNames(d)
  {
    ProjectionsUse(d, layer);
    AttentionUses(d, layer, scale);
    FeedForwardUses(d, layer);
    ThreeParts(d, Projections(d, layer), Attention(d, layer, scale), FeedForward(d, layer));
  }

  lemma ThreeParts(d: Descriptor, a: seq<Operator>, b: seq<Operator>, c: seq<Operator>)
    ensures WidthsOfAll(d, a + b + c) == WidthsOfAll(d, a) + WidthsOfAll(d, b) + WidthsOfAll(d, c)
    ensures WeightsOfAll(a + b + c) == WeightsOfAll(a) + WeightsOfAll(b) + WeightsOfAll(c)
  {
    WidthsConcat(d, a, b);
    WidthsConcat(d, a + b, c);
  }

  /** The plans of the layers, in order. */
  predicate LayersInOrder(d: Descriptor, scale: Float, layers: seq<seq<Operator>>)
    requires WidthsFit(d.geometry)
  {
    forall i :: 0 <= i < |layers| ==> layers[i] == LayerPlan(d, i, scale)
  }

  /** Over any number of layers. */
  lemma LayersUse(d: Descriptor, scale: Float, layers: seq<seq<Operator>>)
    requires WidthsFit(d.geometry) && LayersInOrder(d, scale, layers)
    ensures WidthsOfAll(d, Flatten(layers)) == if layers == [] then {} else LayerWidths(d.geometry)
    ensures WeightsOfAll(Flatten(layers)) == AllRoleNames(d, |layers|) + if layers == [] then {} else FactorNames(d)
  {
    LayersWidths(d, scale, layers);
    LayersWeights(d, scale, layers);
  }

  lemma {:induction false} LayersWidths(d: Descriptor, scale: Float, layers: seq<seq<Operator>>)
    requires WidthsFit(d.geometry) && LayersInOrder(d, scale, layers)
    ensures WidthsOfAll(d, Flatten(layers)) == if layers == [] then {} else LayerWidths(d.geometry)
    decreases |layers|
  {
    if layers != [] {
      var before := FirstLayers(d, scale, layers);
      LayersWidths(d, scale, before);
      OneMoreLayer(d, scale, before);
    }
  }

  lemma {:induction false} LayersWeights(d: Descriptor, scale: Float, layers: seq<seq<Operator>>)
    requires WidthsFit(d.geometry) && LayersInOrder(d, scale, layers)
    ensures WeightsOfAll(Flatten(layers)) == AllRoleNames(d, |layers|) + if layers == [] then {} else FactorNames(d)
    decreases |layers|
  {
    if layers != [] {
      var before := FirstLayers(d, scale, layers);
      LayersWeights(d, scale, before);
      OneMoreLayer(d, scale, before);
      RepeatedUse(AllRoleNames(d, |before|), RoleNames(d, |before|), FactorNames(d), before == []);
    }
  }

  /** All layers but the last. */
  lemma FirstLayers(d: Descriptor, scale: Float, layers: seq<seq<Operator>>) returns (before: seq<seq<Operator>>)
    requires WidthsFit(d.geometry) && LayersInOrder(d, scale, layers) && layers != []
    ensures LayersInOrder(d, scale, before) && |before| == |layers| - 1
    ensures layers == before + [LayerPlan(d, |before|, scale)]
  {
    before := layers[..|layers| - 1];
  }

  /** What every layer uses is used once more by the next. */
  lemma RepeatedUse(before: set<string>, names: set<string>, shared: set<string>, first: bool)
    ensures before + (if first then {} else shared) + names + shared == before + names + shared
  {
  }

  lemma {:induction false} OneMoreLayer(d: Descriptor, scale: Float, before: seq<seq<Operator>>)
    requires WidthsFit(d.geometry)
    ensures var layers := before + [LayerPlan(d, |before|, scale)];
            && WidthsOfAll(d, Flatten(layers)) == WidthsOfAll(d, Flatten(before)) + LayerWidths(d.geometry)
            && WeightsOfAll(Flatten(layers)) == WeightsOfAll(Flatten(before)) + RoleNames(d, |before|) + FactorNames(d)
  {
    var last := LayerPlan(d, |before|, scale);
    FlattenSnoc(before, last);
    WidthsConcat(d, Flatten(before), last);
    LayerUses(d, |before|, scale);
  }

  lemma {:induction false} FinalUses(d: Descriptor)
    ensures WidthsOfAll(d, FinalPlan(d)) == {d.geometry.hidden, d.vocab}
    ensures WeightsOfAll(FinalPlan(d)) == {"output_norm.weight", d.outputHead}
  {
    var ops := FinalPlan(d);
    assert ops == [ops[0]] + [ops[1]];
    WidthsConcat(d, [ops[0]], [ops[1]]);
    OneOperator(d, ops[0]);
    OneOperator(d, ops[1]);
  }

  /** The sizes a machine must address: every width the plan works on, in bytes. */
  predicate FitsMachine(d: Descriptor) {
    d.vocab > 0 && AllAddressable(LayerWidths(d.geometry) + {d.geometry.hidden, d.vocab})
  }

  /** Main result: the plan of an accepted manifest passes the checker, operator by
      operator and whatever the number of layers, exactly when its vocabulary is not
      empty, its activations fit the machine, and the bytes of every weight it names
      lie in the file. No type error is left to find. */
  lemma {:induction false} AcceptedPlansPass(m: Manifest, d: Descriptor, scale: Float, plan: Plan)
    requires Describes(m, d) && CompiledFrom(plan, d, scale) && Positive(scale)
    ensures FirstError(d, m, AllOperators(plan)) == None <==> FitsMachine(d) && AllInFile(m, PlanWeights(plan))
  {
    var g := d.geometry;
    var ops := AllOperators(plan);
    PlanIsTyped(m, d, scale, plan);
    FirstErrorIsNone(d, m, ops);
    forall i | 0 <= i < |ops| ensures CheckOperator(d, m, ops[i]).Ok? <==> Placed(d, m, ops[i]) {
      TypedPasses(d, m, ops[i]);
    }
    PlacedByUse(d, m, ops);
    LayersUse(d, scale, plan.layers);
    FinalUses(d);
    WidthsConcat(d, Flatten(plan.layers), FinalPlan(d));
    assert Sound(g);
    ProductPositive(g.heads, g.headDim);
    ProductPositive(g.kvHeads, g.headDim);
    assert d.vocab in {g.hidden, d.vocab};
  }

  /** The final node yields one score for each token of the vocabulary. */
  lemma {:induction false} LastNodeIsVocabulary(m: Manifest, d: Descriptor, scale: Float, plan: Plan)
    requires Describes(m, d) && CompiledFrom(plan, d, scale) && Positive(scale)
    requires AllPass(d, m, AllOperators(plan))
    ensures var nodes := NodesOf(d, m, AllOperators(plan));
            nodes != [] && nodes[|nodes| - 1].output.dimensions == [1, d.vocab]
  {
    var ops := AllOperators(plan);
    var last := ops[|ops| - 1];
    assert last == Linear(d.outputHead, d.geometry.hidden, d.vocab);
    NeedIsMet(m, d, ModelNeeds(d.geometry, d.vocab, d.outputHead, d.ropeFactors)[2]);
    LinearPasses(m, d.outputHead, d.geometry.hidden, d.vocab);
    assert CheckOperator(d, m, last).Ok?;
  }

  function NamesOf(needs: seq<Need>): set<string> {
    if needs == [] then {} else {needs[0].name} + NamesOf(needs[1..])
  }

  lemma {:induction false} NamesConcat(a: seq<Need>, b: seq<Need>)
    ensures NamesOf(a + b) == NamesOf(a) + NamesOf(b)
  {
    if a == [] {
      assert a + b == b;
    } else {
      assert (a + b)[1..] == a[1..] + b;
      NamesConcat(a[1..], b);
    }
  }

  lemma {:induction false} NamesAre(needs: seq<Need>, name: string)
    ensures name in NamesOf(needs) <==> exists i :: 0 <= i < |needs| && needs[i].name == name
  {
    if needs != [] {
      NamesAre(needs[1..], name);
      assert forall i :: 0 < i < |needs| ==> needs[i] == needs[1..][i - 1];
      assert forall i :: 0 <= i < |needs[1..]| ==> needs[1..][i] == needs[i + 1];
    }
  }

  lemma {:induction false} OneName(a: Need)
    ensures NamesOf([a]) == {a.name}
  {
    assert [a][1..] == [];
  }

  lemma {:induction false} TwoNames(a: Need, b: Need)
    ensures NamesOf([a, b]) == {a.name, b.name}
  {
    OneName(a);
    OneName(b);
    NamesConcat([a], [b]);
    assert [a, b] == [a] + [b];
  }

  lemma {:induction false} ThreeNames(a: Need, b: Need, c: Need)
    ensures NamesOf([a, b, c]) == {a.name, b.name, c.name}
  {
    OneName(a);
    TwoNames(b, c);
    NamesConcat([a], [b, c]);
    assert [a, b, c] == [a] + [b, c];
  }

  lemma {:induction false} LayerNeedNames(d: Descriptor, q: u64, kv: u64, layer: nat)
    ensures NamesOf(LayerNeeds(d.geometry, q, kv, layer)) == RoleNames(d, layer)
  {
    var needs := LayerNeeds(d.geometry, q, kv, layer);
    NineNames(needs);
    if d.geometry.architecture.Qwen3? {
      assert needs[9..] == [needs[9], needs[10]];
      TwoNames(needs[9], needs[10]);
    } else {
      assert needs[9..] == [];
    }
  }

  lemma {:induction false} NineNames(needs: seq<Need>)
    requires |needs| >= 9
    ensures NamesOf(needs) ==
              {needs[0].name, needs[1].name, needs[2].name, needs[3].name, needs[4].name, needs[5].name,
               needs[6].name, needs[7].name, needs[8].name} + NamesOf(needs[9..])
  {
    var a, b, c, rest := needs[..3], needs[3..6], needs[6..9], needs[9..];
    assert needs == a + (b + (c + rest));
    NamesConcat(a, b + (c + rest));
    NamesConcat(b, c + rest);
    NamesConcat(c, rest);
    assert a == [needs[0], needs[1], needs[2]] && b == [needs[3], needs[4], needs[5]] && c == [needs[6], needs[7], needs[8]];
    ThreeNames(needs[0], needs[1], needs[2]);
    ThreeNames(needs[3], needs[4], needs[5]);
    ThreeNames(needs[6], needs[7], needs[8]);
  }

  lemma {:induction false} AllLayerNeedNames(d: Descriptor, q: u64, kv: u64, layers: nat)
    ensures NamesOf(AllLayerNeeds(d.geometry, q, kv, layers)) == AllRoleNames(d, layers)
  {
    if layers > 0 {
      AllLayerNeedNames(d, q, kv, layers - 1);
      LayerNeedNames(d, q, kv, layers - 1);
      NamesConcat(AllLayerNeeds(d.geometry, q, kv, layers - 1), LayerNeeds(d.geometry, q, kv, layers - 1));
    }
  }

  lemma {:induction false} ModelNeedNames(d: Descriptor)
    ensures NamesOf(ModelNeeds(d.geometry, d.vocab, d.outputHead, d.ropeFactors)) ==
              {"token_embd.weight", "output_norm.weight", d.outputHead} + FactorNames(d)
  {
    var needs := ModelNeeds(d.geometry, d.vocab, d.outputHead, d.ropeFactors);
    assert needs == [needs[0]] + ([needs[1]] + ([needs[2]] + needs[3..]));
    NamesConcat([needs[0]], [needs[1]] + ([needs[2]] + needs[3..]));
    NamesConcat([needs[1]], [needs[2]] + needs[3..]);
    NamesConcat([needs[2]], needs[3..]);
    assert forall n: Need :: NamesOf([n]) == {n.name} by {
      assert forall n: Need :: [n][1..] == [];
    }
    if d.ropeFactors.Some? {
      assert needs[3..] == [needs[3]];
    } else {
      assert needs[3..] == [];
    }
  }

  lemma {:induction false} LookupFinds(tensors: seq<Tensor>, name: string)
    ensures Lookup(tensors, name).Some? <==> exists i :: 0 <= i < |tensors| && tensors[i].name == name
  {
    if tensors != [] {
      LookupFinds(tensors[1..], name);
      assert forall i :: 0 < i < |tensors| ==> tensors[i] == tensors[1..][i - 1];
      assert forall i :: 0 <= i < |tensors[1..]| ==> tensors[1..][i] == tensors[i + 1];
    }
  }

  predicate HasTensor(m: Manifest, name: string) {
    exists i :: 0 <= i < |m.tensors| && m.tensors[i].name == name
  }

  lemma {:induction false} NeedsArePlanWeights(d: Descriptor, q: u64, kv: u64, scale: Float, plan: Plan)
    requires CompiledFrom(plan, d, scale) && d.geometry.layers > 0
    ensures NamesOf(ModelNeeds(d.geometry, d.vocab, d.outputHead, d.ropeFactors) + AllLayerNeeds(d.geometry, q, kv, d.geometry.layers)) ==
              PlanWeights(plan) + {"token_embd.weight"}
  {
    LayersUse(d, scale, plan.layers);
    FinalUses(d);
    WidthsConcat(d, Flatten(plan.layers), FinalPlan(d));
    ModelNeedNames(d);
    AllLayerNeedNames(d, q, kv, d.geometry.layers);
    NamesConcat(ModelNeeds(d.geometry, d.vocab, d.outputHead, d.ropeFactors), AllLayerNeeds(d.geometry, q, kv, d.geometry.layers));
  }

  /** The weights a plan names, and the embedding, are exactly the tensors of the
      manifest: none is missing and none is left over. */
  lemma {:induction false} PlanNamesAllTensors(m: Manifest, d: Descriptor, scale: Float, plan: Plan)
    requires Describes(m, d) && CompiledFrom(plan, d, scale)
    ensures forall name :: name in PlanWeights(plan) + {"token_embd.weight"} <==> HasTensor(m, name)
  {
    var g := d.geometry;
    var q, kv := CheckedMul(g.heads, g.headDim).value, CheckedMul(g.kvHeads, g.headDim).value;
    var needs := Needs(m, g, d.vocab, q, kv);
    NeedsArePlanWeights(d, q, kv, scale, plan);
    forall name ensures name in NamesOf(needs) <==> HasTensor(m, name) {
      NeedNamesAreTensors(m, d, needs, name);
    }
  }

  lemma {:induction false} NeedNamesAreTensors(m: Manifest, d: Descriptor, needs: seq<Need>, name: string)
    requires Binds(m, needs, d.bindings) && forall t :: t in m.tensors ==> Planned(needs, t)
    ensures name in NamesOf(needs) <==> HasTensor(m, name)
  {
    NamesAre(needs, name);
    LookupFinds(m.tensors, name);
    if i :| 0 <= i < |m.tensors| && m.tensors[i].name == name {
      assert m.tensors[i] in m.tensors;
    }
  }

  /** Inspection of a model file, end to end: validate, compile, check. An accepted
      manifest can only be found unsupported for its sizes or its extents, which a
      caller can check beforehand; `scaleOf` is the f32 attention scale. */
  method Inspect(m: Manifest, scaleOf: u64 -> Float) returns (descriptor: Option<Descriptor>, supported: bool)
    requires forall n: u64 :: n > 0 ==> Positive(scaleOf(n))
    ensures descriptor.Some? <==> Refusals(m) == {}
    ensures descriptor == None ==> !supported
    ensures descriptor.Some? ==>
              && Describes(m, descriptor.value)
              && (supported <==>
                    && FitsMachine(descriptor.value)
                    && forall name :: HasTensor(m, name) && (name != "token_embd.weight" || descriptor.value.outputHead == name) ==>
                         InFile(m, name))
  {
    var validated := FromManifest(m);
    if validated.Err? {
      return None, false;
    }
    var d := validated.value;
    var scale := scaleOf(d.geometry.headDim);
    var plan := Compile(d, scale);
    var checked := CheckedOperators(plan, m);
    AcceptedPlansPass(m, d, scale, plan);
    PlanNamesAllTensors(m, d, scale, plan);
    EmbeddingIsNamedIfTied(d, scale, plan);
    return Some(d), checked.Ok?;
  }

  /** The plan names the embedding exactly when the output head is tied to it,
      provided no layer tensor or factor table goes by that name. */
  lemma {:induction false} EmbeddingIsNamedIfTied(d: Descriptor, scale: Float, plan: Plan)
    requires CompiledFrom(plan, d, scale) && d.geometry.layers > 0
    requires d.ropeFactors.Some? ==> d.ropeFactors.value == "rope_freqs.weight"
    ensures "token_embd.weight" in PlanWeights(plan) <==> d.outputHead == "token_embd.weight"
  {
    LayersUse(d, scale, plan.layers);
    FinalUses(d);
    WidthsConcat(d, Flatten(plan.layers), FinalPlan(d));
    EmbeddingIsNoLayer(d, d.geometry.layers);
    assert "token_embd.weight"[0] == 't' && "rope_freqs.weight"[0] == 'r' && "output_norm.weight"[0] == 'o';
  }

  lemma {:induction false} LayerNameDiffers(layer: nat, role: Role)
    ensures LayerName(layer, role) != "token_embd.weight"
  {
    var rest := Decimal(layer) + "." + Stem(role) + ".weight";
    assert LayerName(layer, role) == "blk." + rest;
    assert LayerName(layer, role)[0] == 'b';
  }

  lemma {:induction false} EmbeddingIsNoRole(d: Descriptor, layer: nat)
    ensures "token_embd.weight" !in RoleNames(d, layer)
  {
    LayerNameDiffers(layer, AttnNorm);
    LayerNameDiffers(layer, AttnQ);
    LayerNameDiffers(layer, AttnK);
    LayerNameDiffers(layer, AttnV);
    LayerNameDiffers(layer, AttnOutput);
    LayerNameDiffers(layer, FfnNorm);
    LayerNameDiffers(layer, FfnGate);
    LayerNameDiffers(layer, FfnUp);
    LayerNameDiffers(layer, FfnDown);
    LayerNameDiffers(layer, AttnQNorm);
    LayerNameDiffers(layer, AttnKNorm);
  }

  lemma {:induction false} EmbeddingIsNoLayer(d: Descriptor, layers: nat)
    ensures "token_embd.weight" !in AllRoleNames(d, layers)
  {
    if layers > 0 {
      EmbeddingIsNoLayer(d, layers - 1);
      EmbeddingIsNoRole(d, layers - 1);
    }
  }
}
