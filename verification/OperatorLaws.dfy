/** What the operator checker admits, contract by contract, and the nodes a plan is
    checked into. */
module OperatorLaws {
  import opened Prelude
  import opened Operators
  import opened ModelDescriptor
  import opened ExecutionPlan
  import opened Admission

  // --- One operator -------------------------------------------------------

  predicate AllF32(inputs: seq<TensorView>) {
    forall t :: t in inputs ==> t.ggmlType == 0
  }

  /** What a contract takes, and what it then gives. */
  ghost predicate Takes(c: OperatorContract, inputs: seq<TensorView>, out: OutputContract) {
    match c
    case Norm(_, epsilon, _, bias) => TakesNorm(epsilon, bias, inputs, out)
    case LinearOp(bias) => TakesLinear(bias, inputs, out)
    case HeadNorm(heads, headDim, epsilon) =>
      && |inputs| == 2 && AllF32(inputs) && epsilon.Finite? && epsilon.value > 0.0 && heads > 0 && headDim > 0
      && (exists rows :: inputs[0].dimensions == [rows, heads, headDim])
      && inputs[1].dimensions == [headDim] && out == OutputContract(inputs[0].dimensions, NoEffects)
    case RelativeRopeAttention(_, _, _, _, _, _, _, _, _) => TakesAttention(c, inputs, out)
    case GateMultiply(_) => TakesPair(inputs, out)
    case ResidualAddOp => TakesPair(inputs, out)
    case CacheWriteOp(start, count, capacity) =>
      && |inputs| == 2 && AllF32(inputs) && inputs[1].dimensions == inputs[0].dimensions
      && count > 0 && |inputs[0].dimensions| == 3 && inputs[0].dimensions[0] == count && start + count <= capacity
      && out == OutputContract(inputs[0].dimensions, WriteDenseKv(start, count))
    case UnsupportedContract(_) => false
  }

  predicate TakesNorm(epsilon: Float, bias: bool, inputs: seq<TensorView>, out: OutputContract) {
    && |inputs| == (if bias then 3 else 2) && AllF32(inputs) && epsilon.Finite? && epsilon.value > 0.0
    && inputs[0].dimensions != []
    && (forall i :: 1 <= i < |inputs| ==> inputs[i].dimensions == [inputs[0].dimensions[|inputs[0].dimensions| - 1]])
    && out == OutputContract(inputs[0].dimensions, NoEffects)
  }

  /** The only input that need not be f32 is the weight. */
  predicate TakesLinear(bias: bool, inputs: seq<TensorView>, out: OutputContract) {
    && |inputs| == (if bias then 3 else 2)
    && |inputs[0].dimensions| == 2 && |inputs[1].dimensions| == 2 && inputs[0].ggmlType == 0
    && inputs[0].dimensions[1] == inputs[1].dimensions[0] && inputs[1].ggmlType in {0, 1, 2, 6, 8, 12, 13, 14}
    && (bias ==> inputs[2].ggmlType == 0 && inputs[2].dimensions == [inputs[1].dimensions[1]])
    && out == OutputContract([inputs[0].dimensions[0], inputs[1].dimensions[1]], NoEffects)
  }

  /** Query rows follow the cached positions, heads are shared evenly, and an even
      part of each head is rotated. */
  ghost predicate TakesAttention(c: OperatorContract, inputs: seq<TensorView>, out: OutputContract)
    requires c.RelativeRopeAttention?
  {
    && |inputs| == 3 && AllF32(inputs)
    && c.base.Finite? && c.base.value > 0.0 && c.scale.Finite? && c.scale.value > 0.0
    && (c.softcap.Some? ==> c.softcap.value.Finite? && c.softcap.value.value > 0.0)
    && c.kvHeads > 0 && c.queryHeads > 0 && c.headDim > 0 && c.queryHeads % c.kvHeads == 0
    && 0 < c.ropeDim <= c.headDim && c.ropeDim % 2 == 0
    && exists batch: u64, positions: u64 ::
         && inputs[0].dimensions == [batch, c.queryHeads, c.headDim]
         && inputs[1].dimensions == [positions, c.kvHeads, c.headDim] == inputs[2].dimensions
         && c.queryStart + batch == positions
         && out == OutputContract([batch, c.queryHeads, c.headDim], ReadDenseKv(positions))
  }

  predicate TakesPair(inputs: seq<TensorView>, out: OutputContract) {
    && |inputs| == 2 && AllF32(inputs) && inputs[1].dimensions == inputs[0].dimensions
    && out == OutputContract(inputs[0].dimensions, NoEffects)
  }

  /** What the existing kernels are certified for. */
  predicate Certified(c: OperatorContract) {
    && (c.Norm? ==> c.kind == Rms && c.affine == WeightScale)
    && (c.GateMultiply? ==> c.activation == Silu)
    && (c.RelativeRopeAttention? ==> c.softcap == None)
  }

  lemma NormTakes(c: OperatorContract, inputs: seq<TensorView>, out: OutputContract)
    requires c.Norm?
    ensures InferNorm(c, inputs) == Ok(out) <==> TakesNorm(c.epsilon, c.bias, inputs, out)
  {
    if |inputs| >= 2 {
      assert inputs[0] in inputs && inputs[1] in inputs;
      assert |inputs| == 3 ==> inputs[2] in inputs;
    }
  }

  lemma LinearTakes(c: OperatorContract, inputs: seq<TensorView>, out: OutputContract)
    requires c.LinearOp?
    ensures InferLinear(c, inputs) == Ok(out) <==> TakesLinear(c.bias, inputs, out)
  {
  }

  lemma HeadTakes(c: OperatorContract, inputs: seq<TensorView>, out: OutputContract)
    requires c.HeadNorm?
    ensures InferHeadNorm(c, inputs) == Ok(out) <==> Takes(c, inputs, out)
  {
    if |inputs| == 2 {
      assert inputs[0] in inputs && inputs[1] in inputs;
      var x := inputs[0].dimensions;
      assert |x| == 3 ==> (x[1..] == [c.heads, c.headDim] <==> x == [x[0], c.heads, c.headDim]);
    }
  }

  lemma AttentionTakes(c: OperatorContract, inputs: seq<TensorView>, out: OutputContract)
    requires c.RelativeRopeAttention?
    ensures InferAttention(c, inputs) == Ok(out) <==> TakesAttention(c, inputs, out)
  {
    if |inputs| == 3 {
      assert inputs[0] in inputs && inputs[1] in inputs && inputs[2] in inputs;
    }
  }

  lemma PairTakes(inputs: seq<TensorView>, out: OutputContract)
    ensures InferPointwise(inputs) == Ok(out) <==> TakesPair(inputs, out)
  {
    if |inputs| == 2 {
      assert inputs[0] in inputs && inputs[1] in inputs;
    }
  }

  lemma CacheTakes(c: OperatorContract, inputs: seq<TensorView>, out: OutputContract)
    requires c.CacheWriteOp?
    ensures InferCacheWrite(c, inputs) == Ok(out) <==> Takes(c, inputs, out)
  {
    if |inputs| == 2 {
      assert inputs[0] in inputs && inputs[1] in inputs;
    }
  }

  lemma InferTakes(c: OperatorContract, inputs: seq<TensorView>, out: OutputContract)
    ensures InferShapes(c, inputs) == Ok(out) <==> Takes(c, inputs, out)
  {
    match c
    case Norm(_, _, _, _) => NormTakes(c, inputs, out);
    case LinearOp(_) => LinearTakes(c, inputs, out);
    case HeadNorm(_, _, _) => HeadTakes(c, inputs, out);
    case RelativeRopeAttention(_, _, _, _, _, _, _, _, _) => AttentionTakes(c, inputs, out);
    case GateMultiply(_) => PairTakes(inputs, out);
    case ResidualAddOp => PairTakes(inputs, out);
    case CacheWriteOp(_, _, _) => CacheTakes(c, inputs, out);
    case UnsupportedContract(_) =>
  }

  /** An operator is admitted exactly when it is certified, takes its inputs, and is
      given an f32 output of the shape it gives. */
  lemma AdmitsOperators(c: OperatorContract, inputs: seq<TensorView>, output: TensorView, node: ValidatedOperator)
    ensures ValidateLegacy(c, inputs, output) == Ok(node) <==>
      && Certified(c) && Takes(c, inputs, node.output)
      && output.ggmlType == 0 && output.dimensions == node.output.dimensions && node.contract == c
  {
    InferTakes(c, inputs, node.output);
    if InferShapes(c, inputs).Ok? {
      InferTakes(c, inputs, InferShapes(c, inputs).value);
    }
  }

  // --- The nodes of a plan ------------------------------------------------

  function Contracts(nodes: seq<ValidatedOperator>): seq<OperatorContract> {
    if nodes == [] then [] else [nodes[0].contract] + Contracts(nodes[1..])
  }

  /** The contracts of one layer, in order. */
  function LayerContracts(g: Geometry, scale: Float): seq<OperatorContract> {
    var norm, linear := Norm(Rms, g.rmsEpsilon, WeightScale, false), LinearOp(false);
    var pairing := match g.architecture case Llama => Adjacent case Qwen3 => SplitHalf;
    var attention := RelativeRopeAttention(
      g.heads, g.kvHeads, g.headDim, g.ropeDimensions, g.ropeBase, pairing, scale, None, 0);
    var heads := match g.architecture
      case Llama => []
      case Qwen3 => [HeadNorm(g.heads, g.headDim, g.rmsEpsilon), HeadNorm(g.kvHeads, g.headDim, g.rmsEpsilon)];
    [norm, linear, linear, linear] + heads +
    [CacheWriteOp(0, 1, g.context), attention, linear, ResidualAddOp] +
    [norm, linear, linear, GateMultiply(Silu), linear, ResidualAddOp]
  }

  function RepeatContracts(layer: seq<OperatorContract>, n: nat): seq<OperatorContract> {
    if n == 0 then [] else RepeatContracts(layer, n - 1) + layer
  }

  lemma {:induction false} ContractsConcat(a: seq<ValidatedOperator>, b: seq<ValidatedOperator>)
    ensures Contracts(a + b) == Contracts(a) + Contracts(b)
  {
    if a == [] {
      assert a + b == b;
    } else {
      assert (a + b)[1..] == a[1..] + b;
      ContractsConcat(a[1..], b);
    }
  }

  /** The contracts an operator of the plan is checked against. */
  function Checks(d: Descriptor, op: Operator): seq<OperatorContract> {
    var g := d.geometry;
    match op
    case RmsNorm(_, epsilon) => [Norm(Rms, epsilon, WeightScale, false)]
    case Linear(_, _, _) => [LinearOp(false)]
    case HeadRmsNorm(_, _, headDim, epsilon) => [HeadNorm(g.heads, headDim, epsilon), HeadNorm(g.kvHeads, headDim, epsilon)]
    case CacheWrite => [CacheWriteOp(0, 1, g.context)]
    case RelativeRopeCausalAttention(layout, ropeDimensions, ropeBase, _, queryHeads, kvHeads, headDim, scale) =>
      [RelativeRopeAttention(queryHeads, kvHeads, headDim, ropeDimensions, ropeBase,
                             match layout { case AdjacentPairs => Adjacent case SplitHalves => SplitHalf }, scale, None, 0)]
    case ResidualAdd => [ResidualAddOp]
    case SiluGateMultiply => [GateMultiply(Silu)]
  }

  function ChecksAll(d: Descriptor, ops: seq<Operator>): seq<OperatorContract> {
    if ops == [] then [] else ChecksAll(d, ops[..|ops| - 1]) + Checks(d, ops[|ops| - 1])
  }

  lemma OneContract(node: ValidatedOperator)
    ensures Contracts([node]) == [node.contract]
  {
    assert [node][1..] == [];
  }

  lemma ValidatedIs(c: OperatorContract, inputs: seq<TensorView>, output: TensorView)
    requires Validate(c, inputs, output).Ok?
    ensures Contracts(Validate(c, inputs, output).value) == [c]
  {
    OneContract(ValidateLegacy(c, inputs, output).value);
    assert ValidateLegacy(c, inputs, output).value.contract == c;
  }

  lemma HeadsAre(m: Manifest, w: string, heads: u64, headDim: u64, epsilon: Float)
    requires CheckHeads(m, w, heads, headDim, epsilon).Ok?
    ensures Contracts(CheckHeads(m, w, heads, headDim, epsilon).value) == [HeadNorm(heads, headDim, epsilon)]
  {
    var x := ActivationView("head activation", [1, heads, headDim]).value;
    ValidatedIs(HeadNorm(heads, headDim, epsilon), [x, WeightOf(m, w).value], x);
  }

  lemma NormsAre(d: Descriptor, m: Manifest, w: string, epsilon: Float)
    requires CheckNorm(d, m, w, epsilon).Ok?
    ensures Contracts(CheckNorm(d, m, w, epsilon).value) == [Norm(Rms, epsilon, WeightScale, false)]
  {
    var x := ActivationView("activation", [1, d.geometry.hidden]).value;
    var y := ActivationView("normalized", [1, d.geometry.hidden]).value;
    ValidatedIs(Norm(Rms, epsilon, WeightScale, false), [x, WeightOf(m, w).value], y);
  }

  lemma LinearsAre(m: Manifest, w: string, input: u64, output: u64)
    requires CheckLinear(m, w, input, output).Ok?
    ensures Contracts(CheckLinear(m, w, input, output).value) == [LinearOp(false)]
  {
    var x := ActivationView("activation", [1, input]).value;
    var y := ActivationView("projected", [1, output]).value;
    ValidatedIs(LinearOp(false), [x, WeightOf(m, w).value], y);
  }

  lemma PairsAre(name: string, dimensions: seq<u64>, c: OperatorContract)
    requires CheckPair(name, dimensions, c).Ok?
    ensures Contracts(CheckPair(name, dimensions, c).value) == [c]
  {
    var x := ActivationView(name, dimensions).value;
    ValidatedIs(c, [x, x], x);
  }

  lemma AttentionIs(d: Descriptor, m: Manifest, op: Operator)
    requires op.RelativeRopeCausalAttention? && CheckAttention(d, m, op).Ok?
    ensures Contracts(CheckAttention(d, m, op).value) == Checks(d, op)
  {
    var q := ActivationView("Q", [1, op.queryHeads, op.headDim]).value;
    var k := ActivationView("K", [1, op.kvHeads, op.headDim]).value;
    ValidatedIs(Checks(d, op)[0], [q, k, k], q);
  }

  lemma CheckedIs(d: Descriptor, m: Manifest, op: Operator)
    requires CheckOperator(d, m, op).Ok?
    ensures Contracts(CheckOperator(d, m, op).value) == Checks(d, op)
  {
    var g := d.geometry;
    match op
    case RmsNorm(w, epsilon) => NormsAre(d, m, w, epsilon);
    case Linear(w, input, output) => LinearsAre(m, w, input, output);
    case HeadRmsNorm(qw, kw, headDim, epsilon) =>
      HeadsAre(m, qw, g.heads, headDim, epsilon);
      HeadsAre(m, kw, g.kvHeads, headDim, epsilon);
      ContractsConcat(CheckHeads(m, qw, g.heads, headDim, epsilon).value, CheckHeads(m, kw, g.kvHeads, headDim, epsilon).value);
    case RelativeRopeCausalAttention(_, _, _, _, _, _, _, _) => AttentionIs(d, m, op);
    case CacheWrite => PairsAre("KV", [1, g.kvHeads, g.headDim], CacheWriteOp(0, 1, g.context));
    case ResidualAdd => PairsAre("residual", [1, g.hidden], ResidualAddOp);
    case SiluGateMultiply => PairsAre("FFN", [1, g.ffn], GateMultiply(Silu));
  }

  lemma {:induction false} NodesAre(d: Descriptor, m: Manifest, ops: seq<Operator>)
    requires AllPass(d, m, ops)
    ensures Contracts(NodesOf(d, m, ops)) == ChecksAll(d, ops)
  {
    if ops != [] {
      var init, op := ops[..|ops| - 1], ops[|ops| - 1];
      NodesAre(d, m, init);
      CheckedIs(d, m, op);
      ContractsConcat(NodesOf(d, m, init), CheckOperator(d, m, op).value);
    }
  }

  lemma {:induction false} ChecksConcat(d: Descriptor, a: seq<Operator>, b: seq<Operator>)
    ensures ChecksAll(d, a + b) == ChecksAll(d, a) + ChecksAll(d, b)
  {
    if b == [] {
      assert a + b == a;
    } else {
      assert (a + b)[..|a + b| - 1] == a + b[..|b| - 1];
      ChecksConcat(d, a, b[..|b| - 1]);
      AppendAssociates(ChecksAll(d, a), ChecksAll(d, b[..|b| - 1]), Checks(d, b[|b| - 1]));
    }
  }

  lemma ChecksSnoc(d: Descriptor, ops: seq<Operator>, op: Operator)
    ensures ChecksAll(d, ops + [op]) == ChecksAll(d, ops) + Checks(d, op)
  {
    assert (ops + [op])[..|ops|] == ops;
  }

  lemma ProjectionChecks(d: Descriptor, layer: nat)
    requires WidthsFit(d.geometry)
    ensures var g := d.geometry; var norm, linear := Norm(Rms, g.rmsEpsilon, WeightScale, false), LinearOp(false);
      ChecksAll(d, Projections(d, layer)) == [norm, linear, linear, linear] +
        match g.architecture
        case Llama => []
        case Qwen3 => [HeadNorm(g.heads, g.headDim, g.rmsEpsilon), HeadNorm(g.kvHeads, g.headDim, g.rmsEpsilon)]
  {
    var ops := Projections(d, layer);
    FourChecks(d, ops[0], ops[1], ops[2], ops[3]);
    if d.geometry.architecture.Qwen3? {
      assert ops == [ops[0], ops[1], ops[2], ops[3]] + [ops[4]];
      ChecksSnoc(d, [ops[0], ops[1], ops[2], ops[3]], ops[4]);
    } else {
      assert ops == [ops[0], ops[1], ops[2], ops[3]];
    }
  }

  lemma FourChecks(d: Descriptor, a: Operator, b: Operator, c: Operator, e: Operator)
    ensures ChecksAll(d, [a, b, c, e]) == Checks(d, a) + Checks(d, b) + Checks(d, c) + Checks(d, e)
  {
    assert [a, b, c, e] == [a, b, c] + [e] && [a, b, c] == [a, b] + [c] && [a, b] == [a] + [b] && [a] == [] + [a];
    ChecksSnoc(d, [a, b, c], e);
    ChecksSnoc(d, [a, b], c);
    ChecksSnoc(d, [a], b);
    ChecksSnoc(d, [], a);
    assert [] + Checks(d, a) == Checks(d, a);
  }

  lemma AttentionChecks(d: Descriptor, layer: nat, scale: Float)
    requires WidthsFit(d.geometry)
    ensures var g := d.geometry;
      ChecksAll(d, Attention(d, layer, scale)) ==
        [CacheWriteOp(0, 1, g.context),
         RelativeRopeAttention(g.heads, g.kvHeads, g.headDim, g.ropeDimensions, g.ropeBase,
                               match g.architecture { case Llama => Adjacent case Qwen3 => SplitHalf }, scale, None, 0),
         LinearOp(false), ResidualAddOp]
  {
    var ops := Attention(d, layer, scale);
    FourChecks(d, ops[0], ops[1], ops[2], ops[3]);
  }

  lemma FeedForwardChecks(d: Descriptor, layer: nat)
    ensures var linear := LinearOp(false);
      ChecksAll(d, FeedForward(d, layer)) ==
        [Norm(Rms, d.geometry.rmsEpsilon, WeightScale, false), linear, linear, GateMultiply(Silu), linear, ResidualAddOp]
  {
    var ops := FeedForward(d, layer);
    var first := [ops[0], ops[1], ops[2], ops[3]];
    FourChecks(d, ops[0], ops[1], ops[2], ops[3]);
    assert ops == (first + [ops[4]]) + [ops[5]];
    ChecksSnoc(d, first, ops[4]);
    ChecksSnoc(d, first + [ops[4]], ops[5]);
  }

  lemma LayerChecks(d: Descriptor, layer: nat, scale: Float)
    requires WidthsFit(d.geometry)
    ensures ChecksAll(d, LayerPlan(d, layer, scale)) == LayerContracts(d.geometry, scale)
  {
    ProjectionChecks(d, layer);
    AttentionChecks(d, layer, scale);
    FeedForwardChecks(d, layer);
    ChecksConcat(d, Projections(d, layer) + Attention(d, layer, scale), FeedForward(d, layer));
    ChecksConcat(d, Projections(d, layer), Attention(d, layer, scale));
  }

  lemma {:induction false} LayersCheck(d: Descriptor, scale: Float, layers: seq<seq<Operator>>)
    requires WidthsFit(d.geometry) && forall i :: 0 <= i < |layers| ==> layers[i] == LayerPlan(d, i, scale)
    ensures ChecksAll(d, Flatten(layers)) == RepeatContracts(LayerContracts(d.geometry, scale), |layers|)
    decreases |layers|
  {
    if layers != [] {
      var n := |layers| - 1;
      var before := layers[..n];
      assert layers == before + [layers[n]];
      FlattenSnoc(before, layers[n]);
      LayersCheck(d, scale, before);
      LayerChecks(d, n, scale);
      ChecksConcat(d, Flatten(before), layers[n]);
    }
  }

  /** The nodes of a checked plan are, for any number of layers, the contracts of a
      layer over and over and then those of the end: what the kernels are told of
      heads, rotation, scale, cache and precision. */
  lemma PlanNodesAre(m: Manifest, d: Descriptor, scale: Float, plan: Plan)
    requires CompiledFrom(plan, d, scale) && AllPass(d, m, AllOperators(plan))
    ensures Contracts(NodesOf(d, m, AllOperators(plan))) ==
      RepeatContracts(LayerContracts(d.geometry, scale), d.geometry.layers) +
      [Norm(Rms, d.geometry.rmsEpsilon, WeightScale, false), LinearOp(false)]
  {
    NodesAre(d, m, AllOperators(plan));
    ChecksConcat(d, Flatten(plan.layers), plan.finalOperators);
    LayersCheck(d, scale, plan.layers);
    FinalChecks(d);
  }

  lemma FinalChecks(d: Descriptor)
    ensures ChecksAll(d, FinalPlan(d)) == [Norm(Rms, d.geometry.rmsEpsilon, WeightScale, false), LinearOp(false)]
  {
    var ops := FinalPlan(d);
    assert ops == ([] + [ops[0]]) + [ops[1]];
    ChecksSnoc(d, [], ops[0]);
    ChecksSnoc(d, [] + [ops[0]], ops[1]);
  }
}
