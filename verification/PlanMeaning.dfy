/** What a compiled plan computes: run operator by operator, it is the transformer
    that the weights of a file make up by their names. */
module PlanMeaning {
  import opened Prelude
  import opened Operators
  import opened ModelDescriptor
  import opened ExecutionPlan

  /** The attention of a model, as its kernel is told. */
  datatype AttentionShape = AttentionShape(
    layout: RopeLayout, ropeDimensions: u64, ropeBase: Float, frequencyFactors: Option<string>,
    queryHeads: u64, kvHeads: u64, headDim: u64, scale: Float)

  /** The kernels, on activations `T` and the cache `C` of a layer; a weight is told
      by its tensor's name. */
  datatype Kernels<!T(==), !C(==)> = Kernels(
    norm: (string, Float, T) -> T,
    matmul: (string, u64, u64, T) -> T,
    headNorm: (string, u64, Float, T) -> T,
    store: (C, T, T) -> C,
    attend: (AttentionShape, T, C) -> T,
    add: (T, T) -> T,
    silu: T -> T,
    multiply: (T, T) -> T)

  // --- Running operators --------------------------------------------------

  /** The residual stream, what the next projection reads, the projections waiting
      for an operator that takes them, and the cache if the operators are a layer's. */
  datatype Machine<T, C> = Machine(stream: T, input: T, operands: seq<T>, cache: Option<C>)

  /** One operator; `None` if it does not find the operands it takes. */
  function Execute<T, C>(k: Kernels<T, C>, s: Machine<T, C>, op: Operator): Option<Machine<T, C>> {
    var o := s.operands;
    match op
    case RmsNorm(w, epsilon) => Some(s.(input := k.norm(w, epsilon, s.stream), operands := []))
    case Linear(w, input, output) => Some(s.(operands := o + [k.matmul(w, input, output, s.input)]))
    case HeadRmsNorm(qw, kw, headDim, epsilon) =>
      if |o| != 3 then None
      else Some(s.(operands := [k.headNorm(qw, headDim, epsilon, o[0]), k.headNorm(kw, headDim, epsilon, o[1]), o[2]]))
    case CacheWrite =>
      if |o| != 3 || s.cache == None then None else Some(s.(cache := Some(k.store(s.cache.value, o[1], o[2]))))
    case RelativeRopeCausalAttention(layout, ropeDimensions, ropeBase, factors, queryHeads, kvHeads, headDim, scale) =>
      if |o| != 3 || s.cache == None then None
      else
        var shape := AttentionShape(layout, ropeDimensions, ropeBase, factors, queryHeads, kvHeads, headDim, scale);
        Some(s.(input := k.attend(shape, o[0], s.cache.value), operands := []))
    case ResidualAdd => if |o| != 1 then None else Some(s.(stream := k.add(s.stream, o[0]), operands := []))
    case SiluGateMultiply =>
      if |o| != 2 then None else Some(s.(input := k.multiply(k.silu(o[0]), o[1]), operands := []))
  }

  function ExecuteAll<T, C>(k: Kernels<T, C>, s: Machine<T, C>, ops: seq<Operator>): Option<Machine<T, C>>
    decreases |ops|
  {
    if ops == [] then Some(s)
    else match Execute(k, s, ops[0])
      case None => None
      case Some(next) => ExecuteAll(k, next, ops[1..])
  }

  /** The layers one after another, each with its own cache and no operand left
      over; the stream and the caches at the end. */
  function ExecuteLayers<T, C>(k: Kernels<T, C>, x: T, layers: seq<seq<Operator>>, caches: seq<C>): Option<(T, seq<C>)>
    requires |caches| == |layers|
    decreases |layers|
  {
    if layers == [] then Some((x, []))
    else match ExecuteAll(k, Machine(x, x, [], Some(caches[0])), layers[0])
      case None => None
      case Some(s) =>
        if s.operands != [] || s.cache == None then None
        else match ExecuteLayers(k, s.stream, layers[1..], caches[1..])
          case None => None
          case Some((end, after)) => Some((end, [s.cache.value] + after))
  }

  /** A whole plan on an embedded token: the scores, and the caches afterwards. */
  function ExecutePlan<T, C>(k: Kernels<T, C>, plan: Plan, x: T, caches: seq<C>): Option<(T, seq<C>)>
    requires |caches| == |plan.layers|
  {
    match ExecuteLayers(k, x, plan.layers, caches)
    case None => None
    case Some((stream, after)) =>
      match ExecuteAll(k, Machine(stream, stream, [], None), plan.finalOperators)
      case None => None
      case Some(s) => if |s.operands| == 1 then Some((s.operands[0], after)) else None
  }

  // --- The transformer, written from its weights --------------------------

  /** The tensor names of one layer, by role. */
  datatype LayerWeights = LayerWeights(
    attnNorm: string, wq: string, wk: string, wv: string, wo: string, qNorm: string, kNorm: string,
    ffnNorm: string, gate: string, up: string, down: string)

  function WeightsOfLayer(layer: nat): LayerWeights {
    var blk := "blk." + Decimal(layer);
    LayerWeights(
      blk + ".attn_norm.weight", blk + ".attn_q.weight", blk + ".attn_k.weight", blk + ".attn_v.weight",
      blk + ".attn_output.weight", blk + ".attn_q_norm.weight", blk + ".attn_k_norm.weight",
      blk + ".ffn_norm.weight", blk + ".ffn_gate.weight", blk + ".ffn_up.weight", blk + ".ffn_down.weight")
  }

  function Rotation(architecture: Architecture): RopeLayout {
    match architecture case Llama => AdjacentPairs case Qwen3 => SplitHalves
  }

  /** Attention over the cached keys and values, these included, added to the stream. */
  function AttentionBlock<T, C>(k: Kernels<T, C>, d: Descriptor, w: LayerWeights, scale: Float, x: T, cache: C): (T, C)
    requires WidthsFit(d.geometry)
  {
    var g := d.geometry;
    var normed := k.norm(w.attnNorm, g.rmsEpsilon, x);
    var query := k.matmul(w.wq, g.hidden, g.heads * g.headDim, normed);
    var key := k.matmul(w.wk, g.hidden, g.kvHeads * g.headDim, normed);
    var value := k.matmul(w.wv, g.hidden, g.kvHeads * g.headDim, normed);
    var q := if g.architecture.Qwen3? then k.headNorm(w.qNorm, g.headDim, g.rmsEpsilon, query) else query;
    var key' := if g.architecture.Qwen3? then k.headNorm(w.kNorm, g.headDim, g.rmsEpsilon, key) else key;
    var cache' := k.store(cache, key', value);
    var shape := AttentionShape(
      Rotation(g.architecture), g.ropeDimensions, g.ropeBase, d.ropeFactors, g.heads, g.kvHeads, g.headDim, scale);
    (k.add(x, k.matmul(w.wo, g.heads * g.headDim, g.hidden, k.attend(shape, q, cache'))), cache')
  }

  /** The gated feed-forward network, added to the stream. */
  function FeedForwardBlock<T, C>(k: Kernels<T, C>, d: Descriptor, w: LayerWeights, x: T): T {
    var g := d.geometry;
    var normed := k.norm(w.ffnNorm, g.rmsEpsilon, x);
    var gated := k.multiply(k.silu(k.matmul(w.gate, g.hidden, g.ffn, normed)), k.matmul(w.up, g.hidden, g.ffn, normed));
    k.add(x, k.matmul(w.down, g.ffn, g.hidden, gated))
  }

  function Block<T, C>(k: Kernels<T, C>, d: Descriptor, layer: nat, scale: Float, x: T, cache: C): (T, C)
    requires WidthsFit(d.geometry)
  {
    var w := WeightsOfLayer(layer);
    var (attended, cache') := AttentionBlock(k, d, w, scale, x, cache);
    (FeedForwardBlock(k, d, w, attended), cache')
  }

  /** The layers from `layer` on. */
  function Blocks<T, C>(k: Kernels<T, C>, d: Descriptor, layer: nat, scale: Float, x: T, caches: seq<C>): (T, seq<C>)
    requires WidthsFit(d.geometry)
    decreases |caches|
  {
    if caches == [] then (x, [])
    else
      var (next, cache) := Block(k, d, layer, scale, x, caches[0]);
      var (end, after) := Blocks(k, d, layer + 1, scale, next, caches[1..]);
      (end, [cache] + after)
  }

  function Transformer<T, C>(k: Kernels<T, C>, d: Descriptor, scale: Float, x: T, caches: seq<C>): (T, seq<C>)
    requires WidthsFit(d.geometry)
  {
    var (end, after) := Blocks(k, d, 0, scale, x, caches);
    (k.matmul(d.outputHead, d.geometry.hidden, d.vocab, k.norm("output_norm.weight", d.geometry.rmsEpsilon, end)), after)
  }

  // --- The plan computes the transformer ----------------------------------

  lemma {:induction false} ExecuteConcat<T, C>(k: Kernels<T, C>, s: Machine<T, C>, a: seq<Operator>, b: seq<Operator>)
    ensures ExecuteAll(k, s, a + b) ==
      match ExecuteAll(k, s, a) case None => None case Some(next) => ExecuteAll(k, next, b)
    decreases |a|
  {
    if a == [] {
      assert a + b == b;
    } else {
      assert (a + b)[0] == a[0] && (a + b)[1..] == a[1..] + b;
      match Execute(k, s, a[0])
      case None =>
      case Some(next) => ExecuteConcat(k, next, a[1..], b);
    }
  }

  lemma ExecuteOne<T, C>(k: Kernels<T, C>, s: Machine<T, C>, op: Operator)
    ensures ExecuteAll(k, s, [op]) == Execute(k, s, op)
  {
    assert [op][1..] == [];
  }

  lemma ExecuteFirst<T, C>(k: Kernels<T, C>, s: Machine<T, C>, op: Operator, rest: seq<Operator>)
    ensures ExecuteAll(k, s, [op] + rest) ==
      match Execute(k, s, op) case None => None case Some(next) => ExecuteAll(k, next, rest)
  {
    assert ([op] + rest)[1..] == rest;
  }

  lemma NamesByRole(layer: nat)
    ensures var w := WeightsOfLayer(layer);
            && w.attnNorm == LayerName(layer, AttnNorm) && w.wq == LayerName(layer, AttnQ)
            && w.wk == LayerName(layer, AttnK) && w.wv == LayerName(layer, AttnV)
            && w.wo == LayerName(layer, AttnOutput) && w.qNorm == LayerName(layer, AttnQNorm)
            && w.kNorm == LayerName(layer, AttnKNorm) && w.ffnNorm == LayerName(layer, FfnNorm)
            && w.gate == LayerName(layer, FfnGate) && w.up == LayerName(layer, FfnUp)
            && w.down == LayerName(layer, FfnDown)
  {
    InputNames(layer);
    HeadNames(layer);
    FeedForwardNames(layer);
  }

  lemma InputNames(layer: nat)
    ensures var w := WeightsOfLayer(layer);
            && w.attnNorm == LayerName(layer, AttnNorm) && w.wq == LayerName(layer, AttnQ)
            && w.wk == LayerName(layer, AttnK) && w.wv == LayerName(layer, AttnV)
  {
    var blk := "blk." + Decimal(layer);
    OneName(blk, "attn_norm", ".attn_norm.weight");
    OneName(blk, "attn_q", ".attn_q.weight");
    OneName(blk, "attn_k", ".attn_k.weight");
    OneName(blk, "attn_v", ".attn_v.weight");
  }

  lemma HeadNames(layer: nat)
    ensures var w := WeightsOfLayer(layer);
            && w.wo == LayerName(layer, AttnOutput) && w.qNorm == LayerName(layer, AttnQNorm)
            && w.kNorm == LayerName(layer, AttnKNorm)
  {
    var blk := "blk." + Decimal(layer);
    OneName(blk, "attn_output", ".attn_output.weight");
    OneName(blk, "attn_q_norm", ".attn_q_norm.weight");
    OneName(blk, "attn_k_norm", ".attn_k_norm.weight");
  }

  lemma FeedForwardNames(layer: nat)
    ensures var w := WeightsOfLayer(layer);
            && w.ffnNorm == LayerName(layer, FfnNorm) && w.gate == LayerName(layer, FfnGate)
            && w.up == LayerName(layer, FfnUp) && w.down == LayerName(layer, FfnDown)
  {
    var blk := "blk." + Decimal(layer);
    OneName(blk, "ffn_norm", ".ffn_norm.weight");
    OneName(blk, "ffn_gate", ".ffn_gate.weight");
    OneName(blk, "ffn_up", ".ffn_up.weight");
    OneName(blk, "ffn_down", ".ffn_down.weight");
  }

  lemma OneName(blk: string, stem: string, suffix: string)
    requires suffix == "." + stem + ".weight"
    ensures blk + "." + stem + ".weight" == blk + suffix
  {
    AppendAssociates(blk + ".", stem, ".weight");
    AppendAssociates(blk, ".", stem + ".weight");
    assert "." + stem + ".weight" == "." + (stem + ".weight");
  }

  /** The projections of a normed stream, heads normed where the model has it. */
  lemma ProjectionsRun<T, C>(k: Kernels<T, C>, d: Descriptor, layer: nat, s: Machine<T, C>)
    requires WidthsFit(d.geometry)
    ensures var g, w := d.geometry, WeightsOfLayer(layer);
            var normed := k.norm(w.attnNorm, g.rmsEpsilon, s.stream);
            var query := k.matmul(w.wq, g.hidden, g.heads * g.headDim, normed);
            var key := k.matmul(w.wk, g.hidden, g.kvHeads * g.headDim, normed);
            var value := k.matmul(w.wv, g.hidden, g.kvHeads * g.headDim, normed);
            var operands := if g.architecture.Qwen3? then
                              [k.headNorm(w.qNorm, g.headDim, g.rmsEpsilon, query),
                               k.headNorm(w.kNorm, g.headDim, g.rmsEpsilon, key), value]
                            else [query, key, value];
            ExecuteAll(k, s, Projections(d, layer)) == Some(Machine(s.stream, normed, operands, s.cache))
  {
    var ops := Projections(d, layer);
    NamesByRole(layer);
    assert ops == [ops[0]] + ([ops[1]] + ([ops[2]] + ([ops[3]] + ops[4..])));
    var s1 := Execute(k, s, ops[0]).value;
    var s2 := Execute(k, s1, ops[1]).value;
    var s3 := Execute(k, s2, ops[2]).value;
    var s4 := Execute(k, s3, ops[3]).value;
    ExecuteFirst(k, s, ops[0], [ops[1]] + ([ops[2]] + ([ops[3]] + ops[4..])));
    ExecuteFirst(k, s1, ops[1], [ops[2]] + ([ops[3]] + ops[4..]));
    ExecuteFirst(k, s2, ops[2], [ops[3]] + ops[4..]);
    ExecuteFirst(k, s3, ops[3], ops[4..]);
    assert s4.operands == [s2.operands[0], s3.operands[1], s4.operands[2]];
    if d.geometry.architecture.Qwen3? {
      assert ops[4..] == [ops[4]];
      ExecuteOne(k, s4, ops[4]);
    } else {
      assert ops[4..] == [];
    }
  }

  lemma AttentionRuns<T, C>(k: Kernels<T, C>, d: Descriptor, layer: nat, scale: Float, s: Machine<T, C>, q: T, key: T, value: T)
    requires WidthsFit(d.geometry) && s.operands == [q, key, value] && s.cache.Some?
    ensures var g, w := d.geometry, WeightsOfLayer(layer);
            var cache := k.store(s.cache.value, key, value);
            var shape := AttentionShape(
              Rotation(g.architecture), g.ropeDimensions, g.ropeBase, d.ropeFactors, g.heads, g.kvHeads, g.headDim, scale);
            var seen := k.attend(shape, q, cache);
            ExecuteAll(k, s, Attention(d, layer, scale)) ==
              Some(Machine(k.add(s.stream, k.matmul(w.wo, g.heads * g.headDim, g.hidden, seen)), seen, [], Some(cache)))
  {
    var ops := Attention(d, layer, scale);
    NamesByRole(layer);
    assert ops == [ops[0]] + ([ops[1]] + ([ops[2]] + [ops[3]]));
    var s1 := Execute(k, s, ops[0]).value;
    var s2 := Execute(k, s1, ops[1]).value;
    var s3 := Execute(k, s2, ops[2]).value;
    ExecuteFirst(k, s, ops[0], [ops[1]] + ([ops[2]] + [ops[3]]));
    ExecuteFirst(k, s1, ops[1], [ops[2]] + [ops[3]]);
    ExecuteFirst(k, s2, ops[2], [ops[3]]);
    ExecuteOne(k, s3, ops[3]);
  }

  lemma FeedForwardRuns<T, C>(k: Kernels<T, C>, d: Descriptor, layer: nat, s: Machine<T, C>)
    ensures var r := ExecuteAll(k, s, FeedForward(d, layer));
            && r.Some? && r.value.stream == FeedForwardBlock(k, d, WeightsOfLayer(layer), s.stream)
            && r.value.operands == [] && r.value.cache == s.cache
  {
    var ops := FeedForward(d, layer);
    NamesByRole(layer);
    assert ops == [ops[0]] + ([ops[1]] + ([ops[2]] + ([ops[3]] + ([ops[4]] + [ops[5]]))));
    var s1 := Execute(k, s, ops[0]).value;
    var s2 := Execute(k, s1, ops[1]).value;
    var s3 := Execute(k, s2, ops[2]).value;
    var s4 := Execute(k, s3, ops[3]).value;
    var s5 := Execute(k, s4, ops[4]).value;
    ExecuteFirst(k, s, ops[0], [ops[1]] + ([ops[2]] + ([ops[3]] + ([ops[4]] + [ops[5]]))));
    ExecuteFirst(k, s1, ops[1], [ops[2]] + ([ops[3]] + ([ops[4]] + [ops[5]])));
    ExecuteFirst(k, s2, ops[2], [ops[3]] + ([ops[4]] + [ops[5]]));
    ExecuteFirst(k, s3, ops[3], [ops[4]] + [ops[5]]);
    ExecuteFirst(k, s4, ops[4], [ops[5]]);
    ExecuteOne(k, s5, ops[5]);
  }

  /** The operators of a layer compute its block, on any stream and cache. */
  lemma LayerIsBlock<T, C>(k: Kernels<T, C>, d: Descriptor, layer: nat, scale: Float, x: T, cache: C)
    requires WidthsFit(d.geometry)
    ensures var r := ExecuteAll(k, Machine(x, x, [], Some(cache)), LayerPlan(d, layer, scale));
            && r.Some? && r.value.operands == [] && r.value.cache.Some?
            && (r.value.stream, r.value.cache.value) == Block(k, d, layer, scale, x, cache)
  {
    var s := Machine(x, x, [], Some(cache));
    ExecuteConcat(k, s, Projections(d, layer) + Attention(d, layer, scale), FeedForward(d, layer));
    ExecuteConcat(k, s, Projections(d, layer), Attention(d, layer, scale));
    ProjectionsRun(k, d, layer, s);
    var s1 := ExecuteAll(k, s, Projections(d, layer)).value;
    AttentionRuns(k, d, layer, scale, s1, s1.operands[0], s1.operands[1], s1.operands[2]);
    FeedForwardRuns(k, d, layer, ExecuteAll(k, s1, Attention(d, layer, scale)).value);
  }

  lemma {:induction false} LayersAreBlocks<T, C>(
      k: Kernels<T, C>, d: Descriptor, from: nat, scale: Float, x: T, layers: seq<seq<Operator>>, caches: seq<C>)
    requires WidthsFit(d.geometry) && |caches| == |layers|
    requires forall i :: 0 <= i < |layers| ==> layers[i] == LayerPlan(d, from + i, scale)
    ensures ExecuteLayers(k, x, layers, caches) == Some(Blocks(k, d, from, scale, x, caches))
    decreases |layers|
  {
    if layers != [] {
      LayerIsBlock(k, d, from, scale, x, caches[0]);
      assert forall i :: 0 <= i < |layers[1..]| ==> layers[1..][i] == layers[i + 1];
      LayersAreBlocks(k, d, from + 1, scale, Block(k, d, from, scale, x, caches[0]).0, layers[1..], caches[1..]);
    }
  }

  /** Main result: a compiled plan, run operator by operator on any kernels, finds
      every operand it needs and computes the transformer that the tensor names of
      the file make up, for any number of layers and both architectures. */
  lemma PlanIsTransformer<T, C>(k: Kernels<T, C>, plan: Plan, d: Descriptor, scale: Float, x: T, caches: seq<C>)
    requires CompiledFrom(plan, d, scale) && |caches| == d.geometry.layers
    ensures ExecutePlan(k, plan, x, caches) == Some(Transformer(k, d, scale, x, caches))
  {
    LayersAreBlocks(k, d, 0, scale, x, plan.layers, caches);
    FinalRuns(k, d, Machine(Blocks(k, d, 0, scale, x, caches).0, Blocks(k, d, 0, scale, x, caches).0, [], None));
  }

  lemma FinalRuns<T, C>(k: Kernels<T, C>, d: Descriptor, s: Machine<T, C>)
    ensures var g := d.geometry;
            var normed := k.norm("output_norm.weight", g.rmsEpsilon, s.stream);
            ExecuteAll(k, s, FinalPlan(d)) ==
              Some(Machine(s.stream, normed, [k.matmul(d.outputHead, g.hidden, d.vocab, normed)], s.cache))
  {
    var ops := FinalPlan(d);
    assert ops == [ops[0]] + [ops[1]];
    var s1 := Execute(k, s, ops[0]).value;
    ExecuteFirst(k, s, ops[0], [ops[1]]);
    ExecuteOne(k, s1, ops[1]);
    assert s1.operands + [k.matmul(d.outputHead, d.geometry.hidden, d.vocab, s1.input)]
        == [k.matmul(d.outputHead, d.geometry.hidden, d.vocab, s1.input)];
  }

  // --- Layer numbers ------------------------------------------------------

  /** A decimal numeral read from the left. */
  function ReadNumeral(digits: string): nat {
    if digits == [] then 0
    else 10 * ReadNumeral(digits[..|digits| - 1]) + Digit(digits[|digits| - 1])
  }

  function Digit(c: char): nat {
    if '0' <= c <= '9' then c as nat - '0' as nat else 0
  }

  /** The number in a layer's name is the layer's. */
  lemma {:induction false} NumeralReads(n: nat)
    ensures Decimal(n) != [] && ReadNumeral(Decimal(n)) == n
    ensures n > 0 ==> Decimal(n)[0] != '0'
  {
    if n < 10 {
      assert Decimal(n)[..0] == [];
      assert ReadNumeral([]) == 0;
    } else {
      NumeralReads(n / 10);
      assert Decimal(n)[..|Decimal(n)| - 1] == Decimal(n / 10);
      assert Digit("0123456789"[n % 10]) == n % 10;
    }
  }
}
