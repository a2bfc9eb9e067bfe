/** Checking every operator of a compiled plan against the manifest, and why the
    plan of an accepted manifest passes. */
module Admission {
  import opened Prelude
  import opened Operators
  import opened ModelDescriptor
  import opened ExecutionPlan

  datatype AdmissionError = NoTensor | BadOperator(error: OpError)

  function Lift<T>(r: Result<T, OpError>): Result<T, AdmissionError> {
    match r case Ok(x) => Ok(x) case Err(e) => Err(BadOperator(e))
  }

  function WeightOf(m: Manifest, name: string): Result<TensorView, AdmissionError> {
    match Lookup(m.tensors, name)
    case None => Err(NoTensor)
    case Some(t) => Lift(WeightView(t, m.fileBytes))
  }

  function Validate(c: OperatorContract, inputs: seq<TensorView>, output: TensorView): Result<seq<ValidatedOperator>, AdmissionError> {
    var node :- Lift(ValidateLegacy(c, inputs, output));
    Ok([node])
  }

  function CheckNorm(d: Descriptor, m: Manifest, w: string, epsilon: Float): Result<seq<ValidatedOperator>, AdmissionError> {
    var x :- Lift(ActivationView("activation", [1, d.geometry.hidden]));
    var y :- Lift(ActivationView("normalized", [1, d.geometry.hidden]));
    var weight :- WeightOf(m, w);
    Validate(Norm(Rms, epsilon, WeightScale, false), [x, weight], y)
  }

  function CheckLinear(m: Manifest, w: string, input: u64, output: u64): Result<seq<ValidatedOperator>, AdmissionError> {
    var x :- Lift(ActivationView("activation", [1, input]));
    var y :- Lift(ActivationView("projected", [1, output]));
    var weight :- WeightOf(m, w);
    Validate(LinearOp(false), [x, weight], y)
  }

  function CheckHeads(m: Manifest, w: string, heads: u64, headDim: u64, epsilon: Float): Result<seq<ValidatedOperator>, AdmissionError> {
    var x :- Lift(ActivationView("head activation", [1, heads, headDim]));
    var weight :- WeightOf(m, w);
    Validate(HeadNorm(heads, headDim, epsilon), [x, weight], x)
  }

  function CheckAttention(d: Descriptor, m: Manifest, op: Operator): Result<seq<ValidatedOperator>, AdmissionError>
    requires op.RelativeRopeCausalAttention?
  {
    var _ :- match op.frequencyFactors
             case Some(name) => WeightOf(m, name)
             case None => Ok(TensorView("", [], 0, 0, 0));
    var q :- Lift(ActivationView("Q", [1, op.queryHeads, op.headDim]));
    var k :- Lift(ActivationView("K", [1, op.kvHeads, op.headDim]));
    Validate(
      RelativeRopeAttention(
        op.queryHeads, op.kvHeads, op.headDim, op.ropeDimensions, op.ropeBase,
        match op.layout { case AdjacentPairs => Adjacent case SplitHalves => SplitHalf }, op.scale, None, 0),
      [q, k, k], q)
  }

  function CheckPair(name: string, dimensions: seq<u64>, c: OperatorContract): Result<seq<ValidatedOperator>, AdmissionError> {
    var x :- Lift(ActivationView(name, dimensions));
    Validate(c, [x, x], x)
  }

  /** The nodes one operator of the plan is checked into. */
  function CheckOperator(d: Descriptor, m: Manifest, op: Operator): Result<seq<ValidatedOperator>, AdmissionError> {
    var g := d.geometry;
    match op
    case RmsNorm(w, epsilon) => CheckNorm(d, m, w, epsilon)
    case Linear(w, input, output) => CheckLinear(m, w, input, output)
    case HeadRmsNorm(qw, kw, headDim, epsilon) =>
      var q :- CheckHeads(m, qw, g.heads, headDim, epsilon);
      var k :- CheckHeads(m, kw, g.kvHeads, headDim, epsilon);
      Ok(q + k)
    case RelativeRopeCausalAttention(_, _, _, _, _, _, _, _) => CheckAttention(d, m, op)
    case CacheWrite => CheckPair("KV", [1, g.kvHeads, g.headDim], CacheWriteOp(0, 1, g.context))
    case ResidualAdd => CheckPair("residual", [1, g.hidden], ResidualAddOp)
    case SiluGateMultiply => CheckPair("FFN", [1, g.ffn], GateMultiply(Silu))
  }

  predicate AllPass(d: Descriptor, m: Manifest, ops: seq<Operator>) {
    forall i :: 0 <= i < |ops| ==> CheckOperator(d, m, ops[i]).Ok?
  }

  /** The nodes of checked operators, in order. */
  function NodesOf(d: Descriptor, m: Manifest, ops: seq<Operator>): seq<ValidatedOperator>
    requires AllPass(d, m, ops)
  {
    if ops == [] then []
    else NodesOf(d, m, ops[..|ops| - 1]) + CheckOperator(d, m, ops[|ops| - 1]).value
  }

  /** The error of the first operator that fails. */
  function FirstError(d: Descriptor, m: Manifest, ops: seq<Operator>): Option<AdmissionError> {
    if ops == [] then None
    else match CheckOperator(d, m, ops[0])
      case Err(e) => Some(e)
      case Ok(_) => FirstError(d, m, ops[1..])
  }

  /** Check the operators one by one, collecting their nodes; the first bad one stops. */
  method CheckedOperators(plan: Plan, m: Manifest) returns (r: Result<seq<ValidatedOperator>, AdmissionError>)
    ensures FirstError(plan.descriptor, m, AllOperators(plan)) == if r.Ok? then None else Some(r.error)
    ensures r.Ok? ==> AllPass(plan.descriptor, m, AllOperators(plan)) && r.value == NodesOf(plan.descriptor, m, AllOperators(plan))
  {
    var d, ops := plan.descriptor, AllOperators(plan);
    var nodes := [];
    for i := 0 to |ops|
      invariant FirstError(d, m, ops) == FirstError(d, m, ops[i..])
      invariant AllPass(d, m, ops[..i]) && nodes == NodesOf(d, m, ops[..i])
    {
      OneMoreError(d, m, ops, i);
      var checked := CheckOperator(d, m, ops[i]);
      if checked.Err? {
        return Err(checked.error);
      }
      OneMorePass(d, m, ops, i);
      nodes := nodes + checked.value;
    }
    assert ops[..|ops|] == ops && ops[|ops|..] == [];
    return Ok(nodes);
  }

  lemma OneMoreError(d: Descriptor, m: Manifest, ops: seq<Operator>, i: nat)
    requires i < |ops|
    ensures FirstError(d, m, ops[i..]) == match CheckOperator(d, m, ops[i]) { case Err(e) => Some(e) case Ok(_) => FirstError(d, m, ops[i + 1..]) }
  {
    assert ops[i..][1..] == ops[i + 1..];
  }

  lemma OneMorePass(d: Descriptor, m: Manifest, ops: seq<Operator>, i: nat)
    requires i < |ops| && AllPass(d, m, ops[..i]) && CheckOperator(d, m, ops[i]).Ok?
    ensures AllPass(d, m, ops[..i + 1])
    ensures NodesOf(d, m, ops[..i + 1]) == NodesOf(d, m, ops[..i]) + CheckOperator(d, m, ops[i]).value
  {
    assert ops[..i + 1][..i] == ops[..i];
    assert ops[..i + 1] == ops[..i] + [ops[i]];
  }

  lemma {:induction false} FirstErrorIsNone(d: Descriptor, m: Manifest, ops: seq<Operator>)
    ensures FirstError(d, m, ops) == None <==> AllPass(d, m, ops)
  {
    if ops != [] {
      FirstErrorIsNone(d, m, ops[1..]);
      assert AllPass(d, m, ops) <==> CheckOperator(d, m, ops[0]).Ok? && AllPass(d, m, ops[1..]) by {
        assert forall i :: 0 < i < |ops| ==> ops[i] == ops[1..][i - 1];
      }
    }
  }

  // When a single operator passes.

  /** A weight's bytes lie inside the file. */
  predicate InFile(m: Manifest, name: string) {
    var t := Lookup(m.tensors, name);
    t.Some? && t.value.offset + t.value.bytes <= m.fileBytes
  }

  /** An activation of that many f32 elements has a byte count. */
  predicate Addressable(elements: nat) {
    4 * elements < TWO_TO_THE_64
  }

  lemma RowView(name: string, n: u64)
    ensures ActivationView(name, [1, n]) ==
              if n == 0 then Err(Shape) else if Addressable(n) then Ok(TensorView(name, [1, n], 0, 0, 4 * n)) else Err(Bounds)
  {
    var row: seq<u64> := [1, n];
    assert row[1..] == [n] && row[1..][1..] == [];
    assert CheckedProduct(row[1..], 1) == Some(n);
    assert row[1] == n;
  }

  lemma HeadsView(name: string, heads: u64, headDim: u64)
    requires heads > 0 && headDim > 0
    ensures ActivationView(name, [1, heads, headDim]) ==
              if Addressable(heads * headDim) then Ok(TensorView(name, [1, heads, headDim], 0, 0, 4 * (heads * headDim))) else Err(Bounds)
  {
    var dims: seq<u64> := [1, heads, headDim];
    assert dims[1..] == [heads, headDim] && dims[2..] == [headDim] && dims[3..] == [];
    assert dims[1..][1..] == dims[2..] && dims[2..][1..] == dims[3..];
    assert CheckedProduct(dims[2..], heads) == CheckedMul(heads, headDim);
    assert CheckedProduct(dims[1..], 1) == CheckedProduct(dims[2..], heads);
  }

  lemma NeededWeight(m: Manifest, need: Need)
    requires NeedError(m, need) == None && need.shape != []
    ensures var t := Lookup(m.tensors, need.name);
            WeightOf(m, need.name) ==
              if !InFile(m, need.name) then Err(BadOperator(Bounds))
              else if 0 in need.shape then Err(BadOperator(Shape))
              else Ok(TensorView(t.value.name, need.shape, t.value.ggmlType, t.value.offset, t.value.bytes))
    ensures var t := Lookup(m.tensors, need.name); LinearType(t.value.ggmlType) && (need.norm ==> t.value.ggmlType == 0)
  {
  }

  lemma NormPasses(d: Descriptor, m: Manifest, w: string, epsilon: Float)
    requires NeedError(m, Need(w, [d.geometry.hidden], true)) == None
    requires Positive(epsilon) && d.geometry.hidden > 0
    ensures CheckNorm(d, m, w, epsilon).Ok? <==> Addressable(d.geometry.hidden) && InFile(m, w)
  {
    RowView("activation", d.geometry.hidden);
    RowView("normalized", d.geometry.hidden);
    NeededWeight(m, Need(w, [d.geometry.hidden], true));
  }

  lemma LinearPasses(m: Manifest, w: string, input: u64, output: u64)
    requires NeedError(m, Need(w, [input, output], false)) == None
    ensures CheckLinear(m, w, input, output).Ok? <==>
              input > 0 && output > 0 && Addressable(input) && Addressable(output) && InFile(m, w)
    ensures CheckLinear(m, w, input, output).Ok? ==>
              |CheckLinear(m, w, input, output).value| == 1 && CheckLinear(m, w, input, output).value[0].output.dimensions == [1, output]
  {
    RowView("activation", input);
    RowView("projected", output);
    NeededWeight(m, Need(w, [input, output], false));
    assert [input, output][0] == input && [input, output][1] == output;
  }

  lemma HeadsPass(m: Manifest, w: string, heads: u64, headDim: u64, epsilon: Float)
    requires NeedError(m, Need(w, [headDim], true)) == None && Positive(epsilon) && heads > 0 && headDim > 0
    ensures CheckHeads(m, w, heads, headDim, epsilon).Ok? <==> Addressable(heads * headDim) && InFile(m, w)
  {
    HeadsView("head activation", heads, headDim);
    NeededWeight(m, Need(w, [headDim], true));
    assert [1, heads, headDim][1..] == [heads, headDim];
  }

  lemma PairPasses(name: string, n: u64, c: OperatorContract)
    requires n > 0 && (c.ResidualAddOp? || c == GateMultiply(Silu))
    ensures CheckPair(name, [1, n], c).Ok? <==> Addressable(n)
  {
    RowView(name, n);
  }

  lemma CacheWritePasses(kvHeads: u64, headDim: u64, context: u64)
    requires kvHeads > 0 && headDim > 0 && context > 0
    ensures CheckPair("KV", [1, kvHeads, headDim], CacheWriteOp(0, 1, context)).Ok? <==> Addressable(kvHeads * headDim)
  {
    HeadsView("KV", kvHeads, headDim);
  }

  lemma AttentionPasses(d: Descriptor, m: Manifest, op: Operator)
    requires op.RelativeRopeCausalAttention? && op.queryHeads > 0 && op.kvHeads > 0 && op.headDim > 0
    requires op.queryHeads % op.kvHeads == 0 && 0 < op.ropeDimensions <= op.headDim && op.ropeDimensions % 2 == 0
    requires Positive(op.ropeBase) && Positive(op.scale)
    requires op.frequencyFactors.Some? ==> NeedError(m, Need(op.frequencyFactors.value, [op.ropeDimensions / 2], true)) == None
    ensures CheckAttention(d, m, op).Ok? <==>
              && Addressable(op.queryHeads * op.headDim) && Addressable(op.kvHeads * op.headDim)
              && (op.frequencyFactors.Some? ==> InFile(m, op.frequencyFactors.value))
  {
    HeadsView("Q", op.queryHeads, op.headDim);
    HeadsView("K", op.kvHeads, op.headDim);
    if op.frequencyFactors.Some? {
      NeededWeight(m, Need(op.frequencyFactors.value, [op.ropeDimensions / 2], true));
    }
  }
}
