/** The shape and precision checker for single operators. */
module Operators {
  import opened Prelude

  /** An f32 as far as admission looks at it. */
  datatype Float = Finite(value: real) | Infinite(negative: bool) | NaN

  predicate Positive(x: Float) {
    x.Finite? && x.value > 0.0
  }

  datatype NormKind = Rms | LayerNorm

  datatype AffineScale = WeightScale | OnePlusWeight

  datatype Activation = Silu | GeluTanh

  datatype Pairing = Adjacent | SplitHalf

  datatype OpError = Shape | Bounds | Precision | UnsupportedOp | Parameter

  datatype TensorView = TensorView(name: string, dimensions: seq<u64>, ggmlType: u32, offset: u64, bytes: u64)

  /** A tensor as the model file describes it. */
  datatype Tensor = Tensor(name: string, dimensions: seq<u64>, ggmlType: u32, offset: u64, bytes: u64)

  /** The number of elements, or `None` if it overflows on the way. */
  function CheckedProduct(dimensions: seq<u64>, acc: u64): Option<u64>
    decreases |dimensions|
  {
    if dimensions == [] then Some(acc)
    else match CheckedMul(acc, dimensions[0]) case None => None case Some(n) => CheckedProduct(dimensions[1..], n)
  }

  function ActivationView(name: string, dimensions: seq<u64>): Result<TensorView, OpError> {
    if dimensions == [] || 0 in dimensions then Err(Shape)
    else
      match CheckedProduct(dimensions, 1)
      case None => Err(Bounds)
      case Some(count) =>
        match CheckedMul(count, 4)
        case None => Err(Bounds)
        case Some(bytes) => Ok(TensorView(name, dimensions, 0, 0, bytes))
  }

  function WeightView(t: Tensor, fileBytes: u64): Result<TensorView, OpError> {
    match CheckedAdd(t.offset, t.bytes)
    case None => Err(Bounds)
    case Some(end) =>
      if end > fileBytes then Err(Bounds)
      else if t.dimensions == [] || 0 in t.dimensions then Err(Shape)
      else Ok(TensorView(t.name, t.dimensions, t.ggmlType, t.offset, t.bytes))
  }

  /** Weight types the linear kernels can read. */
  predicate LinearType(ggmlType: u32) {
    ggmlType == 0 || ggmlType == 1 || ggmlType == 2 || ggmlType == 6 || ggmlType == 8
    || ggmlType == 12 || ggmlType == 13 || ggmlType == 14
  }

  datatype StateEffects = NoEffects | ReadDenseKv(positions: u64) | WriteDenseKv(start: u64, count: u64)

  datatype OutputContract = OutputContract(dimensions: seq<u64>, effects: StateEffects)

  datatype OperatorContract =
    | Norm(kind: NormKind, epsilon: Float, affine: AffineScale, bias: bool)
    | LinearOp(bias: bool)
    | HeadNorm(heads: u64, headDim: u64, epsilon: Float)
    | RelativeRopeAttention(
        queryHeads: u64, kvHeads: u64, headDim: u64, ropeDim: u64, base: Float, pairing: Pairing, scale: Float,
        softcap: Option<Float>, queryStart: u64)
    | GateMultiply(activation: Activation)
    | ResidualAddOp
    | CacheWriteOp(start: u64, count: u64, capacity: u64)
    | UnsupportedContract(operation: string)

  function Arity(inputs: seq<TensorView>, n: nat): Result<(), OpError> {
    Check(|inputs| == n, Shape)
  }

  function NeedF32(t: TensorView): Result<(), OpError> {
    Check(t.ggmlType == 0, Precision)
  }

  function NeedShape(t: TensorView, expected: seq<u64>): Result<(), OpError> {
    Check(t.dimensions == expected, Shape)
  }

  function InferNorm(c: OperatorContract, inputs: seq<TensorView>): Result<OutputContract, OpError>
    requires c.Norm?
  {
    var _ :- Arity(inputs, if c.bias then 3 else 2);
    var _ :- Check(Positive(c.epsilon), Parameter);
    var x := inputs[0];
    var _ :- NeedF32(x);
    var _ :- NeedF32(inputs[1]);
    var _ :- Check(x.dimensions != [], Shape);
    var width := x.dimensions[|x.dimensions| - 1];
    var _ :- NeedShape(inputs[1], [width]);
    var _ :- if c.bias then NeedF32(inputs[2]) else Ok(());
    var _ :- if c.bias then NeedShape(inputs[2], [width]) else Ok(());
    Ok(OutputContract(x.dimensions, NoEffects))
  }

  function InferLinear(c: OperatorContract, inputs: seq<TensorView>): Result<OutputContract, OpError>
    requires c.LinearOp?
  {
    var _ :- Arity(inputs, if c.bias then 3 else 2);
    var x, w := inputs[0], inputs[1];
    var _ :- NeedF32(x);
    var _ :- Check(|x.dimensions| == 2 && |w.dimensions| == 2, Shape);
    var _ :- Check(x.dimensions[1] == w.dimensions[0], Shape);
    var _ :- Check(LinearType(w.ggmlType), UnsupportedOp);
    var _ :- if c.bias then NeedF32(inputs[2]) else Ok(());
    var _ :- if c.bias then NeedShape(inputs[2], [w.dimensions[1]]) else Ok(());
    Ok(OutputContract([x.dimensions[0], w.dimensions[1]], NoEffects))
  }

  function InferHeadNorm(c: OperatorContract, inputs: seq<TensorView>): Result<OutputContract, OpError>
    requires c.HeadNorm?
  {
    var _ :- Arity(inputs, 2);
    var _ :- Check(Positive(c.epsilon), Parameter);
    var _ :- NeedF32(inputs[0]);
    var _ :- NeedF32(inputs[1]);
    var x := inputs[0];
    var _ :- Check(c.heads > 0 && c.headDim > 0 && |x.dimensions| == 3 && x.dimensions[1..] == [c.heads, c.headDim], Shape);
    var _ :- NeedShape(inputs[1], [c.headDim]);
    Ok(OutputContract(x.dimensions, NoEffects))
  }

  function InferAttention(c: OperatorContract, inputs: seq<TensorView>): Result<OutputContract, OpError>
    requires c.RelativeRopeAttention?
  {
    var _ :- Arity(inputs, 3);
    var _ :- Check(Positive(c.base), Parameter);
    var _ :- Check(Positive(c.scale), Parameter);
    var _ :- Check(c.softcap.Some? ==> Positive(c.softcap.value), Parameter);
    var _ :- Check(
      c.kvHeads > 0 && c.queryHeads > 0 && c.headDim > 0 && c.queryHeads % c.kvHeads == 0
      && c.ropeDim > 0 && c.ropeDim % 2 == 0 && c.ropeDim <= c.headDim, Parameter);
    var _ :- NeedF32(inputs[0]);
    var _ :- NeedF32(inputs[1]);
    var _ :- NeedF32(inputs[2]);
    var q, k, v := inputs[0], inputs[1], inputs[2];
    var _ :- Check(|q.dimensions| == 3 && |k.dimensions| == 3, Shape);
    var batch, positions := q.dimensions[0], k.dimensions[0];
    var _ :- NeedShape(q, [batch, c.queryHeads, c.headDim]);
    var _ :- NeedShape(k, [positions, c.kvHeads, c.headDim]);
    var _ :- NeedShape(v, k.dimensions);
    var _ :- Check(CheckedAdd(c.queryStart, batch) == Some(positions), Bounds);
    Ok(OutputContract([batch, c.queryHeads, c.headDim], ReadDenseKv(positions)))
  }

  function InferPointwise(inputs: seq<TensorView>): Result<OutputContract, OpError> {
    var _ :- Arity(inputs, 2);
    var _ :- NeedF32(inputs[0]);
    var _ :- NeedF32(inputs[1]);
    var _ :- NeedShape(inputs[1], inputs[0].dimensions);
    Ok(OutputContract(inputs[0].dimensions, NoEffects))
  }

  function InferCacheWrite(c: OperatorContract, inputs: seq<TensorView>): Result<OutputContract, OpError>
    requires c.CacheWriteOp?
  {
    var _ :- Arity(inputs, 2);
    var _ :- NeedF32(inputs[0]);
    var _ :- NeedF32(inputs[1]);
    var _ :- NeedShape(inputs[1], inputs[0].dimensions);
    var x := inputs[0];
    var end := CheckedAdd(c.start, c.count);
    var _ :- Check(
      c.count > 0 && |x.dimensions| == 3 && x.dimensions[0] == c.count && end.Some? && end.value <= c.capacity, Bounds);
    Ok(OutputContract(x.dimensions, WriteDenseKv(c.start, c.count)))
  }

  function InferShapes(c: OperatorContract, inputs: seq<TensorView>): Result<OutputContract, OpError> {
    match c
    case Norm(_, _, _, _) => InferNorm(c, inputs)
    case LinearOp(_) => InferLinear(c, inputs)
    case HeadNorm(_, _, _) => InferHeadNorm(c, inputs)
    case RelativeRopeAttention(_, _, _, _, _, _, _, _, _) => InferAttention(c, inputs)
    case GateMultiply(_) => InferPointwise(inputs)
    case ResidualAddOp => InferPointwise(inputs)
    case CacheWriteOp(_, _, _) => InferCacheWrite(c, inputs)
    case UnsupportedContract(_) => Err(UnsupportedOp)
  }

  datatype ValidatedOperator = ValidatedOperator(contract: OperatorContract, output: OutputContract)

  /** Semantics the existing kernels do not certify. */
  predicate Uncertified(c: OperatorContract) {
    (c.Norm? && (c.kind.LayerNorm? || c.affine.OnePlusWeight?))
    || (c.GateMultiply? && c.activation.GeluTanh?)
    || (c.RelativeRopeAttention? && c.softcap.Some?)
  }

  function ValidateLegacy(c: OperatorContract, inputs: seq<TensorView>, output: TensorView): Result<ValidatedOperator, OpError> {
    var _ :- Check(!c.UnsupportedContract?, UnsupportedOp);
    var inferred :- InferShapes(c, inputs);
    var _ :- NeedF32(output);
    var _ :- NeedShape(output, inferred.dimensions);
    var _ :- Check(!Uncertified(c), UnsupportedOp);
    Ok(ValidatedOperator(c, inferred))
  }
}
