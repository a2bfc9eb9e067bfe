/** The byte budget of a KV state, computed in checked 64-bit arithmetic, and what
    it is over the unbounded integers. */
module StateBudget {
  import opened Prelude
  import opened Lease

  datatype StateKind = DenseKv | WindowedKv | LatentKv | DeltaNet | Mamba | Rwkv | EncoderMemory

  datatype KvPrecision = F32Only | F32WithInt4Shadow

  datatype StateSpec = StateSpec(
    kind: StateKind, layers: u64, kvHeads: u64, headDim: u64, capacity: u64, precision: KvPrecision)

  datatype Budget = Budget(perTensorBytes: u64, totalBytes: u64)

  /** `checked_mul` over an optional value. */
  function Times(a: Option<u64>, b: u64): Option<u64> {
    match a case None => None case Some(x) => CheckedMul(x, b)
  }

  function Plus(a: Option<u64>, b: Option<u64>): Option<u64> {
    if a.Some? && b.Some? then CheckedAdd(a.value, b.value) else None
  }

  /** The bytes one layer takes, or the overflow that stops the computation. */
  function PerLayer(spec: StateSpec, elements: u64, bytes: u64): Option<u64>
    requires spec.precision.F32WithInt4Shadow? ==> spec.headDim % 8 == 0
  {
    var dense := CheckedMul(bytes, 2);
    if spec.precision.F32Only? then dense
    else
      var packed := elements / 8 * 4;
      var scales := Times(CheckedMul(spec.capacity, spec.kvHeads), 4);
      Plus(Plus(dense, CheckedMul(packed, 2)), Times(scales, 2))
  }

  function ComputeBudget(spec: StateSpec, maxBuffer: u64, maxTotal: u64): Result<Budget, StateError> {
    if !spec.kind.DenseKv? then Err(Unsupported)
    else if spec.layers == 0 || spec.kvHeads == 0 || spec.headDim == 0 || spec.capacity == 0 then Err(Bounds)
    else
      match Times(Times(CheckedMul(1, spec.capacity), spec.kvHeads), spec.headDim)
      case None => Err(Bounds)
      case Some(elements) =>
        match CheckedMul(elements, 4)
        case None => Err(Bounds)
        case Some(bytes) =>
          if CheckedMul(bytes, 2) == None then Err(Bounds)
          else if spec.precision.F32WithInt4Shadow? && spec.headDim % 8 != 0 then Err(Unsupported)
          else
            match PerLayer(spec, elements, bytes)
            case None => Err(Bounds)
            case Some(perLayer) =>
              match CheckedMul(perLayer, spec.layers)
              case None => Err(Bounds)
              case Some(total) =>
                if bytes > maxBuffer || total > maxTotal then Err(Bounds)
                else Ok(Budget(bytes, total))
  }

  // The sizes over the unbounded integers.

  /** One K or V tensor of a layer, in f32. */
  function TensorBytes(spec: StateSpec): nat {
    4 * (spec.capacity * spec.kvHeads * spec.headDim)
  }

  /** One packed INT4 tensor: half a byte an element. */
  function PackedBytes(spec: StateSpec): nat {
    spec.capacity * spec.kvHeads * spec.headDim / 2
  }

  /** One scale, in f32, for each position and head. */
  function ScaleBytes(spec: StateSpec): nat {
    4 * (spec.capacity * spec.kvHeads)
  }

  function LayerBytes(spec: StateSpec): nat {
    2 * TensorBytes(spec) + if spec.precision.F32Only? then 0 else 2 * PackedBytes(spec) + 2 * ScaleBytes(spec)
  }

  predicate Supported(spec: StateSpec) {
    && spec.kind.DenseKv?
    && spec.layers > 0 && spec.kvHeads > 0 && spec.headDim > 0 && spec.capacity > 0
    && (spec.precision.F32WithInt4Shadow? ==> spec.headDim % 8 == 0)
  }

  lemma ProductGrows(a: nat, b: nat)
    requires b > 0
    ensures a <= a * b
  {
  }

  lemma HalfOfProduct(n: nat, headDim: nat)
    requires headDim % 8 == 0
    ensures n * headDim % 8 == 0
    ensures n * headDim / 8 * 4 * 2 == 2 * (n * headDim / 2)
  {
    var k := headDim / 8;
    assert n * headDim == 8 * (n * k) by {
      assert headDim == 8 * k;
      assert n * (8 * k) == 8 * (n * k);
    }
  }

  /** Main result: the computation succeeds exactly when the state is supported and
      its true sizes are within the limits, and it then returns them. No overflow
      on the way rejects sizes that fit. */
  lemma {:induction false} BudgetIsExact(spec: StateSpec, maxBuffer: u64, maxTotal: u64)
    ensures var total := spec.layers * LayerBytes(spec);
            && (ComputeBudget(spec, maxBuffer, maxTotal).Ok? <==>
                  Supported(spec) && TensorBytes(spec) <= maxBuffer && total <= maxTotal)
            && (ComputeBudget(spec, maxBuffer, maxTotal).Ok? ==>
                  ComputeBudget(spec, maxBuffer, maxTotal).value.perTensorBytes == TensorBytes(spec)
                  && ComputeBudget(spec, maxBuffer, maxTotal).value.totalBytes == total)
  {
    if Supported(spec) {
      var ck := spec.capacity * spec.kvHeads;
      var elements := ck * spec.headDim;
      ProductGrows(spec.capacity, spec.kvHeads);
      ProductGrows(ck, spec.headDim);
      ProductGrows(LayerBytes(spec), spec.layers);
      assert spec.layers * LayerBytes(spec) == LayerBytes(spec) * spec.layers;
      if spec.precision.F32WithInt4Shadow? {
        HalfOfProduct(ck, spec.headDim);
      }
      if elements < TWO_TO_THE_64 {
        ElementsAre(spec);
        if LayerBytes(spec) < TWO_TO_THE_64 {
          PerLayerIs(spec);
        } else if TensorBytes(spec) < TWO_TO_THE_64 {
          PerLayerOverflows(spec);
        }
      }
    }
  }

  lemma ElementsAre(spec: StateSpec)
    requires Supported(spec) && spec.capacity * spec.kvHeads * spec.headDim < TWO_TO_THE_64
    ensures Times(Times(CheckedMul(1, spec.capacity), spec.kvHeads), spec.headDim) ==
              Some(spec.capacity * spec.kvHeads * spec.headDim)
  {
    ProductGrows(spec.capacity * spec.kvHeads, spec.headDim);
  }

  lemma PerLayerIs(spec: StateSpec)
    requires Supported(spec) && LayerBytes(spec) < TWO_TO_THE_64
    ensures PerLayer(spec, spec.capacity * spec.kvHeads * spec.headDim, TensorBytes(spec)) == Some(LayerBytes(spec))
  {
    var ck := spec.capacity * spec.kvHeads;
    if spec.precision.F32WithInt4Shadow? {
      HalfOfProduct(ck, spec.headDim);
      ProductGrows(ck, spec.headDim);
    }
  }

  lemma PerLayerOverflows(spec: StateSpec)
    requires Supported(spec) && LayerBytes(spec) >= TWO_TO_THE_64
    requires spec.capacity * spec.kvHeads * spec.headDim < TWO_TO_THE_64 && TensorBytes(spec) < TWO_TO_THE_64
    ensures PerLayer(spec, spec.capacity * spec.kvHeads * spec.headDim, TensorBytes(spec)) == None
  {
    var ck := spec.capacity * spec.kvHeads;
    if spec.precision.F32WithInt4Shadow? {
      HalfOfProduct(ck, spec.headDim);
    }
  }
}
