/** What the metadata checks read, key by key, and why they refuse. */
module DescriptorKeys {
  import opened Prelude
  import opened Operators
  import opened ModelDescriptor

  // --- Values under keys --------------------------------------------------

  /** The key holds this positive count, in either width. */
  predicate CountAt(m: Manifest, key: string, n: u64) {
    && key in m.metadata && n > 0
    && match m.metadata[key]
       case MU32(v) => v == n
       case MU64(v) => v == n
       case _ => false
  }

  predicate FloatAt(m: Manifest, key: string, x: Float) {
    key in m.metadata && m.metadata[key] == MF32(x) && Positive(x)
  }

  lemma CountRead(m: Manifest, key: string, n: u64)
    ensures Required(m, key) == Ok(n) <==> CountAt(m, key, n)
  {
  }

  lemma FloatRead(m: Manifest, key: string, x: Float)
    ensures RequiredFloat(m, key) == Ok(x) <==> FloatAt(m, key, x)
  {
  }

  /** The model family's name, which starts all its keys. */
  function FamilyName(a: Architecture): string {
    match a case Llama => "llama" case Qwen3 => "qwen3"
  }

  function Key(a: Architecture, suffix: string): string {
    FamilyName(a) + "." + suffix
  }

  /** Metadata that belongs to another executor: experts, state space, recurrence,
      low-rank attention or a sliding window, unless given as zero. */
  predicate ForOthers(key: string) {
    EndsWith(key, ".expert_count") || EndsWith(key, ".expert_used_count") || Contains(key, ".ssm.")
    || Contains(key, ".recurrent.") || Contains(key, "lora_rank") || EndsWith(key, ".attention.sliding_window")
  }

  /** The geometry a manifest's metadata give, written key by key. */
  ghost predicate GivesGeometry(m: Manifest, g: Geometry) {
    var a := g.architecture;
    && "general.architecture" in m.metadata && m.metadata["general.architecture"] == MString(FamilyName(a))
    && (forall key :: key in m.metadata && ForOthers(key) ==> m.metadata[key] == MU32(0) || m.metadata[key] == MU64(0))
    && CountAt(m, Key(a, "embedding_length"), g.hidden)
    && CountAt(m, Key(a, "attention.head_count"), g.heads)
    && CountAt(m, Key(a, "attention.head_count_kv"), g.kvHeads) && g.heads % g.kvHeads == 0
    && HeadGiven(m, g, Key(a, "attention.key_length"), Key(a, "attention.value_length"))
    && RopeGiven(m, g, Key(a, "rope.dimension_count"))
    && CountAt(m, Key(a, "block_count"), g.layers)
    && CountAt(m, Key(a, "context_length"), g.context)
    && CountAt(m, Key(a, "feed_forward_length"), g.ffn)
    && FloatAt(m, Key(a, "attention.layer_norm_rms_epsilon"), g.rmsEpsilon)
    && FloatAt(m, Key(a, "rope.freq_base"), g.ropeBase)
  }

  /** The head width is the key's, or without the key, for the one family that may
      lack it, the hidden width over the heads; a value width must agree. */
  predicate HeadGiven(m: Manifest, g: Geometry, keyLength: string, valueLength: string) {
    && (if g.architecture.Qwen3? || keyLength in m.metadata then CountAt(m, keyLength, g.headDim)
        else g.heads > 0 && g.hidden == g.heads * g.headDim && g.headDim > 0)
    && (valueLength in m.metadata ==> CountAt(m, valueLength, g.headDim))
  }

  /** The rotated dimensions are the key's, or without it all of the head. */
  predicate RopeGiven(m: Manifest, g: Geometry, key: string) {
    && (if key in m.metadata then CountAt(m, key, g.ropeDimensions) else g.ropeDimensions == g.headDim)
    && g.ropeDimensions <= g.headDim && g.ropeDimensions % 2 == 0
  }

  lemma KeyIs(a: Architecture, suffix: string)
    ensures Prefix(a) + suffix == Key(a, suffix)
  {
  }

  lemma FamilyRead(m: Manifest, a: Architecture)
    ensures ArchitectureOf(m) == Ok(a) <==>
      "general.architecture" in m.metadata && m.metadata["general.architecture"] == MString(FamilyName(a))
  {
    assert "llama" != "qwen3" by {
      assert "llama"[0] != "qwen3"[0];
    }
  }

  lemma OthersRead(m: Manifest)
    ensures (exists key :: key in m.metadata && OtherExecutor(key, m.metadata[key])) <==>
      !(forall key :: key in m.metadata && ForOthers(key) ==> m.metadata[key] == MU32(0) || m.metadata[key] == MU64(0))
  {
    assert forall key :: key in m.metadata ==>
      (OtherExecutor(key, m.metadata[key]) <==> ForOthers(key) && m.metadata[key] != MU32(0) && m.metadata[key] != MU64(0));
  }

  lemma QuotientIs(hidden: nat, heads: nat, headDim: nat)
    requires heads > 0
    ensures hidden % heads == 0 && hidden / heads == headDim <==> hidden == heads * headDim
  {
    assert hidden == heads * (hidden / heads) + hidden % heads;
    if hidden == heads * headDim {
      assert heads * (headDim - hidden / heads) == hidden % heads;
      if headDim > hidden / heads {
        AtLeast(heads, headDim - hidden / heads);
      }
    }
  }

  lemma AtLeast(a: nat, b: nat)
    requires b > 0
    ensures a * b >= a
  {
  }

  lemma HeadRead(m: Manifest, g: Geometry)
    requires g.hidden > 0 && g.heads > 0
    ensures CheckedHeadDim(m, g.architecture, g.hidden, g.heads) == Ok(g.headDim) <==>
      HeadGiven(m, g, Key(g.architecture, "attention.key_length"), Key(g.architecture, "attention.value_length"))
  {
    KeyIs(g.architecture, "attention.key_length");
    KeyIs(g.architecture, "attention.value_length");
    CountRead(m, Prefix(g.architecture) + "attention.key_length", g.headDim);
    CountRead(m, Prefix(g.architecture) + "attention.value_length", g.headDim);
    QuotientIs(g.hidden, g.heads, g.headDim);
  }

  lemma RopeRead(m: Manifest, g: Geometry)
    requires g.headDim > 0
    ensures RopeDimensions(m, g.architecture, g.headDim) == Ok(g.ropeDimensions) <==>
      RopeGiven(m, g, Key(g.architecture, "rope.dimension_count"))
  {
    KeyIs(g.architecture, "rope.dimension_count");
    CountRead(m, Prefix(g.architecture) + "rope.dimension_count", g.ropeDimensions);
  }

  /** The keys read directly. */
  lemma CountsRead(m: Manifest, g: Geometry)
    ensures var a, p := g.architecture, Prefix(g.architecture);
            && (Required(m, p + "embedding_length") == Ok(g.hidden) <==> CountAt(m, Key(a, "embedding_length"), g.hidden))
            && (Required(m, p + "attention.head_count") == Ok(g.heads) <==> CountAt(m, Key(a, "attention.head_count"), g.heads))
            && (Required(m, p + "attention.head_count_kv") == Ok(g.kvHeads) <==>
                CountAt(m, Key(a, "attention.head_count_kv"), g.kvHeads))
  {
    KeyIs(g.architecture, "embedding_length");
    KeyIs(g.architecture, "attention.head_count");
    KeyIs(g.architecture, "attention.head_count_kv");
    CountRead(m, Prefix(g.architecture) + "embedding_length", g.hidden);
    CountRead(m, Prefix(g.architecture) + "attention.head_count", g.heads);
    CountRead(m, Prefix(g.architecture) + "attention.head_count_kv", g.kvHeads);
  }

  lemma SizesRead(m: Manifest, g: Geometry)
    ensures var a, p := g.architecture, Prefix(g.architecture);
            && (Required(m, p + "block_count") == Ok(g.layers) <==> CountAt(m, Key(a, "block_count"), g.layers))
            && (Required(m, p + "context_length") == Ok(g.context) <==> CountAt(m, Key(a, "context_length"), g.context))
            && (Required(m, p + "feed_forward_length") == Ok(g.ffn) <==> CountAt(m, Key(a, "feed_forward_length"), g.ffn))
  {
    KeyIs(g.architecture, "block_count");
    KeyIs(g.architecture, "context_length");
    KeyIs(g.architecture, "feed_forward_length");
    CountRead(m, Prefix(g.architecture) + "block_count", g.layers);
    CountRead(m, Prefix(g.architecture) + "context_length", g.context);
    CountRead(m, Prefix(g.architecture) + "feed_forward_length", g.ffn);
  }

  lemma FloatsRead(m: Manifest, g: Geometry)
    ensures var a, p := g.architecture, Prefix(g.architecture);
            && (RequiredFloat(m, p + "attention.layer_norm_rms_epsilon") == Ok(g.rmsEpsilon) <==>
                FloatAt(m, Key(a, "attention.layer_norm_rms_epsilon"), g.rmsEpsilon))
            && (RequiredFloat(m, p + "rope.freq_base") == Ok(g.ropeBase) <==> FloatAt(m, Key(a, "rope.freq_base"), g.ropeBase))
  {
    KeyIs(g.architecture, "attention.layer_norm_rms_epsilon");
    KeyIs(g.architecture, "rope.freq_base");
    FloatRead(m, Prefix(g.architecture) + "attention.layer_norm_rms_epsilon", g.rmsEpsilon);
    FloatRead(m, Prefix(g.architecture) + "rope.freq_base", g.ropeBase);
  }

  function HeadDimsIn(g: Geometry): HeadDims {
    HeadDims(g.hidden, g.heads, g.kvHeads, g.headDim, g.ropeDimensions)
  }

  function SizesIn(g: Geometry): Sizes {
    Sizes(g.layers, g.context, g.ffn, g.rmsEpsilon, g.ropeBase)
  }

  lemma GeometryByPart(m: Manifest, g: Geometry)
    ensures GeometryOf(m) == Ok(g) <==>
      && ArchitectureOf(m) == Ok(g.architecture)
      && !(exists key :: key in m.metadata && OtherExecutor(key, m.metadata[key]))
      && HeadDimsOf(m, g.architecture) == Ok(HeadDimsIn(g))
      && SizesOf(m, g.architecture) == Ok(SizesIn(g))
  {
  }

  lemma SizesByStep(m: Manifest, g: Geometry)
    ensures var p := Prefix(g.architecture);
      SizesOf(m, g.architecture) == Ok(SizesIn(g)) <==>
        && Required(m, p + "block_count") == Ok(g.layers)
        && Required(m, p + "context_length") == Ok(g.context)
        && Required(m, p + "feed_forward_length") == Ok(g.ffn)
        && RequiredFloat(m, p + "attention.layer_norm_rms_epsilon") == Ok(g.rmsEpsilon)
        && RequiredFloat(m, p + "rope.freq_base") == Ok(g.ropeBase)
  {
  }

  lemma HeadsByStep(m: Manifest, g: Geometry)
    ensures var p := Prefix(g.architecture);
      HeadDimsOf(m, g.architecture) == Ok(HeadDimsIn(g)) <==>
        && Required(m, p + "embedding_length") == Ok(g.hidden)
        && Required(m, p + "attention.head_count") == Ok(g.heads)
        && Required(m, p + "attention.head_count_kv") == Ok(g.kvHeads)
        && g.hidden > 0 && g.heads > 0 && g.kvHeads > 0 && g.heads % g.kvHeads == 0
        && CheckedHeadDim(m, g.architecture, g.hidden, g.heads) == Ok(g.headDim) && g.headDim > 0
        && RopeDimensions(m, g.architecture, g.headDim) == Ok(g.ropeDimensions)
  {
  }

  lemma SizesAreGiven(m: Manifest, g: Geometry)
    ensures var a := g.architecture;
      SizesOf(m, g.architecture) == Ok(SizesIn(g)) <==>
        && CountAt(m, Key(a, "block_count"), g.layers)
        && CountAt(m, Key(a, "context_length"), g.context)
        && CountAt(m, Key(a, "feed_forward_length"), g.ffn)
        && FloatAt(m, Key(a, "attention.layer_norm_rms_epsilon"), g.rmsEpsilon)
        && FloatAt(m, Key(a, "rope.freq_base"), g.ropeBase)
  {
    SizesByStep(m, g);
    SizesRead(m, g);
    FloatsRead(m, g);
  }

  lemma HeadsAreGiven(m: Manifest, g: Geometry)
    ensures var a := g.architecture;
      HeadDimsOf(m, g.architecture) == Ok(HeadDimsIn(g)) <==>
        && CountAt(m, Key(a, "embedding_length"), g.hidden)
        && CountAt(m, Key(a, "attention.head_count"), g.heads)
        && CountAt(m, Key(a, "attention.head_count_kv"), g.kvHeads) && g.heads % g.kvHeads == 0
        && HeadGiven(m, g, Key(a, "attention.key_length"), Key(a, "attention.value_length"))
        && RopeGiven(m, g, Key(a, "rope.dimension_count"))
  {
    HeadsByStep(m, g);
    CountsRead(m, g);
    if g.hidden > 0 && g.heads > 0 {
      HeadRead(m, g);
    }
    if g.headDim > 0 {
      RopeRead(m, g);
    }
  }

  /** The metadata checks give exactly the geometry that the keys say, and give one
      whenever the keys say any: no field comes from another key. */
  lemma GeometryIsGiven(m: Manifest, g: Geometry)
    ensures GeometryOf(m) == Ok(g) <==> GivesGeometry(m, g)
  {
    GeometryByPart(m, g);
    FamilyRead(m, g.architecture);
    OthersRead(m);
    HeadsAreGiven(m, g);
    SizesAreGiven(m, g);
  }

  // --- Why metadata are refused -------------------------------------------

  predicate CountReason(m: Manifest, key: string, e: Code) {
    match e
    case MissingMetadata => key !in m.metadata
    case InvalidMetadataType => key in m.metadata && !m.metadata[key].MU32? && !m.metadata[key].MU64?
    case InvalidDimension => key in m.metadata && (m.metadata[key] == MU32(0) || m.metadata[key] == MU64(0))
    case _ => false
  }

  predicate FloatReason(m: Manifest, key: string, e: Code) {
    match e
    case MissingMetadata => key !in m.metadata
    case InvalidMetadata => key in m.metadata && !(m.metadata[key].MF32? && Positive(m.metadata[key].x))
    case _ => false
  }

  predicate FamilyReason(m: Manifest, e: Code) {
    var key := "general.architecture";
    match e
    case MissingMetadata => key !in m.metadata || !m.metadata[key].MString?
    case UnsupportedArchitecture =>
      key in m.metadata && m.metadata[key].MString? && m.metadata[key].s != "llama" && m.metadata[key].s != "qwen3"
    case _ => false
  }

  /** One of the counts the head dimensions are read from is bad. */
  predicate HeadCountReason(m: Manifest, a: Architecture, e: Code) {
    CountReason(m, Key(a, "embedding_length"), e) || CountReason(m, Key(a, "attention.head_count"), e)
    || CountReason(m, Key(a, "attention.head_count_kv"), e) || CountReason(m, Key(a, "attention.key_length"), e)
    || CountReason(m, Key(a, "attention.value_length"), e) || CountReason(m, Key(a, "rope.dimension_count"), e)
  }

  /** The counts are good and do not go together. */
  ghost predicate HeadsReason(m: Manifest, a: Architecture, e: Code) {
    match e
    case InvalidGqa =>
      exists heads: u64, kvHeads: u64 ::
        CountAt(m, Key(a, "attention.head_count"), heads) && CountAt(m, Key(a, "attention.head_count_kv"), kvHeads)
        && heads % kvHeads != 0
    case InvalidHeadDimension =>
      a.Llama? && Key(a, "attention.key_length") !in m.metadata
      && exists hidden: u64, heads: u64 ::
           CountAt(m, Key(a, "embedding_length"), hidden) && CountAt(m, Key(a, "attention.head_count"), heads) && hidden % heads != 0
    case UnsupportedValueDimension =>
      exists g: Geometry, value: u64 ::
        g.architecture == a && HeadWidth(m, g) && CountAt(m, Key(a, "attention.value_length"), value) && value != g.headDim
    case InvalidRope =>
      exists g: Geometry ::
        g.architecture == a && HeadWidth(m, g) && RopeWidth(m, g) && (g.ropeDimensions > g.headDim || g.ropeDimensions % 2 != 0)
    case _ => false
  }

  /** The head width of a geometry is the one given, whatever else is. */
  predicate HeadWidth(m: Manifest, g: Geometry) {
    var a := g.architecture;
    && CountAt(m, Key(a, "embedding_length"), g.hidden) && CountAt(m, Key(a, "attention.head_count"), g.heads)
    && if g.architecture.Qwen3? || Key(a, "attention.key_length") in m.metadata then CountAt(m, Key(a, "attention.key_length"), g.headDim)
       else g.hidden == g.heads * g.headDim
  }

  predicate RopeWidth(m: Manifest, g: Geometry) {
    var key := Key(g.architecture, "rope.dimension_count");
    if key in m.metadata then CountAt(m, key, g.ropeDimensions) else g.ropeDimensions == g.headDim
  }

  predicate SizesReason(m: Manifest, a: Architecture, e: Code) {
    CountReason(m, Key(a, "block_count"), e) || CountReason(m, Key(a, "context_length"), e)
    || CountReason(m, Key(a, "feed_forward_length"), e)
    || FloatReason(m, Key(a, "attention.layer_norm_rms_epsilon"), e) || FloatReason(m, Key(a, "rope.freq_base"), e)
  }

  /** The code is true of the metadata: the key, the value or the pair of values it
      complains of is there. */
  ghost predicate Reason(m: Manifest, e: Code) {
    || FamilyReason(m, e)
    || (e == UnsupportedExecutionRequirement &&
        exists key :: key in m.metadata && ForOthers(key) && m.metadata[key] != MU32(0) && m.metadata[key] != MU64(0))
    || exists a :: ArchitectureOf(m) == Ok(a) && PartReason(m, a, e)
  }

  ghost predicate PartReason(m: Manifest, a: Architecture, e: Code) {
    HeadCountReason(m, a, e) || HeadsReason(m, a, e) || SizesReason(m, a, e)
  }

  lemma CountRefused(m: Manifest, a: Architecture, suffix: string)
    ensures Prefix(a) + suffix == Key(a, suffix) && CountOrReason(m, Required(m, Prefix(a) + suffix), Key(a, suffix))
  {
    KeyIs(a, suffix);
  }

  lemma FloatRefused(m: Manifest, a: Architecture, suffix: string)
    ensures RequiredFloat(m, Prefix(a) + suffix).Err? ==>
              FloatReason(m, Key(a, suffix), RequiredFloat(m, Prefix(a) + suffix).error)
  {
    KeyIs(a, suffix);
  }

  lemma SizeCountsRefused(m: Manifest, a: Architecture, e: Code)
    ensures var p := Prefix(a);
            && (Required(m, p + "block_count") == Err(e) ==> CountReason(m, Key(a, "block_count"), e))
            && (Required(m, p + "context_length") == Err(e) ==> CountReason(m, Key(a, "context_length"), e))
  {
    CountRefused(m, a, "block_count");
    CountRefused(m, a, "context_length");
  }

  lemma WidthRefused(m: Manifest, a: Architecture, e: Code)
    requires Required(m, Prefix(a) + "feed_forward_length") == Err(e)
    ensures CountReason(m, Key(a, "feed_forward_length"), e)
  {
    CountRefused(m, a, "feed_forward_length");
  }

  lemma SizeFloatsRefused(m: Manifest, a: Architecture, e: Code)
    ensures var p := Prefix(a);
            && (RequiredFloat(m, p + "attention.layer_norm_rms_epsilon") == Err(e) ==>
                FloatReason(m, Key(a, "attention.layer_norm_rms_epsilon"), e))
            && (RequiredFloat(m, p + "rope.freq_base") == Err(e) ==> FloatReason(m, Key(a, "rope.freq_base"), e))
  {
    FloatRefused(m, a, "attention.layer_norm_rms_epsilon");
    FloatRefused(m, a, "rope.freq_base");
  }

  lemma SizesFail(m: Manifest, a: Architecture, e: Code)
    requires SizesOf(m, a) == Err(e)
    ensures var p := Prefix(a);
            || Required(m, p + "block_count") == Err(e) || Required(m, p + "context_length") == Err(e)
            || Required(m, p + "feed_forward_length") == Err(e)
            || RequiredFloat(m, p + "attention.layer_norm_rms_epsilon") == Err(e)
            || RequiredFloat(m, p + "rope.freq_base") == Err(e)
  {
  }

  lemma SizesRefused(m: Manifest, a: Architecture, e: Code)
    requires SizesOf(m, a) == Err(e)
    ensures SizesReason(m, a, e)
  {
    SizesFail(m, a, e);
    SizeCountsRefused(m, a, e);
    if Required(m, Prefix(a) + "feed_forward_length") == Err(e) {
      WidthRefused(m, a, e);
    }
    SizeFloatsRefused(m, a, e);
  }

  /** Some geometry with these fields, to speak of widths. */
  function Sketch(a: Architecture, hidden: u64, heads: u64, headDim: u64, ropeDimensions: u64): Geometry {
    Geometry(a, 0, hidden, heads, 0, headDim, 0, 0, NaN, NaN, ropeDimensions)
  }

  lemma WidthRead(m: Manifest, a: Architecture, hidden: u64, heads: u64, ropeDimensions: u64)
    requires CountAt(m, Key(a, "embedding_length"), hidden) && CountAt(m, Key(a, "attention.head_count"), heads)
    ensures HeadDim(m, a, hidden, heads).Err? ==>
      || CountReason(m, Key(a, "attention.key_length"), HeadDim(m, a, hidden, heads).error)
      || (HeadDim(m, a, hidden, heads).error == InvalidHeadDimension && HeadsReason(m, a, InvalidHeadDimension))
    ensures HeadDim(m, a, hidden, heads).Ok? ==>
      HeadWidth(m, Sketch(a, hidden, heads, HeadDim(m, a, hidden, heads).value, ropeDimensions))
  {
    CountRefused(m, a, "attention.key_length");
    if hidden % heads == 0 {
      QuotientIs(hidden, heads, hidden / heads);
    }
  }

  lemma ValueRefused(m: Manifest, a: Architecture, hidden: u64, heads: u64)
    requires CountAt(m, Key(a, "embedding_length"), hidden) && CountAt(m, Key(a, "attention.head_count"), heads)
    ensures CheckedHeadDim(m, a, hidden, heads).Err? ==> PartReason(m, a, CheckedHeadDim(m, a, hidden, heads).error)
    ensures CheckedHeadDim(m, a, hidden, heads).Ok? ==> CheckedHeadDim(m, a, hidden, heads) == HeadDim(m, a, hidden, heads)
  {
    WidthRead(m, a, hidden, heads, 0);
    CountRefused(m, a, "attention.value_length");
    if HeadDim(m, a, hidden, heads).Ok? {
      var g := Sketch(a, hidden, heads, HeadDim(m, a, hidden, heads).value, 0);
      assert g.architecture == a && HeadWidth(m, g);
    }
  }

  lemma RopeRefused(m: Manifest, a: Architecture, hidden: u64, heads: u64, headDim: u64)
    requires CountAt(m, Key(a, "embedding_length"), hidden) && CountAt(m, Key(a, "attention.head_count"), heads)
    requires HeadDim(m, a, hidden, heads) == Ok(headDim) && headDim > 0
    ensures RopeDimensions(m, a, headDim).Err? ==> PartReason(m, a, RopeDimensions(m, a, headDim).error)
  {
    CountRefused(m, a, "rope.dimension_count");
    var key := Prefix(a) + "rope.dimension_count";
    var rope := if key in m.metadata then Required(m, key) else Ok(headDim);
    if rope.Ok? {
      WidthRead(m, a, hidden, heads, rope.value);
      RopeMisfits(m, Sketch(a, hidden, heads, headDim, rope.value));
    }
  }

  lemma RopeMisfits(m: Manifest, g: Geometry)
    requires HeadWidth(m, g) && RopeWidth(m, g)
    ensures g.ropeDimensions > g.headDim || g.ropeDimensions % 2 != 0 ==> HeadsReason(m, g.architecture, InvalidRope)
  {
  }

  lemma HeadCountsRefused(m: Manifest, a: Architecture)
    ensures var p := Prefix(a);
            && CountOrReason(m, Required(m, p + "embedding_length"), Key(a, "embedding_length"))
            && CountOrReason(m, Required(m, p + "attention.head_count"), Key(a, "attention.head_count"))
            && CountOrReason(m, Required(m, p + "attention.head_count_kv"), Key(a, "attention.head_count_kv"))
  {
    CountRefused(m, a, "embedding_length");
    CountRefused(m, a, "attention.head_count");
    CountRefused(m, a, "attention.head_count_kv");
  }

  /** A count read is the key's, and one refused has its reason there. */
  predicate CountOrReason(m: Manifest, r: Result<u64, Code>, key: string) {
    match r case Ok(n) => CountAt(m, key, n) case Err(e) => CountReason(m, key, e)
  }

  lemma HeadsRefused(m: Manifest, a: Architecture)
    ensures HeadDimsOf(m, a).Err? ==> PartReason(m, a, HeadDimsOf(m, a).error)
  {
    HeadCountsRefused(m, a);
    var p := Prefix(a);
    var hidden, heads := Required(m, p + "embedding_length"), Required(m, p + "attention.head_count");
    if hidden.Ok? && heads.Ok? {
      ValueRefused(m, a, hidden.value, heads.value);
      if CheckedHeadDim(m, a, hidden.value, heads.value).Ok? {
        RopeRefused(m, a, hidden.value, heads.value, CheckedHeadDim(m, a, hidden.value, heads.value).value);
      }
    }
  }

  /** Metadata that give no geometry are refused with a code that is true of them. */
  lemma RefusalHasReason(m: Manifest)
    ensures GeometryOf(m).Err? <==> forall g :: !GivesGeometry(m, g)
    ensures GeometryOf(m).Err? ==> Reason(m, GeometryOf(m).error)
  {
    forall g {
      GeometryIsGiven(m, g);
    }
    if GeometryOf(m).Ok? {
      assert GivesGeometry(m, GeometryOf(m).value);
    }
    OthersRead(m);
    if ArchitectureOf(m).Ok? {
      HeadsRefused(m, ArchitectureOf(m).value);
      if SizesOf(m, ArchitectureOf(m).value).Err? {
        SizesRefused(m, ArchitectureOf(m).value, SizesOf(m, ArchitectureOf(m).value).error);
      }
    }
  }
}
