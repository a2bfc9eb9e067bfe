/** What an accepted manifest holds, tensor by tensor and name by name. */
module ManifestTensors {
  import opened Prelude
  import opened Operators
  import opened ModelDescriptor
  import opened PlanMeaning
  import opened DescriptorKeys

  // --- What the tensors add -----------------------------------------------

  /** The first tensor of a name. */
  ghost predicate IsFirst(tensors: seq<Tensor>, name: string, t: Tensor) {
    exists i :: 0 <= i < |tensors| && tensors[i] == t && t.name == name && forall j :: 0 <= j < i ==> tensors[j].name != name
  }

  lemma {:induction false} LookupIsFirst(tensors: seq<Tensor>, name: string)
    ensures forall t :: Lookup(tensors, name) == Some(t) <==> IsFirst(tensors, name, t)
    ensures Lookup(tensors, name) == None <==> forall i :: 0 <= i < |tensors| ==> tensors[i].name != name
  {
    if tensors != [] {
      LookupIsFirst(tensors[1..], name);
      forall t
        ensures Lookup(tensors, name) == Some(t) <==> IsFirst(tensors, name, t)
      {
        FirstOrLater(tensors, name, t);
      }
    }
  }

  lemma FirstOrLater(tensors: seq<Tensor>, name: string, t: Tensor)
    requires tensors != []
    ensures IsFirst(tensors, name, t) <==>
      if tensors[0].name == name then t == tensors[0] else IsFirst(tensors[1..], name, t)
  {
    if IsFirst(tensors, name, t) {
      var i :| 0 <= i < |tensors| && tensors[i] == t && t.name == name && forall j :: 0 <= j < i ==> tensors[j].name != name;
      if tensors[0].name != name {
        assert tensors[1..][i - 1] == t;
        assert forall j :: 0 <= j < i - 1 ==> tensors[1..][j] == tensors[j + 1];
      }
    }
    if tensors[0].name != name && IsFirst(tensors[1..], name, t) {
      var i :| 0 <= i < |tensors[1..]| && tensors[1..][i] == t && forall j :: 0 <= j < i ==> tensors[1..][j].name != name;
      assert tensors[i + 1] == t;
      assert forall j :: 0 < j < i + 1 ==> tensors[j] == tensors[1..][j - 1];
    }
  }

  ghost predicate HasTensor(m: Manifest, name: string) {
    exists i :: 0 <= i < |m.tensors| && m.tensors[i].name == name
  }

  /** The vocabulary is the rows of the first embedding tensor, of the hidden width,
      and a tokenizer's list of tokens is as long. */
  ghost predicate GivesVocabulary(m: Manifest, hidden: u64, vocab: u64) {
    && (exists t :: IsFirst(m.tensors, "token_embd.weight", t) && t.dimensions == [hidden, vocab])
    && ("tokenizer.ggml.tokens" in m.metadata ==>
          m.metadata["tokenizer.ggml.tokens"].MArray? ==> m.metadata["tokenizer.ggml.tokens"].length == vocab)
  }

  lemma VocabularyIsGiven(m: Manifest, hidden: u64, vocab: u64)
    ensures VocabularyOf(m, hidden) == Ok(vocab) <==> GivesVocabulary(m, hidden, vocab)
  {
    LookupIsFirst(m.tensors, "token_embd.weight");
    var t := Lookup(m.tensors, "token_embd.weight");
    if t.Some? {
      assert IsFirst(m.tensors, "token_embd.weight", t.value);
      assert |t.value.dimensions| == 2 ==> t.value.dimensions == [t.value.dimensions[0], t.value.dimensions[1]];
    }
  }

  /** Main result: an accepted descriptor is what the manifest says, field by field:
      every number from its own key or its default, the vocabulary from the first
      embedding, an output head of its own exactly when there is one, and frequency
      factors exactly when there are some. */
  lemma DescriptorIsGiven(m: Manifest, d: Descriptor)
    requires Describes(m, d)
    ensures GivesGeometry(m, d.geometry) && GivesVocabulary(m, d.geometry.hidden, d.vocab)
    ensures d.outputHead == if HasTensor(m, "output.weight") then "output.weight" else "token_embd.weight"
    ensures d.ropeFactors == if HasTensor(m, "rope_freqs.weight") then Some("rope_freqs.weight") else None
  {
    GeometryIsGiven(m, d.geometry);
    VocabularyIsGiven(m, d.geometry.hidden, d.vocab);
    LookupIsFirst(m.tensors, "output.weight");
    LookupIsFirst(m.tensors, "rope_freqs.weight");
  }

  // --- What is accepted ---------------------------------------------------

  /** A tensor of the name and shape is there, the first of its name, in f32 or at
      least in a type the linear kernels read. */
  ghost predicate Meets(m: Manifest, need: Need) {
    exists t :: IsFirst(m.tensors, need.name, t) && t.dimensions == need.shape
      && if need.norm then t.ggmlType == 0 else t.ggmlType in {0, 1, 2, 6, 8, 12, 13, 14}
  }

  lemma MetIsNoError(m: Manifest, need: Need)
    ensures NeedError(m, need) == None <==> Meets(m, need)
  {
    LookupIsFirst(m.tensors, need.name);
    var t := Lookup(m.tensors, need.name);
    if t.Some? {
      assert IsFirst(m.tensors, need.name, t.value);
    }
  }

  /** Why a need is not met, by the code: no such tensor, or of the first one the
      shape, or the type. */
  ghost predicate UnmetFor(m: Manifest, need: Need, e: Code) {
    match e
    case MissingTensor => !HasTensor(m, need.name)
    case InvalidTensorShape => exists t :: IsFirst(m.tensors, need.name, t) && t.dimensions != need.shape
    case UnsupportedNormPrecision =>
      need.norm && exists t :: IsFirst(m.tensors, need.name, t) && t.dimensions == need.shape && t.ggmlType != 0
    case UnsupportedOperatorQuantization =>
      !need.norm && exists t :: IsFirst(m.tensors, need.name, t) && t.dimensions == need.shape
                                && t.ggmlType !in {0, 1, 2, 6, 8, 12, 13, 14}
    case _ => false
  }

  lemma UnmetHasReason(m: Manifest, need: Need, e: Code)
    ensures NeedError(m, need) == Some(e) <==> UnmetFor(m, need, e)
  {
    LookupIsFirst(m.tensors, need.name);
    var t := Lookup(m.tensors, need.name);
    if t.Some? {
      assert IsFirst(m.tensors, need.name, t.value);
    }
  }

  /** Why there is no vocabulary. */
  ghost predicate NoVocabularyFor(m: Manifest, hidden: u64, e: Code) {
    match e
    case MissingTensor => !HasTensor(m, "token_embd.weight")
    case InvalidTensorShape =>
      exists t :: IsFirst(m.tensors, "token_embd.weight", t) && forall vocab :: t.dimensions != [hidden, vocab]
    case VocabularyMismatch =>
      && "tokenizer.ggml.tokens" in m.metadata && m.metadata["tokenizer.ggml.tokens"].MArray?
      && exists t, vocab :: IsFirst(m.tensors, "token_embd.weight", t) && t.dimensions == [hidden, vocab]
           && m.metadata["tokenizer.ggml.tokens"].length != vocab
    case _ => false
  }

  lemma NoVocabularyHasReason(m: Manifest, hidden: u64, e: Code)
    ensures VocabularyOf(m, hidden) == Err(e) <==> NoVocabularyFor(m, hidden, e)
  {
    LookupIsFirst(m.tensors, "token_embd.weight");
    var t := Lookup(m.tensors, "token_embd.weight");
    if t.Some? {
      assert IsFirst(m.tensors, "token_embd.weight", t.value);
      assert |t.value.dimensions| == 2 ==> t.value.dimensions == [t.value.dimensions[0], t.value.dimensions[1]];
    }
  }

  /** What a manifest meets, as a test of needs. */
  ghost function MeetsOf(m: Manifest): Need -> bool {
    need => Meets(m, need)
  }

  ghost predicate AllMet(met: Need -> bool, needs: seq<Need>) {
    forall i :: 0 <= i < |needs| ==> met(needs[i])
  }

  lemma AllMetFirst(met: Need -> bool, needs: seq<Need>)
    requires needs != []
    ensures AllMet(met, needs) <==> met(needs[0]) && AllMet(met, needs[1..])
  {
    assert forall i :: 0 < i < |needs| ==> needs[i] == needs[1..][i - 1];
  }

  lemma {:induction false} AllMetIsNoError(m: Manifest, needs: seq<Need>)
    ensures BindError(m, needs) == None <==> AllMet(MeetsOf(m), needs)
  {
    if needs != [] {
      MetIsNoError(m, needs[0]);
      AllMetIsNoError(m, needs[1..]);
      AllMetFirst(MeetsOf(m), needs);
    }
  }

  /** No scaled positions and no transformed scores. */
  ghost predicate PlainMetadata(m: Manifest) {
    forall key :: key in m.metadata ==>
      && (Contains(key, ".rope.scaling.") ==> m.metadata[key] == MString("none"))
      && (Contains(key, "softcapping") || EndsWith(key, ".attention.scale") ==> m.metadata[key] == MF32(Finite(0.0)))
  }

  lemma PlainIsNotRefused(m: Manifest)
    ensures MetadataRefusals(m) == {} <==> PlainMetadata(m)
  {
    var scaled := exists key :: key in m.metadata && ScaledPositions(key, m.metadata[key]);
    var scores := exists key :: key in m.metadata && TransformedScores(key, m.metadata[key]);
    assert scaled ==> UnsupportedPositionSemantics in MetadataRefusals(m);
    assert scores ==> UnsupportedAttentionSemantics in MetadataRefusals(m);
  }

  // The tensors of the graph, by name.

  ghost predicate NormIn(met: Need -> bool, name: string, width: u64) {
    met(Need(name, [width], true))
  }

  ghost predicate MatrixIn(met: Need -> bool, name: string, input: u64, output: u64) {
    met(Need(name, [input, output], false))
  }

  ghost predicate LayerTensors(met: Need -> bool, g: Geometry, qwidth: u64, kvwidth: u64, layer: nat) {
    var w := WeightsOfLayer(layer);
    && NormIn(met, w.attnNorm, g.hidden)
    && MatrixIn(met, w.wq, g.hidden, qwidth) && MatrixIn(met, w.wk, g.hidden, kvwidth) && MatrixIn(met, w.wv, g.hidden, kvwidth)
    && MatrixIn(met, w.wo, qwidth, g.hidden)
    && NormIn(met, w.ffnNorm, g.hidden)
    && MatrixIn(met, w.gate, g.hidden, g.ffn) && MatrixIn(met, w.up, g.hidden, g.ffn) && MatrixIn(met, w.down, g.ffn, g.hidden)
    && (g.architecture.Qwen3? ==> NormIn(met, w.qNorm, g.headDim) && NormIn(met, w.kNorm, g.headDim))
  }

  ghost predicate ModelTensors(met: Need -> bool, m: Manifest, g: Geometry, vocab: u64) {
    && MatrixIn(met, "token_embd.weight", g.hidden, vocab) && NormIn(met, "output_norm.weight", g.hidden)
    && (HasTensor(m, "output.weight") ==> MatrixIn(met, "output.weight", g.hidden, vocab))
    && (HasTensor(m, "rope_freqs.weight") ==> NormIn(met, "rope_freqs.weight", g.ropeDimensions / 2))
  }

  ghost predicate NamedInLayer(a: Architecture, layer: nat, name: string) {
    var w := WeightsOfLayer(layer);
    || name == w.attnNorm || name == w.wq || name == w.wk || name == w.wv || name == w.wo
    || name == w.ffnNorm || name == w.gate || name == w.up || name == w.down
    || (a.Qwen3? && (name == w.qNorm || name == w.kNorm))
  }

  ghost predicate NamedOnce(name: string) {
    name == "token_embd.weight" || name == "output_norm.weight" || name == "output.weight" || name == "rope_freqs.weight"
  }

  /** Every tensor the graph needs is there, in shape and type, and no other one. */
  ghost predicate HasTensorsFor(m: Manifest, g: Geometry, vocab: u64, qwidth: u64, kvwidth: u64) {
    var met := MeetsOf(m);
    && ModelTensors(met, m, g, vocab)
    && (forall layer: nat :: layer < g.layers ==> LayerTensors(met, g, qwidth, kvwidth, layer))
    && forall t :: t in m.tensors ==>
         NamedOnce(t.name) || exists layer: nat :: layer < g.layers && NamedInLayer(g.architecture, layer, t.name)
  }

  lemma AllMetConcat(met: Need -> bool, a: seq<Need>, b: seq<Need>)
    ensures AllMet(met, a + b) <==> AllMet(met, a) && AllMet(met, b)
  {
    assert forall i :: 0 <= i < |a| ==> (a + b)[i] == a[i];
    assert forall i :: 0 <= i < |b| ==> (a + b)[|a| + i] == b[i];
  }

  lemma NamedConcat(a: seq<Need>, b: seq<Need>, t: Tensor)
    ensures Planned(a + b, t) <==> Planned(a, t) || Planned(b, t)
  {
    assert forall i :: 0 <= i < |a| ==> (a + b)[i] == a[i];
    assert forall i :: 0 <= i < |b| ==> (a + b)[|a| + i] == b[i];
  }

  lemma LayerIsMet(met: Need -> bool, g: Geometry, qwidth: u64, kvwidth: u64, layer: nat)
    ensures AllMet(met, LayerNeeds(g, qwidth, kvwidth, layer)) <==> LayerTensors(met, g, qwidth, kvwidth, layer)
  {
    NamesByRole(layer);
    var needs := LayerNeeds(g, qwidth, kvwidth, layer);
    ElevenMet(met, needs);
  }

  /** A list of nine or eleven needs, one by one. */
  lemma ElevenMet(met: Need -> bool, needs: seq<Need>)
    requires |needs| == 9 || |needs| == 11
    ensures AllMet(met, needs) <==>
      && met(needs[0]) && met(needs[1]) && met(needs[2]) && met(needs[3]) && met(needs[4])
      && met(needs[5]) && met(needs[6]) && met(needs[7]) && met(needs[8])
      && (|needs| == 11 ==> met(needs[9]) && met(needs[10]))
  {
  }

  lemma LayerIsNamed(g: Geometry, qwidth: u64, kvwidth: u64, layer: nat, t: Tensor)
    ensures Planned(LayerNeeds(g, qwidth, kvwidth, layer), t) <==> NamedInLayer(g.architecture, layer, t.name)
  {
    NamesByRole(layer);
    var needs := LayerNeeds(g, qwidth, kvwidth, layer);
    assert NamedInLayer(g.architecture, layer, t.name) <==>
      (needs[0].name == t.name || needs[1].name == t.name || needs[2].name == t.name || needs[3].name == t.name
       || needs[4].name == t.name || needs[5].name == t.name || needs[6].name == t.name || needs[7].name == t.name
       || needs[8].name == t.name || (|needs| == 11 && (needs[9].name == t.name || needs[10].name == t.name)));
  }

  lemma {:induction false} MetLayerByLayer(met: Need -> bool, g: Geometry, qwidth: u64, kvwidth: u64, layers: nat, layer: nat)
    requires AllMet(met, AllLayerNeeds(g, qwidth, kvwidth, layers)) && layer < layers
    ensures LayerTensors(met, g, qwidth, kvwidth, layer)
    decreases layers
  {
    AllMetConcat(met, AllLayerNeeds(g, qwidth, kvwidth, layers - 1), LayerNeeds(g, qwidth, kvwidth, layers - 1));
    if layer == layers - 1 {
      LayerIsMet(met, g, qwidth, kvwidth, layer);
    } else {
      MetLayerByLayer(met, g, qwidth, kvwidth, layers - 1, layer);
    }
  }

  lemma {:induction false} AllLayersMet(met: Need -> bool, g: Geometry, qwidth: u64, kvwidth: u64, layers: nat)
    requires forall layer: nat :: layer < layers ==> LayerTensors(met, g, qwidth, kvwidth, layer)
    ensures AllMet(met, AllLayerNeeds(g, qwidth, kvwidth, layers))
    decreases layers
  {
    if layers > 0 {
      AllLayersMet(met, g, qwidth, kvwidth, layers - 1);
      LayerIsMet(met, g, qwidth, kvwidth, layers - 1);
      AllMetConcat(met, AllLayerNeeds(g, qwidth, kvwidth, layers - 1), LayerNeeds(g, qwidth, kvwidth, layers - 1));
    }
  }

  lemma LayersAreMet(met: Need -> bool, g: Geometry, qwidth: u64, kvwidth: u64, layers: nat)
    ensures AllMet(met, AllLayerNeeds(g, qwidth, kvwidth, layers)) <==>
      forall layer: nat :: layer < layers ==> LayerTensors(met, g, qwidth, kvwidth, layer)
  {
    if AllMet(met, AllLayerNeeds(g, qwidth, kvwidth, layers)) {
      forall layer: nat | layer < layers
        ensures LayerTensors(met, g, qwidth, kvwidth, layer)
      {
        MetLayerByLayer(met, g, qwidth, kvwidth, layers, layer);
      }
    }
    if forall layer: nat :: layer < layers ==> LayerTensors(met, g, qwidth, kvwidth, layer) {
      AllLayersMet(met, g, qwidth, kvwidth, layers);
    }
  }

  lemma {:induction false} NamedInSomeLayer(g: Geometry, qwidth: u64, kvwidth: u64, layers: nat, t: Tensor)
    returns (layer: nat)
    requires Planned(AllLayerNeeds(g, qwidth, kvwidth, layers), t)
    ensures layer < layers && NamedInLayer(g.architecture, layer, t.name)
    decreases layers
  {
    layer := layers - 1;
    NamedConcat(AllLayerNeeds(g, qwidth, kvwidth, layer), LayerNeeds(g, qwidth, kvwidth, layer), t);
    if Planned(LayerNeeds(g, qwidth, kvwidth, layer), t) {
      LayerIsNamed(g, qwidth, kvwidth, layer, t);
    } else {
      layer := NamedInSomeLayer(g, qwidth, kvwidth, layer, t);
    }
  }

  lemma {:induction false} NamedIsPlanned(g: Geometry, qwidth: u64, kvwidth: u64, layers: nat, layer: nat, t: Tensor)
    requires layer < layers && NamedInLayer(g.architecture, layer, t.name)
    ensures Planned(AllLayerNeeds(g, qwidth, kvwidth, layers), t)
    decreases layers
  {
    NamedConcat(AllLayerNeeds(g, qwidth, kvwidth, layers - 1), LayerNeeds(g, qwidth, kvwidth, layers - 1), t);
    if layer == layers - 1 {
      LayerIsNamed(g, qwidth, kvwidth, layer, t);
    } else {
      NamedIsPlanned(g, qwidth, kvwidth, layers - 1, layer, t);
    }
  }

  lemma LayersAreNamed(g: Geometry, qwidth: u64, kvwidth: u64, layers: nat, t: Tensor)
    ensures Planned(AllLayerNeeds(g, qwidth, kvwidth, layers), t) <==>
      exists layer: nat :: layer < layers && NamedInLayer(g.architecture, layer, t.name)
  {
    if Planned(AllLayerNeeds(g, qwidth, kvwidth, layers), t) {
      var layer := NamedInSomeLayer(g, qwidth, kvwidth, layers, t);
    }
    forall layer: nat | layer < layers && NamedInLayer(g.architecture, layer, t.name)
      ensures Planned(AllLayerNeeds(g, qwidth, kvwidth, layers), t)
    {
      NamedIsPlanned(g, qwidth, kvwidth, layers, layer, t);
    }
  }

  lemma ModelIsMet(met: Need -> bool, m: Manifest, g: Geometry, vocab: u64)
    ensures AllMet(met, ModelNeeds(g, vocab, OutputHead(m), RopeFactors(m))) <==> ModelTensors(met, m, g, vocab)
  {
    LookupIsFirst(m.tensors, "output.weight");
    LookupIsFirst(m.tensors, "rope_freqs.weight");
    var needs := ModelNeeds(g, vocab, OutputHead(m), RopeFactors(m));
    if AllMet(met, needs) {
      assert met(needs[0]) && met(needs[1]) && met(needs[2]);
      assert |needs| == 4 ==> met(needs[3]);
    }
  }

  lemma ModelIsNamed(m: Manifest, g: Geometry, vocab: u64, t: Tensor)
    requires t in m.tensors
    ensures Planned(ModelNeeds(g, vocab, OutputHead(m), RopeFactors(m)), t) <==> NamedOnce(t.name)
  {
    LookupIsFirst(m.tensors, "output.weight");
    LookupIsFirst(m.tensors, "rope_freqs.weight");
    var needs := ModelNeeds(g, vocab, OutputHead(m), RopeFactors(m));
    assert NamedOnce(t.name) <==>
      (needs[0].name == t.name || needs[1].name == t.name || needs[2].name == t.name
       || (|needs| == 4 && needs[3].name == t.name));
  }

  /** The needs of the graph are the tensors named. */
  lemma NeedsAreTensors(m: Manifest, g: Geometry, vocab: u64, qwidth: u64, kvwidth: u64)
    ensures var needs := Needs(m, g, vocab, qwidth, kvwidth);
      AllMet(MeetsOf(m), needs) && (forall t :: t in m.tensors ==> Planned(needs, t)) <==>
        HasTensorsFor(m, g, vocab, qwidth, kvwidth)
  {
    var once, layered := ModelNeeds(g, vocab, OutputHead(m), RopeFactors(m)), AllLayerNeeds(g, qwidth, kvwidth, g.layers);
    var met := MeetsOf(m);
    AllMetConcat(met, once, layered);
    ModelIsMet(met, m, g, vocab);
    LayersAreMet(met, g, qwidth, kvwidth, g.layers);
    forall t | t in m.tensors
      ensures Planned(once + layered, t) <==>
        NamedOnce(t.name) || exists layer: nat :: layer < g.layers && NamedInLayer(g.architecture, layer, t.name)
    {
      NamedConcat(once, layered, t);
      ModelIsNamed(m, g, vocab, t);
      LayersAreNamed(g, qwidth, kvwidth, g.layers, t);
    }
  }

  ghost predicate TensorsAccepted(m: Manifest, g: Geometry, vocab: u64) {
    var qwidth, kvwidth := CheckedMul(g.heads, g.headDim), CheckedMul(g.kvHeads, g.headDim);
    qwidth.Some? && kvwidth.Some? && HasTensorsFor(m, g, vocab, qwidth.value, kvwidth.value)
  }

  ghost predicate AcceptedWith(m: Manifest, g: Geometry, vocab: u64) {
    GivesGeometry(m, g) && GivesVocabulary(m, g.hidden, vocab) && PlainMetadata(m) && TensorsAccepted(m, g, vocab)
  }

  lemma NeedsMetInTwo(m: Manifest, g: Geometry, vocab: u64, qwidth: u64, kvwidth: u64)
    ensures BindError(m, ModelNeeds(g, vocab, OutputHead(m), RopeFactors(m))) == None
         && BindError(m, AllLayerNeeds(g, qwidth, kvwidth, g.layers)) == None
       <==> AllMet(MeetsOf(m), Needs(m, g, vocab, qwidth, kvwidth))
  {
    BindErrorConcat(m, ModelNeeds(g, vocab, OutputHead(m), RopeFactors(m)), AllLayerNeeds(g, qwidth, kvwidth, g.layers));
    AllMetIsNoError(m, Needs(m, g, vocab, qwidth, kvwidth));
  }

  lemma RefusalsByPart(m: Manifest, g: Geometry, vocab: u64)
    ensures var qwidth, kvwidth := CheckedMul(g.heads, g.headDim), CheckedMul(g.kvHeads, g.headDim);
      GraphRefusals(m, g, vocab) == {} <==>
        && BindError(m, ModelNeeds(g, vocab, OutputHead(m), RopeFactors(m))) == None
        && qwidth.Some? && kvwidth.Some?
        && BindError(m, AllLayerNeeds(g, qwidth.value, kvwidth.value, g.layers)) == None
        && MetadataRefusals(m) == {}
        && forall t :: t in m.tensors ==> Planned(Needs(m, g, vocab, qwidth.value, kvwidth.value), t)
  {
  }

  /** The checks after the metadata, for a geometry and vocabulary read. */
  lemma TensorsDecide(m: Manifest, g: Geometry, vocab: u64)
    requires GeometryOf(m) == Ok(g) && VocabularyOf(m, g.hidden) == Ok(vocab)
    ensures Refusals(m) == {} <==> PlainMetadata(m) && TensorsAccepted(m, g, vocab)
  {
    RefusalsByPart(m, g, vocab);
    PlainIsNotRefused(m);
    var qwidth, kvwidth := CheckedMul(g.heads, g.headDim), CheckedMul(g.kvHeads, g.headDim);
    if qwidth.Some? && kvwidth.Some? {
      NeedsMetInTwo(m, g, vocab, qwidth.value, kvwidth.value);
      NeedsAreTensors(m, g, vocab, qwidth.value, kvwidth.value);
    }
  }

  /** Main result for acceptance, in the manifest's own terms: it is accepted if and
      only if some geometry and vocabulary are what its keys and embedding give, the
      graph of these has every tensor it needs, in shape and type, and no other
      tensor is there. */
  lemma AcceptedExactly(m: Manifest)
    ensures Refusals(m) == {} <==> exists g, vocab :: AcceptedWith(m, g, vocab)
  {
    forall g, vocab | AcceptedWith(m, g, vocab)
      ensures Refusals(m) == {}
    {
      GeometryIsGiven(m, g);
      VocabularyIsGiven(m, g.hidden, vocab);
      TensorsDecide(m, g, vocab);
    }
    if Refusals(m) == {} {
      ReadOfAccepted(m);
    }
  }

  lemma ReadOfAccepted(m: Manifest)
    requires Refusals(m) == {}
    ensures exists g, vocab :: AcceptedWith(m, g, vocab)
  {
    var g := GeometryOf(m).value;
    var vocab := VocabularyOf(m, g.hidden).value;
    GeometryIsGiven(m, g);
    VocabularyIsGiven(m, g.hidden, vocab);
    TensorsDecide(m, g, vocab);
    assert AcceptedWith(m, g, vocab);
  }
}
