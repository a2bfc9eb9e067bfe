/** The rules of the Inference Saturation Fabric, as functions from the shared
    state and one fact to the new state and the facts derived. */
module FabricRules {
  import opened Prelude
  import opened Facts

  /** What a control hook answers for the sampled candidate. */
  datatype Decision = Allow | ForceToken(token: u64) | EarlyExit | Block(reason: string)

  /** The callbacks a session is built from. Everything they share and update
      (GPU buffers, sampler state, control state, error slots) is one
      environment of type `E`, threaded explicitly through each call. */
  datatype Hooks<!E> = Hooks(
    dim: u32,
    dequant: (u32, u32) -> seq<F32>,
    prefill: (E, seq<F32>, u32) -> (E, seq<F32>, seq<F32>),
    forward: (E, seq<F32>, nat) -> (E, seq<F32>, seq<F32>),
    mask: (E, seq<F32>) -> (E, seq<F32>),
    sample: (E, seq<F32>, seq<u32>) -> (E, seq<F32>, u32),
    control: (E, u32, string, nat, seq<u32>, nat) -> (E, Decision),
    onToken: (E, string) -> E,
    decode: u32 -> string,
    tokenValue: u32 -> F32,
    rmsBits: seq<F32> -> u32,
    checksum: seq<F32> -> int)

  /** The token a decision lets through; a forced `usize` id is cut to 32 bits. */
  function Chosen(decision: Decision, candidate: u32): u32 {
    if decision.ForceToken? then decision.token % TWO_TO_THE_32 else candidate
  }

  const EMPTY_LOGITS: string := "GPU forward pass returned empty logits"
  const RECENT_WINDOW: nat := 64

  /** What a session is given and its rules only read. `embeddings` is the legacy
      per-position store; the reactive path goes by `promptTokenIds`. */
  datatype Setup = Setup(
    promptLen: u32,
    maxTokens: u32,
    eosToken: u32,
    extraStopIds: seq<u32>,
    promptTokenIds: seq<u32>,
    embeddings: seq<Option<seq<F32>>>,
    tdrBudgetMs: nat)

  /** The working memory the rules share. The logs record effects that leave the
      fabric: `pieces` the streamed text, `dequantLog` the embedding dequantisations,
      `kvLog` the KV increments, `traced` the trace callback's log without its clock. */
  datatype State<E> = State(
    setup: Setup,
    env: E,
    text: string,
    logits: seq<F32>,
    halt: Option<HaltReason>,
    pieces: seq<string>,
    recent: seq<u32>,
    blockReason: Option<string>,
    ids: seq<u32>,
    traced: seq<(nat, seq<F32>)>,
    tdrAccumulatedMs: nat,
    tdrYieldCount: nat,
    embeddingCache: map<u32, seq<F32>>,
    dequantLog: seq<u32>,
    kvLog: seq<nat>)

  predicate AllEmbeddingsReady<E>(s: State<E>) {
    forall i :: 0 <= i < |s.setup.embeddings| ==> s.setup.embeddings[i].Some?
  }

  predicate AllEmbeddingsCached<E>(s: State<E>, tokenIds: seq<u32>) {
    forall t :: t in tokenIds ==> t in s.embeddingCache
  }

  /** Cached embeddings in prompt order; a missing one contributes nothing. */
  function FromCache(cache: map<u32, seq<F32>>, tokenIds: seq<u32>): seq<F32> {
    if tokenIds == [] then []
    else (if tokenIds[0] in cache then cache[tokenIds[0]] else []) + FromCache(cache, tokenIds[1..])
  }

  /** The legacy path; the fabric reaches it only when every position is filled. */
  function FromPositions(embeddings: seq<Option<seq<F32>>>): seq<F32> {
    if embeddings == [] then []
    else (match embeddings[0] case Some(v) => v case None => []) + FromPositions(embeddings[1..])
  }

  lemma {:induction false} PositionsInOrder(rows: seq<seq<F32>>)
    ensures FromPositions(seq(|rows|, (i: nat) requires i < |rows| => Some(rows[i]))) == Flatten(rows)
  {
    if rows != [] {
      var filled := seq(|rows|, (i: nat) requires i < |rows| => Some(rows[i]));
      PositionsInOrder(rows[1..]);
      assert filled[1..] == seq(|rows[1..]|, (i: nat) requires i < |rows[1..]| => Some(rows[1..][i]));
    }
  }

  function BatchedEmbeddings<E>(s: State<E>): seq<F32> {
    if s.setup.promptTokenIds != [] && s.embeddingCache != map[] then
      FromCache(s.embeddingCache, s.setup.promptTokenIds)
    else
      FromPositions(s.setup.embeddings)
  }

  /** The repetition-penalty window: the last 64 tokens. */
  function PushRecent(recent: seq<u32>, token: u32): seq<u32> {
    var pushed := recent + [token];
    if |pushed| > RECENT_WINDOW then pushed[1..] else pushed
  }

  function KvAdvances(n: nat): seq<Fact> {
    seq(n, (i: nat) => KvAdvance(i))
  }

  function SlotForType(quantType: u32): Option<u32> {
    match quantType
    case 0 => Some(0)
    case 1 => Some(1)
    case 2 => Some(2)
    case 6 => Some(3)
    case 8 => Some(4)
    case 12 => Some(5)
    case 13 => Some(6)
    case 14 => Some(7)
    case _ => None
  }

  /** Exactly eight types are supported, and their slots number them in order. */
  lemma SlotsNumberTypes(a: u32, b: u32)
    ensures SlotForType(a).Some? <==> a in {0, 1, 2, 6, 8, 12, 13, 14}
    ensures SlotForType(a).Some? ==> SlotForType(a).value < 8
    ensures SlotForType(a).Some? && SlotForType(b).Some? ==> (a < b <==> SlotForType(a).value < SlotForType(b).value)
  {
  }

  // The rules, in the order in which the session registers them.

  function OnPromptToken(tokenId: u32): seq<Fact> {
    [EmbeddingRequest(tokenId)]
  }

  function OnEmbeddingRequest<E>(h: Hooks<E>, s: State<E>, tokenId: u32): (State<E>, seq<Fact>) {
    var s' := s.(embeddingCache := s.embeddingCache[tokenId := h.dequant(tokenId, h.dim)],
                 dequantLog := s.dequantLog + [tokenId]);
    (s', [EmbeddingReady(0, tokenId)])
  }

  function OnEmbeddingReady<E>(s: State<E>): seq<Fact> {
    var allReady := if s.setup.promptTokenIds != [] then AllEmbeddingsCached(s, s.setup.promptTokenIds)
                    else AllEmbeddingsReady(s);
    if allReady then [PrefillBatchReady(s.setup.promptLen)] else []
  }

  function OnPrefillBatchReady<E>(h: Hooks<E>, s: State<E>, tokenCount: u32, elapsedMs: u32): (State<E>, seq<Fact>) {
    var (env, hidden, logits) := h.prefill(s.env, BatchedEmbeddings(s), tokenCount);
    (s.(env := env, logits := logits),
     KvAdvances(tokenCount) + [
       PrefillComplete(tokenCount),
       LayerOutput(0, tokenCount, h.rmsBits(hidden), h.checksum(hidden)),
       FinalLogits(tokenCount, h.rmsBits(logits), h.checksum(logits)),
       DispatchCompleted(0, FullLayer, elapsedMs)])
  }

  /** Stop without recording a token. */
  function HaltedBy<E>(s: State<E>, blockReason: Option<string>): (State<E>, seq<Fact>) {
    (s.(halt := Some(ControlHalt), blockReason := blockReason), [GenerationHalt(ControlHalt)])
  }

  function OnPrefillComplete<E>(h: Hooks<E>, s: State<E>): (State<E>, seq<Fact>) {
    var (env1, masked) := h.mask(s.env, s.logits);
    var (env2, sampled, candidate) := h.sample(env1, masked, s.recent);
    var (env3, decision) := h.control(env2, candidate, s.text, 0, s.ids, s.setup.promptLen);
    var s1 := s.(env := env3, logits := sampled);
    match decision
    case EarlyExit => HaltedBy(s1, s.blockReason)
    case Block(reason) => HaltedBy(s1, Some(reason))
    case _ => RecordFirst(h, s1, Chosen(decision, candidate))
  }

  function RecordFirst<E>(h: Hooks<E>, s: State<E>, token: u32): (State<E>, seq<Fact>) {
    var s1 := s.(recent := PushRecent(s.recent, token), ids := s.ids + [token]);
    if token == s.setup.eosToken then
      (s1.(halt := Some(EosToken)), [GenerationHalt(EosToken)])
    else if token in s.setup.extraStopIds then
      (s1.(halt := Some(ExtraStopToken)), [GenerationHalt(ExtraStopToken)])
    else
      var piece := h.decode(token);
      (s1.(text := s.text + piece, pieces := s.pieces + [piece], env := h.onToken(s.env, piece)),
       [DecodeStep(0, token, s.setup.promptLen)])
  }

  function OnKvAdvance<E>(s: State<E>, position: nat): (State<E>, seq<Fact>) {
    (s.(kvLog := s.kvLog + [position]), [KvWritten])
  }

  /** Tokens generated so far (`saturating_sub`). */
  function Generated<E>(s: State<E>): nat {
    if |s.ids| >= s.setup.promptLen then |s.ids| - s.setup.promptLen else 0
  }

  function OnDecodeStep<E>(h: Hooks<E>, s: State<E>, step: nat, tokenId: u32, position: nat, elapsedMs: u32)
    : (State<E>, seq<Fact>)
  {
    if step + 1 >= s.setup.maxTokens then
      (s.(halt := Some(MaxTokensReached)), [GenerationHalt(MaxTokensReached)])
    else
      var (env0, _, logits) := h.forward(s.env, [h.tokenValue(tokenId)], position);
      if logits == [] then
        HaltedBy(s.(env := env0), Some(EMPTY_LOGITS))
      else
        AfterForward(h, s.(env := env0), logits, step, position, elapsedMs)
  }

  function AfterForward<E>(h: Hooks<E>, s: State<E>, logits: seq<F32>, step: nat, position: nat, elapsedMs: u32)
    : (State<E>, seq<Fact>)
  {
    var (env1, masked) := h.mask(s.env, logits);
    var (env2, sampled, candidate) := h.sample(env1, masked, s.recent);
    var (env3, decision) := h.control(env2, candidate, s.text, Generated(s), s.ids, |s.ids|);
    var s1 := s.(env := env3, traced := s.traced + [(Generated(s), masked)]);
    match decision
    case EarlyExit => HaltedBy(s1, s.blockReason)
    case Block(reason) => HaltedBy(s1, Some(reason))
    case _ =>
      RecordNext(h, s1, sampled, Chosen(decision, candidate), step, position,
                 [FinalLogits(position, h.rmsBits(masked), h.checksum(masked)),
                  DispatchCompleted(position, FullLayer, elapsedMs)])
  }

  function RecordNext<E>(
      h: Hooks<E>, s: State<E>, sampled: seq<F32>, token: u32, step: nat, position: nat, observed: seq<Fact>)
    : (State<E>, seq<Fact>)
  {
    var s1 := s.(ids := s.ids + [token]);
    if token == s.setup.eosToken then
      (s1.(halt := Some(EosToken)), [GenerationHalt(EosToken)])
    else if token in s.setup.extraStopIds then
      (s1.(halt := Some(ExtraStopToken)), [GenerationHalt(ExtraStopToken)])
    else
      var piece := h.decode(token);
      (s1.(text := s.text + piece, logits := sampled, recent := PushRecent(s.recent, token),
           pieces := s.pieces + [piece], env := h.onToken(s.env, piece)),
       [KvAdvance(position), DecodeStep(step + 1, token, position + 1)] + observed)
  }

  function OnDispatchCompleted<E>(s: State<E>, layer: nat, elapsedMs: u32): (State<E>, seq<Fact>) {
    var s' := s.(tdrAccumulatedMs := s.tdrAccumulatedMs + elapsedMs);
    (s', if s'.tdrAccumulatedMs >= s.setup.tdrBudgetMs then [TdrRiskHigh(layer)] else [])
  }

  function OnTdrRiskHigh<E>(s: State<E>, layer: nat): (State<E>, seq<Fact>) {
    (s.(tdrAccumulatedMs := 0, tdrYieldCount := s.tdrYieldCount + 1), [YieldNow(layer, TdrBudgetExceeded)])
  }

  function OnTensorFact(quantType: u32, offset: u64): seq<Fact> {
    match SlotForType(quantType)
    case Some(slot) => [DispatchFact(quantType, slot, offset)]
    case None => []
  }

  /** Fire the rule registered for a fact's kind; `elapsedMs` is the clock's reading. */
  function Fire<E>(h: Hooks<E>, s: State<E>, f: Fact, elapsedMs: u32): (State<E>, seq<Fact>) {
    match f
    case PromptToken(_, t) => (s, OnPromptToken(t))
    case EmbeddingRequest(t) => OnEmbeddingRequest(h, s, t)
    case EmbeddingReady(_, _) => (s, OnEmbeddingReady(s))
    case PrefillBatchReady(n) => OnPrefillBatchReady(h, s, n, elapsedMs)
    case PrefillComplete(_) => OnPrefillComplete(h, s)
    case KvAdvance(p) => OnKvAdvance(s, p)
    case DecodeStep(step, t, p) => OnDecodeStep(h, s, step, t, p, elapsedMs)
    case DispatchCompleted(layer, _, ms) => OnDispatchCompleted(s, layer, ms)
    case TdrRiskHigh(layer) => OnTdrRiskHigh(s, layer)
    case TensorFact(q, _, offset, _) => (s, OnTensorFact(q, offset))
    case _ => (s, [])
  }
}
