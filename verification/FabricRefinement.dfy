/** The reactive fabric refines the sequential loop, whatever order facts are
    taken in: an invariant of every step, and what it gives at saturation. */
module FabricRefinement {
  import opened Prelude
  import opened Facts
  import opened FabricRules
  import opened FabricRun
  import opened FabricBudget
  import opened SequentialLoop

  /** The request the rules see. */
  ghost predicate Serves<E>(s: State<E>, r: Request) {
    && s.setup.promptLen == |r.prompt| && s.setup.promptTokenIds == r.prompt
    && s.setup.maxTokens == r.maxTokens && s.setup.eosToken == r.eosToken && s.setup.extraStopIds == r.stopIds
  }

  /** A state seeded for a request and not yet run; the environment, the clock
      budget and the legacy embeddings are arbitrary. */
  ghost predicate SeededFor<E>(s: State<E>, r: Request) {
    && Serves(s, r) && Untouched(s, r, s.env)
    && s.embeddingCache == map[] && s.dequantLog == [] && s.kvLog == []
  }

  /** Nothing has been generated and no hook has run. */
  ghost predicate Untouched<E>(s: State<E>, r: Request, env: E) {
    && s.env == env && s.ids == r.prompt && s.text == "" && s.pieces == [] && s.recent == [] && s.traced == []
    && s.halt == None && s.blockReason == None
  }

  function GenOf<E>(s: State<E>): Gen<E> {
    Gen(s.env, s.ids, s.text, s.pieces, s.traced)
  }

  function OutcomeOf<E>(s: State<E>): Outcome<E>
    requires s.halt.Some?
  {
    Outcome(s.env, s.ids, s.text, s.pieces, s.traced, s.halt.value, s.blockReason)
  }

  function Batch(r: Request): Fact
    requires |r.prompt| < TWO_TO_THE_32
  {
    PrefillBatchReady(|r.prompt|)
  }

  /** The embedding phase: how prompt tokens, requests, the cache and the ready
      facts depend on each other. */
  ghost predicate CacheInv<E>(h: Hooks<E>, r: Request, c: Config<E>) {
    var cache := c.state.embeddingCache;
    && (forall i: nat :: i < |r.prompt| ==> PromptToken(i, r.prompt[i]) in c.known)
    && (forall i: nat :: i < |r.prompt| && PromptToken(i, r.prompt[i]) in c.done ==> EmbeddingRequest(r.prompt[i]) in c.known)
    && (forall f :: f in c.known && (f.PromptToken? || f.EmbeddingRequest?) ==> f.tokenId in r.prompt)
    && (forall t: u32 :: t in cache <==> EmbeddingRequest(t) in c.done)
    && (forall t: u32 :: t in cache ==> cache[t] == h.dequant(t, h.dim))
    && (forall f :: f in c.known && f.EmbeddingReady? ==> f.tokenId in cache)
    && (forall t: u32 :: t in cache ==> EmbeddingReady(0, t) in c.known)
  }

  /** The batch is derived only when every embedding is cached, and cannot be missed. */
  ghost predicate BatchInv<E>(r: Request, c: Config<E>)
    requires |r.prompt| < TWO_TO_THE_32
  {
    var cached := forall t :: t in r.prompt ==> t in c.state.embeddingCache;
    && (forall f :: f in c.known && f.PrefillBatchReady? ==> f == Batch(r))
    && (Batch(r) in c.known ==> r.prompt != [] && cached)
    && (Batch(r) !in c.known && r.prompt != [] && cached ==> exists t: u32 :: EmbeddingReady(0, t) in c.pending)
  }

  ghost predicate EmbeddingInv<E>(h: Hooks<E>, r: Request, c: Config<E>)
    requires |r.prompt| < TWO_TO_THE_32
  {
    && CacheInv(h, r, c)
    && BatchInv(r, c)
    && NoDuplicates(c.state.dequantLog) && Elements(c.state.dequantLog) == c.state.embeddingCache.Keys
  }

  /** The thread of control: where generation stands is told by the one control
      fact that is pending, and continuing sequentially from there reaches `goal`. */
  ghost predicate ControlInv<E>(h: Hooks<E>, r: Request, env: E, goal: Outcome<E>, c: Config<E>)
    requires |r.prompt| < TWO_TO_THE_32
  {
    var controls := Controls(c.pending);
    && |controls| <= 1
    && if Batch(r) !in c.known then
         controls == [] && Untouched(c.state, r, env) && NoneKnown(c, 0)
       else if controls == [] then
         c.state.halt.Some? && OutcomeOf(c.state) == goal
       else
         Carries(h, r, env, goal, c, controls[0])
  }

  /** No decode step from number `step` on has been asserted, and for step 0 no
      prefill completion either. */
  ghost predicate NoneKnown<E>(c: Config<E>, step: nat) {
    && (forall f :: f in c.known && f.DecodeStep? ==> f.step < step)
    && (step == 0 ==> forall f :: f in c.known ==> !f.PrefillComplete?)
  }

  ghost predicate Carries<E>(h: Hooks<E>, r: Request, env: E, goal: Outcome<E>, c: Config<E>, f: Fact)
    requires |r.prompt| < TWO_TO_THE_32
  {
    var s := c.state;
    && s.halt == None && s.blockReason == None
    && match f
       case PrefillBatchReady(_) => f == Batch(r) && Untouched(s, r, env) && NoneKnown(c, 0)
       case PrefillComplete(_) =>
         && s.ids == r.prompt && s.recent == [] && (forall g :: g in c.known ==> !g.DecodeStep?)
         && NextToken(h, r, GenOf(s), s.logits, 0) == goal
       case DecodeStep(step, token, position) =>
         && position == |r.prompt| + step && |s.ids| == |r.prompt| + step + 1
         && s.recent == Window(s.ids, |r.prompt|)
         && NoneKnown(c, step + 1)
         && Continue(h, r, GenOf(s), token, step) == goal
       case _ => false
  }

  /** The invariant of every step. */
  ghost predicate Inv<E>(h: Hooks<E>, r: Request, env: E, c: Config<E>) {
    && |r.prompt| < TWO_TO_THE_32
    && StoreAgrees(c)
    && Serves(c.state, r)
    && EmbeddingInv(h, r, c)
    && ControlInv(h, r, env, Generate(h, r, env), c)
  }

  /** Rules outside the thread of control leave everything a caller observes alone. */
  lemma SideRulesKeepGeneration<E>(h: Hooks<E>, s: State<E>, f: Fact, elapsedMs: u32)
    requires !IsControl(f)
    ensures var s' := Fire(h, s, f, elapsedMs).0;
            && GenOf(s') == GenOf(s) && s'.recent == s.recent && s'.halt == s.halt && s'.blockReason == s.blockReason && s'.logits == s.logits
            && s'.setup == s.setup
  {
  }

  lemma {:induction false} BatchIsEmbed<E>(h: Hooks<E>, cache: map<u32, seq<F32>>, prompt: seq<u32>)
    requires forall t :: t in prompt ==> t in cache && cache[t] == h.dequant(t, h.dim)
    ensures FromCache(cache, prompt) == Embed(h, prompt)
  {
    if prompt != [] {
      BatchIsEmbed(h, cache, prompt[1..]);
    }
  }

  /** The one control fact among facts that are all distinct. */
  lemma {:induction false} OneControl(a: seq<Fact>, x: Fact)
    requires NoDuplicates(a) && x in a && IsControl(x)
    requires forall f :: f in a && IsControl(f) ==> f == x
    ensures Controls(a) == [x]
  {
    if a[0] == x {
      forall f | f in a[1..] ensures !IsControl(f) {
        assert f in a;
      }
      NoControls(a[1..]);
    } else {
      OneControl(a[1..], x);
    }
  }

  /** The control facts a step adds, told from what its rule derives. */
  lemma {:induction false} AddedControls(out: seq<Fact>, known: set<Fact>)
    ensures (forall f :: f in out ==> !IsControl(f)) ==> Controls(Fresh(out, known)) == []
    ensures forall x :: x in out && IsControl(x) && x !in known && (forall f :: f in out && IsControl(f) ==> f == x) ==>
              Controls(Fresh(out, known)) == [x]
    ensures (forall f :: f in out && IsControl(f) ==> f in known) ==> Controls(Fresh(out, known)) == []
  {
    var added := Fresh(out, known);
    forall f | f in added ensures f in out && f !in known {
      assert f in Elements(added);
    }
    if forall f :: f in out && IsControl(f) ==> f in known {
      NoControls(added);
    }
    forall x | x in out && IsControl(x) && x !in known && (forall f :: f in out && IsControl(f) ==> f == x)
      ensures Controls(added) == [x]
    {
      assert x in Elements(added);
      OneControl(added, x);
    }
  }

  /** The kinds of facts the embedding phase is about. */
  predicate IsEmbedding(f: Fact) {
    f.PromptToken? || f.EmbeddingRequest? || f.EmbeddingReady?
  }

  /** Facts other than embedding facts and the batch derive neither. */
  lemma {:induction false} OthersDeriveNoEmbedding<E>(h: Hooks<E>, s: State<E>, f: Fact, e: u32)
    requires !IsEmbedding(f)
    ensures forall g :: g in Fire(h, s, f, e).1 ==> !IsEmbedding(g) && !g.PrefillBatchReady?
    ensures Fire(h, s, f, e).0.embeddingCache == s.embeddingCache
    ensures Fire(h, s, f, e).0.dequantLog == s.dequantLog
  {
  }

  /** A step outside the embedding phase. */
  lemma {:induction false} EmbeddingStepOther<E>(
      h: Hooks<E>, r: Request, c: Config<E>, f: Fact, out: seq<Fact>, c': Config<E>)
    requires |r.prompt| < TWO_TO_THE_32 && EmbeddingInv(h, r, c) && StoreStep(c, f, out, c')
    requires !IsEmbedding(f) && forall g :: g in out ==> !IsEmbedding(g) && !g.PrefillBatchReady?
    requires c'.state.embeddingCache == c.state.embeddingCache && c'.state.dequantLog == c.state.dequantLog
    ensures EmbeddingInv(h, r, c')
  {
    KeepsReadyPending(r, c, f, out, c');
  }

  /** A ready fact that was pending and was not taken is pending still. */
  lemma {:induction false} KeepsReadyPending<E>(r: Request, c: Config<E>, f: Fact, out: seq<Fact>, c': Config<E>)
    requires StoreStep(c, f, out, c') && !f.EmbeddingReady?
    ensures (exists t: u32 :: EmbeddingReady(0, t) in c.pending) ==> (exists t: u32 :: EmbeddingReady(0, t) in c'.pending)
  {
    if t: u32 :| EmbeddingReady(0, t) in c.pending {
      assert EmbeddingReady(0, t) in c'.pending;
    }
  }

  lemma {:induction false} EmbeddingStepPrompt<E>(h: Hooks<E>, r: Request, c: Config<E>, f: Fact, c': Config<E>)
    requires |r.prompt| < TWO_TO_THE_32 && EmbeddingInv(h, r, c) && f.PromptToken?
    requires StoreStep(c, f, [EmbeddingRequest(f.tokenId)], c')
    requires c'.state.embeddingCache == c.state.embeddingCache && c'.state.dequantLog == c.state.dequantLog
    ensures EmbeddingInv(h, r, c')
  {
    KeepsReadyPending(r, c, f, [EmbeddingRequest(f.tokenId)], c');
  }

  /** A pending request is the first dequantisation of its token. */
  lemma {:induction false} RequestIsFirst<E>(h: Hooks<E>, r: Request, c: Config<E>, t: u32)
    requires |r.prompt| < TWO_TO_THE_32 && EmbeddingInv(h, r, c)
    requires EmbeddingRequest(t) in c.known && EmbeddingRequest(t) !in c.done
    ensures t in r.prompt && t !in c.state.embeddingCache && t !in c.state.dequantLog
    ensures EmbeddingReady(0, t) !in c.known && Batch(r) !in c.known
  {
    assert t !in Elements(c.state.dequantLog);
  }

  lemma {:induction false} NoDuplicatesSnoc<T>(s: seq<T>, x: T)
    requires NoDuplicates(s) && x !in s
    ensures NoDuplicates(s + [x]) && Elements(s + [x]) == Elements(s) + {x}
  {
  }

  /** Each token id is dequantised when its one request is taken. */
  lemma {:induction false} EmbeddingStepRequest<E>(h: Hooks<E>, r: Request, c: Config<E>, t: u32, c': Config<E>)
    requires |r.prompt| < TWO_TO_THE_32 && EmbeddingInv(h, r, c)
    requires StoreStep(c, EmbeddingRequest(t), [EmbeddingReady(0, t)], c')
    requires c'.state.embeddingCache == c.state.embeddingCache[t := h.dequant(t, h.dim)]
    requires c'.state.dequantLog == c.state.dequantLog + [t]
    ensures EmbeddingInv(h, r, c')
  {
    RequestIsFirst(h, r, c, t);
    NoDuplicatesSnoc(c.state.dequantLog, t);
    RequestKeepsCache(h, r, c, t, c');
    assert BatchInv(r, c') by {
      assert EmbeddingReady(0, t) in c'.pending;
    }
  }

  lemma {:induction false} RequestKeepsCache<E>(h: Hooks<E>, r: Request, c: Config<E>, t: u32, c': Config<E>)
    requires CacheInv(h, r, c) && t in r.prompt
    requires StoreStep(c, EmbeddingRequest(t), [EmbeddingReady(0, t)], c')
    requires c'.state.embeddingCache == c.state.embeddingCache[t := h.dequant(t, h.dim)]
    ensures CacheInv(h, r, c')
  {
  }

  lemma {:induction false} EmbeddingStepReady<E>(
      h: Hooks<E>, r: Request, c: Config<E>, f: Fact, out: seq<Fact>, c': Config<E>)
    requires |r.prompt| < TWO_TO_THE_32 && EmbeddingInv(h, r, c) && f.EmbeddingReady?
    requires StoreStep(c, f, out, c')
    requires r.prompt != [] ==> out == if AllEmbeddingsCached(c.state, r.prompt) then [Batch(r)] else []
    requires c'.state.embeddingCache == c.state.embeddingCache && c'.state.dequantLog == c.state.dequantLog
    ensures EmbeddingInv(h, r, c')
  {
    assert EmbeddingRequest(f.tokenId) in c.known && f.tokenId in r.prompt;
  }

  lemma {:induction false} StepKeepsEmbedding<E>(h: Hooks<E>, r: Request, c: Config<E>, i: nat, e: u32)
    requires |r.prompt| < TWO_TO_THE_32 && EmbeddingInv(h, r, c) && StoreAgrees(c) && Serves(c.state, r)
    requires i < |c.pending|
    ensures EmbeddingInv(h, r, Step(h, c, i, e))
  {
    var f, c' := c.pending[i], Step(h, c, i, e);
    StepStore(h, c, i, e);
    if IsEmbedding(f) {
      match f
      case PromptToken(_, _) => EmbeddingStepPrompt(h, r, c, f, c');
      case EmbeddingRequest(t) => EmbeddingStepRequest(h, r, c, t, c');
      case EmbeddingReady(_, _) => EmbeddingStepReady(h, r, c, f, OnEmbeddingReady(c.state), c');
    } else {
      OthersDeriveNoEmbedding(h, c.state, f, e);
      EmbeddingStepOther(h, r, c, f, Fire(h, c.state, f, e).1, c');
    }
  }

  /** A rule outside the thread of control derives no control fact but the batch. */
  lemma {:induction false} SideRulesDeriveNoControl<E>(h: Hooks<E>, s: State<E>, f: Fact, e: u32)
    requires !IsControl(f)
    ensures forall g :: g in Fire(h, s, f, e).1 && IsControl(g) ==> f.EmbeddingReady? && g == PrefillBatchReady(s.setup.promptLen)
  {
  }

  /** The control invariant speaks of nothing a side rule changes. */
  lemma {:induction false} ControlTransfers<E>(
      h: Hooks<E>, r: Request, env: E, goal: Outcome<E>, c: Config<E>, c': Config<E>)
    requires |r.prompt| < TWO_TO_THE_32 && ControlInv(h, r, env, goal, c)
    requires GenOf(c'.state) == GenOf(c.state) && c'.state.logits == c.state.logits && c'.state.recent == c.state.recent
    requires c'.state.halt == c.state.halt && c'.state.blockReason == c.state.blockReason
    requires Controls(c'.pending) == Controls(c.pending)
    requires forall g :: IsControl(g) ==> (g in c'.known <==> g in c.known)
    ensures ControlInv(h, r, env, goal, c')
  {
    assert NoneKnown(c, 0) ==> NoneKnown(c', 0);
    var controls := Controls(c.pending);
    if controls != [] && controls[0].DecodeStep? {
      assert NoneKnown(c, controls[0].step + 1) ==> NoneKnown(c', controls[0].step + 1);
    }
  }

  lemma {:induction false} ControlStepSide<E>(
      h: Hooks<E>, r: Request, env: E, goal: Outcome<E>, c: Config<E>, i: nat, e: u32)
    requires |r.prompt| < TWO_TO_THE_32 && StoreAgrees(c) && Serves(c.state, r) && ControlInv(h, r, env, goal, c)
    requires i < |c.pending| && !IsControl(c.pending[i])
    ensures ControlInv(h, r, env, goal, Step(h, c, i, e))
  {
    var f, c' := c.pending[i], Step(h, c, i, e);
    var out := Fire(h, c.state, f, e).1;
    StepStore(h, c, i, e);
    StepControls(h, c, i, e);
    SideRulesKeepGeneration(h, c.state, f, e);
    SideRulesDeriveNoControl(h, c.state, f, e);
    AddedControls(out, c.known);
    if Batch(r) !in c.known && Batch(r) in out {
      assert Controls(c'.pending) == [Batch(r)];
      assert forall g :: g in c'.known ==> g in c.known || g in out;
    } else {
      assert Controls(c'.pending) == Controls(c.pending);
      assert forall g :: IsControl(g) ==> (g in c'.known <==> g in c.known);
      ControlTransfers(h, r, env, goal, c, c');
    }
  }

  /** A pending control fact is the one that carries the generation. */
  lemma {:induction false} TheControl<E>(h: Hooks<E>, r: Request, env: E, c: Config<E>, i: nat)
    requires Inv(h, r, env, c) && i < |c.pending| && IsControl(c.pending[i])
    ensures Batch(r) in c.known && Controls(c.pending) == [c.pending[i]]
    ensures Carries(h, r, env, Generate(h, r, env), c, c.pending[i])
  {
    ControlsAreMembers(c.pending);
    assert c.pending[i] in Controls(c.pending);
  }

  /** What a control rule leaves behind, once the sequential loop at this point is
      known to reach `goal`: one control fact that carries on, or the outcome. */
  ghost predicate HandsOver<E>(h: Hooks<E>, r: Request, goal: Outcome<E>, s': State<E>, out: seq<Fact>, step: nat)
    requires |r.prompt| < TWO_TO_THE_32
  {
    if s'.halt.Some? then
      OutcomeOf(s') == goal && forall g :: g in out ==> !IsControl(g)
    else
      && s'.blockReason == None && |s'.ids| == |r.prompt| + step + 1 && s'.recent == Window(s'.ids, |r.prompt|)
      && var token := s'.ids[|r.prompt| + step];
         var next := DecodeStep(step, token, |r.prompt| + step);
      && next in out && (forall g :: g in out && IsControl(g) ==> g == next)
      && Continue(h, r, GenOf(s'), token, step) == goal
  }

  /** Recording a token moves the window on. */
  lemma {:induction false} WindowMoves(ids: seq<u32>, promptLen: nat, token: u32)
    requires promptLen <= |ids|
    ensures PushRecent(Window(ids, promptLen), token) == Window(ids + [token], promptLen)
  {
  }

  lemma {:induction false} FirstRecordMatches<E>(h: Hooks<E>, r: Request, s: State<E>, token: u32)
    requires |r.prompt| < TWO_TO_THE_32 && Serves(s, r)
    requires s.ids == r.prompt && s.recent == [] && s.halt == None && s.blockReason == None
    ensures var (s', out) := RecordFirst(h, s, token);
            HandsOver(h, r, Accept(h, r, GenOf(s), token, 0), s', out, 0)
  {
    var (s', out) := RecordFirst(h, s, token);
    WindowMoves(r.prompt, |r.prompt|, token);
    if s'.halt == None {
      assert out[0] == DecodeStep(0, token, |r.prompt| + 0);
    }
  }

  lemma {:induction false} FirstTokenMatches<E>(h: Hooks<E>, r: Request, s: State<E>)
    requires |r.prompt| < TWO_TO_THE_32 && Serves(s, r)
    requires s.ids == r.prompt && s.recent == [] && s.halt == None && s.blockReason == None
    ensures var (s', out) := OnPrefillComplete(h, s);
            HandsOver(h, r, NextToken(h, r, GenOf(s), s.logits, 0), s', out, 0)
  {
    var (env1, masked) := h.mask(s.env, s.logits);
    var (env2, sampled, candidate) := h.sample(env1, masked, s.recent);
    var (env3, decision) := h.control(env2, candidate, s.text, 0, s.ids, s.setup.promptLen);
    if decision.Allow? || decision.ForceToken? {
      var token, gated := Chosen(decision, candidate), s.(env := env3, logits := sampled);
      assert NextToken(h, r, GenOf(s), s.logits, 0) == Accept(h, r, GenOf(gated), token, 0);
      FirstRecordMatches(h, r, gated, token);
    }
  }

  lemma {:induction false} NextRecordMatches<E>(
      h: Hooks<E>, r: Request, s: State<E>, sampled: seq<F32>, token: u32, step: nat, observed: seq<Fact>)
    requires |r.prompt| < TWO_TO_THE_32 && Serves(s, r)
    requires |s.ids| == |r.prompt| + step + 1 && s.recent == Window(s.ids, |r.prompt|)
    requires s.halt == None && s.blockReason == None && forall g :: g in observed ==> !IsControl(g)
    ensures var (s', out) := RecordNext(h, s, sampled, token, step, |r.prompt| + step, observed);
            HandsOver(h, r, Accept(h, r, GenOf(s), token, step + 1), s', out, step + 1)
  {
    var (s', out) := RecordNext(h, s, sampled, token, step, |r.prompt| + step, observed);
    WindowMoves(s.ids, |r.prompt|, token);
    if s'.halt == None {
      assert out[1] == DecodeStep(step + 1, token, |r.prompt| + (step + 1));
    }
  }

  lemma {:induction false} NextTokenMatches<E>(
      h: Hooks<E>, r: Request, s: State<E>, logits: seq<F32>, step: nat, e: u32)
    requires |r.prompt| < TWO_TO_THE_32 && Serves(s, r) && logits != []
    requires |s.ids| == |r.prompt| + step + 1 && s.recent == Window(s.ids, |r.prompt|)
    requires s.halt == None && s.blockReason == None
    ensures var (s', out) := AfterForward(h, s, logits, step, |r.prompt| + step, e);
            HandsOver(h, r, NextToken(h, r, GenOf(s), logits, step + 1), s', out, step + 1)
  {
    var position := |r.prompt| + step;
    var (env1, masked) := h.mask(s.env, logits);
    var (env2, sampled, candidate) := h.sample(env1, masked, s.recent);
    var (env3, decision) := h.control(env2, candidate, s.text, Generated(s), s.ids, |s.ids|);
    if decision.Allow? || decision.ForceToken? {
      var token, gated := Chosen(decision, candidate), s.(env := env3, traced := s.traced + [(step + 1, masked)]);
      assert NextToken(h, r, GenOf(s), logits, step + 1) == Accept(h, r, GenOf(gated), token, step + 1);
      NextRecordMatches(h, r, gated, sampled, token, step,
                        [FinalLogits(position, h.rmsBits(masked), h.checksum(masked)),
                         DispatchCompleted(position, FullLayer, e)]);
    }
  }

  lemma DecodeGoesForward<E>(h: Hooks<E>, s: State<E>, step: nat, t: u32, position: nat, e: u32)
    requires step + 1 < s.setup.maxTokens && h.forward(s.env, [h.tokenValue(t)], position).2 != []
    ensures var (env0, _, logits) := h.forward(s.env, [h.tokenValue(t)], position);
            Fire(h, s, DecodeStep(step, t, position), e) == AfterForward(h, s.(env := env0), logits, step, position, e)
  {
  }

  lemma {:induction false} DecodeHalts<E>(h: Hooks<E>, r: Request, s: State<E>, step: nat, t: u32, e: u32)
    requires |r.prompt| < TWO_TO_THE_32 && Serves(s, r) && s.halt == None && s.blockReason == None
    requires step + 1 >= r.maxTokens || h.forward(s.env, [h.tokenValue(t)], |r.prompt| + step).2 == []
    ensures var (s', out) := Fire(h, s, DecodeStep(step, t, |r.prompt| + step), e);
            HandsOver(h, r, Continue(h, r, GenOf(s), t, step), s', out, step + 1)
  {
  }

  lemma {:induction false} DecodeStepMatches<E>(
      h: Hooks<E>, r: Request, goal: Outcome<E>, s: State<E>, step: nat, t: u32, e: u32)
    requires |r.prompt| < TWO_TO_THE_32 && Serves(s, r)
    requires |s.ids| == |r.prompt| + step + 1 && s.recent == Window(s.ids, |r.prompt|)
    requires s.halt == None && s.blockReason == None
    requires Continue(h, r, GenOf(s), t, step) == goal
    ensures var (s', out) := Fire(h, s, DecodeStep(step, t, |r.prompt| + step), e);
            HandsOver(h, r, goal, s', out, step + 1)
  {
    var (env0, _, logits) := h.forward(s.env, [h.tokenValue(t)], |r.prompt| + step);
    if step + 1 >= r.maxTokens || logits == [] {
      DecodeHalts(h, r, s, step, t, e);
    } else {
      assert goal == NextToken(h, r, GenOf(s.(env := env0)), logits, step + 1);
      NextTokenMatches(h, r, s.(env := env0), logits, step, e);
      DecodeGoesForward(h, s, step, t, |r.prompt| + step, e);
    }
  }

  /** The store takes over what a control rule hands over. */
  lemma {:induction false} TakesOver<E>(
      h: Hooks<E>, r: Request, env: E, goal: Outcome<E>, c: Config<E>, i: nat, e: u32, step: nat)
    requires |r.prompt| < TWO_TO_THE_32 && StoreAgrees(c) && i < |c.pending|
    requires Batch(r) in c.known && Controls(c.pending) == [c.pending[i]] && IsControl(c.pending[i])
    requires forall g :: g in c.known && g.DecodeStep? ==> g.step < step
    requires var (s', out) := Fire(h, c.state, c.pending[i], e);
             HandsOver(h, r, goal, s', out, step)
    ensures ControlInv(h, r, env, goal, Step(h, c, i, e))
  {
    var c' := Step(h, c, i, e);
    var (s', out) := Fire(h, c.state, c.pending[i], e);
    StepStore(h, c, i, e);
    StepControls(h, c, i, e);
    AddedControls(out, c.known);
    assert forall g :: g in c'.known ==> g in c.known || g in out;
    if s'.halt == None {
      var next := DecodeStep(step, s'.ids[|r.prompt| + step], |r.prompt| + step);
      assert Controls(c'.pending) == [next];
      assert NoneKnown(c', step + 1);
    } else {
      assert Controls(c'.pending) == [];
    }
  }

  lemma {:induction false} PrefillDerives<E>(h: Hooks<E>, s: State<E>, n: u32, e: u32)
    ensures var out := OnPrefillBatchReady(h, s, n, e).1;
            && PrefillComplete(n) in out
            && forall g :: g in out && IsControl(g) ==> g == PrefillComplete(n)
  {
    var out := OnPrefillBatchReady(h, s, n, e).1;
    assert out[n] == PrefillComplete(n);
    forall j | 0 <= j < |out| ensures IsControl(out[j]) ==> out[j] == PrefillComplete(n) {
      if j < n {
        assert out[j] == KvAdvances(n)[j];
      }
    }
  }

  /** The control facts once the batch has been taken. */
  lemma {:induction false} BatchControls<E>(h: Hooks<E>, r: Request, c: Config<E>, i: nat, e: u32)
    requires |r.prompt| < TWO_TO_THE_32 && StoreAgrees(c) && i < |c.pending| && c.pending[i] == Batch(r)
    requires Controls(c.pending) == [Batch(r)] && NoneKnown(c, 0)
    ensures var c' := Step(h, c, i, e);
            && Controls(c'.pending) == [PrefillComplete(|r.prompt|)] && Batch(r) in c'.known
            && forall g :: g in c'.known ==> !g.DecodeStep?
  {
    var c' := Step(h, c, i, e);
    var out := Fire(h, c.state, c.pending[i], e).1;
    StepStore(h, c, i, e);
    StepControls(h, c, i, e);
    PrefillDerives(h, c.state, |r.prompt|, e);
    AddedControls(out, c.known);
    forall g | g in c'.known ensures !g.DecodeStep? {
      assert g in c.known || g in out;
    }
  }

  /** Prefilling the cached batch is the loop's own prefill. */
  lemma {:induction false} BatchMatches<E>(h: Hooks<E>, r: Request, env: E, s: State<E>, e: u32)
    requires |r.prompt| < TWO_TO_THE_32 && Serves(s, r) && Untouched(s, r, env) && r.prompt != []
    requires forall t :: t in r.prompt ==> t in s.embeddingCache && s.embeddingCache[t] == h.dequant(t, h.dim)
    ensures var s' := Fire(h, s, Batch(r), e).0;
            && s'.halt == None && s'.blockReason == None && s'.ids == r.prompt && s'.recent == []
            && NextToken(h, r, GenOf(s'), s'.logits, 0) == Generate(h, r, env)
  {
    BatchIsEmbed(h, s.embeddingCache, r.prompt);
    assert r.prompt[0] in s.embeddingCache;
  }

  lemma {:induction false} ControlStepBatch<E>(h: Hooks<E>, r: Request, env: E, c: Config<E>, i: nat, e: u32)
    requires Inv(h, r, env, c) && i < |c.pending| && c.pending[i].PrefillBatchReady?
    ensures ControlInv(h, r, env, Generate(h, r, env), Step(h, c, i, e))
  {
    TheControl(h, r, env, c, i);
    BatchControls(h, r, c, i, e);
    BatchMatches(h, r, env, c.state, e);
    StepStore(h, c, i, e);
  }

  lemma {:induction false} ControlStepFirst<E>(h: Hooks<E>, r: Request, env: E, c: Config<E>, i: nat, e: u32)
    requires Inv(h, r, env, c) && i < |c.pending| && c.pending[i].PrefillComplete?
    ensures ControlInv(h, r, env, Generate(h, r, env), Step(h, c, i, e))
  {
    TheControl(h, r, env, c, i);
    FirstTokenMatches(h, r, c.state);
    TakesOver(h, r, env, Generate(h, r, env), c, i, e, 0);
  }

  lemma {:induction false} ControlStepDecode<E>(h: Hooks<E>, r: Request, env: E, c: Config<E>, i: nat, e: u32)
    requires Inv(h, r, env, c) && i < |c.pending| && c.pending[i].DecodeStep?
    ensures ControlInv(h, r, env, Generate(h, r, env), Step(h, c, i, e))
  {
    TheControl(h, r, env, c, i);
    DecodeTakesOver(h, r, env, Generate(h, r, env), c, i, e);
  }

  lemma {:induction false} DecodeTakesOver<E>(
      h: Hooks<E>, r: Request, env: E, goal: Outcome<E>, c: Config<E>, i: nat, e: u32)
    requires |r.prompt| < TWO_TO_THE_32 && StoreAgrees(c) && i < |c.pending| && Serves(c.state, r)
    requires Batch(r) in c.known && Controls(c.pending) == [c.pending[i]] && c.pending[i].DecodeStep?
    requires Carries(h, r, env, goal, c, c.pending[i])
    ensures ControlInv(h, r, env, goal, Step(h, c, i, e))
  {
    var step, t := c.pending[i].step, c.pending[i].tokenId;
    assert c.pending[i] == DecodeStep(step, t, |r.prompt| + step);
    DecodeStepMatches(h, r, goal, c.state, step, t, e);
    TakesOver(h, r, env, goal, c, i, e, step + 1);
  }

  lemma {:induction false} StepKeepsInv<E>(h: Hooks<E>, r: Request, env: E, c: Config<E>, i: nat, e: u32)
    requires Inv(h, r, env, c) && i < |c.pending|
    ensures Inv(h, r, env, Step(h, c, i, e))
  {
    StepStore(h, c, i, e);
    RuleKeepsSetup(h, c.state, c.pending[i], e);
    StepKeepsEmbedding(h, r, c, i, e);
    match c.pending[i]
    case PrefillBatchReady(_) => ControlStepBatch(h, r, env, c, i, e);
    case PrefillComplete(_) => ControlStepFirst(h, r, env, c, i, e);
    case DecodeStep(_, _, _) => ControlStepDecode(h, r, env, c, i, e);
    case _ => ControlStepSide(h, r, env, Generate(h, r, env), c, i, e);
  }

  lemma {:induction false} RunKeepsInv<E>(h: Hooks<E>, r: Request, env: E, c: Config<E>, schedule: seq<Choice>)
    requires Inv(h, r, env, c) && Runs(h, c, schedule)
    ensures Inv(h, r, env, Run(h, c, schedule))
    decreases |schedule|
  {
    if schedule != [] {
      StepKeepsInv(h, r, env, c, schedule[0].index, schedule[0].elapsedMs);
      RunKeepsInv(h, r, env, Step(h, c, schedule[0].index, schedule[0].elapsedMs), schedule[1..]);
    }
  }

  /** Asserting the prompt on a fabric that has seen only tensor facts. */
  lemma {:induction false} StartsInInv<E>(h: Hooks<E>, r: Request, c: Config<E>)
    requires BeforeRequest(c) && SeededFor(c.state, r)
    ensures Inv(h, r, c.state.env, Absorb(c, PromptFacts(r.prompt)))
  {
    var c' := Absorb(c, PromptFacts(r.prompt));
    PromptAsserted(c, r.prompt);
    EmbeddingAtStart(h, r, c');
    ControlAtStart(h, r, c');
  }

  /** Before anything is asked of the model. */
  lemma {:induction false} ControlAtStart<E>(h: Hooks<E>, r: Request, c: Config<E>)
    requires |r.prompt| < TWO_TO_THE_32 && Untouched(c.state, r, c.state.env)
    requires forall g :: g in c.known ==> g.TensorFact? || g.DispatchFact? || g.PromptToken?
    requires forall g :: g in c.pending ==> !IsControl(g)
    ensures ControlInv(h, r, c.state.env, Generate(h, r, c.state.env), c)
  {
    NoControls(c.pending);
  }

  /** Before any embedding fact but the prompt's is known. */
  lemma {:induction false} EmbeddingAtStart<E>(h: Hooks<E>, r: Request, c: Config<E>)
    requires |r.prompt| < TWO_TO_THE_32 && StoreAgrees(c)
    requires c.state.embeddingCache == map[] && c.state.dequantLog == []
    requires forall i: nat :: i < |r.prompt| ==> PromptToken(i, r.prompt[i]) in c.known
    requires forall g :: g in c.known ==> g.TensorFact? || g.DispatchFact? || (g.PromptToken? && g.tokenId in r.prompt)
    requires forall g :: g in c.done ==> g.TensorFact? || g.DispatchFact?
    ensures EmbeddingInv(h, r, c)
  {
    if r.prompt != [] {
      assert r.prompt[0] in r.prompt;
    }
  }

  /** At saturation a nonempty prompt has been answered, and an empty one has not. */
  lemma {:induction false} SaturatedMeansDone<E>(h: Hooks<E>, r: Request, env: E, c: Config<E>)
    requires Inv(h, r, env, c) && Saturated(c)
    ensures r.prompt != [] ==> c.state.halt.Some? && OutcomeOf(c.state) == Generate(h, r, env)
    ensures r.prompt == [] ==> c.state.halt == None
    ensures c.state.embeddingCache.Keys == Elements(r.prompt)
  {
    forall t | t in r.prompt ensures t in c.state.embeddingCache {
      var i :| 0 <= i < |r.prompt| && r.prompt[i] == t;
      assert PromptToken(i, r.prompt[i]) in c.done;
    }
    forall t | t in c.state.embeddingCache ensures t in r.prompt {
      assert EmbeddingRequest(t) in c.known;
    }
  }

  /** Main result: for every order in which pending facts are taken, and every
      reading of the clock, a saturated run of a nonempty prompt shows exactly
      what the sequential loop shows, and one of an empty prompt no halt reason. */
  lemma {:induction false} FabricRefinesLoop<E>(h: Hooks<E>, r: Request, c: Config<E>, schedule: seq<Choice>)
    requires BeforeRequest(c) && SeededFor(c.state, r)
    requires Runs(h, Absorb(c, PromptFacts(r.prompt)), schedule)
    requires Saturated(Run(h, Absorb(c, PromptFacts(r.prompt)), schedule))
    ensures var end := Run(h, Absorb(c, PromptFacts(r.prompt)), schedule).state;
            if r.prompt == [] then end.halt == None
            else end.halt.Some? && OutcomeOf(end) == Generate(h, r, c.state.env)
  {
    StartsInInv(h, r, c);
    RunKeepsInv(h, r, c.state.env, Absorb(c, PromptFacts(r.prompt)), schedule);
    SaturatedMeansDone(h, r, c.state.env, Run(h, Absorb(c, PromptFacts(r.prompt)), schedule));
  }

  lemma WindowIsSuffix(ids: seq<u32>, promptLen: nat)
    requires promptLen <= |ids|
    ensures var generated := ids[promptLen..];
            Window(ids, promptLen) == generated[|generated| - Min(64, |generated|)..]
  {
  }

  lemma {:induction false} WindowCarried<E>(h: Hooks<E>, r: Request, env: E, c: Config<E>, f: Fact)
    requires Inv(h, r, env, c) && f in c.pending && f.DecodeStep?
    ensures LastGenerated(c.state, |r.prompt|, f.step + 1)
  {
    var i :| 0 <= i < |c.pending| && c.pending[i] == f;
    TheControl(h, r, env, c, i);
    WindowIsSuffix(c.state.ids, |r.prompt|);
  }

  /** `n` tokens have been generated, and the last 64 of them are the recent ones. */
  predicate LastGenerated<E>(s: State<E>, promptLen: nat, n: nat) {
    && |s.ids| == promptLen + n
    && var generated := s.ids[promptLen..];
       s.recent == generated[n - Min(64, n)..]
  }

  /** The window of recent tokens, at every moment of every order: while a decode
      step is pending it is exactly the last 64 of the tokens generated, or all. */
  lemma {:induction false} WindowIsLastGenerated<E>(
      h: Hooks<E>, r: Request, c: Config<E>, schedule: seq<Choice>, f: Fact)
    requires BeforeRequest(c) && SeededFor(c.state, r) && Runs(h, Absorb(c, PromptFacts(r.prompt)), schedule)
    requires f.DecodeStep? && f in Run(h, Absorb(c, PromptFacts(r.prompt)), schedule).pending
    ensures LastGenerated(Run(h, Absorb(c, PromptFacts(r.prompt)), schedule).state, |r.prompt|, f.step + 1)
  {
    var at := Run(h, Absorb(c, PromptFacts(r.prompt)), schedule);
    StartsInInv(h, r, c);
    RunKeepsInv(h, r, c.state.env, Absorb(c, PromptFacts(r.prompt)), schedule);
    WindowCarried(h, r, c.state.env, at, f);
  }

  /** Two schedules that both saturate agree on everything a caller observes. */
  lemma {:induction false} SchedulesAgree<E>(h: Hooks<E>, r: Request, c: Config<E>, one: seq<Choice>, other: seq<Choice>)
    requires BeforeRequest(c) && SeededFor(c.state, r) && r.prompt != []
    requires var start := Absorb(c, PromptFacts(r.prompt));
             && Runs(h, start, one) && Saturated(Run(h, start, one))
             && Runs(h, start, other) && Saturated(Run(h, start, other))
    ensures var start := Absorb(c, PromptFacts(r.prompt));
            && Run(h, start, one).state.halt.Some? && Run(h, start, other).state.halt.Some?
            && OutcomeOf(Run(h, start, one).state) == OutcomeOf(Run(h, start, other).state)
  {
    FabricRefinesLoop(h, r, c, one);
    FabricRefinesLoop(h, r, c, other);
  }

  /** Embedding dedup agrees with the simple form: at every moment no token has
      been dequantised twice and only prompt tokens have, at saturation each has;
      the batch is known only once every token is cached, and is then the prompt's
      embeddings in prompt order. */
  ghost predicate DedupHolds<E>(h: Hooks<E>, r: Request, c: Config<E>) {
    var dequantised := Elements(c.state.dequantLog);
    && NoDuplicates(c.state.dequantLog)
    && dequantised <= Elements(r.prompt)
    && (Saturated(c) ==> dequantised == Elements(r.prompt))
    && (forall n :: PrefillBatchReady(n) in c.known ==>
          n == |r.prompt| && dequantised == Elements(r.prompt) && BatchedEmbeddings(c.state) == Embed(h, r.prompt))
  }

  lemma {:induction false} InvGivesDedup<E>(h: Hooks<E>, r: Request, env: E, c: Config<E>)
    requires Inv(h, r, env, c)
    ensures DedupHolds(h, r, c)
  {
    forall t | t in c.state.embeddingCache ensures t in r.prompt {
      assert EmbeddingRequest(t) in c.known;
    }
    if Saturated(c) {
      SaturatedMeansDone(h, r, env, c);
    }
    forall n | PrefillBatchReady(n) in c.known
      ensures n == |r.prompt| && Elements(c.state.dequantLog) == Elements(r.prompt)
              && BatchedEmbeddings(c.state) == Embed(h, r.prompt)
    {
      assert PrefillBatchReady(n) == Batch(r);
      assert r.prompt[0] in c.state.embeddingCache;
      BatchIsEmbed(h, c.state.embeddingCache, r.prompt);
    }
  }

  lemma {:induction false} DequantisedOnce<E>(h: Hooks<E>, r: Request, c: Config<E>, schedule: seq<Choice>)
    requires BeforeRequest(c) && SeededFor(c.state, r)
    requires Runs(h, Absorb(c, PromptFacts(r.prompt)), schedule)
    ensures DedupHolds(h, r, Run(h, Absorb(c, PromptFacts(r.prompt)), schedule))
  {
    StartsInInv(h, r, c);
    RunKeepsInv(h, r, c.state.env, Absorb(c, PromptFacts(r.prompt)), schedule);
    InvGivesDedup(h, r, c.state.env, Run(h, Absorb(c, PromptFacts(r.prompt)), schedule));
  }
}
