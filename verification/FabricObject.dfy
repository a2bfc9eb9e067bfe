/** The session as an object: the shared mutable state its rules update in place,
    the fact store and queue, and the call that asserts a prompt and runs the
    rules until nothing is pending. Each method is proved against the rule or
    step function it carries out. */
module FabricObject {
  import opened Prelude
  import opened Facts
  import opened FabricRules
  import opened FabricRun
  import opened FabricBudget
  import opened SequentialLoop
  import opened FabricRefinement

  class ISFState<E(!new)> {
    const setup: Setup
    var env: E
    var generatedText: string
    var logits: seq<F32>
    var halt: Option<HaltReason>
    var pieces: seq<string>
    var recentTokens: seq<u32>
    var blockReason: Option<string>
    var allTokenIds: seq<u32>
    var traced: seq<(nat, seq<F32>)>
    var tdrAccumulatedMs: nat
    var tdrYieldCount: nat
    var embeddingCache: map<u32, seq<F32>>
    var dequantLog: seq<u32>
    var kvLog: seq<nat>

    function View(): State<E>
      reads this
    {
      State(setup, env, generatedText, logits, halt, pieces, recentTokens, blockReason, allTokenIds, traced,
            tdrAccumulatedMs, tdrYieldCount, embeddingCache, dequantLog, kvLog)
    }

    /** A new state, and the prompt ids its caller stores before the run. */
    constructor (promptIds: seq<u32>, maxTokens: u32, eosToken: u32, extraStopIds: seq<u32>, tdrBudgetMs: nat, env: E)
      requires |promptIds| < TWO_TO_THE_32
      ensures SeededFor(View(), Request(promptIds, maxTokens, eosToken, extraStopIds))
      ensures View().env == env && View().setup.tdrBudgetMs == tdrBudgetMs
      ensures View().tdrAccumulatedMs == 0 && View().tdrYieldCount == 0
    {
      this.setup := Setup(|promptIds|, maxTokens, eosToken, extraStopIds, promptIds,
                          seq(|promptIds|, _ => None), tdrBudgetMs);
      this.env := env;
      this.generatedText, this.logits, this.halt := "", [], None;
      this.pieces, this.recentTokens, this.blockReason := [], [], None;
      this.allTokenIds := promptIds;
      this.traced, this.dequantLog, this.kvLog := [], [], [];
      this.tdrAccumulatedMs, this.tdrYieldCount := 0, 0;
      this.embeddingCache := map[];
    }

    method EmbeddingRequested(h: Hooks<E>, tokenId: u32) returns (out: seq<Fact>)
      modifies this
      ensures (View(), out) == OnEmbeddingRequest(h, old(View()), tokenId)
    {
      var embedding := h.dequant(tokenId, h.dim);
      dequantLog := dequantLog + [tokenId];
      embeddingCache := embeddingCache[tokenId := embedding];
      out := [EmbeddingReady(0, tokenId)];
    }

    method BatchReady(h: Hooks<E>, tokenCount: u32, elapsedMs: u32) returns (out: seq<Fact>)
      modifies this
      ensures (View(), out) == OnPrefillBatchReady(h, old(View()), tokenCount, elapsedMs)
    {
      var batched := BatchedEmbeddings(View());
      var (env', hidden, newLogits) := h.prefill(env, batched, tokenCount);
      env, logits := env', newLogits;
      out := [];
      for position := 0 to tokenCount
        invariant |out| == position && forall j :: 0 <= j < position ==> out[j] == KvAdvance(j)
      {
        out := out + [KvAdvance(position)];
      }
      assert out == KvAdvances(tokenCount);
      out := out + [
        PrefillComplete(tokenCount),
        LayerOutput(0, tokenCount, h.rmsBits(hidden), h.checksum(hidden)),
        FinalLogits(tokenCount, h.rmsBits(newLogits), h.checksum(newLogits)),
        DispatchCompleted(0, FullLayer, elapsedMs)];
    }

    /** Apply a control decision: stop, or let a token through. */
    method Gate(decision: Decision, candidate: u32) returns (stopped: bool, token: u32)
      modifies this`halt, this`blockReason
      ensures stopped == (decision.EarlyExit? || decision.Block?)
      ensures halt == if stopped then Some(ControlHalt) else old(halt)
      ensures blockReason == if decision.Block? then Some(decision.reason) else old(blockReason)
      ensures token == Chosen(decision, candidate)
    {
      stopped, token := false, candidate;
      match decision
      case Allow =>
      case ForceToken(t) => token := t % TWO_TO_THE_32;
      case EarlyExit =>
        halt, stopped := Some(ControlHalt), true;
      case Block(reason) =>
        blockReason, halt, stopped := Some(reason), Some(ControlHalt), true;
    }

    method PrefillCompleted(h: Hooks<E>) returns (out: seq<Fact>)
      modifies this
      ensures (View(), out) == OnPrefillComplete(h, old(View()))
    {
      var (env1, masked) := h.mask(env, logits);
      var (env2, sampled, candidate) := h.sample(env1, masked, recentTokens);
      var (env3, decision) := h.control(env2, candidate, generatedText, 0, allTokenIds, setup.promptLen);
      logits, env := sampled, env3;
      var stopped, token := Gate(decision, candidate);
      if stopped {
        out := [GenerationHalt(ControlHalt)];
      } else {
        out := FirstRecorded(h, token);
      }
    }

    method FirstRecorded(h: Hooks<E>, token: u32) returns (out: seq<Fact>)
      modifies this
      ensures (View(), out) == RecordFirst(h, old(View()), token)
    {
      recentTokens := PushRecent(recentTokens, token);
      allTokenIds := allTokenIds + [token];
      if token == setup.eosToken {
        halt := Some(EosToken);
        out := [GenerationHalt(EosToken)];
      } else if token in setup.extraStopIds {
        halt := Some(ExtraStopToken);
        out := [GenerationHalt(ExtraStopToken)];
      } else {
        Stream(h, h.decode(token));
        out := [DecodeStep(0, token, setup.promptLen)];
      }
    }

    method KvAdvanced(position: nat) returns (out: seq<Fact>)
      modifies this
      ensures (View(), out) == OnKvAdvance(old(View()), position)
    {
      kvLog := kvLog + [position];
      out := [KvWritten];
    }

    method DecodeStepped(h: Hooks<E>, step: nat, tokenId: u32, position: nat, elapsedMs: u32) returns (out: seq<Fact>)
      modifies this
      ensures (View(), out) == OnDecodeStep(h, old(View()), step, tokenId, position, elapsedMs)
    {
      if step + 1 >= setup.maxTokens {
        halt := Some(MaxTokensReached);
        out := [GenerationHalt(MaxTokensReached)];
      } else {
        var (env0, _, newLogits) := h.forward(env, [h.tokenValue(tokenId)], position);
        env := env0;
        if newLogits == [] {
          blockReason := Some(EMPTY_LOGITS);
          halt := Some(ControlHalt);
          out := [GenerationHalt(ControlHalt)];
        } else {
          out := Sampled(h, newLogits, step, position, elapsedMs);
        }
      }
    }

    method Sampled(h: Hooks<E>, newLogits: seq<F32>, step: nat, position: nat, elapsedMs: u32) returns (out: seq<Fact>)
      modifies this
      ensures (View(), out) == AfterForward(h, old(View()), newLogits, step, position, elapsedMs)
    {
      var generated := Beyond(allTokenIds, setup.promptLen);
      var (env1, masked) := h.mask(env, newLogits);
      var (env2, sampled, candidate) := h.sample(env1, masked, recentTokens);
      var (env3, decision) := h.control(env2, candidate, generatedText, generated, allTokenIds, |allTokenIds|);
      traced, env := traced + [(generated, masked)], env3;
      var stopped, token := Gate(decision, candidate);
      if stopped {
        out := [GenerationHalt(ControlHalt)];
      } else {
        out := NextRecorded(h, sampled, token, step, position,
                            [FinalLogits(position, h.rmsBits(masked), h.checksum(masked)),
                             DispatchCompleted(position, FullLayer, elapsedMs)]);
      }
    }

    method NextRecorded(h: Hooks<E>, sampled: seq<F32>, token: u32, step: nat, position: nat, observed: seq<Fact>)
      returns (out: seq<Fact>)
      modifies this
      ensures (View(), out) == RecordNext(h, old(View()), sampled, token, step, position, observed)
    {
      allTokenIds := allTokenIds + [token];
      if token == setup.eosToken {
        halt := Some(EosToken);
        out := [GenerationHalt(EosToken)];
      } else if token in setup.extraStopIds {
        halt := Some(ExtraStopToken);
        out := [GenerationHalt(ExtraStopToken)];
      } else {
        logits, recentTokens := sampled, PushRecent(recentTokens, token);
        Stream(h, h.decode(token));
        out := [KvAdvance(position), DecodeStep(step + 1, token, position + 1)] + observed;
      }
    }

    /** Text grows and the piece is streamed. */
    method Stream(h: Hooks<E>, piece: string)
      modifies this
      ensures View() == old(View()).(text := old(generatedText) + piece, pieces := old(pieces) + [piece],
                                     env := h.onToken(old(env), piece))
    {
      generatedText, pieces, env := generatedText + piece, pieces + [piece], h.onToken(env, piece);
    }

    method Dispatched(layer: nat, elapsedMs: u32) returns (out: seq<Fact>)
      modifies this
      ensures (View(), out) == OnDispatchCompleted(old(View()), layer, elapsedMs)
    {
      tdrAccumulatedMs := tdrAccumulatedMs + elapsedMs;
      out := if tdrAccumulatedMs >= setup.tdrBudgetMs then [TdrRiskHigh(layer)] else [];
    }

    method RiskHigh(layer: nat) returns (out: seq<Fact>)
      modifies this
      ensures (View(), out) == OnTdrRiskHigh(old(View()), layer)
    {
      tdrAccumulatedMs := 0;
      tdrYieldCount := tdrYieldCount + 1;
      out := [YieldNow(layer, TdrBudgetExceeded)];
    }
  }

  datatype GenerateOutput = GenerateOutput(text: string, tokensGenerated: nat, haltReason: HaltReason)

  /** How many ids follow the first `n` (`saturating_sub`). */
  function Beyond(ids: seq<u32>, n: nat): nat {
    if |ids| >= n then |ids| - n else 0
  }

  class InferenceSaturationFabric<E(!new)> {
    const hooks: Hooks<E>
    const state: ISFState<E>
    var known: set<Fact>
    var pending: seq<Fact>
    var processed: nat
    ghost var done: set<Fact>

    ghost function View(): Config<E>
      reads this, state
    {
      Config(state.View(), known, pending, done, processed)
    }

    constructor (hooks: Hooks<E>, state: ISFState<E>)
      ensures this.hooks == hooks && this.state == state
      ensures View() == Config(state.View(), {}, [], {}, 0)
    {
      this.hooks, this.state := hooks, state;
      known, pending, processed, done := {}, [], 0, {};
    }

    /** Assert facts one by one; the store drops those it has. */
    method AssertAll(facts: seq<Fact>)
      modifies this`known, this`pending
      ensures View() == Absorb(old(View()), facts)
    {
      for i := 0 to |facts|
        invariant Absorb(View(), facts[i..]) == Absorb(old(View()), facts)
      {
        AbsorbOne(View(), facts[i..]);
        assert facts[i..][1..] == facts[i + 1..];
        if facts[i] !in known {
          known := known + {facts[i]};
          pending := pending + [facts[i]];
        }
      }
      assert facts[|facts|..] == [] && known + Elements([]) == known && pending + [] == pending;
    }

    /** Dispatch a fact to its rule. */
    method Fired(f: Fact, elapsedMs: u32) returns (out: seq<Fact>)
      modifies state
      ensures (state.View(), out) == Fire(hooks, old(state.View()), f, elapsedMs)
    {
      match f
      case PromptToken(_, t) => out := OnPromptToken(t);
      case EmbeddingRequest(t) => out := state.EmbeddingRequested(hooks, t);
      case EmbeddingReady(_, _) => out := OnEmbeddingReady(state.View());
      case PrefillBatchReady(n) => out := state.BatchReady(hooks, n, elapsedMs);
      case PrefillComplete(_) => out := state.PrefillCompleted(hooks);
      case KvAdvance(p) => out := state.KvAdvanced(p);
      case DecodeStep(step, t, p) => out := state.DecodeStepped(hooks, step, t, p, elapsedMs);
      case DispatchCompleted(layer, _, ms) => out := state.Dispatched(layer, ms);
      case TdrRiskHigh(layer) => out := state.RiskHigh(layer);
      case TensorFact(q, _, offset, _) => out := OnTensorFact(q, offset);
      case _ => out := [];
    }

    /** Process pending facts, in any order, until none is left or the budget is
        spent; `schedule` records the choices made. */
    method RunToFixpoint(budget: u32) returns (saturated: bool, ghost schedule: seq<Choice>)
      modifies this`known, this`pending, this`processed, this`done, state
      ensures Runs(hooks, old(View()), schedule) && View() == Run(hooks, old(View()), schedule)
      ensures saturated <==> Saturated(View())
      ensures |schedule| <= budget && (!saturated ==> |schedule| == budget)
    {
      schedule := [];
      var rounds := 0;
      while pending != [] && rounds < budget
        invariant rounds == |schedule| <= budget
        invariant Runs(hooks, old(View()), schedule) && View() == Run(hooks, old(View()), schedule)
        decreases budget - rounds
      {
        ghost var before := View();
        var i :| 0 <= i < |pending|;
        var elapsedMs: u32 := *;
        var f := pending[i];
        pending := pending[..i] + pending[i + 1..];
        done := done + {f};
        processed := processed + 1;
        var out := Fired(f, elapsedMs);
        AssertAll(out);
        assert View() == Step(hooks, before, i, elapsedMs);
        RunSnoc(hooks, old(View()), schedule, Choice(i, elapsedMs));
        schedule := schedule + [Choice(i, elapsedMs)];
        rounds := rounds + 1;
      }
      saturated := pending == [];
    }

    /** Main result: whatever order facts are taken in, the call returns what the
        sequential loop returns. It fails only for a request whose work bound does
        not fit 32 bits, or one without a prompt, and never for want of budget. */
    method TryGenerate(tokenIds: seq<u32>) returns (result: Result<GenerateOutput, RunError>)
      requires BeforeRequest(View()) && processed == 0 && |known| < TWO_TO_THE_64
      requires SeededFor(state.View(), Request(tokenIds, state.setup.maxTokens, state.setup.eosToken, state.setup.extraStopIds))
      modifies this`known, this`pending, this`processed, this`done, state
      ensures var request := Request(tokenIds, state.setup.maxTokens, state.setup.eosToken, state.setup.extraStopIds);
              var work := 6 * |tokenIds| + 16 * state.setup.maxTokens + 2 * |old(known)| + 64;
              if work >= TWO_TO_THE_32 then result == Err(BudgetOverflow)
              else if tokenIds == [] then result == Err(MissingTerminalReason)
              else
                var outcome := Generate(hooks, request, old(state.env));
                && result == Ok(GenerateOutput(outcome.text, Beyond(outcome.ids, |tokenIds|), outcome.halt))
                && state.halt.Some? && OutcomeOf(state.View()) == outcome
    {
      ghost var request := Request(tokenIds, state.setup.maxTokens, state.setup.eosToken, state.setup.extraStopIds);
      ghost var start := View();
      BudgetIsExact(|tokenIds|, state.setup.maxTokens, |known|);
      var budget := RequestRunBudget(|tokenIds|, state.setup.maxTokens, |known|);
      if budget.Err? {
        return Err(budget.error);
      }
      AssertAll(PromptFacts(tokenIds));
      var saturated, schedule := RunToFixpoint(budget.value);
      RunAnswers(hooks, request, start, schedule, budget.value);
      if !saturated {
        return Err(BudgetExhausted);
      }
      if state.halt == None {
        return Err(MissingTerminalReason);
      }
      return Ok(GenerateOutput(state.generatedText, Beyond(state.allTokenIds, state.setup.promptLen), state.halt.value));
    }
  }

  /** A run that stops for want of facts or of budget has, in fact, saturated, and
      holds the sequential loop's outcome. */
  lemma {:induction false} RunAnswers<E>(h: Hooks<E>, r: Request, c: Config<E>, schedule: seq<Choice>, budget: u32)
    requires BeforeRequest(c) && SeededFor(c.state, r) && c.processed == 0 && |c.known| < TWO_TO_THE_64
    requires RequestRunBudget(|r.prompt|, r.maxTokens, |c.known|) == Ok(budget)
    requires Runs(h, Absorb(c, PromptFacts(r.prompt)), schedule)
    requires var end := Run(h, Absorb(c, PromptFacts(r.prompt)), schedule);
             Saturated(end) || |schedule| == budget
    ensures var end := Run(h, Absorb(c, PromptFacts(r.prompt)), schedule);
            && Saturated(end) && end.state.setup.promptLen == |r.prompt|
            && if r.prompt == [] then end.state.halt == None
               else end.state.halt.Some? && OutcomeOf(end.state) == Generate(h, r, c.state.env)
  {
    BudgetSuffices(h, c, r.prompt, schedule);
    RunSpends(h, Absorb(c, PromptFacts(r.prompt)), schedule);
    FabricRefinesLoop(h, r, c, schedule);
    StartsInInv(h, r, c);
    RunKeepsInv(h, r, c.state.env, Absorb(c, PromptFacts(r.prompt)), schedule);
  }

  lemma AbsorbOne<E>(c: Config<E>, out: seq<Fact>)
    requires out != []
    ensures Absorb(c, out) == Absorb(Absorb(c, [out[0]]), out[1..])
    ensures Absorb(c, [out[0]]) == if out[0] in c.known then c
                                   else c.(known := c.known + {out[0]}, pending := c.pending + [out[0]])
  {
    var f := out[0];
    assert [f][1..] == [];
    assert Elements([f]) == {f} && Elements(out) == {f} + Elements(out[1..]);
    assert Fresh([f], c.known) == if f in c.known then [] else [f];
    assert c.known + Elements(out) == (c.known + {f}) + Elements(out[1..]);
    if f in c.known {
      assert c.known + {f} == c.known;
      assert c.pending + [] == c.pending;
    } else {
      assert c.pending + ([f] + Fresh(out[1..], c.known + {f})) == (c.pending + [f]) + Fresh(out[1..], c.known + {f});
    }
  }

  lemma {:induction false} RunSnoc<E>(h: Hooks<E>, c: Config<E>, schedule: seq<Choice>, last: Choice)
    requires Runs(h, c, schedule) && last.index < |Run(h, c, schedule).pending|
    ensures Runs(h, c, schedule + [last])
    ensures Run(h, c, schedule + [last]) == Step(h, Run(h, c, schedule), last.index, last.elapsedMs)
    decreases |schedule|
  {
    if schedule == [] {
      assert schedule + [last] == [last] && [last][1..] == [];
    } else {
      assert (schedule + [last])[1..] == schedule[1..] + [last];
      RunSnoc(h, Step(h, c, schedule[0].index, schedule[0].elapsedMs), schedule[1..], last);
    }
  }
}
