/** What the sequential loop generates, and so, by refinement, every saturated run:
    how many tokens, where a terminal one can stand, and what text they stream. */
module TokenAccounting {
  import opened Prelude
  import opened Facts
  import opened FabricRules
  import opened FabricRun
  import opened FabricBudget
  import opened SequentialLoop
  import opened FabricRefinement

  predicate IsTerminal(r: Request, token: u32) {
    token == r.eosToken || token in r.stopIds
  }

  /** Tokens a request may generate. A limit of zero does not stop the first token,
      which is sampled before the limit is looked at: see `LimitIsKept`. */
  function Limit(r: Request): nat {
    if r.maxTokens == 0 then 1 else r.maxTokens
  }

  /** A token that does not end the generation is recorded and streamed. */
  function Recorded<E>(h: Hooks<E>, g: Gen<E>, token: u32): (r: Gen<E>)
    ensures r.ids == g.ids + [token] && r.env == h.onToken(g.env, h.decode(token))
  {
    g.(ids := g.ids + [token], text := g.text + h.decode(token),
       pieces := g.pieces + [h.decode(token)], env := h.onToken(g.env, h.decode(token)))
  }

  lemma AcceptsText<E>(h: Hooks<E>, r: Request, g: Gen<E>, token: u32, k: nat)
    requires !IsTerminal(r, token)
    ensures Accept(h, r, g, token, k) == Continue(h, r, Recorded(h, g, token), token, k)
  {
  }

  lemma ContinueForwards<E>(h: Hooks<E>, r: Request, g: Gen<E>, token: u32, k: nat)
    requires k + 1 < r.maxTokens
    ensures var (env, _, logits) := h.forward(g.env, [h.tokenValue(token)], |r.prompt| + k);
            Continue(h, r, g, token, k) == NextToken(h, r, g.(env := env), logits, k + 1)
  {
  }

  function Decoded<E>(h: Hooks<E>, tokens: seq<u32>): seq<string> {
    seq(|tokens|, (i: nat) requires i < |tokens| => h.decode(tokens[i]))
  }

  /** The generated tokens that are text: all of them, or all but the terminal one. */
  function Body<E>(r: Request, o: Outcome<E>): seq<u32>
    requires |r.prompt| <= |o.ids|
  {
    var generated := o.ids[|r.prompt|..];
    if (o.halt.EosToken? || o.halt.ExtraStopToken?) && generated != [] then generated[..|generated| - 1]
    else generated
  }

  ghost predicate Accounts<E>(h: Hooks<E>, r: Request, o: Outcome<E>) {
    && r.prompt <= o.ids
    && |o.ids| - |r.prompt| <= Limit(r)
    && (o.halt.MaxTokensReached? ==> |o.ids| - |r.prompt| == Limit(r))
    && (o.halt.EosToken? ==> |o.ids| > |r.prompt| && o.ids[|o.ids| - 1] == r.eosToken)
    && (o.halt.ExtraStopToken? ==>
          |o.ids| > |r.prompt| && o.ids[|o.ids| - 1] in r.stopIds && o.ids[|o.ids| - 1] != r.eosToken)
    && (forall t :: t in Body(r, o) ==> !IsTerminal(r, t))
    && o.pieces == Decoded(h, Body(r, o))
    && o.text == Flatten(o.pieces)
    && (o.blockReason.Some? ==> o.halt.ControlHalt?)
  }

  /** After `k` tokens, none of them terminal. */
  ghost predicate SoFar<E>(h: Hooks<E>, r: Request, g: Gen<E>, k: nat) {
    && r.prompt <= g.ids && |g.ids| == |r.prompt| + k
    && (forall t :: t in g.ids[|r.prompt|..] ==> !IsTerminal(r, t))
    && g.pieces == Decoded(h, g.ids[|r.prompt|..])
    && g.text == Flatten(g.pieces)
  }

  lemma {:induction false} SoFarStops<E>(h: Hooks<E>, r: Request, g: Gen<E>, k: nat, blockReason: Option<string>)
    requires SoFar(h, r, g, k) && k <= Limit(r)
    ensures Accounts(h, r, Stop(g, ControlHalt, blockReason))
    ensures k == Limit(r) ==> Accounts(h, r, Stop(g, MaxTokensReached, None))
  {
  }

  lemma {:induction false} NextTokenAccounts<E>(h: Hooks<E>, r: Request, g: Gen<E>, logits: seq<F32>, k: nat)
    requires SoFar(h, r, g, k) && k < Limit(r)
    ensures Accounts(h, r, NextToken(h, r, g, logits, k))
    decreases Limit(r) - k, 2
  {
    if k > 0 && logits == [] {
      SoFarStops(h, r, g, k, Some(EMPTY_LOGITS));
    } else {
      var (env1, masked) := h.mask(g.env, logits);
      var traced := if k > 0 then g.traced + [(k, masked)] else g.traced;
      var (env2, _, candidate) := h.sample(env1, masked, Window(g.ids, |r.prompt|));
      var (env3, decision) := h.control(env2, candidate, g.text, k, g.ids, |r.prompt| + k);
      var gated := g.(env := env3, traced := traced);
      if decision.EarlyExit? {
        SoFarStops(h, r, gated, k, None);
      } else if decision.Block? {
        SoFarStops(h, r, gated, k, Some(decision.reason));
      } else {
        AcceptAccounts(h, r, gated, Chosen(decision, candidate), k);
      }
    }
  }

  lemma {:induction false} AcceptAccounts<E>(h: Hooks<E>, r: Request, g: Gen<E>, token: u32, k: nat)
    requires SoFar(h, r, g, k) && k < Limit(r)
    ensures Accounts(h, r, Accept(h, r, g, token, k))
    decreases Limit(r) - k, 1
  {
    var ids := g.ids + [token];
    var generated := g.ids[|r.prompt|..];
    assert ids[|r.prompt|..] == generated + [token];
    assert ids[|r.prompt|..][..k] == generated;
    if !IsTerminal(r, token) {
      var piece := h.decode(token);
      var g' := g.(ids := ids, text := g.text + piece, pieces := g.pieces + [piece],
                   env := h.onToken(g.env, piece));
      FlattenSnoc(g.pieces, piece);
      assert Decoded(h, generated + [token]) == Decoded(h, generated) + [piece];
      ContinueAccounts(h, r, g', token, k);
    }
  }

  lemma {:induction false} ContinueAccounts<E>(h: Hooks<E>, r: Request, g: Gen<E>, token: u32, k: nat)
    requires SoFar(h, r, g, k + 1) && k < Limit(r)
    ensures Accounts(h, r, Continue(h, r, g, token, k))
    decreases Limit(r) - k, 0
  {
    if k + 1 >= r.maxTokens {
      SoFarStops(h, r, g, k + 1, None);
    } else {
      var (env, _, logits) := h.forward(g.env, [h.tokenValue(token)], |r.prompt| + k);
      NextTokenAccounts(h, r, g.(env := env), logits, k + 1);
    }
  }

  lemma {:induction false} GenerateAccounts<E>(h: Hooks<E>, r: Request, env: E)
    requires |r.prompt| < TWO_TO_THE_32
    ensures Accounts(h, r, Generate(h, r, env))
  {
    var (env', _, logits) := h.prefill(env, Embed(h, r.prompt), |r.prompt|);
    NextTokenAccounts(h, r, Gen(env', r.prompt, "", [], []), logits, 0);
  }

  /** What the control answers for the first candidate. */
  function FirstDecision<E>(h: Hooks<E>, r: Request, env: E): Decision
    requires |r.prompt| < TWO_TO_THE_32
  {
    var (env0, _, logits) := h.prefill(env, Embed(h, r.prompt), |r.prompt|);
    var (env1, masked) := h.mask(env0, logits);
    var (env2, _, candidate) := h.sample(env1, masked, []);
    h.control(env2, candidate, "", 0, r.prompt, |r.prompt|).1
  }

  /** The control stops the generation before anything is recorded. */
  predicate StoppedAtOnce<E>(h: Hooks<E>, r: Request, env: E)
    requires |r.prompt| < TWO_TO_THE_32
  {
    FirstDecision(h, r, env).EarlyExit? || FirstDecision(h, r, env).Block?
  }

  /** The requested limit is kept if and only if it is at least one, or the control
      stops at once; a limit of zero yields one token otherwise. */
  lemma {:induction false} LimitIsKept<E>(h: Hooks<E>, r: Request, env: E)
    requires |r.prompt| < TWO_TO_THE_32
    ensures var n := |Generate(h, r, env).ids| - |r.prompt|;
            && (n <= r.maxTokens <==> r.maxTokens >= 1 || StoppedAtOnce(h, r, env))
            && (r.maxTokens == 0 ==> n == if StoppedAtOnce(h, r, env) then 0 else 1)
  {
    GenerateAccounts(h, r, env);
    if r.maxTokens == 0 && !StoppedAtOnce(h, r, env) {
      var (env0, _, logits) := h.prefill(env, Embed(h, r.prompt), |r.prompt|);
      var (env1, masked) := h.mask(env0, logits);
      var (env2, _, candidate) := h.sample(env1, masked, []);
      var (env3, decision) := h.control(env2, candidate, "", 0, r.prompt, |r.prompt|);
      var gated := Gen(env3, r.prompt, "", [], []);
      assert Generate(h, r, env) == Accept(h, r, gated, Chosen(decision, candidate), 0);
      OneAccepted(h, r, gated, Chosen(decision, candidate));
    }
  }

  lemma OneAccepted<E>(h: Hooks<E>, r: Request, g: Gen<E>, token: u32)
    requires r.maxTokens == 0
    ensures Accept(h, r, g, token, 0).ids == g.ids + [token]
  {
  }

  /** The same of every saturated run, in any order. */
  lemma {:induction false} RunsKeepLimit<E>(h: Hooks<E>, r: Request, c: Config<E>, schedule: seq<Choice>)
    requires BeforeRequest(c) && SeededFor(c.state, r) && r.prompt != []
    requires Runs(h, Absorb(c, PromptFacts(r.prompt)), schedule)
    requires Saturated(Run(h, Absorb(c, PromptFacts(r.prompt)), schedule))
    ensures var n := |Run(h, Absorb(c, PromptFacts(r.prompt)), schedule).state.ids| - |r.prompt|;
            && (n <= r.maxTokens <==> r.maxTokens >= 1 || StoppedAtOnce(h, r, c.state.env))
            && (r.maxTokens == 0 ==> n == if StoppedAtOnce(h, r, c.state.env) then 0 else 1)
  {
    FabricRefinesLoop(h, r, c, schedule);
    LimitIsKept(h, r, c.state.env);
  }

  /** Token accounting of every saturated run, in any order. */
  lemma {:induction false} RunsAccount<E>(h: Hooks<E>, r: Request, c: Config<E>, schedule: seq<Choice>)
    requires BeforeRequest(c) && SeededFor(c.state, r) && r.prompt != []
    requires Runs(h, Absorb(c, PromptFacts(r.prompt)), schedule)
    requires Saturated(Run(h, Absorb(c, PromptFacts(r.prompt)), schedule))
    ensures var end := Run(h, Absorb(c, PromptFacts(r.prompt)), schedule).state;
            end.halt.Some? && Accounts(h, r, OutcomeOf(end))
  {
    FabricRefinesLoop(h, r, c, schedule);
    GenerateAccounts(h, r, c.state.env);
  }
}
