/** Orders in which a decode step can be taken before any KV increment has run:
    there is one exactly when the first token goes on to a decode step. */
module FabricOvertaking {
  import opened Prelude
  import opened Facts
  import opened FabricRules
  import opened FabricRun
  import opened FabricBudget
  import opened SequentialLoop
  import opened FabricRefinement
  import opened FabricKv
  import opened TokenAccounting

  /** The schedule leads to a decode step that is pending, hence at a positive
      position, although nothing has been incremented. */
  ghost predicate Overtakes<E>(h: Hooks<E>, c: Config<E>, schedule: seq<Choice>) {
    Runs(h, c, schedule) && DecodesUnwritten(Run(h, c, schedule))
  }

  ghost predicate DecodesUnwritten<E>(c: Config<E>) {
    c.state.kvLog == [] && exists f :: f in c.pending && f.DecodeStep?
  }

  // --- Text is streamed exactly when decode steps are derived -------------

  ghost predicate Streams<E>(c: Config<E>) {
    c.state.pieces != [] <==> exists f :: f in c.known && f.DecodeStep?
  }

  /** Only the two rules that record tokens stream or derive a decode step; the
      first of them does both or neither. */
  lemma {:induction false} RuleStreams<E>(h: Hooks<E>, s: State<E>, f: Fact, e: u32)
    ensures s.pieces <= Fire(h, s, f, e).0.pieces
    ensures f.PrefillComplete? ==>
      (Fire(h, s, f, e).0.pieces == s.pieces <==> forall g :: g in Fire(h, s, f, e).1 ==> !g.DecodeStep?)
    ensures !f.PrefillComplete? && !f.DecodeStep? ==>
      Fire(h, s, f, e).0.pieces == s.pieces && forall g :: g in Fire(h, s, f, e).1 ==> !g.DecodeStep?
  {
    if f.PrefillComplete? {
      FirstStreams(h, s);
    } else if f.PrefillBatchReady? {
      PrefillDerives(h, s, f.tokenCount, e);
    }
  }

  lemma {:induction false} FirstStreams<E>(h: Hooks<E>, s: State<E>)
    ensures var (s', out) := OnPrefillComplete(h, s);
            s.pieces <= s'.pieces && (s'.pieces == s.pieces <==> forall g :: g in out ==> !g.DecodeStep?)
  {
    var (s', out) := OnPrefillComplete(h, s);
    assert |out| == 1 && out[0] in out;
    assert s'.pieces != s.pieces ==> |s'.pieces| == |s.pieces| + 1;
  }

  lemma {:induction false} StepStreams<E>(h: Hooks<E>, r: Request, env: E, c: Config<E>, i: nat, e: u32)
    requires Inv(h, r, env, c) && Streams(c) && i < |c.pending|
    ensures Streams(Step(h, c, i, e))
  {
    var f, c' := c.pending[i], Step(h, c, i, e);
    var out := Fire(h, c.state, f, e).1;
    StepStore(h, c, i, e);
    RuleStreams(h, c.state, f, e);
    if f.DecodeStep? {
      assert f in c.known && f in c'.known;
    } else if f.PrefillComplete? {
      TheControl(h, r, env, c, i);
      if g :| g in out && g.DecodeStep? {
        assert g in c'.known;
      }
    } else if g :| g in c.known && g.DecodeStep? {
      assert g in c'.known;
    }
  }

  lemma {:induction false} RunStreams<E>(h: Hooks<E>, r: Request, env: E, c: Config<E>, schedule: seq<Choice>)
    requires Inv(h, r, env, c) && Streams(c) && Runs(h, c, schedule)
    ensures Inv(h, r, env, Run(h, c, schedule)) && Streams(Run(h, c, schedule))
    decreases |schedule|
  {
    if schedule != [] {
      StepKeepsInv(h, r, env, c, schedule[0].index, schedule[0].elapsedMs);
      StepStreams(h, r, env, c, schedule[0].index, schedule[0].elapsedMs);
      RunStreams(h, r, env, Step(h, c, schedule[0].index, schedule[0].elapsedMs), schedule[1..]);
    }
  }

  /** The sequential loop never takes streamed text back. */
  lemma {:induction false} PiecesGrow<E>(h: Hooks<E>, r: Request, g: Gen<E>, logits: seq<F32>, k: nat)
    ensures g.pieces <= NextToken(h, r, g, logits, k).pieces
    decreases r.maxTokens - k, 2
  {
    if k == 0 || logits != [] {
      var (env1, masked) := h.mask(g.env, logits);
      var traced := if k > 0 then g.traced + [(k, masked)] else g.traced;
      var (env2, _, candidate) := h.sample(env1, masked, Window(g.ids, |r.prompt|));
      var (env3, decision) := h.control(env2, candidate, g.text, k, g.ids, |r.prompt| + k);
      if !decision.EarlyExit? && !decision.Block? {
        AcceptedGrow(h, r, g.(env := env3, traced := traced), Chosen(decision, candidate), k);
      }
    }
  }

  lemma {:induction false} AcceptedGrow<E>(h: Hooks<E>, r: Request, g: Gen<E>, token: u32, k: nat)
    ensures g.pieces <= Accept(h, r, g, token, k).pieces
    decreases r.maxTokens - k, 1
  {
    if token != r.eosToken && token !in r.stopIds {
      var piece := h.decode(token);
      var recorded := g.(ids := g.ids + [token], text := g.text + piece, pieces := g.pieces + [piece],
                         env := h.onToken(g.env, piece));
      ContinuedGrow(h, r, recorded, token, k);
    }
  }

  lemma {:induction false} ContinuedGrow<E>(h: Hooks<E>, r: Request, g: Gen<E>, token: u32, k: nat)
    ensures g.pieces <= Continue(h, r, g, token, k).pieces
    decreases r.maxTokens - k, 0
  {
    if k + 1 < r.maxTokens {
      var (env, _, logits) := h.forward(g.env, [h.tokenValue(token)], |r.prompt| + k);
      PiecesGrow(h, r, g.(env := env), logits, k + 1);
    }
  }

  /** A decode step in flight means that text has been streamed. */
  lemma {:induction false} DecodingStreams<E>(h: Hooks<E>, r: Request, env: E, c: Config<E>, f: Fact)
    requires Inv(h, r, env, c) && Streams(c) && f in c.pending && f.DecodeStep?
    ensures Generate(h, r, env).pieces != []
  {
    var i :| 0 <= i < |c.pending| && c.pending[i] == f;
    TheControl(h, r, env, c, i);
    ContinuedGrow(h, r, GenOf(c.state), f.tokenId, f.step);
    assert f in Elements(c.pending) && f in c.known;
  }

  // --- An order that leaves the advances waiting --------------------------

  lemma Prepend<E>(h: Hooks<E>, c: Config<E>, x: Choice, rest: seq<Choice>)
    requires x.index < |c.pending| && Runs(h, Step(h, c, x.index, x.elapsedMs), rest)
    ensures Runs(h, c, [x] + rest)
    ensures Run(h, c, [x] + rest) == Run(h, Step(h, c, x.index, x.elapsedMs), rest)
  {
    assert ([x] + rest)[1..] == rest;
  }

  /** Before the first decode step is derived there is always something to take
      other than a KV advance. */
  lemma {:induction false} SomethingElse<E>(h: Hooks<E>, r: Request, env: E, c: Config<E>, below: nat) returns (i: nat)
    requires Inv(h, r, env, c) && KvAt(r, c, below) && Streams(c) && r.prompt != []
    requires Generate(h, r, env).pieces != [] && forall f :: f in c.known ==> !f.DecodeStep?
    ensures i < |c.pending| && !c.pending[i].KvAdvance?
  {
    NotOnlyAdvances(h, r, env, c, below);
    i :| 0 <= i < |c.pending| && !c.pending[i].KvAdvance?;
  }

  lemma {:induction false} NotOnlyAdvances<E>(h: Hooks<E>, r: Request, env: E, c: Config<E>, below: nat)
    requires Inv(h, r, env, c) && KvAt(r, c, below) && Streams(c) && r.prompt != []
    requires Generate(h, r, env).pieces != [] && forall f :: f in c.known ==> !f.DecodeStep?
    ensures exists j :: 0 <= j < |c.pending| && !c.pending[j].KvAdvance?
  {
    if forall j :: 0 <= j < |c.pending| ==> c.pending[j].KvAdvance? {
      NoControls(c.pending);
      if Batch(r) !in c.known {
        NoAdvanceYet(r, c);
        SaturatedMeansDone(h, r, env, c);
      }
    }
  }

  lemma {:induction false} NoAdvanceYet<E>(r: Request, c: Config<E>)
    requires |r.prompt| < TWO_TO_THE_32 && StoreAgrees(c) && KvAt(r, c, 0)
    requires forall j :: 0 <= j < |c.pending| ==> c.pending[j].KvAdvance?
    ensures Saturated(c)
  {
    FirstIsIn(c.pending);
    assert forall f: Fact :: f.KvAdvance? ==> f == KvAdvance(f.position);
  }

  /** Take anything but an advance until the first decode step is derived. */
  lemma {:induction false} LeaveAdvances<E>(h: Hooks<E>, r: Request, env: E, c: Config<E>, below: nat)
    returns (schedule: seq<Choice>)
    requires Inv(h, r, env, c) && KvAt(r, c, below) && Streams(c) && r.prompt != [] && c.state.kvLog == []
    requires Generate(h, r, env).pieces != [] && forall f :: f in c.known ==> !f.DecodeStep?
    ensures Overtakes(h, c, schedule)
    decreases Ahead(c)
  {
    var i := SomethingElse(h, r, env, c, below);
    StepSpends(h, c, i, 0);
    StepLeaves(h, c, i);
    if f :| f in Step(h, c, i, 0).pending && f.DecodeStep? {
      schedule := [];
    } else {
      StepKeepsInv(h, r, env, c, i, 0);
      StepStreams(h, r, env, c, i, 0);
      var next := StepKeepsKv(h, r, env, c, i, 0, below);
      schedule := LeaveAdvances(h, r, env, Step(h, c, i, 0), next);
    }
    Prepend(h, c, Choice(i, 0), schedule);
    schedule := [Choice(i, 0)] + schedule;
  }

  lemma {:induction false} StepLeaves<E>(h: Hooks<E>, c: Config<E>, i: nat)
    requires StoreAgrees(c) && i < |c.pending| && !c.pending[i].KvAdvance? && forall f :: f in c.known ==> !f.DecodeStep?
    ensures Step(h, c, i, 0).state.kvLog == c.state.kvLog
    ensures forall f :: f in Step(h, c, i, 0).known && f.DecodeStep? ==> f in Step(h, c, i, 0).pending
  {
    StepStore(h, c, i, 0);
    LogUntouched(h, c.state, c.pending[i]);
  }

  lemma {:induction false} LogUntouched<E>(h: Hooks<E>, s: State<E>, f: Fact)
    requires !f.KvAdvance?
    ensures Fire(h, s, f, 0).0.kvLog == s.kvLog
  {
  }

  lemma {:induction false} StartsSilent<E>(r: Request, c: Config<E>)
    requires BeforeRequest(c) && SeededFor(c.state, r)
    ensures var start := Absorb(c, PromptFacts(r.prompt));
            Streams(start) && start.state.kvLog == [] && forall f :: f in start.known ==> !f.DecodeStep?
  {
    PromptAsserted(c, r.prompt);
  }

  // --- Whether a request streams any text ---------------------------------

  /** The first token: what the control's first decision makes of the first candidate. */
  function FirstToken<E>(h: Hooks<E>, r: Request, env: E): u32
    requires |r.prompt| < TWO_TO_THE_32
  {
    var (env0, _, logits) := h.prefill(env, Embed(h, r.prompt), |r.prompt|);
    var (env1, masked) := h.mask(env0, logits);
    var (_, _, candidate) := h.sample(env1, masked, []);
    Chosen(FirstDecision(h, r, env), candidate)
  }

  /** The control lets a first token through, and it does not end the generation. */
  predicate FirstGoesOn<E>(h: Hooks<E>, r: Request, env: E)
    requires |r.prompt| < TWO_TO_THE_32
  {
    !StoppedAtOnce(h, r, env) && !IsTerminal(r, FirstToken(h, r, env))
  }

  /** A request streams text exactly when its first token does. */
  lemma {:induction false} StreamsIffFirstGoesOn<E>(h: Hooks<E>, r: Request, env: E)
    requires |r.prompt| < TWO_TO_THE_32
    ensures Generate(h, r, env).pieces != [] <==> FirstGoesOn(h, r, env)
  {
    var (env0, _, logits) := h.prefill(env, Embed(h, r.prompt), |r.prompt|);
    var (env1, masked) := h.mask(env0, logits);
    var (env2, _, candidate) := h.sample(env1, masked, []);
    var (env3, decision) := h.control(env2, candidate, "", 0, r.prompt, |r.prompt|);
    var gated := Gen(env3, r.prompt, "", [], []);
    if !StoppedAtOnce(h, r, env) {
      FirstStreamed(h, r, gated, Chosen(decision, candidate));
    }
  }

  lemma {:induction false} FirstStreamed<E>(h: Hooks<E>, r: Request, g: Gen<E>, token: u32)
    requires g.pieces == []
    ensures Accept(h, r, g, token, 0).pieces != [] <==> !IsTerminal(r, token)
  {
    if !IsTerminal(r, token) {
      AcceptsText(h, r, g, token, 0);
      ContinuedGrow(h, r, Recorded(h, g, token), token, 0);
    }
  }

  /** Main result: for every request with a prompt, some order lets a decode step
      be taken while no KV increment has run if and only if the control lets its
      first token through and that token does not end the generation. */
  lemma {:induction false} SomeOrderOvertakes<E>(h: Hooks<E>, r: Request, c: Config<E>)
    requires BeforeRequest(c) && SeededFor(c.state, r) && r.prompt != []
    ensures (exists schedule :: Overtakes(h, Absorb(c, PromptFacts(r.prompt)), schedule))
       <==> FirstGoesOn(h, r, c.state.env)
  {
    var start, env := Absorb(c, PromptFacts(r.prompt)), c.state.env;
    StartsAtZero(h, r, c);
    StartsSilent(r, c);
    StreamsIffFirstGoesOn(h, r, env);
    if FirstGoesOn(h, r, env) {
      var schedule := LeaveAdvances(h, r, env, start, 0);
    }
    if schedule :| Overtakes(h, start, schedule) {
      RunStreams(h, r, env, start, schedule);
      var f :| f in Run(h, start, schedule).pending && f.DecodeStep?;
      DecodingStreams(h, r, env, Run(h, start, schedule), f);
    }
  }
}
