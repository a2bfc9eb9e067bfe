/** The arithmetic bypass as the control of a request: a queue of forced tokens that
    overrides the sampler and then stops the generation. The runtime translates
    its answers for the fabric, so forced ids are checked against the vocabulary. */
module MathBypass {
  import opened Prelude
  import opened Facts
  import opened FabricRules
  import opened FabricRun
  import opened FabricBudget
  import opened SequentialLoop
  import opened FabricRefinement
  import opened TokenAccounting
  import opened GpuRequest

  datatype Bypass = Bypass(queue: seq<u64>, armed: bool)

  function Intervene(b: Bypass): (Bypass, ControlDecision) {
    if b.queue != [] then (b.(queue := b.queue[1..]), CForceToken(b.queue[0]))
    else if b.armed then (b, CEarlyExit)
    else (b, CAllow)
  }

  /** The control object: its queue is popped in place. */
  class MathBypassControl {
    var queue: seq<u64>
    const armed: bool

    function View(): Bypass
      reads this
    {
      Bypass(queue, armed)
    }

    /** Armed exactly when there is an answer to force. */
    constructor (answer: seq<u64>)
      ensures View() == Bypass(answer, answer != [])
    {
      queue, armed := answer, answer != [];
    }

    method Decide() returns (decision: ControlDecision)
      modifies this`queue
      ensures (View(), decision) == Intervene(old(View()))
    {
      if queue != [] {
        decision := CForceToken(queue[0]);
        queue := queue[1..];
      } else {
        decision := if armed then CEarlyExit else CAllow;
      }
    }
  }

  /** The caller's state with the control's as one part of it. */
  datatype BypassState<U> = BypassState(bypass: Bypass, rest: U)

  /** The request's control is the bypass, and nothing else touches its state. */
  ghost predicate PluggedIn<U(!new)>(d: Device<BypassState<U>>) {
    && (forall u: BypassState<U>, t, text, k, ids, kv :: d.control(u, t, text, k, ids, kv) ==
          (BypassState(Intervene(u.bypass).0, u.rest), Intervene(u.bypass).1))
    && (forall u: BypassState<U>, x, p :: d.compute(u, x, p).0.bypass == u.bypass)
    && (forall u: BypassState<U>, x :: d.mask(u, x).0.bypass == u.bypass)
    && (forall u: BypassState<U>, x, w :: d.sample(u, x, w).0.bypass == u.bypass)
    && (forall u: BypassState<U>, piece :: d.onToken(u, piece).bypass == u.bypass)
  }

  /** Every forced token is a 32-bit id of the vocabulary that does not end the
      generation. */
  predicate Forceable(r: Request, vocabulary: u64, queue: seq<u64>) {
    forall i :: 0 <= i < |queue| ==> queue[i] < vocabulary && queue[i] < TWO_TO_THE_32 && !IsTerminal(r, queue[i])
  }

  /** From here on `q` is forced, `limit` tokens at most. */
  ghost predicate ForcedOutcome<E>(ids: seq<u32>, q: seq<u64>, limit: nat, o: Outcome<E>)
    requires forall i :: 0 <= i < |q| ==> q[i] < TWO_TO_THE_32
  {
    && o.ids == ids + q[..Min(|q|, limit)]
    && o.halt == (if |q| < limit then ControlHalt else MaxTokensReached)
    && o.blockReason == None
  }

  // --- A forward pass leaves the bypass alone -----------------------------

  lemma FrameKeepsBypass<U(!new)>(
      d: Device<BypassState<U>>, env: Env<BypassState<U>>, x: seq<F32>, position: u64)
    requires PluggedIn(d)
    ensures Frame(d, env, x, position).0.user.bypass == env.user.bypass
  {
  }

  lemma {:induction false} ChunksKeepBypass<U(!new)>(
      d: Device<BypassState<U>>, env: Env<BypassState<U>>, x: seq<F32>, position: u64, chunk: nat)
    requires PluggedIn(d) && chunk > 0
    ensures Chunks(d, env, x, position, chunk).0.user.bypass == env.user.bypass
    decreases |x|
  {
    if |x| <= chunk {
      FrameKeepsBypass(d, env, x, position);
    } else {
      FrameKeepsBypass(d, env, x[..chunk], position);
      var (env', result) := Frame(d, env, x[..chunk], position);
      if result.Some? && d.dim > 0 && position + chunk / d.dim < TWO_TO_THE_64 {
        ChunksKeepBypass(d, env', x[chunk..], position + chunk / d.dim, chunk);
      }
    }
  }

  lemma RunKeepsBypass<U(!new)>(
      d: Device<BypassState<U>>, env: Env<BypassState<U>>, x: seq<F32>, position: u64, chunkRows: u32)
    requires PluggedIn(d)
    ensures RunModel(d, env, x, position, chunkRows).0.user.bypass == env.user.bypass
  {
    if d.dim > 0 && chunkRows > 0 {
      Positive(chunkRows, d.dim);
      ChunksKeepBypass(d, env, x, position, chunkRows * d.dim);
    }
  }

  /** A pass keeps the forced queue, and yields no logits only with an error. */
  lemma ForwardKeepsBypass<U(!new)>(d: Device<BypassState<U>>, env: Env<BypassState<U>>, value: F32, position: nat)
    requires PluggedIn(d)
    ensures var (env', _, logits) := GpuHooks(d).forward(env, [value], position);
            env'.user.bypass == env.user.bypass && (logits == [] ==> env'.error.Some?)
  {
    if position < TWO_TO_THE_64 {
      RunKeepsBypass(d, env, d.dequant(d.tokenOf(value)), position, 1);
    }
  }

  // --- Every run is forced ------------------------------------------------

  /** Callbacks that leave the bypass alone, a forward pass that yields no logits
      only with an error, and a control that answers for the bypass until there is
      one. */
  ghost predicate Forces<U(!new)>(h: Hooks<Env<BypassState<U>>>, vocabulary: u64) {
    && (forall e: Env<BypassState<U>>, x :: h.mask(e, x).0.user.bypass == e.user.bypass)
    && (forall e: Env<BypassState<U>>, x, w :: h.sample(e, x, w).0.user.bypass == e.user.bypass)
    && (forall e: Env<BypassState<U>>, piece :: h.onToken(e, piece).user.bypass == e.user.bypass)
    && (forall e: Env<BypassState<U>>, value: F32, p: nat ::
          var (e', _, logits) := h.forward(e, [value], p);
          e'.user.bypass == e.user.bypass && (logits == [] ==> e'.error.Some?))
    && (forall e: Env<BypassState<U>>, t, text, k, ids, kv ::
          Answers(e, vocabulary, h.control(e, t, text, k, ids, kv)))
  }

  /** The control's answer for the bypass: block once there is an error, else force
      the head of the queue, or stop when there is none. */
  ghost predicate Answers<U>(e: Env<BypassState<U>>, vocabulary: u64, answer: (Env<BypassState<U>>, Decision)) {
    var (e', decision) := answer;
    var b := e.user.bypass;
    if e.error.Some? then e' == e && decision.Block?
    else if b.queue == [] then
      decision == (if b.armed then EarlyExit else Allow) && e'.error == None && e'.user.bypass == b
    else
      b.queue[0] < vocabulary ==>
        && decision == ForceToken(b.queue[0]) && e'.user.bypass == b.(queue := b.queue[1..])
        && e'.error == None && e'.lease == e.lease && e'.refused == e.refused
  }

  lemma GpuForces<U(!new)>(d: Device<BypassState<U>>)
    requires PluggedIn(d)
    ensures Forces(GpuHooks(d), d.vocabulary)
  {
    forall e: Env<BypassState<U>>, value: F32, p: nat
      ensures var (e', _, logits) := GpuHooks(d).forward(e, [value], p);
              e'.user.bypass == e.user.bypass && (logits == [] ==> e'.error.Some?)
    {
      ForwardKeepsBypass(d, e, value, p);
    }
  }

  lemma {:induction false} ForcesFrom<U(!new)>(
      h: Hooks<Env<BypassState<U>>>, vocabulary: u64, r: Request, g: Gen<Env<BypassState<U>>>, logits: seq<F32>, k: nat)
    requires Forces(h, vocabulary) && k < Limit(r) && (k > 0 && logits == [] ==> g.env.error.Some?)
    requires g.env.user.bypass.armed && Forceable(r, vocabulary, g.env.user.bypass.queue)
    ensures var o := NextToken(h, r, g, logits, k);
            o.env.error == None ==> ForcedOutcome(g.ids, g.env.user.bypass.queue, Limit(r) - k, o)
    decreases Limit(r) - k, 1
  {
    var q := g.env.user.bypass.queue;
    if k == 0 || logits != [] {
      var (env1, masked) := h.mask(g.env, logits);
      var traced := if k > 0 then g.traced + [(k, masked)] else g.traced;
      var (env2, _, candidate) := h.sample(env1, masked, Window(g.ids, |r.prompt|));
      var (env3, decision) := h.control(env2, candidate, g.text, k, g.ids, |r.prompt| + k);
      assert Answers(env2, vocabulary, (env3, decision));
      if env2.error == None && q != [] {
        var gated := g.(env := env3, traced := traced);
        assert NextToken(h, r, g, logits, k) == Accept(h, r, gated, q[0], k);
        ForcesAccepted(h, vocabulary, r, gated, q[0], k);
        OneForced(g.ids, q, Limit(r) - k, NextToken(h, r, g, logits, k));
      }
    }
  }

  lemma OneForced<E>(ids: seq<u32>, q: seq<u64>, limit: nat, o: Outcome<E>)
    requires q != [] && limit > 0 && forall i :: 0 <= i < |q| ==> q[i] < TWO_TO_THE_32
    ensures ForcedOutcome(ids + [q[0]], q[1..], limit - 1, o) ==> ForcedOutcome(ids, q, limit, o)
  {
    var n := Min(|q|, limit);
    assert q[..n] == [q[0]] + q[1..][..n - 1];
    assert ids + [q[0]] + q[1..][..n - 1] == ids + ([q[0]] + q[1..][..n - 1]);
  }

  lemma {:induction false} ForcesAccepted<U(!new)>(
      h: Hooks<Env<BypassState<U>>>, vocabulary: u64, r: Request, g: Gen<Env<BypassState<U>>>, token: u32, k: nat)
    requires Forces(h, vocabulary) && k < Limit(r) && !IsTerminal(r, token)
    requires g.env.user.bypass.armed && Forceable(r, vocabulary, g.env.user.bypass.queue)
    ensures var o := Accept(h, r, g, token, k);
            o.env.error == None ==> ForcedOutcome(g.ids + [token], g.env.user.bypass.queue, Limit(r) - k - 1, o)
    decreases Limit(r) - k, 0
  {
    var g' := Recorded(h, g, token);
    AcceptsText(h, r, g, token, k);
    if k + 1 < r.maxTokens {
      var (env, _, logits) := h.forward(g'.env, [h.tokenValue(token)], |r.prompt| + k);
      ForcesFrom(h, vocabulary, r, g'.(env := env), logits, k + 1);
    } else {
      assert g'.ids + g.env.user.bypass.queue[..0] == g'.ids;
    }
  }

  lemma GenerateIsForced<U(!new)>(d: Device<BypassState<U>>, r: Request, env: Env<BypassState<U>>)
    requires PluggedIn(d) && |r.prompt| < TWO_TO_THE_32
    requires env.user.bypass.armed && Forceable(r, d.vocabulary, env.user.bypass.queue)
    ensures var o := Generate(GpuHooks(d), r, env);
            o.env.error == None ==> ForcedOutcome(r.prompt, env.user.bypass.queue, Limit(r), o)
  {
    var h := GpuHooks(d);
    var (env', _, logits) := h.prefill(env, Embed(h, r.prompt), |r.prompt|);
    RunKeepsBypass(d, env, Embed(h, r.prompt), 0, d.chunkRows);
    GpuForces(d);
    ForcesFrom(h, d.vocabulary, r, Gen(env', r.prompt, "", [], []), logits, 0);
  }

  /** Main result: with an armed bypass every saturated run of a request, in any
      order and on any machine, either records an error or generates exactly the
      forced tokens, cut at the limit, and halts by the control if the queue ran
      dry first. */
  lemma {:induction false} RunsAreForced<U(!new)>(
      d: Device<BypassState<U>>, r: Request, c: Config<Env<BypassState<U>>>, schedule: seq<Choice>)
    requires PluggedIn(d)
    requires BeforeRequest(c) && SeededFor(c.state, r) && r.prompt != []
    requires c.state.env.user.bypass.armed && Forceable(r, d.vocabulary, c.state.env.user.bypass.queue)
    requires Runs(GpuHooks(d), Absorb(c, PromptFacts(r.prompt)), schedule)
    requires Saturated(Run(GpuHooks(d), Absorb(c, PromptFacts(r.prompt)), schedule))
    ensures var end, q := Run(GpuHooks(d), Absorb(c, PromptFacts(r.prompt)), schedule).state, c.state.env.user.bypass.queue;
            end.env.error == None ==>
              && end.ids == r.prompt + q[..Min(|q|, Limit(r))]
              && end.halt == Some(if |q| < Limit(r) then ControlHalt else MaxTokensReached)
  {
    FabricRefinesLoop(GpuHooks(d), r, c, schedule);
    GenerateIsForced(d, r, c.state.env);
  }

  // --- On a machine that does not fail ------------------------------------

  ghost predicate MasksValid<U(!new)>(d: Device<U>) {
    forall u, x :: d.maskValid(d.mask(u, x).1)
  }

  /** Callbacks that never fail between `prompt` and `capacity`. */
  ghost predicate Steady<U(!new)>(h: Hooks<Env<U>>, prompt: nat, capacity: nat) {
    && (forall e: Env<U>, x :: SameStanding(e, h.mask(e, x).0))
    && (forall e: Env<U>, x, w :: SameStanding(e, h.sample(e, x, w).0))
    && (forall e: Env<U>, piece :: SameStanding(e, h.onToken(e, piece)))
    && (forall e: Env<U>, value: F32, p: nat :: PassesOn(h, e, value, p, prompt, capacity))
  }

  ghost predicate PassesOn<U>(h: Hooks<Env<U>>, e: Env<U>, value: F32, p: nat, prompt: nat, capacity: nat) {
    prompt <= p < capacity && e.error == None && OnTrack(e, prompt, p) ==>
      var (e', _, logits) := h.forward(e, [value], p);
      e'.error == None && OnTrack(e', prompt, p + 1) && logits != []
  }

  ghost predicate SameStanding<U>(e: Env<U>, e': Env<U>) {
    e'.lease == e.lease && e'.error == e.error && e'.refused == e.refused
  }

  lemma GpuIsSteady<U(!new)>(d: Device<U>, prompt: nat)
    requires Reliable(d) && MasksValid(d) && WholeRows(d) && 0 < prompt
    ensures Steady(GpuHooks(d), prompt, d.capacity)
  {
    forall e: Env<U>, value: F32, p: nat
      ensures PassesOn(GpuHooks(d), e, value, p, prompt, d.capacity)
    {
      if prompt <= p < d.capacity && e.error == None && OnTrack(e, prompt, p) {
        ReliableForward(d, e, value, prompt, p);
      }
    }
  }

  lemma {:induction false} NeverFails<U(!new)>(
      h: Hooks<Env<BypassState<U>>>, vocabulary: u64, capacity: nat, r: Request,
      g: Gen<Env<BypassState<U>>>, logits: seq<F32>, k: nat)
    requires Forces(h, vocabulary) && Steady(h, |r.prompt|, capacity) && Fits(r, capacity) && k < r.maxTokens
    requires OnTrack(g.env, |r.prompt|, |r.prompt| + k) && g.env.error == None && logits != []
    requires g.env.user.bypass.armed && Forceable(r, vocabulary, g.env.user.bypass.queue)
    ensures NextToken(h, r, g, logits, k).env.error == None
    decreases r.maxTokens - k, 1
  {
    var q := g.env.user.bypass.queue;
    var (env1, masked) := h.mask(g.env, logits);
    var traced := if k > 0 then g.traced + [(k, masked)] else g.traced;
    var (env2, _, candidate) := h.sample(env1, masked, Window(g.ids, |r.prompt|));
    var (env3, decision) := h.control(env2, candidate, g.text, k, g.ids, |r.prompt| + k);
    assert Answers(env2, vocabulary, (env3, decision)) && SameStanding(g.env, env1) && SameStanding(env1, env2);
    if q != [] {
      var gated := g.(env := env3, traced := traced);
      assert NextToken(h, r, g, logits, k) == Accept(h, r, gated, q[0], k);
      AcceptedNeverFails(h, vocabulary, capacity, r, gated, q[0], k);
    }
  }

  lemma {:induction false} AcceptedNeverFails<U(!new)>(
      h: Hooks<Env<BypassState<U>>>, vocabulary: u64, capacity: nat, r: Request,
      g: Gen<Env<BypassState<U>>>, token: u32, k: nat)
    requires Forces(h, vocabulary) && Steady(h, |r.prompt|, capacity) && Fits(r, capacity) && k < r.maxTokens
    requires OnTrack(g.env, |r.prompt|, |r.prompt| + k) && g.env.error == None && !IsTerminal(r, token)
    requires g.env.user.bypass.armed && Forceable(r, vocabulary, g.env.user.bypass.queue)
    ensures Accept(h, r, g, token, k).env.error == None
    decreases r.maxTokens - k, 0
  {
    var g' := Recorded(h, g, token);
    AcceptsText(h, r, g, token, k);
    assert SameStanding(g.env, g'.env);
    if k + 1 < r.maxTokens {
      var (env, _, logits) := h.forward(g'.env, [h.tokenValue(token)], |r.prompt| + k);
      assert PassesOn(h, g'.env, h.tokenValue(token), |r.prompt| + k, |r.prompt|, capacity);
      NeverFails(h, vocabulary, capacity, r, g'.(env := env), logits, k + 1);
    }
  }

  lemma ReliableRun<U(!new)>(d: Device<U>, env: Env<U>, x: seq<F32>, prompt: nat)
    requires Reliable(d) && WholeRows(d) && 0 < prompt <= d.capacity && |x| == prompt * d.dim
    requires StandsAt(env.lease, prompt, 0)
    ensures var (env', result) := RunModel(d, env, x, 0, d.chunkRows);
            && env'.error == env.error && env'.refused == env.refused && StandsAt(env'.lease, prompt, prompt)
            && result.Some? && Usable(d, result.value.1)
  {
    Rows(prompt, d.dim);
    Positive(prompt, d.dim);
    Positive(d.chunkRows, d.dim);
    ChunksExtend(d, env, x, 0, d.chunkRows, d.chunkRows * d.dim, prompt);
    ChunksReliable(d, env, x, 0, d.chunkRows, d.chunkRows * d.dim, prompt);
  }

  lemma ReliablePrefill<U(!new)>(d: Device<U>, env: Env<U>, prompt: seq<u32>)
    requires Reliable(d) && WholeRows(d) && 0 < |prompt| <= d.capacity && |prompt| < TWO_TO_THE_32
    requires Begun(env, prompt, d.capacity)
    ensures var (env', _, logits) := GpuHooks(d).prefill(env, Embed(GpuHooks(d), prompt), |prompt|);
            env'.error == None && OnTrack(env', |prompt|, |prompt|) && logits != []
  {
    EmbedLength(d, prompt);
    ReliableRun(d, env, Embed(GpuHooks(d), prompt), |prompt|);
  }

  /** All of it on one run: an admitted request with an armed bypass, on a machine
      that does not fail, generates the forced tokens without an error, is refused
      no position, and leaves the lease ready to finish. */
  lemma {:induction false} ForcedRunsFinish<U(!new)>(
      d: Device<BypassState<U>>, r: Request, c: Config<Env<BypassState<U>>>, schedule: seq<Choice>)
    requires PluggedIn(d) && Reliable(d) && MasksValid(d) && WholeRows(d) && |r.prompt| < TWO_TO_THE_32
    requires Admit(r.prompt, r.maxTokens, d.vocabulary, d.capacity).Ok? && r.maxTokens > 0
    requires BeforeRequest(c) && SeededFor(c.state, r) && Begun(c.state.env, r.prompt, d.capacity)
    requires c.state.env.user.bypass.armed && Forceable(r, d.vocabulary, c.state.env.user.bypass.queue)
    requires Runs(GpuHooks(d), Absorb(c, PromptFacts(r.prompt)), schedule)
    requires Saturated(Run(GpuHooks(d), Absorb(c, PromptFacts(r.prompt)), schedule))
    ensures var end, q := Run(GpuHooks(d), Absorb(c, PromptFacts(r.prompt)), schedule).state, c.state.env.user.bypass.queue;
            && end.env.error == None
            && end.ids == r.prompt + q[..Min(|q|, r.maxTokens)]
            && end.halt == Some(if |q| < r.maxTokens then ControlHalt else MaxTokensReached)
            && EndsWell(r, OutcomeOf(end))
  {
    RunsAreForced(d, r, c, schedule);
    AdmittedRunsFinish(d, r, c, schedule);
    FabricRefinesLoop(GpuHooks(d), r, c, schedule);
    GenerateNeverFails(d, r, c.state.env);
  }

  lemma {:induction false} GenerateNeverFails<U(!new)>(d: Device<BypassState<U>>, r: Request, env: Env<BypassState<U>>)
    requires PluggedIn(d) && Reliable(d) && MasksValid(d) && WholeRows(d) && |r.prompt| < TWO_TO_THE_32
    requires Fits(r, d.capacity) && Begun(env, r.prompt, d.capacity)
    requires env.user.bypass.armed && Forceable(r, d.vocabulary, env.user.bypass.queue)
    ensures Generate(GpuHooks(d), r, env).env.error == None
  {
    var h := GpuHooks(d);
    var (env', _, logits) := h.prefill(env, Embed(h, r.prompt), |r.prompt|);
    ReliablePrefill(d, env, r.prompt);
    RunKeepsBypass(d, env, Embed(h, r.prompt), 0, d.chunkRows);
    GpuForces(d);
    GpuIsSteady(d, |r.prompt|);
    NeverFails(h, d.vocabulary, d.capacity, r, Gen(env', r.prompt, "", [], []), logits, 0);
  }
}
