/** What a request computes: the chunks of a prefill, and the request as a whole,
    against the plain loop over the same machine with no lease, no chunks and no
    error slot. */
module GpuRefinement {
  import opened Prelude
  import opened Facts
  import opened FabricRules
  import opened FabricRun
  import opened FabricBudget
  import opened SequentialLoop
  import opened FabricRefinement
  import opened TokenAccounting
  import opened GpuRequest

  /** A frame with a result has run the machine on its rows, once. */
  lemma FrameComputes<U>(d: Device<U>, env: Env<U>, x: seq<F32>, position: u64)
    ensures var (env', result) := Frame(d, env, x, position);
            result.Some? ==> (env'.user, result) == d.compute(env.user, x, position)
  {
  }

  // --- What a chunked run returns -----------------------------------------

  /** The rows in order, every piece but the last a full chunk. */
  ghost predicate Cuts(pieces: seq<seq<F32>>, x: seq<F32>, chunk: nat) {
    && pieces != [] && Flatten(pieces) == x
    && (forall i :: 0 <= i < |pieces| - 1 ==> |pieces[i]| == chunk)
    && |pieces[|pieces| - 1]| <= chunk && (x != [] ==> pieces[|pieces| - 1] != [])
  }

  /** The caller's state after the machine has run on the pieces one after another. */
  function StateAfter<U>(d: Device<U>, u: U, pieces: seq<seq<F32>>, position: nat): U
    requires d.dim > 0
    decreases |pieces|
  {
    if pieces == [] || position >= TWO_TO_THE_64 then u
    else StateAfter(d, d.compute(u, pieces[0], position).0, pieces[1..], position + |pieces[0]| / d.dim)
  }

  /** The first position of piece `i`. */
  function StartOf<U>(d: Device<U>, pieces: seq<seq<F32>>, position: nat): nat
    requires d.dim > 0
  {
    if pieces == [] then position else StartOf(d, pieces[1..], position + |pieces[0]| / d.dim)
  }

  /** The machine run on the last piece, from the state all earlier ones leave. */
  ghost predicate LastPiece<U>(
      d: Device<U>, u: U, pieces: seq<seq<F32>>, position: nat, end: U, result: Option<(seq<F32>, seq<F32>)>)
  {
    && d.dim > 0 && pieces != []
    && var before, last := pieces[..|pieces| - 1], pieces[|pieces| - 1];
       var at := StartOf(d, before, position);
    && at < TWO_TO_THE_64
    && (end, result) == d.compute(StateAfter(d, u, before, position), last, at)
  }

  lemma OnePiece<U>(d: Device<U>, u: U, x: seq<F32>, position: u64)
    requires d.dim > 0
    ensures var (end, result) := d.compute(u, x, position); LastPiece(d, u, [x], position, end, result)
  {
    assert [x][..0] == [];
  }

  lemma MorePieces<U>(
      d: Device<U>, u: U, head: seq<F32>, tail: seq<seq<F32>>, position: u64, end: U, result: Option<(seq<F32>, seq<F32>)>)
    requires d.dim > 0 && LastPiece(d, d.compute(u, head, position).0, tail, position + |head| / d.dim, end, result)
    ensures LastPiece(d, u, [head] + tail, position, end, result)
  {
    var pieces := [head] + tail;
    var before := pieces[..|pieces| - 1];
    assert before[0] == head && before[1..] == tail[..|tail| - 1];
  }

  lemma CutsFirst(head: seq<F32>, tail: seq<seq<F32>>, rest: seq<F32>, chunk: nat)
    requires Cuts(tail, rest, chunk) && |head| == chunk && rest != []
    ensures Cuts([head] + tail, head + rest, chunk)
  {
    var pieces := [head] + tail;
    assert pieces[1..] == tail;
  }

  /** A run of more than one chunk: the first one's pass, and the run on the rest. */
  lemma ChunksByFrame<U>(d: Device<U>, env: Env<U>, x: seq<F32>, position: u64, chunk: nat)
    requires d.dim > 0 && 0 < chunk < |x| && Chunks(d, env, x, position, chunk).1.Some?
    ensures position + chunk / d.dim < TWO_TO_THE_64
    ensures var (env1, first) := Frame(d, env, x[..chunk], position);
            && first.Some? && (env1.user, first) == d.compute(env.user, x[..chunk], position)
            && Chunks(d, env, x, position, chunk) == Chunks(d, env1, x[chunk..], position + chunk / d.dim, chunk)
  {
    FrameComputes(d, env, x[..chunk], position);
  }

  /** A chunked run with a result has run the machine on every chunk in order, each
      from the state the one before left, and returns what the last of them gave. */
  lemma {:induction false} ChunksCompute<U>(d: Device<U>, env: Env<U>, x: seq<F32>, position: u64, chunk: nat)
    returns (pieces: seq<seq<F32>>)
    requires d.dim > 0 && chunk > 0 && Chunks(d, env, x, position, chunk).1.Some?
    ensures Cuts(pieces, x, chunk)
    ensures var (env', result) := Chunks(d, env, x, position, chunk);
            LastPiece(d, env.user, pieces, position, env'.user, result)
    decreases |x|
  {
    if |x| <= chunk {
      pieces := [x];
      FrameComputes(d, env, x, position);
      OnePiece(d, env.user, x, position);
      assert Flatten([x]) == x + Flatten([x][1..]) == x;
    } else {
      var head, rest := x[..chunk], x[chunk..];
      ChunksByFrame(d, env, x, position, chunk);
      var env1 := Frame(d, env, head, position).0;
      var (env', result) := Chunks(d, env, x, position, chunk);
      var tail := ChunksCompute(d, env1, rest, position + chunk / d.dim, chunk);
      CutsFirst(head, tail, rest, chunk);
      assert head + rest == x;
      MorePieces(d, env.user, head, tail, position, env'.user, result);
      pieces := [head] + tail;
    }
  }

  // --- A machine that composes --------------------------------------------

  /** Running the machine on rows and then on the rows that follow is running it on
      all of them at once. */
  ghost predicate Composes<U(!new)>(d: Device<U>) {
    forall u: U, a: seq<F32>, b: seq<F32>, p: u64, q: u64 :: Follows(d, u, a, b, p, q)
  }

  ghost predicate Follows<U>(d: Device<U>, u: U, a: seq<F32>, b: seq<F32>, p: u64, q: u64) {
    d.dim > 0 && |a| % d.dim == 0 && q == p + |a| / d.dim && d.compute(u, a, p).1.Some? ==>
      d.compute(u, a + b, p) == d.compute(d.compute(u, a, p).0, b, q)
  }

  lemma TwoPassesAreOne<U(!new)>(d: Device<U>, u: U, a: seq<F32>, b: seq<F32>, p: u64, q: u64)
    requires Composes(d) && d.dim > 0 && |a| % d.dim == 0 && q == p + |a| / d.dim && d.compute(u, a, p).1.Some?
    ensures d.compute(u, a + b, p) == d.compute(d.compute(u, a, p).0, b, q)
  {
    assert Follows(d, u, a, b, p, q);
  }

  /** On such a machine the chunk size cannot be told from the result. */
  lemma {:induction false} ChunksAreOnePass<U(!new)>(
      d: Device<U>, env: Env<U>, x: seq<F32>, position: u64, chunk: nat)
    requires Composes(d) && d.dim > 0 && chunk > 0 && chunk % d.dim == 0
    requires Chunks(d, env, x, position, chunk).1.Some?
    ensures var (env', result) := Chunks(d, env, x, position, chunk);
            (env'.user, result) == d.compute(env.user, x, position)
    decreases |x|
  {
    if |x| <= chunk {
      FrameComputes(d, env, x, position);
    } else {
      var head, rest := x[..chunk], x[chunk..];
      ChunksByFrame(d, env, x, position, chunk);
      ChunksAreOnePass(d, Frame(d, env, head, position).0, rest, position + chunk / d.dim, chunk);
      TwoPassesAreOne(d, env.user, head, rest, position, position + chunk / d.dim);
      assert head + rest == x;
    }
  }

  lemma RunIsOnePass<U(!new)>(d: Device<U>, env: Env<U>, x: seq<F32>, position: u64, chunkRows: u32)
    requires Composes(d) && RunModel(d, env, x, position, chunkRows).1.Some?
    ensures var (env', result) := RunModel(d, env, x, position, chunkRows);
            (env'.user, result) == d.compute(env.user, x, position)
  {
    Positive(chunkRows, d.dim);
    Rows(chunkRows, d.dim);
    ChunksAreOnePass(d, env, x, position, chunkRows * d.dim);
  }

  /** Two chunk sizes give the same result and leave the same state. */
  lemma ChunkSizesAgree<U(!new)>(d: Device<U>, env: Env<U>, x: seq<F32>, position: u64, one: u32, other: u32)
    requires Composes(d)
    requires RunModel(d, env, x, position, one).1.Some? && RunModel(d, env, x, position, other).1.Some?
    ensures RunModel(d, env, x, position, one).1 == RunModel(d, env, x, position, other).1
    ensures RunModel(d, env, x, position, one).0.user == RunModel(d, env, x, position, other).0.user
  {
    RunIsOnePass(d, env, x, position, one);
    RunIsOnePass(d, env, x, position, other);
  }

  // --- The request as a whole ---------------------------------------------

  /** A pass as the plain loop sees it. */
  function Pass<U>(r: (U, Option<(seq<F32>, seq<F32>)>)): (U, seq<F32>, seq<F32>) {
    match r.1
    case Some((hidden, logits)) => (r.0, hidden, logits)
    case None => (r.0, [], [])
  }

  function PlainForward<U>(d: Device<U>, u: U, token: seq<F32>, position: nat): (U, seq<F32>, seq<F32>) {
    if token == [] || position >= TWO_TO_THE_64 then (u, [], [])
    else Pass(d.compute(u, d.dequant(d.tokenOf(token[0])), position))
  }

  function PlainControl<U>(d: Device<U>, u: U, t: u32, text: string, k: nat, ids: seq<u32>, kv: nat): (U, Decision) {
    var (u', decision) := d.control(u, t, text, k, ids, kv);
    match decision
    case CAllow => (u', Allow)
    case CForceToken(forced) => (u', ForceToken(forced))
    case CEarlyExit => (u', EarlyExit)
    case CBlockAndTerminate(reason) => (u', Block(reason))
  }

  /** The machine and the caller's hooks, with nothing in between. */
  function PlainHooks<U>(d: Device<U>): Hooks<U> {
    Hooks(
      d.dim,
      (t: u32, n: u32) => d.dequant(t),
      (u: U, batch: seq<F32>, n: u32) => Pass(d.compute(u, batch, 0)),
      (u: U, token: seq<F32>, position: nat) => PlainForward(d, u, token, position),
      d.mask, d.sample,
      (u: U, t: u32, text: string, k: nat, ids: seq<u32>, kv: nat) => PlainControl(d, u, t, text, k, ids, kv),
      d.onToken, d.decode, d.tokenValue, d.rmsBits, d.checksum)
  }

  function PlainGen<U>(g: Gen<Env<U>>): Gen<U> {
    Gen(g.env.user, g.ids, g.text, g.pieces, g.traced)
  }

  function PlainOutcome<U>(o: Outcome<Env<U>>): Outcome<U> {
    Outcome(o.env.user, o.ids, o.text, o.pieces, o.traced, o.halt, o.blockReason)
  }

  /** Hooks that do what the plain hooks do until an error is recorded, and once one
      is, keep it and block. */
  ghost predicate Simulates<U(!new)>(h: Hooks<Env<U>>, h0: Hooks<U>) {
    && h.decode == h0.decode && h.tokenValue == h0.tokenValue
    && (forall e: Env<U>, piece :: TokenAgrees(h, h0, e, piece))
    && (forall e: Env<U>, value: F32, position: nat :: ForwardAgrees(h, h0, e, value, position))
    && (forall e: Env<U>, logits, recent, text, k: nat, ids, kv: nat :: GateAgrees(h, h0, e, logits, recent, text, k, ids, kv))
  }

  ghost predicate TokenAgrees<U>(h: Hooks<Env<U>>, h0: Hooks<U>, e: Env<U>, piece: string) {
    h.onToken(e, piece).user == h0.onToken(e.user, piece) && h.onToken(e, piece).error == e.error
  }

  ghost predicate ForwardAgrees<U>(h: Hooks<Env<U>>, h0: Hooks<U>, e: Env<U>, value: F32, position: nat) {
    var (e', hidden, logits) := h.forward(e, [value], position);
    e'.error == None ==> (e'.user, hidden, logits) == h0.forward(e.user, [value], position)
  }

  ghost predicate GateAgrees<U>(h: Hooks<Env<U>>, h0: Hooks<U>, e: Env<U>, logits: seq<F32>, recent: seq<u32>,
                                text: string, k: nat, ids: seq<u32>, kv: nat) {
    var (e1, masked) := h.mask(e, logits);
    var (e2, sampled, candidate) := h.sample(e1, masked, recent);
    var (e3, decision) := h.control(e2, candidate, text, k, ids, kv);
    && (e.error.Some? ==> e3.error.Some? && decision.Block?)
    && (e3.error == None ==>
          && h0.mask(e.user, logits) == (e1.user, masked)
          && h0.sample(e1.user, masked, recent) == (e2.user, sampled, candidate)
          && h0.control(e2.user, candidate, text, k, ids, kv) == (e3.user, decision))
    && (decision.Allow? || decision.ForceToken? ==> e3.error == None)
  }

  lemma CheckedPasses<U>(d: Device<U>, r: (Env<U>, Option<(seq<F32>, seq<F32>)>))
    requires Checked(d, r).0.error == None
    ensures r.1.Some? && Checked(d, r) == (r.0, r.1.value.0, r.1.value.1) && r.1.value.1 != []
  {
  }

  lemma ForwardIsPlain<U(!new)>(d: Device<U>, env: Env<U>, value: F32, position: nat)
    requires Composes(d)
    ensures ForwardAgrees(GpuHooks(d), PlainHooks(d), env, value, position)
  {
    if GpuHooks(d).forward(env, [value], position).0.error == None {
      var x := d.dequant(d.tokenOf(value));
      CheckedPasses(d, RunModel(d, env, x, position, 1));
      RunIsOnePass(d, env, x, position, 1);
    }
  }

  lemma PrefillIsPlain<U(!new)>(d: Device<U>, env: Env<U>, x: seq<F32>, n: u32)
    requires Composes(d) && GpuHooks(d).prefill(env, x, n).0.error == None
    ensures var (env', hidden, logits) := GpuHooks(d).prefill(env, x, n);
            (env'.user, hidden, logits) == PlainHooks(d).prefill(env.user, x, n)
  {
    CheckedPasses(d, RunModel(d, env, x, 0, d.chunkRows));
    RunIsOnePass(d, env, x, 0, d.chunkRows);
  }

  lemma GateIsPlain<U(!new)>(d: Device<U>, e: Env<U>, logits: seq<F32>, recent: seq<u32>, text: string,
                             k: nat, ids: seq<u32>, kv: nat)
    ensures GateAgrees(GpuHooks(d), PlainHooks(d), e, logits, recent, text, k, ids, kv)
  {
  }

  lemma GpuSimulates<U(!new)>(d: Device<U>)
    requires Composes(d)
    ensures Simulates(GpuHooks(d), PlainHooks(d))
  {
    var h, h0 := GpuHooks(d), PlainHooks(d);
    forall e: Env<U>, value: F32, position: nat
      ensures ForwardAgrees(h, h0, e, value, position)
    {
      ForwardIsPlain(d, e, value, position);
    }
    forall e: Env<U>, logits, recent, text, k: nat, ids, kv: nat
      ensures GateAgrees(h, h0, e, logits, recent, text, k, ids, kv)
    {
      GateIsPlain(d, e, logits, recent, text, k, ids, kv);
    }
  }

  /** An error once recorded is still there at the end. */
  lemma ErrorSticks<U(!new)>(h: Hooks<Env<U>>, h0: Hooks<U>, r: Request, g: Gen<Env<U>>, logits: seq<F32>, k: nat)
    requires Simulates(h, h0) && g.env.error.Some?
    ensures NextToken(h, r, g, logits, k).env.error.Some?
  {
    assert GateAgrees(h, h0, g.env, logits, Window(g.ids, |r.prompt|), g.text, k, g.ids, |r.prompt| + k);
  }

  lemma {:induction false} NextIsPlain<U(!new)>(
      h: Hooks<Env<U>>, h0: Hooks<U>, r: Request, g: Gen<Env<U>>, logits: seq<F32>, k: nat)
    requires Simulates(h, h0)
    ensures var o := NextToken(h, r, g, logits, k);
            o.env.error == None ==> PlainOutcome(o) == NextToken(h0, r, PlainGen(g), logits, k)
    decreases r.maxTokens - k, 2
  {
    if k == 0 || logits != [] {
      var recent := Window(g.ids, |r.prompt|);
      assert GateAgrees(h, h0, g.env, logits, recent, g.text, k, g.ids, |r.prompt| + k);
      var (env1, masked) := h.mask(g.env, logits);
      var traced := if k > 0 then g.traced + [(k, masked)] else g.traced;
      var (env2, _, candidate) := h.sample(env1, masked, recent);
      var (env3, decision) := h.control(env2, candidate, g.text, k, g.ids, |r.prompt| + k);
      if decision.Allow? || decision.ForceToken? {
        AcceptIsPlain(h, h0, r, g.(env := env3, traced := traced), Chosen(decision, candidate), k);
      }
    }
  }

  lemma {:induction false} AcceptIsPlain<U(!new)>(
      h: Hooks<Env<U>>, h0: Hooks<U>, r: Request, g: Gen<Env<U>>, token: u32, k: nat)
    requires Simulates(h, h0)
    ensures var o := Accept(h, r, g, token, k);
            o.env.error == None ==> PlainOutcome(o) == Accept(h0, r, PlainGen(g), token, k)
    decreases r.maxTokens - k, 1
  {
    if !IsTerminal(r, token) {
      AcceptsText(h, r, g, token, k);
      AcceptsText(h0, r, PlainGen(g), token, k);
      assert TokenAgrees(h, h0, g.env, h.decode(token));
      assert PlainGen(Recorded(h, g, token)) == Recorded(h0, PlainGen(g), token);
      ContinueIsPlain(h, h0, r, Recorded(h, g, token), token, k);
    }
  }

  lemma {:induction false} ContinueIsPlain<U(!new)>(
      h: Hooks<Env<U>>, h0: Hooks<U>, r: Request, g: Gen<Env<U>>, token: u32, k: nat)
    requires Simulates(h, h0)
    ensures var o := Continue(h, r, g, token, k);
            o.env.error == None ==> PlainOutcome(o) == Continue(h0, r, PlainGen(g), token, k)
    decreases r.maxTokens - k, 0
  {
    if k + 1 < r.maxTokens {
      var (env, _, logits) := h.forward(g.env, [h.tokenValue(token)], |r.prompt| + k);
      assert ForwardAgrees(h, h0, g.env, h.tokenValue(token), |r.prompt| + k);
      if env.error.Some? {
        ErrorSticks(h, h0, r, g.(env := env), logits, k + 1);
      } else {
        NextIsPlain(h, h0, r, g.(env := env), logits, k + 1);
      }
    }
  }

  lemma {:induction false} EmbedsAlike<U(!new)>(d: Device<U>, prompt: seq<u32>)
    ensures Embed(GpuHooks(d), prompt) == Embed(PlainHooks(d), prompt)
  {
    if prompt != [] {
      EmbedsAlike(d, prompt[1..]);
    }
  }

  lemma {:induction false} GenerateIsPlain<U(!new)>(d: Device<U>, r: Request, env: Env<U>)
    requires Composes(d) && |r.prompt| < TWO_TO_THE_32
    ensures var o := Generate(GpuHooks(d), r, env);
            o.env.error == None ==> PlainOutcome(o) == Generate(PlainHooks(d), r, env.user)
  {
    var h := GpuHooks(d);
    var (env', _, logits) := h.prefill(env, Embed(h, r.prompt), |r.prompt|);
    var g := Gen(env', r.prompt, "", [], []);
    GpuSimulates(d);
    if env'.error.Some? {
      ErrorSticks(h, PlainHooks(d), r, g, logits, 0);
    } else {
      EmbedsAlike(d, r.prompt);
      PrefillIsPlain(d, env, Embed(h, r.prompt), |r.prompt|);
      NextIsPlain(h, PlainHooks(d), r, g, logits, 0);
    }
  }

  /** Main result: on a machine that composes, a request that ends without an error
      shows, in whatever order its facts are taken and whatever its chunk size,
      what the plain loop shows that runs the machine on the whole prompt and then
      on one token at a time. Lease, chunks and checks are not to be seen. */
  lemma {:induction false} RequestsArePlain<U(!new)>(
      d: Device<U>, r: Request, c: Config<Env<U>>, schedule: seq<Choice>)
    requires Composes(d)
    requires BeforeRequest(c) && SeededFor(c.state, r) && r.prompt != []
    requires Runs(GpuHooks(d), Absorb(c, PromptFacts(r.prompt)), schedule)
    requires Saturated(Run(GpuHooks(d), Absorb(c, PromptFacts(r.prompt)), schedule))
    ensures var end := Run(GpuHooks(d), Absorb(c, PromptFacts(r.prompt)), schedule).state;
            end.halt.Some? &&
            (end.env.error == None ==> PlainOutcome(OutcomeOf(end)) == Generate(PlainHooks(d), r, c.state.env.user))
  {
    FabricRefinesLoop(GpuHooks(d), r, c, schedule);
    GenerateIsPlain(d, r, c.state.env);
  }
}
