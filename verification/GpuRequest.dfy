/** One generation request on the GPU runtime: the admission checks, the callbacks it
    wires into the fabric, and the lease every forward pass writes under. The lease,
    the error slot and the caller's own state travel in the fabric's environment. */
module GpuRequest {
  import opened Prelude
  import opened Facts
  import opened FabricRules
  import opened FabricRun
  import opened FabricBudget
  import opened SequentialLoop
  import opened FabricRefinement
  import opened TokenAccounting
  import L = Lease

  datatype RequestError = InvalidPromptTokens | ContextLengthExceeded

  datatype ExecutionError = GpuError | InvalidMask | InvalidControlToken | PolicyBlocked

  /** The checks on prompt and length, in order. */
  function Admit(prompt: seq<u32>, maxTokens: u64, vocabulary: u64, context: u64): Result<(), RequestError>
    requires |prompt| < TWO_TO_THE_64
  {
    if prompt == [] || |prompt| > context || exists i :: 0 <= i < |prompt| && prompt[i] >= vocabulary then
      Err(InvalidPromptTokens)
    else
      match CheckedAdd(|prompt|, if maxTokens >= 1 then maxTokens - 1 else 0)
      case None => Err(ContextLengthExceeded)
      case Some(end) => if end > context then Err(ContextLengthExceeded) else Ok(())
  }

  /** What the caller's control may answer; the runtime translates it for the fabric. */
  datatype ControlDecision = CAllow | CForceToken(token: u64) | CEarlyExit | CBlockAndTerminate(reason: string)

  /** The machine a request runs on: `compute` runs one chunk of rows at a position,
      and `None` is a GPU failure; the rest are the caller's hooks and the sampler,
      all over a state `U` of their own. */
  datatype Device<!U> = Device(
    dim: u32,
    chunkRows: u32,
    capacity: u64,
    vocabulary: u64,
    dequant: u32 -> seq<F32>,
    tokenValue: u32 -> F32,
    tokenOf: F32 -> u32,
    compute: (U, seq<F32>, u64) -> (U, Option<(seq<F32>, seq<F32>)>),
    fits: nat -> bool,
    allFinite: seq<F32> -> bool,
    mask: (U, seq<F32>) -> (U, seq<F32>),
    maskValid: seq<F32> -> bool,
    sample: (U, seq<F32>, seq<u32>) -> (U, seq<F32>, u32),
    control: (U, u32, string, nat, seq<u32>, nat) -> (U, ControlDecision),
    onToken: (U, string) -> U,
    decode: u32 -> string,
    rmsBits: seq<F32> -> u32,
    checksum: seq<F32> -> int)

  /** `refused` records that the lease, or the extent check before it, turned a
      forward pass away. */
  datatype Env<U> = Env(lease: L.Lease, error: Option<ExecutionError>, refused: bool, user: U)

  /** `get_or_insert`: the first error stays. */
  function Fail<U>(env: Env<U>, error: ExecutionError): Env<U> {
    if env.error.Some? then env else env.(error := Some(error))
  }

  function Refuse<U>(env: Env<U>): (Env<U>, Option<(seq<F32>, seq<F32>)>) {
    (env.(refused := true), None)
  }

  /** One forward pass over the rows `x` from `position`: check the extent, reserve
      the write, compute, then commit; a failed computation aborts the lease. */
  function Frame<U>(d: Device<U>, env: Env<U>, x: seq<F32>, position: u64): (Env<U>, Option<(seq<F32>, seq<F32>)>) {
    if d.dim == 0 || |x| % d.dim != 0 then (env, None)
    else
      var rows := |x| / d.dim;
      if !d.fits(rows) then (env, None)
      else if rows == 0 || position + rows >= TWO_TO_THE_64 || position + rows > d.capacity then Refuse(env)
      else if env.lease.closed || !L.CanRead(env.lease, 0, position) then Refuse(env)
      else
        var (lease, write) :=
          if env.lease.phase == L.Prefill then L.PreparePrefillChunk(d.capacity, env.lease, position, rows)
          else if env.lease.phase == L.Ready && rows == 1 then L.PrepareDecode(d.capacity, env.lease, position)
          else (env.lease, Err(L.PhaseError));
        match write
        case Err(_) => Refuse(env.(lease := lease))
        case Ok(w) =>
          var (user, computed) := d.compute(env.user, x, position);
          match computed
          case None => (env.(lease := L.Close(lease, L.Aborted), user := user), None)
          case Some(result) =>
            var (committed, ok) := L.Commit(lease, w);
            if ok.Ok? then (env.(lease := committed, user := user), Some(result))
            else Refuse(env.(lease := committed, user := user))
  }

  /** The rows of `x`, at most `chunk` values at a time, each chunk a forward pass;
      the last one's result is the result. */
  function Chunks<U>(d: Device<U>, env: Env<U>, x: seq<F32>, position: u64, chunk: nat)
    : (Env<U>, Option<(seq<F32>, seq<F32>)>)
    requires chunk > 0
    decreases |x|
  {
    if |x| <= chunk then Frame(d, env, x, position)
    else
      var (env', result) := Frame(d, env, x[..chunk], position);
      if result == None || d.dim == 0 || position + chunk / d.dim >= TWO_TO_THE_64 then (env', None)
      else Chunks(d, env', x[chunk..], position + chunk / d.dim, chunk)
  }

  /** The chunked model run. */
  function RunModel<U>(d: Device<U>, env: Env<U>, x: seq<F32>, position: u64, chunkRows: u32)
    : (Env<U>, Option<(seq<F32>, seq<F32>)>)
  {
    if d.dim == 0 || chunkRows == 0 || x == [] || |x| % d.dim != 0 then (env, None)
    else if position + |x| / d.dim >= TWO_TO_THE_64 || position + |x| / d.dim > d.capacity then Refuse(env)
    else Positive(chunkRows, d.dim); Chunks(d, env, x, position, chunkRows * d.dim)
  }

  lemma Positive(a: nat, b: nat)
    requires a > 0 && b > 0
    ensures a * b > 0
  {
  }

  /** A run's result as the fabric sees it: unusable logits set the error slot and
      come back empty. */
  function Checked<U>(d: Device<U>, r: (Env<U>, Option<(seq<F32>, seq<F32>)>)): (Env<U>, seq<F32>, seq<F32>) {
    match r.1
    case Some((hidden, logits)) =>
      if logits != [] && d.allFinite(logits) then (r.0, hidden, logits) else (Fail(r.0, GpuError), [], [])
    case None => (Fail(r.0, GpuError), [], [])
  }

  function Masked<U>(d: Device<U>, env: Env<U>, logits: seq<F32>): (Env<U>, seq<F32>) {
    var (user, masked) := d.mask(env.user, logits);
    var env' := env.(user := user);
    (if d.maskValid(masked) then env' else Fail(env', InvalidMask), masked)
  }

  /** Control: nothing is asked once an error is recorded; forced tokens are checked. */
  function Controlled<U>(d: Device<U>, env: Env<U>, candidate: u32, text: string, k: nat, ids: seq<u32>, kv: nat)
    : (Env<U>, Decision)
  {
    if env.error.Some? then (env, Block("execution failed"))
    else
      var (user, decision) := d.control(env.user, candidate, text, k, ids, kv);
      var env' := env.(user := user);
      match decision
      case CAllow => (env', Allow)
      case CForceToken(t) =>
        if t < d.vocabulary then (env', ForceToken(t)) else (Fail(env', InvalidControlToken), Block("invalid forced token"))
      case CEarlyExit => (env', EarlyExit)
      case CBlockAndTerminate(reason) => (env'.(error := Some(PolicyBlocked)), Block(reason))
  }

  function Sampled<U>(d: Device<U>, env: Env<U>, logits: seq<F32>, recent: seq<u32>): (Env<U>, seq<F32>, u32) {
    var (user, sampled, token) := d.sample(env.user, logits, recent);
    (env.(user := user), sampled, token)
  }

  function Forwarded<U>(d: Device<U>, env: Env<U>, tokenData: seq<F32>, position: nat): (Env<U>, seq<F32>, seq<F32>) {
    if tokenData == [] || position >= TWO_TO_THE_64 then (Fail(env, GpuError), [], [])
    else Checked(d, RunModel(d, env, d.dequant(d.tokenOf(tokenData[0])), position, 1))
  }

  /** The callbacks of a request. */
  function GpuHooks<U>(d: Device<U>): Hooks<Env<U>> {
    Hooks(
      d.dim,
      (t: u32, n: u32) => d.dequant(t),
      (env: Env<U>, batch: seq<F32>, n: u32) => Checked(d, RunModel(d, env, batch, 0, d.chunkRows)),
      (env: Env<U>, token: seq<F32>, position: nat) => Forwarded(d, env, token, position),
      (env: Env<U>, logits: seq<F32>) => Masked(d, env, logits),
      (env: Env<U>, logits: seq<F32>, recent: seq<u32>) => Sampled(d, env, logits, recent),
      (env: Env<U>, candidate: u32, text: string, k: nat, ids: seq<u32>, kv: nat) =>
        Controlled(d, env, candidate, text, k, ids, kv),
      (env: Env<U>, piece: string) => env.(user := d.onToken(env.user, piece)),
      d.decode, d.tokenValue, d.rmsBits, d.checksum)
  }

  /** Rows are whole: every embedding has the model's width. */
  ghost predicate WholeRows<U(!new)>(d: Device<U>) {
    forall t :: |d.dequant(t)| == d.dim
  }

  /** The lease has all of the first `processed` positions committed and no write
      outstanding: writing on, or finishing, is next. */
  predicate ReadyAt(l: L.Lease, prompt: nat, processed: nat) {
    l.phase == L.Ready && !l.closed && l.pending == None && l.prompt == prompt && l.processed == processed
  }

  predicate PrefillingAt(l: L.Lease, prompt: nat, processed: nat) {
    l.phase == L.Prefill && !l.closed && l.pending == None && l.prompt == prompt && l.processed == processed < prompt
  }

  /** Where the lease stands once the first `processed` positions are computed. */
  predicate StandsAt(l: L.Lease, prompt: nat, processed: nat) {
    if processed < prompt then PrefillingAt(l, prompt, processed) else ReadyAt(l, prompt, processed)
  }

  lemma Rows(rows: nat, dim: nat)
    requires dim > 0
    ensures (rows * dim) % dim == 0 && (rows * dim) / dim == rows
  {
    var q, m := (rows * dim) / dim, (rows * dim) % dim;
    assert (rows - q) * dim == m;
    if rows > q {
      Scaled(rows - q, dim);
    }
  }

  lemma Scaled(n: nat, dim: nat)
    requires n > 0
    ensures n * dim >= dim
  {
  }

  predicate Usable<U>(d: Device<U>, logits: seq<F32>) {
    logits != [] && d.allFinite(logits)
  }

  /** A machine that never fails; its rows have a width and its chunks hold some. */
  ghost predicate Reliable<U(!new)>(d: Device<U>) {
    && d.dim > 0 && d.chunkRows > 0
    && (forall n :: d.fits(n))
    && (forall u, x, p :: d.compute(u, x, p).1.Some? && Usable(d, d.compute(u, x, p).1.value.1))
  }

  /** A frame that extends the committed prefix is never refused. One that does not
      fit the machine changes nothing; one that fails on it closes the lease; and one
      that computes grows the prefix by its rows. */
  lemma {:induction false} FrameExtends<U(!new)>(d: Device<U>, env: Env<U>, x: seq<F32>, rows: nat, prompt: nat, position: u64)
    requires d.dim > 0 && |x| == rows * d.dim && rows > 0
    requires StandsAt(env.lease, prompt, position) && 0 < prompt <= d.capacity
    requires if position < prompt then position + rows <= prompt else rows == 1 && position + 1 <= d.capacity
    ensures var (env', result) := Frame(d, env, x, position);
            && env'.refused == env.refused && env'.error == env.error
            && (result.Some? ==> StandsAt(env'.lease, prompt, position + rows))
            && (!d.fits(rows) ==> env' == env && result == None)
            && (d.fits(rows) ==> (env'.user, result) == d.compute(env.user, x, position))
            && (d.fits(rows) && result == None ==> env'.lease.closed && env'.lease.phase == L.Aborted)
  {
    Rows(rows, d.dim);
  }

  /** A frame anywhere but at the committed prefix is refused, and computes nothing. */
  lemma {:induction false} FrameRefuses<U(!new)>(
      d: Device<U>, env: Env<U>, x: seq<F32>, rows: nat, prompt: nat, processed: nat, position: u64)
    requires d.dim > 0 && |x| == rows * d.dim && d.fits(rows) && StandsAt(env.lease, prompt, processed)
    requires position != processed
    ensures var (env', result) := Frame(d, env, x, position);
            env'.refused && result == None && env'.user == env.user
  {
    Rows(rows, d.dim);
  }

  /** A lease begins for a prompt exactly when it is not empty and fits; it then
      stands before the first position. */
  lemma BeginsIffFits(capacity: u64, epoch: u64, tokens: u64)
    ensures var (l, r) := L.StartPrefill(capacity, L.NewLease(epoch), tokens);
            if 0 < tokens <= capacity then r.Ok? && PrefillingAt(l, tokens, 0)
            else r.Err? && l == L.NewLease(epoch)
  {
  }

  /** What is admitted: a prompt of the vocabulary's ids that fits together with all
      its tokens but the last. It is what the lease then begins for. */
  lemma AdmitsExactly(prompt: seq<u32>, maxTokens: u64, vocabulary: u64, context: u64)
    requires |prompt| < TWO_TO_THE_64
    ensures Admit(prompt, maxTokens, vocabulary, context).Ok? <==>
      && prompt != [] && (forall t :: t in prompt ==> t < vocabulary)
      && |prompt| <= context && |prompt| + maxTokens <= context + 1
    ensures Admit(prompt, maxTokens, vocabulary, context) == Err(ContextLengthExceeded) ==>
      prompt != [] && (forall t :: t in prompt ==> t < vocabulary) && |prompt| <= context
    ensures Admit(prompt, maxTokens, vocabulary, context).Ok? ==>
      forall epoch: u64 :: L.StartPrefill(context, L.NewLease(epoch), |prompt|).1.Ok?
  {
    assert (exists i :: 0 <= i < |prompt| && prompt[i] >= vocabulary) <==> !(forall t :: t in prompt ==> t < vocabulary) by {
      assert forall i :: 0 <= i < |prompt| ==> prompt[i] in prompt;
    }
  }

  lemma {:induction false} ReliableFrame<U(!new)>(d: Device<U>, env: Env<U>, x: seq<F32>, rows: nat, prompt: nat, position: u64)
    requires Reliable(d) && |x| == rows * d.dim && rows > 0
    requires StandsAt(env.lease, prompt, position) && 0 < prompt <= d.capacity
    requires if position < prompt then position + rows <= prompt else rows == 1 && position + 1 <= d.capacity
    ensures Frame(d, env, x, position).1.Some? && Usable(d, Frame(d, env, x, position).1.value.1)
  {
    FrameExtends(d, env, x, rows, prompt, position);
    assert d.fits(rows) && d.compute(env.user, x, position).1.Some?;
  }

  /** Chunked prefill of what is left of the prompt. */
  lemma {:induction false} ChunksExtend<U(!new)>(
      d: Device<U>, env: Env<U>, x: seq<F32>, position: u64, chunkRows: nat, chunk: nat, prompt: nat)
    requires d.dim > 0 && chunkRows > 0 && position < prompt <= d.capacity
    requires |x| == (prompt - position) * d.dim && chunk == chunkRows * d.dim > 0
    requires StandsAt(env.lease, prompt, position)
    ensures var (env', result) := Chunks(d, env, x, position, chunk);
            && env'.refused == env.refused && env'.error == env.error
            && (result.Some? ==> StandsAt(env'.lease, prompt, prompt))
    decreases prompt - position
  {
    var left := prompt - position;
    if left <= chunkRows {
      NoLonger(left, chunkRows, d.dim);
      FrameExtends(d, env, x, left, prompt, position);
    } else {
      Longer(chunkRows, left, d.dim);
      var head, tail := x[..chunk], x[chunk..];
      FrameExtends(d, env, head, chunkRows, prompt, position);
      var (env', result) := Frame(d, env, head, position);
      if result.Some? {
        assert chunk / d.dim == chunkRows by {
          Rows(chunkRows, d.dim);
        }
        ChunksExtend(d, env', tail, position + chunkRows, chunkRows, chunk, prompt);
      }
    }
  }

  lemma {:induction false} ChunksReliable<U(!new)>(
      d: Device<U>, env: Env<U>, x: seq<F32>, position: u64, chunkRows: nat, chunk: nat, prompt: nat)
    requires Reliable(d) && chunkRows > 0 && position < prompt <= d.capacity
    requires |x| == (prompt - position) * d.dim && chunk == chunkRows * d.dim > 0
    requires StandsAt(env.lease, prompt, position)
    ensures var result := Chunks(d, env, x, position, chunk).1; result.Some? && Usable(d, result.value.1)
    decreases prompt - position
  {
    var left := prompt - position;
    if left <= chunkRows {
      NoLonger(left, chunkRows, d.dim);
      ReliableFrame(d, env, x, left, prompt, position);
      assert Chunks(d, env, x, position, chunk) == Frame(d, env, x, position);
    } else {
      Longer(chunkRows, left, d.dim);
      var head, tail := x[..chunk], x[chunk..];
      FrameExtends(d, env, head, chunkRows, prompt, position);
      ReliableFrame(d, env, head, chunkRows, prompt, position);
      assert chunk / d.dim == chunkRows by {
        Rows(chunkRows, d.dim);
      }
      var env' := Frame(d, env, head, position).0;
      assert Chunks(d, env, x, position, chunk) == Chunks(d, env', tail, position + chunkRows, chunk);
      ChunksReliable(d, env', tail, position + chunkRows, chunkRows, chunk, prompt);
    }
  }

  lemma NoLonger(a: nat, b: nat, dim: nat)
    requires a <= b
    ensures a * dim <= b * dim
  {
  }

  lemma Longer(a: nat, b: nat, dim: nat)
    requires a < b && dim > 0
    ensures a * dim < b * dim && (b - a) * dim == b * dim - a * dim
  {
  }

  lemma {:induction false} EmbedLength<U(!new)>(d: Device<U>, prompt: seq<u32>)
    requires WholeRows(d)
    ensures |Embed(GpuHooks(d), prompt)| == |prompt| * d.dim
  {
    if prompt != [] {
      EmbedLength(d, prompt[1..]);
      assert |prompt| * d.dim == d.dim + |prompt[1..]| * d.dim;
    }
  }

  /** The state of the environment between two tokens: no forward pass was refused,
      and without an error the lease has committed what was asked. */
  ghost predicate OnTrack<U>(env: Env<U>, prompt: nat, processed: nat) {
    !env.refused && (env.error == None ==> ReadyAt(env.lease, prompt, processed))
  }

  lemma {:induction false} PrefillOnTrack<U(!new)>(d: Device<U>, env: Env<U>, prompt: seq<u32>)
    requires WholeRows(d) && 0 < |prompt| <= d.capacity && |prompt| < TWO_TO_THE_32
    requires !env.refused && env.error == None && PrefillingAt(env.lease, |prompt|, 0)
    ensures OnTrack(GpuHooks(d).prefill(env, Embed(GpuHooks(d), prompt), |prompt|).0, |prompt|, |prompt|)
  {
    var x := Embed(GpuHooks(d), prompt);
    if d.dim > 0 && d.chunkRows > 0 {
      EmbedLength(d, prompt);
      Rows(|prompt|, d.dim);
      Positive(|prompt|, d.dim);
      Positive(d.chunkRows, d.dim);
      ChunksExtend(d, env, x, 0, d.chunkRows, d.chunkRows * d.dim, |prompt|);
    }
  }

  lemma {:induction false} ForwardOnTrack<U(!new)>(d: Device<U>, env: Env<U>, value: F32, prompt: nat, position: u64)
    requires WholeRows(d) && 0 < prompt <= position < d.capacity
    requires env.error == None && OnTrack(env, prompt, position)
    ensures OnTrack(GpuHooks(d).forward(env, [value], position).0, prompt, position + 1)
  {
    var x := d.dequant(d.tokenOf(value));
    if d.dim > 0 {
      Rows(1, d.dim);
      FrameExtends(d, env, x, 1, prompt, position);
    }
  }

  /** The admitted extent: the prompt and all but the last token fit. */
  predicate Fits(r: Request, capacity: nat) {
    0 < |r.prompt| && 0 < r.maxTokens && |r.prompt| + r.maxTokens - 1 <= capacity
  }

  /** How a request ends: nothing was refused, and without an error the lease is
      ready to finish, with every position the loop computed committed. */
  ghost predicate EndsWell<U>(r: Request, o: Outcome<Env<U>>) {
    && !o.env.refused
    && (o.env.error == None ==>
          && L.Finish(o.env.lease).1.Ok?
          && |r.prompt| <= o.env.lease.processed < |r.prompt| + r.maxTokens
          && (o.halt == MaxTokensReached ==> o.env.lease.processed == |r.prompt| + r.maxTokens - 1))
  }

  lemma {:induction false} NextTokenEndsWell<U(!new)>(
      d: Device<U>, r: Request, g: Gen<Env<U>>, logits: seq<F32>, k: nat)
    requires WholeRows(d) && Fits(r, d.capacity) && k < r.maxTokens
    requires OnTrack(g.env, |r.prompt|, |r.prompt| + k)
    ensures EndsWell(r, NextToken(GpuHooks(d), r, g, logits, k))
    decreases r.maxTokens - k, 1
  {
    var h := GpuHooks(d);
    if k == 0 || logits != [] {
      var (env1, masked) := h.mask(g.env, logits);
      var traced := if k > 0 then g.traced + [(k, masked)] else g.traced;
      var (env2, _, candidate) := h.sample(env1, masked, Window(g.ids, |r.prompt|));
      var (env3, decision) := h.control(env2, candidate, g.text, k, g.ids, |r.prompt| + k);
      assert OnTrack(env2, |r.prompt|, |r.prompt| + k) && OnTrack(env3, |r.prompt|, |r.prompt| + k);
      var gated := g.(env := env3, traced := traced);
      if !decision.EarlyExit? && !decision.Block? {
        assert env3.error == None;
        AcceptEndsWell(d, r, gated, Chosen(decision, candidate), k);
      }
    }
  }

  lemma {:induction false} AcceptEndsWell<U(!new)>(d: Device<U>, r: Request, g: Gen<Env<U>>, token: u32, k: nat)
    requires WholeRows(d) && Fits(r, d.capacity) && k < r.maxTokens
    requires OnTrack(g.env, |r.prompt|, |r.prompt| + k) && g.env.error == None
    ensures EndsWell(r, Accept(GpuHooks(d), r, g, token, k))
    decreases r.maxTokens - k, 0
  {
    var h := GpuHooks(d);
    if !IsTerminal(r, token) {
      var piece := h.decode(token);
      var g' := g.(ids := g.ids + [token], text := g.text + piece, pieces := g.pieces + [piece],
                   env := h.onToken(g.env, piece));
      assert Accept(h, r, g, token, k) == Continue(h, r, g', token, k);
      if k + 1 < r.maxTokens {
        var (env, _, logits) := h.forward(g'.env, [h.tokenValue(token)], |r.prompt| + k);
        ForwardOnTrack(d, g'.env, h.tokenValue(token), |r.prompt|, |r.prompt| + k);
        NextTokenEndsWell(d, r, g'.(env := env), logits, k + 1);
      }
    }
  }

  /** The environment a request starts in: a fresh lease told the prompt's length. */
  ghost predicate Begun<U>(env: Env<U>, prompt: seq<u32>, capacity: u64) {
    && |prompt| < TWO_TO_THE_64 && !env.refused && env.error == None
    && exists epoch: u64 :: (env.lease, Ok(())) == L.StartPrefill(capacity, L.NewLease(epoch), |prompt|)
  }

  /** Main result: an admitted request never asks the lease for a position it does not
      grant, in whatever order the fabric's facts are taken; and a run that ends
      without an error leaves the lease ready, so that finishing it succeeds. */
  lemma {:induction false} AdmittedRunsFinish<U(!new)>(
      d: Device<U>, r: Request, c: Config<Env<U>>, schedule: seq<Choice>)
    requires WholeRows(d) && |r.prompt| < TWO_TO_THE_32
    requires Admit(r.prompt, r.maxTokens, d.vocabulary, d.capacity).Ok? && r.maxTokens > 0
    requires BeforeRequest(c) && SeededFor(c.state, r) && Begun(c.state.env, r.prompt, d.capacity)
    requires Runs(GpuHooks(d), Absorb(c, PromptFacts(r.prompt)), schedule)
    requires Saturated(Run(GpuHooks(d), Absorb(c, PromptFacts(r.prompt)), schedule))
    ensures var end := Run(GpuHooks(d), Absorb(c, PromptFacts(r.prompt)), schedule).state;
            end.halt.Some? && EndsWell(r, OutcomeOf(end))
  {
    var h := GpuHooks(d);
    FabricRefinesLoop(h, r, c, schedule);
    PrefillOnTrack(d, c.state.env, r.prompt);
    var (env, _, logits) := h.prefill(c.state.env, Embed(h, r.prompt), |r.prompt|);
    NextTokenEndsWell(d, r, Gen(env, r.prompt, "", [], []), logits, 0);
  }

  lemma ReliableForward<U(!new)>(d: Device<U>, env: Env<U>, value: F32, prompt: nat, position: u64)
    requires Reliable(d) && WholeRows(d) && 0 < prompt <= position < d.capacity
    requires env.error == None && OnTrack(env, prompt, position)
    ensures var (env', _, logits) := GpuHooks(d).forward(env, [value], position);
            env'.error == None && OnTrack(env', prompt, position + 1) && logits != []
  {
    var x := d.dequant(d.tokenOf(value));
    Rows(1, d.dim);
    ForwardOnTrack(d, env, value, prompt, position);
    FrameExtends(d, env, x, 1, prompt, position);
    ReliableFrame(d, env, x, 1, prompt, position);
  }

  /** Which hook records which error, when none is recorded yet. */
  lemma ErrorsAreExact<U(!new)>(d: Device<U>, env: Env<U>, logits: seq<F32>, candidate: u32, text: string,
                                k: nat, ids: seq<u32>, kv: nat)
    requires env.error == None
    ensures GpuHooks(d).mask(env, logits).0.error ==
              if d.maskValid(d.mask(env.user, logits).1) then None else Some(InvalidMask)
    ensures GpuHooks(d).control(env, candidate, text, k, ids, kv).0.error ==
              match d.control(env.user, candidate, text, k, ids, kv).1
              case CForceToken(t) => if t < d.vocabulary then None else Some(InvalidControlToken)
              case CBlockAndTerminate(_) => Some(PolicyBlocked)
              case _ => None
    ensures forall logits', recent :: GpuHooks(d).sample(env, logits', recent).0.error == None
  {
  }

  /** The first error stays, whatever hook runs, and control then only blocks. */
  lemma FirstErrorStays<U(!new)>(d: Device<U>, env: Env<U>, x: seq<F32>, n: u32, value: F32, position: nat,
                                 logits: seq<F32>, recent: seq<u32>, candidate: u32, text: string, k: nat,
                                 ids: seq<u32>, kv: nat, piece: string)
    requires env.error.Some?
    ensures var h := GpuHooks(d);
            && h.mask(env, logits).0.error == env.error && h.sample(env, logits, recent).0.error == env.error
            && h.control(env, candidate, text, k, ids, kv).0 == env && h.control(env, candidate, text, k, ids, kv).1.Block?
            && h.onToken(env, piece).error == env.error
            && h.prefill(env, x, n).0.error == env.error && h.forward(env, [value], position).0.error == env.error
  {
    RunKeepsError(d, env, x, 0, d.chunkRows);
    if position < TWO_TO_THE_64 {
      RunKeepsError(d, env, d.dequant(d.tokenOf(value)), position, 1);
    }
  }

  lemma FrameKeepsError<U>(d: Device<U>, env: Env<U>, x: seq<F32>, position: u64)
    ensures Frame(d, env, x, position).0.error == env.error
  {
  }

  lemma {:induction false} ChunksKeepError<U>(d: Device<U>, env: Env<U>, x: seq<F32>, position: u64, chunk: nat)
    requires chunk > 0
    ensures Chunks(d, env, x, position, chunk).0.error == env.error
    decreases |x|
  {
    if |x| <= chunk {
      FrameKeepsError(d, env, x, position);
    } else {
      FrameKeepsError(d, env, x[..chunk], position);
      var (env', result) := Frame(d, env, x[..chunk], position);
      if result.Some? && d.dim > 0 && position + chunk / d.dim < TWO_TO_THE_64 {
        ChunksKeepError(d, env', x[chunk..], position + chunk / d.dim, chunk);
      }
    }
  }

  /** The machine run itself touches no error; what it returns decides. */
  lemma RunKeepsError<U>(d: Device<U>, env: Env<U>, x: seq<F32>, position: u64, chunkRows: u32)
    ensures RunModel(d, env, x, position, chunkRows).0.error == env.error
  {
    if d.dim > 0 && chunkRows > 0 {
      Positive(chunkRows, d.dim);
      ChunksKeepError(d, env, x, position, chunkRows * d.dim);
    }
  }

  /** A pass records an error exactly when it yields nothing usable. */
  lemma PassErrorsAreExact<U(!new)>(d: Device<U>, env: Env<U>, x: seq<F32>, position: u64, chunkRows: u32)
    requires env.error == None
    ensures var r := RunModel(d, env, x, position, chunkRows);
            Checked(d, r).0.error == if r.1.Some? && Usable(d, r.1.value.1) then None else Some(GpuError)
  {
    RunKeepsError(d, env, x, position, chunkRows);
  }

  /** Embeddings are only ever looked up for prompt ids, so in every run of an
      admitted request for ids of the vocabulary. */
  lemma {:induction false} LookupsStayInVocabulary<U(!new)>(
      d: Device<U>, r: Request, c: Config<Env<U>>, schedule: seq<Choice>)
    requires |r.prompt| < TWO_TO_THE_64 && Admit(r.prompt, r.maxTokens, d.vocabulary, d.capacity).Ok?
    requires BeforeRequest(c) && SeededFor(c.state, r)
    requires Runs(GpuHooks(d), Absorb(c, PromptFacts(r.prompt)), schedule)
    ensures forall t :: t in Run(GpuHooks(d), Absorb(c, PromptFacts(r.prompt)), schedule).state.dequantLog ==> t < d.vocabulary
  {
    DequantisedOnce(GpuHooks(d), r, c, schedule);
    var at := Run(GpuHooks(d), Absorb(c, PromptFacts(r.prompt)), schedule);
    forall t | t in at.state.dequantLog
      ensures t < d.vocabulary
    {
      assert t in Elements(at.state.dequantLog) && t in Elements(r.prompt);
      AdmitsExactly(r.prompt, r.maxTokens, d.vocabulary, d.capacity);
    }
  }

  /** Hooks that let every token through, and a sampler that never picks a terminal one. */
  ghost predicate NeverStops<U(!new)>(d: Device<U>, r: Request) {
    && Reliable(d)
    && (forall u, x :: d.maskValid(d.mask(u, x).1))
    && (forall u, t, text, k, ids, kv :: d.control(u, t, text, k, ids, kv).1 == CAllow)
    && (forall u, x, w :: !IsTerminal(r, d.sample(u, x, w).2))
  }

  /** The lease turns away a position beyond the capacity. */
  lemma {:induction false} ForwardBeyond<U(!new)>(d: Device<U>, env: Env<U>, value: F32)
    requires WholeRows(d) && d.dim > 0 && d.capacity + 1 < TWO_TO_THE_64
    ensures var (env', hidden, logits) := GpuHooks(d).forward(env, [value], d.capacity);
            env'.refused && logits == []
  {
    Rows(1, d.dim);
  }

  lemma {:induction false} RunsPastTheEnd<U(!new)>(d: Device<U>, r: Request, g: Gen<Env<U>>, logits: seq<F32>, k: nat)
    requires WholeRows(d) && NeverStops(d, r) && 0 < |r.prompt| && d.capacity + 1 < TWO_TO_THE_64
    requires |r.prompt| + k <= d.capacity < |r.prompt| + r.maxTokens - 1
    requires OnTrack(g.env, |r.prompt|, |r.prompt| + k) && g.env.error == None && logits != []
    ensures NextToken(GpuHooks(d), r, g, logits, k).env.refused
    decreases d.capacity - k, 1
  {
    var h := GpuHooks(d);
    var (env1, masked) := h.mask(g.env, logits);
    var traced := if k > 0 then g.traced + [(k, masked)] else g.traced;
    var (env2, _, token) := h.sample(env1, masked, Window(g.ids, |r.prompt|));
    var (env3, decision) := h.control(env2, token, g.text, k, g.ids, |r.prompt| + k);
    assert decision == Allow && env3.error == None && env3.lease == g.env.lease;
    var gated := g.(env := env3, traced := traced);
    assert NextToken(h, r, g, logits, k) == Accept(h, r, gated, token, k);
    AcceptsText(h, r, gated, token, k);
    ForwardPast(d, r, Recorded(h, gated, token), token, k);
  }

  lemma {:induction false} ForwardPast<U(!new)>(d: Device<U>, r: Request, g: Gen<Env<U>>, token: u32, k: nat)
    requires WholeRows(d) && NeverStops(d, r) && 0 < |r.prompt| && d.capacity + 1 < TWO_TO_THE_64
    requires |r.prompt| + k <= d.capacity < |r.prompt| + r.maxTokens - 1
    requires OnTrack(g.env, |r.prompt|, |r.prompt| + k) && g.env.error == None
    ensures Continue(GpuHooks(d), r, g, token, k).env.refused
    decreases d.capacity - k, 0
  {
    if |r.prompt| + k == d.capacity {
      ForwardBeyond(d, g.env, d.tokenValue(token));
      EmptyPassStops(GpuHooks(d), r, g, token, k);
    } else {
      ReliableForward(d, g.env, d.tokenValue(token), |r.prompt|, |r.prompt| + k);
      GoesOnPast(d, r, g, token, k, GpuHooks(d).forward(g.env, [d.tokenValue(token)], |r.prompt| + k));
    }
  }

  lemma EmptyPassStops<E>(h: Hooks<E>, r: Request, g: Gen<E>, token: u32, k: nat)
    requires k + 1 < r.maxTokens && h.forward(g.env, [h.tokenValue(token)], |r.prompt| + k).2 == []
    ensures Continue(h, r, g, token, k).env == h.forward(g.env, [h.tokenValue(token)], |r.prompt| + k).0
  {
  }

  lemma {:induction false} GoesOnPast<U(!new)>(
      d: Device<U>, r: Request, g: Gen<Env<U>>, token: u32, k: nat, pass: (Env<U>, seq<F32>, seq<F32>))
    requires WholeRows(d) && NeverStops(d, r) && 0 < |r.prompt| && d.capacity + 1 < TWO_TO_THE_64
    requires |r.prompt| + k < d.capacity < |r.prompt| + r.maxTokens - 1
    requires pass == GpuHooks(d).forward(g.env, [d.tokenValue(token)], |r.prompt| + k)
    requires OnTrack(pass.0, |r.prompt|, |r.prompt| + k + 1) && pass.0.error == None && pass.2 != []
    ensures Continue(GpuHooks(d), r, g, token, k).env.refused
    decreases d.capacity - k - 1, 2
  {
    ContinueForwards(GpuHooks(d), r, g, token, k);
    RunsPastTheEnd(d, r, g.(env := pass.0), pass.2, k + 1);
  }

  /** The admission check is no stricter than it must be: on a machine that never
      fails, with hooks that never stop, a request whose prompt fits but whose extent
      does not is turned away by the lease during its run. */
  lemma {:induction false} UnadmittedExtentIsRefused<U(!new)>(d: Device<U>, r: Request, env: Env<U>)
    requires WholeRows(d) && NeverStops(d, r) && |r.prompt| < TWO_TO_THE_32 && d.capacity + 1 < TWO_TO_THE_64
    requires Begun(env, r.prompt, d.capacity) && 0 < |r.prompt| <= d.capacity && r.maxTokens > 0
    requires Admit(r.prompt, r.maxTokens, d.vocabulary, d.capacity) == Err(ContextLengthExceeded)
    ensures Generate(GpuHooks(d), r, env).env.refused
  {
    var h := GpuHooks(d);
    var x := Embed(h, r.prompt);
    EmbedLength(d, r.prompt);
    Rows(|r.prompt|, d.dim);
    Positive(|r.prompt|, d.dim);
    Positive(d.chunkRows, d.dim);
    ChunksExtend(d, env, x, 0, d.chunkRows, d.chunkRows * d.dim, |r.prompt|);
    ChunksReliable(d, env, x, 0, d.chunkRows, d.chunkRows * d.dim, |r.prompt|);
    PrefillOnTrack(d, env, r.prompt);
    var (env', _, logits) := h.prefill(env, x, |r.prompt|);
    RunsPastTheEnd(d, r, Gen(env', r.prompt, "", [], []), logits, 0);
  }
}
