/** The KV increments in any order: each position is incremented once, and how a
    pending decode step can tell that all before it have been. */
module FabricKv {
  import opened Prelude
  import opened Facts
  import opened FabricRules
  import opened FabricRun
  import opened FabricBudget
  import opened SequentialLoop
  import opened FabricRefinement

  /** The KV position a control fact stands for. */
  function PositionOf(f: Fact): nat {
    if f.PrefillComplete? || f.DecodeStep? then f.position else 0
  }

  /** The advances derived so far are those below `below`, the ones processed have
      been logged, each once, and a control fact in flight stands at `below`. */
  ghost predicate KvAt<E>(r: Request, c: Config<E>, below: nat)
    requires |r.prompt| < TWO_TO_THE_32
  {
    && NoDuplicates(c.state.kvLog)
    && (forall p: nat :: KvAdvance(p) in c.done <==> p in c.state.kvLog)
    && (forall p: nat :: KvAdvance(p) in c.known <==> p < below)
    && (Batch(r) !in c.known ==> below == 0)
    && (forall f :: f in c.pending && IsControl(f) ==> PositionOf(f) == below)
    && (forall f :: f in c.pending && f.PrefillComplete? ==> f.position == |r.prompt|)
  }

  /** A step as far as the KV increments can tell: the advances its rule derives
      are those from `below` to `next`. */
  ghost predicate KvStep<E>(c: Config<E>, f: Fact, out: seq<Fact>, c': Config<E>, below: nat, next: nat) {
    && StoreStep(c, f, out, c') && below <= next
    && (forall p: nat :: KvAdvance(p) in out <==> below <= p < next)
    && c'.state.kvLog == if f.KvAdvance? then c.state.kvLog + [f.position] else c.state.kvLog
  }

  /** Logging a pending advance logs it for the first time. */
  lemma LogStep<E>(r: Request, c: Config<E>, f: Fact, out: seq<Fact>, c': Config<E>, below: nat, next: nat)
    requires |r.prompt| < TWO_TO_THE_32 && StoreAgrees(c) && KvAt(r, c, below) && KvStep(c, f, out, c', below, next)
    ensures NoDuplicates(c'.state.kvLog)
    ensures forall p: nat :: KvAdvance(p) in c'.done <==> p in c'.state.kvLog
    ensures forall p: nat :: KvAdvance(p) in c'.known <==> p < next
  {
    if f.KvAdvance? {
      assert f !in c.done && f.position !in c.state.kvLog;
      NoDuplicatesSnoc(c.state.kvLog, f.position);
    }
  }

  lemma {:induction false} SideRules<E>(h: Hooks<E>, s: State<E>, f: Fact, e: u32)
    requires !IsControl(f)
    ensures forall g :: g in Fire(h, s, f, e).1 ==> !g.KvAdvance?
    ensures Fire(h, s, f, e).0.kvLog == if f.KvAdvance? then s.kvLog + [f.position] else s.kvLog
  {
  }

  lemma {:induction false} SideKeepsKv<E>(h: Hooks<E>, r: Request, c: Config<E>, i: nat, e: u32, below: nat)
    requires |r.prompt| < TWO_TO_THE_32 && StoreAgrees(c) && Serves(c.state, r) && KvAt(r, c, below)
    requires i < |c.pending| && !IsControl(c.pending[i])
    ensures KvAt(r, Step(h, c, i, e), below)
  {
    var f, c' := c.pending[i], Step(h, c, i, e);
    var out := Fire(h, c.state, f, e).1;
    StepStore(h, c, i, e);
    SideRules(h, c.state, f, e);
    SideRulesDeriveNoControl(h, c.state, f, e);
    LogStep(r, c, f, out, c', below, below);
    forall g | g in c'.pending && IsControl(g)
      ensures PositionOf(g) == below && (g.PrefillComplete? ==> g.position == |r.prompt|)
    {
      assert g in c.pending || (g == Batch(r) && g !in c.known);
    }
  }

  /** The control fact taken, the facts its rule derives are all that can carry on. */
  lemma {:induction false} ControlKeepsKv<E>(
      r: Request, c: Config<E>, f: Fact, out: seq<Fact>, c': Config<E>, below: nat, next: nat)
    requires |r.prompt| < TWO_TO_THE_32 && StoreAgrees(c) && KvAt(r, c, below) && KvStep(c, f, out, c', below, next)
    requires Batch(r) in c.known && Controls(c.pending) == [f]
    requires forall g :: g in out && IsControl(g) ==>
               PositionOf(g) == next && (g.PrefillComplete? ==> g.position == |r.prompt|)
    ensures KvAt(r, c', next)
  {
    LogStep(r, c, f, out, c', below, next);
    ControlsAreMembers(c.pending);
    forall g | g in c'.pending && IsControl(g)
      ensures g in out
    {
      assert g in c.pending && g != f ==> g in Controls(c.pending);
    }
  }

  lemma {:induction false} PrefillObserved<E>(h: Hooks<E>, s: State<E>, n: u32, e: u32) returns (tail: seq<Fact>)
    ensures OnPrefillBatchReady(h, s, n, e).1 == KvAdvances(n) + [PrefillComplete(n)] + tail
    ensures forall g :: g in tail ==> !g.KvAdvance? && !IsControl(g)
  {
    var out := OnPrefillBatchReady(h, s, n, e).1;
    tail := out[n + 1..];
    assert out == KvAdvances(n) + [PrefillComplete(n)] + tail;
  }

  /** Prefill derives one advance for each position of the prompt. */
  lemma {:induction false} PrefillAdvances<E>(h: Hooks<E>, s: State<E>, n: u32, e: u32)
    ensures forall p: nat :: KvAdvance(p) in OnPrefillBatchReady(h, s, n, e).1 <==> p < n
    ensures OnPrefillBatchReady(h, s, n, e).0.kvLog == s.kvLog
  {
    var out := OnPrefillBatchReady(h, s, n, e).1;
    var tail := PrefillObserved(h, s, n, e);
    forall p: nat
      ensures KvAdvance(p) in out <==> p < n
    {
      if p < n {
        assert out[p] == KvAdvances(n)[p] == KvAdvance(p);
      }
      if KvAdvance(p) in out {
        assert KvAdvance(p) in KvAdvances(n);
      }
    }
  }

  lemma {:induction false} FirstDerives<E>(h: Hooks<E>, s: State<E>)
    ensures forall g :: g in OnPrefillComplete(h, s).1 ==>
              !g.KvAdvance? && (IsControl(g) ==> g.DecodeStep? && g.position == s.setup.promptLen)
    ensures OnPrefillComplete(h, s).0.kvLog == s.kvLog
  {
  }

  /** What a decode step derives: its end, or its own advance, the next step and
      observations. */
  lemma {:induction false} DecodeDerives<E>(h: Hooks<E>, s: State<E>, step: nat, t: u32, p: nat, e: u32)
    returns (token: u32, observed: seq<Fact>)
    ensures var out := OnDecodeStep(h, s, step, t, p, e).1;
            out == observed || out == [KvAdvance(p), DecodeStep(step + 1, token, p + 1)] + observed
    ensures forall g :: g in observed ==> !g.KvAdvance? && !IsControl(g)
    ensures OnDecodeStep(h, s, step, t, p, e).0.kvLog == s.kvLog
  {
    var out := OnDecodeStep(h, s, step, t, p, e).1;
    if |out| == 1 {
      token, observed := 0, out;
    } else {
      token, observed := out[1].tokenId, out[2..];
      assert out == out[..2] + observed;
    }
  }

  lemma {:induction false} BatchKeepsKv<E>(h: Hooks<E>, r: Request, env: E, c: Config<E>, i: nat, e: u32, below: nat)
    requires Inv(h, r, env, c) && KvAt(r, c, below) && i < |c.pending| && c.pending[i].PrefillBatchReady?
    ensures below == 0 && KvAt(r, Step(h, c, i, e), |r.prompt|)
  {
    var n, out := |r.prompt|, Fire(h, c.state, c.pending[i], e).1;
    TheControl(h, r, env, c, i);
    StepStore(h, c, i, e);
    PrefillAdvances(h, c.state, n, e);
    PrefillDerives(h, c.state, n, e);
    ControlKeepsKv(r, c, c.pending[i], out, Step(h, c, i, e), below, n);
  }

  lemma {:induction false} FirstKeepsKv<E>(h: Hooks<E>, r: Request, env: E, c: Config<E>, i: nat, e: u32, below: nat)
    requires Inv(h, r, env, c) && KvAt(r, c, below) && i < |c.pending| && c.pending[i].PrefillComplete?
    ensures below == |r.prompt| && KvAt(r, Step(h, c, i, e), below)
  {
    TheControl(h, r, env, c, i);
    StepStore(h, c, i, e);
    FirstDerives(h, c.state);
    assert c.pending[i] in c.pending;
    ControlKeepsKv(r, c, c.pending[i], Fire(h, c.state, c.pending[i], e).1, Step(h, c, i, e), below, below);
  }

  lemma {:induction false} DecodeEnds<E>(r: Request, c: Config<E>, f: Fact, out: seq<Fact>, c': Config<E>)
    requires |r.prompt| < TWO_TO_THE_32 && StoreAgrees(c) && f.DecodeStep? && KvAt(r, c, f.position)
    requires StoreStep(c, f, out, c') && Batch(r) in c.known && Controls(c.pending) == [f] && c'.state.kvLog == c.state.kvLog
    requires forall g :: g in out ==> !g.KvAdvance? && !IsControl(g)
    ensures KvAt(r, c', f.position)
  {
    ControlKeepsKv(r, c, f, out, c', f.position, f.position);
  }

  lemma {:induction false} DecodeGoesOn<E>(
      r: Request, c: Config<E>, f: Fact, token: u32, observed: seq<Fact>, c': Config<E>)
    requires |r.prompt| < TWO_TO_THE_32 && StoreAgrees(c) && f.DecodeStep? && KvAt(r, c, f.position)
    requires Batch(r) in c.known && Controls(c.pending) == [f] && c'.state.kvLog == c.state.kvLog
    requires StoreStep(c, f, [KvAdvance(f.position), DecodeStep(f.step + 1, token, f.position + 1)] + observed, c')
    requires forall g :: g in observed ==> !g.KvAdvance? && !IsControl(g)
    ensures KvAt(r, c', f.position + 1)
  {
    var out := [KvAdvance(f.position), DecodeStep(f.step + 1, token, f.position + 1)] + observed;
    assert out[0] == KvAdvance(f.position);
    ControlKeepsKv(r, c, f, out, c', f.position, f.position + 1);
  }

  lemma {:induction false} DecodeKeepsKv<E>(h: Hooks<E>, r: Request, env: E, c: Config<E>, i: nat, e: u32, below: nat)
    returns (next: nat)
    requires Inv(h, r, env, c) && KvAt(r, c, below) && i < |c.pending| && c.pending[i].DecodeStep?
    ensures KvAt(r, Step(h, c, i, e), next)
  {
    TheControl(h, r, env, c, i);
    assert c.pending[i].position == below by {
      assert c.pending[i] in c.pending;
    }
    next := DecodeTaken(h, r, c, i, e);
  }

  lemma {:induction false} DecodeTaken<E>(h: Hooks<E>, r: Request, c: Config<E>, i: nat, e: u32) returns (next: nat)
    requires |r.prompt| < TWO_TO_THE_32 && StoreAgrees(c) && Batch(r) in c.known
    requires i < |c.pending| && c.pending[i].DecodeStep? && Controls(c.pending) == [c.pending[i]]
    requires KvAt(r, c, c.pending[i].position)
    ensures KvAt(r, Step(h, c, i, e), next)
  {
    var f, c' := c.pending[i], Step(h, c, i, e);
    var out := Fire(h, c.state, f, e).1;
    StepStore(h, c, i, e);
    var token, observed := DecodeDerives(h, c.state, f.step, f.tokenId, f.position, e);
    next := DecodeFollows(r, c, f, token, observed, out, c');
  }

  lemma {:induction false} DecodeFollows<E>(
      r: Request, c: Config<E>, f: Fact, token: u32, observed: seq<Fact>, out: seq<Fact>, c': Config<E>)
    returns (next: nat)
    requires |r.prompt| < TWO_TO_THE_32 && StoreAgrees(c) && f.DecodeStep? && KvAt(r, c, f.position)
    requires StoreStep(c, f, out, c') && Batch(r) in c.known && Controls(c.pending) == [f] && c'.state.kvLog == c.state.kvLog
    requires out == observed || out == [KvAdvance(f.position), DecodeStep(f.step + 1, token, f.position + 1)] + observed
    requires forall g :: g in observed ==> !g.KvAdvance? && !IsControl(g)
    ensures KvAt(r, c', next)
  {
    if out == observed {
      DecodeEnds(r, c, f, out, c');
      next := f.position;
    } else {
      DecodeGoesOn(r, c, f, token, observed, c');
      next := f.position + 1;
    }
  }

  /** Every step, whatever fact is taken. */
  lemma {:induction false} StepKeepsKv<E>(h: Hooks<E>, r: Request, env: E, c: Config<E>, i: nat, e: u32, below: nat)
    returns (next: nat)
    requires Inv(h, r, env, c) && KvAt(r, c, below) && i < |c.pending|
    ensures KvAt(r, Step(h, c, i, e), next)
  {
    next := below;
    match c.pending[i]
    case PrefillBatchReady(_) =>
      BatchKeepsKv(h, r, env, c, i, e, below);
      next := |r.prompt|;
    case PrefillComplete(_) =>
      FirstKeepsKv(h, r, env, c, i, e, below);
    case DecodeStep(_, _, _) =>
      next := DecodeKeepsKv(h, r, env, c, i, e, below);
    case _ =>
      SideKeepsKv(h, r, c, i, e, below);
  }

  lemma {:induction false} RunKeepsKv<E>(h: Hooks<E>, r: Request, env: E, c: Config<E>, schedule: seq<Choice>, below: nat)
    returns (next: nat)
    requires Inv(h, r, env, c) && KvAt(r, c, below) && Runs(h, c, schedule)
    ensures Inv(h, r, env, Run(h, c, schedule)) && KvAt(r, Run(h, c, schedule), next)
    decreases |schedule|
  {
    next := below;
    if schedule != [] {
      var x := schedule[0];
      StepKeepsInv(h, r, env, c, x.index, x.elapsedMs);
      next := StepKeepsKv(h, r, env, c, x.index, x.elapsedMs, below);
      next := RunKeepsKv(h, r, env, Step(h, c, x.index, x.elapsedMs), schedule[1..], next);
    }
  }

  lemma {:induction false} StartsAtZero<E>(h: Hooks<E>, r: Request, c: Config<E>)
    requires BeforeRequest(c) && SeededFor(c.state, r)
    ensures Inv(h, r, c.state.env, Absorb(c, PromptFacts(r.prompt))) && KvAt(r, Absorb(c, PromptFacts(r.prompt)), 0)
  {
    StartsInInv(h, r, c);
    PromptAsserted(c, r.prompt);
  }

  lemma {:induction false} ReachedAt<E>(h: Hooks<E>, r: Request, c: Config<E>, schedule: seq<Choice>) returns (below: nat)
    requires BeforeRequest(c) && SeededFor(c.state, r) && Runs(h, Absorb(c, PromptFacts(r.prompt)), schedule)
    ensures var at := Run(h, Absorb(c, PromptFacts(r.prompt)), schedule);
            Inv(h, r, c.state.env, at) && KvAt(r, at, below)
  {
    StartsAtZero(h, r, c);
    below := RunKeepsKv(h, r, c.state.env, Absorb(c, PromptFacts(r.prompt)), schedule, 0);
  }

  /** Main result: wherever any schedule has got to, if a decode step is pending,
      exactly the positions below its own whose advance is no longer pending have
      been incremented, each once. So all of them have been if and only if no
      advance is pending. */
  lemma {:induction false} IncrementsInAnyOrder<E>(
      h: Hooks<E>, r: Request, c: Config<E>, schedule: seq<Choice>, f: Fact)
    requires BeforeRequest(c) && SeededFor(c.state, r) && Runs(h, Absorb(c, PromptFacts(r.prompt)), schedule)
    requires f.DecodeStep? && f in Run(h, Absorb(c, PromptFacts(r.prompt)), schedule).pending
    ensures var at := Run(h, Absorb(c, PromptFacts(r.prompt)), schedule);
            && NoDuplicates(at.state.kvLog)
            && (forall p: nat :: p in at.state.kvLog <==> p < f.position && KvAdvance(p) !in at.pending)
            && ((forall p: nat :: p < f.position ==> p in at.state.kvLog) <==>
                (forall g :: g in at.pending ==> !g.KvAdvance?))
  {
    var at := Run(h, Absorb(c, PromptFacts(r.prompt)), schedule);
    var below := ReachedAt(h, r, c, schedule);
    assert PositionOf(f) == below;
    forall p: nat
      ensures p in at.state.kvLog <==> p < f.position && KvAdvance(p) !in at.pending
    {
      assert KvAdvance(p) in Elements(at.pending) <==> KvAdvance(p) in at.pending;
    }
    forall g | g in at.pending && g.KvAdvance?
      ensures g.position < f.position && g.position !in at.state.kvLog
    {
      assert g in Elements(at.pending) && g in at.known && g == KvAdvance(g.position);
    }
  }

  // --- The streamed text tells how far the increments go ------------------

  /** How far the advances of a prefilled request go: past its prompt, and past
      every streamed token but the last. */
  function Reach(r: Request, pieces: seq<string>): nat {
    |r.prompt| + if pieces == [] then 0 else |pieces| - 1
  }

  /** The advances known are those within the reach, and a control fact in flight
      knows how many tokens have been streamed. */
  ghost predicate PiecesTell<E>(r: Request, c: Config<E>)
    requires |r.prompt| < TWO_TO_THE_32
  {
    && AdvancesUpTo(c, if Batch(r) in c.done then Reach(r, c.state.pieces) else 0)
    && forall f :: f in c.pending && IsControl(f) ==> InStep(r, f, |c.state.pieces|)
  }

  ghost predicate AdvancesUpTo<E>(c: Config<E>, below: nat) {
    forall p: nat :: KvAdvance(p) in c.known <==> p < below
  }

  /** A control fact that goes with `n` streamed tokens. */
  predicate InStep(r: Request, f: Fact, n: nat) {
    match f
    case DecodeStep(step, _, position) => n == step + 1 && position == |r.prompt| + step
    case _ => n == 0
  }

  /** A control fact other than the batch is pending only once the batch is done. */
  lemma {:induction false} BatchTaken<E>(h: Hooks<E>, r: Request, env: E, c: Config<E>, i: nat)
    requires Inv(h, r, env, c) && i < |c.pending| && IsControl(c.pending[i])
    ensures !c.pending[i].PrefillBatchReady? <==> Batch(r) in c.done
  {
    TheControl(h, r, env, c, i);
    ControlsAreMembers(c.pending);
    assert Batch(r) in c.pending ==> Batch(r) in Controls(c.pending);
    assert c.pending[i] in Elements(c.pending);
  }

  /** The step of a rule outside the thread of control. */
  lemma {:induction false} SideTells<E>(h: Hooks<E>, r: Request, c: Config<E>, i: nat, e: u32)
    requires |r.prompt| < TWO_TO_THE_32 && StoreAgrees(c) && Serves(c.state, r) && PiecesTell(r, c)
    requires i < |c.pending| && !IsControl(c.pending[i])
    requires Batch(r) !in c.known ==> c.state.pieces == []
    ensures PiecesTell(r, Step(h, c, i, e))
  {
    var f := c.pending[i];
    StepStore(h, c, i, e);
    SideRules(h, c.state, f, e);
    SideRulesDeriveNoControl(h, c.state, f, e);
    SideRulesKeepGeneration(h, c.state, f, e);
  }

  /** The step of a rule that carries the generation, as the advances, the control
      facts and the streamed text see it. */
  lemma {:induction false} ControlTells<E>(
      r: Request, c: Config<E>, f: Fact, out: seq<Fact>, c': Config<E>, below: nat)
    requires |r.prompt| < TWO_TO_THE_32 && PiecesTell(r, c) && StoreStep(c, f, out, c')
    requires Controls(c.pending) == [f] && Batch(r) in c'.done
    requires below == if Batch(r) in c.done then Reach(r, c.state.pieces) else 0
    requires below <= Reach(r, c'.state.pieces)
    requires forall p: nat :: KvAdvance(p) in out <==> below <= p < Reach(r, c'.state.pieces)
    requires forall g :: g in out && IsControl(g) ==> InStep(r, g, |c'.state.pieces|)
    ensures PiecesTell(r, c')
  {
    ControlsAreMembers(c.pending);
    forall g | g in c'.pending && IsControl(g)
      ensures g in out
    {
      assert g in c.pending && g != f ==> g in Controls(c.pending);
    }
  }

  lemma {:induction false} BatchTells<E>(h: Hooks<E>, r: Request, env: E, c: Config<E>, i: nat, e: u32)
    requires Inv(h, r, env, c) && PiecesTell(r, c) && i < |c.pending| && c.pending[i].PrefillBatchReady?
    ensures PiecesTell(r, Step(h, c, i, e))
  {
    var out := Fire(h, c.state, c.pending[i], e).1;
    TheControl(h, r, env, c, i);
    BatchTaken(h, r, env, c, i);
    StepStore(h, c, i, e);
    PrefillAdvances(h, c.state, |r.prompt|, e);
    PrefillDerives(h, c.state, |r.prompt|, e);
    ControlTells(r, c, c.pending[i], out, Step(h, c, i, e), 0);
  }

  /** The first token is streamed with the first decode step, if there is one. */
  lemma {:induction false} FirstOut<E>(h: Hooks<E>, r: Request, s: State<E>)
    requires |r.prompt| < TWO_TO_THE_32 && Serves(s, r) && s.pieces == []
    ensures var (s', out) := OnPrefillComplete(h, s);
            && Reach(r, s'.pieces) == |r.prompt|
            && forall g :: g in out ==> !g.KvAdvance? && (IsControl(g) ==> InStep(r, g, |s'.pieces|))
  {
    var (s', out) := OnPrefillComplete(h, s);
    FirstDerives(h, s);
    assert |s'.pieces| <= 1 && |out| == 1;
    assert out[0].DecodeStep? ==> out[0].step == 0 && |s'.pieces| == 1;
  }

  lemma {:induction false} FirstTells<E>(h: Hooks<E>, r: Request, env: E, c: Config<E>, i: nat, e: u32)
    requires Inv(h, r, env, c) && PiecesTell(r, c) && i < |c.pending| && c.pending[i].PrefillComplete?
    ensures PiecesTell(r, Step(h, c, i, e))
  {
    TheControl(h, r, env, c, i);
    BatchTaken(h, r, env, c, i);
    StepStore(h, c, i, e);
    FirstIsInStep(r, c, c.pending[i]);
    FirstOut(h, r, c.state);
    ControlTells(r, c, c.pending[i], Fire(h, c.state, c.pending[i], e).1, Step(h, c, i, e), |r.prompt|);
  }

  lemma FirstIsInStep<E>(r: Request, c: Config<E>, f: Fact)
    requires |r.prompt| < TWO_TO_THE_32 && PiecesTell(r, c) && f in c.pending && f.PrefillComplete?
    ensures c.state.pieces == []
  {
  }

  /** A decode step that goes on streams one token. */
  lemma {:induction false} DecodePieces<E>(h: Hooks<E>, s: State<E>, step: nat, t: u32, p: nat, e: u32)
    ensures var (s', out) := OnDecodeStep(h, s, step, t, p, e);
            if |out| == 1 then s'.pieces == s.pieces && !out[0].KvAdvance? && !IsControl(out[0])
            else |s'.pieces| == |s.pieces| + 1
  {
  }

  lemma {:induction false} DecodeTells<E>(h: Hooks<E>, r: Request, env: E, c: Config<E>, i: nat, e: u32)
    requires Inv(h, r, env, c) && PiecesTell(r, c) && i < |c.pending| && c.pending[i].DecodeStep?
    ensures PiecesTell(r, Step(h, c, i, e))
  {
    var f, c' := c.pending[i], Step(h, c, i, e);
    var out := Fire(h, c.state, f, e).1;
    TheControl(h, r, env, c, i);
    BatchTaken(h, r, env, c, i);
    StepStore(h, c, i, e);
    DecodePieces(h, c.state, f.step, f.tokenId, f.position, e);
    assert InStep(r, f, |c.state.pieces|) by {
      assert f in c.pending;
    }
    DecodeOut(r, h, c.state, f, e);
    ControlTells(r, c, f, out, c', f.position);
  }

  /** What a decode step derives against what it streams. */
  lemma {:induction false} DecodeOut<E>(r: Request, h: Hooks<E>, s: State<E>, f: Fact, e: u32)
    requires f.DecodeStep? && InStep(r, f, |s.pieces|)
    ensures var (s', out) := Fire(h, s, f, e);
            && f.position <= Reach(r, s'.pieces)
            && (forall p: nat :: KvAdvance(p) in out <==> f.position <= p < Reach(r, s'.pieces))
            && (forall g :: g in out && IsControl(g) ==> InStep(r, g, |s'.pieces|))
  {
    var (s', out) := Fire(h, s, f, e);
    DecodePieces(h, s, f.step, f.tokenId, f.position, e);
    var token, observed := DecodeDerives(h, s, f.step, f.tokenId, f.position, e);
    if |out| != 1 {
      assert out[0] == KvAdvance(f.position);
    }
  }

  lemma {:induction false} StepTells<E>(h: Hooks<E>, r: Request, env: E, c: Config<E>, i: nat, e: u32)
    requires Inv(h, r, env, c) && PiecesTell(r, c) && i < |c.pending|
    ensures PiecesTell(r, Step(h, c, i, e))
  {
    match c.pending[i]
    case PrefillBatchReady(_) => BatchTells(h, r, env, c, i, e);
    case PrefillComplete(_) => FirstTells(h, r, env, c, i, e);
    case DecodeStep(_, _, _) => DecodeTells(h, r, env, c, i, e);
    case _ => SideTells(h, r, c, i, e);
  }

  lemma {:induction false} RunTells<E>(h: Hooks<E>, r: Request, env: E, c: Config<E>, schedule: seq<Choice>)
    requires Inv(h, r, env, c) && PiecesTell(r, c) && Runs(h, c, schedule)
    ensures PiecesTell(r, Run(h, c, schedule))
    decreases |schedule|
  {
    if schedule != [] {
      var x := schedule[0];
      StepKeepsInv(h, r, env, c, x.index, x.elapsedMs);
      StepTells(h, r, env, c, x.index, x.elapsedMs);
      RunTells(h, r, env, Step(h, c, x.index, x.elapsedMs), schedule[1..]);
    }
  }

  lemma {:induction false} ReachedTells<E>(h: Hooks<E>, r: Request, c: Config<E>, schedule: seq<Choice>)
    requires BeforeRequest(c) && SeededFor(c.state, r) && Runs(h, Absorb(c, PromptFacts(r.prompt)), schedule)
    ensures PiecesTell(r, Run(h, Absorb(c, PromptFacts(r.prompt)), schedule))
  {
    StartsAtZero(h, r, c);
    PromptAsserted(c, r.prompt);
    RunTells(h, r, c.state.env, Absorb(c, PromptFacts(r.prompt)), schedule);
  }

  /** At saturation the log holds what has been derived. */
  lemma {:induction false} LogIsReach<E>(h: Hooks<E>, r: Request, env: E, c: Config<E>, below: nat)
    requires Inv(h, r, env, c) && KvAt(r, c, below) && PiecesTell(r, c) && Saturated(c)
    ensures forall p: nat :: p in c.state.kvLog <==> p < if r.prompt == [] then 0 else Reach(r, c.state.pieces)
  {
    assert c.known == c.done;
  }

  /** Main result: at saturation, in any order, every position of the prompt and of
      every streamed token but the last has been incremented, once, and no other;
      the text streamed is the sequential loop's. An empty prompt increments none. */
  lemma {:induction false} IncrementsAreComplete<E>(h: Hooks<E>, r: Request, c: Config<E>, schedule: seq<Choice>)
    requires BeforeRequest(c) && SeededFor(c.state, r) && Runs(h, Absorb(c, PromptFacts(r.prompt)), schedule)
    requires Saturated(Run(h, Absorb(c, PromptFacts(r.prompt)), schedule))
    ensures var log := Run(h, Absorb(c, PromptFacts(r.prompt)), schedule).state.kvLog;
            && NoDuplicates(log)
            && forall p: nat :: p in log <==>
                 p < if r.prompt == [] then 0 else Reach(r, Generate(h, r, c.state.env).pieces)
  {
    var at := Run(h, Absorb(c, PromptFacts(r.prompt)), schedule);
    var below := ReachedAt(h, r, c, schedule);
    ReachedTells(h, r, c, schedule);
    LogIsReach(h, r, c.state.env, at, below);
    FabricRefinesLoop(h, r, c, schedule);
  }
}
