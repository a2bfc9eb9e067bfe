/** What the fabric reports of its forward passes, against what the passes gave. */
module FabricObserved {
  import opened Prelude
  import opened Facts
  import opened FabricRules
  import opened FabricRun
  import opened FabricBudget
  import opened SequentialLoop
  import opened FabricRefinement

  function LayerReport<E>(h: Hooks<E>, position: nat, hidden: seq<F32>): Fact {
    LayerOutput(0, position, h.rmsBits(hidden), h.checksum(hidden))
  }

  function LogitsReport<E>(h: Hooks<E>, position: nat, logits: seq<F32>): Fact {
    FinalLogits(position, h.rmsBits(logits), h.checksum(logits))
  }

  /** The report of the masked logits that token number `k > 0` was sampled from. */
  ghost predicate FromTrace<E>(h: Hooks<E>, promptLen: nat, traced: seq<(nat, seq<F32>)>, f: Fact) {
    exists j :: 0 <= j < |traced| && traced[j].0 > 0 && f == LogitsReport(h, promptLen + traced[j].0 - 1, traced[j].1)
  }

  /** Reports are of the one prefill, once it is done, and of traced decode steps. */
  ghost predicate Observed<E>(h: Hooks<E>, r: Request, env: E, c: Config<E>)
    requires |r.prompt| < TWO_TO_THE_32
  {
    var n, done := |r.prompt|, Batch(r) in c.done;
    var (_, hidden, logits) := h.prefill(env, Embed(h, r.prompt), n);
    && (done ==> LayerReport(h, n, hidden) in c.known && LogitsReport(h, n, logits) in c.known)
    && (forall f :: f in c.known && f.LayerOutput? ==> done && f == LayerReport(h, n, hidden))
    && (forall f :: f in c.known && f.FinalLogits? ==>
          done && (f == LogitsReport(h, n, logits) || FromTrace(h, n, c.state.traced, f)))
  }

  predicate IsReport(f: Fact) {
    f.LayerOutput? || f.FinalLogits?
  }

  lemma {:induction false} OthersReportNothing<E>(h: Hooks<E>, s: State<E>, f: Fact, e: u32)
    requires !f.PrefillBatchReady? && !f.DecodeStep?
    ensures forall g :: g in Fire(h, s, f, e).1 ==> !IsReport(g)
    ensures Fire(h, s, f, e).0.traced == s.traced
  {
  }

  lemma {:induction false} PrefillReports<E>(h: Hooks<E>, s: State<E>, n: u32, e: u32)
    ensures var (s', out) := OnPrefillBatchReady(h, s, n, e);
            var (_, hidden, logits) := h.prefill(s.env, BatchedEmbeddings(s), n);
            && LayerReport(h, n, hidden) in out && LogitsReport(h, n, logits) in out && s'.traced == s.traced
            && forall g :: g in out && IsReport(g) ==> g == LayerReport(h, n, hidden) || g == LogitsReport(h, n, logits)
  {
    var out := OnPrefillBatchReady(h, s, n, e).1;
    var (_, hidden, logits) := h.prefill(s.env, BatchedEmbeddings(s), n);
    assert out[n + 1] == LayerReport(h, n, hidden) && out[n + 2] == LogitsReport(h, n, logits);
    forall j | 0 <= j < |out|
      ensures IsReport(out[j]) ==> out[j] == LayerReport(h, n, hidden) || out[j] == LogitsReport(h, n, logits)
    {
      if j < n {
        assert out[j] == KvAdvances(n)[j];
      }
    }
  }

  /** A decode step that reports has traced the logits it reports. */
  lemma {:induction false} DecodeReports<E>(h: Hooks<E>, s: State<E>, step: nat, t: u32, p: nat, e: u32)
    ensures var (s', out) := OnDecodeStep(h, s, step, t, p, e);
            && s.traced <= s'.traced
            && forall g :: g in out && IsReport(g) ==>
                 s'.traced != [] && s'.traced[|s'.traced| - 1].0 == Generated(s)
                 && g == LogitsReport(h, p, s'.traced[|s'.traced| - 1].1)
  {
  }

  lemma {:induction false} TraceGrows<E>(h: Hooks<E>, n: nat, before: seq<(nat, seq<F32>)>, after: seq<(nat, seq<F32>)>, f: Fact)
    requires before <= after && FromTrace(h, n, before, f)
    ensures FromTrace(h, n, after, f)
  {
    var j :| 0 <= j < |before| && before[j].0 > 0 && f == LogitsReport(h, n + before[j].0 - 1, before[j].1);
    assert after[j] == before[j];
  }

  lemma {:induction false} QuietStep<E>(h: Hooks<E>, r: Request, env: E, c: Config<E>, f: Fact, out: seq<Fact>, c': Config<E>)
    requires |r.prompt| < TWO_TO_THE_32 && Observed(h, r, env, c) && StoreStep(c, f, out, c') && f != Batch(r)
    requires c.state.traced <= c'.state.traced
    requires forall g :: g in out && IsReport(g) ==>
      Batch(r) in c.done && !g.LayerOutput? && FromTrace(h, |r.prompt|, c'.state.traced, g)
    ensures Observed(h, r, env, c')
  {
    forall g | g in c'.known && g.FinalLogits? && FromTrace(h, |r.prompt|, c.state.traced, g)
      ensures FromTrace(h, |r.prompt|, c'.state.traced, g)
    {
      TraceGrows(h, |r.prompt|, c.state.traced, c'.state.traced, g);
    }
  }

  lemma {:induction false} BatchStep<E>(h: Hooks<E>, r: Request, env: E, c: Config<E>, i: nat, e: u32)
    requires Inv(h, r, env, c) && Observed(h, r, env, c) && i < |c.pending| && c.pending[i].PrefillBatchReady?
    ensures Observed(h, r, env, Step(h, c, i, e))
  {
    TheControl(h, r, env, c, i);
    StepStore(h, c, i, e);
    PrefillReports(h, c.state, |r.prompt|, e);
    BatchIsPrompt(h, r, c.state);
  }

  lemma {:induction false} BatchIsPrompt<E>(h: Hooks<E>, r: Request, s: State<E>)
    requires s.setup.promptTokenIds == r.prompt && r.prompt != []
    requires forall t :: t in r.prompt ==> t in s.embeddingCache && s.embeddingCache[t] == h.dequant(t, h.dim)
    ensures BatchedEmbeddings(s) == Embed(h, r.prompt)
  {
    BatchIsEmbed(h, s.embeddingCache, r.prompt);
    assert r.prompt[0] in s.embeddingCache;
  }

  lemma {:induction false} DecodeStepped<E>(h: Hooks<E>, r: Request, env: E, c: Config<E>, i: nat, e: u32)
    requires Inv(h, r, env, c) && Observed(h, r, env, c) && i < |c.pending| && c.pending[i].DecodeStep?
    ensures Observed(h, r, env, Step(h, c, i, e))
  {
    TheControl(h, r, env, c, i);
    DecodeFollowsBatch(r, c, i);
    StepStore(h, c, i, e);
    DecodeTraces(h, r, c.state, c.pending[i], e);
    QuietStep(h, r, env, c, c.pending[i], Fire(h, c.state, c.pending[i], e).1, Step(h, c, i, e));
  }

  lemma {:induction false} DecodeTraces<E>(h: Hooks<E>, r: Request, s: State<E>, f: Fact, e: u32)
    requires f.DecodeStep? && s.setup.promptLen == |r.prompt|
    requires f.position == |r.prompt| + f.step && |s.ids| == |r.prompt| + f.step + 1
    ensures var (s', out) := Fire(h, s, f, e);
            && s.traced <= s'.traced
            && forall g :: g in out && IsReport(g) ==> !g.LayerOutput? && FromTrace(h, |r.prompt|, s'.traced, g)
  {
    var (s', out) := Fire(h, s, f, e);
    DecodeReports(h, s, f.step, f.tokenId, f.position, e);
    forall g | g in out && IsReport(g)
      ensures !g.LayerOutput? && FromTrace(h, |r.prompt|, s'.traced, g)
    {
      var last := |s'.traced| - 1;
      assert s'.traced[last].0 == f.step + 1 && g == LogitsReport(h, |r.prompt| + s'.traced[last].0 - 1, s'.traced[last].1);
    }
  }

  /** With a decode step in flight the batch has been taken. */
  lemma {:induction false} DecodeFollowsBatch<E>(r: Request, c: Config<E>, i: nat)
    requires |r.prompt| < TWO_TO_THE_32 && StoreAgrees(c) && Batch(r) in c.known
    requires i < |c.pending| && c.pending[i].DecodeStep? && Controls(c.pending) == [c.pending[i]]
    ensures Batch(r) in c.done
  {
    var batch := Batch(r);
    ControlsAreMembers(c.pending);
    assert batch in c.pending ==> batch in Controls(c.pending);
  }

  lemma {:induction false} StepObserves<E>(h: Hooks<E>, r: Request, env: E, c: Config<E>, i: nat, e: u32)
    requires Inv(h, r, env, c) && Observed(h, r, env, c) && i < |c.pending|
    ensures Observed(h, r, env, Step(h, c, i, e))
  {
    if c.pending[i].PrefillBatchReady? {
      BatchStep(h, r, env, c, i, e);
    } else if c.pending[i].DecodeStep? {
      DecodeStepped(h, r, env, c, i, e);
    } else {
      StepStore(h, c, i, e);
      OthersReportNothing(h, c.state, c.pending[i], e);
      QuietStep(h, r, env, c, c.pending[i], Fire(h, c.state, c.pending[i], e).1, Step(h, c, i, e));
    }
  }

  lemma {:induction false} RunObserves<E>(h: Hooks<E>, r: Request, env: E, c: Config<E>, schedule: seq<Choice>)
    requires Inv(h, r, env, c) && Observed(h, r, env, c) && Runs(h, c, schedule)
    ensures Observed(h, r, env, Run(h, c, schedule))
    decreases |schedule|
  {
    if schedule != [] {
      StepKeepsInv(h, r, env, c, schedule[0].index, schedule[0].elapsedMs);
      StepObserves(h, r, env, c, schedule[0].index, schedule[0].elapsedMs);
      RunObserves(h, r, env, Step(h, c, schedule[0].index, schedule[0].elapsedMs), schedule[1..]);
    }
  }

  /** Main result: in every order and at every moment, the layer report is that of
      the loop's own prefill, once it is done, and every logits report is that of
      the prefill or of the masked logits traced for its position. */
  lemma {:induction false} ReportsAreTrue<E>(h: Hooks<E>, r: Request, c: Config<E>, schedule: seq<Choice>)
    requires BeforeRequest(c) && SeededFor(c.state, r)
    requires Runs(h, Absorb(c, PromptFacts(r.prompt)), schedule)
    ensures Observed(h, r, c.state.env, Run(h, Absorb(c, PromptFacts(r.prompt)), schedule))
  {
    StartsInInv(h, r, c);
    PromptAsserted(c, r.prompt);
    RunObserves(h, r, c.state.env, Absorb(c, PromptFacts(r.prompt)), schedule);
  }
}
