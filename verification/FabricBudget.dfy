/** The work bound of a request, and why no run can exceed it: every pending fact
    carries the number of facts it can still cause to be processed, and every
    step spends at least one. */
module FabricBudget {
  import opened Prelude
  import opened Facts
  import opened FabricRules
  import opened FabricRun

  datatype RunError = BudgetOverflow | BudgetExhausted | MissingTerminalReason

  /** The bound, in checked 64-bit arithmetic and then cut to 32 bits. */
  function RequestRunBudget(promptTokens: u64, maxTokens: u64, existingFacts: u64): Result<u32, RunError> {
    match CheckedMul(promptTokens, 6)
    case None => Err(BudgetOverflow)
    case Some(p) =>
      match CheckedMul(maxTokens, 16)
      case None => Err(BudgetOverflow)
      case Some(g) =>
        match CheckedAdd(p, g)
        case None => Err(BudgetOverflow)
        case Some(pg) =>
          match CheckedMul(existingFacts, 2)
          case None => Err(BudgetOverflow)
          case Some(t) =>
            match CheckedAdd(pg, t)
            case None => Err(BudgetOverflow)
            case Some(pgt) =>
              match CheckedAdd(pgt, 64)
              case None => Err(BudgetOverflow)
              case Some(work) => if work < TWO_TO_THE_32 then Ok(work) else Err(BudgetOverflow)
  }

  /** No intermediate overflow rejects a bound that fits 32 bits. */
  lemma BudgetIsExact(promptTokens: u64, maxTokens: u64, existingFacts: u64)
    ensures var work := 6 * promptTokens + 16 * maxTokens + 2 * existingFacts + 64;
            RequestRunBudget(promptTokens, maxTokens, existingFacts) ==
              if work < TWO_TO_THE_32 then Ok(work) else Err(BudgetOverflow)
  {
  }

  /** Facts a pending `DecodeStep` can still cause to be processed. */
  function DecodeWeight(step: nat, maxTokens: nat): nat {
    if step + 1 >= maxTokens then 2 else 2 + 7 * (maxTokens - 1 - step)
  }

  /** Facts that processing `f`, and everything derived from it, accounts for.
      The batch an `EmbeddingReady` derives is not charged to it: it is derived
      once, however many of them derive it. */
  function Weight(f: Fact, maxTokens: nat): nat {
    match f
    case PromptToken(_, _) => 3
    case EmbeddingRequest(_) => 2
    case PrefillBatchReady(n) => 2 * n + 7 + DecodeWeight(0, maxTokens)
    case PrefillComplete(_) => 1 + DecodeWeight(0, maxTokens)
    case DecodeStep(step, _, _) => DecodeWeight(step, maxTokens)
    case KvAdvance(_) => 2
    case DispatchCompleted(_, _, _) => 3
    case TdrRiskHigh(_) => 2
    case TensorFact(_, _, _, _) => 2
    case _ => 1
  }

  function Load(facts: seq<Fact>, maxTokens: nat): nat {
    if facts == [] then 0 else Weight(facts[0], maxTokens) + Load(facts[1..], maxTokens)
  }

  /** The work still ahead: what is pending, and the batch if it is still to come. */
  function Ahead<E>(c: Config<E>): nat {
    Load(c.pending, c.state.setup.maxTokens) +
    if PrefillBatchReady(c.state.setup.promptLen) in c.known then 0
    else Weight(PrefillBatchReady(c.state.setup.promptLen), c.state.setup.maxTokens)
  }

  lemma {:induction false} LoadConcat(a: seq<Fact>, b: seq<Fact>, maxTokens: nat)
    ensures Load(a + b, maxTokens) == Load(a, maxTokens) + Load(b, maxTokens)
  {
    if a == [] {
      assert a + b == b;
    } else {
      LoadConcat(a[1..], b, maxTokens);
      assert (a + b)[1..] == a[1..] + b;
    }
  }

  lemma {:induction false} LoadCoversLength(a: seq<Fact>, maxTokens: nat)
    ensures |a| <= Load(a, maxTokens)
  {
    if a != [] {
      LoadCoversLength(a[1..], maxTokens);
    }
  }

  lemma TimesSuccessor(a: nat, n: nat)
    ensures a * (n + 1) == a * n + a
  {
  }

  lemma {:induction false} LoadBounded(a: seq<Fact>, maxTokens: nat, bound: nat)
    requires forall f :: f in a ==> Weight(f, maxTokens) <= bound
    ensures Load(a, maxTokens) <= bound * |a|
  {
    if a != [] {
      assert a[0] in a && forall f :: f in a[1..] ==> f in a;
      LoadBounded(a[1..], maxTokens, bound);
      TimesSuccessor(bound, |a[1..]|);
    }
  }

  lemma {:induction false} LoadWithout(p: seq<Fact>, i: nat, maxTokens: nat)
    requires i < |p|
    ensures Load(p[..i] + p[i + 1..], maxTokens) + Weight(p[i], maxTokens) == Load(p, maxTokens)
  {
    var before, at, after := p[..i], [p[i]], p[i + 1..];
    assert p == before + (at + after);
    LoadConcat(before, at + after, maxTokens);
    LoadConcat(at, after, maxTokens);
    LoadConcat(before, after, maxTokens);
    assert Load(at, maxTokens) == Weight(p[i], maxTokens) by {
      assert Load(at[1..], maxTokens) == 0;
    }
  }

  lemma {:induction false} FreshIsNoHeavier(out: seq<Fact>, known: set<Fact>, maxTokens: nat)
    ensures Load(Fresh(out, known), maxTokens) <= Load(out, maxTokens)
  {
    if out != [] {
      if out[0] in known {
        FreshIsNoHeavier(out[1..], known, maxTokens);
      } else {
        FreshIsNoHeavier(out[1..], known + {out[0]}, maxTokens);
        assert Fresh(out, known)[1..] == Fresh(out[1..], known + {out[0]});
      }
    }
  }

  lemma {:induction false} LoadFour(out: seq<Fact>, m: nat)
    requires |out| == 4
    ensures Load(out, m) == Weight(out[0], m) + Weight(out[1], m) + Weight(out[2], m) + Weight(out[3], m)
  {
    assert out == [out[0]] + ([out[1]] + ([out[2]] + [out[3]]));
    LoadConcat([out[0]], [out[1]] + ([out[2]] + [out[3]]), m);
    LoadConcat([out[1]], [out[2]] + [out[3]], m);
    LoadConcat([out[2]], [out[3]], m);
    assert forall x: Fact :: Load([x], m) == Weight(x, m) by {
      assert forall x: Fact :: [x][1..] == [];
    }
  }

  lemma {:induction false} PrefillWeights<E>(h: Hooks<E>, s: State<E>, n: u32, elapsedMs: u32)
    ensures Load(OnPrefillBatchReady(h, s, n, elapsedMs).1, s.setup.maxTokens) + 1 <= Weight(PrefillBatchReady(n), s.setup.maxTokens)
  {
    var out := OnPrefillBatchReady(h, s, n, elapsedMs).1;
    var advances, tail := KvAdvances(n), out[n..];
    assert out == advances + tail;
    LoadConcat(advances, tail, s.setup.maxTokens);
    LoadBounded(advances, s.setup.maxTokens, 2);
    LoadFour(tail, s.setup.maxTokens);
  }

  lemma {:induction false} DecodeWeights<E>(h: Hooks<E>, s: State<E>, step: nat, t: u32, p: nat, elapsedMs: u32)
    ensures Load(OnDecodeStep(h, s, step, t, p, elapsedMs).1, s.setup.maxTokens) + 1 <= Weight(DecodeStep(step, t, p), s.setup.maxTokens)
  {
    var out := OnDecodeStep(h, s, step, t, p, elapsedMs).1;
    if |out| == 4 {
      LoadFour(out, s.setup.maxTokens);
    } else {
      LoadOne(out, s.setup.maxTokens);
    }
  }

  lemma {:induction false} LoadOne(out: seq<Fact>, m: nat)
    requires |out| == 1
    ensures Load(out, m) == Weight(out[0], m)
  {
    assert out[1..] == [];
  }

  /** What a rule derives weighs less than the fact it fired on, except that an
      `EmbeddingReady` may derive the batch. */
  lemma {:induction false} RuleWeights<E>(h: Hooks<E>, s: State<E>, f: Fact, elapsedMs: u32)
    ensures var out := Fire(h, s, f, elapsedMs).1;
            if f.EmbeddingReady? then out == [] || out == [PrefillBatchReady(s.setup.promptLen)]
            else Load(out, s.setup.maxTokens) + 1 <= Weight(f, s.setup.maxTokens)
  {
    var out := Fire(h, s, f, elapsedMs).1;
    match f
    case PrefillBatchReady(n) => PrefillWeights(h, s, n, elapsedMs);
    case DecodeStep(step, t, p) => DecodeWeights(h, s, step, t, p, elapsedMs);
    case _ => if |out| == 1 { LoadOne(out, s.setup.maxTokens); }
  }

  lemma {:induction false} RuleKeepsSetup<E>(h: Hooks<E>, s: State<E>, f: Fact, elapsedMs: u32)
    ensures Fire(h, s, f, elapsedMs).0.setup == s.setup
  {
  }

  /** Every step spends: whatever fact is taken, the work ahead shrinks. */
  lemma {:induction false} StepSpends<E>(h: Hooks<E>, c: Config<E>, i: nat, elapsedMs: u32)
    requires i < |c.pending|
    ensures Ahead(Step(h, c, i, elapsedMs)) + 1 <= Ahead(c)
    ensures Step(h, c, i, elapsedMs).processed == c.processed + 1
  {
    var f, m := c.pending[i], c.state.setup.maxTokens;
    var rest := c.pending[..i] + c.pending[i + 1..];
    var out := Fire(h, c.state, f, elapsedMs).1;
    RuleWeights(h, c.state, f, elapsedMs);
    RuleKeepsSetup(h, c.state, f, elapsedMs);
    LoadWithout(c.pending, i, m);
    LoadConcat(rest, Fresh(out, c.known), m);
    if f.EmbeddingReady? && out != [] {
      var batch := PrefillBatchReady(c.state.setup.promptLen);
      assert batch in Elements(out);
      assert Fresh(out, c.known) == if batch in c.known then [] else [batch];
      assert Load([batch][1..], m) == 0;
    } else {
      FreshIsNoHeavier(out, c.known, m);
    }
  }

  /** Along every schedule, what was processed and what is ahead never grow past
      the work that was ahead at the start. */
  lemma {:induction false} RunSpends<E>(h: Hooks<E>, c: Config<E>, schedule: seq<Choice>)
    requires Runs(h, c, schedule)
    ensures var end := Run(h, c, schedule);
            end.processed + Ahead(end) <= c.processed + Ahead(c) && end.processed == c.processed + |schedule|
    decreases |schedule|
  {
    if schedule != [] {
      StepSpends(h, c, schedule[0].index, schedule[0].elapsedMs);
      RunSpends(h, Step(h, c, schedule[0].index, schedule[0].elapsedMs), schedule[1..]);
    }
  }

  /** The prompt as facts. */
  function PromptFacts(ids: seq<u32>): seq<Fact> {
    seq(|ids|, (i: nat) requires i < |ids| => PromptToken(i, ids[i]))
  }

  lemma {:induction false} PromptFactsAre(ids: seq<u32>)
    ensures forall i: nat :: i < |ids| ==> PromptToken(i, ids[i]) in Elements(PromptFacts(ids))
    ensures forall g :: g in Elements(PromptFacts(ids)) ==> g.PromptToken? && g.tokenId in ids
  {
    forall i: nat | i < |ids| ensures PromptToken(i, ids[i]) in Elements(PromptFacts(ids)) {
      assert PromptFacts(ids)[i] in PromptFacts(ids);
    }
  }

  /** A fabric before its request: nothing but tensor facts and their dispatch
      facts, processed or still pending. */
  ghost predicate BeforeRequest<E>(c: Config<E>) {
    && StoreAgrees(c)
    && (forall f :: f in c.known ==> f.TensorFact? || f.DispatchFact?)
  }

  /** What the store and the queue hold once the prompt is asserted. */
  lemma {:induction false} PromptAsserted<E>(c: Config<E>, ids: seq<u32>)
    requires BeforeRequest(c)
    ensures var c' := Absorb(c, PromptFacts(ids));
            && StoreAgrees(c')
            && (forall i: nat :: i < |ids| ==> PromptToken(i, ids[i]) in c'.known)
            && (forall g :: g in c'.known ==> g.TensorFact? || g.DispatchFact? || (g.PromptToken? && g.tokenId in ids))
            && (forall g :: g in c'.pending ==> !IsControl(g) && !g.KvAdvance?)
  {
    var c' := Absorb(c, PromptFacts(ids));
    AbsorbAgrees(c, PromptFacts(ids));
    PromptFactsAre(ids);
    forall g | g in c'.pending ensures !IsControl(g) && !g.KvAdvance? {
      assert g in Elements(c'.pending) && g in c'.known;
    }
  }

  lemma {:induction false} CountedByStore(p: seq<Fact>, known: set<Fact>)
    requires NoDuplicates(p) && Elements(p) <= known
    ensures |p| <= |known|
  {
    if p != [] {
      assert p[0] in Elements(p);
      forall x | x in p[1..] ensures x in known - {p[0]} {
        assert x in Elements(p);
      }
      CountedByStore(p[1..], known - {p[0]});
    }
  }

  /** The work ahead once the prompt is asserted. */
  lemma {:induction false} AheadAtStart<E>(c: Config<E>, ids: seq<u32>)
    requires BeforeRequest(c) && c.state.setup.promptLen == |ids|
    ensures Ahead(Absorb(c, PromptFacts(ids))) <= 5 * |ids| + 7 * c.state.setup.maxTokens + 2 * |c.known| + 9
  {
    LoadAtStart(c, ids);
  }

  lemma {:induction false} LoadAtStart<E>(c: Config<E>, ids: seq<u32>)
    requires BeforeRequest(c)
    ensures Load(Absorb(c, PromptFacts(ids)).pending, c.state.setup.maxTokens) <= 3 * |ids| + 2 * |c.known|
  {
    var m := c.state.setup.maxTokens;
    var added := Fresh(PromptFacts(ids), c.known);
    LoadConcat(c.pending, added, m);
    FreshIsNoHeavier(PromptFacts(ids), c.known, m);
    LoadBounded(PromptFacts(ids), m, 3);
    assert forall f :: f in c.pending ==> f in Elements(c.pending) && f in c.known;
    LoadBounded(c.pending, m, 2);
    CountedByStore(c.pending, c.known);
  }

  /** Main result: whenever `request_run_budget` grants a bound, no schedule
      processes more facts than it, and a run that reaches it has saturated. */
  lemma {:induction false} BudgetSuffices<E>(h: Hooks<E>, c: Config<E>, ids: seq<u32>, schedule: seq<Choice>)
    requires BeforeRequest(c) && c.state.setup.promptLen == |ids| && c.processed == 0
    requires |c.known| < TWO_TO_THE_64
    requires RequestRunBudget(|ids|, c.state.setup.maxTokens, |c.known|).Ok?
    requires Runs(h, Absorb(c, PromptFacts(ids)), schedule)
    ensures var bound := RequestRunBudget(|ids|, c.state.setup.maxTokens, |c.known|).value;
            var end := Run(h, Absorb(c, PromptFacts(ids)), schedule);
            end.processed <= bound && (end.processed == bound ==> Saturated(end))
  {
    BudgetIsExact(|ids|, c.state.setup.maxTokens, |c.known|);
    AheadAtStart(c, ids);
    RunSpends(h, Absorb(c, PromptFacts(ids)), schedule);
    var end := Run(h, Absorb(c, PromptFacts(ids)), schedule);
    LoadCoversLength(end.pending, end.state.setup.maxTokens);
  }

  /** Where the counters a fact carries can stand. */
  predicate InRange(setup: Setup, f: Fact) {
    match f
    case DecodeStep(step, _, position) =>
      position == setup.promptLen + step && (step == 0 || step < setup.maxTokens)
    case PrefillBatchReady(n) => n == setup.promptLen
    case PrefillComplete(position) => position == setup.promptLen
    case KvAdvance(position) => position < setup.promptLen + setup.maxTokens
    case FinalLogits(position, _, _) => position <= setup.promptLen + setup.maxTokens
    case _ => true
  }

  lemma {:induction false} RuleKeepsRange<E>(h: Hooks<E>, s: State<E>, f: Fact, elapsedMs: u32)
    requires InRange(s.setup, f)
    ensures forall g :: g in Fire(h, s, f, elapsedMs).1 ==> InRange(s.setup, g)
  {
    if f.PrefillBatchReady? {
      var out := Fire(h, s, f, elapsedMs).1;
      forall g | g in out ensures InRange(s.setup, g) {
        var j :| 0 <= j < |out| && out[j] == g;
        assert j < f.tokenCount ==> g == KvAdvances(f.tokenCount)[j];
      }
    }
  }

  lemma {:induction false} RunKeepsRange<E>(h: Hooks<E>, c: Config<E>, schedule: seq<Choice>)
    requires StoreAgrees(c) && Runs(h, c, schedule) && forall f :: f in c.known ==> InRange(c.state.setup, f)
    ensures var end := Run(h, c, schedule);
            end.state.setup == c.state.setup && forall f :: f in end.known ==> InRange(c.state.setup, f)
    decreases |schedule|
  {
    if schedule != [] {
      var i, e := schedule[0].index, schedule[0].elapsedMs;
      StepStore(h, c, i, e);
      RuleKeepsRange(h, c.state, c.pending[i], e);
      RuleKeepsSetup(h, c.state, c.pending[i], e);
      RunKeepsRange(h, Step(h, c, i, e), schedule[1..]);
    }
  }

  lemma {:induction false} OthersInRange(setup: Setup, known: set<Fact>)
    requires forall f :: f in known ==> f.TensorFact? || f.DispatchFact? || f.PromptToken?
    ensures forall f :: f in known ==> InRange(setup, f)
  {
  }

  ghost predicate CountersFit(known: set<Fact>) {
    && (forall f :: f in known && f.DecodeStep? ==> f.step + 1 < TWO_TO_THE_32 && f.position + 1 < TWO_TO_THE_32)
    && (forall f :: f in known && f.KvAdvance? ==> f.position + 1 < TWO_TO_THE_32)
  }

  /** With a granted bound, the 32-bit counters of the rules never wrap: adding one
      to any step or position stays below two to the 32. */
  lemma {:induction false} CountersNeverWrap<E>(h: Hooks<E>, c: Config<E>, ids: seq<u32>, schedule: seq<Choice>)
    requires BeforeRequest(c) && c.state.setup.promptLen == |ids| && |c.known| < TWO_TO_THE_64
    requires RequestRunBudget(|ids|, c.state.setup.maxTokens, |c.known|).Ok?
    requires Runs(h, Absorb(c, PromptFacts(ids)), schedule)
    ensures CountersFit(Run(h, Absorb(c, PromptFacts(ids)), schedule).known)
  {
    var start := Absorb(c, PromptFacts(ids));
    PromptAsserted(c, ids);
    forall f | f in start.known ensures f.TensorFact? || f.DispatchFact? || f.PromptToken? {
    }
    OthersInRange(c.state.setup, start.known);
    RunKeepsRange(h, start, schedule);
    assert 6 * c.state.setup.promptLen + 16 * c.state.setup.maxTokens + 64 < TWO_TO_THE_32 by {
      BudgetIsExact(|ids|, c.state.setup.maxTokens, |c.known|);
    }
    InRangeFits(c.state.setup, Run(h, start, schedule).known);
  }

  lemma {:induction false} InRangeFits(setup: Setup, known: set<Fact>)
    requires 6 * setup.promptLen + 16 * setup.maxTokens + 64 < TWO_TO_THE_32
    requires forall f :: f in known ==> InRange(setup, f)
    ensures CountersFit(known)
  {
  }
}
