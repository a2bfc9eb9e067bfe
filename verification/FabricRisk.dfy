/** Dispatches: exactly which of them raise a risk of overrunning the time budget,
    told from the facts a run has taken, and for which tensors they are derived. */
module FabricRisk {
  import opened Prelude
  import opened Facts
  import opened FabricRules
  import opened FabricRun
  import opened FabricBudget

  /** The facts a run takes, in order. */
  function Taken<E>(h: Hooks<E>, c: Config<E>, schedule: seq<Choice>): seq<Fact>
    requires Runs(h, c, schedule)
    decreases |schedule|
  {
    if schedule == [] then []
    else
      [c.pending[schedule[0].index]] + Taken(h, Step(h, c, schedule[0].index, schedule[0].elapsedMs), schedule[1..])
  }

  /** The time of the dispatches since the last risk taken. */
  function SinceRisk(taken: seq<Fact>): nat {
    if taken == [] then 0
    else match taken[|taken| - 1]
      case TdrRiskHigh(_) => 0
      case DispatchCompleted(_, _, ms) => SinceRisk(taken[..|taken| - 1]) + ms
      case _ => SinceRisk(taken[..|taken| - 1])
  }

  function Risks(taken: seq<Fact>): nat {
    if taken == [] then 0
    else Risks(taken[..|taken| - 1]) + if taken[|taken| - 1].TdrRiskHigh? then 1 else 0
  }

  /** Some dispatch of the layer has brought the time since the last risk to the budget. */
  ghost predicate Overran(taken: seq<Fact>, budget: nat, layer: nat) {
    exists i :: 0 <= i < |taken| && OverranAt(taken, budget, layer, i)
  }

  predicate OverranAt(taken: seq<Fact>, budget: nat, layer: nat, i: nat)
    requires i < |taken|
  {
    taken[i].DispatchCompleted? && taken[i].layer == layer && SinceRisk(taken[..i + 1]) >= budget
  }

  ghost predicate Accounted<E>(c: Config<E>, taken: seq<Fact>) {
    && c.state.tdrAccumulatedMs == SinceRisk(taken)
    && c.state.tdrYieldCount == Risks(taken)
    && (forall layer: nat :: TdrRiskHigh(layer) in c.known <==> Overran(taken, c.state.setup.tdrBudgetMs, layer))
    && (forall layer: nat :: YieldNow(layer, TdrBudgetExceeded) in c.known <==> TdrRiskHigh(layer) in taken)
  }

  lemma {:induction false} OthersRaiseNothing<E>(h: Hooks<E>, s: State<E>, f: Fact, e: u32)
    requires !f.DispatchCompleted? && !f.TdrRiskHigh?
    ensures var (s', out) := Fire(h, s, f, e);
            && s'.tdrAccumulatedMs == s.tdrAccumulatedMs && s'.tdrYieldCount == s.tdrYieldCount
            && forall g :: g in out ==> !g.TdrRiskHigh? && !g.YieldNow?
  {
    if f.PrefillBatchReady? {
      PrefillRaisesNothing(h, s, f.tokenCount, e);
    }
  }

  lemma {:induction false} PrefillRaisesNothing<E>(h: Hooks<E>, s: State<E>, n: u32, e: u32)
    ensures forall g :: g in OnPrefillBatchReady(h, s, n, e).1 ==> !g.TdrRiskHigh? && !g.YieldNow?
  {
    var out := OnPrefillBatchReady(h, s, n, e).1;
    forall j | 0 <= j < |out| ensures !out[j].TdrRiskHigh? && !out[j].YieldNow? {
      if j < n {
        assert out[j] == KvAdvances(n)[j];
      }
    }
  }

  /** One more fact taken overruns for its own layer, and otherwise changes nothing. */
  lemma OverranSnoc(taken: seq<Fact>, f: Fact, budget: nat, layer: nat)
    ensures Overran(taken + [f], budget, layer) <==>
      Overran(taken, budget, layer) || (f.DispatchCompleted? && f.layer == layer && SinceRisk(taken + [f]) >= budget)
  {
    var all := taken + [f];
    assert all[..|all|] == all;
    if OverranAt(all, budget, layer, |taken|) {
      assert Overran(all, budget, layer);
    }
    forall i: nat | i < |taken|
      ensures OverranAt(all, budget, layer, i) <==> OverranAt(taken, budget, layer, i)
    {
      assert all[..i + 1] == taken[..i + 1];
    }
  }

  lemma {:induction false} StepAccounts<E>(h: Hooks<E>, c: Config<E>, taken: seq<Fact>, i: nat, e: u32)
    requires StoreAgrees(c) && Accounted(c, taken) && i < |c.pending|
    ensures StoreAgrees(Step(h, c, i, e)) && Accounted(Step(h, c, i, e), taken + [c.pending[i]])
  {
    var f, c' := c.pending[i], Step(h, c, i, e);
    var all, budget := taken + [f], c.state.setup.tdrBudgetMs;
    StepStore(h, c, i, e);
    RuleKeepsSetup(h, c.state, f, e);
    assert all[..|taken|] == taken;
    if !f.DispatchCompleted? && !f.TdrRiskHigh? {
      OthersRaiseNothing(h, c.state, f, e);
    }
    forall layer: nat
      ensures TdrRiskHigh(layer) in c'.known <==> Overran(all, budget, layer)
      ensures YieldNow(layer, TdrBudgetExceeded) in c'.known <==> TdrRiskHigh(layer) in all
    {
      OverranSnoc(taken, f, budget, layer);
    }
  }

  lemma {:induction false} RunAccounts<E>(h: Hooks<E>, c: Config<E>, taken: seq<Fact>, schedule: seq<Choice>)
    requires StoreAgrees(c) && Accounted(c, taken) && Runs(h, c, schedule)
    ensures Accounted(Run(h, c, schedule), taken + Taken(h, c, schedule))
    decreases |schedule|
  {
    if schedule == [] {
      assert taken + [] == taken;
    } else {
      var x := schedule[0];
      var next := Step(h, c, x.index, x.elapsedMs);
      StepAccounts(h, c, taken, x.index, x.elapsedMs);
      RunAccounts(h, next, taken + [c.pending[x.index]], schedule[1..]);
      AppendAssociates(taken, [c.pending[x.index]], Taken(h, next, schedule[1..]));
    }
  }

  /** Main result: wherever any schedule has got to, the accumulated time is that of
      the dispatches taken since the last risk, the count is the risks taken, a risk
      has been raised for exactly the layers of which a dispatch brought that time
      to the budget, and a yield for exactly the risks taken. */
  lemma {:induction false} RisksAreExact<E>(h: Hooks<E>, ids: seq<u32>, c: Config<E>, schedule: seq<Choice>)
    requires BeforeRequest(c) && c.state.tdrAccumulatedMs == 0 && c.state.tdrYieldCount == 0
    requires Runs(h, Absorb(c, PromptFacts(ids)), schedule)
    ensures var start := Absorb(c, PromptFacts(ids));
            Accounted(Run(h, start, schedule), Taken(h, start, schedule))
  {
    var start := Absorb(c, PromptFacts(ids));
    PromptAsserted(c, ids);
    assert Accounted(start, []);
    RunAccounts(h, start, [], schedule);
    assert [] + Taken(h, start, schedule) == Taken(h, start, schedule);
  }

  // --- Dispatches of tensors ----------------------------------------------

  /** A dispatch is known for exactly the supported tensors taken, with its slot. */
  ghost predicate DispatchesAgree<E>(c: Config<E>) {
    forall q: u32, slot: u32, offset: u64 ::
      DispatchFact(q, slot, offset) in c.known <==> SlotForType(q) == Some(slot) && TensorTaken(c, q, offset)
  }

  ghost predicate TensorTaken<E>(c: Config<E>, q: u32, offset: u64) {
    exists shape, arch :: TensorFact(q, shape, offset, arch) in c.done
  }

  lemma {:induction false} OthersDispatchNothing<E>(h: Hooks<E>, s: State<E>, f: Fact, e: u32)
    requires !f.TensorFact?
    ensures forall g :: g in Fire(h, s, f, e).1 ==> !g.DispatchFact?
  {
    if f.PrefillBatchReady? {
      var out := OnPrefillBatchReady(h, s, f.tokenCount, e).1;
      forall j | 0 <= j < |out| ensures !out[j].DispatchFact? {
        if j < f.tokenCount {
          assert out[j] == KvAdvances(f.tokenCount)[j];
        }
      }
    }
  }

  lemma {:induction false} StepDispatches<E>(h: Hooks<E>, c: Config<E>, i: nat, e: u32)
    requires StoreAgrees(c) && DispatchesAgree(c) && i < |c.pending|
    ensures StoreAgrees(Step(h, c, i, e)) && DispatchesAgree(Step(h, c, i, e))
  {
    var f, c' := c.pending[i], Step(h, c, i, e);
    StepStore(h, c, i, e);
    if !f.TensorFact? {
      OthersDispatchNothing(h, c.state, f, e);
    }
    forall q: u32, slot: u32, offset: u64
      ensures DispatchFact(q, slot, offset) in c'.known <==> SlotForType(q) == Some(slot) && TensorTaken(c', q, offset)
    {
      TakenOnce(c, f, c', q, offset);
    }
  }

  lemma TakenOnce<E>(c: Config<E>, f: Fact, c': Config<E>, q: u32, offset: u64)
    requires forall g :: g in c'.done <==> g in c.done || g == f
    ensures TensorTaken(c', q, offset) <==>
      TensorTaken(c, q, offset) || (f.TensorFact? && f.quantType == q && f.offset == offset)
  {
    if f.TensorFact? && f.quantType == q && f.offset == offset {
      assert f == TensorFact(q, f.shape, offset, f.archParams) && f in c'.done;
    }
    forall shape, arch | TensorFact(q, shape, offset, arch) in c.done
      ensures TensorTaken(c', q, offset)
    {
      assert TensorFact(q, shape, offset, arch) in c'.done;
    }
  }

  lemma {:induction false} RunDispatches<E>(h: Hooks<E>, c: Config<E>, schedule: seq<Choice>)
    requires StoreAgrees(c) && DispatchesAgree(c) && Runs(h, c, schedule)
    ensures DispatchesAgree(Run(h, c, schedule))
    decreases |schedule|
  {
    if schedule != [] {
      StepDispatches(h, c, schedule[0].index, schedule[0].elapsedMs);
      RunDispatches(h, Step(h, c, schedule[0].index, schedule[0].elapsedMs), schedule[1..]);
    }
  }

  lemma {:induction false} AssertedTensors<E>(c: Config<E>, facts: seq<Fact>)
    requires c.known == {} && c.done == {} && c.pending == [] && forall f :: f in facts ==> !f.DispatchFact?
    ensures StoreAgrees(Absorb(c, facts)) && DispatchesAgree(Absorb(c, facts))
  {
    AbsorbAgrees(c, facts);
    assert forall f :: f in Absorb(c, facts).known ==> f in facts;
  }

  /** Whatever facts other than dispatches are asserted on an empty store, in every
      order and at every moment a dispatch has been derived for exactly the tensors
      taken whose type is supported, with the type's slot. */
  lemma {:induction false} TensorsAreDispatched<E>(h: Hooks<E>, c: Config<E>, facts: seq<Fact>, schedule: seq<Choice>)
    requires c.known == {} && c.done == {} && c.pending == [] && forall f :: f in facts ==> !f.DispatchFact?
    requires Runs(h, Absorb(c, facts), schedule)
    ensures DispatchesAgree(Run(h, Absorb(c, facts), schedule))
  {
    AssertedTensors(c, facts);
    RunDispatches(h, Absorb(c, facts), schedule);
  }
}
