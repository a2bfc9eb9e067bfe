/** First-in first-out processing: the KV increments all precede the decode step
    whose position they lead up to, in order. */
module FabricFifo {
  import opened Prelude
  import opened Facts
  import opened FabricRules
  import opened FabricRun
  import opened FabricBudget
  import opened SequentialLoop
  import opened FabricRefinement
  import opened FabricKv

  /** The positions `0, 1, ..., n - 1`. */
  function UpTo(n: nat): seq<nat> {
    seq(n, i => i)
  }

  /** The positions of the KV advances among some facts, in order. */
  function Advances(facts: seq<Fact>): seq<nat> {
    if facts == [] then []
    else (if facts[0].KvAdvance? then [facts[0].position] else []) + Advances(facts[1..])
  }

  /** No KV advance is queued behind a control fact. */
  predicate AdvancesFirst(q: seq<Fact>) {
    q == [] || if IsControl(q[0]) then Advances(q[1..]) == [] else AdvancesFirst(q[1..])
  }

  lemma {:induction false} AdvancesConcat(a: seq<Fact>, b: seq<Fact>)
    ensures Advances(a + b) == Advances(a) + Advances(b)
  {
    if a == [] {
      assert a + b == b;
    } else {
      var first := if a[0].KvAdvance? then [a[0].position] else [];
      calc {
        Advances(a + b);
        { assert (a + b)[0] == a[0] && (a + b)[1..] == a[1..] + b; }
        first + Advances(a[1..] + b);
        { AdvancesConcat(a[1..], b); }
        first + (Advances(a[1..]) + Advances(b));
        (first + Advances(a[1..])) + Advances(b);
        Advances(a) + Advances(b);
      }
    }
  }

  lemma {:induction false} NoAdvances(a: seq<Fact>)
    requires forall f :: f in a ==> !f.KvAdvance?
    ensures Advances(a) == []
  {
    if a != [] {
      assert forall f :: f in a[1..] ==> f in a;
      NoAdvances(a[1..]);
    }
  }

  lemma {:induction false} NothingToOrder(b: seq<Fact>)
    requires Advances(b) == []
    ensures AdvancesFirst(b)
  {
    if b != [] {
      NothingToOrder(b[1..]);
    }
  }

  /** Queueing facts that are no advances keeps advances first. */
  lemma {:induction false} QueueOthers(a: seq<Fact>, b: seq<Fact>)
    requires AdvancesFirst(a) && Advances(b) == []
    ensures AdvancesFirst(a + b)
  {
    if a == [] {
      assert a + b == b;
      NothingToOrder(b);
    } else {
      assert (a + b)[1..] == a[1..] + b;
      if IsControl(a[0]) {
        AdvancesConcat(a[1..], b);
      } else {
        QueueOthers(a[1..], b);
      }
    }
  }

  /** So does queueing behind a queue without control facts. */
  lemma {:induction false} QueueBehindNoControl(a: seq<Fact>, b: seq<Fact>)
    requires Controls(a) == [] && AdvancesFirst(b)
    ensures AdvancesFirst(a + b)
  {
    if a == [] {
      assert a + b == b;
    } else {
      assert (a + b)[1..] == a[1..] + b;
      QueueBehindNoControl(a[1..], b);
    }
  }

  lemma {:induction false} AdvancesOf(n: nat, from: nat)
    requires from <= n
    ensures Advances(KvAdvances(n)[from..]) == UpTo(n)[from..]
    decreases n - from
  {
    if from < n {
      AdvancesOf(n, from + 1);
      assert KvAdvances(n)[from..][1..] == KvAdvances(n)[from + 1..];
      assert UpTo(n)[from..] == [from] + UpTo(n)[from + 1..];
    }
  }

  /** Facts the store has not seen are queued as they stand. */
  lemma {:induction false} FreshPrefix(a: seq<Fact>, b: seq<Fact>, known: set<Fact>)
    requires NoDuplicates(a) && forall f :: f in a ==> f !in known
    ensures Fresh(a + b, known) == a + Fresh(b, known + Elements(a))
  {
    if a == [] {
      assert a + b == b && known + Elements(a) == known;
    } else {
      assert (a + b)[1..] == a[1..] + b;
      assert forall f :: f in a[1..] ==> f in a && f != a[0];
      FreshPrefix(a[1..], b, known + {a[0]});
      assert known + {a[0]} + Elements(a[1..]) == known + Elements(a);
    }
  }

  ghost predicate Ascending(s: seq<nat>) {
    forall i, j :: 0 <= i < j < |s| ==> s[i] < s[j]
  }

  /** What first-in first-out processing keeps: the increments done and the
      increments queued ascend, and none is queued behind a control fact. */
  ghost predicate InOrder(q: seq<Fact>, kvLog: seq<nat>) {
    AdvancesFirst(q) && Ascending(kvLog + Advances(q))
  }

  /** Taking a fact off the head that is no control fact. */
  lemma {:induction false} SideInOrder(q: seq<Fact>, kvLog: seq<nat>, added: seq<Fact>)
    requires InOrder(q, kvLog) && q != [] && !IsControl(q[0]) && Advances(added) == []
    ensures InOrder(q[1..] + added, if q[0].KvAdvance? then kvLog + [q[0].position] else kvLog)
  {
    QueueOthers(q[1..], added);
    AdvancesConcat(q[1..], added);
    var later := Advances(q[1..]);
    assert Advances(q[1..] + added) == later by {
      assert later + [] == later;
    }
    if q[0].KvAdvance? {
      AppendAssociates(kvLog, [q[0].position], later);
    } else {
      assert Advances(q) == [] + later == later;
    }
  }

  /** Taking the control fact off the head: nothing else is queued to advance. */
  lemma {:induction false} ControlInOrder(q: seq<Fact>, kvLog: seq<nat>, added: seq<Fact>)
    requires InOrder(q, kvLog) && q != [] && IsControl(q[0]) && Controls(q) == [q[0]]
    requires AdvancesFirst(added) && Ascending(kvLog + Advances(added))
    ensures InOrder(q[1..] + added, kvLog)
  {
    assert Controls(q) == [q[0]] + Controls(q[1..]);
    QueueBehindNoControl(q[1..], added);
    AdvancesConcat(q[1..], added);
    assert [] + Advances(added) == Advances(added);
  }

  lemma {:induction false} FreshIsFromRule(out: seq<Fact>, known: set<Fact>)
    ensures forall f :: f in Fresh(out, known) ==> f in out
  {
    assert forall f :: f in Fresh(out, known) ==> f in Elements(Fresh(out, known));
  }

  /** The step, as far as the KV increments can tell. */
  lemma {:induction false} HeadTaken<E>(h: Hooks<E>, c: Config<E>, e: u32)
    requires c.pending != [] && StoreAgrees(c)
    ensures var (s', out) := Fire(h, c.state, c.pending[0], e);
            var c' := Step(h, c, 0, e);
            && c'.pending == c.pending[1..] + Fresh(out, c.known)
            && c'.state == s'
            && (forall f :: f in c'.known <==> f in c.known || f in out)
  {
    assert c.pending[..0] + c.pending[1..] == c.pending[1..];
  }

  lemma {:induction false} SideKeepsOrder<E>(h: Hooks<E>, c: Config<E>, e: u32)
    requires StoreAgrees(c) && InOrder(c.pending, c.state.kvLog) && c.pending != [] && !IsControl(c.pending[0])
    ensures InOrder(Step(h, c, 0, e).pending, Step(h, c, 0, e).state.kvLog)
  {
    var out := Fire(h, c.state, c.pending[0], e).1;
    HeadTaken(h, c, e);
    SideRules(h, c.state, c.pending[0], e);
    FreshIsFromRule(out, c.known);
    NoAdvances(Fresh(out, c.known));
    SideInOrder(c.pending, c.state.kvLog, Fresh(out, c.known));
  }

  lemma {:induction false} AdvancesThenControl(n: nat, control: Fact, more: seq<Fact>)
    requires IsControl(control) && Advances(more) == [] && Controls(more) == []
    ensures var q := KvAdvances(n) + [control] + more;
            AdvancesFirst(q) && Advances(q) == UpTo(n) && Controls(q) == [control]
  {
    var advances, rest := KvAdvances(n), [control] + more;
    assert advances + [control] + more == advances + rest;
    assert rest[1..] == more;
    NoControls(advances);
    QueueBehindNoControl(advances, rest);
    ControlsConcat(advances, rest);
    AdvancesConcat(advances, rest);
    AdvancesOf(n, 0);
    assert advances[0..] == advances && UpTo(n)[0..] == UpTo(n);
  }

  /** What prefill queues: the prompt's advances, its completion, and no control
      fact or advance behind it. */
  lemma {:induction false} PrefillQueue<E>(h: Hooks<E>, s: State<E>, n: u32, e: u32, known: set<Fact>)
    requires forall f :: f in known ==> !f.PrefillComplete? && !f.KvAdvance?
    ensures var added := Fresh(OnPrefillBatchReady(h, s, n, e).1, known);
            AdvancesFirst(added) && Advances(added) == UpTo(n) && Controls(added) == [PrefillComplete(n)]
  {
    var head := KvAdvances(n) + [PrefillComplete(n)];
    var tail := PrefillObserved(h, s, n, e);
    FreshPrefix(head, tail, known);
    var more := Fresh(tail, known + Elements(head));
    FreshIsFromRule(tail, known + Elements(head));
    NoAdvances(more);
    NoControls(more);
    AdvancesThenControl(n, PrefillComplete(n), more);
  }

  lemma {:induction false} DecodeQueue(step: nat, token: u32, p: nat, observed: seq<Fact>, known: set<Fact>)
    requires forall f :: f in known && f.DecodeStep? ==> f.step <= step
    requires KvAdvance(p) !in known && forall g :: g in observed ==> !g.KvAdvance? && !IsControl(g)
    ensures var next := DecodeStep(step + 1, token, p + 1);
            var added := Fresh([KvAdvance(p), next] + observed, known);
            AdvancesFirst(added) && Advances(added) == [p] && Controls(added) == [next]
  {
    var next := DecodeStep(step + 1, token, p + 1);
    var head := [KvAdvance(p), next];
    FreshPrefix(head, observed, known);
    var more := Fresh(observed, known + Elements(head));
    FreshIsFromRule(observed, known + Elements(head));
    NoAdvances(more);
    NoControls(more);
    assert KvAdvances(0) == [] && head + more == [KvAdvance(p)] + ([next] + more);
    assert ([next] + more)[1..] == more && (head + more)[1..] == [next] + more;
  }

  /** The advances a control rule queues lie beyond everything logged. */
  lemma {:induction false} ControlQueues<E>(h: Hooks<E>, r: Request, env: E, c: Config<E>, e: u32, below: nat)
    requires Inv(h, r, env, c) && KvAt(r, c, below) && c.pending != [] && IsControl(c.pending[0])
    requires Ascending(c.state.kvLog)
    ensures var added := Fresh(Fire(h, c.state, c.pending[0], e).1, c.known);
            AdvancesFirst(added) && Ascending(c.state.kvLog + Advances(added))
  {
    var f, out := c.pending[0], Fire(h, c.state, c.pending[0], e).1;
    TheControl(h, r, env, c, 0);
    assert PositionOf(f) == below by {
      assert f in c.pending;
    }
    LogIsBelow(r, c, below);
    match f
    case PrefillBatchReady(_) =>
      FirstIsIn(c.state.kvLog);
      BatchQueues(h, c.state, |r.prompt|, e, c.known, c.state.kvLog);
    case PrefillComplete(_) =>
      FirstDerives(h, c.state);
      NothingQueued(out, c.known);
      assert c.state.kvLog + [] == c.state.kvLog;
    case DecodeStep(step, t, p) =>
      DecodeQueues(h, c.state, step, t, p, e, c.known, c.state.kvLog);
  }

  lemma {:induction false} LogIsBelow<E>(r: Request, c: Config<E>, below: nat)
    requires |r.prompt| < TWO_TO_THE_32 && StoreAgrees(c) && KvAt(r, c, below)
    ensures forall p :: p in c.state.kvLog ==> p < below
    ensures forall g :: g in c.known && g.KvAdvance? ==> g.position < below
  {
    forall p | p in c.state.kvLog
      ensures p < below
    {
      assert KvAdvance(p) in c.done;
    }
    forall g | g in c.known && g.KvAdvance?
      ensures g.position < below
    {
      assert g == KvAdvance(g.position);
    }
  }

  lemma {:induction false} NothingQueued(out: seq<Fact>, known: set<Fact>)
    requires forall g :: g in out ==> !g.KvAdvance?
    ensures AdvancesFirst(Fresh(out, known)) && Advances(Fresh(out, known)) == []
  {
    FreshIsFromRule(out, known);
    NoAdvances(Fresh(out, known));
    NothingToOrder(Fresh(out, known));
  }

  lemma {:induction false} BatchQueues<E>(h: Hooks<E>, s: State<E>, n: u32, e: u32, known: set<Fact>, kvLog: seq<nat>)
    requires forall f :: f in known ==> !f.PrefillComplete? && !f.KvAdvance?
    requires kvLog == []
    ensures var added := Fresh(OnPrefillBatchReady(h, s, n, e).1, known);
            AdvancesFirst(added) && Ascending(kvLog + Advances(added))
  {
    PrefillQueue(h, s, n, e, known);
    assert [] + UpTo(n) == UpTo(n);
  }

  lemma {:induction false} DecodeQueues<E>(
      h: Hooks<E>, s: State<E>, step: nat, t: u32, p: nat, e: u32, known: set<Fact>, kvLog: seq<nat>)
    requires forall f :: f in known && f.DecodeStep? ==> f.step <= step
    requires KvAdvance(p) !in known && Ascending(kvLog) && forall q :: q in kvLog ==> q < p
    ensures var added := Fresh(OnDecodeStep(h, s, step, t, p, e).1, known);
            AdvancesFirst(added) && Ascending(kvLog + Advances(added))
  {
    var token, observed := DecodeDerives(h, s, step, t, p, e);
    var out := OnDecodeStep(h, s, step, t, p, e).1;
    if out == observed {
      NothingQueued(out, known);
      assert kvLog + [] == kvLog;
    } else {
      DecodeQueue(step, token, p, observed, known);
      assert forall i :: 0 <= i < |kvLog| ==> kvLog[i] in kvLog;
      assert Ascending(kvLog + [p]);
    }
  }

  lemma {:induction false} FifoStepKeepsOrder<E>(h: Hooks<E>, r: Request, env: E, c: Config<E>, e: u32, below: nat)
    requires Inv(h, r, env, c) && KvAt(r, c, below) && InOrder(c.pending, c.state.kvLog) && c.pending != []
    ensures InOrder(Step(h, c, 0, e).pending, Step(h, c, 0, e).state.kvLog)
  {
    if IsControl(c.pending[0]) {
      AscendingPrefix(c.state.kvLog, Advances(c.pending));
      ControlQueues(h, r, env, c, e, below);
      TheControl(h, r, env, c, 0);
      HeadTaken(h, c, e);
      ControlLogs(h, c.state, c.pending[0], e);
      ControlInOrder(c.pending, c.state.kvLog, Fresh(Fire(h, c.state, c.pending[0], e).1, c.known));
    } else {
      SideKeepsOrder(h, c, e);
    }
  }

  lemma AscendingPrefix(a: seq<nat>, b: seq<nat>)
    requires Ascending(a + b)
    ensures Ascending(a)
  {
    assert forall i :: 0 <= i < |a| ==> a[i] == (a + b)[i];
  }

  lemma {:induction false} ControlLogs<E>(h: Hooks<E>, s: State<E>, f: Fact, e: u32)
    requires IsControl(f)
    ensures Fire(h, s, f, e).0.kvLog == s.kvLog
  {
  }

  /** A schedule that always takes the fact that has waited longest. */
  predicate Fifo(schedule: seq<Choice>) {
    forall j :: 0 <= j < |schedule| ==> schedule[j].index == 0
  }

  lemma {:induction false} FifoStep<E>(h: Hooks<E>, r: Request, env: E, c: Config<E>, e: u32, below: nat)
    returns (next: nat)
    requires Inv(h, r, env, c) && KvAt(r, c, below) && InOrder(c.pending, c.state.kvLog) && c.pending != []
    ensures Inv(h, r, env, Step(h, c, 0, e)) && KvAt(r, Step(h, c, 0, e), next)
    ensures InOrder(Step(h, c, 0, e).pending, Step(h, c, 0, e).state.kvLog)
  {
    StepKeepsInv(h, r, env, c, 0, e);
    FifoStepKeepsOrder(h, r, env, c, e, below);
    next := StepKeepsKv(h, r, env, c, 0, e, below);
  }

  lemma {:induction false} FifoKeepsOrder<E>(
      h: Hooks<E>, r: Request, env: E, c: Config<E>, schedule: seq<Choice>, below: nat)
    requires Inv(h, r, env, c) && KvAt(r, c, below) && InOrder(c.pending, c.state.kvLog)
    requires Fifo(schedule) && Runs(h, c, schedule)
    ensures InOrder(Run(h, c, schedule).pending, Run(h, c, schedule).state.kvLog)
    decreases |schedule|
  {
    if schedule != [] {
      var e := schedule[0].elapsedMs;
      assert schedule[0].index == 0;
      var next := FifoStep(h, r, env, c, e, below);
      FifoKeepsOrder(h, r, env, Step(h, c, 0, e), schedule[1..], next);
    }
  }

  lemma {:induction false} StartsInOrder<E>(r: Request, c: Config<E>)
    requires BeforeRequest(c) && SeededFor(c.state, r)
    ensures var start := Absorb(c, PromptFacts(r.prompt)); InOrder(start.pending, start.state.kvLog)
  {
    var start := Absorb(c, PromptFacts(r.prompt));
    PromptAsserted(c, r.prompt);
    NoAdvances(start.pending);
    NothingToOrder(start.pending);
  }

  /** Ascending positions that are exactly those below `n` are `0, 1, ..., n - 1`. */
  lemma {:induction false} AscendingIsUpTo(s: seq<nat>, n: nat)
    requires Ascending(s) && forall p: nat :: p in s <==> p < n
    ensures s == UpTo(n)
  {
    if n == 0 {
      FirstIsIn(s);
    } else {
      var last: nat := n - 1;
      assert last in s;
      var i :| 0 <= i < |s| && s[i] == last;
      var init := s[..|s| - 1];
      assert s[|s| - 1] in s;
      assert i == |s| - 1 && s == init + [n - 1];
      assert forall j :: 0 <= j < |init| ==> init[j] == s[j] && s[j] < s[|s| - 1];
      forall p: nat
        ensures p in init <==> p < n - 1
      {
        assert p in s <==> p in init || p == n - 1;
      }
      AscendingIsUpTo(init, n - 1);
    }
  }

  lemma {:induction false} NoneBehind(q: seq<Fact>)
    requires q != [] && IsControl(q[0]) && AdvancesFirst(q)
    ensures forall g :: g in q ==> !g.KvAdvance?
  {
    AdvancesTell(q[1..]);
  }

  lemma {:induction false} AdvancesTell(q: seq<Fact>)
    requires Advances(q) == []
    ensures forall g :: g in q ==> !g.KvAdvance?
  {
    if q != [] {
      AdvancesTell(q[1..]);
    }
  }

  /** Main result: with first-in first-out processing no advance is pending when a
      decode step is about to be processed, so the KV increment has run exactly
      once for each position below the step's own, in order. */
  lemma {:induction false} IncrementsComeFirst<E>(h: Hooks<E>, r: Request, c: Config<E>, schedule: seq<Choice>)
    requires BeforeRequest(c) && SeededFor(c.state, r)
    requires Fifo(schedule) && Runs(h, Absorb(c, PromptFacts(r.prompt)), schedule)
    requires var at := Run(h, Absorb(c, PromptFacts(r.prompt)), schedule);
             at.pending != [] && at.pending[0].DecodeStep?
    ensures var at := Run(h, Absorb(c, PromptFacts(r.prompt)), schedule);
            at.state.kvLog == UpTo(at.pending[0].position)
  {
    var start := Absorb(c, PromptFacts(r.prompt));
    var at := Run(h, start, schedule);
    StartsAtZero(h, r, c);
    StartsInOrder(r, c);
    FifoKeepsOrder(h, r, c.state.env, start, schedule, 0);
    NoneBehind(at.pending);
    IncrementsInAnyOrder(h, r, c, schedule, at.pending[0]);
    AscendingPrefix(at.state.kvLog, Advances(at.pending));
    AscendingIsUpTo(at.state.kvLog, at.pending[0].position);
  }
}
