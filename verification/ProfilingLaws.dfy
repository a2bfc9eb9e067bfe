/** What the profiling numbers mean: each counter is the exact sum cut off at the
    greatest word, the flag is raised exactly when some sum was cut off, and no
    sample goes missing. */
module ProfilingLaws {
  import opened Prelude
  import opened Profiling

  // --- The exact sums -----------------------------------------------------

  datatype Counter =
    | Passes | Dispatches | Forwards | Prefills | Decodes | Wall | Setup | Readback
    | Submissions | Submit | Poll

  function Standing(t: Totals, c: Counter): u64 {
    match c
    case Passes => t.computePassCount
    case Dispatches => t.dispatchCount
    case Forwards => t.forwardCount
    case Prefills => t.prefillForwards
    case Decodes => t.decodeForwards
    case Wall => t.forwardWallNs
    case Setup => t.setupWallNs
    case Readback => t.readbackWallNs
    case Submissions => t.submissionCount
    case Submit => t.submitNs
    case Poll => t.pollNs
  }

  function Share(f: ForwardMeasurement, c: Counter): u64 {
    match c
    case Passes => f.computePassCount
    case Dispatches => f.dispatchCount
    case Forwards => 1
    case Prefills => if f.phase.Prefill? then 1 else 0
    case Decodes => if f.phase.Decode? then 1 else 0
    case Wall => f.forwardWallNs
    case Setup => f.setupWallNs
    case Readback => f.readbackWallNs
    case Submissions => f.submissionCount
    case Submit => f.submitNs
    case Poll => f.pollNs
  }

  function Total(events: seq<Event>, c: Counter): nat {
    if events == [] then 0
    else
      var last := events[|events| - 1];
      Total(events[..|events| - 1], c) + if last.Head? then Share(last.frame, c) else 0
  }

  datatype Measure = Calls | ComputePasses | StageDispatches | HostNs | GpuNs | Measured | Missing(reason: MissingGpu)

  function StandingOf(a: Aggregate, m: Measure): u64 {
    match m
    case Calls => a.calls
    case ComputePasses => a.computePasses
    case StageDispatches => a.dispatches
    case HostNs => a.hostEncodeNs
    case GpuNs => if a.gpuNsSum.Some? then a.gpuNsSum.value else 0
    case Measured => a.gpuMeasuredCalls
    case Missing(reason) => if reason in a.missingGpu then a.missingGpu[reason] else 0
  }

  function ShareOf(s: StageMeasurement, m: Measure): u64 {
    match m
    case Calls => 1
    case ComputePasses => 1
    case StageDispatches => s.dispatches
    case HostNs => s.hostEncodeNs
    case GpuNs => if s.gpuNs.Some? then s.gpuNs.value else 0
    case Measured => if s.gpuNs.Some? then 1 else 0
    case Missing(reason) => if s.gpuNs.None? && s.missing == reason then 1 else 0
  }

  function StageTotal(events: seq<Event>, k: Key, m: Measure): nat {
    if events == [] then 0
    else
      var last := events[|events| - 1];
      StageTotal(events[..|events| - 1], k, m) + if last.Sample? && last.key == k then ShareOf(last.sample, m) else 0
  }

  /** Reported drops, and samples of stages that found no room. */
  function Lost(events: seq<Event>, kept: set<Key>): nat {
    if events == [] then 0
    else
      var last := events[|events| - 1];
      Lost(events[..|events| - 1], kept)
      + (if last.Head? then last.frame.droppedPasses else if last.key in kept then 0 else 1)
  }

  predicate Flagged(events: seq<Event>) {
    exists i :: 0 <= i < |events| && events[i].Head? && events[i].frame.counterOverflow
  }

  /** Some exact sum does not fit its word. */
  ghost predicate Exceeds(events: seq<Event>, kept: set<Key>) {
    || (exists c: Counter :: Total(events, c) > MAX_U64)
    || Lost(events, kept) > MAX_U64
    || (exists k: Key, m: Measure :: k in kept && StageTotal(events, k, m) > MAX_U64)
  }

  /** The data stand for the exact sums. */
  ghost predicate StandsFor(d: Data, events: seq<Event>) {
    && |d.stages| <= MAX_KEYS
    && (forall c: Counter :: Standing(d.totals, c) == Saturated(Total(events, c)))
    && d.dropped == Saturated(Lost(events, d.stages.Keys))
    && (forall k: Key, m: Measure :: k in d.stages ==> StandingOf(d.stages[k], m) == Saturated(StageTotal(events, k, m)))
    && (forall i :: 0 <= i < |events| ==> events[i].Sample? && events[i].key !in d.stages ==> |d.stages| == MAX_KEYS)
    && (d.overflow <==> Flagged(events) || Exceeds(events, d.stages.Keys))
  }

  lemma Snoc(events: seq<Event>, e: Event)
    ensures (events + [e])[..|events + [e]| - 1] == events && (events + [e])[|events + [e]| - 1] == e
  {
  }

  lemma FlaggedSnoc(events: seq<Event>, e: Event)
    ensures Flagged(events + [e]) <==> Flagged(events) || (e.Head? && e.frame.counterOverflow)
  {
    var all := events + [e];
    assert all[|events|] == e;
    if Flagged(events) {
      var i :| 0 <= i < |events| && events[i].Head? && events[i].frame.counterOverflow;
      assert all[i] == events[i];
    }
    if Flagged(all) {
      var i :| 0 <= i < |all| && all[i].Head? && all[i].frame.counterOverflow;
      assert i < |events| ==> events[i] == all[i];
    }
  }

  // --- Heads --------------------------------------------------------------

  predicate Over(exact: nat, value: u64) {
    exact + value > MAX_U64
  }

  /** Counters in `done` have had their share of a frame added to the exact sums
      `n`, and the flag tells of them. */
  ghost predicate Reached(t: Totals, o: bool, n: Counter -> nat, f: ForwardMeasurement, was: bool, done: set<Counter>) {
    && (forall c: Counter :: Standing(t, c) == Saturated(n(c) + if c in done then Share(f, c) else 0))
    && (forall c: Counter :: n(c) > MAX_U64 ==> was)
    && (o <==> was || exists c: Counter :: c in done && Over(n(c), Share(f, c)))
  }

  /** One more counter has its share added. */
  lemma OneReached(t: Totals, o: bool, n: Counter -> nat, f: ForwardMeasurement, was: bool, done: set<Counter>,
                   c: Counter, t2: Totals, o2: bool)
    requires Reached(t, o, n, f, was, done) && c !in done
    requires (Standing(t2, c), o2) == Add(Standing(t, c), Share(f, c), o)
    requires forall x: Counter :: x != c ==> Standing(t2, x) == Standing(t, x)
    ensures Reached(t2, o2, n, f, was, done + {c})
  {
    AddStandsFor(n(c), Share(f, c), o);
    forall x: Counter
      ensures Standing(t2, x) == Saturated(n(x) + if x in done + {c} then Share(f, x) else 0)
    {
      assert x != c ==> Standing(t2, x) == Standing(t, x) && (x in done + {c} <==> x in done);
    }
    if Over(n(c), Share(f, c)) {
      assert c in done + {c};
    }
    if x: Counter :| x in done && Over(n(x), Share(f, x)) {
      assert x in done + {c};
    }
  }

  /** A counter whose share is nothing. */
  lemma NoneReached(t: Totals, o: bool, n: Counter -> nat, f: ForwardMeasurement, was: bool, done: set<Counter>,
                    c: Counter)
    requires Reached(t, o, n, f, was, done) && c !in done && Share(f, c) == 0
    ensures Reached(t, o, n, f, was, done + {c})
  {
  }

  lemma WorkReached(t: Totals, o: bool, n: Counter -> nat, f: ForwardMeasurement, was: bool)
    requires Reached(t, o, n, f, was, {})
    ensures var r := AddWork(t, f, o); Reached(r.0, r.1, n, f, was, {Passes, Dispatches})
  {
    var passes := Add(t.computePassCount, f.computePassCount, o);
    var t1 := t.(computePassCount := passes.0);
    OneReached(t, o, n, f, was, {}, Passes, t1, passes.1);
    var dispatches := Add(t1.dispatchCount, f.dispatchCount, passes.1);
    OneReached(t1, passes.1, n, f, was, {} + {Passes}, Dispatches, t1.(dispatchCount := dispatches.0), dispatches.1);
    assert {} + {Passes} + {Dispatches} == {Passes, Dispatches};
  }

  const AFTER_KIND: set<Counter> := {Passes, Dispatches, Forwards, Prefills, Decodes}

  lemma KindReached(t: Totals, o: bool, n: Counter -> nat, f: ForwardMeasurement, was: bool)
    requires Reached(t, o, n, f, was, {Passes, Dispatches})
    ensures var r := AddForward(t, f, o); Reached(r.0, r.1, n, f, was, AFTER_KIND)
  {
    var done := {Passes, Dispatches};
    var forwards := Add(t.forwardCount, 1, o);
    var t1 := t.(forwardCount := forwards.0);
    OneReached(t, o, n, f, was, done, Forwards, t1, forwards.1);
    if f.phase.Prefill? {
      NoneReached(t1, forwards.1, n, f, was, done + {Forwards}, Decodes);
      var prefills := Add(t1.prefillForwards, 1, forwards.1);
      OneReached(t1, forwards.1, n, f, was, done + {Forwards} + {Decodes}, Prefills,
                 t1.(prefillForwards := prefills.0), prefills.1);
      assert done + {Forwards} + {Decodes} + {Prefills} == AFTER_KIND;
    } else {
      NoneReached(t1, forwards.1, n, f, was, done + {Forwards}, Prefills);
      var decodes := Add(t1.decodeForwards, 1, forwards.1);
      OneReached(t1, forwards.1, n, f, was, done + {Forwards} + {Prefills}, Decodes,
                 t1.(decodeForwards := decodes.0), decodes.1);
      assert done + {Forwards} + {Prefills} + {Decodes} == AFTER_KIND;
    }
  }

  lemma TimesReached(t: Totals, o: bool, n: Counter -> nat, f: ForwardMeasurement, was: bool, done: set<Counter>)
    requires Reached(t, o, n, f, was, done) && Wall !in done && Setup !in done && Readback !in done
    ensures var r := AddTimes(t, f, o); Reached(r.0, r.1, n, f, was, done + {Wall} + {Setup} + {Readback})
  {
    var wall := Add(t.forwardWallNs, f.forwardWallNs, o);
    var t1 := t.(forwardWallNs := wall.0);
    OneReached(t, o, n, f, was, done, Wall, t1, wall.1);
    var setup := Add(t1.setupWallNs, f.setupWallNs, wall.1);
    var t2 := t1.(setupWallNs := setup.0);
    OneReached(t1, wall.1, n, f, was, done + {Wall}, Setup, t2, setup.1);
    var readback := Add(t2.readbackWallNs, f.readbackWallNs, setup.1);
    OneReached(t2, setup.1, n, f, was, done + {Wall} + {Setup}, Readback, t2.(readbackWallNs := readback.0), readback.1);
  }

  lemma SubmissionsReached(t: Totals, o: bool, n: Counter -> nat, f: ForwardMeasurement, was: bool, done: set<Counter>)
    requires Reached(t, o, n, f, was, done) && Submissions !in done && Submit !in done && Poll !in done
    ensures var r := AddSubmissions(t, f, o); Reached(r.0, r.1, n, f, was, done + {Submissions} + {Submit} + {Poll})
  {
    var submissions := Add(t.submissionCount, f.submissionCount, o);
    var t1 := t.(submissionCount := submissions.0);
    OneReached(t, o, n, f, was, done, Submissions, t1, submissions.1);
    var submit := Add(t1.submitNs, f.submitNs, submissions.1);
    var t2 := t1.(submitNs := submit.0);
    OneReached(t1, submissions.1, n, f, was, done + {Submissions}, Submit, t2, submit.1);
    var poll := Add(t2.pollNs, f.pollNs, submit.1);
    OneReached(t2, submit.1, n, f, was, done + {Submissions} + {Submit}, Poll, t2.(pollNs := poll.0), poll.1);
  }

  const ALL: set<Counter> := AFTER_KIND + {Wall} + {Setup} + {Readback} + {Submissions} + {Submit} + {Poll}

  lemma AllIsAll(c: Counter)
    ensures c in ALL
  {
  }

  lemma TotalSnoc(events: seq<Event>, e: Event, c: Counter)
    ensures Total(events + [e], c) == Total(events, c) + if e.Head? then Share(e.frame, c) else 0
  {
    Snoc(events, e);
  }

  lemma StageTotalSnoc(events: seq<Event>, e: Event, k: Key, m: Measure)
    ensures StageTotal(events + [e], k, m)
         == StageTotal(events, k, m) + if e.Sample? && e.key == k then ShareOf(e.sample, m) else 0
  {
    Snoc(events, e);
  }

  lemma LostSnoc(events: seq<Event>, e: Event, kept: set<Key>)
    ensures Lost(events + [e], kept)
         == Lost(events, kept) + if e.Head? then e.frame.droppedPasses else if e.key in kept then 0 else 1
  {
    Snoc(events, e);
  }

  lemma FirstReached(t: Totals, o: bool, n: Counter -> nat, f: ForwardMeasurement)
    requires Reached(t, o, n, f, o, {})
    ensures var work := AddWork(t, f, o);
            var r := AddForward(work.0, f, work.1);
            Reached(r.0, r.1, n, f, o, AFTER_KIND)
  {
    WorkReached(t, o, n, f, o);
    KindReached(AddWork(t, f, o).0, AddWork(t, f, o).1, n, f, o);
  }

  lemma RestReached(t: Totals, o: bool, n: Counter -> nat, f: ForwardMeasurement, was: bool)
    requires Reached(t, o, n, f, was, AFTER_KIND)
    ensures var times := AddTimes(t, f, o);
            var r := AddSubmissions(times.0, f, times.1);
            Reached(r.0, r.1, n, f, was, ALL)
  {
    TimesReached(t, o, n, f, was, AFTER_KIND);
    var times := AddTimes(t, f, o);
    SubmissionsReached(times.0, times.1, n, f, was, AFTER_KIND + {Wall} + {Setup} + {Readback});
  }

  lemma TotalsReached(t: Totals, o: bool, n: Counter -> nat, f: ForwardMeasurement)
    requires Reached(t, o, n, f, o, {})
    ensures var work := AddWork(t, f, o);
      var forward := AddForward(work.0, f, work.1);
      var times := AddTimes(forward.0, f, forward.1);
      var r := AddSubmissions(times.0, f, times.1);
      Reached(r.0, r.1, n, f, o, ALL)
  {
    FirstReached(t, o, n, f);
    var work := AddWork(t, f, o);
    var forward := AddForward(work.0, f, work.1);
    RestReached(forward.0, forward.1, n, f, o);
  }

  lemma AllReached(t: Totals, o: bool, n: Counter -> nat, f: ForwardMeasurement, was: bool)
    requires Reached(t, o, n, f, was, ALL)
    ensures forall c: Counter :: Standing(t, c) == Saturated(n(c) + Share(f, c))
    ensures o <==> was || exists c: Counter :: Over(n(c), Share(f, c))
  {
    forall c: Counter
      ensures c in ALL
    {
      AllIsAll(c);
    }
  }

  /** A head adds its shares and raises the flag when one does not fit. */
  lemma HeadAdds(d: Data, n: Counter -> nat, lost: nat, f: ForwardMeasurement)
    requires forall c: Counter :: Standing(d.totals, c) == Saturated(n(c)) && (n(c) > MAX_U64 ==> d.overflow)
    requires d.dropped == Saturated(lost) && (lost > MAX_U64 ==> d.overflow)
    ensures var r := TakeHead(d, f);
      && r.stages == d.stages && r.dropped == Saturated(lost + f.droppedPasses)
      && (forall c: Counter :: Standing(r.totals, c) == Saturated(n(c) + Share(f, c)))
      && (r.overflow <==>
            d.overflow || f.counterOverflow || (exists c: Counter :: Over(n(c), Share(f, c))) || Over(lost, f.droppedPasses))
  {
    var was := d.overflow || f.counterOverflow;
    TotalsReached(d.totals, was, n, f);
    var work := AddWork(d.totals, f, was);
    var forward := AddForward(work.0, f, work.1);
    var times := AddTimes(forward.0, f, forward.1);
    var submissions := AddSubmissions(times.0, f, times.1);
    AllReached(submissions.0, submissions.1, n, f, was);
    AddStandsFor(lost, f.droppedPasses, submissions.1);
  }

  lemma HeadStands(d: Data, events: seq<Event>, f: ForwardMeasurement)
    requires StandsFor(d, events)
    ensures StandsFor(TakeHead(d, f), events + [Head(f)])
  {
    var all, kept, r := events + [Head(f)], d.stages.Keys, TakeHead(d, f);
    HeadAdds(d, c => Total(events, c), Lost(events, kept), f);
    forall c: Counter
      ensures Total(all, c) == Total(events, c) + Share(f, c)
    {
      TotalSnoc(events, Head(f), c);
    }
    forall k: Key, m: Measure
      ensures StageTotal(all, k, m) == StageTotal(events, k, m)
    {
      StageTotalSnoc(events, Head(f), k, m);
    }
    LostSnoc(events, Head(f), kept);
    FlaggedSnoc(events, Head(f));
    HeadFlags(d, events, f, r);
  }

  lemma HeadFlags(d: Data, events: seq<Event>, f: ForwardMeasurement, r: Data)
    requires d.overflow <==> Flagged(events) || Exceeds(events, d.stages.Keys)
    requires r.overflow <==>
      d.overflow || f.counterOverflow || (exists c: Counter :: Over(Total(events, c), Share(f, c)))
      || Over(Lost(events, d.stages.Keys), f.droppedPasses)
    requires forall c: Counter :: Total(events + [Head(f)], c) == Total(events, c) + Share(f, c)
    requires forall k: Key, m: Measure :: StageTotal(events + [Head(f)], k, m) == StageTotal(events, k, m)
    requires Lost(events + [Head(f)], d.stages.Keys) == Lost(events, d.stages.Keys) + f.droppedPasses
    requires Flagged(events + [Head(f)]) <==> Flagged(events) || f.counterOverflow
    ensures r.overflow <==> Flagged(events + [Head(f)]) || Exceeds(events + [Head(f)], d.stages.Keys)
  {
  }

  // --- Samples ------------------------------------------------------------

  /** Measures in `done` have had their share of a sample added to the exact
      sums `n`, and the flag tells of them. */
  ghost predicate Counted(a: Aggregate, o: bool, n: Measure -> nat, s: StageMeasurement, was: bool, done: set<Measure>) {
    && (forall m: Measure :: StandingOf(a, m) == Saturated(n(m) + if m in done then ShareOf(s, m) else 0))
    && (forall m: Measure :: n(m) > MAX_U64 ==> was)
    && (o <==> was || exists m: Measure :: m in done && Over(n(m), ShareOf(s, m)))
  }

  lemma OneCounted(a: Aggregate, o: bool, n: Measure -> nat, s: StageMeasurement, was: bool, done: set<Measure>,
                   m: Measure, a2: Aggregate, o2: bool)
    requires Counted(a, o, n, s, was, done) && m !in done
    requires (StandingOf(a2, m), o2) == Add(StandingOf(a, m), ShareOf(s, m), o)
    requires forall x: Measure :: x != m ==> StandingOf(a2, x) == StandingOf(a, x)
    ensures Counted(a2, o2, n, s, was, done + {m})
  {
    AddStandsFor(n(m), ShareOf(s, m), o);
    assert Over(n(m), ShareOf(s, m)) ==> m in done + {m};
  }

  const AFTER_CALL: set<Measure> := {Calls, ComputePasses, StageDispatches, HostNs}

  lemma CallCounted(a: Aggregate, o: bool, n: Measure -> nat, s: StageMeasurement, was: bool)
    requires Counted(a, o, n, s, was, {})
    ensures var r := AddCall(a, s, o); Counted(r.0, r.1, n, s, was, AFTER_CALL)
  {
    var calls := Add(a.calls, 1, o);
    var a1 := a.(calls := calls.0);
    OneCounted(a, o, n, s, was, {}, Calls, a1, calls.1);
    var passes := Add(a1.computePasses, 1, calls.1);
    var a2 := a1.(computePasses := passes.0);
    OneCounted(a1, calls.1, n, s, was, {} + {Calls}, ComputePasses, a2, passes.1);
    var dispatches := Add(a2.dispatches, s.dispatches, passes.1);
    var a3 := a2.(dispatches := dispatches.0);
    OneCounted(a2, passes.1, n, s, was, {} + {Calls} + {ComputePasses}, StageDispatches, a3, dispatches.1);
    var host := Add(a3.hostEncodeNs, s.hostEncodeNs, dispatches.1);
    var a4 := a3.(hostEncodeNs := host.0);
    OneCounted(a3, dispatches.1, n, s, was, {} + {Calls} + {ComputePasses} + {StageDispatches}, HostNs, a4, host.1);
    assert {} + {Calls} + {ComputePasses} + {StageDispatches} + {HostNs} == AFTER_CALL;
  }

  function GpuMeasures(s: StageMeasurement): set<Measure> {
    if s.gpuNs.Some? then AFTER_CALL + {GpuNs} + {Measured} else AFTER_CALL + {Missing(s.missing)}
  }

  lemma GpuCounted(a: Aggregate, o: bool, n: Measure -> nat, s: StageMeasurement, was: bool)
    requires Counted(a, o, n, s, was, AFTER_CALL)
    ensures var r := AddGpu(a, s, o); Counted(r.0, r.1, n, s, was, GpuMeasures(s))
  {
    match s.gpuNs
    case Some(gpu) =>
      var sum := Add(StandingOf(a, GpuNs), gpu, o);
      var a1 := a.(gpuNsSum := Some(sum.0));
      OneCounted(a, o, n, s, was, AFTER_CALL, GpuNs, a1, sum.1);
      var measured := Add(a1.gpuMeasuredCalls, 1, sum.1);
      OneCounted(a1, sum.1, n, s, was, AFTER_CALL + {GpuNs}, Measured, a1.(gpuMeasuredCalls := measured.0), measured.1);
    case None =>
      var m := Missing(s.missing);
      var missing := Add(StandingOf(a, m), 1, o);
      OneCounted(a, o, n, s, was, AFTER_CALL, m, a.(missingGpu := a.missingGpu[s.missing := missing.0]), missing.1);
  }

  lemma OthersHaveNoShare(s: StageMeasurement, m: Measure)
    requires m !in GpuMeasures(s)
    ensures ShareOf(s, m) == 0
  {
  }

  /** A sample adds its shares to its stage and raises the flag when one does
      not fit. */
  lemma SampleAdds(a: Aggregate, o: bool, n: Measure -> nat, s: StageMeasurement)
    requires forall m: Measure :: StandingOf(a, m) == Saturated(n(m)) && (n(m) > MAX_U64 ==> o)
    ensures var r := Aggregated(a, s, o);
      && (forall m: Measure :: StandingOf(r.0, m) == Saturated(n(m) + ShareOf(s, m)))
      && (r.1 <==> o || exists m: Measure :: Over(n(m), ShareOf(s, m)))
  {
    assert Counted(a, o, n, s, o, {});
    CallCounted(a, o, n, s, o);
    var called := AddCall(a, s, o);
    GpuCounted(called.0, called.1, n, s, o);
    forall m: Measure | m !in GpuMeasures(s)
      ensures ShareOf(s, m) == 0
    {
      OthersHaveNoShare(s, m);
    }
  }
}
