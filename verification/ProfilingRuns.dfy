/** Conservation in profiling, over any sequence of frames. */
module ProfilingRuns {
  import opened Profiling
  import opened ProfilingLaws

  // --- One sample ---------------------------------------------------------

  predicate Room(d: Data, k: Key) {
    k in d.stages || |d.stages| < MAX_KEYS
  }

  lemma {:induction false} NoSamplesNoTotal(events: seq<Event>, k: Key, m: Measure)
    requires forall i :: 0 <= i < |events| ==> events[i].Sample? ==> events[i].key != k
    ensures StageTotal(events, k, m) == 0
  {
    if events != [] {
      assert events[|events| - 1].Sample? ==> events[|events| - 1].key != k;
      NoSamplesNoTotal(events[..|events| - 1], k, m);
    }
  }

  lemma {:induction false} NoSamplesNoLoss(events: seq<Event>, kept: set<Key>, k: Key)
    requires forall i :: 0 <= i < |events| ==> events[i].Sample? ==> events[i].key != k
    ensures Lost(events, kept + {k}) == Lost(events, kept)
  {
    if events != [] {
      assert events[|events| - 1].Sample? ==> events[|events| - 1].key != k;
      NoSamplesNoLoss(events[..|events| - 1], kept, k);
    }
  }

  /** A sample for which there is no room is counted as dropped. */
  lemma DropStands(d: Data, events: seq<Event>, k: Key, s: StageMeasurement)
    requires StandsFor(d, events) && !Room(d, k)
    ensures StandsFor(TakeSample(d, k, s), events + [Sample(k, s)])
  {
    var e := Sample(k, s);
    var all, kept := events + [e], d.stages.Keys;
    AddStandsFor(Lost(events, kept), 1, d.overflow);
    LostSnoc(events, e, kept);
    FlaggedSnoc(events, e);
    forall c: Counter
      ensures Total(all, c) == Total(events, c)
    {
      TotalSnoc(events, e, c);
    }
    forall k2: Key, m: Measure | k2 in kept
      ensures StageTotal(all, k2, m) == StageTotal(events, k2, m)
    {
      StageTotalSnoc(events, e, k2, m);
    }
    DropFlags(events, all, kept);
    assert forall i :: 0 <= i < |events| ==> all[i] == events[i];
  }

  lemma DropFlags(events: seq<Event>, all: seq<Event>, kept: set<Key>)
    requires forall c: Counter :: Total(all, c) == Total(events, c)
    requires forall k: Key, m: Measure :: k in kept ==> StageTotal(all, k, m) == StageTotal(events, k, m)
    requires Lost(all, kept) == Lost(events, kept) + 1
    ensures Exceeds(all, kept) <==> Exceeds(events, kept) || Over(Lost(events, kept), 1)
  {
  }

  /** A stage without samples so far has nothing to its name. */
  lemma StageStood(d: Data, events: seq<Event>, k: Key)
    requires StandsFor(d, events) && Room(d, k)
    ensures var was := if k in d.stages then d.stages[k] else NO_CALLS;
      forall m: Measure :: StandingOf(was, m) == Saturated(StageTotal(events, k, m))
                           && (StageTotal(events, k, m) > MAX_U64 ==> d.overflow)
    ensures k !in d.stages ==> forall i :: 0 <= i < |events| ==> events[i].Sample? ==> events[i].key != k
  {
    if k !in d.stages {
      forall m: Measure
        ensures StageTotal(events, k, m) == 0
      {
        NoSamplesNoTotal(events, k, m);
      }
    }
  }

  lemma KeepLoses(d: Data, events: seq<Event>, k: Key, s: StageMeasurement)
    requires StandsFor(d, events) && Room(d, k)
    ensures Lost(events + [Sample(k, s)], d.stages.Keys + {k}) == Lost(events, d.stages.Keys)
  {
    LostSnoc(events, Sample(k, s), d.stages.Keys + {k});
    StageStood(d, events, k);
    if k in d.stages {
      assert d.stages.Keys + {k} == d.stages.Keys;
    } else {
      NoSamplesNoLoss(events, d.stages.Keys, k);
    }
  }

  lemma KeepFlags(events: seq<Event>, all: seq<Event>, kept: set<Key>, k: Key, s: StageMeasurement)
    requires forall c: Counter :: Total(all, c) == Total(events, c)
    requires forall k2: Key, m: Measure ::
               StageTotal(all, k2, m) == StageTotal(events, k2, m) + if k2 == k then ShareOf(s, m) else 0
    requires Lost(all, kept + {k}) == Lost(events, kept)
    requires k !in kept ==> forall m: Measure :: StageTotal(events, k, m) == 0
    ensures Exceeds(all, kept + {k}) <==>
      Exceeds(events, kept) || exists m: Measure :: Over(StageTotal(events, k, m), ShareOf(s, m))
  {
    if exists m: Measure :: Over(StageTotal(events, k, m), ShareOf(s, m)) {
      var m: Measure :| Over(StageTotal(events, k, m), ShareOf(s, m));
      assert StageTotal(all, k, m) > MAX_U64;
    }
    if k2: Key, m: Measure :| k2 in kept && StageTotal(events, k2, m) > MAX_U64 {
      assert StageTotal(all, k2, m) > MAX_U64;
    }
    if k2: Key, m: Measure :| k2 in kept + {k} && StageTotal(all, k2, m) > MAX_U64 {
      if k2 == k {
        assert Over(StageTotal(events, k, m), ShareOf(s, m));
      }
    }
  }

  lemma KeepShape(d: Data, k: Key, s: StageMeasurement)
    requires Room(d, k)
    ensures var r := TakeSample(d, k, s);
      var a := Aggregated(if k in d.stages then d.stages[k] else NO_CALLS, s, d.overflow);
      && r == d.(stages := r.stages, overflow := a.1) && r.stages.Keys == d.stages.Keys + {k}
      && r.stages[k] == a.0 && (forall x: Key :: x in d.stages && x != k ==> r.stages[x] == d.stages[x])
  {
  }

  /** What a kept sample does to its stage and to the flag. */
  lemma KeepAdds(d: Data, events: seq<Event>, k: Key, s: StageMeasurement)
    requires StandsFor(d, events) && Room(d, k)
    ensures var r := TakeSample(d, k, s);
      && r == d.(stages := r.stages, overflow := r.overflow) && r.stages.Keys == d.stages.Keys + {k}
      && (forall x: Key :: x in d.stages && x != k ==> r.stages[x] == d.stages[x])
      && (forall m: Measure :: StandingOf(r.stages[k], m) == Saturated(StageTotal(events, k, m) + ShareOf(s, m)))
      && (r.overflow <==> d.overflow || exists m: Measure :: Over(StageTotal(events, k, m), ShareOf(s, m)))
  {
    var was := if k in d.stages then d.stages[k] else NO_CALLS;
    StageStood(d, events, k);
    SampleAdds(was, d.overflow, m => StageTotal(events, k, m), s);
    KeepShape(d, k, s);
  }

  lemma KeepStages(d: Data, events: seq<Event>, k: Key, s: StageMeasurement)
    requires StandsFor(d, events) && Room(d, k)
    ensures var r := TakeSample(d, k, s);
      forall x: Key, m: Measure :: x in r.stages ==>
        StandingOf(r.stages[x], m) == Saturated(StageTotal(events + [Sample(k, s)], x, m))
  {
    KeepAdds(d, events, k, s);
    var r := TakeSample(d, k, s);
    forall x: Key, m: Measure | x in r.stages
      ensures StandingOf(r.stages[x], m) == Saturated(StageTotal(events + [Sample(k, s)], x, m))
    {
      StageTotalSnoc(events, Sample(k, s), x, m);
      assert x in d.stages || x == k;
    }
  }

  lemma KeepOverflow(d: Data, events: seq<Event>, k: Key, s: StageMeasurement)
    requires StandsFor(d, events) && Room(d, k)
    ensures var r, all := TakeSample(d, k, s), events + [Sample(k, s)];
      r.overflow <==> Flagged(all) || Exceeds(all, r.stages.Keys)
  {
    var e := Sample(k, s);
    KeepAdds(d, events, k, s);
    KeepLoses(d, events, k, s);
    FlaggedSnoc(events, e);
    forall c: Counter
      ensures Total(events + [e], c) == Total(events, c)
    {
      TotalSnoc(events, e, c);
    }
    forall x: Key, m: Measure
      ensures StageTotal(events + [e], x, m) == StageTotal(events, x, m) + if x == k then ShareOf(s, m) else 0
    {
      StageTotalSnoc(events, e, x, m);
    }
    forall m: Measure | k !in d.stages
      ensures StageTotal(events, k, m) == 0
    {
      StageStood(d, events, k);
      NoSamplesNoTotal(events, k, m);
    }
    KeepFlags(events, events + [e], d.stages.Keys, k, s);
  }

  lemma KeepRoom(d: Data, events: seq<Event>, k: Key, s: StageMeasurement)
    requires StandsFor(d, events) && Room(d, k)
    ensures var r, all := TakeSample(d, k, s), events + [Sample(k, s)];
      && |r.stages| <= MAX_KEYS
      && forall i :: 0 <= i < |all| ==> all[i].Sample? && all[i].key !in r.stages ==> |r.stages| == MAX_KEYS
  {
    KeepAdds(d, events, k, s);
    var r, all := TakeSample(d, k, s), events + [Sample(k, s)];
    assert |r.stages| == |r.stages.Keys| && |d.stages| == |d.stages.Keys|;
    if k in d.stages {
      assert r.stages.Keys == d.stages.Keys;
    }
    forall i | 0 <= i < |all| && all[i].Sample? && all[i].key !in r.stages
      ensures |r.stages| == MAX_KEYS
    {
      assert i < |events| && all[i] == events[i];
      assert events[i].key !in d.stages;
    }
  }

  /** A sample of a stage that is kept, or newly given room. */
  lemma KeepStands(d: Data, events: seq<Event>, k: Key, s: StageMeasurement)
    requires StandsFor(d, events) && Room(d, k)
    ensures StandsFor(TakeSample(d, k, s), events + [Sample(k, s)])
  {
    KeepAdds(d, events, k, s);
    KeepLoses(d, events, k, s);
    forall c: Counter
      ensures Total(events + [Sample(k, s)], c) == Total(events, c)
    {
      TotalSnoc(events, Sample(k, s), c);
    }
    KeepStages(d, events, k, s);
    KeepOverflow(d, events, k, s);
    KeepRoom(d, events, k, s);
  }

  // --- Any run ------------------------------------------------------------

  lemma NothingYet()
    ensures StandsFor(EMPTY, [])
  {
  }

  /** Whatever is recorded, every number is the exact sum, cut off at the
      greatest word, and the flag is up exactly when a frame came flagged or
      some sum was cut off. */
  lemma {:induction false} NumbersStand(events: seq<Event>)
    ensures StandsFor(TakeAll(EMPTY, events), events)
  {
    if events == [] {
      NothingYet();
    } else {
      var init, e := events[..|events| - 1], events[|events| - 1];
      NumbersStand(init);
      var d := TakeAll(EMPTY, init);
      assert events == init + [e];
      match e
      case Head(f) => HeadStands(d, init, f);
      case Sample(k, s) =>
        if Room(d, k) {
          KeepStands(d, init, k, s);
        } else {
          DropStands(d, init, k, s);
        }
    }
  }

  /** A raised flag stays raised, from any data. */
  lemma {:induction false} FlagStays(d: Data, events: seq<Event>)
    requires d.overflow
    ensures TakeAll(d, events).overflow
  {
    if events != [] {
      FlagStays(d, events[..|events| - 1]);
      FlagStaysOnce(TakeAll(d, events[..|events| - 1]), events[|events| - 1]);
    }
  }

  lemma FlagStaysOnce(d: Data, e: Event)
    requires d.overflow
    ensures Take(d, e).overflow
  {
    match e
    case Head(f) =>
      assert AddWork(d.totals, f, true).1;
      assert forall t: Totals :: AddForward(t, f, true).1;
      assert forall t: Totals :: AddTimes(t, f, true).1;
      assert forall t: Totals :: AddSubmissions(t, f, true).1;
    case Sample(k, s) =>
      assert forall a: Aggregate :: AddCall(a, s, true).1;
      assert forall a: Aggregate :: AddGpu(a, s, true).1;
  }

  // --- Extents ------------------------------------------------------------

  predicate Headless(events: seq<Event>) {
    forall i :: 0 <= i < |events| ==> events[i].Sample?
  }

  predicate Bounds(e: Extents, f: ForwardMeasurement) {
    e.minBatch <= f.batchSize <= e.maxBatch && f.currentPos <= e.maxPos && f.currentPos + f.batchSize <= e.maxSeqLen
  }

  datatype Extent = MinBatch | MaxBatch | MaxPos | MaxSeqLen

  function Bound(e: Extents, x: Extent): nat {
    match x
    case MinBatch => e.minBatch
    case MaxBatch => e.maxBatch
    case MaxPos => e.maxPos
    case MaxSeqLen => e.maxSeqLen
  }

  function Size(f: ForwardMeasurement, x: Extent): nat {
    match x
    case MinBatch => f.batchSize
    case MaxBatch => f.batchSize
    case MaxPos => f.currentPos
    case MaxSeqLen => f.currentPos + f.batchSize
  }

  predicate SomeFrame(events: seq<Event>, x: Extent, size: nat) {
    exists i :: 0 <= i < |events| && events[i].Head? && Size(events[i].frame, x) == size
  }

  /** The extents bound every frame, and each bound is some frame's own. */
  ghost predicate Tight(e: Extents, events: seq<Event>) {
    && (forall i :: 0 <= i < |events| && events[i].Head? ==> Bounds(e, events[i].frame))
    && (forall x: Extent :: SomeFrame(events, x, Bound(e, x)))
  }

  lemma {:induction false} HeadlessHasNoForwards(events: seq<Event>)
    ensures Total(events, Forwards) == 0 <==> Headless(events)
  {
    if events != [] {
      var init, last := events[..|events| - 1], events[|events| - 1];
      HeadlessHasNoForwards(init);
      assert forall i :: 0 <= i < |init| ==> init[i] == events[i];
      assert Headless(events) <==> Headless(init) && last.Sample?;
    }
  }

  lemma SomeFrameSnoc(events: seq<Event>, e: Event, x: Extent, size: nat)
    ensures SomeFrame(events, x, size) || (e.Head? && Size(e.frame, x) == size) ==> SomeFrame(events + [e], x, size)
  {
    var all := events + [e];
    assert all[|events|] == e;
    if i :| 0 <= i < |events| && events[i].Head? && Size(events[i].frame, x) == size {
      assert all[i] == events[i];
    }
  }

  lemma ExtentsSnoc(e: Extents, events: seq<Event>, f: ForwardMeasurement)
    requires if Headless(events) then e == EMPTY.extents else Tight(e, events)
    ensures Tight(Extended(e, f, Headless(events)), events + [Head(f)])
  {
    var all, r := events + [Head(f)], Extended(e, f, Headless(events));
    forall i | 0 <= i < |all| && all[i].Head?
      ensures Bounds(r, all[i].frame)
    {
      assert i < |events| ==> all[i] == events[i];
    }
    forall x: Extent
      ensures SomeFrame(all, x, Bound(r, x))
    {
      SomeFrameSnoc(events, Head(f), x, Bound(r, x));
      assert Bound(r, x) == Size(f, x) || (!Headless(events) && Bound(r, x) == Bound(e, x));
    }
  }

  /** The reported extents are exactly those of the frames recorded. */
  lemma {:induction false} ExtentsAreTight(events: seq<Event>)
    ensures var d := TakeAll(EMPTY, events);
      if Headless(events) then d.extents == EMPTY.extents else Tight(d.extents, events)
  {
    if events != [] {
      var init, e := events[..|events| - 1], events[|events| - 1];
      var d := TakeAll(EMPTY, init);
      assert events == init + [e];
      ExtentsAreTight(init);
      NumbersStand(init);
      HeadlessHasNoForwards(init);
      if e.Head? {
        assert Standing(d.totals, Forwards) == Saturated(Total(init, Forwards));
        assert events[|events| - 1].Head?;
        ExtentsSnoc(d.extents, init, e.frame);
      } else {
        SampleKeepsExtents(d, init, e);
      }
    }
  }

  lemma SampleKeepsExtents(d: Data, events: seq<Event>, e: Event)
    requires e.Sample?
    ensures Take(d, e).extents == d.extents && (Headless(events + [e]) <==> Headless(events))
    ensures Tight(d.extents, events) ==> Tight(d.extents, events + [e])
  {
    var all := events + [e];
    assert forall i :: 0 <= i < |events| ==> all[i] == events[i];
    if Tight(d.extents, events) {
      forall x: Extent
        ensures SomeFrame(all, x, Bound(d.extents, x))
      {
        SomeFrameSnoc(events, e, x, Bound(d.extents, x));
      }
    }
  }

  // --- Conservation -------------------------------------------------------

  function Samples(events: seq<Event>): nat {
    if events == [] then 0
    else Samples(events[..|events| - 1]) + if events[|events| - 1].Sample? then 1 else 0
  }

  /** Passes the frames themselves report as dropped. */
  function Reported(events: seq<Event>): nat {
    if events == [] then 0
    else
      var last := events[|events| - 1];
      Reported(events[..|events| - 1]) + if last.Head? then last.frame.droppedPasses else 0
  }

  ghost function PickKey(keys: set<Key>): (k: Key)
    requires keys != {}
    ensures k in keys
  {
    var k :| k in keys;
    k
  }

  /** The calls of all stages together. */
  ghost function SumCalls(stages: map<Key, Aggregate>, keys: set<Key>): nat
    requires keys <= stages.Keys
  {
    if keys == {} then 0
    else
      var k := PickKey(keys);
      stages[k].calls + SumCalls(stages, keys - {k})
  }

  ghost function SumTotals(events: seq<Event>, keys: set<Key>): nat {
    if keys == {} then 0
    else
      var k := PickKey(keys);
      StageTotal(events, k, Calls) + SumTotals(events, keys - {k})
  }

  lemma {:induction false} SumTotalsSnoc(events: seq<Event>, e: Event, keys: set<Key>)
    ensures SumTotals(events + [e], keys) == SumTotals(events, keys) + if e.Sample? && e.key in keys then 1 else 0
    decreases |keys|
  {
    if keys != {} {
      var k := PickKey(keys);
      StageTotalSnoc(events, e, k, Calls);
      SumTotalsSnoc(events, e, keys - {k});
    }
  }

  lemma {:induction false} SumTotalsNone(keys: set<Key>)
    ensures SumTotals([], keys) == 0
    decreases |keys|
  {
    if keys != {} {
      SumTotalsNone(keys - {PickKey(keys)});
    }
  }

  /** Every sample is in one stage or lost. */
  lemma {:induction false} SamplesSplit(events: seq<Event>, keys: set<Key>)
    ensures SumTotals(events, keys) + Lost(events, keys) == Samples(events) + Reported(events)
  {
    if events == [] {
      SumTotalsNone(keys);
    } else {
      var init, e := events[..|events| - 1], events[|events| - 1];
      assert events == init + [e];
      SamplesSplit(init, keys);
      SumTotalsSnoc(init, e, keys);
    }
  }

  lemma {:induction false} SumsAgree(d: Data, events: seq<Event>, keys: set<Key>)
    requires StandsFor(d, events) && !d.overflow && keys <= d.stages.Keys
    ensures SumCalls(d.stages, keys) == SumTotals(events, keys)
    decreases |keys|
  {
    if keys != {} {
      var k := PickKey(keys);
      assert StandingOf(d.stages[k], Calls) == Saturated(StageTotal(events, k, Calls));
      SumsAgree(d, events, keys - {k});
    }
  }

  function MissingCalls(a: Aggregate): nat {
    StandingOf(a, Missing(Unsupported)) + StandingOf(a, Missing(DeviceFeatureRequestFailed))
    + StandingOf(a, Missing(HostOnly)) + StandingOf(a, Missing(Capacity))
    + StandingOf(a, Missing(InvalidTimestamp)) + StandingOf(a, Missing(ReadbackTimeout))
  }

  lemma {:induction false} CallsSplit(events: seq<Event>, k: Key)
    ensures StageTotal(events, k, Calls)
         == StageTotal(events, k, Measured)
            + StageTotal(events, k, Missing(Unsupported)) + StageTotal(events, k, Missing(DeviceFeatureRequestFailed))
            + StageTotal(events, k, Missing(HostOnly)) + StageTotal(events, k, Missing(Capacity))
            + StageTotal(events, k, Missing(InvalidTimestamp)) + StageTotal(events, k, Missing(ReadbackTimeout))
  {
    if events != [] {
      CallsSplit(events[..|events| - 1], k);
      if events[|events| - 1].Sample? {
        OneCallSplit(events[|events| - 1].sample);
      }
    }
  }

  lemma OneCallSplit(s: StageMeasurement)
    ensures ShareOf(s, Calls)
         == ShareOf(s, Measured)
            + ShareOf(s, Missing(Unsupported)) + ShareOf(s, Missing(DeviceFeatureRequestFailed))
            + ShareOf(s, Missing(HostOnly)) + ShareOf(s, Missing(Capacity))
            + ShareOf(s, Missing(InvalidTimestamp)) + ShareOf(s, Missing(ReadbackTimeout))
  {
  }

  /** The events of frames, in order. */
  function FrameEvents(frames: seq<ForwardMeasurement>): seq<Event> {
    if frames == [] then [] else FrameEvents(frames[..|frames| - 1]) + EventsOf(frames[|frames| - 1])
  }

  function AfterFrames(frames: seq<ForwardMeasurement>): Data {
    if frames == [] then EMPTY else TakeAll(AfterFrames(frames[..|frames| - 1]), EventsOf(frames[|frames| - 1]))
  }

  lemma {:induction false} TakeAppend(d: Data, a: seq<Event>, b: seq<Event>)
    ensures TakeAll(d, a + b) == TakeAll(TakeAll(d, a), b)
  {
    if b == [] {
      assert a + b == a;
    } else {
      assert (a + b)[..|a + b| - 1] == a + b[..|b| - 1];
      TakeAppend(d, a, b[..|b| - 1]);
    }
  }

  lemma {:induction false} FramesAreEvents(frames: seq<ForwardMeasurement>)
    ensures AfterFrames(frames) == TakeAll(EMPTY, FrameEvents(frames))
  {
    if frames != [] {
      FramesAreEvents(frames[..|frames| - 1]);
      TakeAppend(EMPTY, FrameEvents(frames[..|frames| - 1]), EventsOf(frames[|frames| - 1]));
    }
  }

  lemma StageAccounted(d: Data, events: seq<Event>, k: Key)
    requires StandsFor(d, events) && !d.overflow && k in d.stages
    ensures d.stages[k].calls == d.stages[k].gpuMeasuredCalls + MissingCalls(d.stages[k])
  {
    CallsSplit(events, k);
    assert forall m: Measure :: StandingOf(d.stages[k], m) == Saturated(StageTotal(events, k, m));
    assert forall m: Measure :: StageTotal(events, k, m) <= MAX_U64;
    assert StandingOf(d.stages[k], Calls) == StageTotal(events, k, Calls);
    assert StandingOf(d.stages[k], Measured) == StageTotal(events, k, Measured);
  }

  lemma AllAccounted(d: Data, events: seq<Event>)
    requires StandsFor(d, events) && !d.overflow
    ensures SumCalls(d.stages, d.stages.Keys) + d.dropped == Samples(events) + Reported(events)
  {
    SumsAgree(d, events, d.stages.Keys);
    SamplesSplit(events, d.stages.Keys);
  }

  /** After any sequence of frames: while the flag is down every counter is the
      exact sum, the calls of the stages and the drops together are all samples
      and reported drops, and each stage's calls are measured or accounted for;
      the stages never outgrow their bound. */
  lemma NothingGoesMissing(frames: seq<ForwardMeasurement>, c: Counter, k: Key)
    ensures var d, events := AfterFrames(frames), FrameEvents(frames);
      && |d.stages| <= MAX_KEYS
      && (!d.overflow ==>
            && Standing(d.totals, c) == Total(events, c)
            && SumCalls(d.stages, d.stages.Keys) + d.dropped == Samples(events) + Reported(events)
            && (k in d.stages ==> d.stages[k].calls == d.stages[k].gpuMeasuredCalls + MissingCalls(d.stages[k])))
  {
    var d, events := AfterFrames(frames), FrameEvents(frames);
    FramesAreEvents(frames);
    NumbersStand(events);
    if !d.overflow {
      AllAccounted(d, events);
      if k in d.stages {
        StageAccounted(d, events, k);
      }
    }
  }
}
