/** The profiling aggregate of a generation: saturating counters, a bounded map
    of stages, and a flag that says when a number can no longer be trusted. */
module Profiling {
  import opened Prelude

  const MAX_U64: u64 := TWO_TO_THE_64 - 1
  const MAX_KEYS: nat := 4096

  datatype ProfilePhase = Prefill | Decode

  datatype KernelStage =
    | AttnNorm | Qkv | QkNorm | AttnOut | AttnProj | PostAttnNorm
    | FfnNorm | FfnProj | FfnDown | PostFfnNorm | FinalNorm | LmHead

  datatype MissingGpu =
    | Unsupported | DeviceFeatureRequestFailed | HostOnly | Capacity | InvalidTimestamp | ReadbackTimeout

  datatype StageMeasurement = StageMeasurement(
    layer: Option<u32>,
    stage: KernelStage,
    hostEncodeNs: u64,
    dispatches: u64,
    gpuNs: Option<u64>,
    missing: MissingGpu
  )

  datatype ForwardMeasurement = ForwardMeasurement(
    phase: ProfilePhase,
    computePassCount: u64,
    dispatchCount: u64,
    counterOverflow: bool,
    batchSize: u32,
    currentPos: u32,
    forwardWallNs: u64,
    setupWallNs: u64,
    readbackWallNs: u64,
    submissionCount: u64,
    submitNs: u64,
    pollNs: u64,
    stages: seq<StageMeasurement>,
    droppedPasses: u64,
    contaminated: bool
  )

  datatype Key = Key(phase: ProfilePhase, layer: Option<u32>, stage: KernelStage)

  datatype Aggregate = Aggregate(
    calls: u64,
    computePasses: u64,
    dispatches: u64,
    hostEncodeNs: u64,
    gpuNsSum: Option<u64>,
    gpuMeasuredCalls: u64,
    missingGpu: map<MissingGpu, u64>
  )

  const NO_CALLS: Aggregate := Aggregate(0, 0, 0, 0, None, 0, map[])

  datatype Totals = Totals(
    computePassCount: u64,
    dispatchCount: u64,
    forwardCount: u64,
    prefillForwards: u64,
    decodeForwards: u64,
    forwardWallNs: u64,
    setupWallNs: u64,
    readbackWallNs: u64,
    submissionCount: u64,
    submitNs: u64,
    pollNs: u64
  )

  datatype Extents = Extents(minBatch: u32, maxBatch: u32, maxPos: u32, maxSeqLen: u64)

  datatype Data = Data(
    totals: Totals,
    extents: Extents,
    stages: map<Key, Aggregate>,
    dropped: u64,
    overflow: bool,
    contaminated: bool
  )

  const EMPTY: Data :=
    Data(Totals(0, 0, 0, 0, 0, 0, 0, 0, 0, 0, 0), Extents(0, 0, 0, 0), map[], 0, false, false)

  function Saturated(x: nat): u64 {
    if x > MAX_U64 then MAX_U64 else x
  }

  /** `add`: the sum, or the greatest word and a raised flag. */
  function Add(target: u64, value: u64, overflow: bool): (u64, bool) {
    match CheckedAdd(target, value)
    case Some(sum) => (sum, overflow)
    case None => (MAX_U64, true)
  }

  /** Added to a counter that already stands for the exact sum `exact`. */
  lemma AddStandsFor(exact: nat, value: u64, overflow: bool)
    requires exact > MAX_U64 ==> overflow
    ensures Add(Saturated(exact), value, overflow)
         == (Saturated(exact + value), overflow || exact + value > MAX_U64)
  {
  }

  function Max(a: nat, b: nat): nat {
    if a < b then b else a
  }

  // --- One frame ----------------------------------------------------------

  function Extended(e: Extents, f: ForwardMeasurement, first: bool): Extents {
    Extents(if first then f.batchSize else Min(e.minBatch, f.batchSize), Max(e.maxBatch, f.batchSize),
            Max(e.maxPos, f.currentPos), Max(e.maxSeqLen, f.currentPos + f.batchSize))
  }

  function AddWork(t: Totals, f: ForwardMeasurement, o: bool): (Totals, bool) {
    var passes := Add(t.computePassCount, f.computePassCount, o);
    var dispatches := Add(t.dispatchCount, f.dispatchCount, passes.1);
    (t.(computePassCount := passes.0, dispatchCount := dispatches.0), dispatches.1)
  }

  function AddForward(t: Totals, f: ForwardMeasurement, o: bool): (Totals, bool) {
    var forwards := Add(t.forwardCount, 1, o);
    match f.phase
    case Prefill =>
      var prefills := Add(t.prefillForwards, 1, forwards.1);
      (t.(forwardCount := forwards.0, prefillForwards := prefills.0), prefills.1)
    case Decode =>
      var decodes := Add(t.decodeForwards, 1, forwards.1);
      (t.(forwardCount := forwards.0, decodeForwards := decodes.0), decodes.1)
  }

  function AddTimes(t: Totals, f: ForwardMeasurement, o: bool): (Totals, bool) {
    var wall := Add(t.forwardWallNs, f.forwardWallNs, o);
    var setup := Add(t.setupWallNs, f.setupWallNs, wall.1);
    var readback := Add(t.readbackWallNs, f.readbackWallNs, setup.1);
    (t.(forwardWallNs := wall.0, setupWallNs := setup.0, readbackWallNs := readback.0), readback.1)
  }

  function AddSubmissions(t: Totals, f: ForwardMeasurement, o: bool): (Totals, bool) {
    var submissions := Add(t.submissionCount, f.submissionCount, o);
    var submit := Add(t.submitNs, f.submitNs, submissions.1);
    var poll := Add(t.pollNs, f.pollNs, submit.1);
    (t.(submissionCount := submissions.0, submitNs := submit.0, pollNs := poll.0), poll.1)
  }

  /** Everything of a frame but its stages. */
  function TakeHead(d: Data, f: ForwardMeasurement): Data {
    var work := AddWork(d.totals, f, d.overflow || f.counterOverflow);
    var forward := AddForward(work.0, f, work.1);
    var times := AddTimes(forward.0, f, forward.1);
    var submissions := AddSubmissions(times.0, f, times.1);
    var dropped := Add(d.dropped, f.droppedPasses, submissions.1);
    Data(submissions.0, Extended(d.extents, f, d.totals.forwardCount == 0), d.stages, dropped.0, dropped.1,
         d.contaminated || f.contaminated)
  }

  function KeyOf(phase: ProfilePhase, s: StageMeasurement): Key {
    Key(phase, s.layer, s.stage)
  }

  /** Measurements share an aggregate exactly when they are of one stage of one layer
      in one phase. */
  lemma KeysTellStages(p: ProfilePhase, s: StageMeasurement, q: ProfilePhase, t: StageMeasurement)
    ensures KeyOf(p, s) == KeyOf(q, t) <==> p == q && s.layer == t.layer && s.stage == t.stage
  {
  }

  function AddCall(a: Aggregate, s: StageMeasurement, o: bool): (Aggregate, bool) {
    var calls := Add(a.calls, 1, o);
    var passes := Add(a.computePasses, 1, calls.1);
    var dispatches := Add(a.dispatches, s.dispatches, passes.1);
    var host := Add(a.hostEncodeNs, s.hostEncodeNs, dispatches.1);
    (a.(calls := calls.0, computePasses := passes.0, dispatches := dispatches.0, hostEncodeNs := host.0), host.1)
  }

  function AddGpu(a: Aggregate, s: StageMeasurement, o: bool): (Aggregate, bool) {
    match s.gpuNs
    case Some(gpu) =>
      var sum := Add(if a.gpuNsSum.Some? then a.gpuNsSum.value else 0, gpu, o);
      var measured := Add(a.gpuMeasuredCalls, 1, sum.1);
      (a.(gpuNsSum := Some(sum.0), gpuMeasuredCalls := measured.0), measured.1)
    case None =>
      var missing := Add(if s.missing in a.missingGpu then a.missingGpu[s.missing] else 0, 1, o);
      (a.(missingGpu := a.missingGpu[s.missing := missing.0]), missing.1)
  }

  /** One sample added to its stage. */
  function Aggregated(a: Aggregate, s: StageMeasurement, o: bool): (Aggregate, bool) {
    var called := AddCall(a, s, o);
    AddGpu(called.0, s, called.1)
  }

  function TakeSample(d: Data, k: Key, s: StageMeasurement): Data {
    if |d.stages| >= MAX_KEYS && k !in d.stages then
      var dropped := Add(d.dropped, 1, d.overflow);
      d.(dropped := dropped.0, overflow := dropped.1)
    else
      var a := Aggregated(if k in d.stages then d.stages[k] else NO_CALLS, s, d.overflow);
      d.(stages := d.stages[k := a.0], overflow := a.1)
  }

  /** A frame is its head and then its samples. */
  datatype Event = Head(frame: ForwardMeasurement) | Sample(key: Key, sample: StageMeasurement)

  function Take(d: Data, e: Event): Data {
    match e
    case Head(frame) => TakeHead(d, frame)
    case Sample(k, s) => TakeSample(d, k, s)
  }

  function TakeAll(d: Data, events: seq<Event>): Data {
    if events == [] then d else Take(TakeAll(d, events[..|events| - 1]), events[|events| - 1])
  }

  function SamplesOf(phase: ProfilePhase, stages: seq<StageMeasurement>): seq<Event> {
    seq(|stages|, i requires 0 <= i < |stages| => Sample(KeyOf(phase, stages[i]), stages[i]))
  }

  function EventsOf(f: ForwardMeasurement): seq<Event> {
    [Head(f)] + SamplesOf(f.phase, f.stages)
  }

  class ProfileData {
    var totals: Totals
    var extents: Extents
    var stages: map<Key, Aggregate>
    var dropped: u64
    var overflow: bool
    var contaminated: bool

    ghost function View(): Data
      reads this
    {
      Data(totals, extents, stages, dropped, overflow, contaminated)
    }

    constructor ()
      ensures View() == EMPTY
    {
      totals := Totals(0, 0, 0, 0, 0, 0, 0, 0, 0, 0, 0);
      extents := Extents(0, 0, 0, 0);
      stages := map[];
      dropped := 0;
      overflow := false;
      contaminated := false;
    }

    method RecordForward(frame: ForwardMeasurement)
      modifies this
      ensures View() == TakeAll(old(View()), EventsOf(frame))
    {
      ghost var events := EventsOf(frame);
      RecordHead(frame);
      assert events[..1] == [Head(frame)] && [Head(frame)][..0] == [];
      for i := 0 to |frame.stages|
        invariant View() == TakeAll(old(View()), events[..i + 1])
      {
        assert events[..i + 2][..i + 1] == events[..i + 1];
        assert events[..i + 2][i + 1] == Sample(KeyOf(frame.phase, frame.stages[i]), frame.stages[i]);
        RecordSample(KeyOf(frame.phase, frame.stages[i]), frame.stages[i]);
      }
      assert events[..|frame.stages| + 1] == events;
    }

    method AddTo(target: u64, value: u64) returns (sum: u64)
      modifies this`overflow
      ensures (sum, overflow) == Add(target, value, old(overflow))
    {
      if target + value < TWO_TO_THE_64 {
        sum := target + value;
      } else {
        sum := MAX_U64;
        overflow := true;
      }
    }

    method RecordHead(frame: ForwardMeasurement)
      modifies this
      ensures View() == TakeHead(old(View()), frame)
    {
      overflow := overflow || frame.counterOverflow;
      extents := Extended(extents, frame, totals.forwardCount == 0);
      RecordWork(frame);
      RecordKind(frame);
      RecordTimes(frame);
      RecordSubmissions(frame);
      dropped := AddTo(dropped, frame.droppedPasses);
      contaminated := contaminated || frame.contaminated;
    }

    method RecordWork(frame: ForwardMeasurement)
      modifies this`totals, this`overflow
      ensures (totals, overflow) == AddWork(old(totals), frame, old(overflow))
    {
      var passes := AddTo(totals.computePassCount, frame.computePassCount);
      var dispatches := AddTo(totals.dispatchCount, frame.dispatchCount);
      totals := totals.(computePassCount := passes, dispatchCount := dispatches);
    }

    method RecordKind(frame: ForwardMeasurement)
      modifies this`totals, this`overflow
      ensures (totals, overflow) == AddForward(old(totals), frame, old(overflow))
    {
      var forwards := AddTo(totals.forwardCount, 1);
      if frame.phase.Prefill? {
        var prefills := AddTo(totals.prefillForwards, 1);
        totals := totals.(forwardCount := forwards, prefillForwards := prefills);
      } else {
        var decodes := AddTo(totals.decodeForwards, 1);
        totals := totals.(forwardCount := forwards, decodeForwards := decodes);
      }
    }

    method RecordTimes(frame: ForwardMeasurement)
      modifies this`totals, this`overflow
      ensures (totals, overflow) == AddTimes(old(totals), frame, old(overflow))
    {
      var wall := AddTo(totals.forwardWallNs, frame.forwardWallNs);
      var setup := AddTo(totals.setupWallNs, frame.setupWallNs);
      var readback := AddTo(totals.readbackWallNs, frame.readbackWallNs);
      totals := totals.(forwardWallNs := wall, setupWallNs := setup, readbackWallNs := readback);
    }

    method RecordSubmissions(frame: ForwardMeasurement)
      modifies this`totals, this`overflow
      ensures (totals, overflow) == AddSubmissions(old(totals), frame, old(overflow))
    {
      var submissions := AddTo(totals.submissionCount, frame.submissionCount);
      var submit := AddTo(totals.submitNs, frame.submitNs);
      var poll := AddTo(totals.pollNs, frame.pollNs);
      totals := totals.(submissionCount := submissions, submitNs := submit, pollNs := poll);
    }

    method RecordSample(key: Key, sample: StageMeasurement)
      modifies this
      ensures View() == TakeSample(old(View()), key, sample)
    {
      if |stages| >= MAX_KEYS && key !in stages {
        dropped := AddTo(dropped, 1);
      } else {
        var agg := if key in stages then stages[key] else NO_CALLS;
        agg := RecordCall(agg, sample);
        agg := RecordGpu(agg, sample);
        stages := stages[key := agg];
      }
    }

    method RecordCall(agg: Aggregate, sample: StageMeasurement) returns (r: Aggregate)
      modifies this`overflow
      ensures (r, overflow) == AddCall(agg, sample, old(overflow))
    {
      var calls := AddTo(agg.calls, 1);
      var passes := AddTo(agg.computePasses, 1);
      var dispatches := AddTo(agg.dispatches, sample.dispatches);
      var host := AddTo(agg.hostEncodeNs, sample.hostEncodeNs);
      r := agg.(calls := calls, computePasses := passes, dispatches := dispatches, hostEncodeNs := host);
    }

    method RecordGpu(agg: Aggregate, sample: StageMeasurement) returns (r: Aggregate)
      modifies this`overflow
      ensures (r, overflow) == AddGpu(agg, sample, old(overflow))
    {
      match sample.gpuNs {
        case Some(gpu) =>
          var sum := AddTo(if agg.gpuNsSum.Some? then agg.gpuNsSum.value else 0, gpu);
          var measured := AddTo(agg.gpuMeasuredCalls, 1);
          r := agg.(gpuNsSum := Some(sum), gpuMeasuredCalls := measured);
        case None =>
          var count := AddTo(if sample.missing in agg.missingGpu then agg.missingGpu[sample.missing] else 0, 1);
          r := agg.(missingGpu := agg.missingGpu[sample.missing := count]);
      }
    }
  }
}
