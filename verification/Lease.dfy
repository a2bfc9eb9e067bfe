/** The request lease: an exclusive permit to write the KV state of one request,
    position by position, through prepared and committed writes. */
module Lease {
  import opened Prelude

  datatype Phase = Fresh | Prefill | Ready | Decode | Finished | Aborted

  datatype StateError = Unsupported | Bounds | Identity | Busy | PhaseError | Epoch

  datatype StateIdentity = StateIdentity(modelSha256: string, planSha256: string)

  datatype StateWrite = StateWrite(epoch: u64, start: u64, count: u64, phase: Phase)

  datatype Lease = Lease(epoch: u64, phase: Phase, processed: u64, prompt: u64, pending: Option<StateWrite>, closed: bool)

  function NewLease(epoch: u64): Lease {
    Lease(epoch, Fresh, 0, 0, None, false)
  }

  function StartPrefill(capacity: u64, l: Lease, tokens: u64): (Lease, Result<(), StateError>) {
    if l.phase != Fresh || tokens == 0 || tokens > capacity then (l, Err(PhaseError))
    else (l.(prompt := tokens, phase := Prefill), Ok(()))
  }

  /** Reserve the positions right after the committed prefix, within both limits. */
  function Prepare(capacity: u64, l: Lease, start: u64, count: u64, limit: u64): (Lease, Result<StateWrite, StateError>) {
    var end := CheckedAdd(start, count);
    if l.closed || l.pending.Some? || count == 0 || start != l.processed
       || end == None || end.value > limit || end.value > capacity then
      (l, Err(Bounds))
    else
      var w := StateWrite(l.epoch, start, count, l.phase);
      (l.(pending := Some(w)), Ok(w))
  }

  function PreparePrefillChunk(capacity: u64, l: Lease, start: u64, count: u64): (Lease, Result<StateWrite, StateError>) {
    if l.phase != Prefill then (l, Err(PhaseError))
    else Prepare(capacity, l, start, count, l.prompt)
  }

  function PrepareDecode(capacity: u64, l: Lease, start: u64): (Lease, Result<StateWrite, StateError>) {
    if l.phase != Ready then (l, Err(PhaseError))
    else
      var (l', prepared) := Prepare(capacity, l.(phase := Decode), start, 1, capacity);
      if prepared.Ok? then (l', prepared) else (l'.(phase := Ready), prepared)
  }

  /** The machine sum; a prepared write ends within the capacity and does not wrap. */
  function WriteEnd(w: StateWrite): u64 {
    (w.start + w.count) % TWO_TO_THE_64
  }

  function Commit(l: Lease, w: StateWrite): (Lease, Result<(), StateError>) {
    if l.pending != Some(w) || w.epoch != l.epoch || l.closed then (l, Err(Identity))
    else
      var processed := WriteEnd(w);
      var phase := if l.phase == Decode || processed == l.prompt then Ready else l.phase;
      (l.(processed := processed, pending := None, phase := phase), Ok(()))
  }

  predicate CanRead(l: Lease, start: u64, end: u64) {
    !(l.closed || start > end || end > l.processed)
  }

  function Close(l: Lease, phase: Phase): Lease {
    if l.closed then l else l.(phase := phase, processed := 0, pending := None, closed := true)
  }

  function Finish(l: Lease): (Lease, Result<(), StateError>) {
    if l.phase != Ready || l.pending.Some? then (l, Err(PhaseError)) else (Close(l, Finished), Ok(()))
  }

  // The invariant of a lease.

  /** Writes that follow one another from position zero, none empty. */
  ghost predicate Tiles(log: seq<StateWrite>, end: nat) {
    if log == [] then end == 0
    else
      var last := log[|log| - 1];
      last.count > 0 && last.start + last.count == end && Tiles(log[..|log| - 1], last.start)
  }

  /** The phase tells what is pending and how far the prefix is. */
  ghost predicate PhaseAgrees(capacity: u64, l: Lease) {
    && l.processed <= capacity && l.prompt <= capacity
    && (l.closed <==> l.phase == Finished || l.phase == Aborted)
    && (l.phase == Fresh ==> l.processed == 0 && l.prompt == 0 && l.pending == None)
    && (l.phase == Prefill ==> l.processed < l.prompt)
    && (l.phase == Ready ==> 0 < l.prompt <= l.processed && l.pending == None)
    && (l.phase == Decode ==> 0 < l.prompt <= l.processed && l.pending.Some?)
    && (l.closed ==> l.processed == 0 && l.pending == None)
    && (l.pending.Some? ==>
          var w := l.pending.value;
          && w.epoch == l.epoch && w.phase == l.phase && w.start == l.processed && w.count > 0
          && w.start + w.count <= capacity && (l.phase == Prefill ==> w.start + w.count <= l.prompt))
  }

  /** What a caller can do with a lease. */
  datatype Op =
    | OpStartPrefill(tokens: u64)
    | OpPrepareChunk(start: u64, count: u64)
    | OpPrepareDecode(at: u64)
    | OpCommit(write: StateWrite)
    | OpFinish
    | OpAbort
    | OpRollback(positions: u64)

  function Apply(capacity: u64, l: Lease, op: Op): Lease {
    match op
    case OpStartPrefill(tokens) => StartPrefill(capacity, l, tokens).0
    case OpPrepareChunk(start, count) => PreparePrefillChunk(capacity, l, start, count).0
    case OpPrepareDecode(start) => PrepareDecode(capacity, l, start).0
    case OpCommit(w) => Commit(l, w).0
    case OpFinish => Finish(l).0
    case OpAbort => Close(l, Aborted)
    case OpRollback(_) => l
  }

  /** A lease together with the writes it has committed. */
  datatype Logged = Logged(lease: Lease, log: seq<StateWrite>)

  function ApplyLogged(capacity: u64, x: Logged, op: Op): Logged {
    var log := if op.OpCommit? && Commit(x.lease, op.write).1.Ok? then x.log + [op.write] else x.log;
    Logged(Apply(capacity, x.lease, op), log)
  }

  function ApplyAll(capacity: u64, x: Logged, ops: seq<Op>): Logged
    decreases |ops|
  {
    if ops == [] then x else ApplyAll(capacity, ApplyLogged(capacity, x, ops[0]), ops[1..])
  }

  ghost predicate LeaseInv(capacity: u64, x: Logged) {
    && PhaseAgrees(capacity, x.lease)
    && (forall i :: 0 <= i < |x.log| ==> x.log[i].epoch == x.lease.epoch)
    && (exists end: nat :: Tiles(x.log, end))
    && (!x.lease.closed ==> Tiles(x.log, x.lease.processed))
  }

  lemma {:induction false} ApplyKeepsInv(capacity: u64, x: Logged, op: Op)
    requires LeaseInv(capacity, x)
    ensures LeaseInv(capacity, ApplyLogged(capacity, x, op))
    ensures ApplyLogged(capacity, x, op).lease.epoch == x.lease.epoch
  {
    var x' := ApplyLogged(capacity, x, op);
    if op.OpCommit? && Commit(x.lease, op.write).1.Ok? {
      assert x'.log[..|x'.log| - 1] == x.log;
      assert Tiles(x'.log, op.write.start + op.write.count);
    }
  }

  /** Main result for one lease: along every sequence of operations the committed
      writes tile the prefix `[0, processed)` without gap or overlap until it is
      closed, all under the lease's own epoch, and the phase invariant holds. */
  lemma {:induction false} HistoryTiles(capacity: u64, epoch: u64, ops: seq<Op>)
    ensures LeaseInv(capacity, ApplyAll(capacity, Logged(NewLease(epoch), []), ops))
    ensures ApplyAll(capacity, Logged(NewLease(epoch), []), ops).lease.epoch == epoch
  {
    assert Tiles([], 0);
    HistoryKeepsInv(capacity, Logged(NewLease(epoch), []), ops);
  }

  lemma {:induction false} HistoryKeepsInv(capacity: u64, x: Logged, ops: seq<Op>)
    requires LeaseInv(capacity, x)
    ensures LeaseInv(capacity, ApplyAll(capacity, x, ops)) && ApplyAll(capacity, x, ops).lease.epoch == x.lease.epoch
    decreases |ops|
  {
    if ops != [] {
      ApplyKeepsInv(capacity, x, ops[0]);
      HistoryKeepsInv(capacity, ApplyLogged(capacity, x, ops[0]), ops[1..]);
    }
  }

  predicate Covers(w: StateWrite, position: nat) {
    w.start <= position < w.start + w.count
  }

  ghost predicate Committed(log: seq<StateWrite>, position: nat) {
    exists i :: 0 <= i < |log| && Covers(log[i], position)
  }

  /** Tiling: each position below the end lies in exactly one write, no other in any. */
  lemma {:induction false} TilesCoverOnce(log: seq<StateWrite>, end: nat, position: nat)
    requires Tiles(log, end)
    ensures position < end <==> Committed(log, position)
    ensures forall i, j :: 0 <= i < |log| && 0 <= j < |log| && Covers(log[i], position) && Covers(log[j], position) ==> i == j
  {
    if log != [] {
      var last := log[|log| - 1];
      var before := log[..|log| - 1];
      TilesCoverOnce(before, last.start, position);
      assert forall i :: 0 <= i < |before| ==> before[i] == log[i];
      if position < last.start {
        var i :| 0 <= i < |before| && Covers(before[i], position);
        assert Covers(log[i], position);
      } else {
        assert forall i :: 0 <= i < |before| ==> !Covers(before[i], position);
        if position < end {
          assert Covers(log[|log| - 1], position);
        }
      }
    }
  }

  /** A read is granted exactly on what has been committed and not closed. */
  lemma {:induction false} ReadsExactlyCommitted(capacity: u64, epoch: u64, ops: seq<Op>, start: u64, end: u64)
    requires start < end
    ensures var x := ApplyAll(capacity, Logged(NewLease(epoch), []), ops);
            CanRead(x.lease, start, end) <==>
              !x.lease.closed && forall p: nat :: start <= p < end ==> Committed(x.log, p)
  {
    var x := ApplyAll(capacity, Logged(NewLease(epoch), []), ops);
    HistoryTiles(capacity, epoch, ops);
    if !x.lease.closed {
      forall p: nat ensures p < x.lease.processed <==> Committed(x.log, p) {
        TilesCoverOnce(x.log, x.lease.processed, p);
      }
      var last: nat := end - 1;
      assert last < x.lease.processed <==> Committed(x.log, last);
    }
  }

  /** After any history, exactly when each operation is granted, told by the prompt,
      what is committed and what is pending; a refused one changes nothing. */
  ghost predicate Grants(capacity: u64, l: Lease) {
    var prefilling, decoding := !l.closed && l.processed < l.prompt, !l.closed && 0 < l.prompt <= l.processed;
    && (forall n: u64 ::
          var (l', r) := StartPrefill(capacity, l, n);
          && (r.Ok? <==> !l.closed && l.prompt == 0 && 0 < n <= capacity)
          && (if r.Ok? then l'.prompt == n && l'.processed == 0 && l'.pending == None && !l'.closed else l' == l))
    && (forall start: u64, count: u64 ::
          var (l', r) := PreparePrefillChunk(capacity, l, start, count);
          && (r.Ok? <==> prefilling && l.pending == None && start == l.processed && 0 < count && start + count <= l.prompt)
          && (if r.Ok? then Reserves(l, l', r.value, start, count) else l' == l))
    && (forall start: u64 ::
          var (l', r) := PrepareDecode(capacity, l, start);
          && (r.Ok? <==> decoding && l.pending == None && start == l.processed < capacity)
          && (if r.Ok? then Reserves(l, l', r.value, start, 1) else l' == l))
    && (forall w: StateWrite ::
          var (l', r) := Commit(l, w);
          && (r.Ok? <==> l.pending == Some(w))
          && (if r.Ok? then l'.processed == w.start + w.count && l'.pending == None && l'.prompt == l.prompt && !l'.closed
              else l' == l))
    && (var (l', r) := Finish(l);
          && (r.Ok? <==> decoding && l.pending == None)
          && (if r.Ok? then l'.closed && l'.processed == 0 else l' == l))
    && (var l' := Apply(capacity, l, OpAbort);
          l'.closed && l'.processed == 0 && l'.pending == None && (l.closed ==> l' == l))
    && (forall n: u64 :: Apply(capacity, l, OpRollback(n)) == l)
  }

  /** The write of these positions is pending, and nothing else has changed. */
  predicate Reserves(l: Lease, l': Lease, w: StateWrite, start: u64, count: u64) {
    && w.epoch == l.epoch && w.start == start && w.count == count && l'.pending == Some(w)
    && l'.processed == l.processed && l'.prompt == l.prompt && !l'.closed
  }

  lemma {:induction false} OperationsAreExact(capacity: u64, epoch: u64, ops: seq<Op>)
    ensures Grants(capacity, ApplyAll(capacity, Logged(NewLease(epoch), []), ops).lease)
  {
    var x := ApplyAll(capacity, Logged(NewLease(epoch), []), ops);
    HistoryTiles(capacity, epoch, ops);
    PhasesGrant(capacity, x.lease);
  }

  lemma PhasesGrant(capacity: u64, l: Lease)
    requires PhaseAgrees(capacity, l)
    ensures Grants(capacity, l)
  {
  }

  /** Writes that tile are pairwise different. */
  lemma {:induction false} TilesNeverRepeat(log: seq<StateWrite>, end: nat)
    requires Tiles(log, end)
    ensures NoDuplicates(log)
  {
    forall i, j | 0 <= i < j < |log| ensures log[i] != log[j] {
      EachPositive(log, end, i);
      TilesCoverOnce(log, end, log[i].start);
      assert Covers(log[i], log[i].start);
    }
  }

  lemma {:induction false} EachPositive(log: seq<StateWrite>, end: nat, i: nat)
    requires Tiles(log, end) && i < |log|
    ensures log[i].count > 0
  {
    if i < |log| - 1 {
      EachPositive(log[..|log| - 1], log[|log| - 1].start, i);
    }
  }

  /** The controller's two shared words. */
  class StateController {
    const identity: StateIdentity
    const capacity: u64
    var epoch: u64
    var active: bool

    constructor (identity: StateIdentity, capacity: u64)
      ensures this.identity == identity && this.capacity == capacity && epoch == 0 && !active
    {
      this.identity, this.capacity, epoch, active := identity, capacity, 0, false;
    }

    /** Grant a lease under a new epoch, or refuse; exhaustion leaves nothing active. */
    method Begin() returns (r: Result<StateLease, StateError>)
      modifies this`epoch, this`active
      ensures old(active) ==> r == Err(Busy) && active && epoch == old(epoch)
      ensures !old(active) && old(epoch) + 1 == TWO_TO_THE_64 ==> r == Err(Epoch) && !active && epoch == old(epoch)
      ensures !old(active) && old(epoch) + 1 < TWO_TO_THE_64 ==>
                && r.Ok? && fresh(r.value) && r.value.owner == this
                && active && epoch == old(epoch) + 1
                && r.value.View() == NewLease(epoch)
    {
      if active {
        return Err(Busy);
      }
      active := true;
      match CheckedAdd(epoch, 1)
      case None =>
        active := false;
        return Err(Epoch);
      case Some(next) =>
        epoch := next;
        var lease := new StateLease(this, next);
        return Ok(lease);
    }
  }

  /** The lease object. Every method does what its function above says, and only
      closing reaches into the controller. */
  class StateLease {
    const owner: StateController
    const epoch: u64
    var phase: Phase
    var processed: u64
    var prompt: u64
    var pending: Option<StateWrite>
    var closed: bool

    function View(): Lease
      reads this
    {
      Lease(epoch, phase, processed, prompt, pending, closed)
    }

    constructor (owner: StateController, epoch: u64)
      ensures this.owner == owner && View() == NewLease(epoch)
    {
      this.owner, this.epoch := owner, epoch;
      phase, processed, prompt, pending, closed := Fresh, 0, 0, None, false;
    }

    /** The lease is for this model, open, and no later one was granted. */
    method CheckIdentity(expected: StateIdentity) returns (r: Result<(), StateError>)
      ensures r == if owner.identity == expected && owner.epoch == epoch && !closed then Ok(()) else Err(Identity)
    {
      if owner.identity != expected || owner.epoch != epoch || closed {
        return Err(Identity);
      }
      return Ok(());
    }

    method Start(tokens: u64) returns (r: Result<(), StateError>)
      modifies this
      ensures (View(), r) == StartPrefill(owner.capacity, old(View()), tokens)
    {
      if phase != Fresh || tokens == 0 || tokens > owner.capacity {
        return Err(PhaseError);
      }
      prompt := tokens;
      phase := Prefill;
      return Ok(());
    }

    method PrepareWrite(start: u64, count: u64, limit: u64) returns (r: Result<StateWrite, StateError>)
      modifies this
      ensures (View(), r) == Prepare(owner.capacity, old(View()), start, count, limit)
    {
      var end := CheckedAdd(start, count);
      if closed || pending.Some? || count == 0 || start != processed
         || end == None || end.value > limit || end.value > owner.capacity
      {
        return Err(Bounds);
      }
      var w := StateWrite(epoch, start, count, phase);
      pending := Some(w);
      return Ok(w);
    }

    method PrepareChunk(start: u64, count: u64) returns (r: Result<StateWrite, StateError>)
      modifies this
      ensures (View(), r) == PreparePrefillChunk(owner.capacity, old(View()), start, count)
    {
      if phase != Prefill {
        return Err(PhaseError);
      }
      r := PrepareWrite(start, count, prompt);
    }

    method PrepareOne(start: u64) returns (r: Result<StateWrite, StateError>)
      modifies this
      ensures (View(), r) == PrepareDecode(owner.capacity, old(View()), start)
    {
      if phase != Ready {
        return Err(PhaseError);
      }
      phase := Decode;
      r := PrepareWrite(start, 1, owner.capacity);
      if r.Err? {
        phase := Ready;
      }
    }

    method CommitWrite(write: StateWrite) returns (r: Result<(), StateError>)
      modifies this
      ensures (View(), r) == Commit(old(View()), write)
    {
      if pending != Some(write) || write.epoch != epoch || closed {
        return Err(Identity);
      }
      processed := WriteEnd(write);
      pending := None;
      if phase == Decode || processed == prompt {
        phase := Ready;
      }
      return Ok(());
    }

    method RequireRead(start: u64, end: u64) returns (r: Result<(), StateError>)
      ensures r == if CanRead(View(), start, end) then Ok(()) else Err(Bounds)
    {
      if closed || start > end || end > processed {
        return Err(Bounds);
      }
      return Ok(());
    }

    method CloseAs(end: Phase)
      modifies this, owner`active
      ensures View() == Close(old(View()), end)
      ensures owner.active == (old(owner.active) && old(closed))
    {
      if !closed {
        phase := end;
        processed := 0;
        pending := None;
        closed := true;
        owner.active := false;
      }
    }

    method FinishRequest() returns (r: Result<(), StateError>)
      modifies this, owner`active
      ensures (View(), r) == Finish(old(View()))
      ensures owner.active == (old(owner.active) && (r.Err? || old(closed)))
    {
      if phase != Ready || pending.Some? {
        return Err(PhaseError);
      }
      CloseAs(Finished);
      return Ok(());
    }

    method Abort()
      modifies this, owner`active
      ensures View() == Close(old(View()), Aborted)
      ensures owner.active == (old(owner.active) && old(closed))
    {
      CloseAs(Aborted);
    }
  }
}
