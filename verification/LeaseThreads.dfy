/** Many threads sharing one controller. Beginning and closing a lease are several
    atomic steps each, and the steps of all threads interleave freely. */
module LeaseThreads {
  import opened Prelude
  import opened Lease

  /** Where a thread stands inside `begin`: outside it, past the winning exchange
      of `active`, or holding an exhausted epoch counter. */
  datatype Pc = Outside | Won | Exhausted

  /** A lease is open, has closed itself but not yet stored `active`, or is closed. */
  datatype Status = Open | Closing | Closed

  datatype Granted = Granted(status: Status, x: Logged)

  /** The shared words, the threads, and every lease granted so far under its epoch. */
  datatype System = System(epoch: u64, active: bool, threads: map<nat, Pc>, leases: map<u64, Granted>, grants: seq<u64>)

  datatype Event =
    | TryBegin(thread: nat)
    | TakeEpoch(thread: nat)
    | GiveUp(thread: nat)
    | Use(lease: u64, op: Op)
    | Release(lease: u64)

  /** One atomic step; an event that is not enabled changes nothing. */
  function Next(capacity: u64, s: System, ev: Event): System {
    match ev
    case TryBegin(t) =>
      if t in s.threads && s.threads[t] == Outside && !s.active then
        s.(active := true, threads := s.threads[t := Won])
      else s
    case TakeEpoch(t) =>
      if t in s.threads && s.threads[t] == Won then
        match CheckedAdd(s.epoch, 1)
        case None => s.(threads := s.threads[t := Exhausted])
        case Some(e) =>
          s.(epoch := e, threads := s.threads[t := Outside],
             leases := s.leases[e := Granted(Open, Logged(NewLease(e), []))], grants := s.grants + [e])
      else s
    case GiveUp(t) =>
      if t in s.threads && s.threads[t] == Exhausted then
        s.(active := false, threads := s.threads[t := Outside])
      else s
    case Use(e, op) =>
      if e in s.leases && s.leases[e].status != Closing then
        var x := ApplyLogged(capacity, s.leases[e].x, op);
        var status := if s.leases[e].status == Open && x.lease.closed then Closing else s.leases[e].status;
        s.(leases := s.leases[e := Granted(status, x)])
      else s
    case Release(e) =>
      if e in s.leases && s.leases[e].status == Closing then
        s.(active := false, leases := s.leases[e := s.leases[e].(status := Closed)])
      else s
  }

  function Execute(capacity: u64, s: System, events: seq<Event>): System
    decreases |events|
  {
    if events == [] then s else Execute(capacity, Next(capacity, s, events[0]), events[1..])
  }

  /** A new controller and threads that have not called it. */
  function Start(threads: set<nat>): System {
    System(0, false, map t | t in threads :: Outside, map[], [])
  }

  /** Who keeps the controller active. */
  datatype Holder = ByThread(thread: nat) | ByLease(lease: u64)

  /** `holder` alone is granting, open or closing, and `active` says so. */
  ghost predicate HeldBy(s: System, holder: Option<Holder>) {
    && s.active == holder.Some?
    && (forall t :: t in s.threads ==> (s.threads[t] != Outside <==> holder == Some(ByThread(t))))
    && (forall e :: e in s.leases ==> (s.leases[e].status != Closed <==> holder == Some(ByLease(e))))
    && (holder.Some? && holder.value.ByThread? ==> holder.value.thread in s.threads)
    && (holder.Some? && holder.value.ByLease? ==> holder.value.lease in s.leases && holder.value.lease == s.epoch)
  }

  ghost predicate LeasesAgree(capacity: u64, s: System) {
    && (forall e :: e in s.leases <==> 0 < e <= s.epoch)
    && (forall e :: e in s.leases ==>
          && LeaseInv(capacity, s.leases[e].x) && s.leases[e].x.lease.epoch == e
          && (s.leases[e].status == Open <==> !s.leases[e].x.lease.closed))
    && |s.grants| == s.epoch && (forall i :: 0 <= i < |s.grants| ==> s.grants[i] == i + 1)
  }

  ghost predicate SystemInv(capacity: u64, s: System) {
    LeasesAgree(capacity, s) && exists holder: Option<Holder> :: HeldBy(s, holder)
  }

  /** Who holds the controller after a step. */
  ghost function NextHolder(s: System, holder: Option<Holder>, ev: Event, s': System): Option<Holder> {
    match ev
    case TryBegin(t) => if s' == s then holder else Some(ByThread(t))
    case TakeEpoch(t) => if s'.epoch == s.epoch then holder else Some(ByLease(s'.epoch))
    case GiveUp(t) => if s' == s then holder else None
    case Use(_, _) => holder
    case Release(e) => if s' == s then holder else None
  }

  /** A closed lease stays closed whatever is asked of it. */
  lemma {:induction false} ClosedStaysClosed(capacity: u64, x: Logged, op: Op)
    requires LeaseInv(capacity, x) && x.lease.closed
    ensures ApplyLogged(capacity, x, op).lease.closed
  {
  }

  /** What a lease is asked for leaves it agreeing with the controller. */
  lemma {:induction false} UseKeepsLeases(capacity: u64, s: System, e: u64, op: Op)
    requires LeasesAgree(capacity, s)
    ensures LeasesAgree(capacity, Next(capacity, s, Use(e, op)))
  {
    if e in s.leases {
      ApplyKeepsInv(capacity, s.leases[e].x, op);
      if s.leases[e].x.lease.closed {
        ClosedStaysClosed(capacity, s.leases[e].x, op);
      }
    }
  }

  lemma {:induction false} TakeKeepsLeases(capacity: u64, s: System, t: nat)
    requires LeasesAgree(capacity, s)
    ensures LeasesAgree(capacity, Next(capacity, s, TakeEpoch(t)))
  {
    assert Tiles([], 0);
  }

  lemma {:induction false} NextKeepsLeases(capacity: u64, s: System, ev: Event)
    requires LeasesAgree(capacity, s)
    ensures LeasesAgree(capacity, Next(capacity, s, ev))
  {
    match ev
    case TakeEpoch(t) => TakeKeepsLeases(capacity, s, t);
    case Use(e, op) => UseKeepsLeases(capacity, s, e, op);
    case _ =>
  }

  lemma {:induction false} NextKeepsHolder(capacity: u64, s: System, holder: Option<Holder>, ev: Event)
    requires LeasesAgree(capacity, s) && HeldBy(s, holder)
    ensures var s' := Next(capacity, s, ev); HeldBy(s', NextHolder(s, holder, ev, s'))
  {
  }

  lemma {:induction false} ExecuteKeepsInv(capacity: u64, s: System, events: seq<Event>)
    requires SystemInv(capacity, s)
    ensures SystemInv(capacity, Execute(capacity, s, events))
    decreases |events|
  {
    if events != [] {
      var s' := Next(capacity, s, events[0]);
      NextKeepsLeases(capacity, s, events[0]);
      var holder: Option<Holder> :| HeldBy(s, holder);
      NextKeepsHolder(capacity, s, holder, events[0]);
      ExecuteKeepsInv(capacity, s', events[1..]);
    }
  }

  lemma {:induction false} Reachable(capacity: u64, threads: set<nat>, events: seq<Event>)
    ensures SystemInv(capacity, Execute(capacity, Start(threads), events))
  {
    assert HeldBy(Start(threads), None);
    ExecuteKeepsInv(capacity, Start(threads), events);
  }

  /** The parties that are granting, hold an open lease, or are closing one. */
  ghost function Busy(s: System): iset<Holder> {
    (iset t | t in s.threads && s.threads[t] != Outside :: ByThread(t)) +
    (iset e | e in s.leases && s.leases[e].status != Closed :: ByLease(e))
  }

  /** Main result: under every interleaving at most one party is granting, open or
      closing; `active` is set exactly when there is one; every open lease carries
      the controller's epoch; and the epochs were granted as 1, 2, 3 and so on. */
  lemma {:induction false} Exclusive(capacity: u64, threads: set<nat>, events: seq<Event>)
    ensures var s := Execute(capacity, Start(threads), events);
            && (forall a, b :: a in Busy(s) && b in Busy(s) ==> a == b)
            && (s.active <==> exists a :: a in Busy(s))
            && (forall e :: e in s.leases && !s.leases[e].x.lease.closed ==> s.leases[e].x.lease.epoch == s.epoch)
            && |s.grants| == s.epoch && (forall i :: 0 <= i < |s.grants| ==> s.grants[i] == i + 1)
  {
    var s := Execute(capacity, Start(threads), events);
    Reachable(capacity, threads, events);
    var holder: Option<Holder> :| HeldBy(s, holder);
    if holder.Some? {
      assert holder.value in Busy(s);
    }
  }

  /** A thread that finds the epochs exhausted leaves the controller free. */
  lemma {:induction false} ExhaustionReleases(capacity: u64, threads: set<nat>, events: seq<Event>, t: nat)
    requires var s := Execute(capacity, Start(threads), events); t in s.threads && s.threads[t] == Exhausted
    ensures var s := Next(capacity, Execute(capacity, Start(threads), events), GiveUp(t));
            !s.active && forall a :: a !in Busy(s)
  {
    var s := Execute(capacity, Start(threads), events);
    Reachable(capacity, threads, events);
    var holder: Option<Holder> :| HeldBy(s, holder);
    NextKeepsHolder(capacity, s, holder, GiveUp(t));
  }

  /** A controller that nobody holds grants a lease, under the next epoch, to any
      thread that asks; one that somebody holds grants nothing. */
  lemma {:induction false} FreeControllerGrants(capacity: u64, threads: set<nat>, events: seq<Event>, t: nat)
    requires t in threads
    ensures var s := Execute(capacity, Start(threads), events);
            var won := Next(capacity, s, TryBegin(t));
            var granted := Next(capacity, won, TakeEpoch(t));
            && (s.active && t in s.threads && s.threads[t] == Outside ==> won == s)
            && (!s.active && s.epoch + 1 < TWO_TO_THE_64 ==>
                  && granted.active && granted.epoch == s.epoch + 1 && granted.grants == s.grants + [s.epoch + 1]
                  && granted.leases == s.leases[s.epoch + 1 := Granted(Open, Logged(NewLease(s.epoch + 1), []))])
  {
    var s := Execute(capacity, Start(threads), events);
    Reachable(capacity, threads, events);
    ThreadsStay(capacity, Start(threads), events);
    var holder: Option<Holder> :| HeldBy(s, holder);
  }

  lemma {:induction false} ThreadsStay(capacity: u64, s: System, events: seq<Event>)
    ensures Execute(capacity, s, events).threads.Keys == s.threads.Keys
    decreases |events|
  {
    if events != [] {
      OneStepThreads(capacity, s, events[0]);
      ThreadsStay(capacity, Next(capacity, s, events[0]), events[1..]);
    }
  }

  lemma OneStepThreads(capacity: u64, s: System, ev: Event)
    ensures Next(capacity, s, ev).threads.Keys == s.threads.Keys
  {
  }

  /** An open lease that is aborted or finished frees the controller when it stores
      its flag, and nobody but its own holder was in the way. */
  lemma {:induction false} ClosingFrees(capacity: u64, threads: set<nat>, events: seq<Event>, e: u64, op: Op)
    requires var s := Execute(capacity, Start(threads), events); e in s.leases && s.leases[e].status == Open
    ensures var s := Execute(capacity, Start(threads), events);
            var closing := Next(capacity, s, Use(e, op));
            ApplyLogged(capacity, s.leases[e].x, op).lease.closed ==>
              closing.active && !Next(capacity, closing, Release(e)).active
    ensures var s := Execute(capacity, Start(threads), events);
            ApplyLogged(capacity, s.leases[e].x, OpAbort).lease.closed
  {
    var s := Execute(capacity, Start(threads), events);
    Reachable(capacity, threads, events);
    var holder: Option<Holder> :| HeldBy(s, holder);
  }

  /** No write commits twice: not within a lease, and not under two leases. */
  lemma {:induction false} NoWriteCommitsTwice(capacity: u64, threads: set<nat>, events: seq<Event>)
    ensures var s := Execute(capacity, Start(threads), events);
            && (forall e :: e in s.leases ==> NoDuplicates(s.leases[e].x.log))
            && (forall e, f, w :: e in s.leases && f in s.leases && w in s.leases[e].x.log && w in s.leases[f].x.log ==> e == f)
  {
    var s := Execute(capacity, Start(threads), events);
    Reachable(capacity, threads, events);
    forall e | e in s.leases ensures NoDuplicates(s.leases[e].x.log) {
      var end: nat :| Tiles(s.leases[e].x.log, end);
      TilesNeverRepeat(s.leases[e].x.log, end);
    }
  }
}
