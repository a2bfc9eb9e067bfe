/** Saturation: a deduplicating fact store and its pending facts. A step takes any
    pending fact, fires its rule and queues whatever the store has not seen. */
module FabricRun {
  import opened Prelude
  import opened Facts
  import opened FabricRules

  /** `known` is the fact store, `pending` the facts not yet processed, `done`
      the processed ones. */
  datatype Config<E> = Config(state: State<E>, known: set<Fact>, pending: seq<Fact>, done: set<Fact>, processed: nat)

  /** The facts of `out` the store has not seen, each once, in order. */
  function Fresh(out: seq<Fact>, known: set<Fact>): (added: seq<Fact>)
    ensures Elements(added) == Elements(out) - known
    ensures NoDuplicates(added)
  {
    if out == [] then []
    else if out[0] in known then Fresh(out[1..], known)
    else
      var rest := Fresh(out[1..], known + {out[0]});
      assert out[0] !in Elements(rest);
      assert Elements([out[0]] + rest) == {out[0]} + Elements(rest);
      [out[0]] + rest
  }

  /** Assert facts: those already known change nothing. */
  function Absorb<E>(c: Config<E>, out: seq<Fact>): Config<E> {
    c.(known := c.known + Elements(out), pending := c.pending + Fresh(out, c.known))
  }

  /** Process the pending fact at index `i`; index 0 is first-in first-out. */
  function Step<E>(h: Hooks<E>, c: Config<E>, i: nat, elapsedMs: u32): Config<E>
    requires i < |c.pending|
  {
    var f := c.pending[i];
    var (state, out) := Fire(h, c.state, f, elapsedMs);
    Absorb(c.(state := state, pending := c.pending[..i] + c.pending[i + 1..],
              done := c.done + {f}, processed := c.processed + 1), out)
  }

  /** One choice of the scheduler: which pending fact, and what the clock reads. */
  datatype Choice = Choice(index: nat, elapsedMs: u32)

  /** A schedule runs from `c` when every choice names a pending fact. */
  predicate Runs<E>(h: Hooks<E>, c: Config<E>, schedule: seq<Choice>)
    decreases |schedule|
  {
    schedule == [] ||
    (schedule[0].index < |c.pending| &&
     Runs(h, Step(h, c, schedule[0].index, schedule[0].elapsedMs), schedule[1..]))
  }

  function Run<E>(h: Hooks<E>, c: Config<E>, schedule: seq<Choice>): Config<E>
    requires Runs(h, c, schedule)
    decreases |schedule|
  {
    if schedule == [] then c
    else Run(h, Step(h, c, schedule[0].index, schedule[0].elapsedMs), schedule[1..])
  }

  predicate Saturated<E>(c: Config<E>) {
    c.pending == []
  }

  /** The store and the queue agree: a fact is pending at most once, never after
      it was processed, and nothing else is known. */
  ghost predicate StoreAgrees<E>(c: Config<E>) {
    && NoDuplicates(c.pending)
    && Elements(c.pending) !! c.done
    && c.known == c.done + Elements(c.pending)
  }

  lemma {:induction false} AbsorbAgrees<E>(c: Config<E>, out: seq<Fact>)
    requires StoreAgrees(c)
    ensures StoreAgrees(Absorb(c, out))
    ensures Elements(Absorb(c, out).pending) == Elements(c.pending) + (Elements(out) - c.known)
  {
    var added := Fresh(out, c.known);
    assert forall j :: 0 <= j < |c.pending| ==> c.pending[j] in Elements(c.pending) && c.pending[j] in c.known;
    assert forall j :: 0 <= j < |added| ==> added[j] in Elements(added);
    assert Elements(c.pending + added) == Elements(c.pending) + Elements(added);
  }

  /** The control facts among some facts, in order. */
  function Controls(facts: seq<Fact>): seq<Fact> {
    if facts == [] then []
    else (if IsControl(facts[0]) then [facts[0]] else []) + Controls(facts[1..])
  }

  lemma {:induction false} ControlsConcat(a: seq<Fact>, b: seq<Fact>)
    ensures Controls(a + b) == Controls(a) + Controls(b)
  {
    if a == [] {
      assert a + b == b;
    } else {
      var first := if IsControl(a[0]) then [a[0]] else [];
      calc {
        Controls(a + b);
        { assert (a + b)[0] == a[0] && (a + b)[1..] == a[1..] + b; }
        first + Controls(a[1..] + b);
        { ControlsConcat(a[1..], b); }
        first + (Controls(a[1..]) + Controls(b));
        (first + Controls(a[1..])) + Controls(b);
        Controls(a) + Controls(b);
      }
    }
  }

  lemma {:induction false} NoControls(a: seq<Fact>)
    requires forall f :: f in a ==> !IsControl(f)
    ensures Controls(a) == []
  {
    if a != [] {
      NoControls(a[1..]);
    }
  }

  lemma {:induction false} ControlsAreMembers(a: seq<Fact>)
    ensures forall f :: f in Controls(a) <==> f in a && IsControl(f)
  {
    if a != [] {
      ControlsAreMembers(a[1..]);
      assert forall f :: f in a <==> f == a[0] || f in a[1..];
    }
  }

  /** Taking out the fact at index `i` takes it out of the control facts, too. */
  lemma {:induction false} ControlsWithout(p: seq<Fact>, i: nat)
    requires i < |p|
    ensures Controls(p) == Controls(p[..i]) + Controls([p[i]]) + Controls(p[i + 1..])
    ensures Controls(p[..i] + p[i + 1..]) == Controls(p[..i]) + Controls(p[i + 1..])
  {
    var before, at, after := p[..i], [p[i]], p[i + 1..];
    assert p == before + (at + after);
    ControlsConcat(before, at + after);
    ControlsConcat(at, after);
    ControlsConcat(before, after);
    assert Controls(before) + (Controls(at) + Controls(after)) == Controls(before) + Controls(at) + Controls(after);
  }

  /** A step as the store and the queue see it: `f` was pending and is done, and
      what is new of `out` is pending. */
  ghost predicate StoreStep<E>(c: Config<E>, f: Fact, out: seq<Fact>, c': Config<E>) {
    && StoreAgrees(c')
    && f in c.pending && f in c.known && f !in c.done
    && (forall g :: g in c'.known <==> g in c.known || g in out)
    && (forall g :: g in c'.done <==> g in c.done || g == f)
    && (forall g :: g in c'.pending <==> (g in c.pending && g != f) || (g in out && g !in c.known))
  }

  lemma {:induction false} StepStore<E>(h: Hooks<E>, c: Config<E>, i: nat, elapsedMs: u32)
    requires StoreAgrees(c) && i < |c.pending|
    ensures var (s', out) := Fire(h, c.state, c.pending[i], elapsedMs);
            StoreStep(c, c.pending[i], out, Step(h, c, i, elapsedMs)) && Step(h, c, i, elapsedMs).state == s'
  {
    var (s', out) := Fire(h, c.state, c.pending[i], elapsedMs);
    QueueStep(c, i, out, Step(h, c, i, elapsedMs));
  }

  lemma {:induction false} QueueStep<E>(c: Config<E>, i: nat, out: seq<Fact>, c': Config<E>)
    requires StoreAgrees(c) && i < |c.pending|
    requires c'.known == c.known + Elements(out) && c'.done == c.done + {c.pending[i]}
    requires c'.pending == c.pending[..i] + c.pending[i + 1..] + Fresh(out, c.known)
    ensures StoreStep(c, c.pending[i], out, c')
  {
    var f, rest, added := c.pending[i], c.pending[..i] + c.pending[i + 1..], Fresh(out, c.known);
    WithoutOne(c.pending, i);
    assert forall g :: g in Elements(added) <==> g in added;
    assert forall g :: g in Elements(out) <==> g in out;
    assert f in Elements(c.pending);
    assert forall j :: 0 <= j < |c.pending| ==> c.pending[j] in Elements(c.pending) && c.pending[j] in c.known;
    assert forall j :: 0 <= j < |added| ==> added[j] in Elements(added);
    assert NoDuplicates(c'.pending);
    assert Elements(c'.pending) == Elements(rest) + Elements(added);
  }

  lemma {:induction false} WithoutOne(p: seq<Fact>, i: nat)
    requires NoDuplicates(p) && i < |p|
    ensures var rest := p[..i] + p[i + 1..];
            && NoDuplicates(rest)
            && (forall j :: 0 <= j < |rest| ==> rest[j] == p[if j < i then j else j + 1])
            && Elements(rest) == Elements(p) - {p[i]}
  {
    var rest := p[..i] + p[i + 1..];
    forall x | x in p && x != p[i] ensures x in rest {
      var j :| 0 <= j < |p| && p[j] == x;
      assert x == rest[if j < i then j else j - 1];
    }
  }

  /** Taking the fact at `i` and queueing `added`, seen through the control facts. */
  lemma {:induction false} QueueControls(p: seq<Fact>, i: nat, added: seq<Fact>)
    requires i < |p|
    ensures var p' := p[..i] + p[i + 1..] + added;
            && (!IsControl(p[i]) ==> Controls(p') == Controls(p) + Controls(added))
            && (IsControl(p[i]) && |Controls(p)| <= 1 ==> Controls(p) == [p[i]] && Controls(p') == Controls(added))
  {
    ControlsWithout(p, i);
    ControlsConcat(p[..i] + p[i + 1..], added);
    assert Controls([p[i]]) == if IsControl(p[i]) then [p[i]] else [] by {
      assert Controls([p[i]][1..]) == [];
    }
    if IsControl(p[i]) && |Controls(p)| <= 1 {
      assert Controls(p[..i]) == [] && Controls(p[i + 1..]) == [];
    }
  }

  /** What one step does to the control facts. */
  lemma {:induction false} StepControls<E>(h: Hooks<E>, c: Config<E>, i: nat, elapsedMs: u32)
    requires i < |c.pending|
    ensures var f := c.pending[i]; var c' := Step(h, c, i, elapsedMs);
            var added := Fresh(Fire(h, c.state, f, elapsedMs).1, c.known);
            && (!IsControl(f) ==> Controls(c'.pending) == Controls(c.pending) + Controls(added))
            && (IsControl(f) && |Controls(c.pending)| <= 1 ==>
                Controls(c.pending) == [f] && Controls(c'.pending) == Controls(added))
  {
    QueueControls(c.pending, i, Fresh(Fire(h, c.state, c.pending[i], elapsedMs).1, c.known));
  }
}
