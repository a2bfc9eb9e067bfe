/** Sampling the next token: repetition penalty, greedy choice, temperature,
    softmax, nucleus. Over the reals; the exponential is any positive,
    strictly increasing function, and the sort any that sorts. */
module Sampler {
  import opened Prelude

  /** A logit: masked tokens are minus infinity. */
  datatype Logit = Finite(v: real) | NegInfinity | PosInfinity | NotANumber

  ghost predicate LikeExp(exp: real -> real) {
    (forall x :: exp(x) > 0.0) && (forall x, y :: x < y ==> exp(x) < exp(y))
  }

  type Entry = (nat, real)

  predicate Descending(s: seq<Entry>) {
    forall i, j :: 0 <= i < j < |s| ==> s[i].1 >= s[j].1
  }

  ghost predicate Sorts(sort: seq<Entry> -> seq<Entry>) {
    forall s :: Descending(sort(s)) && multiset(sort(s)) == multiset(s)
  }

  predicate SomeFinite(logits: seq<Logit>) {
    exists i :: 0 <= i < |logits| && logits[i].Finite?
  }

  // --- Repetition penalty -------------------------------------------------

  function Penalise(l: Logit, penalty: real): Logit
    requires penalty > 0.0
  {
    match l
    case Finite(v) => if v > 0.0 then Finite(v / penalty) else Finite(v * penalty)
    case _ => l
  }

  /** Every recent token is penalised once for each time it occurs. */
  function Penalised(logits: seq<Logit>, recent: seq<u32>, penalty: real): (r: seq<Logit>)
    requires penalty > 0.0
    ensures |r| == |logits|
    decreases |recent|
  {
    if recent == [] then logits
    else
      var idx := recent[0];
      Penalised(if idx < |logits| then logits[idx := Penalise(logits[idx], penalty)] else logits, recent[1..], penalty)
  }

  method ApplyPenalty(logits: array<Logit>, recent: seq<u32>, penalty: real)
    requires penalty > 0.0
    modifies logits
    ensures logits[..] == Penalised(old(logits[..]), recent, penalty)
  {
    var i := 0;
    while i < |recent|
      invariant i <= |recent|
      invariant Penalised(logits[..], recent[i..], penalty) == Penalised(old(logits[..]), recent, penalty)
    {
      var idx := recent[i];
      assert recent[i..][1..] == recent[i + 1..];
      if idx < logits.Length {
        logits[idx] := Penalise(logits[idx], penalty);
      }
      i := i + 1;
    }
  }

  predicate AtMost(a: Logit, b: Logit) {
    a == b || (a.Finite? && b.Finite? && a.v <= b.v)
  }

  lemma ScaledDown(v: real, penalty: real)
    requires penalty >= 1.0
    ensures v > 0.0 ==> v / penalty <= v
    ensures v <= 0.0 ==> v * penalty <= v
  {
    if v > 0.0 {
      var q := v / penalty;
      assert q * penalty == v;
      assert q > 0.0;
      assert q * penalty >= q * 1.0;
    } else {
      assert -v * penalty >= -v * 1.0;
    }
  }

  lemma PenaliseLowers(l: Logit, penalty: real)
    requires penalty >= 1.0
    ensures AtMost(Penalise(l, penalty), l)
  {
    if l.Finite? {
      ScaledDown(l.v, penalty);
    }
  }

  lemma AtMostChains(a: Logit, b: Logit, c: Logit)
    requires AtMost(a, b) && AtMost(b, c)
    ensures AtMost(a, c)
  {
  }

  /** A penalty of at least one raises no token, leaves tokens that are not
      recent alone, and masks or unmasks none. */
  lemma {:induction false} PenaltyNeverRaises(logits: seq<Logit>, recent: seq<u32>, penalty: real, i: nat)
    requires penalty > 0.0 && i < |logits|
    ensures Penalised(logits, recent, penalty)[i].Finite? <==> logits[i].Finite?
    ensures i !in recent ==> Penalised(logits, recent, penalty)[i] == logits[i]
    ensures penalty >= 1.0 ==> AtMost(Penalised(logits, recent, penalty)[i], logits[i])
    decreases |recent|
  {
    if recent != [] {
      var idx := recent[0];
      var next := if idx < |logits| then logits[idx := Penalise(logits[idx], penalty)] else logits;
      PenaltyNeverRaises(next, recent[1..], penalty, i);
      if penalty >= 1.0 {
        PenaliseLowers(logits[i], penalty);
        AtMostChains(Penalised(next, recent[1..], penalty)[i], next[i], logits[i]);
      }
      assert recent == [idx] + recent[1..];
    }
  }

  /** How often a token is among the recent ones. */
  function Occurrences(recent: seq<u32>, t: nat): nat {
    if recent == [] then 0 else (if recent[0] == t then 1 else 0) + Occurrences(recent[1..], t)
  }

  function Power(x: real, n: nat): real {
    if n == 0 then 1.0 else x * Power(x, n - 1)
  }

  lemma {:induction false} PowerPositive(x: real, n: nat)
    requires x > 0.0
    ensures Power(x, n) > 0.0
  {
    if n > 0 {
      PowerPositive(x, n - 1);
      Times(x, Power(x, n - 1));
    }
  }

  lemma Times(a: real, b: real)
    requires a > 0.0 && b > 0.0
    ensures a * b > 0.0
  {
  }

  /** What a token that is recent `n` times is left with. */
  predicate PenalisedTimes(was: Logit, now: Logit, penalty: real, n: nat) {
    if !was.Finite? then now == was
    else if was.v > 0.0 then now.Finite? && now.v > 0.0 && now.v * Power(penalty, n) == was.v
    else now.Finite? && now.v == was.v * Power(penalty, n)
  }

  lemma PenalisedOnce(was: Logit, penalty: real, now: Logit, n: nat)
    requires penalty > 0.0 && PenalisedTimes(Penalise(was, penalty), now, penalty, n)
    ensures PenalisedTimes(was, now, penalty, n + 1)
  {
    var power := Power(penalty, n);
    if was.Finite? && was.v > 0.0 {
      var q := was.v / penalty;
      assert q * penalty == was.v;
      QuotientPositive(was.v, penalty);
      Regroup(now.v, power, penalty);
    } else if was.Finite? {
      ProductNotPositive(was.v, penalty);
      Regroup(was.v, penalty, power);
    }
  }

  lemma QuotientPositive(a: real, b: real)
    requires a > 0.0 && b > 0.0
    ensures a / b > 0.0
  {
    assert a / b * b == a;
  }

  lemma ProductNotPositive(a: real, b: real)
    requires a <= 0.0 && b > 0.0
    ensures a * b <= 0.0
  {
  }

  lemma Regroup(a: real, b: real, c: real)
    ensures a * b * c == a * (b * c) == a * (c * b)
  {
  }

  /** The penalty in closed form: a positive logit is divided by the power of the
      penalty for how often its token is recent, any other one multiplied by it. */
  lemma {:induction false} PenaltyCounts(logits: seq<Logit>, recent: seq<u32>, penalty: real, i: nat)
    requires penalty > 0.0 && i < |logits|
    ensures PenalisedTimes(logits[i], Penalised(logits, recent, penalty)[i], penalty, Occurrences(recent, i))
    decreases |recent|
  {
    if recent != [] {
      var idx := recent[0];
      var next := if idx < |logits| then logits[idx := Penalise(logits[idx], penalty)] else logits;
      PenaltyCounts(next, recent[1..], penalty, i);
      if idx == i {
        PenalisedOnce(logits[i], penalty, Penalised(next, recent[1..], penalty)[i], Occurrences(recent[1..], i));
      }
    }
  }

  // --- Greedy -------------------------------------------------------------

  /** The last of the largest finite logits. */
  predicate IsGreatest(logits: seq<Logit>, best: nat) {
    && best < |logits| && logits[best].Finite?
    && (forall i :: 0 <= i < |logits| && logits[i].Finite? ==> logits[i].v <= logits[best].v)
    && (forall i :: best < i < |logits| && logits[i].Finite? ==> logits[i].v < logits[best].v)
  }

  method Greedy(logits: seq<Logit>) returns (token: nat)
    ensures SomeFinite(logits) ==> IsGreatest(logits, token)
    ensures !SomeFinite(logits) ==> token == 0
  {
    token := 0;
    var found := false;
    var i := 0;
    while i < |logits|
      invariant i <= |logits|
      invariant found <==> SomeFinite(logits[..i])
      invariant found ==> IsGreatest(logits[..i], token)
      invariant !found ==> token == 0
    {
      assert logits[..i + 1] == logits[..i] + [logits[i]];
      if logits[i].Finite? {
        assert logits[..i + 1][i].Finite?;
        if !found || logits[i].v >= logits[token].v {
          token := i;
        }
        found := true;
      } else if found {
        assert logits[..i + 1][token].Finite?;
      }
      i := i + 1;
    }
    assert logits[..i] == logits;
  }

  // --- Softmax ------------------------------------------------------------

  function Scale(l: Logit, inverse: real): Logit {
    if l.Finite? then Finite(l.v * inverse) else NegInfinity
  }

  function Scaled(logits: seq<Logit>, inverse: real): (r: seq<Logit>)
    ensures |r| == |logits| && forall i :: 0 <= i < |r| ==> r[i] == Scale(logits[i], inverse)
  {
    seq(|logits|, i requires 0 <= i < |logits| => Scale(logits[i], inverse))
  }

  /** The weight of a logit against the largest; masked tokens weigh nothing. */
  function Weight(l: Logit, largest: real, exp: real -> real): real {
    if l.Finite? then exp(l.v - largest) else 0.0
  }

  function Weights(logits: seq<Logit>, largest: real, exp: real -> real): (r: seq<real>)
    ensures |r| == |logits| && forall i :: 0 <= i < |r| ==> r[i] == Weight(logits[i], largest, exp)
  {
    seq(|logits|, i requires 0 <= i < |logits| => Weight(logits[i], largest, exp))
  }

  function Sum(s: seq<real>): real {
    if s == [] then 0.0 else Sum(s[..|s| - 1]) + s[|s| - 1]
  }

  lemma {:induction false} SumAtLeast(s: seq<real>, i: nat)
    requires i < |s| && forall j :: 0 <= j < |s| ==> s[j] >= 0.0
    ensures Sum(s) >= s[i]
  {
    var init := s[..|s| - 1];
    SumNonNegative(init);
    if i < |init| {
      SumAtLeast(init, i);
    }
  }

  lemma {:induction false} SumNonNegative(s: seq<real>)
    requires forall j :: 0 <= j < |s| ==> s[j] >= 0.0
    ensures Sum(s) >= 0.0
  {
    if s != [] {
      SumNonNegative(s[..|s| - 1]);
    }
  }

  function Divided(s: seq<real>, sum: real): (r: seq<real>)
    requires sum != 0.0
    ensures |r| == |s| && forall i :: 0 <= i < |r| ==> r[i] == s[i] / sum
  {
    seq(|s|, i requires 0 <= i < |s| => s[i] / sum)
  }

  lemma {:induction false} SumDivided(s: seq<real>, sum: real)
    requires sum != 0.0
    ensures Sum(Divided(s, sum)) == Sum(s) / sum
  {
    if s != [] {
      SumDivided(s[..|s| - 1], sum);
      assert Divided(s, sum)[..|s| - 1] == Divided(s[..|s| - 1], sum);
    }
  }

  predicate IsLargest(logits: seq<Logit>, largest: real) {
    && (exists i :: 0 <= i < |logits| && logits[i] == Finite(largest))
    && (forall i :: 0 <= i < |logits| && logits[i].Finite? ==> logits[i].v <= largest)
  }

  lemma WeightsPositive(logits: seq<Logit>, largest: real, exp: real -> real)
    requires LikeExp(exp) && IsLargest(logits, largest)
    ensures Sum(Weights(logits, largest, exp)) > 0.0
    ensures forall i :: 0 <= i < |logits| ==> Weights(logits, largest, exp)[i] >= 0.0
  {
    var w := Weights(logits, largest, exp);
    var i :| 0 <= i < |logits| && logits[i] == Finite(largest);
    assert w[i] == exp(largest - largest) && w[i] > 0.0;
    SumAtLeast(w, i);
  }

  /** A token's share of the whole: none if it is masked, and more for a larger
      logit. */
  lemma SharesFollowLogits(logits: seq<Logit>, largest: real, exp: real -> real, i: nat, j: nat)
    requires LikeExp(exp) && IsLargest(logits, largest) && i < |logits| && j < |logits|
    ensures var w := Weights(logits, largest, exp);
      Sum(w) > 0.0 && var p := Divided(w, Sum(w));
      && p[i] >= 0.0 && (p[i] > 0.0 <==> logits[i].Finite?)
      && (p[i] >= p[j] && logits[j].Finite? ==> logits[i].Finite? && logits[i].v >= logits[j].v)
  {
    var w := Weights(logits, largest, exp);
    WeightsPositive(logits, largest, exp);
    DivisionOrders(w[i], w[j], Sum(w));
    DivisionOrders(w[i], 0.0, Sum(w));
    DivisionOrders(w[j], 0.0, Sum(w));
    if logits[i].Finite? && logits[j].Finite? && logits[i].v < logits[j].v {
      assert exp(logits[i].v - largest) < exp(logits[j].v - largest);
    }
  }

  lemma DivisionOrders(a: real, b: real, c: real)
    requires c > 0.0
    ensures a / c >= b / c <==> a >= b
    ensures a / c > 0.0 <==> a > 0.0
  {
    var x, y := a / c, b / c;
    assert x * c == a && y * c == b;
    if x >= y {
      assert (x - y) * c >= 0.0;
    } else {
      assert (y - x) * c > 0.0;
    }
  }

  // --- Nucleus ------------------------------------------------------------

  function Pairs(p: seq<real>): (r: seq<Entry>)
    ensures |r| == |p| && forall i :: 0 <= i < |r| ==> r[i] == (i, p[i])
  {
    seq(|p|, i requires 0 <= i < |p| => (i, p[i]))
  }

  function Mass(s: seq<Entry>): real {
    if s == [] then 0.0 else Mass(s[..|s| - 1]) + s[|s| - 1].1
  }

  lemma {:induction false} MassOfPairs(p: seq<real>)
    ensures Mass(Pairs(p)) == Sum(p)
  {
    if p != [] {
      MassOfPairs(p[..|p| - 1]);
      assert Pairs(p)[..|p| - 1] == Pairs(p[..|p| - 1]);
    }
  }

  lemma {:induction false} MassAppend(a: seq<Entry>, b: seq<Entry>)
    ensures Mass(a + b) == Mass(a) + Mass(b)
  {
    if b == [] {
      assert a + b == a;
    } else {
      assert (a + b)[..|a + b| - 1] == a + b[..|b| - 1];
      MassAppend(a, b[..|b| - 1]);
    }
  }

  lemma MassOfOne(e: Entry)
    ensures Mass([e]) == e.1
  {
    assert [e][..0] == [];
  }

  /** Sorting keeps the whole mass. */
  lemma {:induction false} MassOfPermutation(a: seq<Entry>, b: seq<Entry>)
    requires multiset(a) == multiset(b)
    ensures Mass(a) == Mass(b)
  {
    if a == [] {
      assert |b| == |multiset(b)| == |multiset(a)| == 0;
    } else {
      var init, e := a[..|a| - 1], a[|a| - 1];
      assert a == init + [e];
      assert e in multiset(b);
      var i :| 0 <= i < |b| && b[i] == e;
      assert b == b[..i] + [e] + b[i + 1..];
      assert multiset(a) == multiset(init) + multiset{e};
      assert multiset(b) == multiset(b[..i] + b[i + 1..]) + multiset{e};
      assert multiset(init) == multiset(a) - multiset{e} == multiset(b) - multiset{e};
      MassOfPermutation(init, b[..i] + b[i + 1..]);
      MassAppend(b[..i], b[i + 1..]);
      MassAppend(b[..i] + [e], b[i + 1..]);
      MassAppend(b[..i], [e]);
      MassOfOne(e);
    }
  }

  /** How many of the sorted tokens it takes to reach `topP`. */
  function Cutoff(s: seq<Entry>, topP: real, from: nat): nat
    requires from <= |s|
    decreases |s| - from
  {
    if from == |s| then |s|
    else if Mass(s[..from + 1]) >= topP then from + 1
    else Cutoff(s, topP, from + 1)
  }

  /** The drawn point, on the scale of the nucleus. */
  function Point(uniform: real, mass: real): real {
    uniform * mass
  }

  /** The first token at which the running mass reaches the drawn point. */
  function Pick(nucleus: seq<Entry>, point: real, from: nat): nat
    requires nucleus != [] && from <= |nucleus|
    decreases |nucleus| - from
  {
    if from == |nucleus| then nucleus[|nucleus| - 1].0
    else if Mass(nucleus[..from + 1]) >= point then nucleus[from].0
    else Pick(nucleus, point, from + 1)
  }

  lemma MassSnoc(s: seq<Entry>, i: nat)
    requires i < |s|
    ensures Mass(s[..i + 1]) == Mass(s[..i]) + s[i].1
  {
    assert s[..i + 1][..i] == s[..i];
  }

  /** The shortest prefix of at least mass `topP`. */
  predicate IsShortest(s: seq<Entry>, topP: real, n: nat) {
    && 0 < n <= |s| && Mass(s[..n]) >= topP
    && forall m :: 0 <= m < n ==> Mass(s[..m]) < topP
  }

  lemma {:induction false} CutoffIsShortest(s: seq<Entry>, topP: real, from: nat)
    requires from <= |s| && Mass(s) >= topP && topP > 0.0
    requires forall m :: 0 <= m <= from ==> Mass(s[..m]) < topP
    ensures IsShortest(s, topP, Cutoff(s, topP, from))
    decreases |s| - from
  {
    assert s[..|s|] == s;
    if from < |s| && Mass(s[..from + 1]) < topP {
      CutoffIsShortest(s, topP, from + 1);
    }
  }

  /** Every token of the shortest prefix has mass of its own. */
  lemma ShortestHasMass(s: seq<Entry>, topP: real, n: nat)
    requires Descending(s) && IsShortest(s, topP, n)
    ensures forall i :: 0 <= i < n ==> s[i].1 > 0.0
  {
    MassSnoc(s, n - 1);
    assert Mass(s[..n - 1]) < topP;
    assert s[n - 1].1 > 0.0;
  }

  /** The stretch of the mass that holds the point. */
  predicate Covers(nucleus: seq<Entry>, point: real, k: nat) {
    k < |nucleus| && point <= Mass(nucleus[..k + 1]) && (k == 0 || Mass(nucleus[..k]) < point)
  }

  /** The uniform draw selects entry `k`: its share of the nucleus is drawn on. */
  predicate Selects(nucleus: seq<Entry>, uniform: real, k: nat) {
    k < |nucleus| && InStretch(uniform, Mass(nucleus), Mass(nucleus[..k]), Mass(nucleus[..k + 1]), k == 0)
  }

  /** The part `uniform` of `mass` lies between `low` and `high`; the first stretch
      holds its lower end, too. */
  predicate InStretch(uniform: real, mass: real, low: real, high: real, first: bool) {
    uniform * mass <= high && (first || low < uniform * mass)
  }

  lemma PointInStretch(uniform: real, mass: real, low: real, high: real, first: bool)
    requires Point(uniform, mass) <= high && (first || low < Point(uniform, mass))
    ensures InStretch(uniform, mass, low, high, first)
  {
  }

  lemma CoversSelects(nucleus: seq<Entry>, uniform: real, k: nat)
    requires Covers(nucleus, Point(uniform, Mass(nucleus)), k)
    ensures Selects(nucleus, uniform, k)
  {
    PointInStretch(uniform, Mass(nucleus), Mass(nucleus[..k]), Mass(nucleus[..k + 1]), k == 0);
  }

  lemma ScaledOrder(u: real, mass: real, bound: real)
    requires mass > 0.0
    ensures u * mass <= bound <==> u <= bound / mass
  {
    var q := bound / mass;
    assert q * mass == bound;
    if u <= q {
      assert (q - u) * mass >= 0.0;
    } else {
      assert (u - q) * mass > 0.0;
    }
  }

  lemma StretchInQuotients(u: real, mass: real, low: real, high: real, first: bool)
    requires mass > 0.0
    ensures InStretch(u, mass, low, high, first) <==> u <= high / mass && (first || low / mass < u)
  {
    ScaledOrder(u, mass, low);
    ScaledOrder(u, mass, high);
  }

  /** The draws that select an entry form an interval, as long as the entry's share
      of the nucleus; the first entry's reaches down without a bound. */
  lemma DrawsFormInterval(nucleus: seq<Entry>, k: nat, uniform: real)
    requires k < |nucleus| && Mass(nucleus) > 0.0
    ensures var low, high := Mass(nucleus[..k]) / Mass(nucleus), Mass(nucleus[..k + 1]) / Mass(nucleus);
            && (Selects(nucleus, uniform, k) <==> (k > 0 ==> low < uniform) && uniform <= high)
            && high - low == nucleus[k].1 / Mass(nucleus)
            && (k == 0 ==> low == 0.0)
  {
    StretchInQuotients(uniform, Mass(nucleus), Mass(nucleus[..k]), Mass(nucleus[..k + 1]), k == 0);
    MassSnoc(nucleus, k);
    QuotientOfSum(Mass(nucleus[..k]), nucleus[k].1, Mass(nucleus));
  }

  lemma QuotientOfSum(a: real, b: real, c: real)
    requires c > 0.0
    ensures (a + b) / c - a / c == b / c
  {
  }

  /** No draw selects two entries. */
  lemma OneIsSelected(nucleus: seq<Entry>, uniform: real, j: nat, k: nat)
    requires Selects(nucleus, uniform, j) && Selects(nucleus, uniform, k)
    requires forall i :: 0 <= i < |nucleus| ==> nucleus[i].1 >= 0.0
    ensures j == k
  {
    if j < k {
      MassGrows(nucleus, j + 1, k);
    } else if k < j {
      MassGrows(nucleus, k + 1, j);
    }
  }

  lemma {:induction false} MassGrows(s: seq<Entry>, m: nat, n: nat)
    requires m <= n <= |s| && forall i :: 0 <= i < |s| ==> s[i].1 >= 0.0
    ensures Mass(s[..m]) <= Mass(s[..n])
    decreases n
  {
    if m < n {
      MassSnoc(s, n - 1);
      MassGrows(s, m, n - 1);
    }
  }

  /** A point inside the mass is covered, and by the entry picked. */
  lemma {:induction false} PickCovers(nucleus: seq<Entry>, point: real, from: nat) returns (k: nat)
    requires from < |nucleus| && point <= Mass(nucleus)
    requires from == 0 || Mass(nucleus[..from]) < point
    ensures Covers(nucleus, point, k) && Pick(nucleus, point, from) == nucleus[k].0
    decreases |nucleus| - from
  {
    assert nucleus[..|nucleus|] == nucleus;
    if Mass(nucleus[..from + 1]) >= point {
      k := from;
    } else {
      k := PickCovers(nucleus, point, from + 1);
    }
  }

  // --- Parameters and loops -----------------------------------------------

  datatype Params = Params(temperature: real, topP: real, penalty: real)

  /** What the request checks let through. */
  predicate ParamsOk(p: Params) {
    p.temperature >= 0.0 && 0.0 < p.topP <= 1.0 && p.penalty > 0.0
  }

  const GREEDY_BELOW: real := 0.0000001

  method ScaleAll(logits: array<Logit>, inverse: real)
    modifies logits
    ensures logits[..] == Scaled(old(logits[..]), inverse)
  {
    for i := 0 to logits.Length
      invariant forall j :: 0 <= j < i ==> logits[j] == Scale(old(logits[j]), inverse)
      invariant forall j :: i <= j < logits.Length ==> logits[j] == old(logits[j])
    {
      logits[i] := Scale(logits[i], inverse);
    }
  }

  /** The largest logit, or minus infinity; folds over scaled logits. */
  method Largest(logits: seq<Logit>) returns (largest: Logit)
    requires forall i :: 0 <= i < |logits| ==> logits[i].Finite? || logits[i].NegInfinity?
    ensures if SomeFinite(logits) then largest.Finite? && IsLargest(logits, largest.v) else largest.NegInfinity?
  {
    largest := NegInfinity;
    for i := 0 to |logits|
      invariant largest.Finite? || largest.NegInfinity?
      invariant largest.NegInfinity? ==> forall j :: 0 <= j < i ==> logits[j].NegInfinity?
      invariant largest.Finite? ==>
        (exists j :: 0 <= j < i && logits[j] == largest)
        && (forall j :: 0 <= j < i && logits[j].Finite? ==> logits[j].v <= largest.v)
    {
      if logits[i].Finite? && (largest.NegInfinity? || logits[i].v > largest.v) {
        largest := logits[i];
      }
    }
  }

  method Softmax(logits: seq<Logit>, largest: real, exp: real -> real) returns (probs: seq<real>)
    requires Sum(Weights(logits, largest, exp)) > 0.0
    ensures var w := Weights(logits, largest, exp); probs == Divided(w, Sum(w))
  {
    var w := Weights(logits, largest, exp);
    var sum := 0.0;
    for i := 0 to |w|
      invariant sum == Sum(w[..i])
    {
      assert w[..i + 1][..i] == w[..i];
      sum := sum + w[i];
    }
    assert w[..|w|] == w;
    probs := Divided(w, sum);
  }

  /** The nucleus of sorted shares, and a draw from it. */
  method Draw(sorted: seq<Entry>, topP: real, uniform: real) returns (token: nat)
    requires sorted != []
    ensures var n := Cutoff(sorted, topP, 0);
      0 < n <= |sorted| && token == Pick(sorted[..n], Point(uniform, Mass(sorted[..n])), 0)
  {
    var cumsum, cutoff, i := 0.0, |sorted|, 0;
    var reached := false;
    while i < |sorted| && !reached
      invariant i <= |sorted| && cumsum == Mass(sorted[..i])
      invariant !reached ==> cutoff == |sorted| && Cutoff(sorted, topP, 0) == Cutoff(sorted, topP, i)
      invariant reached ==> cutoff == Cutoff(sorted, topP, 0) && 0 < cutoff <= |sorted|
      decreases |sorted| - i, !reached
    {
      MassSnoc(sorted, i);
      cumsum := cumsum + sorted[i].1;
      i := i + 1;
      if cumsum >= topP {
        cutoff := i;
        reached := true;
      }
    }
    assert cutoff == Cutoff(sorted, topP, 0);
    var nucleus := sorted[..cutoff];
    var nsum := 0.0;
    for j := 0 to |nucleus|
      invariant nsum == Mass(nucleus[..j])
    {
      MassSnoc(nucleus, j);
      nsum := nsum + nucleus[j].1;
    }
    assert nucleus[..|nucleus|] == nucleus;
    assert nsum == Mass(sorted[..cutoff]);
    var r := Point(uniform, nsum);
    var acc := 0.0;
    for j := 0 to |nucleus|
      invariant acc == Mass(nucleus[..j])
      invariant Pick(nucleus, r, j) == Pick(nucleus, r, 0)
    {
      MassSnoc(nucleus, j);
      acc := acc + nucleus[j].1;
      if acc >= r {
        assert Pick(nucleus, r, 0) == nucleus[j].0;
        return nucleus[j].0;
      }
    }
    assert Pick(nucleus, r, 0) == nucleus[|nucleus| - 1].0;
    token := nucleus[|nucleus| - 1].0;
  }

  lemma {:induction false} HasLargest(logits: seq<Logit>)
    requires SomeFinite(logits)
    ensures exists largest :: IsLargest(logits, largest)
  {
    var init, last := logits[..|logits| - 1], logits[|logits| - 1];
    if SomeFinite(init) {
      HasLargest(init);
      var largest :| IsLargest(init, largest);
      var i :| 0 <= i < |init| && init[i] == Finite(largest);
      assert logits[i] == Finite(largest);
      assert IsLargest(logits, if last.Finite? && last.v > largest then last.v else largest);
    } else {
      assert forall j :: 0 <= j < |init| ==> !init[j].Finite?;
      assert forall j :: 0 <= j < |init| ==> !logits[j].Finite?;
      assert IsLargest(logits, last.v);
    }
  }

  ghost function LargestOf(logits: seq<Logit>): (largest: real)
    requires SomeFinite(logits)
    ensures IsLargest(logits, largest)
  {
    HasLargest(logits);
    var largest :| IsLargest(logits, largest);
    largest
  }

  lemma ScaledFinite(logits: seq<Logit>, inverse: real)
    ensures SomeFinite(Scaled(logits, inverse)) <==> SomeFinite(logits)
  {
    if SomeFinite(logits) {
      var i :| 0 <= i < |logits| && logits[i].Finite?;
      assert Scaled(logits, inverse)[i].Finite?;
    }
  }

  /** The tokens' shares, in descending order. */
  ghost function SortedShares(logits: seq<Logit>, inverse: real, exp: real -> real, sort: seq<Entry> -> seq<Entry>): seq<Entry>
    requires SomeFinite(logits) && LikeExp(exp)
  {
    ScaledFinite(logits, inverse);
    var scaled := Scaled(logits, inverse);
    var largest := LargestOf(scaled);
    WeightsPositive(scaled, largest, exp);
    var w := Weights(scaled, largest, exp);
    sort(Pairs(Divided(w, Sum(w))))
  }

  /** The token a draw selects. */
  ghost function Drawn(sorted: seq<Entry>, topP: real, uniform: real): nat
    requires sorted != []
  {
    var n := Cutoff(sorted, topP, 0);
    if 0 < n <= |sorted| then Pick(sorted[..n], Point(uniform, Mass(sorted[..n])), 0) else 0
  }

  lemma {:induction false} NoPenalty(logits: seq<Logit>, recent: seq<u32>)
    ensures Penalised(logits, recent, 1.0) == logits
    decreases |recent|
  {
    if recent != [] {
      var idx := recent[0];
      if idx < |logits| {
        assert logits[idx := Penalise(logits[idx], 1.0)] == logits;
      }
      NoPenalty(logits, recent[1..]);
    }
  }

  lemma PenaltyKeepsFinite(logits: seq<Logit>, recent: seq<u32>, penalty: real)
    requires penalty > 0.0
    ensures SomeFinite(Penalised(logits, recent, penalty)) <==> SomeFinite(logits)
  {
    forall i | 0 <= i < |logits|
      ensures Penalised(logits, recent, penalty)[i].Finite? <==> logits[i].Finite?
    {
      PenaltyNeverRaises(logits, recent, penalty, i);
    }
  }

  lemma SortedNotEmpty(sort: seq<Entry> -> seq<Entry>, s: seq<Entry>)
    requires Sorts(sort)
    ensures |sort(s)| == |s|
  {
    assert |sort(s)| == |multiset(sort(s))| == |multiset(s)| == |s|;
  }

  lemma OneLargest(logits: seq<Logit>, a: real, b: real)
    requires IsLargest(logits, a) && IsLargest(logits, b)
    ensures a == b
  {
  }

  /** Softmax, sort, cut and draw, on scaled logits. */
  method Sample(scaled: seq<Logit>, topP: real, uniform: real, exp: real -> real, sort: seq<Entry> -> seq<Entry>)
    returns (token: nat)
    requires LikeExp(exp) && Sorts(sort)
    requires forall i :: 0 <= i < |scaled| ==> scaled[i].Finite? || scaled[i].NegInfinity?
    ensures !SomeFinite(scaled) ==> token == 0
    ensures SomeFinite(scaled) ==>
      var w := Weights(scaled, LargestOf(scaled), exp);
      Sum(w) > 0.0 && var sorted := sort(Pairs(Divided(w, Sum(w))));
      sorted != [] && token == Drawn(sorted, topP, uniform)
  {
    var largest := Largest(scaled);
    if largest.NegInfinity? {
      // Every share is not a number, so none is kept.
      return 0;
    }
    OneLargest(scaled, largest.v, LargestOf(scaled));
    WeightsPositive(scaled, largest.v, exp);
    var shares := Softmax(scaled, largest.v, exp);
    SortedNotEmpty(sort, Pairs(shares));
    token := Draw(sort(Pairs(shares)), topP, uniform);
  }

  // --- What is drawn ------------------------------------------------------

  lemma EntriesOf(sorted: seq<Entry>, shares: seq<real>)
    requires multiset(sorted) == multiset(Pairs(shares))
    ensures |sorted| == |shares|
    ensures forall i :: 0 <= i < |sorted| ==> sorted[i].0 < |shares| && sorted[i].1 == shares[sorted[i].0]
  {
    assert |sorted| == |multiset(sorted)| == |multiset(Pairs(shares))| == |shares|;
    forall i | 0 <= i < |sorted|
      ensures sorted[i].0 < |shares| && sorted[i].1 == shares[sorted[i].0]
    {
      assert sorted[i] in multiset(sorted);
      assert sorted[i] in Pairs(shares);
    }
  }

  lemma SelfQuotient(x: real)
    requires x > 0.0
    ensures x / x == 1.0
  {
  }

  lemma SharesMakeOne(w: seq<real>, sum: real, sorted: seq<Entry>)
    requires sum == Sum(w) > 0.0 && multiset(sorted) == multiset(Pairs(Divided(w, sum)))
    ensures Mass(sorted) == 1.0
  {
    MassOfPermutation(sorted, Pairs(Divided(w, sum)));
    MassOfPairs(Divided(w, sum));
    SumDivided(w, sum);
    SelfQuotient(sum);
  }

  /** Of two tokens the one with the larger share has the larger logit. */
  lemma SharesOrder(logits: seq<Logit>, inverse: real, largest: real, exp: real -> real, i: nat, j: nat)
    requires LikeExp(exp) && IsLargest(Scaled(logits, inverse), largest) && inverse > 0.0
    requires i < |logits| && j < |logits|
    ensures var w := Weights(Scaled(logits, inverse), largest, exp);
      Sum(w) > 0.0 && var p := Divided(w, Sum(w));
      && (p[i] > 0.0 ==> logits[i].Finite?)
      && (p[i] >= p[j] && logits[j].Finite? ==> logits[i].Finite? && logits[i].v >= logits[j].v)
  {
    SharesFollowLogits(Scaled(logits, inverse), largest, exp, i, j);
    if logits[i].Finite? && logits[j].Finite? {
      Unscaled(logits[i].v, logits[j].v, inverse);
    }
  }

  /** Entries in an order their logits follow. */
  ghost predicate InOrder(logits: seq<Logit>, sorted: seq<Entry>) {
    && |sorted| == |logits|
    && (forall i :: 0 <= i < |sorted| ==> sorted[i].0 < |logits|)
    && (forall i :: 0 <= i < |sorted| ==> sorted[i].1 > 0.0 ==> logits[sorted[i].0].Finite?)
    && (forall i, j :: 0 <= i < j < |sorted| ==>
          logits[sorted[j].0].Finite? ==> logits[sorted[i].0].Finite? && logits[sorted[i].0].v >= logits[sorted[j].0].v)
  }

  lemma EntriesInOrder(logits: seq<Logit>, inverse: real, largest: real, exp: real -> real, sorted: seq<Entry>)
    requires LikeExp(exp) && IsLargest(Scaled(logits, inverse), largest) && inverse > 0.0 && Descending(sorted)
    requires |sorted| == |logits|
    requires var w := Weights(Scaled(logits, inverse), largest, exp);
      Sum(w) > 0.0 && forall i :: 0 <= i < |sorted| ==>
        sorted[i].0 < |logits| && sorted[i].1 == Divided(w, Sum(w))[sorted[i].0]
    ensures InOrder(logits, sorted)
  {
    forall i | 0 <= i < |sorted|
      ensures sorted[i].1 > 0.0 ==> logits[sorted[i].0].Finite?
    {
      SharesOrder(logits, inverse, largest, exp, sorted[i].0, sorted[i].0);
    }
    forall i, j | 0 <= i < j < |sorted|
      ensures logits[sorted[j].0].Finite? ==>
        logits[sorted[i].0].Finite? && logits[sorted[i].0].v >= logits[sorted[j].0].v
    {
      SharesOrder(logits, inverse, largest, exp, sorted[i].0, sorted[j].0);
    }
  }

  /** The sorted shares make up one, and descend as the logits do. */
  lemma SharesAreSorted(logits: seq<Logit>, inverse: real, exp: real -> real, sort: seq<Entry> -> seq<Entry>)
    requires SomeFinite(logits) && LikeExp(exp) && Sorts(sort) && inverse > 0.0
    ensures var sorted := SortedShares(logits, inverse, exp, sort);
      Descending(sorted) && Mass(sorted) == 1.0 && InOrder(logits, sorted)
  {
    ScaledFinite(logits, inverse);
    var scaled := Scaled(logits, inverse);
    var largest := LargestOf(scaled);
    WeightsPositive(scaled, largest, exp);
    var w := Weights(scaled, largest, exp);
    var sorted := sort(Pairs(Divided(w, Sum(w))));
    EntriesOf(sorted, Divided(w, Sum(w)));
    SharesMakeOne(w, Sum(w), sorted);
    EntriesInOrder(logits, inverse, largest, exp, sorted);
  }

  lemma Unscaled(a: real, b: real, inverse: real)
    requires inverse > 0.0
    ensures a * inverse >= b * inverse ==> a >= b
  {
    if a < b {
      assert (b - a) * inverse > 0.0;
    }
  }

  /** A sampled token is in range and not masked; it lies in the shortest run of
      most probable tokens that reaches `topP`, no token left out is more
      probable than one kept, and it is the one the uniform draw selects. */
  lemma DrawIsFromNucleus(logits: seq<Logit>, inverse: real, topP: real, uniform: real,
                          exp: real -> real, sort: seq<Entry> -> seq<Entry>) returns (n: nat, k: nat)
    requires SomeFinite(logits) && LikeExp(exp) && Sorts(sort) && inverse > 0.0
    requires 0.0 < topP <= 1.0 && 0.0 <= uniform < 1.0
    ensures var sorted := SortedShares(logits, inverse, exp, sort);
      && |sorted| == |logits| && IsShortest(sorted, topP, n)
      && Selects(sorted[..n], uniform, k)
      && var token := Drawn(sorted, topP, uniform);
      && token == sorted[k].0 && token < |logits| && logits[token].Finite?
      && forall j :: n <= j < |sorted| ==> sorted[j].0 < |logits| &&
                                           (logits[sorted[j].0].Finite? ==> logits[sorted[j].0].v <= logits[token].v)
  {
    var sorted := SortedShares(logits, inverse, exp, sort);
    SharesAreSorted(logits, inverse, exp, sort);
    n := Cutoff(sorted, topP, 0);
    CutoffIsShortest(sorted, topP, 0);
    ShortestHasMass(sorted, topP, n);
    var nucleus := sorted[..n];
    PointInside(uniform, Mass(nucleus));
    k := PickCovers(nucleus, Point(uniform, Mass(nucleus)), 0);
    CoversSelects(nucleus, uniform, k);
    assert sorted[k].1 > 0.0;
  }

  lemma PointInside(uniform: real, mass: real)
    requires 0.0 <= uniform < 1.0 && mass > 0.0
    ensures Point(uniform, mass) <= mass
  {
    assert (1.0 - uniform) * mass > 0.0;
  }

  /** Entries that are the softmax of the logits: one for each token, none for a
      masked one, of mass one, and in the proportions of the exponentials of the
      scaled logits, taken from the largest of them. */
  ghost predicate IsSoftmax(logits: seq<Logit>, inverse: real, exp: real -> real, entries: seq<Entry>) {
    && |entries| == |logits|
    && (forall i :: 0 <= i < |entries| ==> entries[i].0 < |logits|)
    && (forall i, j :: 0 <= i < j < |entries| ==> entries[i].0 != entries[j].0)
    && Mass(entries) == 1.0
    && (forall i :: 0 <= i < |entries| ==> (entries[i].1 > 0.0 <==> logits[entries[i].0].Finite?) && entries[i].1 >= 0.0)
    && exists top :: IsLargest(logits, top) && Proportional(logits, inverse, exp, entries, top)
  }

  ghost predicate Proportional(logits: seq<Logit>, inverse: real, exp: real -> real, entries: seq<Entry>, top: real) {
    forall i, j :: 0 <= i < |entries| && 0 <= j < |entries| ==> InProportion(logits, inverse, exp, entries[i], entries[j], top)
  }

  ghost predicate InProportion(logits: seq<Logit>, inverse: real, exp: real -> real, a: Entry, b: Entry, top: real) {
    a.0 < |logits| && b.0 < |logits| && logits[a.0].Finite? && logits[b.0].Finite? ==>
      a.1 * exp(logits[b.0].v * inverse - top * inverse) == b.1 * exp(logits[a.0].v * inverse - top * inverse)
  }

  lemma CrossProducts(a: real, b: real, sum: real)
    requires sum > 0.0
    ensures a / sum * b == b / sum * a
  {
    assert a / sum * b == a * b / sum;
  }

  /** Distinct entries stay distinct when sorted. */
  lemma TokensDistinct(sorted: seq<Entry>, shares: seq<real>, i: nat, j: nat)
    requires multiset(sorted) == multiset(Pairs(shares)) && i < j < |sorted|
    ensures sorted[i].0 != sorted[j].0
  {
    EntriesOf(sorted, shares);
    if sorted[i].0 == sorted[j].0 {
      var e := sorted[i];
      assert sorted == sorted[..i] + [e] + sorted[i + 1..j] + [e] + sorted[j + 1..];
      assert multiset(sorted)[e] >= 2;
      OnePair(shares, e);
    }
  }

  lemma OnePair(shares: seq<real>, e: Entry)
    ensures multiset(Pairs(shares))[e] <= 1
  {
    var pairs := Pairs(shares);
    if e in pairs {
      var i :| 0 <= i < |pairs| && pairs[i] == e;
      assert pairs == pairs[..i] + [e] + pairs[i + 1..];
      assert e !in pairs[..i] && e !in pairs[i + 1..];
    }
  }

  /** The largest logit scaled is the largest of the scaled ones. */
  lemma LargestScaled(logits: seq<Logit>, inverse: real, largest: real) returns (top: real)
    requires inverse > 0.0 && IsLargest(Scaled(logits, inverse), largest)
    ensures IsLargest(logits, top) && largest == top * inverse
  {
    var i :| 0 <= i < |logits| && Scaled(logits, inverse)[i] == Finite(largest);
    top := logits[i].v;
    forall j | 0 <= j < |logits| && logits[j].Finite?
      ensures logits[j].v <= top
    {
      assert Scaled(logits, inverse)[j].Finite?;
      Unscaled(top, logits[j].v, inverse);
    }
  }

  /** The sorted shares are the softmax. */
  lemma SharesAreSoftmax(logits: seq<Logit>, inverse: real, exp: real -> real, sort: seq<Entry> -> seq<Entry>)
    requires SomeFinite(logits) && LikeExp(exp) && Sorts(sort) && inverse > 0.0
    ensures IsSoftmax(logits, inverse, exp, SortedShares(logits, inverse, exp, sort))
  {
    SharesAreSorted(logits, inverse, exp, sort);
    ScaledFinite(logits, inverse);
    var scaled := Scaled(logits, inverse);
    var largest := LargestOf(scaled);
    WeightsPositive(scaled, largest, exp);
    var w := Weights(scaled, largest, exp);
    var shares := Divided(w, Sum(w));
    var sorted := sort(Pairs(shares));
    EntriesOf(sorted, shares);
    forall i, j | 0 <= i < j < |sorted|
      ensures sorted[i].0 != sorted[j].0
    {
      TokensDistinct(sorted, shares, i, j);
    }
    forall i | 0 <= i < |sorted|
      ensures (sorted[i].1 > 0.0 <==> logits[sorted[i].0].Finite?) && sorted[i].1 >= 0.0
    {
      SharesFollowLogits(scaled, largest, exp, sorted[i].0, sorted[i].0);
    }
    var top := LargestScaled(logits, inverse, largest);
    SharesProportional(logits, inverse, exp, sorted, top, Sum(w));
  }

  lemma SharesProportional(logits: seq<Logit>, inverse: real, exp: real -> real, sorted: seq<Entry>, top: real, sum: real)
    requires sum > 0.0
    requires forall i :: 0 <= i < |sorted| ==>
      sorted[i].0 < |logits| && sorted[i].1 == Weight(Scale(logits[sorted[i].0], inverse), top * inverse, exp) / sum
    ensures Proportional(logits, inverse, exp, sorted, top)
  {
    forall i, j | 0 <= i < |sorted| && 0 <= j < |sorted|
      ensures InProportion(logits, inverse, exp, sorted[i], sorted[j], top)
    {
      CrossProducts(Weight(Scale(logits[sorted[i].0], inverse), top * inverse, exp),
                    Weight(Scale(logits[sorted[j].0], inverse), top * inverse, exp), sum);
    }
  }

  /** A draw at this temperature: of the softmax in descending order, cut to the
      shortest prefix that reaches `topP`, the entry the uniform draw selects. */
  ghost predicate SampledAt(logits: seq<Logit>, p: Params, uniform: real, exp: real -> real, token: nat)
    requires p.temperature > 0.0
  {
    exists sorted: seq<Entry>, n: nat, k: nat ::
      && IsSoftmax(logits, 1.0 / p.temperature, exp, sorted) && Descending(sorted)
      && IsShortest(sorted, p.topP, n) && Selects(sorted[..n], uniform, k) && token == sorted[k].0
  }

  lemma DrawnIsSampled(logits: seq<Logit>, p: Params, uniform: real, exp: real -> real, sort: seq<Entry> -> seq<Entry>)
    requires SomeFinite(logits) && LikeExp(exp) && Sorts(sort) && ParamsOk(p) && p.temperature > 0.0 && 0.0 <= uniform < 1.0
    ensures var token := Drawn(SortedShares(logits, 1.0 / p.temperature, exp, sort), p.topP, uniform);
            SampledAt(logits, p, uniform, exp, token) && token < |logits| && logits[token].Finite?
  {
    var inverse := 1.0 / p.temperature;
    QuotientPositive(1.0, p.temperature);
    SharesAreSoftmax(logits, inverse, exp, sort);
    SharesAreSorted(logits, inverse, exp, sort);
    var n, k := DrawIsFromNucleus(logits, inverse, p.topP, uniform, exp, sort);
  }

  // --- The sampler --------------------------------------------------------

  /** Some token is permitted: the one returned is, greedy or drawn. */
  method SampleToken(logits: array<Logit>, p: Params, recent: seq<u32>, uniform: real,
                     exp: real -> real, sort: seq<Entry> -> seq<Entry>) returns (token: nat)
    requires ParamsOk(p) && LikeExp(exp) && Sorts(sort)
    modifies logits
    ensures !SomeFinite(old(logits[..])) ==> token == 0
    ensures SomeFinite(old(logits[..])) ==>
      var penalised := Penalised(old(logits[..]), recent, p.penalty);
      && SomeFinite(penalised)
      && if p.temperature < GREEDY_BELOW then IsGreatest(penalised, token)
         else
           var sorted := SortedShares(penalised, 1.0 / p.temperature, exp, sort);
           sorted != [] && token == Drawn(sorted, p.topP, uniform)
    ensures SomeFinite(old(logits[..])) && 0.0 <= uniform < 1.0 ==>
      && token < logits.Length && old(logits[..])[token].Finite?
      && (p.temperature >= GREEDY_BELOW ==>
            SampledAt(Penalised(old(logits[..]), recent, p.penalty), p, uniform, exp, token))
  {
    ghost var was, penalised := logits[..], Penalised(logits[..], recent, p.penalty);
    PenaltyKeepsFinite(logits[..], recent, p.penalty);
    if p.penalty != 1.0 {
      ApplyPenalty(logits, recent, p.penalty);
    } else {
      NoPenalty(logits[..], recent);
    }
    assert logits[..] == penalised;
    if p.temperature < GREEDY_BELOW {
      token := Greedy(logits[..]);
    } else {
      var inverse := 1.0 / p.temperature;
      ScaledFinite(penalised, inverse);
      ScaleAll(logits, inverse);
      token := Sample(logits[..], p.topP, uniform, exp, sort);
      if SomeFinite(penalised) && 0.0 <= uniform < 1.0 {
        DrawnIsSampled(penalised, p, uniform, exp, sort);
      }
    }
    if token < logits.Length {
      PenaltyNeverRaises(was, recent, p.penalty, token);
    }
  }
}
