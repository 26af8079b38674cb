/** How many grants interleaved callers can obtain in a window of time: exactly, from what
    the bucket and the threads hold when the window opens. Interleaved callers can exceed the
    bound of the sequential bucket, and the condition for it is given here. */
module ConcurrentWindows {
  import opened Int64
  import opened Sums
  import opened TokenBuckets
  import opened TokenBucketMachine

  // ---- Windows and their supply --------------------------------------------------------------------

  /** Clock readings are in order and lie in [t1, t2]. */
  predicate InWindow(labels: seq<Label>, t1: int, t2: int)
    decreases labels
  {
    labels != [] ==>
      if labels[0].Atomic? then t1 <= labels[0].now <= t2 && InWindow(labels[1..], labels[0].now, t2)
      else InWindow(labels[1..], t1, t2)
  }

  function Least(a: int, b: int): int {
    if a < b then a else b
  }

  /** What a thread's claim can still add to an empty bucket. */
  function Addable(capacity: int): Pc -> int {
    (pc: Pc) => Least(Claimed(pc), capacity)
  }

  /** Tokens at hand: in the bucket, or claimed and still to be added. */
  function AtHand(s: State): int {
    s.bucket.tokens + Sum(s.threads, Addable(s.bucket.capacity))
  }

  /** A reading with which some thread can look at `lastRefill`: one it already has, or one
      taken in the window. */
  predicate Fresh(s: State, r: int, t1: int, t2: int) {
    t1 <= r <= t2 || LoadLast(r) in s.threads
  }

  /** A thread is about to swap the present `lastRefill` for the reading `r`. */
  predicate Poised(s: State, r: int) {
    var last := s.bucket.lastRefill;
    CasLast(r, last, NewTokens(r - last, s.bucket.refillRate)) in s.threads
  }

  /** Every reading in turn earns at least one token after the one before it. */
  predicate Climbs(rate: int, last: int, chain: seq<int>)
    decreases chain
  {
    chain != [] ==>
      last < chain[0] && NewTokens(chain[0] - last, rate) > 0 && Climbs(rate, chain[0], chain[1..])
  }

  /** Refills that can be won one after the other in the window. */
  ghost predicate Chain(s: State, chain: seq<int>, t1: int, t2: int) {
    && Climbs(s.bucket.refillRate, s.bucket.lastRefill, chain)
    && (forall k :: 1 <= k < |chain| ==> Fresh(s, chain[k], t1, t2))
    && (chain != [] ==> Fresh(s, chain[0], t1, t2) || Poised(s, chain[0]))
  }

  /** What a chain of refills can add, each refill to an empty bucket. */
  function Gain(b: Bucket, last: int, chain: seq<int>): int
    decreases chain
  {
    if chain == [] then 0
    else Least(NewTokens(chain[0] - last, b.refillRate), b.capacity) + Gain(b, chain[0], chain[1..])
  }

  function Supply(s: State, chain: seq<int>): int {
    AtHand(s) + Gain(s.bucket, s.bucket.lastRefill, chain)
  }

  // ---- No run obtains more --------------------------------------------------------------------------

  /** Thread `l.thread` wins a refill. */
  predicate Wins(s: State, l: Label)
    requires Enabled(s, l)
  {
    l.Atomic? && s.threads[l.thread].CasLast? && s.threads[l.thread].last == s.bucket.lastRefill
  }

  /** Tokens at hand and grants together grow only by winning a refill, and then by no more
      than a bucket holds. */
  lemma StepSupply(s: State, l: Label)
    requires Inv(s) && s.bucket.CreditFits() && Enabled(s, l)
    ensures var s' := Step(s, l);
            && s'.bucket.capacity == s.bucket.capacity && s'.bucket.refillRate == s.bucket.refillRate
            && (if Wins(s, l) then
                  var now := s.threads[l.thread].now;
                  && s'.bucket.lastRefill == now > s.bucket.lastRefill && s'.grants == s.grants
                  && NewTokens(now - s.bucket.lastRefill, s.bucket.refillRate) > 0
                  && AtHand(s') == AtHand(s)
                     + Least(NewTokens(now - s.bucket.lastRefill, s.bucket.refillRate), s.bucket.capacity)
                else
                  s'.bucket.lastRefill == s.bucket.lastRefill && AtHand(s') + s'.grants <= AtHand(s) + s.grants)
  {
    hide NewTokens, AddTokens, Balanced, CreditIsEarned;
    var i, pc, s' := l.thread, s.threads[l.thread], Step(s, l);
    assert LocalsOk(s, pc);
    SumUpdate(s.threads, i, s'.threads[i], Addable(s.bucket.capacity));
    if pc.CasAdd? && pc.current == s.bucket.tokens {
      AddTokensBound(pc.current, pc.newTokens, s.bucket.capacity);
    }
  }

  /** Readings usable after an action were usable before it. */
  lemma StepReadings(s: State, l: Label, r: int, t1: int, t2: int)
    requires Inv(s) && Enabled(s, l) && InWindow([l], t1, t2)
    ensures Fresh(Step(s, l), r, if l.Atomic? then l.now else t1, t2) ==> Fresh(s, r, t1, t2)
    ensures Poised(Step(s, l), r) ==> !Wins(s, l) && (Fresh(s, r, t1, t2) || Poised(s, r))
  {
    hide NewTokens, AddTokens, Balanced, CreditIsEarned;
    var i, s' := l.thread, Step(s, l);
    forall pc | pc in s'.threads
      ensures pc in s.threads || pc == s'.threads[i]
    {
    }
    forall pc | pc in s.threads
      ensures LocalsOk(s, pc)
    {
    }
    assert LocalsOk(s, s.threads[i]);
  }

  /** The chain after an action, seen from before it. */
  lemma StepChain(s: State, l: Label, chain: seq<int>, t1: int, t2: int) returns (whole: seq<int>)
    requires Inv(s) && s.bucket.CreditFits() && Enabled(s, l) && InWindow([l], t1, t2)
    requires Chain(Step(s, l), chain, if l.Atomic? then l.now else t1, t2)
    ensures Chain(s, whole, t1, t2)
    ensures whole == if Wins(s, l) then [s.threads[l.thread].now] + chain else chain
    ensures Step(s, l).grants + Supply(Step(s, l), chain) <= s.grants + Supply(s, whole)
  {
    hide NewTokens, AddTokens, Inv, Fresh, Poised, AtHand, Step, Claimed;
    var s', from := Step(s, l), if l.Atomic? then l.now else t1;
    StepSupply(s, l);
    forall k | 0 <= k < |chain|
      ensures Fresh(s', chain[k], from, t2) ==> Fresh(s, chain[k], t1, t2)
      ensures Poised(s', chain[k]) ==> !Wins(s, l) && (Fresh(s, chain[k], t1, t2) || Poised(s, chain[k]))
    {
      StepReadings(s, l, chain[k], t1, t2);
    }
    whole := chain;
    if Wins(s, l) {
      whole := [s.threads[l.thread].now] + chain;
      assert whole[1..] == chain;
      WinnerIsPoised(s, l);
    }
    SameGain(s.bucket, s'.bucket, s'.bucket.lastRefill, chain);
  }

  lemma WinnerIsPoised(s: State, l: Label)
    requires Inv(s) && Enabled(s, l) && Wins(s, l)
    ensures Poised(s, s.threads[l.thread].now)
  {
    assert LocalsOk(s, s.threads[l.thread]);
  }

  lemma {:induction false} SameGain(b: Bucket, b': Bucket, last: int, chain: seq<int>)
    requires b'.capacity == b.capacity && b'.refillRate == b.refillRate
    ensures Gain(b', last, chain) == Gain(b, last, chain)
    decreases chain
  {
    if chain != [] {
      SameGain(b, b', chain[0], chain[1..]);
    }
  }

  /** Whatever a run in the window does, it obtains no more than the supply of the chain of
      refills it wins. */
  lemma {:induction false} RunSupply(s: State, labels: seq<Label>, t1: int, t2: int) returns (chain: seq<int>)
    requires Inv(s) && s.bucket.CreditFits() && Possible(s, labels) && InWindow(labels, t1, t2)
    ensures Chain(s, chain, t1, t2)
    ensures Run(s, labels).grants - s.grants <= Supply(s, chain)
    ensures Run(s, labels).bucket.lastRefill == if chain == [] then s.bucket.lastRefill else chain[|chain| - 1]
    decreases labels
  {
    hide NewTokens, AddTokens, Balanced, CreditIsEarned, AtHand, Step, Chain;
    if labels == [] {
      chain := [];
      NothingMissing(s, t1, t2);
    } else {
      var l := labels[0];
      StepInv(s, l);
      StepSupply(s, l);
      var rest := RunSupply(Step(s, l), labels[1..], if l.Atomic? then l.now else t1, t2);
      chain := StepChain(s, l, rest, t1, t2);
    }
  }

  lemma NothingMissing(s: State, t1: int, t2: int)
    requires Inv(s) && s.bucket.CreditFits()
    ensures Chain(s, [], t1, t2) && Supply(s, []) >= 0
  {
    SumNonNegative(s.threads, Addable(s.bucket.capacity));
  }

  // ---- Some run obtains as much -----------------------------------------------------------------------

  /** `labels` lead from `s` to `e` with clock readings in order and in [t1, t2]. */
  ghost predicate Leads(s: State, labels: seq<Label>, t1: int, t2: int, e: State) {
    Possible(s, labels) && InWindow(labels, t1, t2) && Run(s, labels) == e
  }

  lemma LeadsOne(s: State, l: Label, x: int)
    requires Enabled(s, l) && (l.Atomic? ==> l.now == x)
    ensures Leads(s, [l], x, x, Step(s, l))
  {
    hide Step;
    Then(s, l, []);
    assert [l] + [] == [l] && [l][1..] == [];
    assert InWindow([], x, x);
  }

  lemma {:induction false} Join(s: State, a: seq<Label>, m: State, b: seq<Label>, e: State, t1: int, x: int, t2: int)
    requires Leads(s, a, t1, x, m) && Leads(m, b, x, t2, e) && t1 <= x <= t2
    ensures Leads(s, a + b, t1, t2, e)
    decreases a
  {
    hide Step, Enabled;
    if a == [] {
      assert a + b == b;
      Widen(b, t1, x, t2, t2);
    } else {
      assert (a + b)[1..] == a[1..] + b;
      Join(Step(s, a[0]), a[1..], m, b, e, if a[0].Atomic? then a[0].now else t1, x, t2);
    }
  }

  lemma {:induction false} Widen(labels: seq<Label>, t1: int, t1': int, t2': int, t2: int)
    requires InWindow(labels, t1', t2') && t1 <= t1' && t2' <= t2
    ensures InWindow(labels, t1, t2)
    decreases labels
  {
    if labels != [] {
      if labels[0].Atomic? {
        Widen(labels[1..], labels[0].now, labels[0].now, t2', t2);
      } else {
        Widen(labels[1..], t1, t1', t2', t2);
      }
    }
  }

  lemma {:induction false} LeadsInv(s: State, labels: seq<Label>, t1: int, t2: int, e: State)
    requires Inv(s) && Leads(s, labels, t1, t2, e)
    ensures Inv(e)
  {
    RunInv(s, labels);
  }

  lemma {:induction false} SoloInWindow(labels: seq<Label>, i: nat, x: int)
    requires forall k :: 0 <= k < |labels| ==> labels[k] in {Invoke(i), Atomic(i, x), Return(i)}
    ensures InWindow(labels, x, x)
    decreases labels
  {
    if labels != [] {
      assert labels[0] in {Invoke(i), Atomic(i, x), Return(i)};
      forall k | 0 <= k < |labels[1..]|
        ensures labels[1..][k] in {Invoke(i), Atomic(i, x), Return(i)}
      {
        assert labels[1..][k] == labels[k + 1];
      }
      SoloInWindow(labels[1..], i, x);
    }
  }

  /** A call at time `x` does not refill the bucket. */
  predicate Settled(b: Bucket, x: int) {
    x <= b.lastRefill || NewTokens(x - b.lastRefill, b.refillRate) <= 0
  }

  /** An idle thread takes all the tokens there are. */
  lemma {:induction false} Drain(s: State, b: nat, x: int) returns (labels: seq<Label>, e: State)
    requires Inv(s) && s.bucket.CreditFits() && b < |s.threads| && s.threads[b] == Idle && Settled(s.bucket, x)
    ensures Leads(s, labels, x, x, e) && Inv(e)
    ensures e.bucket == s.bucket.(tokens := 0) && e.threads == s.threads && e.grants == s.grants + s.bucket.tokens
    decreases s.bucket.tokens
  {
    hide NewTokens, Balanced, CreditIsEarned, Possible, Run, InWindow;
    if s.bucket.tokens == 0 {
      labels, e := [], s;
      Nowhere(s, x);
    } else {
      labels := SoloTryAcquire(s, b, x);
      SoloInWindow(labels, b, x);
      var m := Run(s, labels);
      LeadsInv(s, labels, x, x, m);
      var more;
      more, e := Drain(m, b, x);
      Join(s, labels, m, more, e, x, x, x);
      labels := labels + more;
    }
  }

  lemma Nowhere(s: State, x: int)
    ensures Leads(s, [], x, x, s)
  {
  }

  /** The thread is between winning a refill and adding its tokens. */
  predicate HoldsClaim(pc: Pc) {
    pc.LoadToAdd? || pc.CasAdd?
  }

  /** A thread adds what it has claimed to an empty bucket. */
  lemma AddClaim(s: State, j: nat, x: int) returns (labels: seq<Label>, e: State)
    requires Inv(s) && s.bucket.tokens == 0 && j < |s.threads| && HoldsClaim(s.threads[j])
    ensures Leads(s, labels, x, x, e) && Inv(e)
    ensures e.bucket == s.bucket.(tokens := Least(Claimed(s.threads[j]), s.bucket.capacity))
    ensures e.threads == s.threads[j := LoadToTake] && e.grants == s.grants
    decreases Staleness(0)(s.threads[j])
  {
    hide NewTokens, Balanced, CreditIsEarned, Possible, Run, InWindow;
    var l := Atomic(j, x);
    assert LocalsOk(s, s.threads[j]);
    LeadsOne(s, l, x);
    labels, e := [l], Step(s, l);
    StepInv(s, l);
    if s.threads[j].CasAdd? && s.threads[j].current == 0 {
      AddTokensBound(0, s.threads[j].newTokens, s.bucket.capacity);
    } else {
      var rest;
      var m := e;
      rest, e := AddClaim(m, j, x);
      Join(s, labels, m, rest, e, x, x, x);
      labels := labels + rest;
    }
  }

  function Cleared(pc: Pc): Pc {
    if HoldsClaim(pc) then LoadToTake else pc
  }

  /** An idle thread takes the tokens there are, and then those of the first `n` threads'
      claims, each added once the bucket is empty. */
  lemma {:induction false} ClearFirst(s: State, b: nat, x: int, n: nat) returns (labels: seq<Label>, e: State)
    requires Inv(s) && s.bucket.CreditFits() && b < |s.threads| && s.threads[b] == Idle && Settled(s.bucket, x)
    requires n <= |s.threads|
    ensures Leads(s, labels, x, x, e) && Inv(e)
    ensures e.bucket == s.bucket.(tokens := 0) && |e.threads| == |s.threads|
    ensures forall j :: 0 <= j < |s.threads| ==> e.threads[j] == if j < n then Cleared(s.threads[j]) else s.threads[j]
    ensures e.grants + AtHand(e) == s.grants + AtHand(s)
    decreases n
  {
    hide NewTokens, Balanced, CreditIsEarned, Possible, Run, InWindow, Leads;
    if n == 0 {
      labels, e := Drain(s, b, x);
    } else {
      labels, e := ClearFirst(s, b, x, n - 1);
      if HoldsClaim(e.threads[n - 1]) {
        var m := e;
        SumUpdate(m.threads, n - 1, LoadToTake, Addable(s.bucket.capacity));
        var add, m1 := AddClaim(m, n - 1, x);
        var take;
        take, e := Drain(m1, b, x);
        Join(s, labels, m, add, m1, x, x, x);
        Join(s, labels + add, m1, take, e, x, x, x);
        labels := labels + add + take;
      }
    }
  }

  lemma ClearAll(s: State, b: nat, x: int) returns (labels: seq<Label>, e: State)
    requires Inv(s) && s.bucket.CreditFits() && b < |s.threads| && s.threads[b] == Idle && Settled(s.bucket, x)
    ensures Leads(s, labels, x, x, e) && Inv(e)
    ensures e.bucket == s.bucket.(tokens := 0) && |e.threads| == |s.threads|
    ensures forall j :: 0 <= j < |s.threads| ==> e.threads[j] == Cleared(s.threads[j])
    ensures AtHand(e) == 0 && e.grants == s.grants + AtHand(s)
  {
    hide NewTokens, Balanced, CreditIsEarned, Possible, Run, InWindow, Leads;
    labels, e := ClearFirst(s, b, x, |s.threads|);
    SumZero(e.threads, Addable(e.bucket.capacity));
  }

  // ---- Winning refills ------------------------------------------------------------------------------------

  ghost predicate Ready(s: State, a: nat, b: nat) {
    && Inv(s) && s.bucket.CreditFits()
    && a < |s.threads| && b < |s.threads| && a != b && s.threads[a] == s.threads[b] == Idle
  }

  /** The state after a refill up to time `r` whose credit is at hand. */
  ghost predicate Refilled(s: State, e: State, r: int) {
    && e.bucket.capacity == s.bucket.capacity && e.bucket.refillRate == s.bucket.refillRate
    && e.bucket.lastRefill == r && |e.threads| == |s.threads|
    && e.grants + AtHand(e)
       == s.grants + AtHand(s) + Least(NewTokens(r - s.bucket.lastRefill, s.bucket.refillRate), s.bucket.capacity)
  }

  predicate Earns(b: Bucket, r: int) {
    b.lastRefill < r && NewTokens(r - b.lastRefill, b.refillRate) > 0
  }

  /** A thread about to swap `lastRefill` for `r` wins the refill. */
  lemma WinNow(s: State, j: nat, r: int, x: int) returns (e: State)
    requires Inv(s) && s.bucket.CreditFits() && j < |s.threads| && Earns(s.bucket, r)
    requires s.threads[j] == CasLast(r, s.bucket.lastRefill, NewTokens(r - s.bucket.lastRefill, s.bucket.refillRate))
    ensures Leads(s, [Atomic(j, x)], x, x, e) && Inv(e) && Refilled(s, e, r)
    ensures e.threads == s.threads[j := e.threads[j]] && HoldsClaim(e.threads[j])
  {
    hide NewTokens, Balanced, CreditIsEarned, AtHand;
    var l := Atomic(j, x);
    LeadsOne(s, l, x);
    e := Step(s, l);
    StepInv(s, l);
    StepSupply(s, l);
  }

  /** A thread that has read `r` wins the refill. */
  lemma WinStale(s: State, j: nat, r: int, x: int) returns (labels: seq<Label>, e: State)
    requires Inv(s) && s.bucket.CreditFits() && j < |s.threads| && Earns(s.bucket, r)
    requires s.threads[j] == LoadLast(r)
    ensures Leads(s, labels, x, x, e) && Inv(e) && Refilled(s, e, r)
    ensures e.threads == s.threads[j := e.threads[j]] && HoldsClaim(e.threads[j])
  {
    hide NewTokens, Balanced, CreditIsEarned, Possible, Run, InWindow, Leads;
    var l := Atomic(j, x);
    LeadsOne(s, l, x);
    var m := Step(s, l);
    StepInv(s, l);
    SumUpdate(s.threads, j, m.threads[j], Addable(s.bucket.capacity));
    e := WinNow(m, j, r, x);
    Join(s, [l], m, [l], e, x, x, x);
    labels := [l] + [l];
  }

  /** An idle thread begins a call and reads the clock. */
  lemma ReadFresh(s: State, a: nat, r: int) returns (labels: seq<Label>, e: State)
    requires Inv(s) && s.bucket.CreditFits() && a < |s.threads| && s.threads[a] == Idle
    ensures Leads(s, labels, r, r, e) && Inv(e)
    ensures e.bucket == s.bucket && e.threads == s.threads[a := LoadLast(r)]
    ensures e.grants == s.grants && AtHand(e) == AtHand(s)
  {
    hide NewTokens, Balanced, CreditIsEarned, Possible, Run, InWindow, Leads;
    var read := Atomic(a, r);
    LeadsOne(s, Invoke(a), r);
    var m := Step(s, Invoke(a));
    StepInv(s, Invoke(a));
    LeadsOne(m, read, r);
    e := Step(m, read);
    StepInv(m, read);
    Join(s, [Invoke(a)], m, [read], e, r, r, r);
    labels := [Invoke(a)] + [read];
    SumUpdate(s.threads, a, LoadLast(r), Addable(s.bucket.capacity));
  }

  /** An idle thread reads the clock in the window, wins the refill, lets the taker empty the
      bucket, adds its credit, lets the taker have it, and is idle again. */
  lemma WinFresh(s: State, a: nat, b: nat, r: int) returns (labels: seq<Label>, e: State)
    requires Ready(s, a, b) && Earns(s.bucket, r)
    ensures Leads(s, labels, r, r, e) && Ready(e, a, b) && Refilled(s, e, r) && AtHand(e) == 0
    ensures forall j :: 0 <= j < |s.threads| ==> e.threads[j] == Cleared(s.threads[j])
  {
    hide NewTokens, Inv, Possible, Run, InWindow, Leads, AtHand;
    var win, clear, back;
    var s1, s2, s3;
    labels, s1 := ReadFresh(s, a, r);
    win, s2 := WinStale(s1, a, r, r);
    Join(s, labels, s1, win, s2, r, r, r);
    clear, s3 := ClearAll(s2, b, r);
    Join(s, labels + win, s2, clear, s3, r, r, r);
    back, e := GiveUp(s3, a, r);
    Join(s, labels + win + clear, s3, back, e, r, r, r);
    labels := labels + win + clear + back;
  }

  /** A thread that finds the bucket empty returns without a token. */
  lemma GiveUp(s: State, a: nat, x: int) returns (labels: seq<Label>, e: State)
    requires Inv(s) && a < |s.threads| && s.threads[a] == LoadToTake && s.bucket.tokens == 0
    ensures Leads(s, labels, x, x, e) && Inv(e)
    ensures e.bucket == s.bucket && e.threads == s.threads[a := Idle] && e.grants == s.grants && AtHand(e) == AtHand(s)
  {
    hide NewTokens, Balanced, CreditIsEarned, Possible, Run, InWindow, Leads;
    var look := Atomic(a, x);
    LeadsOne(s, look, x);
    var m := Step(s, look);
    StepInv(s, look);
    LeadsOne(m, Return(a), x);
    e := Step(m, Return(a));
    StepInv(m, Return(a));
    Join(s, [look], m, [Return(a)], e, x, x, x);
    labels := [look] + [Return(a)];
    SumUpdate(s.threads, a, Idle, Addable(s.bucket.capacity));
  }

  // ---- All of a chain ------------------------------------------------------------------------------------

  lemma {:induction false} ClimbsUp(rate: int, last: int, chain: seq<int>)
    requires Climbs(rate, last, chain)
    ensures forall k :: 0 <= k < |chain| ==> chain[k] > last
    decreases chain
  {
    if chain != [] {
      ClimbsUp(rate, chain[0], chain[1..]);
    }
  }

  /** What is left of a chain once its first refill is won, if that took no reading from any
      other thread. */
  lemma RestOfChain(s: State, e: State, chain: seq<int>, t1: int, t1': int, t2: int)
    requires Chain(s, chain, t1, t2) && chain != []
    requires e.bucket.refillRate == s.bucket.refillRate && e.bucket.lastRefill == chain[0]
    requires t1' == t1 || t1' == chain[0]
    requires forall r :: r > chain[0] && LoadLast(r) in s.threads ==> LoadLast(r) in e.threads
    ensures Chain(e, chain[1..], t1', t2)
  {
    hide NewTokens;
    ClimbsUp(s.bucket.refillRate, chain[0], chain[1..]);
    forall k | 0 <= k < |chain[1..]|
      ensures Fresh(e, chain[1..][k], t1', t2)
    {
      assert Fresh(s, chain[k + 1], t1, t2) && chain[1..][k] == chain[k + 1];
    }
  }

  /** With an idle thread to refill and another to take, all of a chain's supply is obtained. */
  lemma {:induction false} Collect(s: State, a: nat, b: nat, chain: seq<int>, t1: int, t2: int)
    returns (labels: seq<Label>, e: State)
    requires Ready(s, a, b) && Chain(s, chain, t1, t2) && t1 <= t2
    ensures Leads(s, labels, t1, t2, e) && e.grants >= s.grants + Supply(s, chain)
    decreases |chain|
  {
    hide NewTokens, Inv, Possible, Run, InWindow, Leads, AtHand, Chain, Fresh, Poised, HoldsClaim;
    if chain == [] {
      labels, e := CollectAtHand(s, a, b, t1, t2);
    } else {
      var r, rest := chain[0], chain[1..];
      var m, more;
      FirstRefill(s, chain, t1, t2);
      if t1 <= r <= t2 {
        labels, m := WinFresh(s, a, b, r);
        ReadingsStay(s, m);
        RestOfChain(s, m, chain, t1, r, t2);
        more, e := Collect(m, a, b, rest, r, t2);
        WidenLeads(s, labels, m, t1, r, r, r);
        Join(s, labels, m, more, e, t1, r, t2);
      } else {
        labels, m := WinStalled(s, a, b, chain, t1, t2);
        more, e := Collect(m, a, b, rest, t1, t2);
        Join(s, labels, m, more, e, t1, t1, t2);
      }
      SameGain(s.bucket, m.bucket, r, rest);
      labels := labels + more;
    }
  }

  lemma WidenLeads(s: State, labels: seq<Label>, e: State, t1: int, t1': int, t2': int, t2: int)
    requires Leads(s, labels, t1', t2', e) && t1 <= t1' && t2' <= t2
    ensures Leads(s, labels, t1, t2, e)
  {
    hide Possible, Run;
    Widen(labels, t1, t1', t2', t2);
  }

  lemma ReadingsStay(s: State, e: State)
    requires |e.threads| == |s.threads| && forall j :: 0 <= j < |s.threads| ==> e.threads[j] == Cleared(s.threads[j])
    ensures forall r :: LoadLast(r) in s.threads ==> LoadLast(r) in e.threads
  {
    forall r | LoadLast(r) in s.threads
      ensures LoadLast(r) in e.threads
    {
      var j :| 0 <= j < |s.threads| && s.threads[j] == LoadLast(r);
      assert e.threads[j] == LoadLast(r);
    }
  }

  lemma FirstRefill(s: State, chain: seq<int>, t1: int, t2: int)
    requires Chain(s, chain, t1, t2) && chain != []
    ensures Earns(s.bucket, chain[0])
    ensures t1 <= chain[0] <= t2 || LoadLast(chain[0]) in s.threads || Poised(s, chain[0])
  {
  }

  /** What is at hand, and one more refill if the clock forces it. */
  lemma CollectAtHand(s: State, a: nat, b: nat, t1: int, t2: int) returns (labels: seq<Label>, e: State)
    requires Ready(s, a, b) && t1 <= t2
    ensures Leads(s, labels, t1, t2, e) && e.grants >= s.grants + AtHand(s)
  {
    hide NewTokens, Inv, Possible, Run, InWindow, Leads, AtHand;
    if Settled(s.bucket, t1) {
      labels, e := ClearAll(s, b, t1);
    } else {
      labels, e := WinFresh(s, a, b, t1);
      assert s.bucket.capacity >= 1 by { CapacityPositive(s); }
    }
    WidenLeads(s, labels, e, t1, t1, t1, t2);
  }

  lemma CapacityPositive(s: State)
    requires Inv(s)
    ensures s.bucket.capacity >= 1
  {
  }

  /** A stalled thread wins the first refill of a chain. */
  lemma WinStalled(s: State, a: nat, b: nat, chain: seq<int>, t1: int, t2: int) returns (labels: seq<Label>, e: State)
    requires Ready(s, a, b) && Chain(s, chain, t1, t2) && t1 <= t2 && chain != [] && !(t1 <= chain[0] <= t2)
    ensures Leads(s, labels, t1, t1, e) && Ready(e, a, b) && Refilled(s, e, chain[0])
    ensures Chain(e, chain[1..], t1, t2)
  {
    hide NewTokens, Inv, Possible, Run, InWindow, Leads, AtHand, Chain, HoldsClaim;
    var r := chain[0];
    FirstRefill(s, chain, t1, t2);
    var j: nat;
    if LoadLast(r) in s.threads {
      j :| j < |s.threads| && s.threads[j] == LoadLast(r);
      labels, e := WinStale(s, j, r, t1);
    } else {
      var last := s.bucket.lastRefill;
      j :| j < |s.threads| && s.threads[j] == CasLast(r, last, NewTokens(r - last, s.bucket.refillRate));
      e := WinNow(s, j, r, t1);
      labels := [Atomic(j, t1)];
    }
    forall x | x > r && LoadLast(x) in s.threads
      ensures LoadLast(x) in e.threads
    {
      var i :| 0 <= i < |s.threads| && s.threads[i] == LoadLast(x);
      assert e.threads[i] == LoadLast(x);
    }
    RestOfChain(s, e, chain, t1, t1, t2);
  }

  // ---- The bounds ----------------------------------------------------------------------------------------

  /** Some run in the window grants `k` tokens. */
  ghost predicate CanGrant(s: State, t1: int, t2: int, k: int) {
    exists labels :: GrantsIn(s, labels, t1, t2, k)
  }

  ghost predicate GrantsIn(s: State, labels: seq<Label>, t1: int, t2: int, k: int) {
    Possible(s, labels) && InWindow(labels, t1, t2) && Run(s, labels).grants == s.grants + k
  }

  ghost predicate Supplies(s: State, chain: seq<int>, t1: int, t2: int, k: int) {
    Chain(s, chain, t1, t2) && k <= Supply(s, chain)
  }

  /** Grants are made one at a time. */
  lemma {:induction false} Prefix(s: State, labels: seq<Label>, t1: int, t2: int, g: int) returns (p: seq<Label>)
    requires Inv(s) && Possible(s, labels) && InWindow(labels, t1, t2) && s.grants <= g <= Run(s, labels).grants
    ensures Possible(s, p) && InWindow(p, t1, t2) && Run(s, p).grants == g
    ensures Run(s, p).bucket.lastRefill <= Run(s, labels).bucket.lastRefill
    decreases labels
  {
    hide NewTokens, AddTokens, Balanced, CreditIsEarned;
    if g == s.grants {
      p := [];
      CreditOverRun(s, labels);
    } else {
      var l := labels[0];
      StepInv(s, l);
      assert s.grants <= Step(s, l).grants <= s.grants + 1;
      var rest := Prefix(Step(s, l), labels[1..], if l.Atomic? then l.now else t1, t2, g);
      p := [l] + rest;
      assert p[1..] == rest;
    }
  }

  /** How many tokens interleaved callers can obtain in a window, from any reachable state
      with an idle thread to refill and another to take: exactly as many as some chain of
      refills, won with the readings that threads hold already or take in the window, can
      supply on top of what is in the bucket and what has been claimed. */
  lemma WindowGrantsIff(s: State, a: nat, b: nat, t1: int, t2: int, k: nat)
    requires Ready(s, a, b) && t1 <= t2
    ensures CanGrant(s, t1, t2, k) <==> exists chain :: Supplies(s, chain, t1, t2, k)
  {
    hide Inv, Possible, Run, InWindow, Chain, Supply;
    if CanGrant(s, t1, t2, k) {
      var labels :| GrantsIn(s, labels, t1, t2, k);
      var chain := RunSupply(s, labels, t1, t2);
      assert Supplies(s, chain, t1, t2, k);
    }
    if chain :| Supplies(s, chain, t1, t2, k) {
      var labels, e := Collect(s, a, b, chain, t1, t2);
      var p := Prefix(s, labels, t1, t2, s.grants + k);
      assert GrantsIn(s, p, t1, t2, k);
    }
  }

  /** More than the sequential bucket ever grants in a window of this length. */
  predicate Excessive(b: Bucket, k: int, t1: int, t2: int) {
    NANOS_PER_SEC * k >= NANOS_PER_SEC * (b.capacity + 1) + b.refillRate * (t2 - t1)
  }

  /** When interleaved callers can break the bound that holds for sequential ones: exactly if
      some chain of refills supplies too much. */
  lemma WindowExceededIff(s: State, a: nat, b: nat, t1: int, t2: int)
    requires Ready(s, a, b) && t1 <= t2
    ensures (exists k: nat :: CanGrant(s, t1, t2, k) && Excessive(s.bucket, k, t1, t2))
            <==> exists chain :: Chain(s, chain, t1, t2) && Excessive(s.bucket, Supply(s, chain), t1, t2)
  {
    hide Inv, Possible, Run, InWindow, Chain, Supply, CanGrant;
    if k: nat :| CanGrant(s, t1, t2, k) && Excessive(s.bucket, k, t1, t2) {
      WindowGrantsIff(s, a, b, t1, t2, k);
      var chain :| Supplies(s, chain, t1, t2, k);
    }
    if chain :| Chain(s, chain, t1, t2) && Excessive(s.bucket, Supply(s, chain), t1, t2) {
      var k := Supply(s, chain);
      assert k >= 0 by { ExcessIsPositive(s, k, t1, t2); }
      WindowGrantsIff(s, a, b, t1, t2, k);
      assert Supplies(s, chain, t1, t2, k);
    }
  }

  lemma ExcessIsPositive(s: State, k: int, t1: int, t2: int)
    requires Inv(s) && t1 <= t2 && Excessive(s.bucket, k, t1, t2)
    ensures k >= 0
  {
    MulMonotone(s.bucket.refillRate, 0, t2 - t1);
  }

  /** No thread holds a reading later than the last refill. */
  ghost predicate Quiet(s: State) {
    forall pc :: pc in s.threads ==>
      (pc.LoadLast? ==> pc.now <= s.bucket.lastRefill) && (pc.CasLast? ==> pc.last != s.bucket.lastRefill)
  }

  /** What one refill at time `t` would add to an empty bucket. */
  function PendingAt(b: Bucket, t: int): int {
    if Settled(b, t) then 0 else Least(NewTokens(t - b.lastRefill, b.refillRate), b.capacity)
  }

  /** At one instant, with no reading held back: exactly the tokens in the bucket, those
      claimed, and those of one refill can be granted, each part cut off at capacity. So more
      than a full bucket is granted at one instant if and only if these add up to more. */
  lemma InstantGrantsIff(s: State, a: nat, b: nat, t: int, k: nat)
    requires Ready(s, a, b) && Quiet(s)
    ensures CanGrant(s, t, t, k) <==> k <= AtHand(s) + PendingAt(s.bucket, t)
    ensures CanGrant(s, t, t, k) && Excessive(s.bucket, k, t, t)
            <==> s.bucket.capacity < k <= AtHand(s) + PendingAt(s.bucket, t)
  {
    hide Inv, NewTokens, AtHand, CanGrant;
    WindowGrantsIff(s, a, b, t, t, k);
    OneRefill(s, t);
    CapacityPositive(s);
    if chain :| Supplies(s, chain, t, t, k) {
      QuietChain(s, chain, t);
    }
    if k <= AtHand(s) + PendingAt(s.bucket, t) {
      assert Supplies(s, if Settled(s.bucket, t) then [] else [t], t, t, k);
    }
  }

  lemma OneRefill(s: State, t: int)
    ensures var chain := if Settled(s.bucket, t) then [] else [t];
            Chain(s, chain, t, t) && Supply(s, chain) == AtHand(s) + PendingAt(s.bucket, t)
  {
    hide NewTokens, AtHand;
    var b := s.bucket;
    assert [t][1..] == [] && Climbs(b.refillRate, t, []) && Gain(b, t, []) == 0;
    if !Settled(b, t) {
      assert Climbs(b.refillRate, b.lastRefill, [t]);
      assert Gain(b, b.lastRefill, [t]) == PendingAt(b, t);
    }
  }

  lemma QuietChain(s: State, chain: seq<int>, t: int)
    requires Quiet(s) && Chain(s, chain, t, t)
    ensures chain == [] || (chain == [t] && !Settled(s.bucket, t))
  {
    hide NewTokens;
    ClimbsUp(s.bucket.refillRate, s.bucket.lastRefill, chain);
    if chain != [] {
      assert chain[0] == t;
      ClimbsUp(s.bucket.refillRate, t, chain[1..]);
      assert |chain| == 1;
    }
  }

  // ---- Without a window --------------------------------------------------------------------------------

  /** Over any stretch of a run, whatever the clock readings: grants are paid for by what is
      at hand and by later credit. */
  lemma {:induction false} AtHandOverRun(s: State, labels: seq<Label>)
    requires Inv(s) && s.bucket.CreditFits() && Possible(s, labels)
    ensures var s' := Run(s, labels);
            s'.grants + AtHand(s') <= s.grants + AtHand(s) + (s'.credited - s.credited)
    decreases labels
  {
    hide NewTokens, AddTokens, Balanced, CreditIsEarned, AtHand, Step;
    if labels != [] {
      StepInv(s, labels[0]);
      StepSupply(s, labels[0]);
      IntervalsCreditedOnce(s, labels[0]);
      AtHandOverRun(Step(s, labels[0]), labels[1..]);
    }
  }

  lemma AtHandNonNegative(s: State)
    requires Inv(s) && s.bucket.CreditFits()
    ensures AtHand(s) >= 0
  {
    SumNonNegative(s.threads, Addable(s.bucket.capacity));
  }

  /** The rate limit from any reachable state on: the tokens at hand, and what the refills
      won from then on earn. */
  lemma ConcurrentWindowBound(s: State, labels: seq<Label>)
    requires Inv(s) && Possible(s, labels) && s.bucket.CreditFits()
    ensures var s' := Run(s, labels);
            NANOS_PER_SEC * (s'.grants - s.grants)
            <= NANOS_PER_SEC * AtHand(s) + s.bucket.refillRate * (s'.bucket.lastRefill - s.bucket.lastRefill)
  {
    hide Inv, AtHand, Possible, Run;
    RunInv(s, labels);
    CreditOverRun(s, labels);
    AtHandOverRun(s, labels);
    AtHandNonNegative(Run(s, labels));
  }

  ghost predicate GrantsUnrefilled(s: State, labels: seq<Label>, k: int) {
    && Possible(s, labels) && Run(s, labels).grants == s.grants + k
    && Run(s, labels).bucket.lastRefill == s.bucket.lastRefill
  }

  /** Before the next refill, exactly the tokens at hand can be granted. */
  lemma UnrefilledGrantsIff(s: State, b: nat, k: nat)
    requires Inv(s) && s.bucket.CreditFits() && b < |s.threads| && s.threads[b] == Idle
    ensures (exists labels :: GrantsUnrefilled(s, labels, k)) <==> k <= AtHand(s)
  {
    hide Inv, AtHand, Possible, Run, InWindow;
    if labels :| GrantsUnrefilled(s, labels, k) {
      ConcurrentWindowBound(s, labels);
    }
    if k <= AtHand(s) {
      var last := s.bucket.lastRefill;
      var labels, e := ClearAll(s, b, last);
      var p := Prefix(s, labels, last, last, s.grants + k);
      CreditOverRun(s, p);
      assert GrantsUnrefilled(s, p, k);
    }
  }

  // ---- Examples ------------------------------------------------------------------------------------------

  /** The state in which thread 0 has claimed one token at time 1 and stalled before adding
      it; the bucket, of capacity 1 and earning a token a nanosecond, is full. */
  function Stalled(): State {
    State(Bucket(1, NANOS_PER_SEC, 1, 1), [LoadToAdd(1), Idle, Idle], 0, 1, 1, 1, 1, 0, 0, 0)
  }

  function StallLabels(): seq<Label> {
    [Invoke(0), Atomic(0, 1), Atomic(0, 1), Atomic(0, 1)]
  }

  lemma StallRun()
    ensures var s0 := Init(1, NANOS_PER_SEC, 0, 3);
            && Possible(s0, StallLabels()) && Run(s0, StallLabels()) == Stalled()
  {
    var s0 := Init(1, NANOS_PER_SEC, 0, 3);
    var a := Atomic(0, 1);
    var s1 := Step(s0, Invoke(0));
    var s2 := Step(s1, a);
    var s3 := Step(s2, a);
    assert s3.threads == [CasLast(1, 0, 1), Idle, Idle];
    assert Step(s3, a) == Stalled();
    Then(s3, a, []);
    Then(s2, a, [a]);
    Then(s1, a, [a] + [a]);
    Then(s0, Invoke(0), [a] + ([a] + [a]));
    assert StallLabels() == [Invoke(0)] + ([a] + ([a] + [a]));
  }

  /** Claimed credit is a real exception to the sequential bound: after a stall, two grants
      can happen while every clock shows the same instant, although the capacity is one. */
  lemma StalledCreditExceedsWindow()
    ensures var s0 := Init(1, NANOS_PER_SEC, 0, 3);
            && Possible(s0, StallLabels()) && Run(s0, StallLabels()) == Stalled()
    ensures CanGrant(Stalled(), 1, 1, 2) && Excessive(Stalled().bucket, 2, 1, 1)
  {
    hide CanGrant, Run, Possible;
    var s := Stalled();
    StallRun();
    InitInv(1, NANOS_PER_SEC, 0, 3);
    RunInv(Init(1, NANOS_PER_SEC, 0, 3), StallLabels());
    assert s.threads[1..] == [Idle, Idle] && s.threads[1..][1..] == [Idle] && [Idle][1..] == [];
    assert Sum([Idle], Addable(1)) == 0;
    assert AtHand(s) == 2;
    InstantGrantsIff(s, 1, 2, 1, 2);
  }

  /** Nothing need be claimed when the window opens: the same happens on a new bucket, if the
      credit of the first two nanoseconds is claimed and the token that is there taken before
      the credit is added. */
  lemma NewBucketExceedsWindow()
    ensures var s := Init(1, NANOS_PER_SEC, 1, 2);
            && Sum(s.threads, Claimed) == 0
            && CanGrant(s, 3, 3, 2) && Excessive(s.bucket, 2, 3, 3)
  {
    hide CanGrant;
    var s := Init(1, NANOS_PER_SEC, 1, 2);
    InitInv(1, NANOS_PER_SEC, 1, 2);
    SumZero(s.threads, Claimed);
    SumZero(s.threads, Addable(1));
    NewTokensExact(2, NANOS_PER_SEC);
    InstantGrantsIff(s, 0, 1, 3, 2);
  }
}
