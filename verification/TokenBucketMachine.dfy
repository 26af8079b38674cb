/** The token bucket shared by any number of threads. Every label below is one atomic
    action of one thread: a clock reading, a load, or a compare-and-swap. Threads are
    interleaved without restriction and clock readings are arbitrary, so nothing here
    depends on the clock being monotone or on threads being scheduled fairly. */
module TokenBucketMachine {
  import opened Int64
  import opened Sums
  import opened TokenBuckets

  /** Where a thread stands inside a call; locals it has read are kept in the constructor. */
  datatype Pc =
    | Idle
    | ReadClock
    | LoadLast(now: int)
    | CasLast(now: int, last: int, newTokens: int)
    | LoadToAdd(newTokens: int)
    | CasAdd(newTokens: int, current: int)
    | LoadToTake
    | CasTake(current: int)
    | Done(granted: bool)

  /** The two shared words, the threads, and the accounts the proofs balance:
      `credited` counts tokens claimed by winning the swap of `lastRefill`, `discarded` the
      part of them cut off at capacity, `grants` the successful takes, `returned` the grants
      already handed to callers, `horizon` is the latest clock reading so far, and `widest`
      the longest interval a single refill has credited. */
  datatype State = State(
    bucket: Bucket,
    threads: seq<Pc>,
    start: int,
    horizon: int,
    credited: int,
    refills: nat,
    widest: nat,
    discarded: int,
    grants: nat,
    returned: nat)

  /** Invoke starts a call, Atomic performs the thread's next action (`now` is what the
      clock shows, used only by a clock reading), Observe ends a call of Available with a
      load of the tokens, Return hands the result to the caller. */
  datatype Label =
    | Invoke(thread: nat)
    | Atomic(thread: nat, now: int)
    | Observe(thread: nat)
    | Return(thread: nat)

  function Init(capacity: int, refillRate: int, now: int, threads: nat): State {
    State(Create(capacity, refillRate, now), seq(threads, i => Idle), now, now, 0, 0, 0, 0, 0, 0)
  }

  function Longer(widest: nat, elapsed: int): nat {
    if elapsed > widest then elapsed else widest
  }

  predicate Enabled(s: State, l: Label) {
    && l.thread < |s.threads|
    && match l
       case Invoke(i) => s.threads[i] == Idle
       case Atomic(i, _) => !s.threads[i].Idle? && !s.threads[i].Done?
       case Observe(i) => s.threads[i] == LoadToTake
       case Return(i) => s.threads[i].Done?
  }

  function SetThread(s: State, i: nat, pc: Pc): State
    requires i < |s.threads|
  {
    s.(threads := s.threads[i := pc])
  }

  function Step(s: State, l: Label): State
    requires Enabled(s, l)
  {
    match l
    case Invoke(i) => SetThread(s, i, ReadClock)
    case Observe(i) => SetThread(s, i, Idle)
    case Return(i) =>
      SetThread(s, i, Idle).(returned := s.returned + if s.threads[i].granted then 1 else 0)
    case Atomic(i, now) => AtomicStep(s, i, now)
  }

  function AtomicStep(s: State, i: nat, now: int): State
    requires i < |s.threads| && !s.threads[i].Idle? && !s.threads[i].Done?
  {
    match s.threads[i]
    case ReadClock => SetThread(s, i, LoadLast(now)).(horizon := Max(s.horizon, now))
    case LoadLast(t) =>
      var last := s.bucket.lastRefill;
      var newTokens := NewTokens(t - last, s.bucket.refillRate);
      if t - last <= 0 || newTokens <= 0 then SetThread(s, i, LoadToTake)
      else SetThread(s, i, CasLast(t, last, newTokens))
    case CasLast(t, last, newTokens) =>
      if s.bucket.lastRefill != last then SetThread(s, i, LoadToTake)
      else SetThread(s, i, LoadToAdd(newTokens)).(bucket := s.bucket.(lastRefill := t),
                                                  credited := s.credited + newTokens,
                                                  refills := s.refills + 1,
                                                  widest := Longer(s.widest, t - last))
    case LoadToAdd(newTokens) => SetThread(s, i, CasAdd(newTokens, s.bucket.tokens))
    case CasAdd(newTokens, current) =>
      if s.bucket.tokens != current then SetThread(s, i, LoadToAdd(newTokens))
      else
        var newCount := AddTokens(current, newTokens, s.bucket.capacity);
        SetThread(s, i, LoadToTake).(bucket := s.bucket.(tokens := newCount),
                                     discarded := s.discarded + (current + newTokens - newCount))
    case LoadToTake =>
      if s.bucket.tokens <= 0 then SetThread(s, i, Done(false))
      else SetThread(s, i, CasTake(s.bucket.tokens))
    case CasTake(current) =>
      if s.bucket.tokens != current then SetThread(s, i, LoadToTake)
      else SetThread(s, i, Done(true)).(bucket := s.bucket.(tokens := current - 1), grants := s.grants + 1)
  }

  // ---- The invariant -----------------------------------------------------------------------

  /** Tokens a thread has claimed by advancing `lastRefill` and not yet added. */
  function Claimed(pc: Pc): int {
    match pc
    case LoadToAdd(newTokens) => Max(0, newTokens)
    case CasAdd(newTokens, _) => Max(0, newTokens)
    case _ => 0
  }

  function Unreturned(pc: Pc): int {
    if pc == Done(true) then 1 else 0
  }

  predicate LocalsOk(s: State, pc: Pc) {
    match pc
    case LoadLast(now) => now <= s.horizon
    case CasLast(now, last, newTokens) =>
      last < now <= s.horizon && last <= s.bucket.lastRefill && newTokens == NewTokens(now - last, s.bucket.refillRate) && newTokens > 0
    case LoadToAdd(newTokens) => 0 < newTokens <= TWO_63 / NANOS_PER_SEC
    case CasAdd(newTokens, _) => 0 < newTokens <= TWO_63 / NANOS_PER_SEC
    case CasTake(current) => current > 0
    case _ => true
  }

  /** Every token ever credited is in the bucket, granted, claimed by a thread that has not
      added it yet, or discarded. */
  ghost predicate Balanced(s: State) {
    && s.bucket.tokens + s.grants + Sum(s.threads, Claimed) + s.discarded == s.bucket.capacity + s.credited
    && s.returned + Sum(s.threads, Unreturned) == s.grants
    && s.discarded >= 0 && s.bucket.tokens + s.discarded >= 0
  }

  /** Credit is bought with time, each interval of it once. */
  ghost predicate CreditIsEarned(s: State) {
    && s.start <= s.bucket.lastRefill <= s.horizon
    && s.refills <= s.credited
    && NANOS_PER_SEC * s.credited <= s.bucket.refillRate * (s.bucket.lastRefill - s.start)
    && (s.bucket.refillRate * s.widest < TWO_63 ==>
          s.bucket.refillRate * (s.bucket.lastRefill - s.start)
          <= NANOS_PER_SEC * s.credited + (NANOS_PER_SEC - 1) * s.refills)
  }

  ghost predicate Inv(s: State) {
    && s.bucket.Configured() && -TWO_63 <= s.bucket.tokens
    && (s.bucket.CreditFits() ==> s.bucket.tokens >= 0)
    && (forall i :: 0 <= i < |s.threads| ==> LocalsOk(s, s.threads[i]))
    && Balanced(s)
    && CreditIsEarned(s)
  }

  lemma {:induction false} InitInv(capacity: int, refillRate: int, now: int, threads: nat)
    requires capacity < TWO_63
    ensures Inv(Init(capacity, refillRate, now, threads))
  {
    var s := Init(capacity, refillRate, now, threads);
    SumZero(s.threads, Claimed);
    SumZero(s.threads, Unreturned);
    assert s.bucket.refillRate * (s.bucket.lastRefill - s.start) == 0;
  }

  lemma StepKeepsBalance(s: State, l: Label)
    requires Inv(s) && Enabled(s, l)
    ensures Balanced(Step(s, l))
  {
    hide AddTokens, NewTokens, CreditIsEarned;
    var i, s' := l.thread, Step(s, l);
    SumUpdate(s.threads, i, s'.threads[i], Claimed);
    SumUpdate(s.threads, i, s'.threads[i], Unreturned);
    ThreadBalance(s, l);
  }

  /** The accounts as far as the acting thread goes. */
  lemma ThreadBalance(s: State, l: Label)
    requires Inv(s) && Enabled(s, l)
    ensures var pc, pc', s' := s.threads[l.thread], Step(s, l).threads[l.thread], Step(s, l);
            && s'.threads == s.threads[l.thread := pc'] && s'.bucket.capacity == s.bucket.capacity
            && s'.bucket.tokens + s'.grants + Claimed(pc') + s'.discarded - s'.credited
               == s.bucket.tokens + s.grants + Claimed(pc) + s.discarded - s.credited
            && s'.returned + Unreturned(pc') - s'.grants == s.returned + Unreturned(pc) - s.grants
            && s'.discarded >= 0 && s'.bucket.tokens + s'.discarded >= 0
  {
    hide AddTokens, NewTokens, CreditIsEarned, Sum;
    var pc := s.threads[l.thread];
    assert LocalsOk(s, pc);
    if pc.CasAdd? && pc.current == s.bucket.tokens {
      AddTokensBound(pc.current, pc.newTokens, s.bucket.capacity);
    }
  }

  /** Extending the credited time from `last` to `now` by one refill. */
  lemma CreditArithmetic(rate: int, start: int, last: int, now: int, widest: nat, credited: int, refills: int)
    requires rate >= 0 && start <= last < now
    requires NewTokens(now - last, rate) > 0
    requires NANOS_PER_SEC * credited <= rate * (last - start)
    requires rate * widest < TWO_63 ==>
               rate * (last - start) <= NANOS_PER_SEC * credited + (NANOS_PER_SEC - 1) * refills
    ensures var credited' := credited + NewTokens(now - last, rate);
            && NANOS_PER_SEC * credited' <= rate * (now - start)
            && (rate * Longer(widest, now - last) < TWO_63 ==>
                  rate * (now - start) <= NANOS_PER_SEC * credited' + (NANOS_PER_SEC - 1) * (refills + 1))
  {
    var gained, newTokens, longer := rate * (now - last), NewTokens(now - last, rate), Longer(widest, now - last);
    assert rate * (now - start) == gained + rate * (last - start);
    NewTokensBound(now - last, rate);
    assert NANOS_PER_SEC * newTokens <= gained;
    if rate * longer < TWO_63 {
      MulMonotone(rate, widest, longer);
      MulMonotone(rate, now - last, longer);
      NewTokensExact(now - last, rate);
      assert gained <= NANOS_PER_SEC * newTokens + (NANOS_PER_SEC - 1);
    }
  }

  lemma StepKeepsCredit(s: State, l: Label)
    requires Inv(s) && Enabled(s, l)
    ensures CreditIsEarned(Step(s, l))
  {
    var i, s' := l.thread, Step(s, l);
    assert LocalsOk(s, s.threads[i]);
    if s'.refills > s.refills {
      var CasLast(now, last, newTokens) := s.threads[i];
      CreditArithmetic(s.bucket.refillRate, s.start, last, now, s.widest, s.credited, s.refills);
    }
  }

  lemma StepKeepsBucket(s: State, l: Label)
    requires Inv(s) && Enabled(s, l)
    ensures var b := Step(s, l).bucket;
            b.Configured() && -TWO_63 <= b.tokens && (b.CreditFits() ==> b.tokens >= 0)
  {
    hide NewTokens, Balanced, CreditIsEarned;
    var pc := s.threads[l.thread];
    assert LocalsOk(s, pc);
    if pc.CasAdd? && pc.current == s.bucket.tokens {
      AddTokensBound(pc.current, pc.newTokens, s.bucket.capacity);
    }
  }

  lemma StepKeepsLocals(s: State, l: Label, j: nat)
    requires Inv(s) && Enabled(s, l) && j < |s.threads|
    ensures LocalsOk(Step(s, l), Step(s, l).threads[j])
  {
    hide NewTokens, AddTokens, Balanced;
    var pc := s.threads[l.thread];
    assert LocalsOk(s, pc) && LocalsOk(s, s.threads[j]);
    match pc {
      case LoadLast(now) =>
        if now > s.bucket.lastRefill {
          NewTokensBound(now - s.bucket.lastRefill, s.bucket.refillRate);
        }
      case CasLast(now, last, newTokens) =>
        NewTokensBound(now - last, s.bucket.refillRate);
      case _ =>
    }
  }

  lemma StepInv(s: State, l: Label)
    requires Inv(s) && Enabled(s, l)
    ensures Inv(Step(s, l))
  {
    StepKeepsBalance(s, l);
    StepKeepsCredit(s, l);
    StepKeepsBucket(s, l);
    forall j | 0 <= j < |s.threads|
      ensures LocalsOk(Step(s, l), Step(s, l).threads[j])
    {
      StepKeepsLocals(s, l, j);
    }
  }

  // ---- Runs ----------------------------------------------------------------------------------

  ghost predicate Possible(s: State, labels: seq<Label>)
    decreases labels
  {
    labels == [] || (Enabled(s, labels[0]) && Possible(Step(s, labels[0]), labels[1..]))
  }

  function Run(s: State, labels: seq<Label>): State
    requires Possible(s, labels)
    decreases labels
  {
    if labels == [] then s else Run(Step(s, labels[0]), labels[1..])
  }

  lemma {:induction false} RunInv(s: State, labels: seq<Label>)
    requires Inv(s) && Possible(s, labels)
    ensures var s' := Run(s, labels);
            && Inv(s')
            && s'.bucket.capacity == s.bucket.capacity && s'.bucket.refillRate == s.bucket.refillRate
            && s'.start == s.start && |s'.threads| == |s.threads|
    decreases labels
  {
    if labels != [] {
      StepInv(s, labels[0]);
      RunInv(Step(s, labels[0]), labels[1..]);
    }
  }

  /** What the invariant says about grants. */
  lemma GrantsBounded(s: State)
    requires Inv(s)
    ensures s.grants <= s.bucket.capacity + s.credited
    ensures NANOS_PER_SEC * s.grants
            <= NANOS_PER_SEC * s.bucket.capacity + s.bucket.refillRate * (s.bucket.lastRefill - s.start)
            <= NANOS_PER_SEC * s.bucket.capacity + s.bucket.refillRate * (s.horizon - s.start)
    ensures s.returned <= s.grants
  {
    SumNonNegative(s.threads, Claimed);
    SumNonNegative(s.threads, Unreturned);
    MulMonotone(s.bucket.refillRate, s.bucket.lastRefill - s.start, s.horizon - s.start);
  }

  /** The rate limit under every interleaving: from creation on, any number of threads
      together obtain at most the capacity plus what the time up to the last refill earns,
      for any clock readings and even where the refill product overflows. */
  lemma {:induction false} ConcurrentRateBound(capacity: int, refillRate: int, t0: int, threads: nat, labels: seq<Label>)
    requires capacity < TWO_63
    requires Possible(Init(capacity, refillRate, t0, threads), labels)
    ensures var b0 := Create(capacity, refillRate, t0);
            var s := Run(Init(capacity, refillRate, t0, threads), labels);
            && NANOS_PER_SEC * s.grants <= NANOS_PER_SEC * b0.capacity + b0.refillRate * (s.bucket.lastRefill - t0)
            && s.bucket.lastRefill <= s.horizon
            && s.bucket.tokens <= b0.capacity
            && (b0.CreditFits() ==> 0 <= s.bucket.tokens)
            && s.bucket.tokens + s.grants + Sum(s.threads, Claimed) + s.discarded == b0.capacity + s.credited
  {
    InitInv(capacity, refillRate, t0, threads);
    RunInv(Init(capacity, refillRate, t0, threads), labels);
    GrantsBounded(Run(Init(capacity, refillRate, t0, threads), labels));
  }

  /** Dropping fractions of a token on each of the k refills costs less than k tokens, and
      never as much as half of the ideal credit, over runs of any length, as long as no
      single refill's product overflowed. */
  lemma {:induction false} RefillLossBounded(capacity: int, refillRate: int, t0: int, threads: nat, labels: seq<Label>)
    requires capacity < TWO_63
    requires Possible(Init(capacity, refillRate, t0, threads), labels)
    ensures var s := Run(Init(capacity, refillRate, t0, threads), labels);
            var ideal := s.bucket.refillRate * (s.bucket.lastRefill - t0);
            && NANOS_PER_SEC * s.credited <= ideal
            && (s.bucket.refillRate * s.widest < TWO_63 && s.refills > 0 ==>
                  && ideal < NANOS_PER_SEC * (s.credited + s.refills)
                  && ideal < 2 * NANOS_PER_SEC * s.credited)
  {
    InitInv(capacity, refillRate, t0, threads);
    RunInv(Init(capacity, refillRate, t0, threads), labels);
  }

  /** `lastRefill` never moves back, and whenever it moves exactly the interval it moves
      over is credited, once, by the thread that moved it. */
  lemma IntervalsCreditedOnce(s: State, l: Label)
    requires Inv(s) && Enabled(s, l)
    ensures var s' := Step(s, l);
            var before, after := s.bucket.lastRefill, s'.bucket.lastRefill;
            && before <= after
            && (before == after ==> s'.credited == s.credited)
            && (before < after ==>
                  && s'.credited == s.credited + NewTokens(after - before, s.bucket.refillRate)
                  && Claimed(s'.threads[l.thread]) == NewTokens(after - before, s.bucket.refillRate) > 0)
  {
  }

  /** What one atomic action can do to the accounts, and nothing else: a claim is won only by
      moving `lastRefill`, and given up only by adding all of it to the bucket as it is then;
      tokens are discarded only if the bucket is full afterwards, and exactly what does not
      fit; a grant takes one token; a refusal means that the bucket was empty. */
  lemma StepIsHonest(s: State, l: Label)
    requires Inv(s) && s.bucket.CreditFits() && Enabled(s, l)
    ensures var s' := Step(s, l);
            var pc, pc' := s.threads[l.thread], s'.threads[l.thread];
            && (Claimed(pc') > Claimed(pc) ==> s'.bucket.lastRefill > s.bucket.lastRefill)
            && (Claimed(pc') < Claimed(pc) ==>
                  && Claimed(pc') == 0
                  && s'.bucket.tokens + (s'.discarded - s.discarded) == s.bucket.tokens + Claimed(pc))
            && (s'.discarded != s.discarded ==>
                  && s'.bucket.tokens == s.bucket.capacity
                  && s'.discarded - s.discarded == s.bucket.tokens + Claimed(pc) - s.bucket.capacity > 0)
            && (s'.bucket.tokens > s.bucket.tokens ==> Claimed(pc') < Claimed(pc))
            && (s'.bucket.tokens < s.bucket.tokens ==> s'.grants == s.grants + 1)
            && (s'.grants != s.grants ==>
                  s'.grants == s.grants + 1 && s'.bucket.tokens == s.bucket.tokens - 1 >= 0 && pc' == Done(true))
            && (pc' == Done(true) ==> s'.grants == s.grants + 1)
            && (pc' == Done(false) ==> s.bucket.tokens == 0 && s'.bucket == s.bucket)
            && (forall j :: 0 <= j < |s.threads| && j != l.thread ==> s'.threads[j] == s.threads[j])
  {
    hide NewTokens, AddTokens, Balanced, CreditIsEarned;
    var pc := s.threads[l.thread];
    assert LocalsOk(s, pc);
    if pc.CasAdd? && pc.current == s.bucket.tokens {
      AddTokensBound(pc.current, pc.newTokens, s.bucket.capacity);
    }
  }

  /** A swap whose word was changed meanwhile changes nothing and costs its thread nothing: a
      claim is kept and the tokens are read again. Only a refill that another thread has won
      is given up. A swap whose word was not changed succeeds. */
  lemma SwapSucceedsIff(s: State, i: nat, now: int)
    requires Inv(s) && s.bucket.CreditFits() && i < |s.threads|
    requires s.threads[i].CasLast? || s.threads[i].CasAdd? || s.threads[i].CasTake?
    ensures var pc, s' := s.threads[i], AtomicStep(s, i, now);
            match pc
            case CasLast(t, last, newTokens) =>
              if s.bucket.lastRefill != last then s' == s.(threads := s.threads[i := LoadToTake])
              else s'.bucket.lastRefill == t > last && Claimed(s'.threads[i]) == newTokens == s'.credited - s.credited
            case CasAdd(newTokens, current) =>
              if s.bucket.tokens != current then s' == s.(threads := s.threads[i := LoadToAdd(newTokens)])
              else s'.bucket.tokens == (if current + newTokens > s.bucket.capacity then s.bucket.capacity else current + newTokens)
            case CasTake(current) =>
              if s.bucket.tokens != current then s' == s.(threads := s.threads[i := LoadToTake])
              else s'.bucket.tokens == current - 1 && s'.grants == s.grants + 1 && s'.threads[i] == Done(true)
            case _ => true
  {
    hide NewTokens, AddTokens, Balanced, CreditIsEarned;
    var pc := s.threads[i];
    assert LocalsOk(s, pc);
    if pc.CasAdd? && pc.current == s.bucket.tokens {
      AddTokensBound(pc.current, pc.newTokens, s.bucket.capacity);
    }
  }

  // ---- Stretches of a run ------------------------------------------------------------------------

  /** Over any stretch of a run, credit grows no faster than `lastRefill` moves. */
  lemma {:induction false} CreditOverRun(s: State, labels: seq<Label>)
    requires Inv(s) && Possible(s, labels)
    ensures var s' := Run(s, labels);
            && s.bucket.lastRefill <= s'.bucket.lastRefill
            && NANOS_PER_SEC * (s'.credited - s.credited)
               <= s.bucket.refillRate * (s'.bucket.lastRefill - s.bucket.lastRefill)
            && s'.discarded >= s.discarded
    decreases labels
  {
    hide NewTokens, AddTokens, Balanced, CreditIsEarned;
    if labels == [] {
      assert s.bucket.refillRate * 0 == 0;
    } else {
      var s1 := Step(s, labels[0]);
      var rate, a, b, c := s.bucket.refillRate, s.bucket.lastRefill, s1.bucket.lastRefill, Run(s, labels).bucket.lastRefill;
      StepInv(s, labels[0]);
      CreditOverStep(s, labels[0]);
      CreditOverRun(s1, labels[1..]);
      assert rate * (c - a) == rate * (c - b) + rate * (b - a);
    }
  }

  lemma CreditOverStep(s: State, l: Label)
    requires Inv(s) && Enabled(s, l)
    ensures var s' := Step(s, l);
            && s.bucket.lastRefill <= s'.bucket.lastRefill && s'.bucket.refillRate == s.bucket.refillRate
            && NANOS_PER_SEC * (s'.credited - s.credited)
               <= s.bucket.refillRate * (s'.bucket.lastRefill - s.bucket.lastRefill)
            && s'.discarded >= s.discarded
  {
    hide NewTokens, AddTokens, Balanced, CreditIsEarned;
    DiscardOverStep(s, l);
    IntervalsCreditedOnce(s, l);
    EarnedOver(Step(s, l).bucket.lastRefill - s.bucket.lastRefill, s.bucket.refillRate, Step(s, l).credited - s.credited);
  }

  lemma EarnedOver(elapsed: int, rate: int, gained: int)
    requires elapsed >= 0 && rate >= 0
    requires if elapsed == 0 then gained == 0 else gained == NewTokens(elapsed, rate) && gained > 0
    ensures NANOS_PER_SEC * gained <= rate * elapsed
  {
  }

  lemma DiscardOverStep(s: State, l: Label)
    requires Inv(s) && Enabled(s, l)
    ensures Step(s, l).discarded >= s.discarded && Step(s, l).bucket.refillRate == s.bucket.refillRate
  {
  }

  lemma Then(s: State, l: Label, labels: seq<Label>)
    requires Enabled(s, l) && Possible(Step(s, l), labels)
    ensures Possible(s, [l] + labels) && Run(s, [l] + labels) == Run(Step(s, l), labels)
  {
  }

  // ---- One caller alone: the sequential bucket is a run of the machine -----------------------

  /** The actions of one whole call of thread `i`, all at time `now`. */
  predicate SoloCall(labels: seq<Label>, i: nat, now: int) {
    && labels != [] && labels[|labels| - 1] == Return(i)
    && forall k :: 0 <= k < |labels| - 1 ==> labels[k] in {Invoke(i), Atomic(i, now)}
  }

  /** A thread that runs a whole call while the others pause leaves the shared words and
      the answer that the sequential TryAcquire describes. */
  lemma SoloTryAcquire(s: State, i: nat, now: int) returns (labels: seq<Label>)
    requires i < |s.threads| && s.threads[i] == Idle
    ensures Possible(s, labels) && SoloCall(labels, i, now)
    ensures SoloOutcome(s, Run(s, labels), s.threads, s.bucket.TryAcquire(now).0, s.bucket.TryAcquire(now).1)
  {
    hide Run, Possible, NewTokens;
    var s1 := Step(s, Invoke(i));
    var s2 := Step(s1, Atomic(i, now));
    labels := SoloRefill(s2, i, now);
    assert s2.threads[i := Idle] == s.threads;
    Then(s1, Atomic(i, now), labels);
    Then(s, Invoke(i), [Atomic(i, now)] + labels);
    labels := [Invoke(i)] + ([Atomic(i, now)] + labels);
  }

  /** The state after a call that was answered `granted`. */
  predicate SoloOutcome(s: State, s': State, threads: seq<Pc>, b: Bucket, granted: bool) {
    && s'.bucket == b && s'.threads == threads
    && s'.returned == s.returned + (if granted then 1 else 0)
    && s'.grants == s.grants + (if granted then 1 else 0)
  }

  lemma SoloRefill(s: State, i: nat, now: int) returns (labels: seq<Label>)
    requires i < |s.threads| && s.threads[i] == LoadLast(now)
    ensures Possible(s, labels) && SoloCall(labels, i, now)
    ensures SoloOutcome(s, Run(s, labels), s.threads[i := Idle],
                        s.bucket.TryAcquire(now).0, s.bucket.TryAcquire(now).1)
  {
    hide Run, Possible, NewTokens, AddTokens;
    var a := Atomic(i, now);
    var s1 := Step(s, a);
    if s1.threads[i].CasLast? {
      var s2 := Step(s1, a);
      var s3 := Step(s2, a);
      var s4 := Step(s3, a);
      labels := SoloTake(s4, i, now);
      assert s4.threads[i := Idle] == s.threads[i := Idle];
      Then(s3, a, labels);
      labels := [a] + labels;
      Then(s2, a, labels);
      labels := [a] + labels;
      Then(s1, a, labels);
      labels := [a] + labels;
    } else {
      labels := SoloTake(s1, i, now);
      assert s1.threads[i := Idle] == s.threads[i := Idle];
    }
    Then(s, a, labels);
    labels := [a] + labels;
  }

  lemma SoloTake(s: State, i: nat, now: int) returns (labels: seq<Label>)
    requires i < |s.threads| && s.threads[i] == LoadToTake
    ensures Possible(s, labels) && SoloCall(labels, i, now)
    ensures var granted := s.bucket.tokens > 0;
            SoloOutcome(s, Run(s, labels), s.threads[i := Idle],
                        if granted then s.bucket.(tokens := s.bucket.tokens - 1) else s.bucket, granted)
  {
    var a := Atomic(i, now);
    var s1 := Step(s, a);
    if s.bucket.tokens > 0 {
      var s2 := Step(s1, a);
      Then(s2, Return(i), []);
      Then(s1, a, [Return(i)]);
      labels := [a] + [Return(i)];
    } else {
      Then(s1, Return(i), []);
      labels := [Return(i)];
    }
    Then(s, a, labels);
    labels := [a] + labels;
  }

  // ---- Lock freedom ----------------------------------------------------------------------------

  /** Stages still ahead of a thread. A failed swap repeats a stage. */
  function Stages(pc: Pc): int {
    match pc
    case Idle => 8
    case ReadClock => 7
    case LoadLast(_) => 6
    case CasLast(_, _, _) => 5
    case LoadToAdd(_) => 4
    case CasAdd(_, _) => 4
    case LoadToTake => 3
    case CasTake(_) => 3
    case Done(_) => 1
  }

  /** Within a stage: a stale value must be reloaded, a fresh one is about to succeed. */
  function Staleness(tokens: int): Pc -> int {
    (pc: Pc) =>
      match pc
      case LoadToAdd(_) => 1
      case LoadToTake => 1
      case CasAdd(_, current) => if current == tokens then 0 else 2
      case CasTake(current) => if current == tokens then 0 else 2
      case _ => 0
  }

  /** An action either finishes a stage or, leaving the shared words alone, freshens what
      its own thread has read: a swap fails only because another thread's succeeded. */
  lemma AtomicProgress(s: State, l: Label)
    requires Enabled(s, l) && l.Atomic?
    ensures var pc, s' := s.threads[l.thread], Step(s, l);
            var pc' := s'.threads[l.thread];
            || Stages(pc') < Stages(pc)
            || (&& s'.bucket == s.bucket && Stages(pc') == Stages(pc)
                && Staleness(s'.bucket.tokens)(pc') < Staleness(s.bucket.tokens)(pc))
  {
  }

  function Effort(s: State): int {
    Sum(s.threads, Stages) * (2 * |s.threads| + 1) + Sum(s.threads, Staleness(s.bucket.tokens))
  }

  lemma {:induction false} SumStalenessBounded(threads: seq<Pc>, tokens: int)
    ensures 0 <= Sum(threads, Staleness(tokens)) <= 2 * |threads|
  {
    if threads != [] {
      SumStalenessBounded(threads[1..], tokens);
    }
  }

  /** A lexicographic decrease is a decrease of the weighted total. */
  lemma WeightedDecrease(width: int, major: int, minor: int, major': int, minor': int)
    requires 0 <= minor < width && 0 <= minor' < width && 0 <= major'
    requires major' < major || (major' == major && minor' < minor)
    ensures 0 <= major' * width + minor' < major * width + minor
  {
    MulMonotone(width, 0, major');
    if major' < major {
      MulMonotone(width, major' + 1, major);
      assert width * (major' + 1) == width * major' + width;
    }
  }

  lemma EffortDecreases(s: State, l: Label)
    requires Enabled(s, l) && l.Atomic?
    ensures 0 <= Effort(Step(s, l)) < Effort(s)
  {
    var i, s' := l.thread, Step(s, l);
    AtomicProgress(s, l);
    assert s'.threads == s.threads[i := s'.threads[i]];
    SumUpdate(s.threads, i, s'.threads[i], Stages);
    SumUpdate(s.threads, i, s'.threads[i], Staleness(s.bucket.tokens));
    SumNonNegative(s'.threads, Stages);
    SumStalenessBounded(s'.threads, s'.bucket.tokens);
    SumStalenessBounded(s.threads, s.bucket.tokens);
    WeightedDecrease(2 * |s.threads| + 1,
                     Sum(s.threads, Stages), Sum(s.threads, Staleness(s.bucket.tokens)),
                     Sum(s'.threads, Stages), Sum(s'.threads, Staleness(s'.bucket.tokens)));
  }

  /** However the threads are interleaved, their retry loops cannot keep each other busy:
      the number of actions before some call must return is bounded by the state alone. */
  lemma {:induction false} LockFree(s: State, labels: seq<Label>)
    requires Possible(s, labels) && forall l :: l in labels ==> l.Atomic?
    ensures |labels| <= Effort(s)
    decreases labels
  {
    if labels == [] {
      SumNonNegative(s.threads, Stages);
      SumStalenessBounded(s.threads, s.bucket.tokens);
      MulMonotone(2 * |s.threads| + 1, 0, Sum(s.threads, Stages));
    } else {
      EffortDecreases(s, labels[0]);
      LockFree(Step(s, labels[0]), labels[1..]);
    }
  }
}
