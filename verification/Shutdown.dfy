/** The work left in the pool, which every action of a worker but a repeated attempt at a
    domain token reduces, and the state a stopped pool comes to rest in. That repeated
    attempts end as well is shown in DomainWaits.dfy. */
module Shutdown {
  import opened Int64
  import opened Sums
  import opened ProxyClients
  import opened WorkerSystem
  import opened PoolSafety
  import opened PoolGuarantees
  import M = TokenBucketMachine

  // ---- The measure ------------------------------------------------------------------------------

  /** Stages ahead of a worker inside a limiter, one if no limiter applies. */
  function CallStages(s: System, w: nat): nat
    requires Shape(s) && w < |s.workers|
    ensures 1 <= CallStages(s, w) <= 8
  {
    if LimiterOf(s, w).None? then 1
    else
      LimiterShape(s, w);
      M.Stages(LimiterOf(s, w).value.threads[w])
  }

  /** Actions a worker still has ahead of it when it begins round `round` of a selection. */
  function FromRound(s: System, round: nat): nat {
    15 + 12 * Max(0, s.maxRetries - round)
  }

  /** Stages a worker still has ahead of it; repeating a failed swap is not a new stage. */
  function Ahead(s: System, w: nat): nat
    requires Shape(s) && w < |s.workers|
  {
    match s.workers[w]
    case Exited => 0
    case Idle => 1
    case Releasing(_) => 2
    case Answering(_, _, _) => 3
    case Tallying(_, _, _) => 4
    case InFlight(_, _) => 5
    case Sending(_, _) => 6
    case Waiting(_, _) => 6 + CallStages(s, w)
    case Undoing(_, _, round) => FromRound(s, round + 1) + 1
    case Tokening(_, _, round) => FromRound(s, round + 1) + 1 + CallStages(s, w)
    case Slotting(_, _, round) => FromRound(s, round + 1) + 10
    case Probing(_, _, round) => FromRound(s, round + 1) + 11
    case Checking(_, _, round) => FromRound(s, round)
    case Ticketing(_) => FromRound(s, 0) + 1
    case Dequeued(_) => FromRound(s, 0) + 2
  }

  /** How stale the values are that a worker has read inside a limiter. */
  function Stale(s: System, w: nat): nat
    requires Shape(s) && w < |s.workers|
    ensures Stale(s, w) <= 2
  {
    if LimiterOf(s, w).None? then 0
    else
      LimiterShape(s, w);
      var b := LimiterOf(s, w).value;
      M.Staleness(b.bucket.tokens)(b.threads[w])
  }

  function AheadOfFirst(s: System, n: nat): nat
    requires Shape(s) && n <= |s.workers|
  {
    if n == 0 then 0 else AheadOfFirst(s, n - 1) + Ahead(s, n - 1)
  }

  function StaleOfFirst(s: System, n: nat): nat
    requires Shape(s) && n <= |s.workers|
    ensures StaleOfFirst(s, n) <= 2 * n
  {
    if n == 0 then 0 else StaleOfFirst(s, n - 1) + Stale(s, n - 1)
  }

  /** Stages ahead of the whole pool, those of the queued jobs included. */
  function PoolAhead(s: System): nat
    requires Shape(s)
  {
    |s.queue| * (FromRound(s, 0) + 2) + AheadOfFirst(s, |s.workers|)
  }

  /** The pool's remaining work: stages first, staleness second. */
  function Effort(s: System): int
    requires Shape(s)
  {
    PoolAhead(s) * (2 * |s.workers| + 1) + StaleOfFirst(s, |s.workers|)
  }

  /** The one action that brings the pool no further: trying again for a domain token. */
  predicate IsRetry(s: System, w: nat, c: Choice)
    requires Shape(s) && w < |s.workers|
  {
    s.workers[w].Waiting? && AnswerOf(s, w) == Refused && c == Go
  }

  // ---- One action ---------------------------------------------------------------------------------

  /** Inside a limiter that has not answered yet: a stage further, or a fresher value and
      the shared words untouched. */
  lemma CallProgress(b: M.State, w: nat, now: int)
    requires w < |b.threads| && !b.threads[w].Done?
    ensures var b' := CallStep(b, w, now);
            && |b'.threads| == |b.threads|
            && (|| M.Stages(b'.threads[w]) < M.Stages(b.threads[w])
                || (&& b'.bucket == b.bucket && M.Stages(b'.threads[w]) == M.Stages(b.threads[w])
                    && M.Staleness(b'.bucket.tokens)(b'.threads[w]) < M.Staleness(b.bucket.tokens)(b.threads[w])))
  {
  }

  lemma CallLeavesOthers(b: M.State, w: nat, now: int, v: nat)
    requires w < |b.threads| && v < |b.threads| && v != w
    ensures var b' := CallStep(b, w, now);
            |b'.threads| == |b.threads| && b'.threads[v] == b.threads[v]
  {
  }

  ghost predicate Workable(s: System, w: nat, c: Choice) {
    Inv(s) && w < |s.workers| && WorkEnabled(s, w, c)
  }

  lemma WorkShape(s: System, w: nat, c: Choice)
    requires Workable(s, w, c)
    ensures Shape(WorkStep(s, w, c))
    ensures |NextProxies(s, w, c)| == |s.proxies| == |WorkStep(s, w, c).proxies|
  {
    hide NextProxies, SlotsOwned, JobsConserved, CountersAgree, Paid;
    WorkInv(s, w, c);
    SlotMoves(s, w, c, 0);
  }

  /** The limiter another worker is inside of changes only through calls. */
  lemma OtherLimiter(s: System, w: nat, c: Choice, v: nat)
    requires WorkPossible(s, w, c) && v < |s.workers| && v != w
    requires Shape(WorkStep(s, w, c)) && |NextProxies(s, w, c)| == |s.proxies|
    ensures var a, b := LimiterOf(s, v), LimiterOf(WorkStep(s, w, c), v);
            && b.Some? == a.Some?
            && (a.Some? ==>
                  && w < |a.value.threads|
                  && (b == a || (LimiterOf(s, w) == a && b.value == CallStep(a.value, w, s.clock))))
  {
    hide NextPlace, NextProxies, CallStep, AnswerOf;
    assert WorkerShape(s, s.workers[v]);
    if LimiterOf(s, v).Some? {
      LimiterShape(s, v);
    }
    match s.workers[v] {
      case Tokening(_, start, round) =>
        LimiterChange(s, w, c, Index(s, start, round));
      case Waiting(job, p) =>
        DomainChangeKeys(s, w, c, p);
        if job.domain in s.proxies[p].domains {
          DomainChange(s, w, c, p, job.domain);
        }
      case _ =>
    }
  }

  /** What a worker does never changes the stages ahead of another, and leaves what another
      has read as fresh as it was unless it changes the shared words. */
  lemma OtherUnaffected(s: System, w: nat, c: Choice, v: nat)
    requires WorkPossible(s, w, c) && v < |s.workers| && v != w
    requires Shape(WorkStep(s, w, c)) && |NextProxies(s, w, c)| == |s.proxies|
    ensures var s' := WorkStep(s, w, c);
            && Ahead(s', v) == Ahead(s, v)
            && ((LimiterOf(s, w).Some? ==>
                   w < |LimiterOf(s, w).value.threads|
                   && CallStep(LimiterOf(s, w).value, w, s.clock).bucket == LimiterOf(s, w).value.bucket)
                ==> Stale(s', v) == Stale(s, v))
  {
    hide NextPlace, NextProxies, CallStep, AnswerOf, LimiterOf;
    OtherLimiter(s, w, c, v);
    if LimiterOf(s, v).Some? {
      LimiterShape(s, v);
      CallLeavesOthers(LimiterOf(s, v).value, w, s.clock, v);
    }
  }

  /** The worker's own progress. */
  lemma OwnProgress(s: System, w: nat, c: Choice)
    requires WorkPossible(s, w, c) && !IsRetry(s, w, c)
    requires Shape(WorkStep(s, w, c)) && |NextProxies(s, w, c)| == |s.proxies|
    requires AnswerOf(s, w) != Busy
    ensures var s' := WorkStep(s, w, c);
            if s.workers[w].Idle? && c == Go then
              |s'.queue| == |s.queue| - 1 && Ahead(s', w) < Ahead(s, w) + FromRound(s, 0) + 2
            else
              s'.queue == s.queue && Ahead(s', w) < Ahead(s, w)
  {
    hide WorkStep, NextProxies, CallStep, AnswerOf, LimiterOf, CallStages, ProxyShape, FromRound;
    OwnPlace(s, w, c);
    var s', pc := WorkStep(s, w, c), s.workers[w];
    var round := if pc.Checking? || pc.Probing? || pc.Slotting? || pc.Tokening? || pc.Undoing? then pc.round else 0;
    RoundsAhead(s, s', round);
    RoundsAhead(s, s', round + 1);
    RoundsAhead(s, s', 0);
  }

  lemma RoundsAhead(s: System, s': System, round: nat)
    requires s'.maxRetries == s.maxRetries
    ensures FromRound(s', round) == FromRound(s, round) >= 15
    ensures FromRound(s, round) == FromRound(s, round + 1) + if round < s.maxRetries then 12 else 0
  {
  }

  /** Where the acting worker goes, and what happens to the queue. */
  lemma OwnPlace(s: System, w: nat, c: Choice)
    requires WorkPossible(s, w, c)
    ensures var s' := WorkStep(s, w, c);
            && |s'.workers| == |s.workers| && s'.workers[w] == NextPlace(s, w, c)
            && s'.maxRetries == s.maxRetries
            && s'.queue == if s.workers[w].Idle? && c == Go then s.queue[1..] else s.queue
  {
    hide NextPlace, NextProxies, LimiterOf, AnswerOf;
  }

  lemma OwnCall(s: System, w: nat, c: Choice)
    requires WorkPossible(s, w, c) && AnswerOf(s, w) == Busy
    requires Shape(WorkStep(s, w, c)) && |NextProxies(s, w, c)| == |s.proxies|
    ensures var s', limiter := WorkStep(s, w, c), LimiterOf(s, w);
            && s'.queue == s.queue && s'.workers == s.workers
            && limiter.Some? && w < |limiter.value.threads| && !limiter.value.threads[w].Done?
            && LimiterOf(s', w) == Some(CallStep(limiter.value, w, s.clock))
  {
  }

  lemma OwnCallProgress(s: System, w: nat, c: Choice)
    requires WorkPossible(s, w, c) && AnswerOf(s, w) == Busy
    requires Shape(WorkStep(s, w, c)) && |NextProxies(s, w, c)| == |s.proxies|
    ensures var s' := WorkStep(s, w, c);
            && s'.queue == s.queue
            && (|| Ahead(s', w) < Ahead(s, w)
                || (&& Ahead(s', w) == Ahead(s, w) && Stale(s', w) < Stale(s, w)
                    && LimiterOf(s, w).Some? && w < |LimiterOf(s, w).value.threads|
                    && CallStep(LimiterOf(s, w).value, w, s.clock).bucket == LimiterOf(s, w).value.bucket))
  {
    hide NextPlace, NextProxies, CallStep, LimiterOf, M.Stages, M.Staleness;
    OwnCall(s, w, c);
    BusyPlace(s, w);
    CallProgress(LimiterOf(s, w).value, w, s.clock);
  }

  lemma BusyPlace(s: System, w: nat)
    requires Shape(s) && w < |s.workers| && LimiterOf(s, w).Some?
    ensures s.workers[w].Tokening? || s.workers[w].Waiting?
  {
  }

  // ---- The pool's measure ----------------------------------------------------------------------------

  lemma {:induction false} AheadMoves(s: System, w: nat, c: Choice, n: nat)
    requires WorkPossible(s, w, c) && n <= |s.workers|
    requires Shape(WorkStep(s, w, c)) && |NextProxies(s, w, c)| == |s.proxies|
    ensures AheadOfFirst(WorkStep(s, w, c), n)
            == AheadOfFirst(s, n) + if w < n then Ahead(WorkStep(s, w, c), w) - Ahead(s, w) else 0
  {
    hide NextPlace, NextProxies, Ahead;
    if n > 0 {
      AheadMoves(s, w, c, n - 1);
      if n - 1 != w {
        OtherUnaffected(s, w, c, n - 1);
      }
    }
  }

  lemma {:induction false} StaleMoves(s: System, w: nat, c: Choice, n: nat)
    requires WorkPossible(s, w, c) && n <= |s.workers|
    requires Shape(WorkStep(s, w, c)) && |NextProxies(s, w, c)| == |s.proxies|
    requires LimiterOf(s, w).Some? && w < |LimiterOf(s, w).value.threads|
    requires CallStep(LimiterOf(s, w).value, w, s.clock).bucket == LimiterOf(s, w).value.bucket
    ensures StaleOfFirst(WorkStep(s, w, c), n)
            == StaleOfFirst(s, n) + if w < n then Stale(WorkStep(s, w, c), w) - Stale(s, w) else 0
  {
    hide NextPlace, NextProxies, Stale, CallStep, LimiterOf;
    if n > 0 {
      StaleMoves(s, w, c, n - 1);
      if n - 1 != w {
        OtherUnaffected(s, w, c, n - 1);
      }
    }
  }

  /** Every action of a worker, retries aside, brings the pool closer to rest. */
  lemma WorkProgress(s: System, w: nat, c: Choice)
    requires Workable(s, w, c) && !IsRetry(s, w, c) && Shape(WorkStep(s, w, c))
    ensures Effort(WorkStep(s, w, c)) < Effort(s)
  {
    hide NextPlace, NextProxies, CallStep, LimiterOf, AnswerOf, Ahead, Stale, SlotsOwned, JobsConserved, CountersAgree, Paid;
    var s' := WorkStep(s, w, c);
    WorkShape(s, w, c);
    var n := |s.workers|;
    AheadMoves(s, w, c, n);
    if AnswerOf(s, w) != Busy {
      OwnProgress(s, w, c);
    } else {
      OwnCallProgress(s, w, c);
      if Ahead(s', w) == Ahead(s, w) {
        StaleMoves(s, w, c, n);
      }
    }
    var weight := FromRound(s, 0) + 2;
    assert PoolAhead(s') == |s'.queue| * weight + AheadOfFirst(s', n);
    if |s'.queue| < |s.queue| {
      QueueWeight(|s.queue|, |s'.queue|, weight);
    }
    M.WeightedDecrease(2 * n + 1, PoolAhead(s), StaleOfFirst(s, n), PoolAhead(s'), StaleOfFirst(s', n));
  }

  lemma QueueWeight(n: nat, n': nat, weight: nat)
    requires n' == n - 1
    ensures n' * weight == n * weight - weight
  {
  }

  // ---- The environment ---------------------------------------------------------------------------------

  /** Cancellation, closing and the passage of time leave the remaining work as it is. */
  lemma EnvironmentKeepsEffort(s: System, l: Label)
    requires Shape(s) && Enabled(s, l) && !l.Submit? && !l.Work? && Shape(Step(s, l))
    ensures Effort(Step(s, l)) == Effort(s)
  {
    SameAhead(s, Step(s, l), |s.workers|);
  }

  lemma {:induction false} SameAhead(s: System, s': System, n: nat)
    requires Shape(s) && Shape(s') && n <= |s.workers|
    requires s'.workers == s.workers && s'.proxies == s.proxies && s'.maxRetries == s.maxRetries
    ensures AheadOfFirst(s', n) == AheadOfFirst(s, n) && StaleOfFirst(s', n) == StaleOfFirst(s, n)
  {
    hide Shape, Ahead, Stale;
    if n > 0 {
      SameAhead(s, s', n - 1);
      SameWorkerAhead(s, s', n - 1);
    }
  }

  lemma SameWorkerAhead(s: System, s': System, w: nat)
    requires Shape(s) && Shape(s') && w < |s.workers|
    requires s'.workers == s.workers && s'.proxies == s.proxies && s'.maxRetries == s.maxRetries
    ensures Ahead(s', w) == Ahead(s, w) && Stale(s', w) == Stale(s, w)
  {
    assert LimiterOf(s', w) == LimiterOf(s, w);
  }

  lemma EffortNonNegative(s: System)
    requires Shape(s)
    ensures Effort(s) >= 0
  {
  }

  // ---- At rest --------------------------------------------------------------------------------------------

  /** No worker can take any action. */
  ghost predicate AtRest(s: System)
    requires Shape(s)
  {
    forall w, c :: 0 <= w < |s.workers| ==> !WorkEnabled(s, w, c)
  }

  lemma RestingWorker(s: System, w: nat)
    requires Inv(s) && AtRest(s) && w < |s.workers|
    ensures s.workers[w].Exited? || s.workers[w].Idle?
    ensures s.workers[w].Idle? ==> s.queue == [] && !s.stopping && !s.closed
  {
    NeverBlocks(s, w, TransportError);
    assert !WorkEnabled(s, w, NextChoice(s, w, TransportError));
  }

  /** With no worker at work, every slot is free, and the answers and the queue make up what
      was accepted. */
  lemma NobodyAtWork(s: System)
    requires Inv(s) && forall w :: 0 <= w < |s.workers| ==> s.workers[w].Exited? || s.workers[w].Idle?
    ensures forall p :: 0 <= p < |s.proxies| ==> s.proxies[p].slots == 0
    ensures multiset(s.queue) + multiset(s.answered.Keys) == multiset(s.accepted)
    ensures s.successJobs == |Answers(s.answered, true)| && s.failedJobs == |Answers(s.answered, false)|
    ensures s.totalJobs == s.successJobs + s.failedJobs
  {
    hide Paid;
    assert forall w :: w in s.workers ==> w.Exited? || w.Idle?;
    HeldByNobody(s.workers);
    SumZero(s.workers, Uncounted);
    SumZero(s.workers, Tallied(true));
    SumZero(s.workers, Tallied(false));
    forall p | 0 <= p < |s.proxies|
      ensures s.proxies[p].slots == 0
    {
      assert SlotsOwnedAt(s, p);
      SumZero(s.workers, Holding(|s.proxies|, p));
    }
  }

  /** A stopped pool is at rest exactly when every worker has exited. Then every slot is
      free again, and every accepted job has been answered once or is still in the queue. */
  lemma RestAfterStop(s: System)
    requires Inv(s) && s.stopping
    ensures AtRest(s) <==> forall w :: 0 <= w < |s.workers| ==> s.workers[w] == Exited
    ensures AtRest(s) ==>
              && (forall p :: 0 <= p < |s.proxies| ==> s.proxies[p].slots == 0)
              && multiset(s.queue) + multiset(s.answered.Keys) == multiset(s.accepted)
              && s.successJobs == |Answers(s.answered, true)| && s.failedJobs == |Answers(s.answered, false)|
              && s.totalJobs == s.successJobs + s.failedJobs
  {
    hide SlotsOwned, JobsConserved, CountersAgree, Paid;
    if AtRest(s) {
      forall w | 0 <= w < |s.workers|
        ensures s.workers[w] == Exited
      {
        RestingWorker(s, w);
      }
      NobodyAtWork(s);
    }
  }

  predicate SomeExited(s: System) {
    exists w :: 0 <= w < |s.workers| && s.workers[w].Exited?
  }

  lemma {:induction false} NoneExitsWhileOpen(s: System, labels: seq<Label>)
    requires Possible(s, labels) && (SomeExited(s) ==> s.stopping || s.closed)
    ensures var s' := Run(s, labels);
            SomeExited(s') ==> s'.stopping || s'.closed
    decreases labels
  {
    hide NextProxies, AnswerOf;
    if labels != [] {
      NoneExitsWhileOpen(Step(s, labels[0]), labels[1..]);
    }
  }

  /** A running pool, neither stopped nor closed, comes to rest exactly when it has nothing
      left to do: its workers are idle and its queue is empty. Then every slot is free and
      every accepted job has been answered once. */
  lemma RestWhileOpen(s0: System, labels: seq<Label>)
    requires Initial(s0) && Possible(s0, labels) && s0.workers != []
    requires var s := Run(s0, labels); !s.stopping && !s.closed
    ensures var s := Run(s0, labels);
            && Inv(s)
            && (AtRest(s) <==> s.queue == [] && forall w :: 0 <= w < |s.workers| ==> s.workers[w].Idle?)
            && (AtRest(s) ==>
                  && (forall p :: 0 <= p < |s.proxies| ==> s.proxies[p].slots == 0)
                  && s.answered.Keys == s.accepted
                  && s.successJobs == |Answers(s.answered, true)| && s.failedJobs == |Answers(s.answered, false)|
                  && s.totalJobs == s.successJobs + s.failedJobs)
  {
    hide SlotsOwned, JobsConserved, CountersAgree, Paid, Possible, Run;
    InitialInv(s0);
    RunInv(s0, labels);
    NoneExitsWhileOpen(s0, labels);
    var s := Run(s0, labels);
    if AtRest(s) {
      forall w | 0 <= w < |s.workers|
        ensures s.workers[w].Idle?
      {
        RestingWorker(s, w);
      }
      RestingWorker(s, 0);
      NobodyAtWork(s);
      AllAnswered(s);
    }
  }

  lemma AllAnswered(s: System)
    requires s.queue == [] && multiset(s.queue) + multiset(s.answered.Keys) == multiset(s.accepted)
    ensures s.answered.Keys == s.accepted
  {
    forall job: Job
      ensures job in s.answered.Keys <==> job in s.accepted
    {
      assert multiset(s.answered.Keys)[job] == multiset(s.accepted)[job];
    }
  }
}
