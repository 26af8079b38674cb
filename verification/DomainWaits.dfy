/** Waiting for the token of a limited domain comes to an end, and with it shutdown: a worker
    pauses between two attempts, tokens are earned meanwhile, and a worker that is refused
    although one was earned lost it to another, which then moves on. */
module DomainWaits {
  import opened Int64
  import opened TokenBuckets
  import opened WorkerSystem
  import opened PoolSafety
  import opened Shutdown
  import M = TokenBucketMachine

  // ---- Earning a token ----------------------------------------------------------------------------

  /** Nanoseconds after a refill until the next token is earned. */
  function TokenTime(refillRate: int): (t: int)
    requires refillRate >= 1
    ensures refillRate * t >= NANOS_PER_SEC && refillRate * (t - 1) < NANOS_PER_SEC
    ensures 1 <= t <= NANOS_PER_SEC
  {
    var t := (NANOS_PER_SEC + refillRate - 1) / refillRate;
    assert refillRate * t + (NANOS_PER_SEC + refillRate - 1) % refillRate == NANOS_PER_SEC + refillRate - 1;
    assert refillRate * (t - 1) == refillRate * t - refillRate;
    assert t >= 1 by {
      if t < 1 {
        MulMonotone(refillRate, t, 0);
      }
    }
    assert t <= NANOS_PER_SEC by {
      if t > NANOS_PER_SEC {
        MulMonotone(refillRate, NANOS_PER_SEC, t - 1);
        MulMonotone(NANOS_PER_SEC, 1, refillRate);
      }
    }
    t
  }

  /** When the next token of a bucket is earned. */
  function Ripe(b: Bucket): int
    requires b.refillRate >= 1
  {
    b.lastRefill + TokenTime(b.refillRate)
  }

  lemma RipeIff(b: Bucket, now: int)
    requires b.refillRate >= 1 && b.lastRefill <= now && b.refillRate * (now - b.lastRefill) < TWO_63
    ensures now >= Ripe(b) <==> NewTokens(now - b.lastRefill, b.refillRate) > 0
  {
    var e, t := now - b.lastRefill, TokenTime(b.refillRate);
    NewTokensBound(e, b.refillRate);
    NewTokensExact(e, b.refillRate);
    MulMonotone(e, 0, b.refillRate);
    WrapIsIdentity(e * b.refillRate);
    if e >= t {
      MulMonotone(b.refillRate, t, e);
    } else {
      MulMonotone(b.refillRate, e, t - 1);
    }
  }

  /** Pauses from time `x` until `ripe`. */
  function Pauses(x: int, ripe: int): nat {
    if x >= ripe then 0 else (ripe - x + RETRY_WAIT - 1) / RETRY_WAIT
  }

  /** The most pauses a token can take: a bucket earns at least one in a second. */
  const MOST_PAUSES: nat := 100

  lemma PausesFacts(x: int, y: int, ripe: int)
    requires x <= y
    ensures Pauses(y, ripe) <= Pauses(x, ripe)
    ensures Pauses(x + RETRY_WAIT, ripe) == if x >= ripe then 0 else Pauses(x, ripe) - 1
    ensures x < ripe ==> Pauses(x, ripe) >= 1
    ensures ripe - x <= NANOS_PER_SEC ==> Pauses(x, ripe) <= MOST_PAUSES
  {
  }

  // ---- One thread of a bucket ------------------------------------------------------------------------

  /** How far a thread is from never being refused again, as long as no token is granted. It
      can be refused once more at most while tokens are there, and not at all once it has
      won a refill. */
  function Rank(b: M.State, v: nat): nat
    requires v < |b.threads|
    ensures Rank(b, v) <= 2
  {
    var pc := b.threads[v];
    if pc == M.Done(true) then 0
    else if b.bucket.tokens > 0 then (if pc.Done? then 1 else 0)
    else if pc.LoadToAdd? || pc.CasAdd? then 1
    else 2
  }

  /** Times a thread can still be refused before a token is earned. It takes no action before
      `due`. */
  function Tries(b: M.State, v: nat, due: int, clock: int): nat
    requires v < |b.threads| && b.bucket.refillRate >= 1
  {
    if Rank(b, v) < 2 then 0
    else
      var ripe := Ripe(b.bucket);
      match b.threads[v]
      case Idle => Pauses(Max(due, clock), ripe)
      case ReadClock => Pauses(Max(due, clock), ripe)
      case LoadLast(now) => Pauses(Max(now, b.bucket.lastRefill), ripe)
      case CasLast(_, last, _) => if last == b.bucket.lastRefill then 0 else Pauses(clock + RETRY_WAIT, ripe) + 1
      case _ => Pauses(clock + RETRY_WAIT, ripe) + 1
  }

  /** The bucket is in a reachable state and, if it is empty, the product that a refill would
      compute now fits an int64. */
  ghost predicate Regular(b: M.State, clock: int) {
    && M.Inv(b) && b.horizon <= clock && b.bucket.CreditFits()
    && (b.bucket.tokens <= 0 ==> b.bucket.refillRate * (clock - b.bucket.lastRefill) < TWO_63)
  }

  lemma TriesBounded(b: M.State, v: nat, due: int, clock: int)
    requires Regular(b, clock) && v < |b.threads|
    ensures Tries(b, v, due, clock) <= MOST_PAUSES
  {
  }

  /** Time only shortens the wait. */
  lemma TriesLater(b: M.State, v: nat, due: int, clock: int, later: int)
    requires v < |b.threads| && b.bucket.refillRate >= 1 && clock <= later
    ensures Tries(b, v, due, later) <= Tries(b, v, due, clock)
  {
  }

  /** When the pause after a refusal is over. */
  function DueAfter(b: M.State, w: nat, due: int, clock: int): int
    requires w < |b.threads|
  {
    if b.threads[w] == M.Done(false) then clock + RETRY_WAIT else due
  }

  lemma RegularFacts(b: M.State, w: nat, clock: int)
    requires Regular(b, clock) && w < |b.threads|
    ensures b.bucket.Configured() && 0 <= b.bucket.tokens && b.bucket.lastRefill <= clock
    ensures M.LocalsOk(b, b.threads[w])
    ensures b.threads[w].LoadLast? && b.bucket.tokens == 0 ==>
              var from := Max(b.threads[w].now, b.bucket.lastRefill);
              from <= clock && b.bucket.refillRate * (from - b.bucket.lastRefill) < TWO_63
  {
    if b.threads[w].LoadLast? && b.bucket.tokens == 0 {
      MulMonotone(b.bucket.refillRate, Max(b.threads[w].now, b.bucket.lastRefill) - b.bucket.lastRefill, clock - b.bucket.lastRefill);
    }
  }

  /** An action that does not grant a token, as the acting thread sees it: it does not get
      further from a token, and it gets closer by trying again. */
  lemma OwnRank(b: M.State, w: nat, due: int, clock: int)
    requires Regular(b, clock) && w < |b.threads| && due <= clock
    requires b.threads[w] != M.Done(true) && CallStep(b, w, clock).threads[w] != M.Done(true)
    ensures OwnCloser(b, CallStep(b, w, clock), w, due, DueAfter(b, w, due, clock), clock)
  {
    hide M.Inv, NewTokens, AddTokens, Pauses, TokenTime;
    RegularFacts(b, w, clock);
    var last, ripe := b.bucket.lastRefill, Ripe(b.bucket);
    match b.threads[w] {
      case LoadLast(now) =>
        if b.bucket.tokens == 0 {
          var from := Max(now, last);
          RipeIff(b.bucket, from);
          PausesFacts(from, clock, ripe);
          PausesFacts(from + RETRY_WAIT, clock + RETRY_WAIT, ripe);
        }
      case CasAdd(newTokens, current) =>
        if b.bucket.tokens == current {
          AddTokensBound(current, newTokens, b.bucket.capacity);
        }
      case _ =>
    }
  }

  /** The thread's standing after an action: no worse, and better after a retry. */
  predicate OwnCloser(b: M.State, b': M.State, w: nat, due: int, due': int, clock: int)
    requires b.bucket.refillRate >= 1 && w < |b.threads|
  {
    && b'.bucket.refillRate == b.bucket.refillRate && |b'.threads| == |b.threads|
    && Rank(b', w) <= Rank(b, w)
    && (|| Rank(b', w) < Rank(b, w)
        || Tries(b', w, due', clock) + (if b.threads[w].Done? then 1 else 0) <= Tries(b, w, due, clock))
  }

  /** The same action as any other thread sees it. */
  lemma OthersRank(b: M.State, w: nat, v: nat, due: int, clock: int)
    requires Regular(b, clock) && w < |b.threads| && v < |b.threads| && v != w
    requires b.threads[w] != M.Done(true) && CallStep(b, w, clock).threads[w] != M.Done(true)
    ensures var b' := CallStep(b, w, clock);
            && |b'.threads| == |b.threads| && b'.bucket.refillRate == b.bucket.refillRate
            && Rank(b', v) <= Rank(b, v)
            && (Rank(b', w) < Rank(b, w) || Tries(b', v, due, clock) <= Tries(b, v, due, clock))
  {
  }

  // ---- The pool's budget of retries --------------------------------------------------------------------

  /** The worker waits for a domain token it has not been granted yet. */
  predicate Awaiting(s: System, w: nat)
    requires Shape(s) && w < |s.workers|
  {
    s.workers[w].Waiting? && LimiterOf(s, w).Some? && AnswerOf(s, w) != Granted
  }

  /** Stages ahead of a worker, repeated attempts at a domain token counted as one. */
  function Distance(s: System, w: nat): nat
    requires Shape(s) && w < |s.workers|
  {
    if Awaiting(s, w) then 14 else Ahead(s, w)
  }

  function WorkerRank(s: System, w: nat): nat
    requires Shape(s) && w < |s.workers|
    ensures WorkerRank(s, w) <= 2
  {
    if !Awaiting(s, w) then 0
    else
      LimiterShape(s, w);
      Rank(LimiterOf(s, w).value, w)
  }

  /** Domain buckets are in reachable states and earn something. */
  ghost predicate Regulated(s: System) {
    forall p, d :: 0 <= p < |s.proxies| && d in s.proxies[p].domains ==> Regular(s.proxies[p].domains[d], s.clock)
  }

  ghost predicate Good(s: System) {
    Shape(s) && Regulated(s)
  }

  function WorkerTries(s: System, w: nat, due: int): nat
    requires Good(s) && w < |s.workers|
    ensures WorkerTries(s, w, due) <= MOST_PAUSES
  {
    if !Awaiting(s, w) then 0
    else
      LimiterShape(s, w);
      assert Regular(LimiterOf(s, w).value, s.clock);
      TriesBounded(LimiterOf(s, w).value, w, due, s.clock);
      Tries(LimiterOf(s, w).value, w, due, s.clock)
  }

  function DistanceOfFirst(s: System, n: nat): nat
    requires Shape(s) && n <= |s.workers|
  {
    if n == 0 then 0 else DistanceOfFirst(s, n - 1) + Distance(s, n - 1)
  }

  function RankOfFirst(s: System, n: nat): nat
    requires Shape(s) && n <= |s.workers|
    ensures RankOfFirst(s, n) <= 2 * n
  {
    if n == 0 then 0 else RankOfFirst(s, n - 1) + WorkerRank(s, n - 1)
  }

  ghost function TriesOfFirst(s: System, due: seq<int>, n: nat): nat
    requires Good(s) && n <= |s.workers| && |due| == |s.workers|
    ensures TriesOfFirst(s, due, n) <= MOST_PAUSES * n
  {
    if n == 0 then 0 else TriesOfFirst(s, due, n - 1) + WorkerTries(s, n - 1, due[n - 1])
  }

  function PoolDistance(s: System): nat
    requires Shape(s)
  {
    |s.queue| * (FromRound(s, 0) + 2) + DistanceOfFirst(s, |s.workers|)
  }

  /** Distance first, ranks second, tries third. */
  ghost function Budget(s: System, due: seq<int>): int
    requires Good(s) && |due| == |s.workers|
  {
    var n := |s.workers|;
    (PoolDistance(s) * (2 * n + 1) + RankOfFirst(s, n)) * (MOST_PAUSES * n + 1) + TriesOfFirst(s, due, n)
  }

  lemma BudgetOrder(n: nat, a: nat, b: nat, c: nat, a': nat, b': nat, c': nat)
    requires b <= 2 * n && b' <= 2 * n && c <= MOST_PAUSES * n && c' <= MOST_PAUSES * n
    requires a' < a || (a' == a && (b' < b || (b' == b && c' <= c)))
    ensures var k := MOST_PAUSES * n + 1;
            (a' * (2 * n + 1) + b') * k + c' <= (a * (2 * n + 1) + b) * k + c
               - if a' == a && b' == b then c - c' else 1
  {
    if a' < a || b' < b {
      M.WeightedDecrease(2 * n + 1, a, b, a', b');
      M.WeightedDecrease(MOST_PAUSES * n + 1, a * (2 * n + 1) + b, c, a' * (2 * n + 1) + b', c');
    }
  }

  // ---- One action -----------------------------------------------------------------------------------------

  lemma OthersDistance(s: System, w: nat, c: Choice, v: nat)
    requires WorkPossible(s, w, c) && v < |s.workers| && v != w
    requires Shape(WorkStep(s, w, c)) && |NextProxies(s, w, c)| == |s.proxies|
    ensures Awaiting(WorkStep(s, w, c), v) == Awaiting(s, v)
    ensures Distance(WorkStep(s, w, c), v) == Distance(s, v)
  {
    hide NextPlace, NextProxies, CallStep, LimiterOf, Ahead;
    OtherLimiter(s, w, c, v);
    OtherUnaffected(s, w, c, v);
    if LimiterOf(s, v).Some? {
      LimiterShape(s, v);
      CallLeavesOthers(LimiterOf(s, v).value, w, s.clock, v);
    }
  }

  /** The worker takes an action within the limiter it is in, or tries again for a token. */
  predicate Stays(s: System, w: nat, c: Choice)
    requires WorkPossible(s, w, c) && Shape(WorkStep(s, w, c))
  {
    && (s.workers[w].Tokening? || Awaiting(s, w))
    && WorkStep(s, w, c).workers == s.workers
    && Awaiting(WorkStep(s, w, c), w) == Awaiting(s, w)
  }

  function NextDue(s: System, w: nat, c: Choice, due: seq<int>): seq<int>
    requires Shape(s) && w < |s.workers| == |due|
  {
    if IsRetry(s, w, c) then due[w := s.clock + RETRY_WAIT] else due
  }

  /** The domain bucket another worker waits at. */
  lemma AwaitedBucket(s: System, w: nat, c: Choice, v: nat)
    requires WorkPossible(s, w, c) && Shape(WorkStep(s, w, c)) && |NextProxies(s, w, c)| == |s.proxies|
    requires Stays(s, w, c) && v < |s.workers| && Awaiting(s, v)
    ensures var a, b := LimiterOf(s, v), LimiterOf(WorkStep(s, w, c), v);
            && b.Some?
            && (b == a
                || (&& w < |a.value.threads| && b.value == CallStep(a.value, w, s.clock)
                    && Awaiting(s, w) && LimiterOf(s, w) == a && LimiterOf(WorkStep(s, w, c), w) == b))
    ensures v == w ==> w < |LimiterOf(s, w).value.threads|
                       && LimiterOf(WorkStep(s, w, c), w).value == CallStep(LimiterOf(s, w).value, w, s.clock)
  {
    hide NextPlace, NextProxies, CallStep, AnswerOf;
    assert WorkerShape(s, s.workers[v]) && WorkerShape(s, s.workers[w]);
    var Waiting(job, p) := s.workers[v];
    DomainChangeKeys(s, w, c, p);
    DomainChange(s, w, c, p, job.domain);
  }

  ghost predicate Staying(s: System, w: nat, c: Choice, due: seq<int>) {
    && WorkPossible(s, w, c) && Good(s) && Good(WorkStep(s, w, c)) && |NextProxies(s, w, c)| == |s.proxies|
    && |due| == |s.workers| && due[w] <= s.clock
    && Stays(s, w, c)
  }

  lemma RegularLimiter(s: System, v: nat)
    requires Good(s) && v < |s.workers| && Awaiting(s, v)
    ensures v < |LimiterOf(s, v).value.threads| && Regular(LimiterOf(s, v).value, s.clock)
    ensures LimiterOf(s, v).value.threads[v] != M.Done(true)
    ensures AnswerOf(s, v) == Refused <==> LimiterOf(s, v).value.threads[v] == M.Done(false)
  {
    hide Regular;
    LimiterShape(s, v);
    assert WorkerShape(s, s.workers[v]);
  }

  lemma StayFacts(s: System, w: nat, c: Choice)
    requires WorkPossible(s, w, c) && Shape(WorkStep(s, w, c)) && Stays(s, w, c)
    ensures var s' := WorkStep(s, w, c);
            s'.clock == s.clock && s'.queue == s.queue && s'.workers == s.workers && s'.maxRetries == s.maxRetries
    ensures s.workers[w].Waiting? ==> (IsRetry(s, w, c) <==> AnswerOf(s, w) == Refused)
  {
  }

  lemma OwnMoves(s: System, w: nat, c: Choice, due: seq<int>)
    requires Staying(s, w, c, due)
    ensures var s', due' := WorkStep(s, w, c), NextDue(s, w, c, due);
            && WorkerRank(s', w) <= WorkerRank(s, w)
            && (|| WorkerRank(s', w) < WorkerRank(s, w)
                || WorkerTries(s', w, due'[w]) + (if IsRetry(s, w, c) then 1 else 0) <= WorkerTries(s, w, due[w]))
  {
    hide WorkStep, NextProxies, CallStep, LimiterOf, Regular, Rank, Tries;
    StayFacts(s, w, c);
    if Awaiting(s, w) {
      AwaitedBucket(s, w, c, w);
      RegularLimiter(s, w);
      RegularLimiter(WorkStep(s, w, c), w);
      OwnRank(LimiterOf(s, w).value, w, due[w], s.clock);
    }
  }

  lemma OthersMove(s: System, w: nat, c: Choice, due: seq<int>, v: nat)
    requires Staying(s, w, c, due) && v < |s.workers| && v != w
    ensures var s' := WorkStep(s, w, c);
            && WorkerRank(s', v) <= WorkerRank(s, v)
            && (WorkerRank(s', w) < WorkerRank(s, w) || WorkerTries(s', v, due[v]) <= WorkerTries(s, v, due[v]))
  {
    hide WorkStep, NextProxies, CallStep, LimiterOf, Regular, Rank, Tries;
    StayFacts(s, w, c);
    OthersDistance(s, w, c, v);
    if Awaiting(s, v) {
      AwaitedBucket(s, w, c, v);
      RegularLimiter(s, v);
      if LimiterOf(WorkStep(s, w, c), v) != LimiterOf(s, v) {
        RegularLimiter(s, w);
        RegularLimiter(WorkStep(s, w, c), w);
        OthersRank(LimiterOf(s, v).value, w, v, due[v], s.clock);
      }
    }
  }

  // ---- The pool's measure ----------------------------------------------------------------------------------

  lemma {:induction false} DistanceMoves(s: System, w: nat, c: Choice, n: nat)
    requires WorkPossible(s, w, c) && n <= |s.workers|
    requires Shape(WorkStep(s, w, c)) && |NextProxies(s, w, c)| == |s.proxies|
    ensures DistanceOfFirst(WorkStep(s, w, c), n)
            == DistanceOfFirst(s, n) + if w < n then Distance(WorkStep(s, w, c), w) - Distance(s, w) else 0
  {
    hide NextPlace, NextProxies, Distance;
    if n > 0 {
      DistanceMoves(s, w, c, n - 1);
      if n - 1 != w {
        OthersDistance(s, w, c, n - 1);
      }
    }
  }

  lemma {:induction false} RankMoves(s: System, w: nat, c: Choice, due: seq<int>, n: nat)
    requires Staying(s, w, c, due) && n <= |s.workers|
    ensures RankOfFirst(WorkStep(s, w, c), n)
            <= RankOfFirst(s, n) - if w < n && WorkerRank(WorkStep(s, w, c), w) < WorkerRank(s, w) then 1 else 0
  {
    hide WorkStep, NextProxies, WorkerRank, WorkerTries, Good, Stays;
    if n > 0 {
      RankMoves(s, w, c, due, n - 1);
      if n - 1 == w {
        OwnMoves(s, w, c, due);
      } else {
        OthersMove(s, w, c, due, n - 1);
      }
    }
  }

  lemma {:induction false} TriesMoves(s: System, w: nat, c: Choice, due: seq<int>, n: nat)
    requires Staying(s, w, c, due) && n <= |s.workers|
    requires WorkerRank(WorkStep(s, w, c), w) >= WorkerRank(s, w)
    ensures TriesOfFirst(WorkStep(s, w, c), NextDue(s, w, c, due), n)
            <= TriesOfFirst(s, due, n) - if w < n && IsRetry(s, w, c) then 1 else 0
  {
    hide WorkStep, NextProxies, WorkerRank, WorkerTries, Good, Stays, IsRetry;
    if n > 0 {
      TriesMoves(s, w, c, due, n - 1);
      if n - 1 == w {
        OwnMoves(s, w, c, due);
      } else {
        OthersMove(s, w, c, due, n - 1);
      }
    }
  }

  lemma OwnDistance(s: System, w: nat, c: Choice)
    requires WorkPossible(s, w, c)
    requires Shape(WorkStep(s, w, c)) && |NextProxies(s, w, c)| == |s.proxies|
    ensures var s' := WorkStep(s, w, c);
            && s'.maxRetries == s.maxRetries
            && if Stays(s, w, c) then s'.queue == s.queue && Distance(s', w) <= Distance(s, w)
               else if s.workers[w].Idle? && c == Go then
                 |s'.queue| == |s.queue| - 1 && Distance(s', w) < Distance(s, w) + FromRound(s, 0) + 2
               else s'.queue == s.queue && Distance(s', w) < Distance(s, w)
  {
    hide NextProxies, CallStep, LimiterOf, AnswerOf, CallStages;
    if IsRetry(s, w, c) {
      RetryAction(s, w, c);
    } else if AnswerOf(s, w) == Busy {
      BusyDistance(s, w, c);
    } else {
      OwnProgress(s, w, c);
    }
  }

  lemma BusyDistance(s: System, w: nat, c: Choice)
    requires WorkPossible(s, w, c) && AnswerOf(s, w) == Busy
    requires Shape(WorkStep(s, w, c)) && |NextProxies(s, w, c)| == |s.proxies|
    ensures var s' := WorkStep(s, w, c);
            && s'.queue == s.queue && !s.workers[w].Idle?
            && if Stays(s, w, c) then Distance(s', w) <= Distance(s, w) else Distance(s', w) < Distance(s, w)
  {
    hide NextPlace, NextProxies, CallStep, LimiterOf;
    OwnCall(s, w, c);
    BusyPlace(s, w);
    if s.workers[w].Tokening? {
      OwnCallProgress(s, w, c);
    }
  }

  /** Trying again for a domain token: the thread begins another call. */
  lemma RetryAction(s: System, w: nat, c: Choice)
    requires WorkPossible(s, w, c) && IsRetry(s, w, c)
    requires Shape(WorkStep(s, w, c)) && |NextProxies(s, w, c)| == |s.proxies|
    ensures var s' := WorkStep(s, w, c);
            && s'.queue == s.queue && Stays(s, w, c) && Distance(s', w) == Distance(s, w) == 14
            && Ahead(s', w) == Ahead(s, w) + 7 && Stale(s', w) == Stale(s, w)
            && LimiterOf(s, w).Some? && w < |LimiterOf(s, w).value.threads|
            && CallStep(LimiterOf(s, w).value, w, s.clock).bucket == LimiterOf(s, w).value.bucket
  {
    hide NextProxies;
    LimiterShape(s, w);
    var Waiting(job, p) := s.workers[w];
    DomainChange(s, w, c, p, job.domain);
  }

  /** No action of a worker enlarges the budget of retries, and a retry uses some of it up. */
  lemma BudgetShrinks(s: System, w: nat, c: Choice, due: seq<int>)
    requires Workable(s, w, c) && Good(s) && Good(WorkStep(s, w, c))
    requires |due| == |s.workers| && due[w] <= s.clock
    ensures Budget(WorkStep(s, w, c), NextDue(s, w, c, due)) <= Budget(s, due) - if IsRetry(s, w, c) then 1 else 0
  {
    hide NextPlace, NextProxies, LimiterOf, AnswerOf, Distance, WorkerRank, WorkerTries, Regulated, IsRetry, Stays;
    hide SlotsOwned, JobsConserved, CountersAgree, Paid;
    WorkShape(s, w, c);
    var s', due', n := WorkStep(s, w, c), NextDue(s, w, c, due), |s.workers|;
    OwnDistance(s, w, c);
    DistanceMoves(s, w, c, n);
    var weight := FromRound(s, 0) + 2;
    assert PoolDistance(s') == |s'.queue| * weight + DistanceOfFirst(s', n);
    if |s'.queue| < |s.queue| {
      QueueWeight(|s.queue|, |s'.queue|, weight);
    }
    if Stays(s, w, c) {
      RankMoves(s, w, c, due, n);
      if WorkerRank(s', w) >= WorkerRank(s, w) {
        TriesMoves(s, w, c, due, n);
      }
    } else if IsRetry(s, w, c) {
      RetryAction(s, w, c);
    }
    BudgetOrder(n, PoolDistance(s), RankOfFirst(s, n), TriesOfFirst(s, due, n),
                PoolDistance(s'), RankOfFirst(s', n), TriesOfFirst(s', due', n));
  }

  predicate OnlyTimePassed(s: System, s': System) {
    s'.workers == s.workers && s'.proxies == s.proxies && s'.maxRetries == s.maxRetries && s.clock <= s'.clock
  }

  lemma EnvironmentKeepsStanding(s: System, s': System, v: nat, due: int)
    requires Good(s) && Good(s') && OnlyTimePassed(s, s') && v < |s.workers|
    ensures Distance(s', v) == Distance(s, v) && WorkerRank(s', v) == WorkerRank(s, v)
    ensures WorkerTries(s', v, due) <= WorkerTries(s, v, due)
  {
    hide Regulated, Tries, Rank;
    assert LimiterOf(s', v) == LimiterOf(s, v);
    if Awaiting(s, v) {
      RegularLimiter(s, v);
      TriesLater(LimiterOf(s, v).value, v, due, s.clock, s'.clock);
    }
  }

  lemma {:induction false} EnvironmentKeepsSums(s: System, s': System, due: seq<int>, n: nat)
    requires Good(s) && Good(s') && OnlyTimePassed(s, s') && n <= |s.workers| == |due|
    ensures DistanceOfFirst(s', n) == DistanceOfFirst(s, n) && RankOfFirst(s', n) == RankOfFirst(s, n)
    ensures TriesOfFirst(s', due, n) <= TriesOfFirst(s, due, n)
  {
    hide Regulated, Shape, Distance, WorkerRank, WorkerTries;
    if n > 0 {
      EnvironmentKeepsSums(s, s', due, n - 1);
      EnvironmentKeepsStanding(s, s', n - 1, due[n - 1]);
    }
  }

  lemma EnvironmentKeepsBudget(s: System, l: Label, due: seq<int>)
    requires Shape(s) && Enabled(s, l) && !l.Submit? && !l.Work? && Good(s) && Good(Step(s, l))
    requires |due| == |s.workers|
    ensures Budget(Step(s, l), due) <= Budget(s, due)
  {
    hide Regulated, DistanceOfFirst, RankOfFirst, TriesOfFirst;
    var s', n := Step(s, l), |s.workers|;
    EnvironmentKeepsSums(s, s', due, n);
    BudgetOrder(n, PoolDistance(s), RankOfFirst(s, n), TriesOfFirst(s, due, n),
                PoolDistance(s'), RankOfFirst(s', n), TriesOfFirst(s', due, n));
  }

  /** A retry puts the worker back by the stages of one call. */
  lemma RetryEffort(s: System, w: nat, c: Choice)
    requires Workable(s, w, c) && IsRetry(s, w, c) && Shape(WorkStep(s, w, c))
    ensures Effort(WorkStep(s, w, c)) == Effort(s) + 7 * (2 * |s.workers| + 1)
  {
    hide NextPlace, NextProxies, CallStep, LimiterOf, AnswerOf, Ahead, Stale, IsRetry;
    hide SlotsOwned, JobsConserved, CountersAgree, Paid;
    var s', n := WorkStep(s, w, c), |s.workers|;
    WorkShape(s, w, c);
    RetryAction(s, w, c);
    AheadMoves(s, w, c, n);
    StaleMoves(s, w, c, n);
    assert PoolAhead(s') == PoolAhead(s) + 7;
  }

  // ---- Winding down ------------------------------------------------------------------------------------------

  /** The product that a refill of any empty domain bucket would compute now fits an int64. */
  ghost predicate NoOverflow(s: System) {
    forall p, d :: 0 <= p < |s.proxies| && d in s.proxies[p].domains ==>
      && s.proxies[p].domains[d].bucket.CreditFits()
      && (s.proxies[p].domains[d].bucket.tokens <= 0 ==>
            s.proxies[p].domains[d].bucket.refillRate * (s.clock - s.proxies[p].domains[d].bucket.lastRefill) < TWO_63)
  }

  function DueAfterStep(s: System, l: Label, due: seq<int>): seq<int>
    requires Shape(s) && Enabled(s, l) && |due| == |s.workers|
  {
    match l
    case Work(w, c) => NextDue(s, w, c, due)
    case _ => due
  }

  /** No new jobs come in, and a worker that was refused a domain token pauses before it tries
      again: it does nothing before its time in `due`. */
  ghost predicate Winding(s: System, labels: seq<Label>, due: seq<int>)
    requires Possible(s, labels) && |due| == |s.workers|
    decreases labels
  {
    labels != [] ==>
      && !labels[0].Submit?
      && (labels[0].Work? ==> due[labels[0].worker] <= s.clock)
      && NoOverflow(Step(s, labels[0]))
      && Winding(Step(s, labels[0]), labels[1..], DueAfterStep(s, labels[0], due))
  }

  function WorkerActions(labels: seq<Label>): nat
    decreases labels
  {
    if labels == [] then 0 else (if labels[0].Work? then 1 else 0) + WorkerActions(labels[1..])
  }

  lemma Reachable(s: System)
    requires Inv(s) && NoOverflow(s)
    ensures Good(s)
  {
    hide SlotsOwned, JobsConserved, CountersAgree, M.Inv;
    forall p, d | 0 <= p < |s.proxies| && d in s.proxies[p].domains
      ensures Regular(s.proxies[p].domains[d], s.clock)
    {
      assert PaidAt(s, p) && DomainPaidAt(s, p, d);
    }
  }

  /** All that is left to do: the stages ahead, and the retries there can be. */
  ghost function Remaining(s: System, due: seq<int>): int
    requires Good(s) && |due| == |s.workers|
  {
    Effort(s) + (7 * (2 * |s.workers| + 1) + 1) * Budget(s, due)
  }

  lemma StepRemaining(s: System, l: Label, due: seq<int>)
    requires Inv(s) && Enabled(s, l) && Good(s) && Good(Step(s, l)) && |due| == |s.workers|
    requires !l.Submit? && (l.Work? ==> due[l.worker] <= s.clock)
    ensures |Step(s, l).workers| == |s.workers|
    ensures Remaining(Step(s, l), DueAfterStep(s, l, due)) <= Remaining(s, due) - if l.Work? then 1 else 0
  {
    hide WorkStep, WorkEnabled, Effort, Budget, Inv, IsRetry, Regulated;
    match l {
      case Work(w, c) =>
        WorkInv(s, w, c);
        BudgetShrinks(s, w, c, due);
        if IsRetry(s, w, c) {
          RetryEffort(s, w, c);
        } else {
          WorkProgress(s, w, c);
        }
      case _ =>
        EnvironmentKeepsEffort(s, l);
        EnvironmentKeepsBudget(s, l, due);
    }
    Weighed(7 * (2 * |s.workers| + 1) + 1, Budget(Step(s, l), DueAfterStep(s, l, due)), Budget(s, due),
            if l.Work? && IsRetry(s, l.worker, l.choice) then 1 else 0);
  }

  lemma Weighed(k: nat, a: int, b: int, drop: int)
    requires a <= b - drop
    ensures k * a <= k * b - k * drop
  {
  }

  /** Shutdown terminates: from any reachable state, once no more jobs are submitted, the
      workers together take at most `Remaining` further actions, retries for domain tokens
      included, however they are interleaved with each other, with cancellations and with
      the passage of time. */
  lemma {:induction false} ShutdownTerminates(s: System, labels: seq<Label>, due: seq<int>)
    requires Inv(s) && NoOverflow(s) && Possible(s, labels) && |due| == |s.workers| && Winding(s, labels, due)
    ensures Good(s) && WorkerActions(labels) <= Remaining(s, due)
    decreases labels
  {
    hide Step, Inv, Good, NoOverflow, Remaining;
    Reachable(s);
    if labels == [] {
      RemainingNonNegative(s, due);
    } else {
      var s' := Step(s, labels[0]);
      StepInv(s, labels[0]);
      Reachable(s');
      StepRemaining(s, labels[0], due);
      ShutdownTerminates(s', labels[1..], DueAfterStep(s, labels[0], due));
    }
  }

  lemma RemainingNonNegative(s: System, due: seq<int>)
    requires Good(s) && |due| == |s.workers|
    ensures Remaining(s, due) >= 0
  {
    hide Effort, PoolDistance, RankOfFirst, TriesOfFirst, Regulated;
    EffortNonNegative(s);
    WeightedNonNegative(2 * |s.workers| + 1, PoolDistance(s), RankOfFirst(s, |s.workers|));
    WeightedNonNegative(MOST_PAUSES * |s.workers| + 1, PoolDistance(s) * (2 * |s.workers| + 1) + RankOfFirst(s, |s.workers|),
                        TriesOfFirst(s, due, |s.workers|));
    WeightedNonNegative(7 * (2 * |s.workers| + 1) + 1, Budget(s, due), 0);
  }

  lemma WeightedNonNegative(width: nat, major: int, minor: nat)
    requires major >= 0
    ensures major * width + minor >= 0
  {
  }
}
