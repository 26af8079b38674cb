/** What every reachable state of the running pool satisfies. */
module PoolSafety {
  import opened Sums
  import opened ProxyClients
  import opened CircuitBreakers
  import opened WorkerSystem
  import M = TokenBucketMachine

  // ---- Slots -----------------------------------------------------------------------------------

  function Holding(n: nat, p: nat): Worker -> int
    requires n > 0
  {
    (w: Worker) => if SlotOf(w, n) == Some(p) then 1 else 0
  }

  /** A proxy's semaphore holds exactly one entry per worker that occupies one of its slots. */
  ghost predicate SlotsOwned(s: System)
    requires Shape(s)
  {
    forall p :: 0 <= p < |s.proxies| ==> SlotsOwnedAt(s, p)
  }

  ghost predicate SlotsOwnedAt(s: System, p: nat)
    requires Shape(s) && p < |s.proxies|
  {
    var proxy := s.proxies[p];
    if proxy.slotCapacity == 0 then proxy.slots == 0
    else proxy.slots == Sum(s.workers, Holding(|s.proxies|, p)) && proxy.slots <= proxy.slotCapacity
  }

  // ---- Jobs ------------------------------------------------------------------------------------

  /** The job a worker has taken and not yet answered. */
  function JobOf(w: Worker): Option<Job> {
    match w
    case Idle => None
    case Exited => None
    case Releasing(_) => None
    case _ => Some(w.job)
  }

  function Held1(w: Worker): multiset<Job> {
    if JobOf(w).Some? then multiset{JobOf(w).value} else multiset{}
  }

  function Held(workers: seq<Worker>): multiset<Job> {
    if workers == [] then multiset{} else Held1(workers[0]) + Held(workers[1..])
  }

  /** Every accepted job is in exactly one place, once: in the queue, with one worker, or
      answered. */
  ghost predicate JobsConserved(s: System) {
    && multiset(s.queue) + Held(s.workers) + multiset(s.answered.Keys) == multiset(s.accepted)
    && |s.queue| <= s.queueSize
  }

  /** The worker has counted its job in totalJobs but not yet in successJobs or failedJobs. */
  function Uncounted(w: Worker): int {
    if JobOf(w).Some? && !w.Dequeued? && !w.Answering? then 1 else 0
  }

  /** The worker has counted its job as a success (or failure) and is about to answer it. */
  function Tallied(ok: bool): Worker -> int {
    (w: Worker) => if w.Answering? && w.ok == ok then 1 else 0
  }

  function Answers(answered: map<Job, bool>, ok: bool): set<Job> {
    set job | job in answered && answered[job] == ok
  }

  /** successJobs and failedJobs count the answers of each kind, those about to be sent
      included, and totalJobs counts them and the jobs still being worked on. */
  ghost predicate CountersAgree(s: System) {
    && s.totalJobs == s.successJobs + s.failedJobs + Sum(s.workers, Uncounted)
    && s.successJobs == |Answers(s.answered, true)| + Sum(s.workers, Tallied(true))
    && s.failedJobs == |Answers(s.answered, false)| + Sum(s.workers, Tallied(false))
  }

  // ---- Requests --------------------------------------------------------------------------------

  function SentVia(sent: seq<Sent>, p: nat): nat
    decreases sent
  {
    if sent == [] then 0
    else SentVia(sent[..|sent| - 1], p) + if sent[|sent| - 1].proxy == p then 1 else 0
  }

  function SentTo(sent: seq<Sent>, p: nat, domain: string): nat
    decreases sent
  {
    if sent == [] then 0
    else SentTo(sent[..|sent| - 1], p, domain) + if sent[|sent| - 1] == Sent(p, domain) then 1 else 0
  }

  /** The worker holds a token of proxy `p` that it has not used for a request yet. */
  function TokenHeld(p: nat): Worker -> int {
    (w: Worker) => if (w.Waiting? || w.Sending?) && w.proxy == p then 1 else 0
  }

  function DomainTokenHeld(p: nat, domain: string): Worker -> int {
    (w: Worker) => if w.Sending? && w.proxy == p && w.job.domain == domain then 1 else 0
  }

  ghost predicate BucketSound(s: System, b: M.State) {
    M.Inv(b) && b.horizon <= s.clock
  }

  /** Every request sent has been paid for with a token of its proxy and, for a limited
      domain, with one of that proxy's tokens for the domain. */
  ghost predicate PaidAt(s: System, p: nat)
    requires p < |s.proxies|
  {
    && (s.proxies[p].limiter.Some? ==>
          var b := s.proxies[p].limiter.value;
          BucketSound(s, b) && SentVia(s.sent, p) + Sum(s.workers, TokenHeld(p)) <= b.returned)
    && forall d :: d in s.proxies[p].domains ==> DomainPaidAt(s, p, d)
  }

  ghost predicate DomainPaidAt(s: System, p: nat, d: string)
    requires p < |s.proxies| && d in s.proxies[p].domains
  {
    var b := s.proxies[p].domains[d];
    BucketSound(s, b) && SentTo(s.sent, p, d) + Sum(s.workers, DomainTokenHeld(p, d)) <= b.returned
  }

  ghost predicate Paid(s: System) {
    forall p :: 0 <= p < |s.proxies| ==> PaidAt(s, p)
  }

  ghost predicate SentInRange(s: System) {
    forall x :: x in s.sent ==> x.proxy < |s.proxies|
  }

  ghost predicate Inv(s: System) {
    Shape(s) && SlotsOwned(s) && JobsConserved(s) && CountersAgree(s) && Paid(s) && SentInRange(s)
  }

  // ---- The configuration ---------------------------------------------------------------------------

  predicate SameBucket(b: M.State, b': M.State) {
    && b'.bucket.capacity == b.bucket.capacity && b'.bucket.refillRate == b.bucket.refillRate
    && b'.start == b.start && |b'.threads| == |b.threads|
  }

  predicate SameProxy(a: Proxy, b: Proxy) {
    && b.slotCapacity == a.slotCapacity
    && b.limiter.Some? == a.limiter.Some? && (a.limiter.Some? ==> SameBucket(a.limiter.value, b.limiter.value))
    && b.domains.Keys == a.domains.Keys && forall d :: d in a.domains ==> SameBucket(a.domains[d], b.domains[d])
  }

  /** Capacities, rates and limits are what they were. */
  ghost predicate SameConfig(s: System, s': System) {
    && |s'.proxies| == |s.proxies| && |s'.workers| == |s.workers|
    && s'.maxRetries == s.maxRetries && s'.queueSize == s.queueSize
    && forall p :: 0 <= p < |s.proxies| ==> SameProxy(s.proxies[p], s'.proxies[p])
  }

  lemma SameConfigTransitive(a: System, b: System, c: System)
    requires SameConfig(a, b) && SameConfig(b, c)
    ensures SameConfig(a, c)
  {
  }

  // ---- Initially ---------------------------------------------------------------------------------

  lemma {:induction false} HeldByNobody(workers: seq<Worker>)
    requires forall w :: w in workers ==> JobOf(w).None?
    ensures Held(workers) == multiset{}
  {
    if workers != [] {
      HeldByNobody(workers[1..]);
    }
  }

  lemma InitialInv(s: System)
    requires Initial(s)
    ensures Inv(s)
  {
    assert forall w :: w in s.workers ==> w == Idle;
    HeldByNobody(s.workers);
    SumZero(s.workers, Uncounted);
    SumZero(s.workers, Tallied(true));
    SumZero(s.workers, Tallied(false));
    forall p | 0 <= p < |s.proxies|
      ensures ProxyShape(s, s.proxies[p]) && PaidAt(s, p)
    {
      assert InitialProxy(s, s.proxies[p]);
      SumZero(s.workers, TokenHeld(p));
      if s.proxies[p].limiter.Some? {
        InitialBucketSound(s, s.proxies[p].limiter.value);
      }
      forall d | d in s.proxies[p].domains
        ensures DomainPaidAt(s, p, d) && |s.proxies[p].domains[d].threads| == |s.workers|
      {
        InitialBucketSound(s, s.proxies[p].domains[d]);
        SumZero(s.workers, DomainTokenHeld(p, d));
      }
    }
    forall w | 0 <= w < |s.workers|
      ensures WorkerShape(s, s.workers[w])
    {
    }
    forall p | 0 <= p < |s.proxies|
      ensures SlotsOwnedAt(s, p)
    {
      assert InitialProxy(s, s.proxies[p]);
      SumZero(s.workers, Holding(|s.proxies|, p));
    }
  }

  lemma InitialBucketSound(s: System, b: M.State)
    requires InitialBucket(s, b)
    ensures BucketSound(s, b) && |b.threads| == |s.workers| && b.returned == 0
  {
    M.InitInv(b.bucket.capacity, b.bucket.refillRate, b.start, |s.workers|);
  }

  // ---- One action of a worker --------------------------------------------------------------------

  ghost predicate WorkPossible(s: System, w: nat, c: Choice) {
    Shape(s) && w < |s.workers| && WorkEnabled(s, w, c)
  }

  lemma AnswerOne(answered: map<Job, bool>, job: Job, ok: bool)
    requires job !in answered
    ensures multiset(answered[job := ok].Keys) == multiset(answered.Keys) + multiset{job}
  {
  }

  lemma TakeOne(queue: seq<Job>)
    requires queue != []
    ensures multiset(queue) == multiset{queue[0]} + multiset(queue[1..])
  {
    assert queue == [queue[0]] + queue[1..];
  }

  lemma MoveIn<T>(q: multiset<T>, x: T, q': multiset<T>, a: multiset<T>)
    requires q == multiset{x} + q'
    ensures q' + multiset{x} + a == q + multiset{} + a
  {
  }

  lemma MoveOut<T>(q: multiset<T>, x: T, a: multiset<T>, a': multiset<T>)
    requires a' == a + multiset{x}
    ensures q + multiset{} + a' == q + multiset{x} + a
  {
  }

  /** Only taking a job and answering it change where the job is. */
  lemma JobStays(s: System, w: nat, c: Choice)
    requires WorkPossible(s, w, c)
    ensures !(s.workers[w].Idle? && c == Go) && !s.workers[w].Answering?
            ==> JobOf(NextPlace(s, w, c)) == JobOf(s.workers[w])
    ensures s.workers[w].Idle? && c == Go ==> JobOf(NextPlace(s, w, c)) == Some(s.queue[0])
    ensures s.workers[w].Answering? ==> JobOf(NextPlace(s, w, c)) == None
  {
  }

  /** A job moves from the queue to the worker to the answers and never gets lost or doubled. */
  lemma JobMoves(s: System, w: nat, c: Choice)
    requires WorkPossible(s, w, c)
    ensures var s', pc' := WorkStep(s, w, c), NextPlace(s, w, c);
            multiset(s'.queue) + Held1(pc') + multiset(s'.answered.Keys)
            == multiset(s.queue) + Held1(s.workers[w]) + multiset(s.answered.Keys)
  {
    hide NextProxies, NextPlace;
    JobStays(s, w, c);
    if s.workers[w].Idle? && c == Go {
      TakeOne(s.queue);
      MoveIn(multiset(s.queue), s.queue[0], multiset(s.queue[1..]), multiset(s.answered.Keys));
    } else if s.workers[w].Answering? {
      var job, ok := s.workers[w].job, s.workers[w].ok;
      AnswerOne(s.answered, job, ok);
      MoveOut(multiset(s.queue), job, multiset(s.answered.Keys), multiset(s.answered[job := ok].Keys));
    }
  }

  lemma JobCounted(s: System, w: nat, c: Choice)
    requires WorkPossible(s, w, c)
    ensures var s', pc' := WorkStep(s, w, c), NextPlace(s, w, c);
            s'.totalJobs - s'.successJobs - s'.failedJobs - Uncounted(pc')
            == s.totalJobs - s.successJobs - s.failedJobs - Uncounted(s.workers[w])
  {
    hide NextProxies, AnswerOf;
  }

  lemma AnswersGrow(answered: map<Job, bool>, job: Job, v: bool, ok: bool)
    requires job !in answered
    ensures |Answers(answered[job := v], ok)| == |Answers(answered, ok)| + if v == ok then 1 else 0
  {
    var before, after := Answers(answered, ok), Answers(answered[job := v], ok);
    forall j: Job
      ensures j in after <==> j in before || (v == ok && j == job)
    {
    }
    if v == ok {
      assert after == before + {job};
    } else {
      assert after == before;
    }
  }

  lemma JobTallied(s: System, w: nat, c: Choice)
    requires WorkPossible(s, w, c)
    ensures var s', pc' := WorkStep(s, w, c), NextPlace(s, w, c);
            && s'.successJobs - |Answers(s'.answered, true)| - Tallied(true)(pc')
               == s.successJobs - |Answers(s.answered, true)| - Tallied(true)(s.workers[w])
            && s'.failedJobs - |Answers(s'.answered, false)| - Tallied(false)(pc')
               == s.failedJobs - |Answers(s.answered, false)| - Tallied(false)(s.workers[w])
  {
    hide NextProxies, AnswerOf, Answers;
    var pc := s.workers[w];
    if pc.Answering? {
      AnswersGrow(s.answered, pc.job, pc.ok, true);
      AnswersGrow(s.answered, pc.job, pc.ok, false);
    }
  }

  /** A slot is taken or freed together with the worker's claim to it. */
  ghost predicate SlotMove(n: nat, p: nat, a: Proxy, b: Proxy, pc: Worker, pc': Worker)
    requires n > 0
  {
    && b.slotCapacity == a.slotCapacity
    && (if a.slotCapacity == 0 then b.slots == a.slots
        else b.slots == a.slots + Holding(n, p)(pc') - Holding(n, p)(pc))
    && (b.slots > a.slots ==> b.slots <= b.slotCapacity)
  }

  lemma SlotMoves(s: System, w: nat, c: Choice, p: nat)
    requires WorkPossible(s, w, c) && p < |s.proxies|
    ensures |NextProxies(s, w, c)| == |s.proxies|
    ensures WorkerShape(s, NextPlace(s, w, c))
    ensures SlotMove(|s.proxies|, p, s.proxies[p], NextProxies(s, w, c)[p], s.workers[w], NextPlace(s, w, c))
  {
    hide M.Step, Breaker.RecordSuccess, Breaker.RecordFailure;
    assert WorkerShape(s, s.workers[w]);
  }

  /** One action inside a limiter keeps it sound; handing back a grant is what `returned`
      counts. */
  lemma CallKeeps(s: System, b: M.State, w: nat)
    requires BucketSound(s, b) && w < |b.threads|
    ensures var b' := CallStep(b, w, s.clock);
            && BucketSound(s, b') && SameBucket(b, b')
            && b'.returned == b.returned + if b.threads[w] == M.Done(true) then 1 else 0
  {
    M.StepInv(b, NextCall(b, w, s.clock));
  }

  lemma SentOne(sent: seq<Sent>, x: Sent, p: nat, d: string)
    ensures SentVia(sent + [x], p) == SentVia(sent, p) + if x.proxy == p then 1 else 0
    ensures SentTo(sent + [x], p, d) == SentTo(sent, p, d) + if x == Sent(p, d) then 1 else 0
  {
  }

  /** The worker is inside the rate limiter of proxy `p`. */
  predicate AtLimiter(s: System, w: nat, p: nat)
    requires Shape(s) && w < |s.workers| && p < |s.proxies|
  {
    s.workers[w].Tokening? && Index(s, s.workers[w].start, s.workers[w].round) == p && s.proxies[p].limiter.Some?
  }

  /** The worker is inside the limiter of proxy `p` for domain `d`. */
  predicate AtDomain(s: System, w: nat, p: nat, d: string)
    requires Shape(s) && w < |s.workers| && p < |s.proxies|
  {
    s.workers[w].Waiting? && s.workers[w].proxy == p && s.workers[w].job.domain == d && d in s.proxies[p].domains
  }

  lemma LimiterChange(s: System, w: nat, c: Choice, p: nat)
    requires WorkPossible(s, w, c) && p < |s.proxies| && |NextProxies(s, w, c)| == |s.proxies|
    ensures var a, b := s.proxies[p].limiter, NextProxies(s, w, c)[p].limiter;
            if AtLimiter(s, w, p) then
              && w < |a.value.threads|
              && b == Some(CallStep(a.value, w, s.clock))
              && (AnswerOf(s, w) == Granted <==> a.value.threads[w] == M.Done(true))
            else b == a
  {
  }

  lemma DomainChange(s: System, w: nat, c: Choice, p: nat, d: string)
    requires WorkPossible(s, w, c) && p < |s.proxies| && |NextProxies(s, w, c)| == |s.proxies|
    requires d in s.proxies[p].domains
    ensures NextProxies(s, w, c)[p].domains.Keys == s.proxies[p].domains.Keys
    ensures var a, b := s.proxies[p].domains[d], NextProxies(s, w, c)[p].domains[d];
            if AtDomain(s, w, p, d) then
              && w < |a.threads|
              && b == CallStep(a, w, s.clock)
              && (AnswerOf(s, w) == Granted <==> a.threads[w] == M.Done(true))
            else b == a
  {
    hide CallStep, Breaker.RecordSuccess, Breaker.RecordFailure;
    if AtDomain(s, w, p, d) {
      LimiterShape(s, w);
    }
  }

  /** A token of proxy `p` is claimed when its limiter's grant is handed over, and the claim
      ends when the request is sent. */
  lemma TokenClaim(s: System, w: nat, c: Choice, p: nat)
    requires WorkPossible(s, w, c) && p < |s.proxies| && s.proxies[p].limiter.Some?
    ensures SentVia(WorkStep(s, w, c).sent, p) + TokenHeld(p)(NextPlace(s, w, c))
            <= SentVia(s.sent, p) + TokenHeld(p)(s.workers[w])
               + if AtLimiter(s, w, p) && AnswerOf(s, w) == Granted then 1 else 0
  {
    hide NextProxies;
    var pc := s.workers[w];
    if pc.Sending? {
      SentOne(s.sent, Sent(pc.proxy, pc.job.domain), p, pc.job.domain);
    }
  }

  lemma DomainClaim(s: System, w: nat, c: Choice, p: nat, d: string)
    requires WorkPossible(s, w, c) && p < |s.proxies| && d in s.proxies[p].domains
    ensures SentTo(WorkStep(s, w, c).sent, p, d) + DomainTokenHeld(p, d)(NextPlace(s, w, c))
            <= SentTo(s.sent, p, d) + DomainTokenHeld(p, d)(s.workers[w])
               + if AtDomain(s, w, p, d) && AnswerOf(s, w) == Granted then 1 else 0
  {
    hide NextProxies;
    var pc := s.workers[w];
    if pc.Sending? {
      SentOne(s.sent, Sent(pc.proxy, pc.job.domain), p, d);
    }
  }

  // ---- The invariant is kept ---------------------------------------------------------------------

  lemma Regroup<T>(a: multiset<T>, b: multiset<T>, c: multiset<T>, d: multiset<T>, e: multiset<T>)
    requires a + b == c + d
    ensures (e + a) + b == (e + c) + d
  {
    forall x: T
      ensures ((e + a) + b)[x] == ((e + c) + d)[x]
    {
      assert (a + b)[x] == (c + d)[x];
    }
  }

  /** What moves between one worker and the rest leaves the whole unchanged. */
  lemma Cancel<T>(q: multiset<T>, h: multiset<T>, a: multiset<T>, q': multiset<T>, h': multiset<T>, a': multiset<T>,
                  one: multiset<T>, one': multiset<T>)
    requires q' + one' + a' == q + one + a
    requires h' + one == h + one'
    ensures q' + h' + a' == q + h + a
  {
    forall x: T
      ensures (q' + h' + a')[x] == (q + h + a)[x]
    {
      assert (q' + one' + a')[x] == (q + one + a)[x];
      assert (h' + one)[x] == (h + one')[x];
    }
  }

  lemma {:induction false} HeldUpdate(workers: seq<Worker>, w: nat, x: Worker)
    requires w < |workers|
    ensures Held(workers[w := x]) + Held1(workers[w]) == Held(workers) + Held1(x)
  {
    var u := workers[w := x];
    if w == 0 {
      assert u[1..] == workers[1..];
    } else {
      assert u[1..] == workers[1..][w - 1 := x];
      HeldUpdate(workers[1..], w - 1, x);
      Regroup(Held(u[1..]), Held1(workers[w]), Held(workers[1..]), Held1(x), Held1(workers[0]));
    }
  }

  lemma WorkKeepsJobs(s: System, w: nat, c: Choice)
    requires WorkPossible(s, w, c) && JobsConserved(s) && CountersAgree(s)
    ensures JobsConserved(WorkStep(s, w, c)) && CountersAgree(WorkStep(s, w, c))
  {
    hide NextProxies, NextPlace, Held1, Uncounted, Answers;
    JobMoves(s, w, c);
    JobCounted(s, w, c);
    JobTallied(s, w, c);
    var s', pc' := WorkStep(s, w, c), NextPlace(s, w, c);
    HeldUpdate(s.workers, w, pc');
    SumUpdate(s.workers, w, pc', Uncounted);
    SumUpdate(s.workers, w, pc', Tallied(true));
    SumUpdate(s.workers, w, pc', Tallied(false));
    Cancel(multiset(s.queue), Held(s.workers), multiset(s.answered.Keys),
           multiset(s'.queue), Held(s'.workers), multiset(s'.answered.Keys),
           Held1(s.workers[w]), Held1(pc'));
  }

  lemma WorkKeepsShape(s: System, w: nat, c: Choice)
    requires WorkPossible(s, w, c)
    ensures Shape(WorkStep(s, w, c)) && |NextProxies(s, w, c)| == |s.proxies|
  {
    hide NextProxies, NextPlace;
    var s' := WorkStep(s, w, c);
    SlotMoves(s, w, c, 0);
    assert s'.workers == s.workers[w := NextPlace(s, w, c)];
    forall p | 0 <= p < |s'.proxies|
      ensures ProxyShape(s', s'.proxies[p])
    {
      WorkKeepsProxyShape(s, w, c, p);
    }
    forall v | 0 <= v < |s'.workers|
      ensures WorkerShape(s', s'.workers[v])
    {
      if v != w {
        assert WorkerShape(s, s.workers[v]);
      }
    }
  }

  lemma WorkKeepsSlots(s: System, w: nat, c: Choice)
    requires WorkPossible(s, w, c) && SlotsOwned(s)
    ensures Shape(WorkStep(s, w, c)) && SlotsOwned(WorkStep(s, w, c))
  {
    hide NextProxies, NextPlace;
    var s' := WorkStep(s, w, c);
    WorkKeepsShape(s, w, c);
    forall p | 0 <= p < |s'.proxies|
      ensures SlotsOwnedAt(s', p)
    {
      assert SlotsOwnedAt(s, p);
      SlotMoves(s, w, c, p);
      SumUpdate(s.workers, w, NextPlace(s, w, c), Holding(|s.proxies|, p));
    }
  }

  lemma CallLength(b: M.State, w: nat, now: int)
    requires w < |b.threads|
    ensures |CallStep(b, w, now).threads| == |b.threads|
  {
  }

  lemma WorkKeepsProxyShape(s: System, w: nat, c: Choice, p: nat)
    requires WorkPossible(s, w, c) && p < |s.proxies| && |NextProxies(s, w, c)| == |s.proxies|
    ensures ProxyShape(WorkStep(s, w, c), NextProxies(s, w, c)[p])
  {
    hide NextProxies, NextPlace, CallStep, AnswerOf;
    var a, b := s.proxies[p], NextProxies(s, w, c)[p];
    assert ProxyShape(s, a);
    LimiterChange(s, w, c, p);
    if AtLimiter(s, w, p) {
      CallLength(a.limiter.value, w, s.clock);
    }
    DomainChangeKeys(s, w, c, p);
    forall d | d in b.domains
      ensures |b.domains[d].threads| == |s.workers|
    {
      DomainChange(s, w, c, p, d);
      if AtDomain(s, w, p, d) {
        CallLength(a.domains[d], w, s.clock);
      }
    }
  }

  lemma WorkKeepsPaid(s: System, w: nat, c: Choice, p: nat)
    requires WorkPossible(s, w, c) && p < |s.proxies| && PaidAt(s, p) && |NextProxies(s, w, c)| == |s.proxies|
    ensures PaidAt(WorkStep(s, w, c), p)
  {
    hide NextProxies, NextPlace, CallStep, M.Inv, AnswerOf;
    var s', pc' := WorkStep(s, w, c), NextPlace(s, w, c);
    LimiterChange(s, w, c, p);
    if s.proxies[p].limiter.Some? {
      TokenClaim(s, w, c, p);
      SumUpdate(s.workers, w, pc', TokenHeld(p));
      if AtLimiter(s, w, p) {
        CallKeeps(s, s.proxies[p].limiter.value, w);
      }
    }
    forall d | d in s'.proxies[p].domains
      ensures DomainPaidAt(s', p, d)
    {
      WorkKeepsDomainPaid(s, w, c, p, d);
    }
  }

  lemma WorkKeepsDomainPaid(s: System, w: nat, c: Choice, p: nat, d: string)
    requires WorkPossible(s, w, c) && p < |s.proxies| && |NextProxies(s, w, c)| == |s.proxies|
    requires PaidAt(s, p) && d in NextProxies(s, w, c)[p].domains
    ensures DomainPaidAt(WorkStep(s, w, c), p, d)
  {
    hide NextProxies, NextPlace, CallStep, M.Inv, AnswerOf;
    DomainChangeKeys(s, w, c, p);
    assert DomainPaidAt(s, p, d);
    DomainChange(s, w, c, p, d);
    DomainClaim(s, w, c, p, d);
    SumUpdate(s.workers, w, NextPlace(s, w, c), DomainTokenHeld(p, d));
    if AtDomain(s, w, p, d) {
      CallKeeps(s, s.proxies[p].domains[d], w);
    }
  }

  lemma DomainChangeKeys(s: System, w: nat, c: Choice, p: nat)
    requires WorkPossible(s, w, c) && p < |s.proxies| && |NextProxies(s, w, c)| == |s.proxies|
    ensures NextProxies(s, w, c)[p].domains.Keys == s.proxies[p].domains.Keys
  {
    hide CallStep, Breaker.RecordSuccess, Breaker.RecordFailure;
  }

  lemma WorkKeepsProxyConfig(s: System, w: nat, c: Choice, p: nat)
    requires WorkPossible(s, w, c) && p < |s.proxies| && PaidAt(s, p) && |NextProxies(s, w, c)| == |s.proxies|
    ensures SameProxy(s.proxies[p], NextProxies(s, w, c)[p])
  {
    hide NextProxies, NextPlace, CallStep, M.Inv, AnswerOf;
    var a, b := s.proxies[p], NextProxies(s, w, c)[p];
    SlotMoves(s, w, c, p);
    LimiterChange(s, w, c, p);
    if AtLimiter(s, w, p) {
      CallKeeps(s, a.limiter.value, w);
    }
    DomainChangeKeys(s, w, c, p);
    forall d | d in a.domains
      ensures SameBucket(a.domains[d], b.domains[d])
    {
      assert DomainPaidAt(s, p, d);
      DomainChange(s, w, c, p, d);
      if AtDomain(s, w, p, d) {
        CallKeeps(s, a.domains[d], w);
      }
    }
  }

  lemma WorkSendsInRange(s: System, w: nat, c: Choice)
    requires WorkPossible(s, w, c) && SentInRange(s)
    ensures forall x :: x in WorkStep(s, w, c).sent ==> x.proxy < |s.proxies|
  {
  }

  lemma WorkInv(s: System, w: nat, c: Choice)
    requires Inv(s) && w < |s.workers| && WorkEnabled(s, w, c)
    ensures Inv(WorkStep(s, w, c)) && SameConfig(s, WorkStep(s, w, c))
  {
    hide NextProxies, NextPlace, JobsConserved, SlotsOwned, CountersAgree;
    WorkKeepsJobs(s, w, c);
    WorkKeepsSlots(s, w, c);
    WorkSendsInRange(s, w, c);
    SlotMoves(s, w, c, 0);
    forall p | 0 <= p < |s.proxies|
      ensures PaidAt(WorkStep(s, w, c), p) && SameProxy(s.proxies[p], NextProxies(s, w, c)[p])
    {
      WorkKeepsPaid(s, w, c, p);
      WorkKeepsProxyConfig(s, w, c, p);
    }
  }

  /** Time passing, cancellations and submissions touch neither workers nor proxies. */
  lemma EnvironmentKeeps(s: System, s': System)
    requires Shape(s) && SlotsOwned(s) && Paid(s)
    requires s'.workers == s.workers && s'.proxies == s.proxies && s'.sent == s.sent && s.clock <= s'.clock
    ensures Shape(s') && SlotsOwned(s') && Paid(s')
  {
    hide M.Inv;
    assert forall p :: 0 <= p < |s.proxies| ==> ProxyShape(s, s.proxies[p]) ==> ProxyShape(s', s'.proxies[p]);
    assert forall w :: 0 <= w < |s.workers| ==> WorkerShape(s, s.workers[w]) ==> WorkerShape(s', s'.workers[w]);
    assert forall p :: 0 <= p < |s.proxies| ==> SlotsOwnedAt(s, p) ==> SlotsOwnedAt(s', p);
    forall p | 0 <= p < |s'.proxies|
      ensures PaidAt(s', p)
    {
      assert PaidAt(s, p);
      assert forall d :: d in s.proxies[p].domains ==> DomainPaidAt(s, p, d) ==> DomainPaidAt(s', p, d);
    }
  }

  lemma SubmitKeepsJobs(s: System, job: Job)
    requires JobsConserved(s) && job !in s.accepted && |s.queue| < s.queueSize
    ensures JobsConserved(s.(queue := s.queue + [job], accepted := s.accepted + {job},
                             history := s.history.(submitted := s.history.submitted + [job])))
  {
    assert multiset(s.accepted + {job}) == multiset(s.accepted) + multiset{job};
  }

  lemma StepInv(s: System, l: Label)
    requires Inv(s) && Enabled(s, l)
    ensures Inv(Step(s, l)) && SameConfig(s, Step(s, l))
  {
    hide WorkStep, WorkEnabled;
    match l {
      case Work(w, c) => WorkInv(s, w, c);
      case Submit(job) =>
        SubmitKeepsJobs(s, job);
        EnvironmentKeeps(s, Step(s, l));
      case _ => EnvironmentKeeps(s, Step(s, l));
    }
  }

  // ---- Runs ------------------------------------------------------------------------------------------

  ghost predicate Possible(s: System, labels: seq<Label>)
    decreases labels
  {
    labels == [] || (Shape(s) && Enabled(s, labels[0]) && Possible(Step(s, labels[0]), labels[1..]))
  }

  function Run(s: System, labels: seq<Label>): System
    requires Possible(s, labels)
    decreases labels
  {
    if labels == [] then s else Run(Step(s, labels[0]), labels[1..])
  }

  lemma {:induction false} RunInv(s: System, labels: seq<Label>)
    requires Inv(s) && Possible(s, labels)
    ensures Inv(Run(s, labels)) && SameConfig(s, Run(s, labels))
    decreases labels
  {
    hide Step, Inv;
    if labels != [] {
      StepInv(s, labels[0]);
      RunInv(Step(s, labels[0]), labels[1..]);
      SameConfigTransitive(s, Step(s, labels[0]), Run(s, labels));
    }
  }
}
