/** The pool object as one worker drives it: submission, one turn of the worker loop, the
    execution of a job on the real selector, limiters and clients, and shutdown. How several
    workers interleave is in WorkerSystem.dfy. */
module WorkerPools {
  import opened TokenBuckets
  import opened SlidingWindows
  import opened CircuitBreakers
  import opened DomainLimiters
  import opened ProxyClients
  import opened Selectors
  import W = WorkerSystem

  datatype JobResult =
    | NotSelected(selection: Selection)
    | DomainTimeout(proxy: nat)
    | Failed(proxy: nat)
    | Answered(proxy: nat, code: int)

  /** Panicked: a send on the queue after it was closed. */
  datatype SubmitResult = Accepted | QueueFull | ContextDone | PoolClosed | Panicked

  /** What the outside world does while one job is executed: clock readings and cancellation
      during selection and during the domain wait, and the reply to the request. */
  datatype Environment = Environment(
    selectClock: nat -> int,
    cancelAt: nat,
    domainClock: nat -> int,
    domainCancelled: nat -> bool,
    reply: Reply,
    replyTime: int)

  /** The proxy a result reports a request for, if one was sent. */
  function SentThrough(r: JobResult): Option<nat> {
    match r
    case Failed(p) => Some(p)
    case Answered(p, _) => Some(p)
    case _ => None
  }

  /** The result is one that this selection and this environment can lead to. */
  predicate Explains(r: JobResult, selection: Selection, env: Environment) {
    match r
    case NotSelected(found) => found == selection && !selection.Selected?
    case DomainTimeout(p) => selection == Selected(p)
    case Failed(p) => selection == Selected(p) && env.reply == TransportError
    case Answered(p, code) => selection == Selected(p) && env.reply == Status(code)
  }

  /** What a job's outcome tells the breaker of the proxy it was executed on. */
  function Reported(breaker: Option<Breaker>, r: JobResult, now: int): Option<Breaker> {
    match breaker
    case None => None
    case Some(b) =>
      match r
      case Failed(_) => Some(b.RecordFailure(now))
      case Answered(_, code) => Some(if code >= 400 then b.RecordFailure(now) else b.RecordSuccess(now))
      case _ => breaker
  }

  /** What a wait of `waits` pauses does to the domain's bucket, if there is one, and whether
      it is cut short. */
  ghost predicate DomainPaid(before: Option<Bucket>, after: Option<Bucket>, env: Environment, waits: nat, timeout: bool) {
    match before
    case None => after.None? && !timeout
    case Some(b) =>
      && EndsAt(b, env.domainClock, env.domainCancelled, waits, !timeout)
      && after == Some(AfterTries(b, env.domainClock, waits + 1))
  }

  /** The proxies after a selection and the report of the job's outcome. */
  function AfterReport(scan: Scan, r: JobResult, now: int): seq<Client>
    requires scan.selection.Selected? ==> scan.selection.index < |scan.views|
  {
    if !scan.selection.Selected? then scan.views
    else
      var p := scan.selection.index;
      scan.views[p := scan.views[p].(breaker := Reported(scan.views[p].breaker, r, now))]
  }

  /** A proxy after one of its slots is given back. */
  function Freed(v: Client): Client {
    if v.slotCapacity == 0 || v.slots == 0 then v else v.(slots := v.slots - 1)
  }

  /** The proxies, the requests sent through each, and each proxy's bucket for a domain. */
  datatype PoolView = PoolView(views: seq<Client>, requests: seq<int>, domains: seq<Option<Bucket>>)

  /** What attempting a job comes to, up to the release of its slot: the answer is one that
      the selection, the wait and the reply account for; the proxies are as selection and
      report leave them; the request, if one was sent, is counted; the wait is paid for. */
  ghost predicate Attempted(before: PoolView, after: PoolView, plan: Scan, r: JobResult, env: Environment, waits: nat) {
    && Explains(r, plan.selection, env)
    && (plan.selection.Selected? ==> plan.selection.index < |plan.views|)
    && after.views == AfterReport(plan, r, env.replyTime)
    && |after.requests| == |before.requests| == |plan.views|
    && (forall i :: 0 <= i < |before.requests| ==>
          after.requests[i] == before.requests[i] + if SentThrough(r) == Some(i) then 1 else 0)
    && |after.domains| == |before.domains| == |plan.views|
    && (plan.selection.Selected? ==>
          DomainPaid(before.domains[plan.selection.index], after.domains[plan.selection.index], env, waits, r.DomainTimeout?))
  }

  /** What executing a job comes to: the attempt, and then the slot is free again. */
  ghost predicate Executed(before: PoolView, after: PoolView, plan: Scan, r: JobResult, env: Environment, waits: nat) {
    && (plan.selection.Selected? ==> plan.selection.index < |plan.views|)
    && Attempted(before, after.(views := AfterReport(plan, r, env.replyTime)), plan, r, env, waits)
    && after.views == AfterJob(plan, r, env.replyTime)
    && |after.views| == |before.views|
    && forall i :: 0 <= i < |before.views| ==> after.views[i].slots == before.views[i].slots
  }

  /** Giving the slot back completes a job: every proxy then holds as many as before. */
  lemma FreedIsExecuted(before: PoolView, mid: PoolView, plan: Scan, r: JobResult, env: Environment, waits: nat)
    requires Attempted(before, mid, plan, r, env, waits) && |before.views| == |plan.views|
    requires forall j :: 0 <= j < |before.views| ==> SlotTaken(before.views[j], plan.views[j], plan.selection == Selected(j))
    ensures var p := plan.selection;
            Executed(before, mid.(views := if p.Selected? then mid.views[p.index := Freed(mid.views[p.index])] else mid.views),
                     plan, r, env, waits)
    ensures plan.selection.Selected? ==>
              && plan.selection.index < |mid.views|
              && var v := mid.views[plan.selection.index];
              v.slotCapacity > 0 ==> v.slots > 0
  {
    hide Explains, DomainPaid, Reported;
  }

  /** A proxy that its breaker does not shut off, with a slot and a token, and no limit. */
  predicate Accepts(v: Client, limit: Option<Bucket>, now: int) {
    && (v.breaker.Some? ==>
          var b := v.breaker.value;
          b.state != Dead || now - b.lastStateChange > b.cfg.recoveryTimeout)
    && (v.slotCapacity == 0 || v.slots < v.slotCapacity)
    && (v.limiter.Some? ==> v.limiter.value.TryAcquire(now).1)
    && limit.None?
  }

  /** The request went through proxy `p`: the answer is the proxy's, the request is counted,
      and the breaker is told. */
  predicate ServedBy(before: PoolView, after: PoolView, r: JobResult, env: Environment, p: nat) {
    && r == (match env.reply case Status(code) => Answered(p, code) case TransportError => Failed(p))
    && p < |before.requests| == |after.requests| == |before.views| == |after.views|
    && after.requests[p] == before.requests[p] + 1
    && after.views[p].breaker
       == match before.views[p].breaker
          case None => None
          case Some(b) =>
            Some(if env.reply.TransportError? || env.reply.code >= 400 then b.RecordFailure(env.replyTime)
                 else b.RecordSuccess(env.replyTime))
  }

  /** A job whose turn falls on a proxy that accepts is served by that proxy. */
  lemma TurnServes(before: PoolView, after: PoolView, r: JobResult, env: Environment, waits: nat, p: nat, maxRetries: int)
    requires p < |before.views| == |before.domains| && maxRetries >= 1 && env.cancelAt >= 1
    requires Accepts(before.views[p], before.domains[p], env.selectClock(0))
    requires Executed(before, after, ScanFrom(before.views, p, 0, maxRetries, env.selectClock, env.cancelAt), r, env, waits)
    ensures ServedBy(before, after, r, env, p)
  {
    hide Breaker.RecordFailure, Breaker.RecordSuccess, Bucket.TryAcquire;
    AcceptedAtOnce(before.views, p, maxRetries, env);
  }

  lemma AcceptedAtOnce(views: seq<Client>, p: nat, maxRetries: int, env: Environment)
    requires p < |views| && maxRetries >= 1 && env.cancelAt >= 1
    requires Accepts(views[p], None, env.selectClock(0))
    ensures var scan := ScanFrom(views, p, 0, maxRetries, env.selectClock, env.cancelAt);
            && scan.selection == Selected(p) && |scan.views| == |views|
            && scan.views[p].breaker == views[p].breaker
  {
    hide Bucket.TryAcquire;
    assert (p + 0) % |views| == p;
  }

  predicate SlotTaken(before: Client, after: Client, selected: bool) {
    && after.slotCapacity == before.slotCapacity
    && after.slots == before.slots + if selected && before.slotCapacity > 0 then 1 else 0
  }

  /** The proxies after a whole job: the slot is free again as well. */
  function AfterJob(scan: Scan, r: JobResult, now: int): seq<Client>
    requires scan.selection.Selected? ==> scan.selection.index < |scan.views|
  {
    var views := AfterReport(scan, r, now);
    if !scan.selection.Selected? then views
    else
      var p := scan.selection.index;
      views[p := Freed(views[p])]
  }

  // ---- The objects of a pool do not overlap ------------------------------------------------------

  ghost function WindowsOf(c: ProxyClient): set<SlidingWindow> {
    if c.breaker == null then {} else {c.breaker.requests, c.breaker.failures}
  }

  ghost function Windows(clients: seq<ProxyClient>): set<SlidingWindow> {
    set c, w | c in clients && w in WindowsOf(c) :: w
  }

  ghost function DomainBuckets(clients: seq<ProxyClient>, domain: string): set<TokenBucket> {
    set c | c in clients && LimiterFor(c.domainLimiter, domain) != null :: LimiterFor(c.domainLimiter, domain)
  }

  ghost predicate Disjoint(clients: seq<ProxyClient>, domain: string) {
    && (forall i, j :: 0 <= i < j < |clients| ==>
          && (clients[i].breaker != clients[j].breaker || clients[i].breaker == null)
          && WindowsOf(clients[i]) !! WindowsOf(clients[j]))
    && DomainBuckets(clients, domain) !! Limiters(clients)
  }

  ghost function RequestsOf(clients: seq<ProxyClient>): (counts: seq<int>)
    reads clients
    ensures |counts| == |clients|
    ensures forall i :: 0 <= i < |clients| ==> counts[i] == clients[i].totalRequests
  {
    if clients == [] then [] else
      assert forall c :: c in clients[1..] ==> c in clients;
      assert clients[0] in clients;
      [clients[0].totalRequests] + RequestsOf(clients[1..])
  }

  ghost function DomainsOf(clients: seq<ProxyClient>, domain: string): (buckets: seq<Option<Bucket>>)
    reads DomainBuckets(clients, domain)
    ensures |buckets| == |clients|
    ensures forall i :: 0 <= i < |clients| ==>
              buckets[i] == var bucket := LimiterFor(clients[i].domainLimiter, domain);
                            if bucket == null then None else Some(bucket.View())
  {
    if clients == [] then [] else
      assert DomainBuckets(clients[1..], domain) <= DomainBuckets(clients, domain);
      assert clients[0] in clients;
      var bucket := LimiterFor(clients[0].domainLimiter, domain);
      [if bucket == null then None else Some(bucket.View())] + DomainsOf(clients[1..], domain)
  }

  /** A selection takes one slot of the selected proxy and no other. */
  lemma {:induction false} ScanSlots(views: seq<Client>, start: nat, i: nat, maxRetries: int, clock: nat -> int, cancelAt: nat)
    requires views != []
    ensures var s := ScanFrom(views, start, i, maxRetries, clock, cancelAt);
            forall j :: 0 <= j < |views| ==>
              && s.views[j].slotCapacity == views[j].slotCapacity
              && s.views[j].slots == views[j].slots + if s.selection == Selected(j) && views[j].slotCapacity > 0 then 1 else 0
    decreases maxRetries - i
  {
    hide Client.TokenReady, Bucket.TryAcquire;
    if i < maxRetries && i < cancelAt {
      var idx := (start + i) % |views|;
      var (client, chosen) := Visit(views[idx], clock(i));
      if !chosen {
        ScanSlots(views[idx := client], start, i + 1, maxRetries, clock, cancelAt);
      }
    }
  }

  /** The objects of one proxy are among those of the pool. */
  lemma PartsOf(clients: seq<ProxyClient>, domain: string, idx: nat)
    requires idx < |clients|
    ensures var c := clients[idx];
            && (c.breaker != null ==> c.breaker in Breakers(clients)) && WindowsOf(c) <= Windows(clients)
            && (LimiterFor(c.domainLimiter, domain) != null ==> LimiterFor(c.domainLimiter, domain) in DomainBuckets(clients, domain))
            && (c.limiter != null ==> c.limiter in Limiters(clients))
  {
  }

  lemma HeadIsUnanswered(queue: seq<W.Job>, results: map<W.Job, JobResult>, accepted: set<W.Job>)
    requires queue != [] && multiset(queue) + multiset(results.Keys) == multiset(accepted)
    ensures queue[0] !in results
    ensures multiset(queue[1..]) + multiset(results.Keys + {queue[0]}) == multiset(accepted)
  {
    var job := queue[0];
    assert queue == [job] + queue[1..];
    assert (multiset(queue) + multiset(results.Keys))[job] == multiset(accepted)[job] <= 1;
    assert multiset(results.Keys + {job}) == multiset(results.Keys) + multiset{job};
  }

  /** Answering the head of the queue keeps every accepted job in one place. */
  lemma HeadAnswered(queue: seq<W.Job>, results: map<W.Job, JobResult>, accepted: set<W.Job>, r: JobResult)
    requires queue != [] && multiset(queue) + multiset(results.Keys) == multiset(accepted)
    ensures queue[0] !in results && |results[queue[0] := r]| == |results| + 1
    ensures results[queue[0] := r].Keys == results.Keys + {queue[0]}
    ensures multiset(queue[1..]) + multiset(results[queue[0] := r].Keys) == multiset(accepted)
  {
    HeadIsUnanswered(queue, results, accepted);
    assert results[queue[0] := r].Keys == results.Keys + {queue[0]};
  }

  class WorkerPool {
    const selector: RoundRobinSelector
    const queueSize: nat
    var queue: seq<W.Job>
    var stopping: bool
    var closed: bool
    var totalJobs: int
    var successJobs: int
    var failedJobs: int
    /** What has been sent on each job's result channel. */
    var results: map<W.Job, JobResult>

    /** Every job the queue ever took. */
    ghost var accepted: set<W.Job>

    ghost predicate Valid()
      reads this
    {
      && |queue| <= queueSize
      && multiset(queue) + multiset(results.Keys) == multiset(accepted)
      && totalJobs == successJobs + failedJobs == |results|
    }

    constructor (selector: RoundRobinSelector, queueSize: nat)
      ensures Valid() && this.selector == selector && this.queueSize == queueSize
      ensures queue == [] && results == map[] && accepted == {} && !stopping && !closed
    {
      this.selector := selector;
      this.queueSize := queueSize;
      queue := [];
      stopping, closed := false, false;
      totalJobs, successJobs, failedJobs := 0, 0, 0;
      results := map[];
      accepted := {};
    }

    /** Takes the job if the queue has room and refuses it otherwise, without waiting. On a
        closed queue it panics. */
    method Submit(job: W.Job) returns (r: SubmitResult)
      requires Valid() && job !in accepted
      modifies this`queue, this`accepted
      ensures Valid()
      ensures r == if closed then Panicked else if |old(queue)| < queueSize then Accepted else QueueFull
      ensures queue == old(queue) + if r == Accepted then [job] else []
      ensures accepted == old(accepted) + if r == Accepted then {job} else {}
    {
      if closed {
        return Panicked;
      }
      if |queue| < queueSize {
        assert multiset(accepted + {job}) == multiset(accepted) + multiset{job};
        queue := queue + [job];
        accepted := accepted + {job};
        return Accepted;
      }
      return QueueFull;
    }

    /** Waits for room, the caller's context or the pool's shutdown; `first` is the one that
        happens, and is chosen freely if several can. A send on a closed queue can happen at
        once, and panics. */
    method SubmitBlocking(job: W.Job, first: SubmitResult) returns (r: SubmitResult)
      requires Valid() && job !in accepted
      requires match first
               case Accepted => !closed && |queue| < queueSize
               case ContextDone => true
               case PoolClosed => stopping
               case Panicked => closed
               case QueueFull => false
      modifies this`queue, this`accepted
      ensures Valid() && r == first
      ensures queue == old(queue) + if r == Accepted then [job] else []
      ensures accepted == old(accepted) + if r == Accepted then {job} else {}
    {
      if first == Accepted {
        r := Submit(job);
      } else {
        r := first;
      }
    }

    /** Ends the pool's context and closes the queue; closing it a second time panics. */
    method Stop() returns (panicked: bool)
      requires Valid()
      modifies this`stopping, this`closed
      ensures Valid() && stopping && closed && panicked == old(closed)
    {
      stopping := true;
      panicked := closed;
      closed := true;
    }

    /** The parts of the pool are in order, and the reply comes after anything recorded. */
    ghost predicate InOrder(job: W.Job, env: Environment)
      reads selector, selector.clients, Breakers(selector.clients), Windows(selector.clients)
    {
      && selector.Valid() && selector.SemaphoresOk()
      && Disjoint(selector.clients, job.domain)
      && (assert forall c :: c in selector.clients ==> WindowsOf(c) <= Windows(selector.clients);
          forall c :: c in selector.clients ==> c.Sound(env.replyTime))
    }

    /** What the next selection does. */
    ghost function Planned(job: W.Job, env: Environment): (scan: Scan)
      requires InOrder(job, env)
      reads selector, selector.clients, Limiters(selector.clients), Breakers(selector.clients), Windows(selector.clients)
      ensures |scan.views| == |selector.clients|
      ensures scan.selection.Selected? ==> scan.selection.index < |selector.clients|
    {
      ScanFrom(ViewsOf(selector.clients), NextTicket(selector.currentIndex) % |selector.clients|, 0,
               selector.maxRetries, env.selectClock, env.cancelAt)
    }

    /** The bucket that a job executed on proxy `idx` has to pay, if any. */
    ghost function DomainBucketOf(idx: nat, domain: string): TokenBucket?
      requires idx < |selector.clients|
    {
      LimiterFor(selector.clients[idx].domainLimiter, domain)
    }

    /** If a domain limit applies on proxy `idx`, waiting for it comes to an end. */
    ghost predicate WaitEnds(idx: nat, job: W.Job, env: Environment)
      requires idx < |selector.clients|
      reads DomainBuckets(selector.clients, job.domain)
    {
      var b := DomainsOf(selector.clients, job.domain)[idx];
      b.Some? ==> Returns(b.value, env.domainClock, env.domainCancelled)
    }

    /** What a job can change outside the pool object. */
    ghost function Snapshot(job: W.Job, env: Environment): PoolView
      requires InOrder(job, env)
      reads selector, selector.clients, Limiters(selector.clients), Breakers(selector.clients), Windows(selector.clients),
            DomainBuckets(selector.clients, job.domain)
    {
      PoolView(ViewsOf(selector.clients), RequestsOf(selector.clients), DomainsOf(selector.clients, job.domain))
    }

    /** The domain bucket that executing the job draws on, if any. */
    ghost function PaidBucket(job: W.Job, env: Environment): (buckets: set<TokenBucket>)
      requires InOrder(job, env)
      reads selector, selector.clients, Limiters(selector.clients), Breakers(selector.clients), Windows(selector.clients)
      ensures buckets <= DomainBuckets(selector.clients, job.domain)
    {
      var selection := Planned(job, env).selection;
      if selection.Selected? && DomainBucketOf(selection.index, job.domain) != null then
        PartsOf(selector.clients, job.domain, selection.index);
        {DomainBucketOf(selection.index, job.domain)}
      else {}
    }

    /** The proxy at which the next selection begins. */
    ghost function Turn(): nat
      reads selector
    {
      if !selector.Valid() then 0 else NextTicket(selector.currentIndex) % |selector.clients|
    }

    lemma PlanOf(job: W.Job, env: Environment)
      requires InOrder(job, env)
      ensures var s := Snapshot(job, env);
              && Turn() < |s.views| == |s.domains|
              && Planned(job, env) == ScanFrom(s.views, Turn(), 0, selector.maxRetries, env.selectClock, env.cancelAt)
    {
      hide ScanFrom, ViewsOf, RequestsOf, DomainsOf;
    }

    /** The circumstances in which executing a job comes to an end. */
    ghost predicate CanExecute(job: W.Job, env: Environment)
      reads selector, selector.clients, Limiters(selector.clients), Breakers(selector.clients), Windows(selector.clients),
            DomainBuckets(selector.clients, job.domain)
    {
      && InOrder(job, env)
      && (Planned(job, env).selection.Selected? ==> WaitEnds(Planned(job, env).selection.index, job, env))
    }

    /** One turn of the worker loop: leave if the pool's context is done (`quit`) or the queue
        is closed and drained, otherwise execute the job at the head of the queue. Each job
        taken is executed and answered with what came of it, so no job is lost or answered
        twice. */
    method WorkerTurn(quit: bool, env: Environment) returns (alive: bool, ghost waits: nat)
      requires Valid()
      requires if quit then stopping else if queue == [] then closed else CanExecute(queue[0], env)
      modifies this`queue, this`totalJobs, this`successJobs, this`failedJobs, this`results,
               selector, selector.clients, Limiters(selector.clients),
               if quit || queue == [] then {} else PaidBucket(queue[0], env),
               Breakers(selector.clients), Windows(selector.clients)
      ensures Valid() && alive == (!quit && old(queue) != [])
      ensures accepted == old(accepted) && stopping == old(stopping) && closed == old(closed)
      ensures !alive ==> queue == old(queue) && results == old(results)
      ensures alive ==>
                var job := old(queue)[0];
                && queue == old(queue)[1..]
                && job in results && results == old(results)[job := results[job]]
                && successJobs == old(successJobs) + (if results[job].Answered? then 1 else 0)
                && failedJobs == old(failedJobs) + (if results[job].Answered? then 0 else 1)
                && InOrder(job, env)
                && Executed(old(Snapshot(job, env)), Snapshot(job, env), old(Planned(job, env)), results[job], env, waits)
      ensures alive && selector.maxRetries >= 1 && env.cancelAt >= 1 ==>
                var job, p := old(queue)[0], old(Turn());
                var before, after := old(Snapshot(job, env)), Snapshot(job, env);
                p < |before.views| == |before.domains| && Accepts(before.views[p], before.domains[p], env.selectClock(0)) ==>
                  ServedBy(before, after, results[job], env, p)
    {
      waits := 0;
      if quit || |queue| == 0 {
        return false, 0;
      }
      hide Valid, InOrder, Planned, WaitEnds, Snapshot, Executed, ScanFrom, Accepts, ServedBy;
      hide Limiters, Breakers, Windows, DomainBuckets, PaidBucket;
      ghost var job, before, p := queue[0], Snapshot(queue[0], env), Turn();
      PlanOf(job, env);
      waits := ExecuteHead(env);
      if selector.maxRetries >= 1 && env.cancelAt >= 1 && Accepts(before.views[p], before.domains[p], env.selectClock(0)) {
        TurnServes(before, Snapshot(job, env), results[job], env, waits, p, selector.maxRetries);
      }
      return true, waits;
    }

    /** Takes the job at the head of the queue and executes it. */
    method ExecuteHead(env: Environment) returns (ghost waits: nat)
      requires Valid() && queue != [] && CanExecute(queue[0], env)
      modifies this`queue, this`totalJobs, this`successJobs, this`failedJobs, this`results,
               selector, selector.clients, Limiters(selector.clients),
               PaidBucket(queue[0], env), Breakers(selector.clients), Windows(selector.clients)
      ensures Valid() && queue == old(queue)[1..]
      ensures accepted == old(accepted) && stopping == old(stopping) && closed == old(closed)
      ensures var job := old(queue)[0];
              && job in results && results == old(results)[job := results[job]]
              && successJobs == old(successJobs) + (if results[job].Answered? then 1 else 0)
              && failedJobs == old(failedJobs) + (if results[job].Answered? then 0 else 1)
              && InOrder(job, env)
              && Executed(old(Snapshot(job, env)), Snapshot(job, env), old(Planned(job, env)), results[job], env, waits)
    {
      hide InOrder, Planned, CanExecute, Snapshot, Executed, Limiters, Breakers, Windows, DomainBuckets, PaidBucket;
      ghost var q, done := queue, results;
      HeadIsUnanswered(q, done, accepted);
      var job := Dequeue(env);
      waits := ExecuteJob(job, env);
      HeadAnswered(q, done, accepted, results[q[0]]);
    }

    method Dequeue(ghost env: Environment) returns (job: W.Job)
      requires queue != [] && CanExecute(queue[0], env)
      modifies this`queue
      ensures job == old(queue)[0] && queue == old(queue)[1..] && CanExecute(job, env)
      ensures Planned(job, env) == old(Planned(job, env)) && PaidBucket(job, env) == old(PaidBucket(job, env))
      ensures Snapshot(job, env) == old(Snapshot(job, env))
    {
      hide ScanFrom, ViewsOf, RequestsOf, DomainsOf, CircuitBreaker.Valid, Returns, Limiters, Breakers, Windows, DomainBuckets;
      job := queue[0];
      queue := queue[1..];
      assert ViewsOf(selector.clients) == old(ViewsOf(selector.clients));
    }

    /** Executes one job on the proxy that selection finds, and answers it exactly once. The
        proxies end as the selection, the report and the release leave them, which takes no
        slot from any; no domain bucket but the selected proxy's changes. */
    method ExecuteJob(job: W.Job, env: Environment) returns (ghost waits: nat)
      requires CanExecute(job, env) && job !in results
      modifies this`totalJobs, this`successJobs, this`failedJobs, this`results,
               selector, selector.clients, Limiters(selector.clients),
               PaidBucket(job, env), Breakers(selector.clients), Windows(selector.clients)
      ensures InOrder(job, env)
      ensures job in results && results == old(results)[job := results[job]]
      ensures totalJobs == old(totalJobs) + 1
      ensures successJobs == old(successJobs) + (if results[job].Answered? then 1 else 0)
      ensures failedJobs == old(failedJobs) + (if results[job].Answered? then 0 else 1)
      ensures Executed(old(Snapshot(job, env)), Snapshot(job, env), old(Planned(job, env)), results[job], env, waits)
    {
      hide InOrder, Planned, WaitEnds, Snapshot, Attempted, Executed, Limiters, Breakers, Windows, DomainBuckets, PaidBucket;
      ghost var before, plan := Snapshot(job, env), Planned(job, env);
      PlannedSlots(job, env);
      Begin(job, env);
      var client, r;
      client, r, waits := Attempt(job, env);
      FreedIsExecuted(before, Snapshot(job, env), plan, r, env, waits);
      Finish(job, client, plan.selection, r, env);
    }

    method Begin(job: W.Job, ghost env: Environment)
      requires CanExecute(job, env)
      modifies this`totalJobs
      ensures totalJobs == old(totalJobs) + 1 && CanExecute(job, env)
      ensures Planned(job, env) == old(Planned(job, env)) && PaidBucket(job, env) == old(PaidBucket(job, env))
      ensures Snapshot(job, env) == old(Snapshot(job, env))
    {
      hide ScanFrom, ViewsOf, RequestsOf, DomainsOf, CircuitBreaker.Valid, Returns, Limiters, Breakers, Windows, DomainBuckets;
      totalJobs := totalJobs + 1;
      assert ViewsOf(selector.clients) == old(ViewsOf(selector.clients));
    }

    /** The outcome is counted and sent, and then the slot given back, if one is held. */
    method Finish(job: W.Job, client: ProxyClient?, ghost selection: Selection, r: JobResult, ghost env: Environment)
      requires InOrder(job, env)
      requires selection.Selected? ==> selection.index < |selector.clients|
      requires if selection.Selected? then client == selector.clients[selection.index] else client == null
      requires selection.Selected? ==>
                 && selection.index < |Snapshot(job, env).views|
                 && var v := Snapshot(job, env).views[selection.index];
                    v.slotCapacity > 0 ==> v.slots > 0
      modifies this`successJobs, this`failedJobs, this`results, (if client == null then {} else {client})`slots
      ensures InOrder(job, env) && results == old(results)[job := r]
      ensures successJobs == old(successJobs) + (if r.Answered? then 1 else 0)
      ensures failedJobs == old(failedJobs) + (if r.Answered? then 0 else 1)
      ensures var s := old(Snapshot(job, env));
              Snapshot(job, env)
              == s.(views := if selection.Selected? then s.views[selection.index := Freed(s.views[selection.index])] else s.views)
    {
      hide InOrder, Snapshot;
      Record(job, r, env);
      if client != null {
        Release(client, selection.index, job, env);
      }
    }

    /** Counts the outcome and sends it on the job's result channel. */
    method Record(job: W.Job, r: JobResult, ghost env: Environment)
      requires InOrder(job, env)
      modifies this`successJobs, this`failedJobs, this`results
      ensures results == old(results)[job := r]
      ensures successJobs == old(successJobs) + (if r.Answered? then 1 else 0)
      ensures failedJobs == old(failedJobs) + (if r.Answered? then 0 else 1)
      ensures InOrder(job, env) && Snapshot(job, env) == old(Snapshot(job, env))
    {
      hide ViewsOf, RequestsOf, DomainsOf, CircuitBreaker.Valid, DomainBuckets, Limiters, Breakers, Windows;
      if r.Answered? {
        successJobs := successJobs + 1;
      } else {
        failedJobs := failedJobs + 1;
      }
      results := results[job := r];
    }

    /** The slot of a selected proxy is given back; no other proxy is touched. */
    method Release(client: ProxyClient, ghost idx: nat, ghost job: W.Job, ghost env: Environment)
      requires InOrder(job, env) && idx < |selector.clients| && client == selector.clients[idx]
      requires var v := Snapshot(job, env).views[idx];
               v.slotCapacity > 0 ==> v.slots > 0
      modifies client`slots
      ensures InOrder(job, env)
      ensures var s := old(Snapshot(job, env));
              Snapshot(job, env) == s.(views := s.views[idx := Freed(s.views[idx])])
    {
      hide ViewsOf, RequestsOf, DomainsOf, CircuitBreaker.Valid, DomainBuckets, Limiters;
      client.ReleaseConcurrency();
    }

    lemma PlannedSlots(job: W.Job, env: Environment)
      requires InOrder(job, env)
      ensures var views, plan := Snapshot(job, env).views, Planned(job, env);
              && |views| == |plan.views|
              && forall j :: 0 <= j < |views| ==> SlotTaken(views[j], plan.views[j], plan.selection == Selected(j))
    {
      hide ScanFrom, ViewsOf;
      ScanSlots(ViewsOf(selector.clients), NextTicket(selector.currentIndex) % |selector.clients|, 0,
                selector.maxRetries, env.selectClock, env.cancelAt);
    }

    /** Selection, domain limit and request; a selected proxy's slot is still held at the end. */
    method Attempt(job: W.Job, env: Environment) returns (client: ProxyClient?, r: JobResult, ghost waits: nat)
      requires CanExecute(job, env)
      modifies selector, selector.clients, Limiters(selector.clients),
               PaidBucket(job, env), Breakers(selector.clients), Windows(selector.clients)
      ensures InOrder(job, env)
      ensures var selection := old(Planned(job, env)).selection;
              if selection.Selected? then client == selector.clients[selection.index] else client == null
      ensures Attempted(old(Snapshot(job, env)), Snapshot(job, env), old(Planned(job, env)), r, env, waits)
    {
      hide ViewsOf, RequestsOf, DomainsOf, InOrder, Planned, Limiters, Breakers, Windows, DomainBuckets, WindowsOf;
      hide DomainPaid, Returns, Reported;
      var selection;
      waits := 0;
      client, selection := SelectProxy(job, env);
      if client == null {
        return null, NotSelected(selection), 0;
      }
      PartsOf(selector.clients, job.domain, selection.index);
      r, waits := Serve(client, selection.index, job, env);
    }

    /** Selection; it leaves the domain buckets alone. */
    method SelectProxy(ghost job: W.Job, env: Environment) returns (client: ProxyClient?, selection: Selection)
      requires InOrder(job, env)
      modifies selector, (set c: ProxyClient | c in selector.clients)`slots, Limiters(selector.clients)
      ensures InOrder(job, env)
      ensures Scan(Snapshot(job, env).views, selection) == old(Planned(job, env))
      ensures Snapshot(job, env) == old(Snapshot(job, env)).(views := old(Planned(job, env)).views)
      ensures if selection.Selected? then
                selection.index < |selector.clients| && client == selector.clients[selection.index]
              else client == null
    {
      hide InOrder, Planned, ViewsOf, RequestsOf, DomainsOf, Limiters, DomainBuckets;
      ghost var domains := DomainsOf(selector.clients, job.domain);
      client, selection := Choose(job, env);
      forall i | 0 <= i < |selector.clients|
        ensures DomainsOf(selector.clients, job.domain)[i] == domains[i]
      {
        LimitsApart(job, env, i);
      }
    }

    lemma LimitsApart(job: W.Job, env: Environment, i: nat)
      requires InOrder(job, env) && i < |selector.clients|
      ensures DomainBucketOf(i, job.domain) != null ==> DomainBucketOf(i, job.domain) !in Limiters(selector.clients)
    {
      PartsOf(selector.clients, job.domain, i);
    }

    method Choose(ghost job: W.Job, env: Environment) returns (client: ProxyClient?, selection: Selection)
      requires InOrder(job, env)
      modifies selector, (set c: ProxyClient | c in selector.clients)`slots, Limiters(selector.clients)
      ensures InOrder(job, env)
      ensures Scan(ViewsOf(selector.clients), selection) == old(Planned(job, env))
      ensures if selection.Selected? then
                selection.index < |selector.clients| && client == selector.clients[selection.index]
              else client == null
    {
      hide ScanFrom, ViewsOf, CircuitBreaker.Valid, NextTicket, Limiters, DomainBuckets;
      client, selection := selector.Select(env.selectClock, env.cancelAt);
    }

    /** The domain limit and the request, on a proxy whose slot is held. */
    method Serve(client: ProxyClient, idx: nat, job: W.Job, env: Environment) returns (r: JobResult, ghost waits: nat)
      requires InOrder(job, env) && idx < |selector.clients| && client == selector.clients[idx]
      requires WaitEnds(idx, job, env)
      modifies client`totalRequests, client`successRequests, client`failedRequests,
               client`lastSuccess, client`lastFailure, client.breaker, WindowsOf(client),
               DomainBucketOf(idx, job.domain)
      ensures InOrder(job, env)
      ensures !r.NotSelected?
      ensures var before := old(Snapshot(job, env));
              Attempted(before, Snapshot(job, env), Scan(before.views, Selected(idx)), r, env, waits)
    {
      hide ViewsOf, RequestsOf, DomainsOf, InOrder, DomainPaid, WaitEnds, DomainBuckets;
      hide Breaker.RecordSuccess, Breaker.RecordFailure;
      ghost var v := ViewsOf(selector.clients);
      var ok;
      ok, waits := WaitForDomain(client, idx, job, env);
      if ok {
        r := Exchange(client, idx, job, env);
      } else {
        r := DomainTimeout(idx);
        assert v[idx := v[idx].(breaker := v[idx].breaker)] == v;
      }
    }

    /** The wait for a token of the job's domain, which leaves the proxies alone. */
    method WaitForDomain(client: ProxyClient, idx: nat, job: W.Job, env: Environment) returns (ok: bool, ghost waits: nat)
      requires InOrder(job, env) && idx < |selector.clients| && client == selector.clients[idx]
      requires WaitEnds(idx, job, env)
      modifies DomainBucketOf(idx, job.domain)
      ensures InOrder(job, env)
      ensures var before, after := old(Snapshot(job, env)), Snapshot(job, env);
              && after == before.(domains := after.domains)
              && DomainPaid(before.domains[idx], after.domains[idx], env, waits, !ok)
    {
      hide ViewsOf, RequestsOf, DomainsOf, CircuitBreaker.Valid, Bucket.TryAcquire, Returns, EndsAt, AfterTries;
      hide DomainBuckets, Limiters, Breakers, Windows, LimiterFor;
      ghost var v := ViewsOf(selector.clients);
      ok, waits := Acquire(client.domainLimiter, job.domain, env.domainClock, env.domainCancelled);
      forall j | 0 <= j < |selector.clients|
        ensures selector.clients[j].View() == v[j]
      {
        PartsOf(selector.clients, job.domain, idx);
        PartsOf(selector.clients, job.domain, j);
      }
    }

    /** The request itself. */
    method Exchange(client: ProxyClient, idx: nat, ghost job: W.Job, env: Environment) returns (r: JobResult)
      requires InOrder(job, env) && idx < |selector.clients| && client == selector.clients[idx]
      modifies client`totalRequests, client`successRequests, client`failedRequests,
               client`lastSuccess, client`lastFailure, client.breaker, WindowsOf(client)
      ensures InOrder(job, env)
      ensures r == if env.reply.Status? then Answered(idx, env.reply.code) else Failed(idx)
      ensures var before := old(Snapshot(job, env));
              Snapshot(job, env) == before.(views := AfterReport(Scan(before.views, Selected(idx)), r, env.replyTime),
                                            requests := before.requests[idx := before.requests[idx] + 1])
    {
      hide ViewsOf, RequestsOf, DomainsOf, DomainBuckets, Limiters, Breakers, Windows, InOrder, ProxyClient.View;
      hide Breaker.RecordSuccess, Breaker.RecordFailure;
      ghost var v := ViewsOf(selector.clients);
      r := Send(client, idx, job, env);
      assert DomainsOf(selector.clients, job.domain) == old(DomainsOf(selector.clients, job.domain));
      assert ViewsOf(selector.clients) == AfterReport(Scan(v, Selected(idx)), r, env.replyTime);
    }

    method Send(client: ProxyClient, idx: nat, ghost job: W.Job, env: Environment) returns (r: JobResult)
      requires InOrder(job, env) && idx < |selector.clients| && client == selector.clients[idx]
      modifies client`totalRequests, client`successRequests, client`failedRequests,
               client`lastSuccess, client`lastFailure, client.breaker, WindowsOf(client)
      ensures InOrder(job, env)
      ensures r == if env.reply.Status? then Answered(idx, env.reply.code) else Failed(idx)
      ensures client.totalRequests == old(client.totalRequests) + 1
      ensures var v := old(client.View());
              client.View() == v.(breaker := Reported(v.breaker, r, env.replyTime))
      ensures forall i :: 0 <= i < |selector.clients| && i != idx ==>
                && selector.clients[i].View() == old(selector.clients[i].View())
                && selector.clients[i].totalRequests == old(selector.clients[i].totalRequests)
    {
      hide CircuitBreaker.Valid, Breaker.RecordSuccess, Breaker.RecordFailure, Breakers, Windows;
      var sent := client.Do(env.reply, env.replyTime);
      r := if sent then Answered(idx, env.reply.code) else Failed(idx);
      forall i | 0 <= i < |selector.clients| && i != idx
        ensures selector.clients[i].Sound(env.replyTime)
        ensures selector.clients[i].View() == old(selector.clients[i].View())
      {
        assert WindowsOf(selector.clients[i]) !! WindowsOf(client);
      }
    }
  }
}
