/** The running pool: any number of workers, proxies and jobs, interleaved one atomic action
    at a time. Every limiter a worker consults is the many-threaded bucket of
    TokenBucketMachine.dfy, with one thread per worker. */
module WorkerSystem {
  import opened Int64
  import opened CircuitBreakers
  import opened ProxyClients
  import M = TokenBucketMachine

  /** Jobs are distinct values; each has its own result channel of capacity one. */
  datatype Job = Job(id: nat, domain: string)

  /** Slot capacity 0 stands for "no semaphore", an empty map for "no domain limits". */
  datatype Proxy = Proxy(
    slotCapacity: nat,
    slots: nat,
    breaker: Option<Breaker>,
    limiter: Option<M.State>,
    domains: map<string, M.State>)

  /** Where a worker stands in its loop. `round` counts the selector's tries, which look at
      proxy (start + round) mod n; `held` is the proxy whose slot is still to be released. */
  datatype Worker =
    | Idle
    | Exited
    | Dequeued(job: Job)
    | Ticketing(job: Job)
    | Checking(job: Job, start: nat, round: nat)
    | Probing(job: Job, start: nat, round: nat)
    | Slotting(job: Job, start: nat, round: nat)
    | Tokening(job: Job, start: nat, round: nat)
    | Undoing(job: Job, start: nat, round: nat)
    | Waiting(job: Job, proxy: nat)
    | Sending(job: Job, proxy: nat)
    | InFlight(job: Job, proxy: nat)
    | Tallying(job: Job, held: Option<nat>, ok: bool)
    | Answering(job: Job, held: Option<nat>, ok: bool)
    | Releasing(proxy: nat)

  datatype Sent = Sent(proxy: nat, domain: string)

  /** What has happened, recorded for the proofs: the replies received for jobs, and the jobs
      in the order they were submitted and taken. */
  datatype History = History(replies: map<Job, Reply>, submitted: seq<Job>, taken: seq<Job>)

  datatype System = System(
    workers: seq<Worker>,
    proxies: seq<Proxy>,
    maxRetries: nat,
    queue: seq<Job>,
    queueSize: nat,
    accepted: set<Job>,
    answered: map<Job, bool>,
    cancelled: set<Job>,
    stopping: bool,
    closed: bool,
    ticket: nat,
    clock: int,
    totalJobs: int,
    successJobs: int,
    failedJobs: int,
    sent: seq<Sent>,
    history: History)

  /** The choices left open to a worker's next action: `Go` is the ordinary one; `Leave` ends
      the loop when idle, or gives up waiting for a domain token; `Receive` is the reply of
      the proxy. */
  datatype Choice = Go | Leave | Receive(reply: Reply)

  datatype Label =
    | Submit(job: Job)
    | CancelJob(job: Job)
    | CancelPool
    | CloseQueue
    | Tick(now: int)
    | Work(worker: nat, choice: Choice)

  // ---- Shape ---------------------------------------------------------------------------------

  /** The proxy whose slot the worker occupies. */
  function SlotOf(w: Worker, n: nat): Option<nat>
    requires n > 0
  {
    match w
    case Tokening(_, start, round) => Some((start + round) % n)
    case Undoing(_, start, round) => Some((start + round) % n)
    case Waiting(_, p) => Some(p)
    case Sending(_, p) => Some(p)
    case InFlight(_, p) => Some(p)
    case Tallying(_, held, _) => held
    case Answering(_, held, _) => held
    case Releasing(p) => Some(p)
    case _ => None
  }

  predicate ProxyShape(s: System, p: Proxy) {
    && (p.limiter.Some? ==> |p.limiter.value.threads| == |s.workers|)
    && forall d :: d in p.domains ==> |p.domains[d].threads| == |s.workers|
  }

  predicate WorkerShape(s: System, w: Worker)
    requires s.proxies != []
  {
    var slot := SlotOf(w, |s.proxies|);
    slot.Some? ==> slot.value < |s.proxies|
  }

  predicate Shape(s: System) {
    && s.proxies != []
    && (forall p :: 0 <= p < |s.proxies| ==> ProxyShape(s, s.proxies[p]))
    && (forall w :: 0 <= w < |s.workers| ==> WorkerShape(s, s.workers[w]))
  }

  // ---- Actions ---------------------------------------------------------------------------------

  function Index(s: System, start: nat, round: nat): nat
    requires s.proxies != []
  {
    (start + round) % |s.proxies|
  }

  /** A receive from the semaphore channel succeeds only if a slot is taken. */
  predicate CanRelease(proxy: Proxy) {
    proxy.slotCapacity > 0 ==> proxy.slots > 0
  }

  predicate SlotFree(proxy: Proxy) {
    proxy.slotCapacity == 0 || proxy.slots < proxy.slotCapacity
  }

  /** The limiter the worker is inside of, if its place is in a limiter at all. */
  function LimiterOf(s: System, w: nat): Option<M.State>
    requires Shape(s) && w < |s.workers|
  {
    assert WorkerShape(s, s.workers[w]);
    match s.workers[w]
    case Tokening(_, start, round) => s.proxies[Index(s, start, round)].limiter
    case Waiting(job, p) =>
      var domains := s.proxies[p].domains;
      if job.domain in domains then Some(domains[job.domain]) else None
    case _ => None
  }

  lemma LimiterShape(s: System, w: nat)
    requires Shape(s) && w < |s.workers| && LimiterOf(s, w).Some?
    ensures |LimiterOf(s, w).value.threads| == |s.workers|
  {
  }

  datatype Answer = NoLimit | Busy | Granted | Refused

  /** What the limiter has told the worker so far. */
  function AnswerOf(s: System, w: nat): Answer
    requires Shape(s) && w < |s.workers|
  {
    var limiter := LimiterOf(s, w);
    if limiter.None? then NoLimit
    else
      LimiterShape(s, w);
      var pc := limiter.value.threads[w];
      if !pc.Done? then Busy else if pc.granted then Granted else Refused
  }

  /** The next action of thread `w` inside a limiter's TryAcquire. */
  function NextCall(b: M.State, w: nat, now: int): M.Label
    requires w < |b.threads|
  {
    if b.threads[w].Idle? then M.Invoke(w) else if b.threads[w].Done? then M.Return(w) else M.Atomic(w, now)
  }

  function CallStep(b: M.State, w: nat, now: int): M.State
    requires w < |b.threads|
  {
    M.Step(b, NextCall(b, w, now))
  }

  predicate Enabled(s: System, l: Label)
    requires Shape(s)
  {
    match l
    case Submit(job) => !s.closed && job !in s.accepted && |s.queue| < s.queueSize
    case CancelJob(_) => true
    case CancelPool => true
    case CloseQueue => s.stopping && !s.closed
    case Tick(now) => s.clock <= now
    case Work(w, c) => w < |s.workers| && WorkEnabled(s, w, c)
  }

  predicate WorkEnabled(s: System, w: nat, c: Choice)
    requires Shape(s) && w < |s.workers|
  {
    assert WorkerShape(s, s.workers[w]);
    match s.workers[w]
    case Idle => (c == Go && s.queue != []) || (c == Leave && (s.stopping || (s.closed && s.queue == [])))
    case Exited => false
    case Undoing(_, start, round) => c == Go && CanRelease(s.proxies[Index(s, start, round)])
    case Waiting(job, _) => c == Go || (c == Leave && AnswerOf(s, w) == Refused && job in s.cancelled)
    case InFlight(_, _) => c.Receive?
    case Answering(job, _, _) => c == Go && job !in s.answered
    case Releasing(p) => c == Go && CanRelease(s.proxies[p])
    case _ => c == Go
  }

  function Step(s: System, l: Label): System
    requires Shape(s) && Enabled(s, l)
  {
    match l
    case Submit(job) => s.(queue := s.queue + [job], accepted := s.accepted + {job},
                             history := s.history.(submitted := s.history.submitted + [job]))
    case CancelJob(job) => s.(cancelled := s.cancelled + {job})
    case CancelPool => s.(stopping := true)
    case CloseQueue => s.(closed := true)
    case Tick(now) => s.(clock := now)
    case Work(w, c) => WorkStep(s, w, c)
  }

  /** A worker's action: where it goes next, and what it does to each shared part. */
  function WorkStep(s: System, w: nat, c: Choice): System
    requires Shape(s) && w < |s.workers| && WorkEnabled(s, w, c)
  {
    var pc := s.workers[w];
    s.(workers := s.workers[w := NextPlace(s, w, c)],
       proxies := NextProxies(s, w, c),
       queue := if pc.Idle? && c == Go then s.queue[1..] else s.queue,
       answered := if pc.Answering? then s.answered[pc.job := pc.ok] else s.answered,
       ticket := if pc.Ticketing? then NextTicket(s) else s.ticket,
       totalJobs := s.totalJobs + (if pc.Dequeued? then 1 else 0),
       successJobs := s.successJobs + (if pc.Tallying? && pc.ok then 1 else 0),
       failedJobs := s.failedJobs + (if pc.Tallying? && !pc.ok then 1 else 0),
       sent := if pc.Sending? then s.sent + [Sent(pc.proxy, pc.job.domain)] else s.sent,
       history := NextHistory(s, w, c))
  }

  function NextHistory(s: System, w: nat, c: Choice): History
    requires Shape(s) && w < |s.workers| && WorkEnabled(s, w, c)
  {
    match s.workers[w]
    case Idle => if c == Go then s.history.(taken := s.history.taken + [s.queue[0]]) else s.history
    case InFlight(job, _) => s.history.(replies := s.history.replies[job := c.reply])
    case _ => s.history
  }

  function NextTicket(s: System): nat {
    (s.ticket + 1) % TWO_64
  }

  /** The control flow of the worker loop, executeJob, Select and the limiters' callers. A
      refused domain token is retried after a pause (`Go`) or abandoned because the job's
      context ended (`Leave`); only a transport error fails the job. */
  function NextPlace(s: System, w: nat, c: Choice): Worker
    requires Shape(s) && w < |s.workers| && WorkEnabled(s, w, c)
  {
    match s.workers[w]
    case Idle => if c == Leave then Exited else Dequeued(s.queue[0])
    case Dequeued(job) => Ticketing(job)
    case Ticketing(job) => Checking(job, NextTicket(s) % |s.proxies|, 0)
    case Checking(job, start, round) =>
      if round >= s.maxRetries || job in s.cancelled then Tallying(job, None, false)
      else Probing(job, start, round)
    case Probing(job, start, round) =>
      var breaker := s.proxies[Index(s, start, round)].breaker;
      if breaker.Some? && !breaker.value.IsHealthy(s.clock) then Checking(job, start, round + 1)
      else Slotting(job, start, round)
    case Slotting(job, start, round) =>
      if SlotFree(s.proxies[Index(s, start, round)]) then Tokening(job, start, round)
      else Checking(job, start, round + 1)
    case Tokening(job, start, round) =>
      (match AnswerOf(s, w)
       case Busy => s.workers[w]
       case Refused => Undoing(job, start, round)
       case _ => Waiting(job, Index(s, start, round)))
    case Undoing(job, start, round) => Checking(job, start, round + 1)
    case Waiting(job, p) =>
      (match AnswerOf(s, w)
       case Busy => s.workers[w]
       case Refused => if c == Leave then Tallying(job, Some(p), false) else s.workers[w]
       case _ => Sending(job, p))
    case Sending(job, p) => InFlight(job, p)
    case InFlight(job, p) => Tallying(job, Some(p), c.reply.Status?)
    case Tallying(job, held, ok) => Answering(job, held, ok)
    case Answering(job, held, ok) => if held.Some? then Releasing(held.value) else Idle
    case Releasing(p) => Idle
  }

  /** At most one proxy changes: the one the worker is dealing with. */
  function NextProxies(s: System, w: nat, c: Choice): seq<Proxy>
    requires Shape(s) && w < |s.workers| && WorkEnabled(s, w, c)
  {
    assert WorkerShape(s, s.workers[w]);
    match s.workers[w]
    case Slotting(_, start, round) =>
      var p := Index(s, start, round);
      if SlotFree(s.proxies[p]) then s.proxies[p := Occupy(s.proxies[p])] else s.proxies
    case Tokening(_, start, round) =>
      var p := Index(s, start, round);
      if LimiterOf(s, w).None? then s.proxies
      else
        LimiterShape(s, w);
        s.proxies[p := s.proxies[p].(limiter := Some(CallStep(LimiterOf(s, w).value, w, s.clock)))]
    case Undoing(_, start, round) =>
      var p := Index(s, start, round);
      s.proxies[p := Release(s.proxies[p])]
    case Waiting(job, p) =>
      if LimiterOf(s, w).None? then s.proxies
      else
        LimiterShape(s, w);
        var domains := s.proxies[p].domains;
        s.proxies[p := s.proxies[p].(domains := domains[job.domain := CallStep(LimiterOf(s, w).value, w, s.clock)])]
    case InFlight(_, p) => s.proxies[p := Report(s.proxies[p], c.reply, s.clock)]
    case Releasing(p) => s.proxies[p := Release(s.proxies[p])]
    case _ => s.proxies
  }

  function Occupy(proxy: Proxy): Proxy {
    if proxy.slotCapacity == 0 then proxy else proxy.(slots := proxy.slots + 1)
  }

  function Release(proxy: Proxy): Proxy
    requires CanRelease(proxy)
  {
    if proxy.slotCapacity == 0 then proxy else proxy.(slots := proxy.slots - 1)
  }

  /** A transport error or a status of 400 or more is a failure for the breaker. */
  function Report(proxy: Proxy, reply: Reply, now: int): Proxy {
    if proxy.breaker.None? then proxy
    else
      var b := proxy.breaker.value;
      var failed := reply.TransportError? || reply.code >= 400;
      proxy.(breaker := Some(if failed then b.RecordFailure(now) else b.RecordSuccess(now)))
  }

  /** The pool after Start: nothing queued, every slot free, every bucket just created. */
  predicate Initial(s: System) {
    && s.proxies != []
    && (forall w :: 0 <= w < |s.workers| ==> s.workers[w] == Idle)
    && s.queue == [] && s.accepted == {} && s.answered == map[] && s.sent == []
    && s.history == History(map[], [], [])
    && !s.stopping && !s.closed
    && s.totalJobs == s.successJobs == s.failedJobs == 0
    && (forall p :: 0 <= p < |s.proxies| ==> InitialProxy(s, s.proxies[p]))
  }

  predicate InitialProxy(s: System, p: Proxy) {
    && p.slots == 0
    && (p.limiter.Some? ==> InitialBucket(s, p.limiter.value))
    && forall d :: d in p.domains ==> InitialBucket(s, p.domains[d])
  }

  predicate InitialBucket(s: System, b: M.State) {
    && b.bucket.capacity < TWO_63 && b.start <= s.clock
    && b == M.Init(b.bucket.capacity, b.bucket.refillRate, b.start, |s.workers|)
  }
}
