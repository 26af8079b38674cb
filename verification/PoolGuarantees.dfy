/** The guarantees of the running pool, for every run from its start: who owns which slot,
    where every job is, that nothing blocks, and how many requests can have been sent. */
module PoolGuarantees {
  import opened Int64
  import opened Sums
  import opened TokenBuckets
  import opened ProxyClients
  import opened WorkerSystem
  import opened PoolSafety
  import M = TokenBucketMachine

  /** A proxy's semaphore counts exactly the workers that occupy one of its slots, and never
      more than its capacity. */
  lemma SlotOwnership(s0: System, labels: seq<Label>, p: nat)
    requires Initial(s0) && Possible(s0, labels) && p < |s0.proxies|
    ensures var s := Run(s0, labels);
            && |s.proxies| == |s0.proxies|
            && (s0.proxies[p].slotCapacity > 0 ==>
                  s.proxies[p].slots == Sum(s.workers, Holding(|s.proxies|, p)) <= s0.proxies[p].slotCapacity)
  {
    InitialInv(s0);
    RunInv(s0, labels);
    assert SlotsOwnedAt(Run(s0, labels), p) && SameProxy(s0.proxies[p], Run(s0, labels).proxies[p]);
  }

  /** An accepted job is in exactly one place: in the queue, with exactly one worker, or
      answered with exactly one result. A job that was never accepted is in none. */
  lemma JobConservation(s0: System, labels: seq<Label>, job: Job)
    requires Initial(s0) && Possible(s0, labels)
    ensures var s := Run(s0, labels);
            && multiset(s.queue)[job] + Held(s.workers)[job] + (if job in s.answered then 1 else 0)
               == (if job in s.accepted then 1 else 0)
            && |s.queue| <= s.queueSize
            && s.totalJobs == s.successJobs + s.failedJobs + Sum(s.workers, Uncounted)
            && s.successJobs == |Answers(s.answered, true)| + Sum(s.workers, Tallied(true))
            && s.failedJobs == |Answers(s.answered, false)| + Sum(s.workers, Tallied(false))
  {
    InitialInv(s0);
    RunInv(s0, labels);
    OnePlace(Run(s0, labels), job);
  }

  lemma OnePlace(s: System, job: Job)
    requires JobsConserved(s)
    ensures multiset(s.queue)[job] + Held(s.workers)[job] + (if job in s.answered then 1 else 0)
            == (if job in s.accepted then 1 else 0)
  {
    assert (multiset(s.queue) + Held(s.workers) + multiset(s.answered.Keys))[job] == multiset(s.accepted)[job];
  }

  // ---- Nothing blocks --------------------------------------------------------------------------

  lemma {:induction false} HeldContains(workers: seq<Worker>, w: nat)
    requires w < |workers| && JobOf(workers[w]).Some?
    ensures Held(workers)[JobOf(workers[w]).value] >= 1
  {
    if w > 0 {
      HeldContains(workers[1..], w - 1);
    }
  }

  lemma HolderMeansTaken(s: System, w: nat, p: nat)
    requires Inv(s) && w < |s.workers| && p < |s.proxies|
    requires SlotOf(s.workers[w], |s.proxies|) == Some(p)
    ensures CanRelease(s.proxies[p])
  {
    hide Paid, JobsConserved, CountersAgree;
    assert SlotsOwnedAt(s, p);
    SumAtLeastTerm(s.workers, w, Holding(|s.proxies|, p));
  }

  /** What a worker can do now; the reply is whatever the proxy sends. */
  function NextChoice(s: System, w: nat, reply: Reply): Choice
    requires w < |s.workers|
  {
    if s.workers[w].InFlight? then Receive(reply)
    else if s.workers[w].Idle? && s.queue == [] then Leave
    else Go
  }

  /** No worker ever waits for another: releasing a slot never blocks, sending the result
      never blocks, and every worker that has not exited has an action to take, except that
      an idle one waits for a job or for the pool to be stopped or closed. */
  lemma NeverBlocks(s: System, w: nat, reply: Reply)
    requires Inv(s) && w < |s.workers|
    ensures WorkEnabled(s, w, NextChoice(s, w, reply))
            <==> !s.workers[w].Exited? && (s.workers[w].Idle? ==> s.queue != [] || s.stopping || s.closed)
  {
    hide Paid, SlotsOwned, CountersAgree, AnswerOf;
    assert WorkerShape(s, s.workers[w]);
    match s.workers[w] {
      case Undoing(_, start, round) => HolderMeansTaken(s, w, Index(s, start, round));
      case Releasing(p) => HolderMeansTaken(s, w, p);
      case Answering(job, _, _) =>
        HeldContains(s.workers, w);
        OnePlace(s, job);
      case _ =>
    }
  }

  // ---- Rates -----------------------------------------------------------------------------------

  /** What a bucket may have handed out by time `now`, in units of 1e-9 tokens. */
  function Allowance(b: M.State, now: int): int {
    NANOS_PER_SEC * b.bucket.capacity + b.bucket.refillRate * (now - b.start)
  }

  lemma ReturnedWithinAllowance(s: System, b: M.State)
    requires BucketSound(s, b)
    ensures NANOS_PER_SEC * b.returned <= Allowance(b, s.clock)
  {
    hide M.Inv;
    M.GrantsBounded(b);
    assert b.bucket.refillRate >= 0 by { RatePositive(b); }
    MulMonotone(b.bucket.refillRate, b.horizon - b.start, s.clock - b.start);
  }

  lemma RatePositive(b: M.State)
    requires M.Inv(b)
    ensures b.bucket.refillRate >= 1
  {
  }

  /** The rate limit from end to end: at any moment of any run the requests sent through a
      proxy are within what its bucket may have handed out since it was made, and those sent
      through it to a limited domain are within what that domain's bucket may have. Tokens
      are paid at the level of loads and swaps, so no interleaving of workers evades it. */
  lemma EndToEndRate(s0: System, labels: seq<Label>, p: nat)
    requires Initial(s0) && Possible(s0, labels) && p < |s0.proxies|
    ensures var s := Run(s0, labels);
            && (s0.proxies[p].limiter.Some? ==>
                  NANOS_PER_SEC * SentVia(s.sent, p) <= Allowance(s0.proxies[p].limiter.value, s.clock))
            && forall d :: d in s0.proxies[p].domains ==>
                 NANOS_PER_SEC * SentTo(s.sent, p, d) <= Allowance(s0.proxies[p].domains[d], s.clock)
  {
    InitialInv(s0);
    RunInv(s0, labels);
    SentWithinAllowance(s0, Run(s0, labels), p);
  }

  lemma SentWithinAllowance(s0: System, s: System, p: nat)
    requires Inv(s) && SameConfig(s0, s) && p < |s.proxies|
    ensures s0.proxies[p].limiter.Some? ==>
              NANOS_PER_SEC * SentVia(s.sent, p) <= Allowance(s0.proxies[p].limiter.value, s.clock)
    ensures forall d :: d in s0.proxies[p].domains ==>
              NANOS_PER_SEC * SentTo(s.sent, p, d) <= Allowance(s0.proxies[p].domains[d], s.clock)
  {
    hide M.Inv, JobsConserved, SlotsOwned, CountersAgree;
    assert PaidAt(s, p) && SameProxy(s0.proxies[p], s.proxies[p]);
    if s.proxies[p].limiter.Some? {
      SumNonNegative(s.workers, TokenHeld(p));
      ReturnedWithinAllowance(s, s.proxies[p].limiter.value);
    }
    forall d | d in s0.proxies[p].domains
      ensures NANOS_PER_SEC * SentTo(s.sent, p, d) <= Allowance(s0.proxies[p].domains[d], s.clock)
    {
      assert DomainPaidAt(s, p, d);
      SumNonNegative(s.workers, DomainTokenHeld(p, d));
      ReturnedWithinAllowance(s, s.proxies[p].domains[d]);
    }
  }

  function SentViaFirst(sent: seq<Sent>, n: nat): nat {
    if n == 0 then 0 else SentViaFirst(sent, n - 1) + SentVia(sent, n - 1)
  }

  function AllowanceOfFirst(proxies: seq<Proxy>, n: nat, now: int): int
    requires n <= |proxies|
  {
    if n == 0 then 0
    else AllowanceOfFirst(proxies, n - 1, now)
         + if proxies[n - 1].limiter.Some? then Allowance(proxies[n - 1].limiter.value, now) else 0
  }

  lemma {:induction false} SentViaNobody(n: nat)
    ensures SentViaFirst([], n) == 0
  {
    if n > 0 {
      SentViaNobody(n - 1);
    }
  }

  lemma {:induction false} SentViaSplit(front: seq<Sent>, x: Sent, n: nat)
    ensures SentViaFirst(front + [x], n) == SentViaFirst(front, n) + if x.proxy < n then 1 else 0
  {
    if n > 0 {
      SentViaSplit(front, x, n - 1);
      SentOne(front, x, n - 1, x.domain);
    }
  }

  /** Every request was sent through one of the proxies. */
  lemma {:induction false} SentThroughSomeProxy(sent: seq<Sent>, n: nat)
    requires forall x :: x in sent ==> x.proxy < n
    ensures SentViaFirst(sent, n) == |sent|
    decreases |sent|
  {
    if sent == [] {
      SentViaNobody(n);
    } else {
      var front, x := sent[..|sent| - 1], sent[|sent| - 1];
      assert sent == front + [x];
      SentThroughSomeProxy(front, n);
      SentViaSplit(front, x, n);
    }
  }

  lemma {:induction false} AllowancesAddUp(s0: System, s: System, n: nat)
    requires Inv(s) && SameConfig(s0, s) && n <= |s.proxies|
    requires forall p :: 0 <= p < |s0.proxies| ==> s0.proxies[p].limiter.Some?
    ensures NANOS_PER_SEC * SentViaFirst(s.sent, n) <= AllowanceOfFirst(s0.proxies, n, s.clock)
  {
    hide Inv, SentVia, Allowance, SameConfig;
    if n > 0 {
      AllowancesAddUp(s0, s, n - 1);
      assert |s0.proxies| == |s.proxies| by { ConfigSize(s0, s); }
      SentWithinAllowance(s0, s, n - 1);
    }
  }

  lemma ConfigSize(s0: System, s: System)
    requires SameConfig(s0, s)
    ensures |s0.proxies| == |s.proxies|
  {
  }

  /** With a limiter on every proxy, all the requests of a run together stay within the sum
      of the proxies' capacities and of what their buckets earned in the elapsed time. */
  lemma TotalRate(s0: System, labels: seq<Label>)
    requires Initial(s0) && Possible(s0, labels)
    requires forall p :: 0 <= p < |s0.proxies| ==> s0.proxies[p].limiter.Some?
    ensures var s := Run(s0, labels);
            NANOS_PER_SEC * |s.sent| <= AllowanceOfFirst(s0.proxies, |s0.proxies|, s.clock)
  {
    InitialInv(s0);
    RunInv(s0, labels);
    var s := Run(s0, labels);
    SentThroughSomeProxy(s.sent, |s.proxies|);
    AllowancesAddUp(s0, s, |s.proxies|);
  }
}
