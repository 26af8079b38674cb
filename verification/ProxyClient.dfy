/** One proxy: its concurrency semaphore, its request counters, and the health and rate
    limiting objects attached to it. The HTTP exchange itself is a given reply. */
module ProxyClients {
  import opened TokenBuckets
  import opened CircuitBreakers
  import opened DomainLimiters

  datatype Option<T> = None | Some(value: T)

  /** How an exchange ends: no response at all, or a response with a status code. */
  datatype Reply = TransportError | Status(code: int)

  /** A proxy as the selector sees it. Capacity 0 stands for "no semaphore". */
  datatype Client = Client(slotCapacity: nat, slots: nat, breaker: Option<Breaker>, limiter: Option<Bucket>) {
    predicate Healthy(now: int) {
      breaker.Some? ==> breaker.value.IsHealthy(now)
    }

    predicate SlotFree() {
      slotCapacity == 0 || slots < slotCapacity
    }

    predicate TokenReady(now: int) {
      limiter.Some? ==> limiter.value.TryAcquire(now).1
    }

    predicate Qualifies(now: int) {
      Healthy(now) && SlotFree() && TokenReady(now)
    }

    function TakeSlot(): Client {
      if slotCapacity == 0 then this else this.(slots := slots + 1)
    }

    /** The effect on the bucket of asking it for a token. */
    function AskToken(now: int): Client {
      if limiter.None? then this else this.(limiter := Some(limiter.value.TryAcquire(now).0))
    }
  }

  class ProxyClient {
    const slotCapacity: nat
    const breaker: CircuitBreaker?
    const limiter: TokenBucket?
    const domainLimiter: DomainLimiter?
    /** Tokens held in the semaphore channel. */
    var slots: nat
    var totalRequests: int
    var successRequests: int
    var failedRequests: int
    var lastSuccess: int
    var lastFailure: int

    ghost function View(): Client
      reads this, breaker, limiter
    {
      Client(slotCapacity, slots,
             if breaker == null then None else Some(breaker.View()),
             if limiter == null then None else Some(limiter.View()))
    }

    ghost predicate SemaphoreOk()
      reads this
    {
      if slotCapacity == 0 then slots == 0 else slots <= slotCapacity
    }

    constructor (concurrency: int, breaker: CircuitBreaker?, limiter: TokenBucket?,
                 domainLimiter: DomainLimiter?, now: int)
      ensures this.breaker == breaker && this.limiter == limiter && this.domainLimiter == domainLimiter
      ensures slotCapacity == (if concurrency > 0 then concurrency else 0) && slots == 0 && SemaphoreOk()
      ensures totalRequests == successRequests == failedRequests == 0
      ensures lastSuccess == now && lastFailure == 0
    {
      this.slotCapacity := if concurrency > 0 then concurrency else 0;
      this.breaker := breaker;
      this.limiter := limiter;
      this.domainLimiter := domainLimiter;
      slots := 0;
      totalRequests, successRequests, failedRequests := 0, 0, 0;
      lastSuccess, lastFailure := now, 0;
    }

    /** Never waits; succeeds exactly when a slot is free and then occupies it. */
    method TryAcquireConcurrency() returns (ok: bool)
      requires SemaphoreOk()
      modifies this`slots
      ensures SemaphoreOk() && ok == old(View()).SlotFree()
      ensures View() == if ok then old(View()).TakeSlot() else old(View())
    {
      if slotCapacity == 0 {
        return true;
      }
      if slots < slotCapacity {
        slots := slots + 1;
        return true;
      }
      return false;
    }

    /** Gives a slot back. The channel receive would block on an empty semaphore, so the
        caller must hold a slot. */
    method ReleaseConcurrency()
      requires SemaphoreOk() && (slotCapacity > 0 ==> slots > 0)
      modifies this`slots
      ensures SemaphoreOk() && View() == old(View()).(slots := if slotCapacity == 0 then 0 else old(slots) - 1)
    {
      if slotCapacity == 0 {
        return;
      }
      slots := slots - 1;
    }

    ghost predicate Sound(now: int)
      reads this, breaker, if breaker == null then {} else {breaker.requests, breaker.failures}
    {
      breaker != null ==> breaker.Valid() && breaker.UpTo(now)
    }

    /** Sends one request. Every request is counted once as success or failure, and the
        breaker is told about it; a status of 400 or more is a failure for the breaker but
        not for the caller. */
    method Do(reply: Reply, now: int) returns (ok: bool)
      requires Sound(now)
      modifies this`totalRequests, this`successRequests, this`failedRequests, this`lastSuccess, this`lastFailure,
               breaker, if breaker == null then {} else {breaker.requests, breaker.failures}
      ensures Sound(now) && ok == reply.Status?
      ensures totalRequests == old(totalRequests) + 1
      ensures var failed := reply.TransportError? || reply.code >= 400;
              && failedRequests == old(failedRequests) + (if failed then 1 else 0)
              && successRequests == old(successRequests) + (if failed then 0 else 1)
              && lastFailure == (if failed then now else old(lastFailure))
              && lastSuccess == (if failed then old(lastSuccess) else now)
              && (breaker != null ==>
                    breaker.View() == if failed then old(breaker.View()).RecordFailure(now)
                                      else old(breaker.View()).RecordSuccess(now))
    {
      hide Breaker.RecordSuccess;
      hide Breaker.RecordFailure;
      hide CircuitBreaker.Valid;
      totalRequests := totalRequests + 1;
      if reply.TransportError? {
        RecordFailure(now);
        return false;
      }
      if reply.code >= 400 {
        RecordFailure(now);
      } else {
        RecordSuccess(now);
      }
      return true;
    }

    method RecordSuccess(now: int)
      requires Sound(now)
      modifies this`successRequests, this`lastSuccess,
               breaker, if breaker == null then {} else {breaker.requests, breaker.failures}
      ensures Sound(now) && successRequests == old(successRequests) + 1 && lastSuccess == now
      ensures breaker != null ==> breaker.View() == old(breaker.View()).RecordSuccess(now)
    {
      successRequests := successRequests + 1;
      lastSuccess := now;
      if breaker != null {
        breaker.RecordSuccess(now);
      }
    }

    method RecordFailure(now: int)
      requires Sound(now)
      modifies this`failedRequests, this`lastFailure,
               breaker, if breaker == null then {} else {breaker.requests, breaker.failures}
      ensures Sound(now) && failedRequests == old(failedRequests) + 1 && lastFailure == now
      ensures breaker != null ==> breaker.View() == old(breaker.View()).RecordFailure(now)
    {
      failedRequests := failedRequests + 1;
      lastFailure := now;
      if breaker != null {
        breaker.RecordFailure(now);
      }
    }
  }
}
