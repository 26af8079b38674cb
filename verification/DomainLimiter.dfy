/** Per-domain token buckets of one proxy. A null limiter stands for "no limits". */
module DomainLimiters {
  import opened Int64
  import opened TokenBuckets
  import opened SlidingWindows

  class DomainLimiter {
    const limiters: map<string, TokenBucket>

    constructor (limiters: map<string, TokenBucket>)
      ensures this.limiters == limiters
    {
      this.limiters := limiters;
    }
  }

  /** The bucket made for a limit of `rps`. */
  function DomainBucket(rps: int, now: int): Bucket {
    Create(rps, Wrap(rps * 2), now)
  }

  /** Capacity rps, refilled at twice that rate, or at rps where twice it overflows. */
  lemma DomainBucketExact(rps: int, now: int)
    requires 0 < rps < TWO_63
    ensures DomainBucket(rps, now) == Bucket(rps, if rps < TWO_63 / 2 then 2 * rps else rps, rps, now)
  {
    if rps < TWO_63 / 2 {
      WrapIsIdentity(rps * 2);
    } else {
      WrapIsIdentity(rps * 2 - TWO_64);
    }
  }

  /** What a limit of `rps` allows: in any window, less than a burst of rps + 1 and 2 * rps a
      second (a sustained rate of twice the limit). */
  lemma DomainRate(rps: int, made: int, calls: seq<Call>, t1: int, t2: int)
    requires 0 < rps < TWO_63 / 2 && InOrder(calls) && t1 <= t2
    ensures NANOS_PER_SEC * Grants(DomainBucket(rps, made), calls, t1, t2)
            < NANOS_PER_SEC * (rps + 1) + 2 * rps * (t2 - t1)
  {
    DomainBucketExact(rps, made);
    AnyWindowBound(DomainBucket(rps, made), calls, t1, t2);
  }

  /** Builds one bucket per domain with a positive limit; no two domains share one. */
  method NewDomainLimiter(domainLimits: map<string, int>, now: int) returns (dl: DomainLimiter?)
    ensures dl == null <==> |domainLimits| == 0
    ensures dl != null ==>
              && fresh(dl)
              && (forall d :: d in dl.limiters <==> d in domainLimits && domainLimits[d] > 0)
              && (forall d :: d in dl.limiters ==>
                    fresh(dl.limiters[d]) && dl.limiters[d].View() == DomainBucket(domainLimits[d], now))
              && (forall d :: d in dl.limiters && domainLimits[d] < TWO_63 ==>
                    var rps, bucket := domainLimits[d], dl.limiters[d];
                    && bucket.capacity == bucket.tokens == rps && bucket.lastRefill == now
                    && bucket.refillRate == if rps < TWO_63 / 2 then 2 * rps else rps)
              && (forall d, e :: d in dl.limiters && e in dl.limiters && d != e ==> dl.limiters[d] != dl.limiters[e])
  {
    if |domainLimits| == 0 {
      return null;
    }
    var limiters: map<string, TokenBucket> := map[];
    var todo := domainLimits.Keys;
    while todo != {}
      invariant todo <= domainLimits.Keys
      invariant forall d :: d in limiters <==> d in domainLimits && d !in todo && domainLimits[d] > 0
      invariant forall d :: d in limiters ==>
                  fresh(limiters[d]) && limiters[d].View() == DomainBucket(domainLimits[d], now)
      invariant forall d, e :: d in limiters && e in limiters && d != e ==> limiters[d] != limiters[e]
      decreases todo
    {
      var domain := Pick(todo);
      todo := todo - {domain};
      var rps := domainLimits[domain];
      if rps <= 0 {
        continue;
      }
      var bucket := new TokenBucket(rps, Wrap(rps * 2), now);
      limiters := limiters[domain := bucket];
    }
    dl := new DomainLimiter(limiters);
    forall d | d in limiters && domainLimits[d] < TWO_63
      ensures var rps := domainLimits[d];
              DomainBucket(rps, now) == Bucket(rps, if rps < TWO_63 / 2 then 2 * rps else rps, rps, now)
    {
      DomainBucketExact(domainLimits[d], now);
    }
  }

  /** The bucket a request to `domain` has to pay, if any. */
  function LimiterFor(dl: DomainLimiter?, domain: string): TokenBucket? {
    if dl != null && domain in dl.limiters then dl.limiters[domain] else null
  }

  /** Grants at once where no limit applies, and otherwise exactly as the domain's bucket. */
  method TryAcquire(dl: DomainLimiter?, domain: string, now: int) returns (granted: bool)
    modifies if LimiterFor(dl, domain) == null then {} else {LimiterFor(dl, domain)}
    ensures var bucket := LimiterFor(dl, domain);
            if bucket == null then granted
            else (bucket.View(), granted) == old(bucket.View()).TryAcquire(now)
    ensures dl == null || domain !in dl.limiters ==> granted
    ensures dl != null && domain in dl.limiters ==>
              (dl.limiters[domain].View(), granted) == old(dl.limiters[domain].View()).TryAcquire(now)
  {
    if dl == null || domain !in dl.limiters {
      return true;
    }
    var limiter := dl.limiters[domain];
    granted := limiter.TryAcquire(now);
  }

  /** Waits for a token of the domain's bucket as that bucket's blocking call does. */
  method Acquire(dl: DomainLimiter?, domain: string, clock: nat -> int, cancelled: nat -> bool)
    returns (ok: bool, ghost waits: nat)
    requires var bucket := LimiterFor(dl, domain);
             bucket != null ==> Returns(bucket.View(), clock, cancelled)
    modifies if LimiterFor(dl, domain) == null then {} else {LimiterFor(dl, domain)}
    ensures var bucket := LimiterFor(dl, domain);
            if bucket == null then ok
            else EndsAt(old(bucket.View()), clock, cancelled, waits, ok)
                 && bucket.View() == AfterTries(old(bucket.View()), clock, waits + 1)
    ensures dl == null || domain !in dl.limiters ==> ok
    ensures dl != null && domain in dl.limiters ==>
              EndsAt(old(dl.limiters[domain].View()), clock, cancelled, waits, ok)
  {
    waits := 0;
    if dl == null || domain !in dl.limiters {
      return true, 0;
    }
    var limiter := dl.limiters[domain];
    ok, waits := limiter.Acquire(clock, cancelled);
  }
}
