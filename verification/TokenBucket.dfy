/** The token bucket limiter used by one caller at a time: the bucket as a value, the
    object that updates it in place, and what any timed run of calls can obtain. The same
    bucket under interleaved callers is in TokenBucketMachine.dfy. */
module TokenBuckets {
  import opened Int64

  const NANOS_PER_SEC: int := 1_000_000_000
  /** Pause between two attempts of the blocking call, in nanoseconds. */
  const RETRY_WAIT: int := 10_000_000
  const DEFAULT_CAPACITY: int := 10

  datatype Bucket = Bucket(capacity: int, refillRate: int, tokens: int, lastRefill: int) {
    predicate Configured() {
      capacity >= 1 && refillRate >= 1 && tokens <= capacity
    }

    /** The largest possible credit added to a full bucket still fits an int64. */
    predicate CreditFits() {
      capacity + TWO_63 / NANOS_PER_SEC < TWO_63
    }

    /** Adds the tokens earned since `lastRefill`, if that is at least one. */
    function Refill(now: int): Bucket {
      var newTokens := NewTokens(now - lastRefill, refillRate);
      if now - lastRefill <= 0 || newTokens <= 0 then this
      else this.(tokens := AddTokens(tokens, newTokens, capacity), lastRefill := now)
    }

    function TryAcquire(now: int): (Bucket, bool) {
      var r := Refill(now);
      if r.tokens <= 0 then (r, false) else (r.(tokens := r.tokens - 1), true)
    }
  }

  /** Whole tokens earned in `elapsed` nanoseconds, computed as an int64. */
  function NewTokens(elapsed: int, refillRate: int): int {
    Quot(Wrap(elapsed * refillRate), NANOS_PER_SEC)
  }

  function AddTokens(current: int, newTokens: int, capacity: int): int {
    var newCount := Wrap(current + newTokens);
    if newCount > capacity then capacity else newCount
  }

  function Create(capacity: int, refillRate: int, now: int): (b: Bucket)
    ensures b.Configured() && b.tokens == b.capacity && b.lastRefill == now
    ensures capacity > 0 ==> b.capacity == capacity
    ensures capacity <= 0 ==> b.capacity == 10
    ensures refillRate > 0 ==> b.refillRate == refillRate
    ensures refillRate <= 0 ==> b.refillRate == b.capacity
  {
    var cap := if capacity <= 0 then DEFAULT_CAPACITY else capacity;
    var rate := if refillRate <= 0 then cap else refillRate;
    Bucket(cap, rate, cap, now)
  }

  /** Most waits a lone blocked caller goes through: a token is earned every
      1e9 / refillRate nanoseconds and each wait lasts at least 1e7. */
  function WaitBound(refillRate: int): (k: nat)
    requires refillRate >= 1
    ensures refillRate * k >= 100 && (k > 0 ==> refillRate * (k - 1) < 100)
  {
    var k := (100 + refillRate - 1) / refillRate;
    assert refillRate * k + (100 + refillRate - 1) % refillRate == 100 + refillRate - 1;
    assert refillRate * (k - 1) == refillRate * k - refillRate;
    k
  }

  // ---- What a single call does --------------------------------------------------------

  /** An int64 product never credits more than the elapsed time earns. */
  lemma NewTokensBound(elapsed: int, refillRate: int)
    requires elapsed >= 0 && refillRate >= 0
    ensures NewTokens(elapsed, refillRate) > 0
            ==> NANOS_PER_SEC * NewTokens(elapsed, refillRate) <= Wrap(elapsed * refillRate) <= elapsed * refillRate
    ensures NewTokens(elapsed, refillRate) <= 0 <==> Wrap(elapsed * refillRate) < NANOS_PER_SEC
    ensures NewTokens(elapsed, refillRate) <= TWO_63 / NANOS_PER_SEC
  {
  }

  /** Without overflow the credit is the exact quotient, so less than one token is lost. */
  lemma NewTokensExact(elapsed: int, refillRate: int)
    requires elapsed >= 0 && refillRate >= 0 && elapsed * refillRate < TWO_63
    ensures NewTokens(elapsed, refillRate) >= 0
    ensures NANOS_PER_SEC * NewTokens(elapsed, refillRate) <= elapsed * refillRate
            < NANOS_PER_SEC * (NewTokens(elapsed, refillRate) + 1)
  {
    MulMonotone(elapsed, 0, refillRate);
    WrapIsIdentity(elapsed * refillRate);
  }

  lemma AddTokensBound(current: int, newTokens: int, capacity: int)
    requires -TWO_63 <= current <= capacity && newTokens > 0
    ensures AddTokens(current, newTokens, capacity) <= capacity
    ensures AddTokens(current, newTokens, capacity) <= current + newTokens
    ensures current >= 0 && current + newTokens < TWO_63
            ==> AddTokens(current, newTokens, capacity) == if current + newTokens > capacity then capacity else current + newTokens
  {
  }

  /** Whole tokens earned by time `now`: a billionth of a token per unit of rate and
      nanosecond, rounded down. */
  function Earned(b: Bucket, now: int): (n: int)
    requires b.refillRate >= 0
    ensures n >= 0
    ensures now <= b.lastRefill ==> n == 0
    ensures now > b.lastRefill ==> NANOS_PER_SEC * n <= b.refillRate * (now - b.lastRefill) < NANOS_PER_SEC * (n + 1)
  {
    if now <= b.lastRefill then 0
    else
      MulMonotone(b.refillRate, 0, now - b.lastRefill);
      b.refillRate * (now - b.lastRefill) / NANOS_PER_SEC
  }

  lemma EarnedIsNewTokens(b: Bucket, now: int)
    requires b.refillRate >= 0 && now > b.lastRefill && b.refillRate * (now - b.lastRefill) < TWO_63
    ensures NewTokens(now - b.lastRefill, b.refillRate) == Earned(b, now)
  {
    hide NewTokens, Earned;
    NewTokensExact(now - b.lastRefill, b.refillRate);
  }

  /** A refill in plain arithmetic: every token earned is added, up to the capacity, and the
      time since the last refill is used up exactly if at least one was. */
  lemma RefillExact(b: Bucket, now: int)
    requires b.Configured() && b.CreditFits() && b.tokens >= 0
    requires b.refillRate * (now - b.lastRefill) < TWO_63
    ensures var r, n := b.Refill(now), Earned(b, now);
            && r.tokens == (if b.tokens + n > b.capacity then b.capacity else b.tokens + n)
            && r.lastRefill == (if n > 0 then now else b.lastRefill)
            && r.capacity == b.capacity && r.refillRate == b.refillRate
  {
    if now > b.lastRefill {
      hide NewTokens, AddTokens, Earned;
      EarnedIsNewTokens(b, now);
      NewTokensBound(now - b.lastRefill, b.refillRate);
      if Earned(b, now) > 0 {
        AddTokensBound(b.tokens, Earned(b, now), b.capacity);
      }
    }
  }

  /** A call in plain arithmetic: it is granted exactly if a token is there after the refill,
      and then takes one. */
  lemma CallExact(b: Bucket, now: int)
    requires b.Configured() && b.CreditFits() && b.tokens >= 0
    requires b.refillRate * (now - b.lastRefill) < TWO_63
    ensures var (b', granted), n := b.TryAcquire(now), Earned(b, now);
            var present := if b.tokens + n > b.capacity then b.capacity else b.tokens + n;
            && (granted <==> b.tokens > 0 || n > 0)
            && b'.tokens == present - (if granted then 1 else 0) >= 0
            && b'.lastRefill == (if n > 0 then now else b.lastRefill)
            && b'.capacity == b.capacity && b'.refillRate == b.refillRate
  {
    hide Bucket.Refill;
    RefillExact(b, now);
  }

  /** A refused call means an empty bucket that has not yet earned one more token; a call
      is granted in every other case. */
  lemma RefusedIff(b: Bucket, now: int)
    requires b.Configured() && b.CreditFits() && b.tokens >= 0
    requires b.lastRefill <= now && b.refillRate * (now - b.lastRefill) < TWO_63
    ensures !b.TryAcquire(now).1 <==> b.tokens == 0 && b.refillRate * (now - b.lastRefill) < NANOS_PER_SEC
    ensures !b.TryAcquire(now).1 ==> b.TryAcquire(now).0 == b
  {
    var elapsed := now - b.lastRefill;
    NewTokensExact(elapsed, b.refillRate);
    NewTokensBound(elapsed, b.refillRate);
    var newTokens := NewTokens(elapsed, b.refillRate);
    if elapsed > 0 && newTokens > 0 {
      AddTokensBound(b.tokens, newTokens, b.capacity);
    } else if elapsed == 0 {
      assert b.refillRate * elapsed == 0;
    }
  }

  /** A call preserves the configuration, never fills past capacity, takes exactly one
      token when it grants, and moves `lastRefill` only forward. */
  lemma TryAcquireKeeps(b: Bucket, now: int)
    requires b.Configured() && b.tokens >= -TWO_63
    ensures var b' := b.TryAcquire(now).0;
            && b'.Configured() && b'.tokens >= -TWO_63
            && b'.capacity == b.capacity && b'.refillRate == b.refillRate
            && b'.lastRefill >= b.lastRefill
            && b'.lastRefill in {b.lastRefill, now}
    ensures b.CreditFits() && b.tokens >= 0 ==> b.TryAcquire(now).0.tokens >= 0
  {
  }

  // ---- Timed runs of calls --------------------------------------------------------------

  datatype Call = Try(now: int) | Peek(now: int)

  function Apply(b: Bucket, c: Call): (Bucket, bool) {
    match c
    case Try(now) => b.TryAcquire(now)
    case Peek(now) => (b.Refill(now), false)
  }

  ghost predicate InOrder(calls: seq<Call>) {
    forall i, j :: 0 <= i < j < |calls| ==> calls[i].now <= calls[j].now
  }

  /** Grants handed out with a clock reading in [t1, t2] when `calls` run from `b`. */
  function Grants(b: Bucket, calls: seq<Call>, t1: int, t2: int): nat
    decreases calls
  {
    if calls == [] then 0
    else
      var (b', granted) := Apply(b, calls[0]);
      (if granted && t1 <= calls[0].now <= t2 then 1 else 0) + Grants(b', calls[1..], t1, t2)
  }

  /** Credit earned but not yet added at time `t`, in units of 1e-9 tokens. */
  function Pending(b: Bucket, t: int): int {
    if t <= b.lastRefill then 0 else Max(0, Wrap((t - b.lastRefill) * b.refillRate))
  }

  lemma PendingGrowth(b: Bucket, t: int, now: int)
    requires b.refillRate >= 0 && t <= now
    ensures Pending(b, now) <= Pending(b, t) + b.refillRate * (now - t)
  {
    MulMonotone(b.refillRate, 0, now - t);
    if b.lastRefill < now {
      if b.lastRefill < t {
        var x, y := (t - b.lastRefill) * b.refillRate, (now - t) * b.refillRate;
        assert (now - b.lastRefill) * b.refillRate == x + y;
        WrapGrowsAtMost(x, y);
      } else {
        var e := now - b.lastRefill;
        MulMonotone(b.refillRate, 0, e);
        WrapAtMost(e * b.refillRate);
        MulMonotone(b.refillRate, e, now - t);
      }
    }
  }

  /** Refilling trades pending credit for tokens: it never creates value. */
  lemma RefillTradesPending(b: Bucket, now: int)
    requires b.Configured() && b.tokens >= -TWO_63
    ensures var r := b.Refill(now);
            && r.Configured() && r.tokens >= -TWO_63
            && r.capacity == b.capacity && r.refillRate == b.refillRate
            && NANOS_PER_SEC * Max(0, r.tokens) + Pending(r, now)
               <= NANOS_PER_SEC * Max(0, b.tokens) + Pending(b, now)
            && Pending(r, now) < NANOS_PER_SEC
            && r.Refill(now) == r
  {
    var elapsed := now - b.lastRefill;
    if elapsed > 0 {
      NewTokensBound(elapsed, b.refillRate);
      if NewTokens(elapsed, b.refillRate) > 0 {
        AddTokensBound(b.tokens, NewTokens(elapsed, b.refillRate), b.capacity);
      }
    }
  }

  lemma PendingNonNegative(b: Bucket, t: int)
    ensures Pending(b, t) >= 0
  {
  }

  lemma SplitProduct(rate: int, t: int, now: int, t2: int)
    ensures rate * (t2 - t) == rate * (now - t) + rate * (t2 - now)
  {
  }

  /** A single call is paid for by the tokens present, the credit pending at `t`, and what
      accrues from `t` to the call. */
  lemma CallIsPaidFor(b: Bucket, c: Call, t: int)
    requires b.Configured() && b.tokens >= -TWO_63 && t <= c.now
    ensures var (b', granted) := Apply(b, c);
            && b'.Configured() && b'.tokens >= -TWO_63 && b'.refillRate == b.refillRate
            && (if granted then NANOS_PER_SEC else 0) + NANOS_PER_SEC * Max(0, b'.tokens) + Pending(b', c.now)
               <= NANOS_PER_SEC * Max(0, b.tokens) + Pending(b, t) + b.refillRate * (c.now - t)
  {
    hide NewTokens, AddTokens;
    RefillTradesPending(b, c.now);
    PendingGrowth(b, t, c.now);
  }

  /** Grants up to `t2` are paid for by the tokens present, the credit pending at `t`, and
      what accrues from `t` on. */
  lemma {:induction false} GrantsArePaidFor(b: Bucket, calls: seq<Call>, t: int, t1: int, t2: int)
    requires b.Configured() && b.tokens >= -TWO_63
    requires InOrder(calls) && (forall c :: c in calls ==> t <= c.now)
    requires t <= t2
    ensures NANOS_PER_SEC * Grants(b, calls, t1, t2)
            <= NANOS_PER_SEC * Max(0, b.tokens) + Pending(b, t) + b.refillRate * (t2 - t)
    decreases calls
  {
    hide Apply, Pending;
    MulMonotone(b.refillRate, 0, t2 - t);
    if calls == [] {
      PendingNonNegative(b, t);
    } else if calls[0].now > t2 {
      PendingNonNegative(b, t);
      LateCallsDoNotCount(b, calls, t1, t2);
    } else {
      var now := calls[0].now;
      CallIsPaidFor(b, calls[0], t);
      assert forall c :: c in calls[1..] ==> now <= c.now;
      GrantsArePaidFor(Apply(b, calls[0]).0, calls[1..], now, t1, t2);
      SplitProduct(b.refillRate, t, now, t2);
    }
  }

  lemma {:induction false} LateCallsDoNotCount(b: Bucket, calls: seq<Call>, t1: int, t2: int)
    requires forall c :: c in calls ==> t2 < c.now
    ensures Grants(b, calls, t1, t2) == 0
    decreases calls
  {
    if calls != [] {
      assert calls[0] in calls;
      LateCallsDoNotCount(Apply(b, calls[0]).0, calls[1..], t1, t2);
    }
  }

  /** The rate limit over every window: whatever the history, the grants in [t1, t2] stay
      below capacity plus one token plus what the window's length earns, overflow
      included. */
  lemma {:induction false} AnyWindowBound(b: Bucket, calls: seq<Call>, t1: int, t2: int)
    requires b.Configured() && b.tokens >= -TWO_63
    requires InOrder(calls) && t1 <= t2
    ensures NANOS_PER_SEC * Grants(b, calls, t1, t2)
            < NANOS_PER_SEC * (b.capacity + 1) + b.refillRate * (t2 - t1)
    decreases calls
  {
    MulMonotone(b.refillRate, 0, t2 - t1);
    if calls == [] {
    } else if calls[0].now < t1 {
      var now := calls[0].now;
      var b' := Apply(b, calls[0]).0;
      RefillTradesPending(b, now);
      AnyWindowBound(b', calls[1..], t1, t2);
    } else if calls[0].now > t2 {
      assert forall c :: c in calls ==> t2 < c.now;
      LateCallsDoNotCount(b, calls, t1, t2);
    } else {
      // The first call inside the window leaves less than one token of credit pending.
      var now := calls[0].now;
      var r := b.Refill(now);
      RefillTradesPending(b, now);
      assert Apply(b, calls[0]) == Apply(r, calls[0]);
      assert Grants(b, calls, t1, t2) == Grants(r, calls, t1, t2);
      GrantsArePaidFor(r, calls, now, t1, t2);
      MulMonotone(b.refillRate, t2 - now, t2 - t1);
    }
  }

  /** The extra token is real: a bucket of capacity 1 earning one token a second can grant
      twice within a nanosecond. */
  lemma WindowBoundIsTight()
    ensures var b := Create(1, 1, 0);
            var t := NANOS_PER_SEC - 1;
            var calls := [Try(t), Try(t + 1)];
            && InOrder(calls) && Grants(b, calls, t, t + 1) == 2
            && NANOS_PER_SEC * 2 > NANOS_PER_SEC * b.capacity + b.refillRate * 1
  {
    var b := Create(1, 1, 0);
    var t := NANOS_PER_SEC - 1;
    var calls := [Try(t), Try(t + 1)];
    NewTokensExact(t, 1);
    NewTokensExact(t + 1, 1);
    var b1 := b.(tokens := 0);
    assert b.TryAcquire(t) == (b1, true);
    AddTokensBound(0, 1, 1);
    assert b1.TryAcquire(t + 1).1;
    assert calls[1..] == [Try(t + 1)];
    assert Grants(b1, [Try(t + 1)], t, t + 1) == 1;
  }

  // ---- The blocking call --------------------------------------------------------------------

  /** The bucket after attempts at times clock(0), ..., clock(k - 1). */
  function AfterTries(b: Bucket, clock: nat -> int, k: nat): Bucket {
    if k == 0 then b else AfterTries(b, clock, k - 1).TryAcquire(clock(k - 1)).0
  }

  /** Attempt `k`, all before it having been made, is granted. */
  predicate GrantedAt(b: Bucket, clock: nat -> int, k: nat) {
    AfterTries(b, clock, k).TryAcquire(clock(k)).1
  }

  /** The blocking call comes to an end at all. */
  ghost predicate Returns(b: Bucket, clock: nat -> int, cancelled: nat -> bool) {
    exists k: nat :: GrantedAt(b, clock, k) || cancelled(k)
  }

  /** The blocking call ends after `waits` pauses, granted if `ok`. */
  ghost predicate EndsAt(b: Bucket, clock: nat -> int, cancelled: nat -> bool, waits: nat, ok: bool) {
    && (forall k: nat :: k < waits ==> !GrantedAt(b, clock, k) && !cancelled(k))
    && (if ok then GrantedAt(b, clock, waits) else !GrantedAt(b, clock, waits) && cancelled(waits))
  }

  /** What makes waiting worthwhile: every pause lasts as long as it should, and no refill
      product overflows meanwhile. */
  ghost predicate Patient(b: Bucket, clock: nat -> int) {
    && b.Configured() && b.CreditFits() && b.tokens >= 0
    && b.lastRefill <= clock(0)
    && (forall k: nat :: clock(k) + RETRY_WAIT <= clock(k + 1))
    && (forall k: nat :: k <= WaitBound(b.refillRate) ==> b.refillRate * (clock(k) - b.lastRefill) < TWO_63)
  }

  lemma {:induction false} ClockRuns(b: Bucket, clock: nat -> int, k: nat)
    requires Patient(b, clock)
    ensures clock(k) >= b.lastRefill + k * RETRY_WAIT
  {
    if k > 0 {
      ClockRuns(b, clock, k - 1);
      assert clock(k - 1) + RETRY_WAIT <= clock(k - 1 + 1);
    }
  }

  /** A lone caller that waits is granted at the first attempt with a token in hand or
      earned, which comes after at most `WaitBound` pauses; until then nothing changes. */
  lemma {:induction false} WaitsAreBounded(b: Bucket, clock: nat -> int, k: nat) returns (first: nat)
    requires Patient(b, clock) && k <= WaitBound(b.refillRate) && AfterTries(b, clock, k) == b
    ensures k <= first <= WaitBound(b.refillRate) && GrantedAt(b, clock, first)
    ensures b.tokens > 0 || b.refillRate * (clock(first) - b.lastRefill) >= NANOS_PER_SEC
    ensures forall j: nat :: k <= j < first ==>
              && !GrantedAt(b, clock, j) && AfterTries(b, clock, j) == b
              && b.tokens == 0 && b.refillRate * (clock(j) - b.lastRefill) < NANOS_PER_SEC
    ensures AfterTries(b, clock, first) == b
    decreases WaitBound(b.refillRate) - k
  {
    hide Patient, AfterTries, GrantedAt, WaitBound;
    first := k;
    TryOnce(b, clock, k);
    if !GrantedAt(b, clock, k) {
      first := WaitsAreBounded(b, clock, k + 1);
    }
  }

  lemma TryOnce(b: Bucket, clock: nat -> int, k: nat)
    requires Patient(b, clock) && k <= WaitBound(b.refillRate) && AfterTries(b, clock, k) == b
    ensures GrantedAt(b, clock, k) <==> b.tokens > 0 || b.refillRate * (clock(k) - b.lastRefill) >= NANOS_PER_SEC
    ensures !GrantedAt(b, clock, k) ==> AfterTries(b, clock, k + 1) == b && k < WaitBound(b.refillRate)
    ensures b.tokens >= 0
  {
    hide Bucket.TryAcquire, WaitBound;
    ClockRuns(b, clock, k);
    RefusedIff(b, clock(k));
    if !GrantedAt(b, clock, k) {
      EarnedByBound(b, clock(k), k);
    }
  }

  /** After `WaitBound` pauses a whole token has been earned. */
  lemma EarnedByBound(b: Bucket, now: int, k: nat)
    requires b.refillRate >= 1 && now >= b.lastRefill + k * RETRY_WAIT
    requires b.refillRate * (now - b.lastRefill) < NANOS_PER_SEC
    ensures k < WaitBound(b.refillRate)
  {
    if k >= WaitBound(b.refillRate) {
      MulMonotone(b.refillRate, WaitBound(b.refillRate), k);
      assert b.refillRate * (k * RETRY_WAIT) == (b.refillRate * k) * RETRY_WAIT;
      MulMonotone(b.refillRate, k * RETRY_WAIT, now - b.lastRefill);
      assert false;
    }
  }

  // ---- The object -------------------------------------------------------------------------

  class TokenBucket {
    var capacity: int
    var refillRate: int
    var tokens: int
    var lastRefill: int

    ghost function View(): Bucket
      reads this
    {
      Bucket(capacity, refillRate, tokens, lastRefill)
    }

    constructor (capacity: int, refillRate: int, now: int)
      ensures View() == Create(capacity, refillRate, now)
    {
      var cap, rate := capacity, refillRate;
      if cap <= 0 {
        cap := DEFAULT_CAPACITY;
      }
      if rate <= 0 {
        rate := cap;
      }
      this.capacity := cap;
      this.refillRate := rate;
      this.tokens := cap;
      this.lastRefill := now;
    }

    method MaybeRefill(now: int)
      modifies this
      ensures View() == old(View()).Refill(now)
    {
      var elapsed := now - lastRefill;
      if elapsed <= 0 {
        return;
      }
      var newTokens := Quot(Wrap(elapsed * refillRate), NANOS_PER_SEC);
      if newTokens <= 0 {
        return;
      }
      lastRefill := now;
      var newCount := Wrap(tokens + newTokens);
      if newCount > capacity {
        newCount := capacity;
      }
      tokens := newCount;
    }

    method TryAcquire(now: int) returns (granted: bool)
      modifies this
      ensures (View(), granted) == old(View()).TryAcquire(now)
    {
      MaybeRefill(now);
      if tokens <= 0 {
        return false;
      }
      tokens := tokens - 1;
      return true;
    }

    method Available(now: int) returns (n: int)
      modifies this
      ensures View() == old(View()).Refill(now) && n == View().tokens
    {
      MaybeRefill(now);
      n := tokens;
    }

    /** Blocks until a token is granted or the context ends. Attempt k reads `clock(k)`;
        `cancelled(k)` says that the pause after attempt k was ended by the context. The call
        ends with the first attempt that is granted or cut short; if there is none it does
        not return. */
    method Acquire(clock: nat -> int, cancelled: nat -> bool) returns (ok: bool, ghost waits: nat)
      requires Returns(View(), clock, cancelled)
      modifies this
      ensures EndsAt(old(View()), clock, cancelled, waits, ok)
      ensures View() == AfterTries(old(View()), clock, waits + 1)
    {
      hide Bucket.TryAcquire;
      waits := 0;
      var k: nat := 0;
      ghost var b := View();
      ghost var last: nat :| GrantedAt(b, clock, last) || cancelled(last);
      while true
        invariant waits == k <= last
        invariant View() == AfterTries(b, clock, k)
        invariant forall j: nat :: j < k ==> !GrantedAt(b, clock, j) && !cancelled(j)
        decreases last - k
      {
        ok := TryAcquire(clock(k));
        if ok {
          return;
        }
        if cancelled(k) {
          return;
        }
        k := k + 1;
        waits := k;
      }
    }

    method Reset(now: int)
      modifies this
      ensures View() == old(View()).(tokens := old(capacity), lastRefill := now)
    {
      tokens := capacity;
      lastRefill := now;
    }

    method SetCapacity(capacity: int)
      modifies this
      ensures capacity <= 0 ==> View() == old(View())
      ensures capacity > 0 ==>
                View() == old(View()).(capacity := capacity,
                                       tokens := if old(tokens) <= capacity then old(tokens) else capacity)
    {
      if capacity <= 0 {
        return;
      }
      this.capacity := capacity;
      if tokens > capacity {
        tokens := capacity;
      }
    }

    method SetRefillRate(rate: int)
      modifies this
      ensures View() == if rate <= 0 then old(View()) else old(View()).(refillRate := rate)
    {
      if rate <= 0 {
        return;
      }
      refillRate := rate;
    }
  }
}
