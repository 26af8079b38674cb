/** What round-robin selection guarantees: which proxy is chosen, what is left untouched, and
    how evenly the rotation treats the proxies. */
module SelectionLaws {
  import opened Int64
  import opened TokenBuckets
  import opened CircuitBreakers
  import opened ProxyClients
  import opened Selectors

  /** A limiter in any state the pool can bring it to. */
  predicate Sane(v: Client) {
    v.limiter.Some? ==> v.limiter.value.Configured() && v.limiter.value.CreditFits() && v.limiter.value.tokens >= 0
  }

  ghost predicate AllSane(views: seq<Client>) {
    forall i :: 0 <= i < |views| ==> Sane(views[i])
  }


  /** A proxy passes the three checks exactly when it qualifies, and a proxy that fails them
      is left exactly as it was: a slot taken for nothing has been given back. */
  lemma VisitDecides(v: Client, now: int)
    requires Sane(v)
    ensures Visit(v, now).1 == v.Qualifies(now)
    ensures !Visit(v, now).1 ==> Visit(v, now).0 == v
  {
  }

  /** What it takes to qualify, in the fields of breaker, semaphore and bucket: not Dead or
      Dead for longer than the timeout; no semaphore or a free slot; no limiter, a token in it,
      or one earned since its last refill. */
  lemma QualifiesIff(v: Client, now: int)
    requires Sane(v)
    requires v.limiter.Some? ==> v.limiter.value.refillRate * (now - v.limiter.value.lastRefill) < TWO_63
    ensures v.Qualifies(now)
            <==> && (v.breaker.None? || v.breaker.value.state != Dead
                     || now - v.breaker.value.lastStateChange > v.breaker.value.cfg.recoveryTimeout)
                 && (v.slotCapacity == 0 || v.slots < v.slotCapacity)
                 && (v.limiter.None? || v.limiter.value.tokens > 0
                     || v.limiter.value.refillRate * Max(0, now - v.limiter.value.lastRefill) >= NANOS_PER_SEC)
  {
    hide Bucket.TryAcquire;
    if v.limiter.Some? {
      RefusedUnless(v.limiter.value, now);
    }
  }

  lemma RefusedUnless(b: Bucket, now: int)
    requires b.Configured() && b.CreditFits() && b.tokens >= 0 && b.refillRate * (now - b.lastRefill) < TWO_63
    ensures b.TryAcquire(now).1 <==> b.tokens > 0 || b.refillRate * Max(0, now - b.lastRefill) >= NANOS_PER_SEC
  {
    hide Bucket.TryAcquire;
    CallExact(b, now);
    if now > b.lastRefill {
      assert Earned(b, now) >= 1 ==> NANOS_PER_SEC * Earned(b, now) >= NANOS_PER_SEC;
    }
  }

  /** What a selection takes from the proxy it chooses: one slot if it has a semaphore, and
      one of the tokens then in its bucket; its breaker is left alone. */
  lemma TakenExact(v: Client, now: int)
    requires Sane(v) && v.Qualifies(now)
    requires v.limiter.Some? ==> v.limiter.value.refillRate * (now - v.limiter.value.lastRefill) < TWO_63
    ensures var u := Taken(v, now);
            && u.slotCapacity == v.slotCapacity && u.breaker == v.breaker
            && u.slots == (if v.slotCapacity > 0 then v.slots + 1 else v.slots)
            && u.limiter.Some? == v.limiter.Some?
            && (v.limiter.Some? ==>
                  var b, b', n := v.limiter.value, u.limiter.value, Earned(v.limiter.value, now);
                  && b'.tokens == (if b.tokens + n > b.capacity then b.capacity else b.tokens + n) - 1 >= 0
                  && b'.lastRefill == (if n > 0 then now else b.lastRefill)
                  && b'.capacity == b.capacity && b'.refillRate == b.refillRate)
  {
    hide Bucket.TryAcquire;
    if v.limiter.Some? {
      CallExact(v.limiter.value, now);
    }
  }

  /** Whether the proxy looked at in round `k` qualifies at that moment. */
  predicate QualifiesIn(views: seq<Client>, start: nat, k: nat, clock: nat -> int)
    requires views != []
  {
    views[(start + k) % |views|].Qualifies(clock(k))
  }

  /** The proxy after being selected at `now`. */
  function Taken(v: Client, now: int): Client {
    v.TakeSlot().AskToken(now)
  }

  /** Select returns the first proxy in cyclic order that qualifies when its turn comes;
      it reports all proxies busy only if none qualified in any round, and cancellation only
      if none had qualified before it. Apart from the slot and the token of the chosen
      proxy, no proxy changes in any way. */
  lemma {:induction false} SelectIsFirstQualified(views: seq<Client>, start: nat, i: nat, maxRetries: int, clock: nat -> int, cancelAt: nat)
    returns (k: nat)
    requires views != [] && AllSane(views)
    ensures var s := ScanFrom(views, start, i, maxRetries, clock, cancelAt);
            && i <= k && (forall j: nat :: i <= j < k ==> !QualifiesIn(views, start, j, clock))
            && match s.selection
               case Selected(idx) =>
                 && k < maxRetries && k < cancelAt
                 && idx == (start + k) % |views| && QualifiesIn(views, start, k, clock)
                 && s.views == views[idx := Taken(views[idx], clock(k))]
               case AllBusy => k == Max(i, maxRetries) && (k == i || maxRetries <= cancelAt) && s.views == views
               case Cancelled => k == Max(i, cancelAt) < maxRetries && s.views == views
    decreases maxRetries - i
  {
    k := i;
    if i < maxRetries && i < cancelAt {
      var idx := (start + i) % |views|;
      VisitDecides(views[idx], clock(i));
      if !QualifiesIn(views, start, i, clock) {
        assert views[idx := views[idx]] == views;
        k := SelectIsFirstQualified(views, start, i + 1, maxRetries, clock, cancelAt);
      }
    }
  }

  /** The index looked at in round `k`. */
  function IndexAt(start: nat, k: nat, n: nat): nat
    requires n > 0
  {
    (start + k) % n
  }

  lemma DivModUnique(x: int, n: int, q: int, r: int)
    requires n > 0 && 0 <= r < n && x == n * q + r
    ensures x % n == r && x / n == q
  {
    var q', r' := x / n, x % n;
    assert x == n * q' + r';
    assert n * (q - q') == r' - r;
    if q > q' {
      MulMonotone(n, 1, q - q');
    } else if q < q' {
      MulMonotone(n, q - q', -1);
    }
  }

  /** The remainder of a sum, wrapped at most once. */
  lemma ModOfSum(start: nat, k: nat, n: nat)
    requires k < n
    ensures (start + k) % n == if start % n + k < n then start % n + k else start % n + k - n
  {
    var q, s := start / n, start % n;
    assert start + k == n * q + (s + k);
    if s + k < n {
      DivModUnique(start + k, n, q, s + k);
    } else {
      assert start + k == n * (q + 1) + (s + k - n);
      DivModUnique(start + k, n, q + 1, s + k - n);
    }
  }

  lemma SameIndexSameRound(start: nat, j: nat, k: nat, n: nat)
    requires j < n && k < n && IndexAt(start, j, n) == IndexAt(start, k, n)
    ensures j == k
  {
    ModOfSum(start, j, n);
    ModOfSum(start, k, n);
  }

  lemma EveryIndexHasARound(start: nat, n: nat, p: nat) returns (k: nat)
    requires p < n
    ensures k < n && IndexAt(start, k, n) == p
  {
    var s := start % n;
    k := if s <= p then p - s else p + n - s;
    ModOfSum(start, k, n);
  }

  /** With one round per proxy every proxy is looked at exactly once. */
  lemma RotationIsPermutation(start: nat, n: nat, p: nat) returns (k: nat)
    requires p < n
    ensures k < n && IndexAt(start, k, n) == p
    ensures forall j: nat :: j < n && IndexAt(start, j, n) == p ==> j == k
  {
    k := EveryIndexHasARound(start, n, p);
    forall j: nat | j < n && IndexAt(start, j, n) == p
      ensures j == k
    {
      SameIndexSameRound(start, j, k, n);
    }
  }

  /** All busy, with a full rotation at one instant, means no proxy at all qualifies. */
  lemma AllBusyMeansNoneQualifies(views: seq<Client>, start: nat, clock: nat -> int, cancelAt: nat, now: int, p: nat)
    requires views != [] && AllSane(views) && p < |views|
    requires forall k :: clock(k) == now
    requires ScanFrom(views, start, 0, |views|, clock, cancelAt).selection == AllBusy
    ensures !views[p].Qualifies(now)
  {
    var k := SelectIsFirstQualified(views, start, 0, |views|, clock, cancelAt);
    var r := RotationIsPermutation(start, |views|, p);
    assert !QualifiesIn(views, start, r, clock);
  }

  // ---- Fairness ------------------------------------------------------------------------------

  /** How many of the numbers first, ..., first + m - 1 leave remainder `p` modulo `n`. */
  function Turns(first: nat, m: nat, n: nat, p: nat): nat
    requires n > 0
  {
    if m == 0 then 0 else Turns(first, m - 1, n, p) + if IndexAt(first, m - 1, n) == p then 1 else 0
  }

  lemma {:induction false} TurnsInOneRound(first: nat, m: nat, n: nat, p: nat, k: nat)
    requires m <= n && p < n && k < n
    requires IndexAt(first, k, n) == p
    ensures Turns(first, m, n, p) == if k < m then 1 else 0
    decreases m
  {
    if m > 0 {
      TurnsInOneRound(first, m - 1, n, p, k);
      if IndexAt(first, m - 1, n) == p {
        SameIndexSameRound(first, m - 1, k, n);
      }
    }
  }

  lemma {:induction false} TurnsSplit(first: nat, a: nat, b: nat, n: nat, p: nat)
    requires n > 0
    ensures Turns(first, a + b, n, p) == Turns(first, a, n, p) + Turns(first + a, b, n, p)
    decreases b
  {
    if b > 0 {
      TurnsSplit(first, a, b - 1, n, p);
    }
  }

  /** q full rounds and r further tickets give a proxy q turns, or one more. */
  lemma {:induction false} TurnsInRounds(first: nat, m: nat, q: nat, r: nat, n: nat, p: nat)
    requires p < n && r < n && m == q * n + r
    ensures q <= Turns(first, m, n, p) <= q + if r == 0 then 0 else 1
    decreases q
  {
    hide Turns, IndexAt;
    var k := EveryIndexHasARound(first, n, p);
    if q == 0 {
      TurnsInOneRound(first, m, n, p, k);
    } else {
      TurnsInOneRound(first, n, n, p, k);
      var rest := m - n;
      MulMonotone(n, 0, q - 1);
      assert rest == (q - 1) * n + r;
      TurnsSplit(first, n, rest, n, p);
      TurnsInRounds(first + n, rest, q - 1, r, n, p);
    }
  }

  /** What call `c` of a sequence of calls selects, if `counter` was the last ticket drawn. */
  function Selects(views: nat -> seq<Client>, clock: nat -> (nat -> int), cancelAt: nat -> nat,
                   maxRetries: int, counter: nat, c: nat): Selection
    requires counter + c < TWO_64 && views(c) != []
  {
    ScanFrom(views(c), NextTicket(counter + c) % |views(c)|, 0, maxRetries, clock(c), cancelAt(c)).selection
  }

  /** How many of the first `m` calls select proxy `p`. */
  function TimesSelected(views: nat -> seq<Client>, clock: nat -> (nat -> int), cancelAt: nat -> nat,
                         maxRetries: int, counter: nat, m: nat, p: nat): nat
    requires counter + m < TWO_64 && forall c: nat :: c < m ==> views(c) != []
  {
    if m == 0 then 0
    else TimesSelected(views, clock, cancelAt, maxRetries, counter, m - 1, p)
         + if Selects(views, clock, cancelAt, maxRetries, counter, m - 1) == Selected(p) then 1 else 0
  }

  /** The proxies whose turn it is accept. */
  ghost predicate TurnsAccepted(views: nat -> seq<Client>, clock: nat -> (nat -> int), cancelAt: nat -> nat,
                                n: nat, counter: nat, m: nat)
    requires n > 0
  {
    forall c: nat :: c < m ==>
      |views(c)| == n && AllSane(views(c)) && cancelAt(c) >= 1
      && views(c)[IndexAt(counter + 1, c, n)].Qualifies(clock(c)(0))
  }

  /** A call whose turn falls on a proxy that accepts selects that proxy. */
  lemma TurnIsTaken(views: nat -> seq<Client>, clock: nat -> (nat -> int), cancelAt: nat -> nat,
                    n: nat, maxRetries: int, counter: nat, m: nat, c: nat)
    requires n > 0 && maxRetries >= 1 && counter + m < TWO_64 && c < m
    requires TurnsAccepted(views, clock, cancelAt, n, counter, m)
    ensures Selects(views, clock, cancelAt, maxRetries, counter, c) == Selected(IndexAt(counter + 1, c, n))
  {
    hide ScanFrom;
    var v, p := views(c), IndexAt(counter + 1, c, n);
    assert |v| == n && AllSane(v) && cancelAt(c) >= 1 && v[p].Qualifies(clock(c)(0));
    assert NextTicket(counter + c) % n == p;
    DivModUnique(p, n, 0, p);
    assert QualifiesIn(v, p, 0, clock(c));
    var k := SelectIsFirstQualified(v, p, 0, maxRetries, clock(c), cancelAt(c));
  }

  lemma {:induction false} TimesAreTurns(views: nat -> seq<Client>, clock: nat -> (nat -> int), cancelAt: nat -> nat,
                                         n: nat, maxRetries: int, counter: nat, m: nat, p: nat)
    requires p < n && maxRetries >= 1 && counter + m < TWO_64
    requires TurnsAccepted(views, clock, cancelAt, n, counter, m)
    ensures TimesSelected(views, clock, cancelAt, maxRetries, counter, m, p) == Turns(counter + 1, m, n, p)
    decreases m
  {
    hide Selects, IndexAt;
    if m > 0 {
      TimesAreTurns(views, clock, cancelAt, n, maxRetries, counter, m - 1, p);
      TurnIsTaken(views, clock, cancelAt, n, maxRetries, counter, m, m - 1);
    }
  }

  /** Fairness: in any m consecutive calls in which the proxy whose turn it is accepts, every
      proxy is selected floor(m/n) or ceil(m/n) times, as long as the ticket counter does not
      wrap meanwhile. */
  lemma TurnsAreEven(views: nat -> seq<Client>, clock: nat -> (nat -> int), cancelAt: nat -> nat,
                     n: nat, maxRetries: int, counter: nat, m: nat, p: nat)
    requires p < n && maxRetries >= 1 && counter + m < TWO_64
    requires TurnsAccepted(views, clock, cancelAt, n, counter, m)
    ensures m / n <= TimesSelected(views, clock, cancelAt, maxRetries, counter, m, p)
                  <= m / n + if m % n == 0 then 0 else 1
  {
    hide Turns, TimesSelected;
    var q, r := m / n, m % n;
    assert m == q * n + r;
    TimesAreTurns(views, clock, cancelAt, n, maxRetries, counter, m, p);
    TurnsInRounds(counter + 1, m, q, r, n, p);
  }

  /** A proxy that qualifies whenever a call begins is chosen at least once in any n
      consecutive calls, whatever happens to the other proxies in between, as long as the
      ticket counter does not wrap meanwhile. */
  lemma EligibleIsChosen(views: nat -> seq<Client>, clock: nat -> (nat -> int), cancelAt: nat -> nat,
                         n: nat, maxRetries: int, counter: nat, p: nat) returns (call: nat)
    requires p < n && maxRetries >= 1 && counter + n < TWO_64
    requires forall c: nat :: c < n ==>
               |views(c)| == n && AllSane(views(c)) && cancelAt(c) >= 1 && views(c)[p].Qualifies(clock(c)(0))
    ensures call < n
    ensures Selects(views, clock, cancelAt, maxRetries, counter, call) == Selected(p)
  {
    call := RotationIsPermutation(counter + 1, n, p);
    assert NextTicket(counter + call) == counter + 1 + call;
    var v := views(call);
    assert AllSane(v) && v[p].Qualifies(clock(call)(0));
    DivModUnique(p, n, 0, p);
    assert QualifiesIn(v, p, 0, clock(call));
    var k := SelectIsFirstQualified(v, p, 0, maxRetries, clock(call), cancelAt(call));
  }

  /** The rotation continues across the wrap of the 64-bit counter exactly when the number of
      proxies divides 2^64. */
  lemma RotationSeamlessIff(current: nat, n: nat)
    requires n > 0 && current < TWO_64
    ensures NextTicket(current) % n == (current + 1) % n <==> current + 1 < TWO_64 || TWO_64 % n == 0
  {
    if current + 1 == TWO_64 {
      DivModUnique(0, n, 0, 0);
    }
  }
}
