/** What one recorded outcome does to the circuit breaker, in terms of plain counts, and what
    follows for whole runs of mixed outcomes with recoveries in between. */
module BreakerLaws {
  import opened Int64
  import opened SlidingWindows
  import opened CircuitBreakers
  import opened BreakerRuns

  /** The outcomes of `log` counted by a query at `now`, and the failures among them. */
  function CountedRequests(cfg: Config, log: seq<Outcome>, now: int): int {
    LogCount(RequestEvents(log), BUCKET, now - WindowOf(cfg), now)
  }

  function CountedFailures(cfg: Config, log: seq<Outcome>, now: int): int {
    LogCount(FailureEvents(log), BUCKET, now - WindowOf(cfg), now)
  }

  function WindowOf(cfg: Config): int {
    if cfg.windowSize <= 0 then 60 * BUCKET else cfg.windowSize
  }

  lemma RatioBelow(f: int, r: int, t: real)
    requires r > 0
    ensures f as real / r as real >= t <==> f as real >= t * r as real
    ensures f as real / r as real <= t <==> f as real <= t * r as real
  {
    RatioAtLeast(f, r, t);
    RatioAtMost(f, r, t);
  }

  /** A recorded failure, entirely: the breaker dies exactly if enough outcomes are counted
      and the failures among them reach the failure threshold's share; a healthy one degrades
      exactly if they reach only the degraded threshold's share; otherwise its state is kept. */
  lemma FailureExact(b: Breaker, now: int)
    requires b.cfg.Validated()
    ensures var log, b' := b.log + [Outcome(now, true)], b.RecordFailure(now);
            var r, f := CountedRequests(b.cfg, log, now), CountedFailures(b.cfg, log, now);
            var enough := r >= b.cfg.minRequests && r > 0;
            var dead := enough && f as real >= b.cfg.failureThreshold * r as real;
            var degraded := enough && !dead && f as real >= b.cfg.degradedThreshold * r as real;
            && b'.state == (if dead then Dead else if degraded && b.state == Healthy then Degraded else b.state)
            && b'.lastStateChange == (if b'.state != b.state then now else b.lastStateChange)
            && b'.log == log && b'.cfg == b.cfg
            && b'.lastFailure == now && b'.lastSuccess == b.lastSuccess
  {
    hide LogCount, RequestEvents, FailureEvents;
    var log := b.log + [Outcome(now, true)];
    var r, f := CountedRequests(b.cfg, log, now), CountedFailures(b.cfg, log, now);
    CountsWithinLog(log, now - WindowOf(b.cfg), now);
    if r > 0 {
      RatioBelow(f, r, b.cfg.failureThreshold);
      RatioBelow(f, r, b.cfg.degradedThreshold);
    }
  }

  /** A recorded success, entirely: a breaker that is not healthy recovers exactly if the
      failures counted are within the degraded threshold's share and at least half of
      minRequests are counted; recovering empties the windows. */
  lemma SuccessExact(b: Breaker, now: int)
    requires b.cfg.Validated()
    ensures var log, b' := b.log + [Outcome(now, false)], b.RecordSuccess(now);
            var r, f := CountedRequests(b.cfg, log, now), CountedFailures(b.cfg, log, now);
            var recovers := b.state != Healthy && f as real <= b.cfg.degradedThreshold * r as real
                            && r >= Quot(b.cfg.minRequests, 2);
            && b'.state == (if recovers then Healthy else b.state)
            && b'.lastStateChange == (if recovers then now else b.lastStateChange)
            && b'.log == (if recovers then [] else log) && b'.cfg == b.cfg
            && b'.lastSuccess == now && b'.lastFailure == b.lastFailure
  {
    hide LogCount, RequestEvents, FailureEvents;
    var log := b.log + [Outcome(now, false)];
    var r, f := CountedRequests(b.cfg, log, now), CountedFailures(b.cfg, log, now);
    CountsWithinLog(log, now - WindowOf(b.cfg), now);
    if r > 0 {
      RatioBelow(f, r, b.cfg.degradedThreshold);
    }
  }

  // ---- Recovery ------------------------------------------------------------------------------------

  /** Only a success turns a breaker healthy, and doing so it forgets every outcome. */
  lemma RecoveryForgets(b: Breaker, s: Signal)
    requires b.cfg.Validated() && b.state != Healthy && Step(b, s).state == Healthy
    ensures s.Success? && Step(b, s).log == [] && Step(b, s).lastStateChange == s.time
  {
    hide Breaker.RecordSuccess, Breaker.RecordFailure, LogCount;
    FailureExact(b, s.time);
    SuccessExact(b, s.time);
  }

  /** How many signals there are up to the latest recovery, that one included. */
  function SinceRecovery(b: Breaker, signals: seq<Signal>): (k: nat)
    ensures k <= |signals|
    decreases signals
  {
    if signals == [] then 0
    else
      var b1 := Step(b, signals[0]);
      var k := SinceRecovery(b1, signals[1..]);
      if k > 0 then k + 1
      else if b.state != Healthy && b1.state == Healthy then 1
      else 0
  }

  /** The windows hold exactly what was recorded since the latest recovery (or the start), or
      since the latest explicit reset after it. */
  lemma {:induction false} LogIsSinceRecovery(b: Breaker, signals: seq<Signal>)
    requires b.cfg.Validated()
    ensures var k := SinceRecovery(b, signals);
            Run(b, signals).log == LogAfter(if k == 0 then b.log else [], signals[k..])
    decreases signals
  {
    hide Breaker.RecordSuccess, Breaker.RecordFailure, LogCount, RequestEvents, FailureEvents;
    if signals == [] {
      assert signals[0..] == [];
    } else {
      var s, b1 := signals[0], Step(b, signals[0]);
      FailureExact(b, s.time);
      SuccessExact(b, s.time);
      LogIsSinceRecovery(b1, signals[1..]);
      var k := SinceRecovery(b1, signals[1..]);
      assert signals[k + 1..] == signals[1..][k..];
      assert signals[0..] == signals;
    }
  }

  /** No more was recorded than there are signals. */
  lemma {:induction false} LogAfterWithin(log: seq<Outcome>, signals: seq<Signal>)
    ensures |LogAfter(log, signals)| <= |log| + Recorded(signals)
    ensures Failures(LogAfter(log, signals)) <= Failures(log) + RecordedFailures(signals)
    decreases signals
  {
    if signals != [] {
      var t := signals[0].time;
      assert (log + [Outcome(t, true)])[..|log|] == log && (log + [Outcome(t, false)])[..|log|] == log;
      LogAfterWithin(if signals[0].Clear? then [] else log + [Outcome(t, signals[0].Failure?)], signals[1..]);
    }
  }

  /** No premature trip, over every run of a breaker that starts with empty windows: a move to
      Degraded or Dead is made by a failure, and counted from the latest recovery on, at least
      minRequests outcomes have been recorded by then, at least the matching threshold's share
      of minRequests of them failures. */
  lemma NoPrematureTrip(b: Breaker, signals: seq<Signal>, next: Signal)
    requires b.cfg.Validated() && b.log == []
    ensures var b1, b2 := Run(b, signals), Step(Run(b, signals), next);
            var recent := signals[SinceRecovery(b, signals)..] + [next];
            b2.state != b1.state && b2.state != Healthy ==>
              && next.Failure?
              && Recorded(recent) >= b.cfg.minRequests
              && RecordedFailures(recent) as real
                 >= (if b2.state == Dead then b.cfg.failureThreshold else b.cfg.degradedThreshold) * b.cfg.minRequests as real
  {
    hide Run, SinceRecovery, LogAfter, Step, Recorded, RecordedFailures, FailuresNeeded, Config.Validated;
    var b1, k := Run(b, signals), SinceRecovery(b, signals);
    LogWithinRun(b, signals);
    LogIsSinceRecovery(b, signals);
    LogAfterWithin([], signals[k..]);
    RecordedAppend(signals[k..], next);
    if Step(b1, next).state != b1.state && Step(b1, next).state != Healthy {
      MoveNeedsOutcomes(b1, next);
      Needed(b.cfg, Step(b1, next).state);
    }
  }

  lemma Needed(cfg: Config, next: Health)
    ensures FailuresNeeded(cfg, next)
            == (if next == Dead then cfg.failureThreshold else cfg.degradedThreshold) * cfg.minRequests as real
  {
  }

  // ---- Mixed runs within a window ----------------------------------------------------------------------

  /** The outcomes that a query at `now` sees if all are recent: all of them, except that on
      the first instant of a bucket those of that instant are left out. */
  function Seen(log: seq<Outcome>, now: int): nat
    decreases log
  {
    if log == [] then 0
    else Seen(log[..|log| - 1], now) + if now % BUCKET != 0 || log[|log| - 1].time < now then 1 else 0
  }

  function SeenFailures(log: seq<Outcome>, now: int): nat
    decreases log
  {
    if log == [] then 0
    else
      var last := log[|log| - 1];
      SeenFailures(log[..|log| - 1], now) + if last.failed && (now % BUCKET != 0 || last.time < now) then 1 else 0
  }

  ghost predicate Recent(cfg: Config, log: seq<Outcome>, now: int) {
    forall o :: o in log ==> 0 <= o.time <= now && o.time >= now - WindowOf(cfg) + BUCKET
  }

  lemma {:induction false} RecentCounts(cfg: Config, log: seq<Outcome>, now: int)
    requires Recent(cfg, log, now)
    ensures CountedRequests(cfg, log, now) == Seen(log, now)
    ensures CountedFailures(cfg, log, now) == SeenFailures(log, now)
    decreases log
  {
    hide LogCount;
    if log == [] {
      NothingCounted(now - WindowOf(cfg), now);
    } else {
      var front, last := log[..|log| - 1], log[|log| - 1];
      assert last in log;
      RecentCounts(cfg, front, now);
      KeyBounds(last.time, BUCKET);
      OnBoundary(last.time, now);
      CountAppend(RequestEvents(front), Event(last.time, 1), now - WindowOf(cfg), now);
      if last.failed {
        CountAppend(FailureEvents(front), Event(last.time, 1), now - WindowOf(cfg), now);
      } else {
        assert FailureEvents(log) == FailureEvents(front);
      }
    }
  }

  lemma NothingCounted(since: int, now: int)
    ensures LogCount(RequestEvents([]), BUCKET, since, now) == 0 == LogCount(FailureEvents([]), BUCKET, since, now)
  {
  }

  lemma OnBoundary(time: int, now: int)
    requires 0 <= time <= now
    ensures Key(time, BUCKET) * BUCKET < now <==> now % BUCKET != 0 || time < now
  {
    KeyBounds(time, BUCKET);
  }

  /** When a mixed run kills: let the outcomes since the latest recovery, the last a failure,
      all lie within the window less one bucket. A breaker that was not Dead is Dead exactly
      if enough of them are seen and the failures among those reach the threshold's share. */
  lemma MixedTripsIff(b: Breaker, signals: seq<Signal>, now: int)
    requires b.cfg.Validated() && b.log == [] && Run(b, signals).state != Dead
    requires Recent(b.cfg, LogAfter([], signals[SinceRecovery(b, signals)..]) + [Outcome(now, true)], now)
    ensures var log := LogAfter([], signals[SinceRecovery(b, signals)..]) + [Outcome(now, true)];
            Step(Run(b, signals), Failure(now)).state == Dead
            <==> && Seen(log, now) >= b.cfg.minRequests && Seen(log, now) > 0
                 && SeenFailures(log, now) as real >= b.cfg.failureThreshold * Seen(log, now) as real
  {
    hide Run, SinceRecovery, LogAfter, Breaker.RecordFailure, Recent, Seen, SeenFailures;
    var b1 := Run(b, signals);
    LogWithinRun(b, signals);
    LogIsSinceRecovery(b, signals);
    RecentFailure(b1, now);
  }

  lemma RecentFailure(b: Breaker, now: int)
    requires b.cfg.Validated() && b.state != Dead && Recent(b.cfg, b.log + [Outcome(now, true)], now)
    ensures var log := b.log + [Outcome(now, true)];
            b.RecordFailure(now).state == Dead
            <==> && Seen(log, now) >= b.cfg.minRequests && Seen(log, now) > 0
                 && SeenFailures(log, now) as real >= b.cfg.failureThreshold * Seen(log, now) as real
  {
    hide CountedRequests, CountedFailures, Breaker.RecordFailure, Recent, Seen, SeenFailures;
    RecentCounts(b.cfg, b.log + [Outcome(now, true)], now);
    FailureExact(b, now);
  }
}
