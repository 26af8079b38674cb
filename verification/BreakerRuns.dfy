/** What the circuit breaker guarantees over every run of recorded outcomes. */
module BreakerRuns {
  import opened Int64
  import opened SlidingWindows
  import opened CircuitBreakers

  /** The calls that change a breaker; `Clear` is an explicit Reset of its windows. */
  datatype Signal = Success(time: int) | Failure(time: int) | Clear(time: int)

  function Step(b: Breaker, s: Signal): Breaker {
    match s
    case Success(now) => b.RecordSuccess(now)
    case Failure(now) => b.RecordFailure(now)
    case Clear(_) => b.Reset()
  }

  function Run(b: Breaker, signals: seq<Signal>): Breaker
    decreases signals
  {
    if signals == [] then b else Run(Step(b, signals[0]), signals[1..])
  }

  function Recorded(signals: seq<Signal>): nat
    decreases signals
  {
    if signals == [] then 0 else (if signals[0].Clear? then 0 else 1) + Recorded(signals[1..])
  }

  function RecordedFailures(signals: seq<Signal>): nat
    decreases signals
  {
    if signals == [] then 0 else (if signals[0].Failure? then 1 else 0) + RecordedFailures(signals[1..])
  }

  // ---- Counts and the error rate ---------------------------------------------------------------

  lemma {:induction false} CountsWithinLog(log: seq<Outcome>, since: int, now: int)
    ensures 0 <= LogCount(FailureEvents(log), BUCKET, since, now) <= Failures(log)
    ensures LogCount(RequestEvents(log), BUCKET, since, now) <= |log|
    ensures LogCount(FailureEvents(log), BUCKET, since, now) <= LogCount(RequestEvents(log), BUCKET, since, now)
    decreases log
  {
    if log != [] {
      var front, last := log[..|log| - 1], log[|log| - 1];
      CountsWithinLog(front, since, now);
      CountAppend(RequestEvents(front), Event(last.time, 1), since, now);
      if last.failed {
        CountAppend(FailureEvents(front), Event(last.time, 1), since, now);
      } else {
        assert FailureEvents(log) == FailureEvents(front);
      }
    }
  }

  lemma CountAppend(log: seq<Event>, e: Event, since: int, now: int)
    ensures LogCount(log + [e], BUCKET, since, now)
            == LogCount(log, BUCKET, since, now) + if Counted(Key(e.time, BUCKET), BUCKET, since, now) then e.delta else 0
  {
  }

  /** At every instant the error rate of every breaker lies between 0 and 1. */
  lemma ErrorRateWellFormed(b: Breaker, now: int)
    ensures 0 <= b.FailureCount(now) <= b.Requests(now)
    ensures 0.0 <= b.ErrorRate(now) <= 1.0
  {
    CountsWithinLog(b.log, now - b.cfg.Window(), now);
    if b.Requests(now) > 0 {
      RatioBounds(b.FailureCount(now), b.Requests(now));
    }
  }

  lemma RatioBounds(f: int, r: int)
    requires 0 <= f <= r && r > 0
    ensures 0.0 <= f as real / r as real <= 1.0
  {
  }


  /** A ratio reaches a threshold exactly when the numerator reaches its share. */
  lemma RatioAtLeast(f: int, r: int, t: real)
    requires r > 0
    ensures f as real / r as real >= t <==> f as real >= t * r as real
  {
  }

  /** One more outcome adds one to both counts, one of them, or neither. */
  lemma NoteCounts(b: Breaker, now: int, failed: bool)
    ensures var b' := b.Note(now, failed);
            var one := if Counted(Key(now, BUCKET), BUCKET, now - b.cfg.Window(), now) then 1 else 0;
            && b'.Requests(now) == b.Requests(now) + one
            && b'.FailureCount(now) == b.FailureCount(now) + (if failed then one else 0)
            && Failures(b'.log) == Failures(b.log) + (if failed then 1 else 0)
  {
    var since, b' := now - b.cfg.Window(), b.Note(now, failed);
    assert b'.log[..|b'.log| - 1] == b.log;
    CountAppend(RequestEvents(b.log), Event(now, 1), since, now);
    if failed {
      CountAppend(FailureEvents(b.log), Event(now, 1), since, now);
    } else {
      assert FailureEvents(b'.log) == FailureEvents(b.log);
    }
  }

  lemma NoteRate(b: Breaker, now: int, failed: bool)
    ensures if failed then b.Note(now, failed).ErrorRate(now) >= b.ErrorRate(now)
            else b.Note(now, failed).ErrorRate(now) <= b.ErrorRate(now)
  {
    hide LogCount, RequestEvents, FailureEvents, Breaker.Requests, Breaker.FailureCount, Breaker.Note;
    NoteCounts(b, now, failed);
    ErrorRateWellFormed(b, now);
    ErrorRateWellFormed(b.Note(now, failed), now);
    if b.Requests(now) > 0 {
      AddingOne(b.FailureCount(now), b.Requests(now));
    }
  }

  lemma EmptyRate(b: Breaker, now: int)
    requires b.log == []
    ensures b.ErrorRate(now) == 0.0
  {
  }

  /** At a fixed instant one more failure never lowers the rate and one more success never
      raises it, whether or not it makes the breaker recover. */
  lemma ErrorRateMonotone(b: Breaker, now: int)
    ensures b.RecordFailure(now).ErrorRate(now) >= b.ErrorRate(now)
    ensures b.RecordSuccess(now).ErrorRate(now) <= b.ErrorRate(now)
  {
    hide LogCount;
    NoteRate(b, now, true);
    NoteRate(b, now, false);
    ErrorRateWellFormed(b, now);
    assert b.RecordFailure(now).log == b.Note(now, true).log;
    if b.RecordSuccess(now).log == [] {
      EmptyRate(b.RecordSuccess(now), now);
    }
  }

  lemma AddingOne(f: int, r: int)
    requires 0 <= f <= r && r > 0
    ensures (f + 1) as real / (r + 1) as real >= f as real / r as real
    ensures f as real / (r + 1) as real <= f as real / r as real
  {
    var q := f as real / r as real;
    RatioBounds(f, r);
    assert q * r as real == f as real;
    assert q * (r + 1) as real == f as real + q;
    RatioAtLeast(f + 1, r + 1, q);
    RatioAtMost(f, r + 1, q);
  }

  lemma RatioAtMost(f: int, r: int, t: real)
    requires r > 0
    ensures f as real / r as real <= t <==> f as real <= t * r as real
  {
  }

  // ---- No premature trip --------------------------------------------------------------------------

  /** The windows never hold more than was recorded since they were emptied. */
  lemma {:induction false} LogWithinRun(b: Breaker, signals: seq<Signal>)
    ensures var b' := Run(b, signals);
            && b'.cfg == b.cfg
            && |b'.log| <= |b.log| + Recorded(signals)
            && Failures(b'.log) <= Failures(b.log) + RecordedFailures(signals)
    decreases signals
  {
    hide LogCount, Breaker.ErrorRate, RequestEvents, FailureEvents;
    if signals != [] {
      var b1 := Step(b, signals[0]);
      assert (b.log + [Outcome(signals[0].time, true)])[..|b.log|] == b.log;
      assert (b.log + [Outcome(signals[0].time, false)])[..|b.log|] == b.log;
      LogWithinRun(b1, signals[1..]);
    }
  }

  lemma ShareOfMinimum(f: int, r: int, m: int, t: real)
    requires r > 0 && t > 0.0 && m <= r
    requires f as real / r as real >= t
    ensures f as real >= t * m as real
  {
  }

  /** A threshold reached by the windows is reached by what was recorded. */
  lemma TripNeedsOutcomes(b: Breaker, now: int, threshold: real)
    requires threshold > 0.0
    requires b.Requests(now) >= b.cfg.minRequests && b.ErrorRate(now) >= threshold
    ensures |b.log| >= b.cfg.minRequests
    ensures Failures(b.log) as real >= threshold * b.cfg.minRequests as real
  {
    CountsWithinLog(b.log, now - b.cfg.Window(), now);
    ShareOfMinimum(b.FailureCount(now), b.Requests(now), b.cfg.minRequests, threshold);
  }


  /** The share of minRequests that must have failed for a move to `next`. */
  function FailuresNeeded(cfg: Config, next: Health): real {
    (if next == Dead then cfg.failureThreshold else cfg.degradedThreshold) * cfg.minRequests as real
  }

  /** Only a failure moves a breaker to Degraded or Dead, and only once the windows hold
      enough outcomes and enough failures. */
  lemma MoveNeedsOutcomes(b: Breaker, next: Signal)
    requires b.cfg.Validated()
    requires Step(b, next).state != b.state && Step(b, next).state != Healthy
    ensures next.Failure? && |b.log| + 1 >= b.cfg.minRequests
    ensures (Failures(b.log) + 1) as real
            >= FailuresNeeded(b.cfg, Step(b, next).state)
  {
    hide LogCount, RequestEvents, FailureEvents, Breaker.ErrorRate, Breaker.Requests, Failures;
    var b' := b.Note(next.time, true);
    NoteCounts(b, next.time, true);
    if Step(b, next).state == Dead {
      TripNeedsOutcomes(b', next.time, b.cfg.failureThreshold);
    } else {
      TripNeedsOutcomes(b', next.time, b.cfg.degradedThreshold);
    }
  }

  lemma {:induction false} RecordedAppend(signals: seq<Signal>, next: Signal)
    ensures Recorded(signals + [next]) == Recorded(signals) + if next.Clear? then 0 else 1
    ensures RecordedFailures(signals + [next]) == RecordedFailures(signals) + if next.Failure? then 1 else 0
    decreases signals
  {
    if signals == [] {
      assert (signals + [next])[1..] == [];
    } else {
      assert (signals + [next])[1..] == signals[1..] + [next];
      RecordedAppend(signals[1..], next);
    }
  }

  // ---- The dead interval ----------------------------------------------------------------------------

  /** Time of the latest entry into Dead during the run, `since` if there is none. */
  function DeadSince(b: Breaker, signals: seq<Signal>, since: int): int
    decreases signals
  {
    if signals == [] then since
    else
      var b1 := Step(b, signals[0]);
      DeadSince(b1, signals[1..], if b.state != Dead && b1.state == Dead then signals[0].time else since)
  }

  /** A breaker turns traffic away exactly while it is Dead and until recoveryTimeout after it
      last entered Dead, however many failures are recorded in between. */
  lemma {:induction false} DeadIntervalExact(b: Breaker, signals: seq<Signal>, since: int, t: int)
    requires b.state == Dead ==> b.lastStateChange == since
    ensures var b' := Run(b, signals);
            && (b'.state == Dead ==> b'.lastStateChange == DeadSince(b, signals, since))
            && (b'.IsHealthy(t) <==> b'.state != Dead || t - DeadSince(b, signals, since) > b.cfg.recoveryTimeout)
    decreases signals
  {
    if signals != [] {
      var b1 := Step(b, signals[0]);
      DeadIntervalExact(b1, signals[1..],
                        if b.state != Dead && b1.state == Dead then signals[0].time else since, t);
    }
  }

  /** Dead never turns into Degraded directly: a run that ends Degraded has been Healthy. */
  lemma {:induction false} DeadRecoversThroughHealthy(b: Breaker, signals: seq<Signal>) returns (k: nat)
    requires b.state == Dead && Run(b, signals).state == Degraded
    ensures k <= |signals| && Run(b, signals[..k]).state == Healthy
    decreases signals
  {
    var b1 := Step(b, signals[0]);
    if b1.state == Healthy {
      k := 1;
      assert signals[..1][1..] == [];
    } else {
      var j := DeadRecoversThroughHealthy(b1, signals[1..]);
      k := j + 1;
      assert signals[..k][1..] == signals[1..][..j];
    }
  }

  // ---- The way out of Dead -----------------------------------------------------------------------------

  /** What the windows hold after `signals`, if no recovery empties them. */
  function LogAfter(log: seq<Outcome>, signals: seq<Signal>): seq<Outcome>
    decreases signals
  {
    if signals == [] then log
    else
      var log' := match signals[0]
        case Success(t) => log + [Outcome(t, false)]
        case Failure(t) => log + [Outcome(t, true)]
        case Clear(_) => [];
      LogAfter(log', signals[1..])
  }

  /** Signal `j` is a success, and counting it the error rate is low and the outcomes enough. */
  ghost predicate Convinces(b: Breaker, signals: seq<Signal>, j: nat) {
    && j < |signals| && signals[j].Success?
    && var now, b' := signals[j].time, b.(log := LogAfter(b.log, signals[..j + 1]));
       && b'.ErrorRate(now) <= b.cfg.degradedThreshold
       && b'.Requests(now) >= Quot(b.cfg.minRequests, 2)
  }

  ghost predicate LeftBy(b: Breaker, signals: seq<Signal>, k: nat) {
    k <= |signals| && Run(b, signals[..k]).state != Dead
  }

  /** A breaker leaves Dead exactly if some recorded success convinces it. No passage of time
      and no other call does it. */
  lemma {:induction false} LeavesDeadIff(b: Breaker, signals: seq<Signal>)
    requires b.state == Dead
    ensures (exists k: nat :: LeftBy(b, signals, k)) <==> exists j: nat :: Convinces(b, signals, j)
    decreases signals
  {
    hide Step, LeftBy, Convinces;
    if signals == [] {
      NoSignal(b);
    } else {
      var b1, rest := Step(b, signals[0]), signals[1..];
      FirstSignal(b, signals);
      if b1.state != Dead {
        assert LeftBy(b, signals, 1) by { LeftLater(b, signals, 1); NotDead(b1, rest); }
        assert Convinces(b, signals, 0);
      } else {
        LeavesDeadIff(b1, rest);
        if k: nat :| LeftBy(b, signals, k) {
          LeftLater(b, signals, k);
          var j: nat :| Convinces(b1, rest, j);
          ConvincesLater(b, signals, j + 1);
        }
        if j: nat :| Convinces(b, signals, j) {
          ConvincesLater(b, signals, j);
          var k: nat :| LeftBy(b1, rest, k);
          LeftLater(b, signals, k + 1);
        }
      }
    }
  }

  lemma NoSignal(b: Breaker)
    requires b.state == Dead
    ensures !(exists k: nat :: LeftBy(b, [], k)) && !(exists j: nat :: Convinces(b, [], j))
  {
    var none: seq<Signal> := [];
    assert none[..0] == [];
  }

  lemma NotDead(b: Breaker, signals: seq<Signal>)
    requires b.state != Dead
    ensures LeftBy(b, signals, 0)
  {
    assert signals[..0] == [];
  }

  lemma LeftLater(b: Breaker, signals: seq<Signal>, k: nat)
    requires b.state == Dead && signals != []
    ensures LeftBy(b, signals, k) <==> k > 0 && LeftBy(Step(b, signals[0]), signals[1..], k - 1)
  {
    hide Step;
    if k == 0 {
      assert signals[..0] == [];
    } else if k <= |signals| {
      assert signals[..k][1..] == signals[1..][..k - 1];
    }
  }

  lemma ConvincesLater(b: Breaker, signals: seq<Signal>, j: nat)
    requires b.state == Dead && signals != [] && Step(b, signals[0]).state == Dead
    ensures Convinces(b, signals, j) <==> j > 0 && Convinces(Step(b, signals[0]), signals[1..], j - 1)
  {
    hide LogCount, Breaker.ErrorRate, Breaker.Requests, RequestEvents, FailureEvents, Step;
    var b1 := Step(b, signals[0]);
    FirstSignal(b, signals);
    if 0 < j < |signals| {
      var log := LogAfter(b.log, signals[..j + 1]);
      assert signals[..j + 1][1..] == signals[1..][..j];
      SameCounts(b.(log := log), b1.(log := log), signals[j].time);
    }
  }

  lemma FirstSignal(b: Breaker, signals: seq<Signal>)
    requires b.state == Dead && signals != []
    ensures var b1 := Step(b, signals[0]);
            && b1.cfg == b.cfg && (b1.state != Dead <==> Convinces(b, signals, 0))
            && (b1.state == Dead ==> LogAfter(b.log, [signals[0]]) == b1.log)
  {
    hide LogCount, Breaker.ErrorRate, Breaker.Requests, RequestEvents, FailureEvents;
    var one, now := [signals[0]], signals[0].time;
    assert signals[..0 + 1] == one && one[1..] == [];
    if signals[0].Success? {
      var log := b.log + [Outcome(now, false)];
      assert LogAfter(b.log, one) == LogAfter(log, []) == log;
      SameCounts(b.Note(now, false), b.(log := log), now);
    }
  }

  lemma SameCounts(b: Breaker, b': Breaker, now: int)
    requires b'.cfg == b.cfg && b'.log == b.log
    ensures b'.ErrorRate(now) == b.ErrorRate(now) && b'.Requests(now) == b.Requests(now)
  {
  }

  // ---- The trip is guaranteed ---------------------------------------------------------------------------

  function AllFail(times: seq<int>): seq<Signal> {
    seq(|times|, i requires 0 <= i < |times| => Failure(times[i]))
  }

  ghost predicate OnlyFailures(log: seq<Outcome>) {
    forall o :: o in log ==> o.failed
  }

  lemma {:induction false} FailuresAreRequests(log: seq<Outcome>)
    requires OnlyFailures(log)
    ensures FailureEvents(log) == RequestEvents(log)
    decreases log
  {
    if log != [] {
      assert log[|log| - 1] in log;
      FailuresAreRequests(log[..|log| - 1]);
    }
  }

  /** With failures only, the test for tripping is whether enough of them are counted. */
  lemma TripTestOnFailures(b: Breaker, now: int)
    requires b.cfg.Validated() && OnlyFailures(b.log)
    ensures b.ShouldTrip(now) <==> b.Requests(now) >= Max(1, b.cfg.minRequests)
  {
    FailuresAreRequests(b.log);
    ErrorRateWellFormed(b, now);
    if b.Requests(now) > 0 {
      RatioAtLeast(b.FailureCount(now), b.Requests(now), 1.0);
    }
  }

  /** Failures never empty the windows and never lead out of Dead. */
  lemma {:induction false} FailureRun(b: Breaker, times: seq<int>)
    requires OnlyFailures(b.log)
    ensures var b' := Run(b, AllFail(times));
            && b'.cfg == b.cfg && OnlyFailures(b'.log)
            && b'.log == b.log + seq(|times|, i requires 0 <= i < |times| => Outcome(times[i], true))
            && (b.state == Dead ==> b'.state == Dead)
    decreases times
  {
    hide LogCount, Breaker.ErrorRate, RequestEvents, FailureEvents;
    if times == [] {
      assert AllFail(times) == [];
    } else {
      var b1 := Step(b, Failure(times[0]));
      assert b1.log == b.log + [Outcome(times[0], true)];
      assert AllFail(times)[1..] == AllFail(times[1..]);
      FailureRun(b1, times[1..]);
    }
  }

  lemma {:induction false} FailureRunSnoc(b: Breaker, times: seq<int>)
    requires times != []
    ensures Run(b, AllFail(times))
            == Step(Run(b, AllFail(times[..|times| - 1])), Failure(times[|times| - 1]))
    decreases times
  {
    hide Step;
    var front := times[..|times| - 1];
    assert AllFail(times)[1..] == AllFail(times[1..]);
    if |times| > 1 {
      assert AllFail(front)[1..] == AllFail(front[1..]);
      assert times[1..][..|times| - 2] == front[1..];
      FailureRunSnoc(Step(b, Failure(times[0])), times[1..]);
    }
  }

  /** A log counts at least its leading `k` outcomes if those are counted. */
  lemma {:induction false} CountedAtLeast(log: seq<Outcome>, k: nat, since: int, now: int)
    requires k <= |log|
    requires forall i :: 0 <= i < k ==> Counted(Key(log[i].time, BUCKET), BUCKET, since, now)
    ensures LogCount(RequestEvents(log), BUCKET, since, now) >= k
    decreases log
  {
    if k == 0 {
      CountsWithinLog(log, since, now);
    } else {
      var n := |log| - 1;
      var front, last := log[..n], log[n];
      CountedAtLeast(front, if k <= n then k else n, since, now);
      CountAppend(RequestEvents(front), Event(last.time, 1), since, now);
    }
  }

  /** And at most its leading `k` outcomes if no others are. */
  lemma {:induction false} CountedAtMost(log: seq<Outcome>, k: nat, since: int, now: int)
    requires forall i :: k <= i < |log| ==> !Counted(Key(log[i].time, BUCKET), BUCKET, since, now)
    ensures LogCount(RequestEvents(log), BUCKET, since, now) <= k
    decreases log
  {
    if |log| <= k {
      CountsWithinLog(log, since, now);
    } else {
      var n := |log| - 1;
      CountedAtMost(log[..n], k, since, now);
      CountAppend(RequestEvents(log[..n]), Event(log[n].time, 1), since, now);
    }
  }

  /** How the last of a run of failures is judged. */
  lemma LastFailureTest(b: Breaker, times: seq<int>) returns (mid: Breaker)
    requires b.cfg.Validated() && b.log == [] && times != []
    ensures var now, needed := times[|times| - 1], Max(1, b.cfg.minRequests);
            && mid.cfg == b.cfg
            && mid.log == seq(|times|, i requires 0 <= i < |times| => Outcome(times[i], true))
            && mid.state == Run(b, AllFail(times[..|times| - 1])).state
            && (Run(b, AllFail(times)).state == Dead <==> mid.state == Dead || mid.Requests(now) >= needed)
  {
    hide LogCount, Breaker.ErrorRate, Breaker.ShouldTrip, Breaker.RecordFailure, Run, RequestEvents, FailureEvents;
    var n := |times| - 1;
    var front, now := times[..n], times[n];
    FailureRunSnoc(b, times);
    FailureRun(b, front);
    var b1 := Run(b, AllFail(front));
    mid := b1.Note(now, true);
    TripTestOnFailures(mid, now);
    FailureJudged(b1, now);
  }

  lemma FailureJudged(b: Breaker, now: int)
    ensures b.RecordFailure(now).state == Dead <==> b.state == Dead || b.Note(now, true).ShouldTrip(now)
  {
  }

  /** When the breaker trips: a run of failures with no success in between, on empty windows
      and all within the window less one bucket, kills a breaker exactly if there are enough
      of them and either the last does not fall on the first instant of a bucket or enough
      came before it. The exception is real, because a count leaves out the bucket that
      starts at the very instant of the query. */
  lemma TripsIff(b: Breaker, times: seq<int>)
    requires b.cfg.Validated() && b.log == [] && b.state != Dead && times != []
    requires forall i, j :: 0 <= i <= j < |times| ==> times[i] <= times[j]
    requires times[0] >= 0 && times[0] >= times[|times| - 1] - b.cfg.Window() + BUCKET
    ensures var now, needed := times[|times| - 1], Max(1, b.cfg.minRequests);
            Run(b, AllFail(times)).state == Dead
            <==> |times| >= needed && (now % BUCKET != 0 || times[needed - 1] < now)
  {
    hide Run, LogCount, Breaker.ErrorRate;
    var now, needed := times[|times| - 1], Max(1, b.cfg.minRequests);
    if |times| >= needed && (now % BUCKET != 0 || times[needed - 1] < now) {
      var mid := LastFailureTest(b, times);
      forall i | 0 <= i < needed
        ensures Counted(Key(mid.log[i].time, BUCKET), BUCKET, now - b.cfg.Window(), now)
      {
        KeyBounds(times[i], BUCKET);
      }
      CountedAtLeast(mid.log, needed, now - b.cfg.Window(), now);
    } else {
      StaysAlive(b, times, now);
    }
  }

  /** Too few failures, or too few before a boundary at which all the others fall. */
  lemma {:induction false} StaysAlive(b: Breaker, times: seq<int>, now: int)
    requires b.cfg.Validated() && b.log == [] && b.state != Dead
    requires |times| >= Max(1, b.cfg.minRequests) ==> now >= 0 && now % BUCKET == 0
    requires forall i :: Max(1, b.cfg.minRequests) - 1 <= i < |times| ==> times[i] == now
    ensures Run(b, AllFail(times)).state != Dead
    decreases times
  {
    hide Step, LogCount, Breaker.ErrorRate, RequestEvents, FailureEvents;
    if times == [] {
      assert AllFail(times) == [];
    } else {
      var n := |times| - 1;
      StaysAlive(b, times[..n], now);
      var mid := LastFailureTest(b, times);
      if |times| >= Max(1, b.cfg.minRequests) {
        KeyBounds(now, BUCKET);
      }
      CountedAtMost(mid.log, Max(1, b.cfg.minRequests) - 1, times[n] - b.cfg.Window(), times[n]);
    }
  }

  // ---- The timeout does not heal --------------------------------------------------------------------------

  lemma {:induction false} LastChangeUpTo(b: Breaker, times: seq<int>, t: int)
    requires b.lastStateChange <= t && forall i :: 0 <= i < |times| ==> times[i] <= t
    ensures Run(b, AllFail(times)).lastStateChange <= t
    decreases times
  {
    hide LogCount, Breaker.ErrorRate, Breaker.Requests;
    if times != [] {
      assert AllFail(times)[1..] == AllFail(times[1..]);
      LastChangeUpTo(Step(b, Failure(times[0])), times[1..], t);
    }
  }

  /** With the default settings: ten failures, silence until just past the timeout, and a
      success. Traffic is let through again, and yet the breaker stays Dead. */
  lemma DeadPastTimeout() returns (b: Breaker)
    ensures b == Run(NewBreaker(Config(0.5, 0.2, 10, 60 * BUCKET, 60 * BUCKET), 0), AllFail(seq(10, i => 1)))
    ensures var late := 60 * BUCKET + 2;
            b.state == Dead && b.IsHealthy(late) && Run(b, [Success(late)]).state == Dead
  {
    hide LogCount, Breaker.ErrorRate, Run;
    var b0, times, late := NewBreaker(Config(0.5, 0.2, 10, 60 * BUCKET, 60 * BUCKET), 0), seq(10, i => 1), 60 * BUCKET + 2;
    b := Run(b0, AllFail(times));
    TripsIff(b0, times);
    FailureRun(b0, times);
    LastChangeUpTo(b0, times, 1);
    CountedAtMost(b.log, 0, late - 60 * BUCKET, late);
    NoteCounts(b, late, false);
    assert !b.Note(late, false).ShouldRecover(late);
    RunOne(b, Success(late));
  }

  lemma RunOne(b: Breaker, s: Signal)
    ensures Run(b, [s]) == Step(b, s)
  {
    hide Step;
    assert [s][1..] == [];
  }
}
