/** The three-state circuit breaker: as a value stepped by recorded outcomes, as the object
    driven by two sliding windows, and what holds over every timed run. */
module CircuitBreakers {
  import opened Int64
  import opened SlidingWindows

  /** Both windows use one-second buckets. */
  const BUCKET: int := 1_000_000_000

  datatype Health = Healthy | Degraded | Dead

  datatype Config = Config(
    failureThreshold: real,
    degradedThreshold: real,
    minRequests: int,
    recoveryTimeout: int,
    windowSize: int)
  {
    /** What configuration validation guarantees about the thresholds. */
    predicate Validated() {
      0.0 < degradedThreshold < failureThreshold <= 1.0
    }

    /** The size the sliding windows work with. */
    function Window(): int {
      if windowSize <= 0 then DEFAULT_WINDOW_SIZE else windowSize
    }
  }

  datatype Outcome = Outcome(time: int, failed: bool)

  function RequestEvents(log: seq<Outcome>): seq<Event>
    decreases log
  {
    if log == [] then []
    else RequestEvents(log[..|log| - 1]) + [Event(log[|log| - 1].time, 1)]
  }

  function FailureEvents(log: seq<Outcome>): seq<Event>
    decreases log
  {
    if log == [] then []
    else FailureEvents(log[..|log| - 1]) + if log[|log| - 1].failed then [Event(log[|log| - 1].time, 1)] else []
  }

  function Failures(log: seq<Outcome>): nat
    decreases log
  {
    if log == [] then 0
    else Failures(log[..|log| - 1]) + if log[|log| - 1].failed then 1 else 0
  }

  /** `log` holds the outcomes recorded since the windows were last emptied. */
  datatype Breaker = Breaker(
    cfg: Config,
    state: Health,
    lastStateChange: int,
    lastSuccess: int,
    lastFailure: int,
    log: seq<Outcome>)
  {
    function Requests(now: int): int {
      LogCount(RequestEvents(log), BUCKET, now - cfg.Window(), now)
    }

    function FailureCount(now: int): int {
      LogCount(FailureEvents(log), BUCKET, now - cfg.Window(), now)
    }

    function ErrorRate(now: int): real {
      if Requests(now) == 0 then 0.0 else FailureCount(now) as real / Requests(now) as real
    }

    predicate ShouldTrip(now: int) {
      Requests(now) >= cfg.minRequests && ErrorRate(now) >= cfg.failureThreshold
    }

    predicate ShouldDegrade(now: int) {
      && state == Healthy
      && Requests(now) >= cfg.minRequests
      && cfg.degradedThreshold <= ErrorRate(now) < cfg.failureThreshold
    }

    predicate ShouldRecover(now: int) {
      && state != Healthy
      && ErrorRate(now) <= cfg.degradedThreshold
      && Requests(now) >= Quot(cfg.minRequests, 2)
    }

    function TransitionTo(next: Health, now: int): Breaker {
      if state == next then this
      else this.(state := next, lastStateChange := now, log := if next == Healthy then [] else log)
    }

    /** Enters an outcome in the windows, before any change of state. */
    function Note(now: int, failed: bool): Breaker {
      var b := this.(log := log + [Outcome(now, failed)]);
      if failed then b.(lastFailure := now) else b.(lastSuccess := now)
    }

    function RecordSuccess(now: int): Breaker {
      var b := Note(now, false);
      if b.ShouldRecover(now) then b.TransitionTo(Healthy, now) else b
    }

    function RecordFailure(now: int): Breaker {
      var b := Note(now, true);
      if b.ShouldTrip(now) then b.TransitionTo(Dead, now)
      else if b.ShouldDegrade(now) then b.TransitionTo(Degraded, now)
      else b
    }

    predicate IsHealthy(now: int) {
      state == Dead ==> now - lastStateChange > cfg.recoveryTimeout
    }

    function Reset(): Breaker {
      this.(log := [])
    }
  }

  function NewBreaker(cfg: Config, now: int): Breaker {
    Breaker(cfg, Healthy, now, now, 0, [])
  }

  // ---- The object -----------------------------------------------------------------------------

  class CircuitBreaker {
    const cfg: Config
    const requests: SlidingWindow
    const failures: SlidingWindow
    var state: Health
    var lastStateChange: int
    var lastSuccess: int
    var lastFailure: int

    /** Outcomes recorded since the windows were last emptied. */
    ghost var log: seq<Outcome>

    ghost function View(): Breaker
      reads this
    {
      Breaker(cfg, state, lastStateChange, lastSuccess, lastFailure, log)
    }

    ghost predicate Valid()
      reads this, requests, failures
    {
      && requests != failures
      && requests.Valid() && failures.Valid()
      && requests.bucketSize == failures.bucketSize == BUCKET
      && requests.windowSize == failures.windowSize == cfg.Window()
      && requests.log == RequestEvents(log)
      && failures.log == FailureEvents(log)
      && failures.latest <= requests.latest
    }

    /** No recording so far happened after `now`. */
    ghost predicate UpTo(now: int)
      reads requests
    {
      requests.latest <= now
    }

    constructor (cfg: Config, now: int)
      requires now >= 0
      ensures Valid() && UpTo(now) && View() == NewBreaker(cfg, now)
      ensures fresh(requests) && fresh(failures)
    {
      this.cfg := cfg;
      requests := new SlidingWindow(cfg.windowSize, BUCKET);
      failures := new SlidingWindow(cfg.windowSize, BUCKET);
      state := Healthy;
      lastStateChange := now;
      lastSuccess := now;
      lastFailure := 0;
      log := [];
    }

    method RecordSuccess(now: int)
      requires Valid() && UpTo(now)
      modifies this, requests, failures
      ensures Valid() && UpTo(now) && View() == old(View()).RecordSuccess(now)
    {
      requests.Increment(now);
      log := log + [Outcome(now, false)];
      assert log[..|log| - 1] == old(log);
      lastSuccess := now;
      var recover := ShouldRecover(now);
      if recover {
        TransitionTo(Healthy, now);
      }
    }

    method RecordFailure(now: int)
      requires Valid() && UpTo(now)
      modifies this, requests, failures
      ensures Valid() && UpTo(now) && View() == old(View()).RecordFailure(now)
    {
      requests.Increment(now);
      failures.Increment(now);
      log := log + [Outcome(now, true)];
      assert log[..|log| - 1] == old(log);
      lastFailure := now;
      var trip := ShouldTrip(now);
      if trip {
        TransitionTo(Dead, now);
      } else {
        var degrade := ShouldDegrade(now);
        if degrade {
          TransitionTo(Degraded, now);
        }
      }
    }

    method IsHealthy(now: int) returns (healthy: bool)
      ensures healthy == View().IsHealthy(now)
    {
      if state == Dead {
        return now - lastStateChange > cfg.recoveryTimeout;
      }
      return state == Healthy || state == Degraded;
    }

    method GetErrorRate(now: int) returns (rate: real)
      requires Valid() && UpTo(now)
      ensures rate == View().ErrorRate(now)
    {
      var totalRequests := requests.Count(now);
      if totalRequests == 0 {
        return 0.0;
      }
      var totalFailures := failures.Count(now);
      return totalFailures as real / totalRequests as real;
    }

    method ShouldTrip(now: int) returns (trip: bool)
      requires Valid() && UpTo(now)
      ensures trip == View().ShouldTrip(now)
    {
      var totalRequests := requests.Count(now);
      if totalRequests < cfg.minRequests {
        return false;
      }
      var errorRate := GetErrorRate(now);
      return errorRate >= cfg.failureThreshold;
    }

    method ShouldDegrade(now: int) returns (degrade: bool)
      requires Valid() && UpTo(now)
      ensures degrade == View().ShouldDegrade(now)
    {
      if state != Healthy {
        return false;
      }
      var totalRequests := requests.Count(now);
      if totalRequests < cfg.minRequests {
        return false;
      }
      var errorRate := GetErrorRate(now);
      return errorRate >= cfg.degradedThreshold && errorRate < cfg.failureThreshold;
    }

    method ShouldRecover(now: int) returns (recover: bool)
      requires Valid() && UpTo(now)
      ensures recover == View().ShouldRecover(now)
    {
      if state == Healthy {
        return false;
      }
      var errorRate := GetErrorRate(now);
      if errorRate > cfg.degradedThreshold {
        return false;
      }
      var totalRequests := requests.Count(now);
      return totalRequests >= Quot(cfg.minRequests, 2);
    }

    method TransitionTo(newState: Health, now: int)
      requires Valid() && UpTo(now)
      modifies this, requests, failures
      ensures Valid() && UpTo(now) && View() == old(View()).TransitionTo(newState, now)
    {
      var oldState := state;
      state := newState;
      if oldState != newState {
        lastStateChange := now;
        if newState == Healthy {
          Reset();
        }
      }
    }

    method Reset()
      requires Valid()
      modifies this`log, requests, failures
      ensures Valid() && View() == old(View()).Reset() && requests.latest == old(requests.latest)
    {
      requests.Reset();
      failures.Reset();
      log := [];
    }
  }
}
