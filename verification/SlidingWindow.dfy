/** The bucketed sliding-window counter, measured against the plain log of everything it was
    ever told. */
module SlidingWindows {
  import opened Int64

  const DEFAULT_BUCKET_SIZE: int := 1_000_000_000
  const DEFAULT_WINDOW_SIZE: int := 60_000_000_000

  datatype Event = Event(time: int, delta: int)

  /** The bucket a time falls into (division truncates, as in the source). */
  function Key(time: int, bucketSize: int): int
    requires bucketSize > 0
  {
    Quot(time, bucketSize)
  }

  /** Total of the deltas logged in the buckets `keys`. */
  function Total(log: seq<Event>, keys: set<int>, bucketSize: int): int
    requires bucketSize > 0
    decreases log
  {
    if log == [] then 0
    else
      var last := log[|log| - 1];
      Total(log[..|log| - 1], keys, bucketSize) + if Key(last.time, bucketSize) in keys then last.delta else 0
  }

  /** A bucket counts towards a query when its start lies strictly between the two times. */
  predicate Counted(key: int, bucketSize: int, since: int, now: int) {
    since < key * bucketSize < now
  }

  /** What a window that never forgot a bucket would answer. */
  function LogCount(log: seq<Event>, bucketSize: int, since: int, now: int): int
    requires bucketSize > 0
    decreases log
  {
    if log == [] then 0
    else
      var last := log[|log| - 1];
      LogCount(log[..|log| - 1], bucketSize, since, now)
      + if Counted(Key(last.time, bucketSize), bucketSize, since, now) then last.delta else 0
  }

  /** Total of the deltas of the events with lo <= time <= hi, whatever their buckets. */
  function EventsBetween(log: seq<Event>, lo: int, hi: int): int
    decreases log
  {
    if log == [] then 0
    else
      var last := log[|log| - 1];
      EventsBetween(log[..|log| - 1], lo, hi) + if lo <= last.time <= hi then last.delta else 0
  }

  // ---- Bucket arithmetic ----------------------------------------------------------------

  lemma KeyBounds(time: int, bucketSize: int)
    requires bucketSize > 0 && time >= 0
    ensures 0 <= Key(time, bucketSize)
    ensures Key(time, bucketSize) * bucketSize <= time < Key(time, bucketSize) * bucketSize + bucketSize
  {
    var k := time / bucketSize;
    assert time == k * bucketSize + time % bucketSize;
    if k < 0 {
      MulMonotone(bucketSize, k, -1);
    }
  }

  lemma KeyMonotone(a: int, b: int, bucketSize: int)
    requires bucketSize > 0 && a <= b
    ensures Key(a, bucketSize) <= Key(b, bucketSize)
  {
    QuotMonotone(a, b, bucketSize);
  }

  /** A bucket old enough to be cleaned up at `at` is outside every window queried from then
      on, even when the cutoff lies before time zero. */
  lemma CleanedIsNeverCounted(key: int, bucketSize: int, windowSize: int, at: int, since: int, now: int)
    requires bucketSize > 0 && key >= 0
    requires key < Key(at - windowSize, bucketSize)
    requires at - windowSize <= since
    ensures !Counted(key, bucketSize, since, now)
  {
  }

  // ---- Totals over buckets ----------------------------------------------------------------

  lemma {:induction false} TotalSplit(log: seq<Event>, keys: set<int>, key: int, bucketSize: int)
    requires bucketSize > 0 && key !in keys
    ensures Total(log, keys + {key}, bucketSize) == Total(log, keys, bucketSize) + Total(log, {key}, bucketSize)
    decreases log
  {
    if log != [] {
      TotalSplit(log[..|log| - 1], keys, key, bucketSize);
    }
  }

  lemma {:induction false} TotalOfNone(log: seq<Event>, bucketSize: int)
    requires bucketSize > 0
    ensures Total(log, {}, bucketSize) == 0
    decreases log
  {
    if log != [] {
      TotalOfNone(log[..|log| - 1], bucketSize);
    }
  }

  /** Summing exactly the counted buckets of the log gives the log's own count. */
  lemma {:induction false} TotalIsLogCount(log: seq<Event>, keys: set<int>, bucketSize: int, since: int, now: int)
    requires bucketSize > 0
    requires forall e :: e in log ==>
               (Key(e.time, bucketSize) in keys <==> Counted(Key(e.time, bucketSize), bucketSize, since, now))
    ensures Total(log, keys, bucketSize) == LogCount(log, bucketSize, since, now)
    decreases log
  {
    if log != [] {
      assert log[|log| - 1] in log;
      TotalIsLogCount(log[..|log| - 1], keys, bucketSize, since, now);
    }
  }

  lemma {:induction false} TotalOfUnseen(log: seq<Event>, keys: set<int>, bucketSize: int)
    requires bucketSize > 0
    requires forall e :: e in log ==> Key(e.time, bucketSize) !in keys
    ensures Total(log, keys, bucketSize) == 0
    decreases log
  {
    if log != [] {
      assert log[|log| - 1] in log;
      TotalOfUnseen(log[..|log| - 1], keys, bucketSize);
    }
  }

  // ---- What a count says about events ----------------------------------------------------------

  ghost predicate Plain(log: seq<Event>, now: int) {
    forall e :: e in log ==> 0 <= e.time <= now && e.delta >= 0
  }

  /** A count is never less than the events of the last windowSize - bucketSize (the present
      instant excluded) and never more than those of the last windowSize: bucketing blurs
      only the far edge, by less than one bucket. */
  lemma {:induction false} CountSandwich(log: seq<Event>, bucketSize: int, windowSize: int, now: int)
    requires bucketSize > 0 && Plain(log, now)
    ensures EventsBetween(log, now - windowSize + bucketSize, now - 1)
            <= LogCount(log, bucketSize, now - windowSize, now)
            <= EventsBetween(log, now - windowSize + 1, now)
    decreases log
  {
    if log != [] {
      var e := log[|log| - 1];
      assert e in log;
      KeyBounds(e.time, bucketSize);
      CountSandwich(log[..|log| - 1], bucketSize, windowSize, now);
    }
  }

  // ---- Memory ------------------------------------------------------------------------------------

  function CeilDiv(a: int, b: int): int
    requires b > 0
  {
    (a + b - 1) / b
  }

  lemma {:induction false} RangeSize(keys: set<int>, lo: int, hi: int)
    requires lo <= hi + 1 && forall k :: k in keys ==> lo <= k <= hi
    ensures |keys| <= hi - lo + 1
    decreases hi - lo + 1
  {
    if lo == hi + 1 {
      forall k: int | k in keys ensures false {
      }
    } else {
      assert |keys| <= |keys - {hi}| + 1;
      RangeSize(keys - {hi}, lo, hi - 1);
    }
  }

  /** The keys from the cutoff's to the present one. */
  lemma KeySpan(bucketSize: int, windowSize: int, now: int)
    requires bucketSize > 0 && windowSize > 0 && now >= 0
    ensures var cutoffKey := Key(now - windowSize, bucketSize);
            Key(now, bucketSize) - Max(0, cutoffKey) + 1 <= CeilDiv(windowSize, bucketSize) + 1
  {
    var cutoff := now - windowSize;
    var k, c := Key(now, bucketSize), CeilDiv(windowSize, bucketSize);
    KeyBounds(now, bucketSize);
    assert c * bucketSize >= windowSize by {
      assert windowSize + bucketSize - 1 == c * bucketSize + (windowSize + bucketSize - 1) % bucketSize;
    }
    var from := if cutoff < 0 then 0 else Key(cutoff, bucketSize);
    if cutoff >= 0 {
      KeyBounds(cutoff, bucketSize);
    }
    if k - from > c {
      MulMonotone(bucketSize, from + c + 1, k);
      assert false;
    }
  }

  /** An arbitrary element: ranging over a map visits its keys in no particular order. */
  method Pick<T>(s: set<T>) returns (x: T)
    requires s != {}
    ensures x in s
  {
    x :| x in s;
  }

  // ---- The object ----------------------------------------------------------------------------------

  class SlidingWindow {
    const windowSize: int
    const bucketSize: int
    var buckets: map<int, int>

    /** Everything recorded since creation or the last Reset, oldest first. */
    ghost var log: seq<Event>
    /** Time of the latest increment. */
    ghost var latest: int

    ghost predicate Valid()
      reads this
    {
      && bucketSize > 0 && windowSize > 0 && latest >= 0
      && (forall e :: e in log ==> 0 <= e.time <= latest)
      && (forall k :: k in buckets ==>
            0 <= k <= Key(latest, bucketSize) && buckets[k] == Total(log, {k}, bucketSize))
      && (forall e :: e in log ==>
            Key(e.time, bucketSize) in buckets || Key(e.time, bucketSize) < Key(latest - windowSize, bucketSize))
    }

    constructor (windowSize: int, bucketSize: int)
      ensures Valid() && log == [] && latest == 0
      ensures this.bucketSize == if bucketSize <= 0 then DEFAULT_BUCKET_SIZE else bucketSize
      ensures this.windowSize == if windowSize <= 0 then DEFAULT_WINDOW_SIZE else windowSize
    {
      this.bucketSize := if bucketSize <= 0 then DEFAULT_BUCKET_SIZE else bucketSize;
      this.windowSize := if windowSize <= 0 then DEFAULT_WINDOW_SIZE else windowSize;
      buckets := map[];
      log := [];
      latest := 0;
      new;
      KeyBounds(0, this.bucketSize);
    }

    method Increment(now: int)
      requires Valid() && latest <= now
      modifies this
      ensures Valid() && latest == now && log == old(log) + [Event(now, 1)]
    {
      IncrementBy(1, now);
    }

    /** Adds to the present bucket and drops the buckets that left the window. Afterwards at
        most one bucket more than the window spans is kept, the present one among them. */
    method IncrementBy(delta: int, now: int)
      requires Valid() && latest <= now
      modifies this
      ensures Valid() && latest == now && log == old(log) + [Event(now, delta)]
      ensures |buckets| <= CeilDiv(windowSize, bucketSize) + 1
      ensures Key(now, bucketSize) in buckets
    {
      Add(delta, now);
      Cleanup(now);
      KeyMonotone(now - windowSize, now, bucketSize);
      KeySpan(bucketSize, windowSize, now);
      RangeSize(buckets.Keys, Max(0, Key(now - windowSize, bucketSize)), Key(now, bucketSize));
    }

    /** Adds to the bucket of the present time. */
    method Add(delta: int, now: int)
      requires Valid() && latest <= now
      modifies this
      ensures Valid() && latest == now && log == old(log) + [Event(now, delta)]
      ensures Key(now, bucketSize) in buckets
    {
      var bucketKey := Key(now, bucketSize);
      ghost var before := log;
      KeyBounds(now, bucketSize);
      KeyMonotone(latest, now, bucketSize);
      KeyMonotone(latest - windowSize, now - windowSize, bucketSize);
      if bucketKey !in buckets {
        // A bucket that was dropped can never become the present one again.
        KeyMonotone(latest - windowSize, now, bucketSize);
        TotalOfUnseen(log, {bucketKey}, bucketSize);
      }
      buckets := buckets[bucketKey := (if bucketKey in buckets then buckets[bucketKey] else 0) + delta];
      log := log + [Event(now, delta)];
      latest := now;
      assert log[..|log| - 1] == before;
    }

    /** Deletes, one by one, the buckets older than the cutoff's. */
    method Cleanup(now: int)
      requires bucketSize > 0
      modifies this`buckets
      ensures forall k :: k in buckets <==> k in old(buckets) && k >= Key(now - windowSize, bucketSize)
      ensures forall k :: k in buckets ==> buckets[k] == old(buckets)[k]
    {
      var cutoffKey := Key(now - windowSize, bucketSize);
      var todo := buckets.Keys;
      while todo != {}
        invariant todo <= buckets.Keys <= old(buckets).Keys
        invariant forall k :: k in buckets ==> buckets[k] == old(buckets)[k] && (k in todo || k >= cutoffKey)
        invariant forall k :: k in old(buckets) && k !in buckets ==> k < cutoffKey
        decreases todo
      {
        var bucketKey := Pick(todo);
        todo := todo - {bucketKey};
        if bucketKey < cutoffKey {
          buckets := buckets - {bucketKey};
        }
      }
    }

    /** Count over the window that ends now: exactly what the full log says. */
    method Count(now: int) returns (total: int)
      requires Valid() && latest <= now
      ensures total == LogCount(log, bucketSize, now - windowSize, now)
    {
      total := CountSince(now - windowSize, now);
    }

    /** Sums the kept buckets that start after `since` and before `now`. As long as `since`
        does not reach behind the last cleanup, the answer is that of the full log. */
    method CountSince(since: int, now: int) returns (total: int)
      requires Valid()
      ensures total == Total(log, (set k | k in buckets && Counted(k, bucketSize, since, now)), bucketSize)
      ensures latest - windowSize <= since ==> total == LogCount(log, bucketSize, since, now)
    {
      total := 0;
      var todo := buckets.Keys;
      ghost var summed: set<int> := {};
      TotalOfNone(log, bucketSize);
      while todo != {}
        invariant todo <= buckets.Keys
        invariant summed == set k | k in buckets && k !in todo && Counted(k, bucketSize, since, now)
        invariant total == Total(log, summed, bucketSize)
        decreases todo
      {
        var bucketTime := Pick(todo);
        todo := todo - {bucketTime};
        var timestamp := bucketTime * bucketSize;
        if timestamp > since && timestamp < now {
          total := total + buckets[bucketTime];
          TotalSplit(log, summed, bucketTime, bucketSize);
          summed := summed + {bucketTime};
        }
      }
      assert summed == set k | k in buckets && Counted(k, bucketSize, since, now);
      if latest - windowSize <= since {
        forall e | e in log
          ensures Key(e.time, bucketSize) in summed <==> Counted(Key(e.time, bucketSize), bucketSize, since, now)
        {
          KeyBounds(e.time, bucketSize);
          if Key(e.time, bucketSize) !in buckets {
            CleanedIsNeverCounted(Key(e.time, bucketSize), bucketSize, windowSize, latest, since, now);
          }
        }
        TotalIsLogCount(log, summed, bucketSize, since, now);
      }
    }

    method Reset()
      requires Valid()
      modifies this
      ensures Valid() && log == [] && latest == old(latest)
    {
      buckets := map[];
      log := [];
    }
  }
}
