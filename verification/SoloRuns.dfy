/** A worker that is not interrupted does what the sequential specifications say: its
    selection is the rotation of Selector.dfy, and its request has the effects of the client
    object. The laws proved for those therefore hold for the running pool as well. */
module SoloRuns {
  import opened Int64
  import opened TokenBuckets
  import opened CircuitBreakers
  import opened ProxyClients
  import opened Selectors
  import opened WorkerSystem
  import opened PoolSafety
  import M = TokenBucketMachine

  // ---- Runs of one worker -------------------------------------------------------------------------

  lemma RunOne(s: System, l: Label)
    requires Shape(s) && Enabled(s, l)
    ensures Possible(s, [l]) && Run(s, [l]) == Step(s, l)
  {
  }

  lemma {:induction false} RunConcat(s: System, a: seq<Label>, b: seq<Label>)
    requires Possible(s, a) && Possible(Run(s, a), b)
    ensures Possible(s, a + b) && Run(s, a + b) == Run(Run(s, a), b)
    decreases a
  {
    hide Step, Shape, Enabled;
    if a == [] {
      assert a + b == b;
    } else {
      assert (a + b)[1..] == a[1..] + b;
      RunConcat(Step(s, a[0]), a[1..], b);
    }
  }

  ghost predicate OnlyWorker(labels: seq<Label>, w: nat) {
    forall l :: l in labels ==> l.Work? && l.worker == w
  }

  /** The state `labels` of worker `w` alone lead to. */
  ghost predicate Leads(s: System, labels: seq<Label>, w: nat, s': System) {
    Possible(s, labels) && OnlyWorker(labels, w) && Run(s, labels) == s'
  }

  lemma LeadsOne(s: System, w: nat, c: Choice)
    requires WorkPossible(s, w, c)
    ensures Leads(s, [Work(w, c)], w, WorkStep(s, w, c)) && Shape(WorkStep(s, w, c))
  {
    hide WorkStep, WorkEnabled;
    RunOne(s, Work(w, c));
    WorkKeepsShape(s, w, c);
  }

  lemma LeadsOn(s: System, a: seq<Label>, w: nat, mid: System, b: seq<Label>, end: System)
    requires Leads(s, a, w, mid) && Leads(mid, b, w, end)
    ensures Leads(s, a + b, w, end)
  {
    hide Shape, Step, Run, Possible;
    RunConcat(s, a, b);
  }

  // ---- One call of a limiter -------------------------------------------------------------------------

  function At(t: int): nat -> int {
    (k: nat) => t
  }

  /** Worker `w` is not in the middle of any limiter call. */
  predicate Settled(s: System, w: nat) {
    forall p :: 0 <= p < |s.proxies| ==> SettledAt(s.proxies[p], w)
  }

  predicate SettledAt(p: Proxy, w: nat) {
    p.limiter.Some? ==> w < |p.limiter.value.threads| && p.limiter.value.threads[w] == M.Idle
  }

  /** The state with proxy `p` and the place of worker `w` replaced. */
  function Moved(s: System, w: nat, place: Worker, p: nat, proxy: Proxy): System
    requires w < |s.workers| && p < |s.proxies|
  {
    s.(workers := s.workers[w := place], proxies := s.proxies[p := proxy])
  }

  /** Inside the rate limiter of proxy `p` the worker's next action is the thread's next. */
  lemma TokenAction(s: System, w: nat, p: nat)
    requires Shape(s) && w < |s.workers| && p < |s.proxies| && AtLimiter(s, w, p)
    ensures WorkEnabled(s, w, Go)
    ensures var b, pc := s.proxies[p].limiter.value, s.workers[w];
            && w < |b.threads|
            && WorkStep(s, w, Go)
               == Moved(s, w, if !b.threads[w].Done? then pc
                              else if b.threads[w].granted then Waiting(pc.job, p)
                              else Undoing(pc.job, pc.start, pc.round),
                        p, s.proxies[p].(limiter := Some(CallStep(b, w, s.clock))))
  {
  }

  /** Where a visit to the rate limiter of proxy `p` ends that leaves it as `b'`. */
  function AfterCall(s: System, w: nat, p: nat, b': M.State): System
    requires Shape(s) && w < |s.workers| && p < |s.proxies| && AtLimiter(s, w, p)
  {
    var b, pc := s.proxies[p].limiter.value, s.workers[w];
    var place := if b'.returned > b.returned then Waiting(pc.job, p) else Undoing(pc.job, pc.start, pc.round);
    Moved(s, w, place, p, s.proxies[p].(limiter := Some(b')))
  }

  /** A whole call of the bucket's thread is a whole visit of the worker to the limiter. */
  lemma {:induction false} LiftCall(s: System, w: nat, p: nat, calls: seq<M.Label>) returns (labels: seq<Label>)
    requires Shape(s) && w < |s.workers| && p < |s.proxies| && AtLimiter(s, w, p)
    requires M.Possible(s.proxies[p].limiter.value, calls) && M.SoloCall(calls, w, s.clock)
    ensures Leads(s, labels, w, AfterCall(s, w, p, M.Run(s.proxies[p].limiter.value, calls)))
    decreases calls
  {
    hide M.Step, M.AtomicStep, Leads, WorkStep;
    var b := s.proxies[p].limiter.value;
    TokenAction(s, w, p);
    var s1 := WorkStep(s, w, Go);
    LeadsOne(s, w, Go);
    CallIsNext(b, w, s.clock, calls);
    labels := [Work(w, Go)];
    if |calls| > 1 {
      assert s1.workers == s.workers;
      assert s1.proxies[p] == s.proxies[p].(limiter := Some(CallStep(b, w, s.clock)));
      var b' := M.Run(b, calls);
      var rest := LiftCall(s1, w, p, calls[1..]);
      assert AfterCall(s1, w, p, b').proxies == AfterCall(s, w, p, b').proxies;
      assert AfterCall(s1, w, p, b') == AfterCall(s, w, p, b');
      LeadsOn(s, labels, w, s1, rest, AfterCall(s, w, p, b'));
      labels := labels + rest;
    } else {
      assert M.Run(b, calls) == CallStep(b, w, s.clock) by { OneCall(b, w, s.clock, calls); }
    }
  }

  lemma OneCall(b: M.State, w: nat, now: int, calls: seq<M.Label>)
    requires M.Possible(b, calls) && M.SoloCall(calls, w, now) && |calls| == 1
    ensures w < |b.threads| && M.Run(b, calls) == CallStep(b, w, now)
  {
  }

  lemma CallIsNext(b: M.State, w: nat, now: int, calls: seq<M.Label>)
    requires M.Possible(b, calls) && M.SoloCall(calls, w, now)
    ensures w < |b.threads| && calls[0] == NextCall(b, w, now)
    ensures b.threads[w].Done? <==> |calls| == 1
    ensures CallStep(b, w, now).returned == b.returned + (if b.threads[w] == M.Done(true) then 1 else 0)
  {
  }

  // ---- One attempt at a domain limit ------------------------------------------------------------------

  /** Proxy `p` with its bucket for domain `d` replaced. */
  function WithDomain(p: Proxy, d: string, b: M.State): Proxy {
    p.(domains := p.domains[d := b])
  }

  lemma DomainAction(s: System, w: nat, p: nat, d: string)
    requires Shape(s) && w < |s.workers| && p < |s.proxies| && AtDomain(s, w, p, d)
    ensures WorkEnabled(s, w, Go)
    ensures var b, pc := s.proxies[p].domains[d], s.workers[w];
            && w < |b.threads|
            && WorkStep(s, w, Go)
               == Moved(s, w, if b.threads[w] == M.Done(true) then Sending(pc.job, p) else pc,
                        p, WithDomain(s.proxies[p], d, CallStep(b, w, s.clock)))
  {
  }

  function AfterDomainCall(s: System, w: nat, p: nat, d: string, b': M.State): System
    requires Shape(s) && w < |s.workers| && p < |s.proxies| && AtDomain(s, w, p, d)
  {
    var b, pc := s.proxies[p].domains[d], s.workers[w];
    Moved(s, w, if b'.returned > b.returned then Sending(pc.job, p) else pc, p, WithDomain(s.proxies[p], d, b'))
  }

  lemma {:induction false} LiftDomainCall(s: System, w: nat, p: nat, d: string, calls: seq<M.Label>)
    returns (labels: seq<Label>)
    requires Shape(s) && w < |s.workers| && p < |s.proxies| && AtDomain(s, w, p, d)
    requires M.Possible(s.proxies[p].domains[d], calls) && M.SoloCall(calls, w, s.clock)
    ensures Leads(s, labels, w, AfterDomainCall(s, w, p, d, M.Run(s.proxies[p].domains[d], calls)))
    decreases calls
  {
    hide M.Step, M.AtomicStep, Leads, WorkStep;
    var b := s.proxies[p].domains[d];
    DomainAction(s, w, p, d);
    var s1 := WorkStep(s, w, Go);
    LeadsOne(s, w, Go);
    CallIsNext(b, w, s.clock, calls);
    labels := [Work(w, Go)];
    if |calls| > 1 {
      assert s1.workers == s.workers;
      assert s1.proxies[p] == WithDomain(s.proxies[p], d, CallStep(b, w, s.clock));
      var b' := M.Run(b, calls);
      var rest := LiftDomainCall(s1, w, p, d, calls[1..]);
      assert WithDomain(s1.proxies[p], d, b') == WithDomain(s.proxies[p], d, b');
      assert AfterDomainCall(s1, w, p, d, b').proxies == AfterDomainCall(s, w, p, d, b').proxies;
      assert AfterDomainCall(s1, w, p, d, b') == AfterDomainCall(s, w, p, d, b');
      LeadsOn(s, labels, w, s1, rest, AfterDomainCall(s, w, p, d, b'));
      labels := labels + rest;
    } else {
      OneCall(b, w, s.clock, calls);
    }
  }

  /** One attempt at a domain limit asks the domain's bucket for a token: with one, the
      request goes out; without, the worker is back where it was, to wait and try again. */
  lemma SoloDomainAttempt(s: System, w: nat, p: nat, d: string) returns (labels: seq<Label>, b': M.State)
    requires Shape(s) && w < |s.workers| && p < |s.proxies| && AtDomain(s, w, p, d)
    requires w < |s.proxies[p].domains[d].threads| && s.proxies[p].domains[d].threads[w] == M.Idle
    ensures var b := s.proxies[p].domains[d];
            var (bucket, granted) := b.bucket.TryAcquire(s.clock);
            && b'.bucket == bucket && b'.threads == b.threads
            && Leads(s, labels, w, Moved(s, w, if granted then Sending(s.workers[w].job, p) else s.workers[w],
                                         p, WithDomain(s.proxies[p], d, b')))
  {
    hide Leads, Bucket.TryAcquire, M.Run, M.Possible;
    var b := s.proxies[p].domains[d];
    var calls := M.SoloTryAcquire(b, w, s.clock);
    b' := M.Run(b, calls);
    labels := LiftDomainCall(s, w, p, d, calls);
  }

  /** Where no limit applies the request goes out at once. */
  lemma SoloUnlimited(s: System, w: nat, job: Job, p: nat)
    requires Shape(s) && w < |s.workers| && s.workers[w] == Waiting(job, p) && p < |s.proxies|
    requires job.domain !in s.proxies[p].domains
    ensures Leads(s, [Work(w, Go)], w, Placed(s, w, Sending(job, p)))
  {
    hide Leads;
    LeadsOne(s, w, Go);
  }

  // ---- One round of a selection -------------------------------------------------------------------------

  /** A proxy of the running pool as the selector's specification sees it. */
  function ViewOf(p: Proxy): Client {
    Client(p.slotCapacity, p.slots, p.breaker, if p.limiter.None? then None else Some(p.limiter.value.bucket))
  }

  function Views(proxies: seq<Proxy>): (v: seq<Client>)
    ensures |v| == |proxies|
  {
    seq(|proxies|, i requires 0 <= i < |proxies| => ViewOf(proxies[i]))
  }

  ghost predicate SelectingAt(s: System, w: nat, pc: Worker) {
    Shape(s) && w < |s.workers| && s.workers[w] == pc && Settled(s, w)
  }

  function Placed(s: System, w: nat, place: Worker): System
    requires w < |s.workers|
  {
    s.(workers := s.workers[w := place])
  }

  lemma CheckAction(s: System, w: nat, job: Job, start: nat, round: nat)
    requires SelectingAt(s, w, Checking(job, start, round))
    ensures WorkPossible(s, w, Go)
    ensures WorkStep(s, w, Go)
            == Placed(s, w, if round >= s.maxRetries || job in s.cancelled then Tallying(job, None, false)
                            else Probing(job, start, round))
  {
  }

  lemma ProbeAction(s: System, w: nat, job: Job, start: nat, round: nat)
    requires SelectingAt(s, w, Probing(job, start, round))
    ensures WorkPossible(s, w, Go)
    ensures WorkStep(s, w, Go)
            == Placed(s, w, if ViewOf(s.proxies[Index(s, start, round)]).Healthy(s.clock) then Slotting(job, start, round)
                            else Checking(job, start, round + 1))
  {
  }

  lemma SlotAction(s: System, w: nat, job: Job, start: nat, round: nat)
    requires SelectingAt(s, w, Slotting(job, start, round))
    ensures WorkPossible(s, w, Go)
    ensures var p := Index(s, start, round);
            WorkStep(s, w, Go)
            == if SlotFree(s.proxies[p]) then Moved(s, w, Tokening(job, start, round), p, Occupy(s.proxies[p]))
               else Placed(s, w, Checking(job, start, round + 1))
  {
  }

  lemma NoLimitAction(s: System, w: nat, job: Job, start: nat, round: nat)
    requires SelectingAt(s, w, Tokening(job, start, round))
    requires s.proxies[Index(s, start, round)].limiter.None?
    ensures WorkPossible(s, w, Go)
    ensures WorkStep(s, w, Go) == Placed(s, w, Waiting(job, Index(s, start, round)))
  {
  }

  lemma UndoAction(s: System, w: nat, job: Job, start: nat, round: nat)
    requires SelectingAt(s, w, Undoing(job, start, round))
    requires CanRelease(s.proxies[Index(s, start, round)])
    ensures WorkPossible(s, w, Go)
    ensures var p := Index(s, start, round);
            WorkStep(s, w, Go) == Moved(s, w, Checking(job, start, round + 1), p, Release(s.proxies[p]))
  {
  }

  /** The token stage alone: the slot is already taken. */
  lemma SoloToken(s: System, w: nat, job: Job, start: nat, round: nat) returns (labels: seq<Label>, end: System)
    requires SelectingAt(s, w, Tokening(job, start, round))
    requires var proxy := s.proxies[Index(s, start, round)]; proxy.slotCapacity > 0 ==> proxy.slots > 0
    ensures Leads(s, labels, w, end) && Shape(end) && Settled(end, w) && |end.proxies| == |s.proxies|
    ensures var p := Index(s, start, round);
            var v := ViewOf(s.proxies[p]);
            && end == Moved(s, w, if v.TokenReady(s.clock) then Waiting(job, p) else Checking(job, start, round + 1),
                            p, end.proxies[p])
            && ViewOf(end.proxies[p])
               == (if v.TokenReady(s.clock) then v.AskToken(s.clock)
                   else v.AskToken(s.clock).(slots := if v.slotCapacity == 0 then v.slots else v.slots - 1))
  {
    hide WorkStep, Leads, Bucket.TryAcquire;
    var p := Index(s, start, round);
    assert SettledAt(s.proxies[p], w);
    if s.proxies[p].limiter.None? {
      NoLimitAction(s, w, job, start, round);
      LeadsOne(s, w, Go);
      labels, end := [Work(w, Go)], WorkStep(s, w, Go);
      assert end.proxies[p := end.proxies[p]] == end.proxies;
    } else {
      var b := s.proxies[p].limiter.value;
      var calls := M.SoloTryAcquire(b, w, s.clock);
      labels := LiftCall(s, w, p, calls);
      end := AfterCall(s, w, p, M.Run(b, calls));
      LeadsShape(s, labels, w, end);
      if !ViewOf(s.proxies[p]).TokenReady(s.clock) {
        var mid := end;
        assert mid.workers[w] == Undoing(job, start, round);
        assert Settled(mid, w);
        UndoAction(mid, w, job, start, round);
        LeadsOne(mid, w, Go);
        end := WorkStep(mid, w, Go);
        LeadsOn(s, labels, w, mid, [Work(w, Go)], end);
        labels := labels + [Work(w, Go)];
        assert end.workers == s.workers[w := Checking(job, start, round + 1)];
        assert end.proxies == s.proxies[p := end.proxies[p]];
      }
    }
  }

  lemma {:induction false} LeadsShape(s: System, labels: seq<Label>, w: nat, end: System)
    requires Shape(s) && Leads(s, labels, w, end)
    ensures Shape(end)
    decreases labels
  {
    hide WorkStep, WorkEnabled, Shape;
    if labels != [] {
      assert labels[0] in labels;
      WorkKeepsShape(s, w, labels[0].choice);
      assert OnlyWorker(labels[1..], w);
      LeadsShape(Step(s, labels[0]), labels[1..], w, end);
    }
  }

  /** Taking a slot, asking for a token, and undoing the slot, in terms of the proxy's view. */
  lemma SlotThenToken(v: Client, now: int)
    requires v.Healthy(now) && v.SlotFree()
    ensures var u := v.TakeSlot();
            && u.TokenReady(now) == v.TokenReady(now)
            && Visit(v, now)
               == if u.TokenReady(now) then (u.AskToken(now), true)
                  else (u.AskToken(now).(slots := if u.slotCapacity == 0 then u.slots else u.slots - 1), false)
  {
  }

  /** The second and third check alone. */
  lemma SoloSlot(s: System, w: nat, job: Job, start: nat, round: nat) returns (labels: seq<Label>, end: System)
    requires SelectingAt(s, w, Slotting(job, start, round))
    requires ViewOf(s.proxies[Index(s, start, round)]).Healthy(s.clock)
    ensures Leads(s, labels, w, end) && Shape(end) && Settled(end, w) && |end.proxies| == |s.proxies|
    ensures var p := Index(s, start, round);
            var (v, chosen) := Visit(ViewOf(s.proxies[p]), s.clock);
            && end == Moved(s, w, if chosen then Waiting(job, p) else Checking(job, start, round + 1), p, end.proxies[p])
            && ViewOf(end.proxies[p]) == v
  {
    hide WorkStep, Leads, Bucket.TryAcquire, Client.TokenReady, Client.Healthy, Client.AskToken;
    var p, go := Index(s, start, round), [Work(w, Go)];
    var proxy := s.proxies[p];
    SlotAction(s, w, job, start, round);
    LeadsOne(s, w, Go);
    labels, end := go, WorkStep(s, w, Go);
    if SlotFree(proxy) {
      var mid := end;
      assert SettledAt(proxy, w);
      assert Settled(mid, w);
      SlotThenToken(ViewOf(proxy), s.clock);
      assert ViewOf(mid.proxies[p]) == ViewOf(proxy).TakeSlot();
      var more, last := SoloToken(mid, w, job, start, round);
      LeadsOn(s, labels, w, mid, more, last);
      labels, end := labels + more, last;
      assert end.proxies == s.proxies[p := end.proxies[p]];
      assert end.workers == s.workers[w := end.workers[w]];
    } else {
      assert s.proxies[p := proxy] == s.proxies;
    }
  }

  /** One round alone: the three checks of Select on the proxy whose turn it is. */
  lemma SoloVisit(s: System, w: nat, job: Job, start: nat, round: nat) returns (labels: seq<Label>, end: System)
    requires SelectingAt(s, w, Checking(job, start, round)) && round < s.maxRetries && job !in s.cancelled
    ensures Leads(s, labels, w, end) && Shape(end) && Settled(end, w) && |end.proxies| == |s.proxies|
    ensures var p := Index(s, start, round);
            var (v, chosen) := Visit(ViewOf(s.proxies[p]), s.clock);
            && end == Moved(s, w, if chosen then Waiting(job, p) else Checking(job, start, round + 1), p, end.proxies[p])
            && ViewOf(end.proxies[p]) == v
  {
    hide WorkStep, Leads, Bucket.TryAcquire, Client.TokenReady, Client.Healthy, Client.AskToken;
    var p, go := Index(s, start, round), [Work(w, Go)];
    CheckAction(s, w, job, start, round);
    LeadsOne(s, w, Go);
    var s1 := WorkStep(s, w, Go);
    ProbeAction(s1, w, job, start, round);
    LeadsOne(s1, w, Go);
    var s2 := WorkStep(s1, w, Go);
    LeadsOn(s, go, w, s1, go, s2);
    labels, end := go + go, s2;
    if ViewOf(s.proxies[p]).Healthy(s.clock) {
      var more, last := SoloSlot(s2, w, job, start, round);
      LeadsOn(s, labels, w, s2, more, last);
      labels, end := labels + more, last;
    } else {
      assert s.proxies[p := s.proxies[p]] == s.proxies;
    }
    assert end.workers == s.workers[w := end.workers[w]];
  }

  /** A selection that is not interrupted ends exactly as the rotation of Select says: on the
      proxy it chooses, with the slot and the token it takes, or with none. */
  lemma {:induction false} SoloSelect(s: System, w: nat, job: Job, start: nat, round: nat)
    returns (labels: seq<Label>, end: System)
    requires SelectingAt(s, w, Checking(job, start, round))
    ensures Leads(s, labels, w, end) && Shape(end) && Settled(end, w)
    ensures var scan := ScanFrom(Views(s.proxies), start, round, s.maxRetries, At(s.clock),
                                 if job in s.cancelled then 0 else s.maxRetries);
            && Views(end.proxies) == scan.views
            && end == s.(workers := s.workers[w := if scan.selection.Selected? then Waiting(job, scan.selection.index)
                                                   else Tallying(job, None, false)],
                         proxies := end.proxies)
    decreases s.maxRetries - round
  {
    hide WorkStep, Leads, Visit, ViewOf;
    if round >= s.maxRetries || job in s.cancelled {
      CheckAction(s, w, job, start, round);
      LeadsOne(s, w, Go);
      labels, end := [Work(w, Go)], WorkStep(s, w, Go);
    } else {
      var p := Index(s, start, round);
      labels, end := SoloVisit(s, w, job, start, round);
      assert Views(end.proxies) == Views(s.proxies)[p := ViewOf(end.proxies[p])];
      if end.workers[w] == Checking(job, start, round + 1) {
        var mid := end;
        var rest, last := SoloSelect(mid, w, job, start, round + 1);
        LeadsOn(s, labels, w, mid, rest, last);
        labels, end := labels + rest, last;
        assert mid.workers[w := end.workers[w]] == s.workers[w := end.workers[w]];
      }
    }
  }

  // ---- Submission and shutdown ---------------------------------------------------------------------------

  /** A new job is accepted exactly while the queue is open and has room, and then is last. */
  lemma SubmitExact(s: System, job: Job)
    requires Shape(s) && job !in s.accepted
    ensures Enabled(s, Submit(job)) <==> !s.closed && |s.queue| < s.queueSize
    ensures Enabled(s, Submit(job)) ==>
              var s' := Step(s, Submit(job));
              && s'.queue == s.queue + [job] && s'.accepted == s.accepted + {job}
              && s'.workers == s.workers && s'.proxies == s.proxies && s'.answered == s.answered
  {
  }

  /** Stopping an open pool ends its context and closes its queue, for good and for every
      job, and touches nothing else. */
  lemma StopExact(s: System, job: Job)
    requires Shape(s) && !s.closed
    ensures Possible(s, [CancelPool] + [CloseQueue])
    ensures var s' := Run(s, [CancelPool] + [CloseQueue]);
            s' == s.(stopping := true, closed := true) && Shape(s') && !Enabled(s', Submit(job))
  {
    var s1 := Step(s, CancelPool);
    assert Shape(s1) && Shape(Step(s1, CloseQueue)) by { ShapeKept(s); }
    RunOne(s, CancelPool);
    RunOne(s1, CloseQueue);
    RunConcat(s, [CancelPool], [CloseQueue]);
  }

  lemma ShapeKept(s: System)
    requires Shape(s)
    ensures Shape(s.(stopping := true)) && Shape(s.(stopping := true, closed := true))
  {
    var s1, s2 := s.(stopping := true), s.(stopping := true, closed := true);
    assert forall p :: 0 <= p < |s.proxies| ==> ProxyShape(s, s.proxies[p]) ==> ProxyShape(s1, s1.proxies[p]) && ProxyShape(s2, s2.proxies[p]);
    assert forall w :: 0 <= w < |s.workers| ==> WorkerShape(s, s.workers[w]) ==> WorkerShape(s1, s1.workers[w]) && WorkerShape(s2, s2.workers[w]);
  }

  // ---- The rest of a job ------------------------------------------------------------------------------------

  /** From taking a job to the first round: the job is counted and a ticket drawn, so that the
      rotation starts one further than for the previous job. */
  lemma SoloStart(s: System, w: nat, job: Job)
    requires Shape(s) && w < |s.workers| && s.workers[w] == Dequeued(job)
    ensures var next := (s.ticket + 1) % TWO_64;
            Leads(s, [Work(w, Go)] + [Work(w, Go)], w,
                  Placed(s, w, Checking(job, next % |s.proxies|, 0)).(totalJobs := s.totalJobs + 1, ticket := next))
  {
    hide Leads;
    LeadsOne(s, w, Go);
    var s1 := WorkStep(s, w, Go);
    LeadsOne(s1, w, Go);
    var s2 := WorkStep(s1, w, Go);
    LeadsOn(s, [Work(w, Go)], w, s1, [Work(w, Go)], s2);
    assert s2.workers == s.workers[w := s2.workers[w]];
  }

  /** The state after worker `w` has answered `job` and become idle again. */
  function AnsweredWith(s: System, w: nat, job: Job, ok: bool): System
    requires w < |s.workers|
  {
    Placed(s, w, Idle).(answered := s.answered[job := ok],
                        successJobs := s.successJobs + (if ok then 1 else 0),
                        failedJobs := s.failedJobs + (if ok then 0 else 1))
  }

  /** A job for which no proxy was selected is answered as failed and holds nothing. */
  lemma SoloRefusal(s: System, w: nat, job: Job)
    requires Shape(s) && w < |s.workers| && s.workers[w] == Tallying(job, None, false) && job !in s.answered
    ensures Leads(s, [Work(w, Go)] + [Work(w, Go)], w, AnsweredWith(s, w, job, false))
  {
    hide Leads;
    LeadsOne(s, w, Go);
    var s1 := WorkStep(s, w, Go);
    LeadsOne(s1, w, Go);
    var s2 := WorkStep(s1, w, Go);
    LeadsOn(s, [Work(w, Go)], w, s1, [Work(w, Go)], s2);
    assert s2.workers == s.workers[w := Idle];
  }

  /** From tallying to idle with a slot held: the answer is sent and the slot released. */
  lemma SoloAnswer(s: System, w: nat, job: Job, p: nat, ok: bool) returns (labels: seq<Label>)
    requires Shape(s) && w < |s.workers| && s.workers[w] == Tallying(job, Some(p), ok) && job !in s.answered
    requires p < |s.proxies| && CanRelease(s.proxies[p])
    ensures Leads(s, labels, w, AnsweredWith(s, w, job, ok).(proxies := s.proxies[p := Release(s.proxies[p])]))
  {
    hide Leads;
    var go := [Work(w, Go)];
    LeadsOne(s, w, Go);
    var s1 := WorkStep(s, w, Go);
    LeadsOne(s1, w, Go);
    var s2 := WorkStep(s1, w, Go);
    LeadsOne(s2, w, Go);
    var s3 := WorkStep(s2, w, Go);
    LeadsOn(s1, go, w, s2, go, s3);
    LeadsOn(s, go, w, s1, go + go, s3);
    labels := go + (go + go);
    assert s3.workers == s.workers[w := Idle];
  }

  function AfterExchange(s: System, w: nat, job: Job, p: nat, reply: Reply): System
    requires w < |s.workers| && p < |s.proxies|
  {
    Moved(s, w, Tallying(job, Some(p), reply.Status?), p, Report(s.proxies[p], reply, s.clock))
      .(sent := s.sent + [Sent(p, job.domain)], history := s.history.(replies := s.history.replies[job := reply]))
  }

  lemma SoloExchange(s: System, w: nat, job: Job, p: nat, reply: Reply)
    requires Shape(s) && w < |s.workers| && s.workers[w] == Sending(job, p) && p < |s.proxies|
    ensures Leads(s, [Work(w, Go)] + [Work(w, Receive(reply))], w, AfterExchange(s, w, job, p, reply))
  {
    hide Leads, Report;
    LeadsOne(s, w, Go);
    var s1 := WorkStep(s, w, Go);
    LeadsOne(s1, w, Receive(reply));
    var s2 := WorkStep(s1, w, Receive(reply));
    LeadsOn(s, [Work(w, Go)], w, s1, [Work(w, Receive(reply))], s2);
    assert s2.workers == s.workers[w := s2.workers[w]];
  }

  /** A request that is not interrupted: it is sent once, through the selected proxy; the
      breaker is told of a failure for a transport error or a status of 400 or more, and of
      a success otherwise; the job succeeds unless the transport failed; the slot is free
      again; nothing else changes. */
  lemma SoloRequest(s: System, w: nat, job: Job, p: nat, reply: Reply) returns (labels: seq<Label>, end: System)
    requires Shape(s) && w < |s.workers| && s.workers[w] == Sending(job, p) && job !in s.answered
    requires p < |s.proxies| && CanRelease(s.proxies[p])
    ensures Leads(s, labels, w, end)
    ensures end == AnsweredWith(s, w, job, reply.Status?).(proxies := end.proxies,
                                                           sent := s.sent + [Sent(p, job.domain)],
                                                           history := s.history.(replies := s.history.replies[job := reply]))
    ensures |end.proxies| == |s.proxies| && end.proxies == s.proxies[p := end.proxies[p]]
    ensures var a, b := s.proxies[p], end.proxies[p];
            && b.slots == (if a.slotCapacity > 0 then a.slots - 1 else a.slots)
            && b == a.(slots := b.slots, breaker := b.breaker)
            && b.breaker == (if a.breaker.None? then None
                             else if reply.TransportError? || reply.code >= 400 then
                               Some(a.breaker.value.RecordFailure(s.clock))
                             else Some(a.breaker.value.RecordSuccess(s.clock)))
  {
    hide Leads, Breaker.RecordFailure, Breaker.RecordSuccess;
    SoloExchange(s, w, job, p, reply);
    var s2 := AfterExchange(s, w, job, p, reply);
    LeadsShape(s, [Work(w, Go)] + [Work(w, Receive(reply))], w, s2);
    var rest := SoloAnswer(s2, w, job, p, reply.Status?);
    end := AnsweredWith(s2, w, job, reply.Status?).(proxies := s2.proxies[p := Release(s2.proxies[p])]);
    LeadsOn(s, [Work(w, Go)] + [Work(w, Receive(reply))], w, s2, rest, end);
    labels := [Work(w, Go)] + [Work(w, Receive(reply))] + rest;
    assert end.workers == s.workers[w := Idle];
    assert end.proxies == s.proxies[p := end.proxies[p]];
  }

  lemma GiveUpAction(s: System, w: nat, job: Job, p: nat)
    requires Shape(s) && w < |s.workers| && s.workers[w] == Waiting(job, p) && p < |s.proxies| && job in s.cancelled
    requires job.domain in s.proxies[p].domains && w < |s.proxies[p].domains[job.domain].threads|
    requires s.proxies[p].domains[job.domain].threads[w] == M.Done(false)
    ensures WorkPossible(s, w, Leave)
    ensures WorkStep(s, w, Leave)
            == Moved(s, w, Tallying(job, Some(p), false), p,
                     WithDomain(s.proxies[p], job.domain, CallStep(s.proxies[p].domains[job.domain], w, s.clock)))
  {
    hide CallStep;
  }

  lemma RefusalReturned(b: M.State, w: nat, now: int)
    requires w < |b.threads| && b.threads[w] == M.Done(false)
    ensures CallStep(b, w, now) == b.(threads := b.threads[w := M.Idle])
  {
  }

  /** A job whose context ends while it waits for a domain token: no request is sent, the job
      is answered as failed, its slot is free again, and the bucket keeps its tokens. */
  lemma SoloTimeout(s: System, w: nat, job: Job, p: nat) returns (labels: seq<Label>, end: System)
    requires Shape(s) && w < |s.workers| && s.workers[w] == Waiting(job, p) && p < |s.proxies|
    requires job in s.cancelled && job !in s.answered && CanRelease(s.proxies[p])
    requires job.domain in s.proxies[p].domains && w < |s.proxies[p].domains[job.domain].threads|
    requires s.proxies[p].domains[job.domain].threads[w] == M.Done(false)
    ensures Leads(s, labels, w, end)
    ensures end == AnsweredWith(s, w, job, false).(proxies := end.proxies)
    ensures |end.proxies| == |s.proxies| && end.proxies == s.proxies[p := end.proxies[p]]
    ensures var a, b := s.proxies[p], end.proxies[p];
            && b.slots == (if a.slotCapacity > 0 then a.slots - 1 else a.slots)
            && b == a.(slots := b.slots, domains := b.domains)
            && b.domains.Keys == a.domains.Keys
            && (forall d :: d in a.domains && d != job.domain ==> b.domains[d] == a.domains[d])
            && b.domains[job.domain].bucket == a.domains[job.domain].bucket
            && b.domains[job.domain].grants == a.domains[job.domain].grants
            && b.domains[job.domain].threads == a.domains[job.domain].threads[w := M.Idle]
  {
    hide Leads, WorkStep, CallStep;
    var b' := CallStep(s.proxies[p].domains[job.domain], w, s.clock);
    GiveUpAction(s, w, job, p);
    RefusalReturned(s.proxies[p].domains[job.domain], w, s.clock);
    LeadsOne(s, w, Leave);
    var s1 := WorkStep(s, w, Leave);
    var rest := SoloAnswer(s1, w, job, p, false);
    end := AnsweredWith(s1, w, job, false).(proxies := s1.proxies[p := Release(s1.proxies[p])]);
    LeadsOn(s, [Work(w, Leave)], w, s1, rest, end);
    labels := [Work(w, Leave)] + rest;
    assert end.workers == s.workers[w := Idle];
    assert end.proxies == s.proxies[p := end.proxies[p]];
  }
}
