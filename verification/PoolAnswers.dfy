/** That the pool's answers are true, and that its queue is fair: a job is answered as a
    success exactly if the proxy replied to it with a status, and jobs are taken in the order
    in which they were submitted. */
module PoolAnswers {
  import opened ProxyClients
  import opened WorkerSystem
  import opened PoolSafety
  import opened PoolGuarantees

  // ---- A held job is nowhere else ------------------------------------------------------------------

  lemma {:induction false} HeldTwice(workers: seq<Worker>, v: nat, w: nat, job: Job)
    requires v < w < |workers| && JobOf(workers[v]) == Some(job) == JobOf(workers[w])
    ensures Held(workers)[job] >= 2
  {
    if v > 0 {
      HeldTwice(workers[1..], v - 1, w - 1, job);
    } else {
      HeldContains(workers[1..], w - 1);
    }
  }

  lemma HeldAlone(s: System, w: nat, job: Job)
    requires JobsConserved(s) && w < |s.workers| && JobOf(s.workers[w]) == Some(job)
    ensures job !in s.queue && job !in s.answered && job in s.accepted
    ensures forall v :: 0 <= v < |s.workers| && v != w ==> JobOf(s.workers[v]) != Some(job)
  {
    OnePlace(s, job);
    HeldContains(s.workers, w);
    forall v | 0 <= v < |s.workers| && v != w
      ensures JobOf(s.workers[v]) != Some(job)
    {
      if JobOf(s.workers[v]) == Some(job) {
        HeldTwice(s.workers, if v < w then v else w, if v < w then w else v, job);
      }
    }
  }

  // ---- Answers ----------------------------------------------------------------------------------------

  /** The proxy replied to the job with a status. */
  predicate Succeeded(replies: map<Job, Reply>, job: Job) {
    job in replies && replies[job].Status?
  }

  /** What a worker is about to report is what came back; before that, nothing has. */
  predicate Truthful(replies: map<Job, Reply>, w: Worker) {
    match w
    case Tallying(job, _, ok) => ok <==> Succeeded(replies, job)
    case Answering(job, _, ok) => ok <==> Succeeded(replies, job)
    case _ => JobOf(w).Some? ==> JobOf(w).value !in replies
  }

  ghost predicate AnswersTrue(s: System) {
    && (forall w :: 0 <= w < |s.workers| ==> Truthful(s.history.replies, s.workers[w]))
    && (forall job :: job in s.queue ==> job !in s.history.replies)
    && (forall job :: job in s.answered ==> (s.answered[job] <==> Succeeded(s.history.replies, job)))
    && (forall job :: job in s.history.replies ==> job in s.accepted)
  }

  /** Jobs are taken from the queue in the order in which they were put there. */
  ghost predicate InTurn(s: System) {
    && s.history.submitted == s.history.taken + s.queue
    && (forall job :: job in s.history.submitted <==> job in s.accepted)
  }

  lemma WorkIsTruthful(s: System, w: nat, c: Choice)
    requires WorkPossible(s, w, c) && JobsConserved(s) && AnswersTrue(s)
    ensures Truthful(WorkStep(s, w, c).history.replies, NextPlace(s, w, c))
  {
    hide NextProxies, AnswerOf, JobsConserved;
    assert Truthful(s.history.replies, s.workers[w]);
    if s.workers[w].Idle? && c == Go {
      assert s.queue[0] in s.queue;
    }
  }

  lemma WorkKeepsAnswers(s: System, w: nat, c: Choice)
    requires WorkPossible(s, w, c) && JobsConserved(s) && AnswersTrue(s)
    ensures AnswersTrue(WorkStep(s, w, c))
  {
    hide NextProxies, NextPlace, JobsConserved;
    var s', pc := WorkStep(s, w, c), s.workers[w];
    WorkIsTruthful(s, w, c);
    assert Truthful(s.history.replies, pc);
    if JobOf(pc).Some? {
      HeldAlone(s, w, JobOf(pc).value);
    }
    forall v | 0 <= v < |s.workers| && v != w
      ensures Truthful(s'.history.replies, s'.workers[v])
    {
      assert Truthful(s.history.replies, s.workers[v]);
    }
  }

  lemma WorkKeepsTurn(s: System, w: nat, c: Choice)
    requires WorkPossible(s, w, c) && InTurn(s)
    ensures InTurn(WorkStep(s, w, c))
  {
    hide NextProxies, NextPlace;
  }

  lemma StepKeepsRecord(s: System, l: Label)
    requires Shape(s) && Enabled(s, l) && JobsConserved(s) && AnswersTrue(s) && InTurn(s)
    ensures AnswersTrue(Step(s, l)) && InTurn(Step(s, l))
  {
    hide WorkStep, WorkEnabled, JobsConserved;
    match l {
      case Work(w, c) =>
        WorkKeepsAnswers(s, w, c);
        WorkKeepsTurn(s, w, c);
      case _ =>
    }
  }

  lemma {:induction false} RunKeepsRecord(s: System, labels: seq<Label>)
    requires Inv(s) && Possible(s, labels) && AnswersTrue(s) && InTurn(s)
    ensures AnswersTrue(Run(s, labels)) && InTurn(Run(s, labels))
    decreases labels
  {
    hide Step, AnswersTrue, InTurn, SlotsOwned, JobsConserved, CountersAgree, Paid;
    if labels != [] {
      StepInv(s, labels[0]);
      StepKeepsRecord(s, labels[0]);
      RunKeepsRecord(Step(s, labels[0]), labels[1..]);
    }
  }

  lemma InitialRecord(s: System)
    requires Initial(s)
    ensures AnswersTrue(s) && InTurn(s)
  {
  }

  /** In every run, a job is answered as a success exactly if the proxy replied to it with a
      status; only jobs taken from the queue get replies. */
  lemma AnswersAreTrue(s0: System, labels: seq<Label>, job: Job)
    requires Initial(s0) && Possible(s0, labels)
    ensures var s := Run(s0, labels);
            && (job in s.answered ==> (s.answered[job] <==> job in s.history.replies && s.history.replies[job].Status?))
            && (job in s.history.replies ==> job in s.accepted && job !in s.queue)
  {
    hide Inv, Possible, Run;
    InitialInv(s0);
    InitialRecord(s0);
    RunKeepsRecord(s0, labels);
  }

  /** First in, first out: the jobs taken so far are the first ones submitted, in order, and
      the queue holds the others, in order. */
  lemma FirstInFirstOut(s0: System, labels: seq<Label>)
    requires Initial(s0) && Possible(s0, labels)
    ensures var s := Run(s0, labels);
            && s.history.submitted == s.history.taken + s.queue
            && forall job :: job in s.history.submitted <==> job in s.accepted
  {
    hide Inv, Possible, Run;
    InitialInv(s0);
    InitialRecord(s0);
    RunKeepsRecord(s0, labels);
  }
}
