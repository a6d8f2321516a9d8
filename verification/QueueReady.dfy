/** backend/app/ai/queue.py over whole runs: what it takes for an analysis to be recorded READY. */
module QueueReady {
  import opened AnalysisQueue
  import opened QueueEffects
  import opened QueueHistory

  /** No READY job is lost but to a forced request, and no analysis becomes READY without one. */
  ghost predicate KeepsReady(a: Queue, b: Queue) {
    && |a.jobs| <= |b.jobs|
    && (forall i :: 0 <= i < |a.jobs| && a.jobs[i].state == Ready ==> b.jobs[i] == a.jobs[i])
    && (forall e :: e in b.efforts && b.efforts[e].status == Ready ==>
          (e in a.efforts && b.efforts[e] == a.efforts[e]) || HasReadyJob(b.jobs, Effort, e, b.efforts[e].hash))
    && (forall e :: e in b.reviews && b.reviews[e].status == Ready ==>
          (e in a.reviews && b.reviews[e] == a.reviews[e]) || HasReadyJob(b.jobs, Importance, e, b.reviews[e].hash))
  }

  lemma ReadyJobStays(a: Queue, b: Queue, kind: Kind, entity: nat, hash: nat)
    requires |a.jobs| <= |b.jobs| && HasReadyJob(a.jobs, kind, entity, hash)
    requires forall i :: 0 <= i < |a.jobs| && a.jobs[i].state == Ready ==> b.jobs[i] == a.jobs[i]
    ensures HasReadyJob(b.jobs, kind, entity, hash)
  {
    var i :| 0 <= i < |a.jobs| && IsFor(a.jobs[i], kind, entity, hash) && a.jobs[i].state == Ready;
    assert b.jobs[i] == a.jobs[i];
  }

  lemma ReadyStaysBacked(a: Queue, b: Queue)
    requires ReadyBacked(a) && KeepsReady(a, b)
    ensures ReadyBacked(b)
  {
    forall e | e in b.efforts && b.efforts[e].status == Ready
      ensures HasReadyJob(b.jobs, Effort, e, b.efforts[e].hash)
    {
      if e in a.efforts && b.efforts[e] == a.efforts[e] {
        ReadyJobStays(a, b, Effort, e, b.efforts[e].hash);
      }
    }
    forall e | e in b.reviews && b.reviews[e].status == Ready
      ensures HasReadyJob(b.jobs, Importance, e, b.reviews[e].hash)
    {
      if e in a.reviews && b.reviews[e] == a.reviews[e] {
        ReadyJobStays(a, b, Importance, e, b.reviews[e].hash);
      }
    }
  }

  /** A forced request starts a READY job afresh, and its analysis with it. */
  lemma AskingKeepsBacked(q: Queue, task: nat, hash: nat, force: bool)
    requires ReadyBacked(q)
    ensures ReadyBacked(EffortEnqueued(q, task, hash, force))
  {
    EffortHasEffect(q, task, hash, force);
    var r := EffortEnqueued(q, task, hash, force);
    forall e | e in r.efforts && r.efforts[e].status == Ready
      ensures HasReadyJob(r.jobs, Effort, e, r.efforts[e].hash)
    {
      if r != q {
        var i :| 0 <= i < |q.jobs| && IsFor(q.jobs[i], Effort, e, q.efforts[e].hash) && q.jobs[i].state == Ready;
        assert e != task && r.jobs[i] == q.jobs[i];
      }
    }
    forall e | e in r.reviews && r.reviews[e].status == Ready
      ensures HasReadyJob(r.jobs, Importance, e, r.reviews[e].hash)
    {
      var i :| 0 <= i < |q.jobs| && IsFor(q.jobs[i], Importance, e, q.reviews[e].hash) && q.jobs[i].state == Ready;
      assert r.jobs[i] == q.jobs[i];
    }
  }

  lemma AskingReviewKeepsReady(q: Queue, event: nat, hash: nat, drop: bool)
    ensures KeepsReady(q, ReviewEnqueued(q, event, hash, drop))
  {
    ReviewHasEffect(q, event, hash, drop);
  }

  lemma {:induction false} RecoveringKeepsReady(q: Queue, stale: set<nat>, max: nat)
    ensures KeepsReady(q, Recovered(q, |q.jobs|, stale, max))
  {
    RecoveryHasEffect(q, |q.jobs|, stale, max);
  }

  lemma StoppingKeepsReady(q: Queue, i: nat, max: nat, enabled: bool)
    requires i < |q.jobs| && q.jobs[i].state != Ready
    ensures KeepsReady(q, Stopped(q, i, max, enabled))
  {
  }

  lemma SettlingKeepsReady(q: Queue, i: nat, outcome: Outcome, max: nat, enabled: bool)
    requires i < |q.jobs| && q.jobs[i].state != Ready
    ensures KeepsReady(q, Settled(q, i, outcome, max, enabled))
  {
    match Ending(q, q.jobs[i], outcome)
    case Raised => StoppingKeepsReady(q, i, max, enabled);
    case Answered => assert IsFor(Succeeded(q, i).jobs[i], q.jobs[i].kind, q.jobs[i].entity, q.jobs[i].hash);
    case Dropped =>
  }

  lemma TakingKeepsReady(w: World, enabled: bool, chatReady: bool, max: nat)
    requires Sound(w, max)
    ensures KeepsReady(w.q, Next(w, Take(enabled, chatReady), max).q)
  {
    if w.worker.Working? && w.worker.batch != [] {
      StoppingKeepsReady(w.q, w.worker.batch[0].job, max, enabled);
    }
  }

  lemma StepKeepsBacked(w: World, s: Step, max: nat)
    requires Sound(w, max) && ReadyBacked(w.q)
    ensures ReadyBacked(Next(w, s, max).q)
  {
    match s
    case AskEffort(task, hash, force) => AskingKeepsBacked(w.q, task, hash, force);
    case AskReview(event, hash, drop) =>
      AskingReviewKeepsReady(w.q, event, hash, drop);
      ReadyStaysBacked(w.q, ReviewEnqueued(w.q, event, hash, drop));
    case Recover(stale) =>
      RecoveringKeepsReady(w.q, stale, max);
      ReadyStaysBacked(w.q, Recovered(w.q, |w.q.jobs|, stale, max));
    case Take(enabled, chatReady) =>
      TakingKeepsReady(w, enabled, chatReady, max);
      ReadyStaysBacked(w.q, Next(w, s, max).q);
    case Settle(outcome, enabled) =>
      if w.worker.Calling? {
        SettlingKeepsReady(w.q, w.worker.job, outcome, max, enabled);
        ReadyStaysBacked(w.q, Settled(w.q, w.worker.job, outcome, max, enabled));
      }
    case _ =>
      assert KeepsReady(w.q, Next(w, s, max).q);
      ReadyStaysBacked(w.q, Next(w, s, max).q);
  }

  lemma {:induction false} RunsKeepBacked(w: World, steps: seq<Step>, max: nat)
    requires Sound(w, max) && Keyed(w.q) && max > 0 && ReadyBacked(w.q)
    ensures ReadyBacked(Run(w, steps, max).q)
    decreases |steps|
  {
    if steps != [] {
      StepKeepsBacked(w, steps[0], max);
      StepIsSound(w, steps[0], max);
      RunsKeepBacked(Next(w, steps[0], max), steps[1..], max);
    }
  }

  /** Over every run from empty tables, crashes and overlapping requests included: an analysis recorded READY
      belongs to a READY job for its very input. */
  lemma {:induction false} ReadyMeansDone(steps: seq<Step>, max: nat, e: nat)
    requires max > 0
    ensures var q := Run(START, steps, max).q;
      && (e in q.efforts && q.efforts[e].status == Ready ==> HasReadyJob(q.jobs, Effort, e, q.efforts[e].hash))
      && (e in q.reviews && q.reviews[e].status == Ready ==> HasReadyJob(q.jobs, Importance, e, q.reviews[e].hash))
  {
    RunsKeepBacked(START, steps, max);
  }

  /** Between its two commits a called job shows: it is claimed with the attempt counted, and a review's analysis
      says so until the call settles. */
  lemma ACallShows(w: World, enabled: bool, chatReady: bool, max: nat)
    requires Sound(w, max) && w.worker.Working? && w.worker.batch != []
    ensures var next := w.worker.batch[0]; var job := w.q.jobs[next.job];
      var taken := Next(w, Take(enabled, chatReady), max);
      enabled || (job.kind == Importance && chatReady) ==>
        && taken.q == Queue(w.q.jobs[next.job := Job(job.kind, job.entity, job.hash, Reviewing, next.attempts + 1)],
             w.q.efforts, w.q.reviews)
        && Shaped(taken) && var called := Next(taken, Call, max);
        && called.q.jobs == taken.q.jobs && called.q.efforts == taken.q.efforts
        && (job.kind == Importance ==> Relabels(w.q.reviews, called.q.reviews, job.entity, Reviewing))
        && (job.kind != Importance ==> called.q.reviews == w.q.reviews)
  {
  }

  /** What the tallies count of a job: its provider calls and its forced requests. */
  lemma CallsAreTallied(w: World, s: Step, max: nat, i: nat)
    requires Sound(w, max) && i < |w.q.jobs|
    ensures var n := Next(w, s, max);
      && i < |n.q.jobs| && |n.tallies| == |n.q.jobs|
      && var job, before, after := w.q.jobs[i], w.tallies[i], n.tallies[i];
      && after.calls == before.calls
           + (if s.Call? && w.worker.Calling? && !w.worker.called && w.worker.job == i then 1 else 0)
      && (after.forced != before.forced ==>
            && after.forced == before.forced + 1
            && s.AskEffort? && s.force && job.kind == Effort && job.entity == s.task && job.hash == s.hash
            && n.q.jobs[i] == job.(state := Pending, attempts := 0))
  {
  }

  /** And its claims: whenever a pending job becomes claimed. */
  lemma ClaimsAreTallied(w: World, s: Step, max: nat, i: nat)
    requires Sound(w, max) && i < |w.q.jobs|
    ensures var n := Next(w, s, max);
      && i < |n.q.jobs| && |n.tallies| == |n.q.jobs|
      && n.tallies[i].spent == w.tallies[i].spent
           + (if w.q.jobs[i].state == Pending && n.q.jobs[i].state == Reviewing then 1 else 0)
  {
    if s.Recover? {
      RecoveryHasEffect(w.q, |w.q.jobs|, s.stale, max);
    }
  }
}
