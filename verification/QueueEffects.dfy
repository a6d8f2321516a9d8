/** backend/app/ai/queue.py: what one request, recovery or turn leaves in the job and analysis tables, row by
    row. */
module QueueEffects {
  import opened Documents
  import opened AnalysisQueue

  /** The analysis of `entity`, if there is one, changes its status and keeps its input. */
  predicate Relabels(before: map<nat, Analysis>, after: map<nat, Analysis>, entity: nat, status: State) {
    if entity in before then after == before[entity := Analysis(status, before[entity].hash)] else after == before
  }

  predicate Records(before: map<nat, Analysis>, after: map<nat, Analysis>, entity: nat, status: State, hash: nat) {
    after == before[entity := Analysis(status, hash)]
  }

  /** Only the job `i` moves, and only its state and attempts. */
  predicate MovesOnly(before: Queue, after: Queue, i: nat, state: State, attempts: nat)
    requires i < |before.jobs|
  {
    after.jobs == before.jobs[i :=
      Job(before.jobs[i].kind, before.jobs[i].entity, before.jobs[i].hash, state, attempts)]
  }

  /** The work on this job comes to an end: an answer, or a change that is now dropped. */
  predicate Completes(q: Queue, job: Job, outcome: Outcome) {
    || (job.kind == Effort && outcome == Answered)
    || (job.kind == Importance && job.entity in q.reviews && outcome != Raised)
  }

  /** One job's turn. A review waits while there is no provider at all; another job fails without the built-in
      one; otherwise an attempt is spent and the job ends READY, back in the queue, or FAILED with its last
      attempt. Its analysis is recorded READY with its input, SUPPRESSED when dropped, and FAILED when the job
      failed or was a review; no other analysis changes. */
  ghost predicate TurnEffect(before: Queue, after: Queue, i: nat, turn: Turn, max: nat, enabled: bool)
    requires i < |before.jobs|
  {
    var job := before.jobs[i];
    if job.kind == Importance && !enabled && !turn.chatReady then
      MovesOnly(before, after, i, WaitingAi, job.attempts) && SameAnalyses(before, after)
    else if job.kind != Importance && !enabled then
      MovesOnly(before, after, i, Failed, job.attempts) && FailsAnalysis(before, after, job)
    else if Completes(before, job, turn.outcome) then
      MovesOnly(before, after, i, Ready, job.attempts + 1) && CompletesAnalysis(before, after, job, turn.outcome)
    else
      && MovesOnly(before, after, i, if job.attempts + 1 >= max then Failed else Pending, job.attempts + 1)
      && (job.kind == Importance || job.attempts + 1 >= max ==> FailsAnalysis(before, after, job))
      && (job.kind != Importance && job.attempts + 1 < max ==> SameAnalyses(before, after))
  }

  predicate SameAnalyses(before: Queue, after: Queue) {
    after.efforts == before.efforts && after.reviews == before.reviews
  }

  predicate FailsAnalysis(before: Queue, after: Queue, job: Job) {
    if job.kind == Effort
    then Relabels(before.efforts, after.efforts, job.entity, Failed) && after.reviews == before.reviews
    else Relabels(before.reviews, after.reviews, job.entity, Failed) && after.efforts == before.efforts
  }

  predicate CompletesAnalysis(before: Queue, after: Queue, job: Job, outcome: Outcome) {
    && (job.kind == Effort ==>
          Records(before.efforts, after.efforts, job.entity, Ready, job.hash) && after.reviews == before.reviews)
    && (job.kind == Importance ==> after.efforts == before.efforts)
    && (job.kind == Importance && outcome == Answered ==>
          Records(before.reviews, after.reviews, job.entity, Ready, job.hash))
    && (job.kind == Importance && outcome == Dropped ==>
          Relabels(before.reviews, after.reviews, job.entity, Suppressed))
  }

  lemma RefusalHasEffect(q: Queue, i: nat, turn: Turn, max: nat, enabled: bool)
    requires i < |q.jobs| && !enabled && (q.jobs[i].kind == Importance ==> !turn.chatReady)
    ensures TurnEffect(q, TurnTaken(q, i, turn, max, enabled), i, turn, max, enabled)
  {
  }

  lemma CompletionHasEffect(q: Queue, i: nat, turn: Turn, max: nat, enabled: bool)
    requires i < |q.jobs| && (enabled || (q.jobs[i].kind == Importance && turn.chatReady))
    requires Completes(q, q.jobs[i], turn.outcome)
    ensures var r := TurnTaken(q, i, turn, max, enabled);
      && MovesOnly(q, r, i, Ready, q.jobs[i].attempts + 1) && CompletesAnalysis(q, r, q.jobs[i], turn.outcome)
  {
  }

  lemma FailureHasEffect(q: Queue, i: nat, turn: Turn, max: nat, enabled: bool)
    requires i < |q.jobs| && (enabled || (q.jobs[i].kind == Importance && turn.chatReady))
    requires !Completes(q, q.jobs[i], turn.outcome)
    ensures TurnEffect(q, TurnTaken(q, i, turn, max, enabled), i, turn, max, enabled)
  {
  }

  lemma TurnHasEffect(q: Queue, i: nat, turn: Turn, max: nat, enabled: bool)
    requires i < |q.jobs|
    ensures TurnEffect(q, TurnTaken(q, i, turn, max, enabled), i, turn, max, enabled)
  {
    if !enabled && (q.jobs[i].kind == Importance ==> !turn.chatReady) {
      RefusalHasEffect(q, i, turn, max, enabled);
    } else if Completes(q, q.jobs[i], turn.outcome) {
      CompletionHasEffect(q, i, turn, max, enabled);
    } else {
      FailureHasEffect(q, i, turn, max, enabled);
    }
  }

  /** A claim that has gone stale. */
  predicate Stranded(jobs: seq<Job>, i: nat, stale: set<nat>) {
    i < |jobs| && i in stale && jobs[i].state == Reviewing
  }

  /** Among the first `n` jobs some stranded one without attempts left was for this analysis. */
  predicate Spent(jobs: seq<Job>, n: nat, stale: set<nat>, max: nat, effort: bool, entity: nat)
    requires n <= |jobs|
  {
    exists i :: 0 <= i < n && Stranded(jobs, i, stale) && jobs[i].attempts >= max
      && (jobs[i].kind == Effort) == effort && jobs[i].entity == entity
  }

  /** Stranded jobs are released, or failed when their attempts are spent, and then their analyses with them. */
  ghost predicate RecoveryEffect(before: Queue, after: Queue, n: nat, stale: set<nat>, max: nat)
    requires n <= |before.jobs|
  {
    && |after.jobs| == |before.jobs|
    && (forall i :: 0 <= i < |before.jobs| ==>
          after.jobs[i] ==
            if i < n && Stranded(before.jobs, i, stale)
            then before.jobs[i].(state := if before.jobs[i].attempts >= max then Failed else Pending)
            else before.jobs[i])
    && FailedAmong(before.efforts, after.efforts, before.jobs, n, stale, max, true)
    && FailedAmong(before.reviews, after.reviews, before.jobs, n, stale, max, false)
  }

  ghost predicate FailedAmong(before: map<nat, Analysis>, after: map<nat, Analysis>, jobs: seq<Job>, n: nat,
      stale: set<nat>, max: nat, effort: bool)
    requires n <= |jobs|
  {
    && after.Keys == before.Keys
    && forall e :: e in before ==>
         after[e] == if Spent(jobs, n, stale, max, effort, e) then Analysis(Failed, before[e].hash) else before[e]
  }

  lemma SpentFurther(jobs: seq<Job>, n: nat, stale: set<nat>, max: nat, effort: bool, entity: nat)
    requires n < |jobs|
    ensures Spent(jobs, n + 1, stale, max, effort, entity) <==>
      Spent(jobs, n, stale, max, effort, entity)
      || (Stranded(jobs, n, stale) && jobs[n].attempts >= max && (jobs[n].kind == Effort) == effort
          && jobs[n].entity == entity)
  {
  }

  lemma FailedFurther(before: map<nat, Analysis>, mid: map<nat, Analysis>, after: map<nat, Analysis>, jobs: seq<Job>,
      n: nat, stale: set<nat>, max: nat, effort: bool)
    requires n < |jobs| && FailedAmong(before, mid, jobs, n, stale, max, effort)
    requires if Stranded(jobs, n, stale) && jobs[n].attempts >= max && (jobs[n].kind == Effort) == effort
             then Relabels(mid, after, jobs[n].entity, Failed) else after == mid
    ensures FailedAmong(before, after, jobs, n + 1, stale, max, effort)
  {
    forall e | e in before
      ensures after[e] ==
        if Spent(jobs, n + 1, stale, max, effort, e) then Analysis(Failed, before[e].hash) else before[e]
    {
      SpentFurther(jobs, n, stale, max, effort, e);
    }
  }

  lemma OneMoreRecovered(q: Queue, mid: Queue, n: nat, stale: set<nat>, max: nat)
    requires n < |q.jobs| && |mid.jobs| == |q.jobs| && mid.jobs[n] == q.jobs[n]
    ensures var spent := Stranded(q.jobs, n, stale) && q.jobs[n].attempts >= max;
      var after := if Stranded(q.jobs, n, stale) then RecoveredJob(mid, n, max) else mid;
      && after.jobs == mid.jobs[n :=
           if Stranded(q.jobs, n, stale)
           then q.jobs[n].(state := if q.jobs[n].attempts >= max then Failed else Pending) else q.jobs[n]]
      && (if spent then FailsAnalysis(mid, after, q.jobs[n]) else SameAnalyses(mid, after))
  {
  }

  lemma {:induction false} RecoveryHasEffect(q: Queue, n: nat, stale: set<nat>, max: nat)
    requires n <= |q.jobs|
    ensures RecoveryEffect(q, Recovered(q, n, stale, max), n, stale, max)
  {
    if n > 0 {
      RecoveryHasEffect(q, n - 1, stale, max);
      var mid, after := Recovered(q, n - 1, stale, max), Recovered(q, n, stale, max);
      OneMoreRecovered(q, mid, n - 1, stale, max);
      FailedFurther(q.efforts, mid.efforts, after.efforts, q.jobs, n - 1, stale, max, true);
      FailedFurther(q.reviews, mid.reviews, after.reviews, q.jobs, n - 1, stale, max, false);
    }
  }

  /** A request that is not refused: one job stands for the input, a new one or, started afresh if forced, the
      oldest there is. */
  ghost predicate Requests(before: seq<Job>, after: seq<Job>, kind: Kind, entity: nat, hash: nat, force: bool) {
    if exists i :: 0 <= i < |before| && IsFor(before[i], kind, entity, hash) then
      exists i :: 0 <= i < |before| && IsFor(before[i], kind, entity, hash)
        && (forall k :: 0 <= k < i ==> !IsFor(before[k], kind, entity, hash))
        && after == if force then before[i := Job(kind, entity, hash, Pending, 0)] else before
    else after == before + [Job(kind, entity, hash, Pending, 0)]
  }

  /** The task's analysis is of this very input and not in any other state than failed, pending or ready. */
  predicate IsCurrent(efforts: map<nat, Analysis>, task: nat, hash: nat) {
    task in efforts && efforts[task].hash == hash
    && (efforts[task].status == Failed || efforts[task].status == Pending || efforts[task].status == Ready)
  }

  ghost predicate EffortEffect(before: Queue, after: Queue, task: nat, hash: nat, force: bool) {
    if !force && IsCurrent(before.efforts, task, hash) then after == before
    else
      && Requests(before.jobs, after.jobs, Effort, task, hash, force)
      && Records(before.efforts, after.efforts, task, Pending, hash) && after.reviews == before.reviews
  }

  ghost predicate ReviewEffect(before: Queue, after: Queue, event: nat, hash: nat, drop: bool) {
    if event in before.reviews && before.reviews[event].hash == hash then after == before
    else
      && after.efforts == before.efforts
      && Records(before.reviews, after.reviews, event, if drop then Suppressed else Pending, hash)
      && (drop ==> after.jobs == before.jobs)
      && (!drop ==> Requests(before.jobs, after.jobs, Importance, event, hash, false))
  }

  lemma RequestHasEffect(jobs: seq<Job>, kind: Kind, entity: nat, hash: nat, force: bool)
    ensures Requests(jobs, Requested(jobs, kind, entity, hash, force), kind, entity, hash, force)
  {
    var found := Find(jobs, kind, entity, hash, 0);
    if found.Some? { assert IsFor(jobs[found.value], kind, entity, hash); }
  }

  lemma EffortHasEffect(q: Queue, task: nat, hash: nat, force: bool)
    ensures EffortEffect(q, EffortEnqueued(q, task, hash, force), task, hash, force)
  {
    RequestHasEffect(q.jobs, Effort, task, hash, force);
  }

  lemma ReviewHasEffect(q: Queue, event: nat, hash: nat, drop: bool)
    ensures ReviewEffect(q, ReviewEnqueued(q, event, hash, drop), event, hash, drop)
  {
    RequestHasEffect(q.jobs, Importance, event, hash, false);
  }

  /** Reviews are parked while there is no provider, and parked ones come back when there is one. */
  ghost predicate RouteEffect(before: seq<Job>, after: seq<Job>, ready: bool) {
    && |after| == |before|
    && forall i :: 0 <= i < |before| ==>
         after[i] == if before[i].kind == Importance && before[i].state == (if ready then WaitingAi else Pending)
                     then before[i].(state := if ready then Pending else WaitingAi) else before[i]
  }

  lemma RoutingHasEffect(q: Queue, ready: bool)
    ensures RouteEffect(q.jobs, Routed(q, ready).jobs, ready) && SameAnalyses(q, Routed(q, ready))
  {
  }

  /** The oldest pending jobs, `limit` of them unless there are fewer. */
  ghost predicate OldestPending(batch: seq<nat>, jobs: seq<Job>, limit: nat) {
    && |batch| <= limit
    && (forall k :: 0 <= k < |batch| ==> batch[k] < |jobs| && jobs[batch[k]].state == Pending)
    && (forall j, k :: 0 <= j < k < |batch| ==> batch[j] < batch[k])
    && (forall i :: 0 <= i < |jobs| && jobs[i].state == Pending && i !in batch ==>
          |batch| == limit && forall k :: 0 <= k < |batch| ==> batch[k] < i)
  }

  lemma LeftOutIsLater(found: seq<nat>, limit: nat, i: nat)
    requires (forall j, k :: 0 <= j < k < |found| ==> found[j] < found[k])
    requires limit <= |found| && i in found && i !in found[..limit]
    ensures forall k :: 0 <= k < limit ==> found[k] < i
  {
    var at :| 0 <= at < |found| && found[at] == i;
    assert forall k :: 0 <= k < limit ==> found[..limit][k] == found[k];
  }

  lemma BatchIsOldest(jobs: seq<Job>, limit: nat)
    ensures OldestPending(Batch(jobs, limit), jobs, limit)
  {
    PendingFromFinds(jobs, 0);
    var found := PendingFrom(jobs, 0);
    if |found| > limit {
      forall i | 0 <= i < |jobs| && jobs[i].state == Pending && i !in found[..limit]
        ensures forall k :: 0 <= k < limit ==> found[k] < i
      {
        LeftOutIsLater(found, limit, i);
      }
    }
  }

  /** One turn after the other over the batch, from the first of `states` to the last. */
  ghost predicate TurnsEffect(states: seq<Queue>, batch: seq<nat>, turns: seq<Turn>, max: nat, enabled: bool) {
    && |states| == |batch| + 1 && |batch| <= |turns|
    && forall k :: 0 <= k < |batch| ==>
         batch[k] < |states[k].jobs| && TurnEffect(states[k], states[k + 1], batch[k], turns[k], max, enabled)
  }

  /** A pass: stale claims are recovered, reviews parked or brought back, and the oldest pending jobs, between one
      and ten of them as asked, take their turns in order. */
  ghost predicate PassEffect(before: Queue, after: Queue, pass: Pass, max: nat) {
    exists recovered, batch, states :: PassesBy(before, recovered, batch, states, after, pass, max)
  }

  ghost predicate PassesBy(before: Queue, recovered: Queue, batch: seq<nat>, states: seq<Queue>, after: Queue,
      pass: Pass, max: nat)
  {
    var limit := if pass.limit < 1 then 1 else if pass.limit > 10 then 10 else pass.limit;
    && RecoveryEffect(before, recovered, |before.jobs|, pass.stale, max)
    && TurnsEffect(states, batch, pass.turns, max, pass.enabled)
    && RouteEffect(recovered.jobs, states[0].jobs, pass.enabled || pass.chatReady)
    && SameAnalyses(recovered, states[0])
    && OldestPending(batch, states[0].jobs, limit)
    && states[|batch|] == after
  }

  function States(q: Queue, batch: seq<nat>, turns: seq<Turn>, max: nat, enabled: bool): (states: seq<Queue>)
    requires |batch| <= |turns| && Within(batch, q.jobs)
    ensures |states| == |batch| + 1
    ensures forall n :: 0 <= n <= |batch| ==> states[n] == TurnsTaken(q, batch, turns, n, max, enabled)
  {
    seq(|batch| + 1, n requires 0 <= n <= |batch| => TurnsTaken(q, batch, turns, n, max, enabled))
  }

  lemma TurnsHaveEffect(q: Queue, batch: seq<nat>, turns: seq<Turn>, max: nat, enabled: bool)
    requires |batch| <= |turns| && Within(batch, q.jobs)
    ensures TurnsEffect(States(q, batch, turns, max, enabled), batch, turns, max, enabled)
  {
    var states := States(q, batch, turns, max, enabled);
    forall k | 0 <= k < |batch|
      ensures batch[k] < |states[k].jobs| && TurnEffect(states[k], states[k + 1], batch[k], turns[k], max, enabled)
    {
      TurnHasEffect(TurnsTaken(q, batch, turns, k, max, enabled), batch[k], turns[k], max, enabled);
    }
  }

  lemma PassHasEffect(q: Queue, pass: Pass, max: nat)
    requires Complete(pass)
    ensures PassEffect(q, AfterPass(q, pass, max), pass, max)
  {
    var recovered := Recovered(q, |q.jobs|, pass.stale, max);
    var routed, batch := Prepared(q, pass, max), Picked(q, pass, max);
    RecoveryHasEffect(q, |q.jobs|, pass.stale, max);
    RoutingHasEffect(recovered, pass.enabled || pass.chatReady);
    BatchIsOldest(routed.jobs, Limit(pass));
    TurnsHaveEffect(routed, batch, pass.turns, max, pass.enabled);
    var states := States(routed, batch, pass.turns, max, pass.enabled);
    assert states[0] == routed && states[|batch|] == AfterPass(q, pass, max);
    assert PassesBy(q, recovered, batch, states, AfterPass(q, pass, max), pass, max);
  }

  // What READY means.

  ghost predicate HasReadyJob(jobs: seq<Job>, kind: Kind, entity: nat, hash: nat) {
    exists i :: 0 <= i < |jobs| && IsFor(jobs[i], kind, entity, hash) && jobs[i].state == Ready
  }

  /** Every analysis recorded READY belongs to a READY job for its very input. */
  ghost predicate ReadyBacked(q: Queue) {
    && (forall e :: e in q.efforts && q.efforts[e].status == Ready ==>
      HasReadyJob(q.jobs, Effort, e, q.efforts[e].hash))
    && (forall e :: e in q.reviews && q.reviews[e].status == Ready ==>
          HasReadyJob(q.jobs, Importance, e, q.reviews[e].hash))
  }
}
