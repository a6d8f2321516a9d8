/** backend/app/ai/queue.py: enqueueing and the worker's pass over the tables, one commit after another. */
module AnalysisWorker {
  import opened AnalysisQueue
  import opened Documents
  import opened QueueEffects

  /** How many of the first `n` jobs of a batch are READY. */
  function ReadyAmong(jobs: seq<Job>, batch: seq<nat>, n: nat): nat
    requires n <= |batch| && Within(batch, jobs)
  {
    if n == 0 then 0
    else ReadyAmong(jobs, batch, n - 1) + (if jobs[batch[n - 1]].state == Ready then 1 else 0)
  }

  lemma {:induction false} OthersDoNotCount(before: seq<Job>, after: seq<Job>, batch: seq<nat>, n: nat)
    requires n <= |batch| && |before| == |after| && Within(batch, before)
    requires forall k :: 0 <= k < n ==> before[batch[k]] == after[batch[k]]
    ensures ReadyAmong(before, batch, n) == ReadyAmong(after, batch, n)
  {
    if n > 0 {
      OthersDoNotCount(before, after, batch, n - 1);
    }
  }

  lemma {:induction false} OneMoreCounts(before: seq<Job>, after: seq<Job>, batch: seq<nat>, n: nat)
    requires n < |batch| && |before| == |after| && Within(batch, before) && PendingOrder(batch)
    requires forall i :: 0 <= i < |before| && i != batch[n] ==> after[i] == before[i]
    ensures ReadyAmong(after, batch, n + 1)
      == ReadyAmong(before, batch, n) + (if after[batch[n]].state == Ready then 1 else 0)
    ensures forall k :: n < k < |batch| ==> after[batch[k]] == before[batch[k]]
  {
    OthersDoNotCount(before, after, batch, n);
  }

  ghost predicate PendingOrder(batch: seq<nat>) {
    forall j, k :: 0 <= j < k < |batch| ==> batch[j] < batch[k]
  }

  class Database {
    var jobs: seq<Job>
    var efforts: map<nat, Analysis>
    var reviews: map<nat, Analysis>

    function Contents(): Queue
      reads this
    {
      Queue(jobs, efforts, reviews)
    }

    constructor ()
      ensures Contents() == Queue([], map[], map[])
    {
      jobs, efforts, reviews := [], map[], map[];
    }

    method FindJob(kind: Kind, entity: nat, hash: nat) returns (found: Option<nat>)
      ensures found == Find(jobs, kind, entity, hash, 0)
    {
      var i := 0;
      while i < |jobs|
        invariant 0 <= i <= |jobs| && Find(jobs, kind, entity, hash, 0) == Find(jobs, kind, entity, hash, i)
      {
        if IsFor(jobs[i], kind, entity, hash) {
          return Some(i);
        }
        i := i + 1;
      }
      found := None;
    }

    /** Answers the row now standing for the input, or nothing when the analysis is already current. */
    method EnqueueTaskAnalysis(task: nat, hash: nat, force: bool) returns (job: Option<nat>)
      modifies this
      ensures Contents() == EffortEnqueued(old(Contents()), task, hash, force)
      ensures EffortEffect(old(Contents()), Contents(), task, hash, force)
      ensures job.None? <==> !force && old(EffortIsCurrent(Contents(), task, hash))
      ensures job.Some? ==> job.value < |jobs| && IsFor(jobs[job.value], Effort, task, hash)
      ensures job.Some? && force ==> jobs[job.value].state == Pending && jobs[job.value].attempts == 0
    {
      EffortHasEffect(Contents(), task, hash, force);
      if task !in efforts {
        efforts := efforts[task := Analysis(Pending, hash)];
      } else if !force && efforts[task].hash == hash && efforts[task].status in {Failed, Pending, Ready} {
        return None;
      } else {
        efforts := efforts[task := Analysis(Pending, hash)];
      }
      job := FindJob(Effort, task, hash);
      if job == None {
        jobs := jobs + [Job(Effort, task, hash, Pending, 0)];
        job := Some(|jobs| - 1);
      } else if force {
        jobs := jobs[job.value := jobs[job.value].(state := Pending, attempts := 0)];
      }
    }

    method EnqueueChangeAnalysis(event: nat, hash: nat, drop: bool) returns (job: Option<nat>)
      modifies this
      ensures Contents() == ReviewEnqueued(old(Contents()), event, hash, drop)
      ensures ReviewEffect(old(Contents()), Contents(), event, hash, drop)
      ensures job.Some? ==> job.value < |jobs| && IsFor(jobs[job.value], Importance, event, hash)
      ensures job.None? <==> drop || old(event in reviews && reviews[event].hash == hash)
    {
      ReviewHasEffect(Contents(), event, hash, drop);
      if event in reviews && reviews[event].hash == hash {
        return None;
      }
      if drop {
        reviews := reviews[event := Analysis(Suppressed, hash)];
        return None;
      }
      reviews := reviews[event := Analysis(Pending, hash)];
      job := FindJob(Importance, event, hash);
      if job == None {
        jobs := jobs + [Job(Importance, event, hash, Pending, 0)];
        job := Some(|jobs| - 1);
      }
    }

    method MarkFailed(job: Job)
      modifies `efforts, `reviews
      ensures Contents() == MarkedFailed(old(Contents()), job)
      ensures FailsAnalysis(old(Contents()), Contents(), job)
    {
      if job.kind == Effort {
        if job.entity in efforts {
          efforts := efforts[job.entity := efforts[job.entity].(status := Failed)];
        }
      } else if job.entity in reviews {
        reviews := reviews[job.entity := reviews[job.entity].(status := Failed)];
      }
    }

    method RecoverStale(stale: set<nat>, max: nat)
      modifies this
      ensures Contents() == Recovered(old(Contents()), |old(jobs)|, stale, max)
      ensures RecoveryEffect(old(Contents()), Contents(), |old(jobs)|, stale, max)
    {
      ghost var before := Contents();
      RecoveryHasEffect(before, |before.jobs|, stale, max);
      for i := 0 to |jobs|
        invariant Contents() == Recovered(before, i, stale, max)
      {
        if i in stale && jobs[i].state == Reviewing {
          var job := jobs[i];
          jobs := jobs[i := job.(state := if job.attempts >= max then Failed else Pending)];
          if jobs[i].state == Failed {
            MarkFailed(job);
          }
        }
      }
    }

    method Route(ready: bool)
      modifies `jobs
      ensures Contents() == Routed(old(Contents()), ready)
      ensures RouteEffect(old(jobs), jobs, ready)
    {
      for i := 0 to |jobs|
        invariant |jobs| == |old(jobs)|
        invariant forall k :: 0 <= k < i ==> jobs[k] == RoutedJob(old(jobs)[k], ready)
        invariant forall k :: i <= k < |jobs| ==> jobs[k] == old(jobs)[k]
      {
        if jobs[i].kind == Importance {
          if ready && jobs[i].state == WaitingAi {
            jobs := jobs[i := jobs[i].(state := Pending)];
          } else if !ready && jobs[i].state == Pending {
            jobs := jobs[i := jobs[i].(state := WaitingAi)];
          }
        }
      }
    }

    method Fetch(limit: nat) returns (batch: seq<nat>)
      ensures batch == Batch(jobs, limit) && OldestPending(batch, jobs, limit)
    {
      BatchIsOldest(jobs, limit);
      batch := [];
      var i := 0;
      while i < |jobs| && |batch| < limit
        invariant 0 <= i <= |jobs| && |batch| <= limit
        invariant PendingFrom(jobs, 0) == batch + PendingFrom(jobs, i)
      {
        if jobs[i].state == Pending {
          batch := batch + [i];
        }
        i := i + 1;
      }
    }

    method Work(i: nat, outcome: Outcome) returns (ended: Outcome)
      requires i < |jobs|
      modifies `efforts, `reviews
      ensures ended == Ending(old(Contents()), jobs[i], outcome)
      ensures ended == Raised ==>
        Contents() == (if outcome == Dropped then old(Contents()) else CallStarted(old(Contents()), i))
      ensures ended == Answered ==>
        Contents() == old(Queue(jobs, Succeeded(CallStarted(Contents(), i), i).efforts,
          Succeeded(CallStarted(Contents(), i), i).reviews))
      ensures ended == Dropped ==>
        Contents() == old(Queue(jobs, efforts, Relabelled(reviews, jobs[i].entity, Suppressed)))
    {
      var job := jobs[i];
      if job.kind == Importance && job.entity in reviews {
        if outcome == Dropped {
          reviews := reviews[job.entity := reviews[job.entity].(status := Suppressed)];
          return Dropped;
        }
        reviews := reviews[job.entity := reviews[job.entity].(status := Reviewing)];
        if outcome == Answered {
          reviews := reviews[job.entity := Analysis(Ready, job.hash)];
        }
        return outcome;
      }
      if job.kind == Effort && outcome == Answered {
        efforts := efforts[job.entity := Analysis(Ready, job.hash)];
        return Answered;
      }
      ended := Raised;
    }

    method TakeTurn(i: nat, turn: Turn, max: nat, enabled: bool) returns (done: bool)
      requires i < |jobs| && jobs[i].state == Pending
      modifies this
      ensures Contents() == TurnTaken(old(Contents()), i, turn, max, enabled)
      ensures TurnEffect(old(Contents()), Contents(), i, turn, max, enabled)
      ensures done <==> jobs[i].state == Ready
    {
      TurnHasEffect(Contents(), i, turn, max, enabled);
      if jobs[i].kind == Importance && !enabled && !turn.chatReady {
        jobs := jobs[i := jobs[i].(state := WaitingAi)];
        return false;
      }
      var ended := Raised;
      if jobs[i].kind == Importance || enabled {
        jobs := jobs[i := jobs[i].(state := Reviewing, attempts := jobs[i].attempts + 1)];
        ended := Work(i, turn.outcome);
      }
      if ended != Raised {
        jobs := jobs[i := jobs[i].(state := Ready)];
        return true;
      }
      var job := jobs[i];
      var terminal := job.attempts >= max || (job.kind != Importance && !enabled);
      jobs := jobs[i := job.(state := if terminal then Failed else Pending)];
      if terminal || job.kind == Importance {
        MarkFailed(job);
      }
      done := false;
    }

    /** `n` turns of the batch are over, `completed` of them successfully. */
    ghost predicate Worked(before: Queue, batch: seq<nat>, pass: Pass, n: nat, max: nat, completed: nat)
      requires n <= |batch| <= |pass.turns| && Within(batch, before.jobs)
      reads this
    {
      && |jobs| == |before.jobs| && Contents() == TurnsTaken(before, batch, pass.turns, n, max, pass.enabled)
      && completed == ReadyAmong(jobs, batch, n)
      && forall k :: n <= k < |batch| ==> jobs[batch[k]].state == Pending
    }

    method TakeNext(batch: seq<nat>, n: nat, pass: Pass, max: nat, completed: nat, ghost before: Queue)
      returns (more: nat)
      requires n < |batch| <= |pass.turns| && Within(batch, before.jobs) && PendingOrder(batch)
      requires Worked(before, batch, pass, n, max, completed)
      modifies this
      ensures Worked(before, batch, pass, n + 1, max, more)
    {
      ghost var jobsBefore := jobs;
      var done := TakeTurn(batch[n], pass.turns[n], max, pass.enabled);
      OneMoreCounts(jobsBefore, jobs, batch, n);
      more := completed + (if done then 1 else 0);
    }

    method TakeTurns(batch: seq<nat>, pass: Pass, max: nat) returns (completed: nat)
      requires |batch| <= |pass.turns| && Within(batch, jobs) && PendingFirst(batch, jobs, 0)
      modifies this
      ensures Contents() == TurnsTaken(old(Contents()), batch, pass.turns, |batch|, max, pass.enabled)
      ensures completed == ReadyAmong(jobs, batch, |batch|)
    {
      ghost var before := Contents();
      completed := 0;
      for n := 0 to |batch|
        invariant Worked(before, batch, pass, n, max, completed)
      {
        completed := TakeNext(batch, n, pass, max, completed, before);
      }
    }

    /** `_run_pending`, short of the summaries. */
    method RunPass(pass: Pass, max: nat) returns (completed: nat)
      requires Complete(pass)
      modifies this
      ensures Contents() == AfterPass(old(Contents()), pass, max)
      ensures PassEffect(old(Contents()), Contents(), pass, max)
      ensures completed == old(ReadyAmong(AfterPass(Contents(), pass, max).jobs, Picked(Contents(), pass, max),
        |Picked(Contents(), pass, max)|))
    {
      PassHasEffect(Contents(), pass, max);
      RecoverStale(pass.stale, max);
      Route(pass.enabled || pass.chatReady);
      BatchFinds(jobs, Limit(pass));
      var batch := Fetch(Limit(pass));
      completed := TakeTurns(batch, pass, max);
    }
  }

  class Worker {
    const db: Database
    const maxAttempts: nat
    /** The process-wide lock: held while another thread runs a pass. */
    var locked: bool

    constructor (db: Database, maxAttempts: nat)
      ensures this.db == db && this.maxAttempts == maxAttempts && !locked
    {
      this.db, this.maxAttempts, locked := db, maxAttempts, false;
    }

    /** A second pass beside a running one does nothing. `summaries` is what the optional summaries add, zero
        when they raise. */
    method RunPending(pass: Pass, summaries: nat) returns (completed: nat)
      requires Complete(pass)
      modifies this, db
      ensures locked == old(locked)
      ensures old(locked) ==> completed == 0 && db.Contents() == old(db.Contents())
      ensures !old(locked) ==>
        && db.Contents() == AfterPass(old(db.Contents()), pass, maxAttempts)
        && var batch := Picked(old(db.Contents()), pass, maxAttempts);
        && completed == ReadyAmong(AfterPass(old(db.Contents()), pass, maxAttempts).jobs, batch, |batch|) + summaries
    {
      if locked {
        return 0;
      }
      locked := true;
      completed := db.RunPass(pass, maxAttempts);
      completed := completed + summaries;
      locked := false;
    }
  }
}
