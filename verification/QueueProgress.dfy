/** Progress of the analysis queue (backend/app/ai/queue.py), and the one way a pending analysis is left
    without work. */
module QueueProgress {
  import opened AnalysisQueue
  import opened QueueHistory

  function Left(job: Job, max: nat): nat {
    if job.attempts < max then max - job.attempts else 0
  }

  /** Commits still ahead of a job at most, once a provider is there. */
  function Weight(job: Job, max: nat): nat {
    match job.state
    case Pending => 2 * Left(job, max)
    case WaitingAi => 2 * Left(job, max) + 1
    case Reviewing => 2 * Left(job, max) + 1
    case _ => 0
  }

  function Total(jobs: seq<Job>, max: nat): nat {
    if jobs == [] then 0 else Total(jobs[..|jobs| - 1], max) + Weight(jobs[|jobs| - 1], max)
  }

  lemma {:induction false} LighterTotal(a: seq<Job>, b: seq<Job>, max: nat, some: int)
    requires |a| == |b| && forall i :: 0 <= i < |a| ==> Weight(b[i], max) <= Weight(a[i], max)
    requires 0 <= some < |a| ==> Weight(b[some], max) < Weight(a[some], max)
    ensures Total(b, max) <= Total(a, max)
    ensures 0 <= some < |a| ==> Total(b, max) < Total(a, max)
  {
    if |a| > 0 {
      LighterTotal(a[..|a| - 1], b[..|b| - 1], max, some);
    }
  }

  lemma {:induction false} NothingLeft(jobs: seq<Job>, max: nat, i: nat)
    requires i < |jobs| && Total(jobs, max) == 0
    ensures Weight(jobs[i], max) == 0
  {
    if i < |jobs| - 1 {
      NothingLeft(jobs[..|jobs| - 1], max, i);
    }
  }

  lemma {:induction false} TotalIsAtMost(jobs: seq<Job>, max: nat)
    ensures Total(jobs, max) <= |jobs| * (2 * max + 1)
  {
    if jobs != [] {
      TotalIsAtMost(jobs[..|jobs| - 1], max);
      assert |jobs| * (2 * max + 1) == (|jobs| - 1) * (2 * max + 1) + (2 * max + 1);
    }
  }

  ghost predicate AllBounded(jobs: seq<Job>, max: nat) {
    forall i :: 0 <= i < |jobs| ==> Bounded(jobs[i], max)
  }

  /** A provider is there for the whole pass, and whatever an earlier crash left claimed has gone stale. */
  ghost predicate Served(pass: Pass, jobs: nat) {
    && Complete(pass)
    && (pass.enabled || (pass.chatReady && forall k :: 0 <= k < |pass.turns| ==> pass.turns[k].chatReady))
    && (forall i: nat :: i < jobs ==> i in pass.stale)
  }

  lemma PreparedShrinks(q: Queue, pass: Pass, max: nat)
    requires AllBounded(q.jobs, max) && max > 0 && Served(pass, |q.jobs|)
    ensures var r := Prepared(q, pass, max).jobs;
      && AllBounded(r, max)
      && (forall i :: 0 <= i < |r| ==> Weight(r[i], max) <= Weight(q.jobs[i], max))
      && (forall i :: 0 <= i < |r| && q.jobs[i].state in {WaitingAi, Reviewing} ==>
        Weight(r[i], max) < Weight(q.jobs[i], max))
      && (forall i :: 0 <= i < |r| && q.jobs[i].state == Pending ==> r[i] == q.jobs[i])
  {
    RecoveredJobs(q, |q.jobs|, pass.stale, max);
  }

  lemma TurnLightens(q: Queue, i: nat, turn: Turn, max: nat, enabled: bool)
    requires i < |q.jobs| && q.jobs[i].state == Pending && Bounded(q.jobs[i], max) && max > 0
    requires enabled || turn.chatReady
    ensures var r := TurnTaken(q, i, turn, max, enabled);
      Bounded(r.jobs[i], max) && Weight(r.jobs[i], max) < Weight(q.jobs[i], max)
  {
    if !Refuses(q.jobs[i], enabled) {
      var claimed := Claimed(q, i, q.jobs[i].attempts);
      var called := if turn.outcome == Dropped then claimed else CallStarted(claimed, i);
      SettledMovesOneJob(called, i, turn.outcome, max, enabled);
    }
  }

  lemma {:induction false} TurnShrinks(q: Queue, i: nat, turn: Turn, max: nat, enabled: bool)
    requires i < |q.jobs| && q.jobs[i].state == Pending && AllBounded(q.jobs, max) && max > 0
    requires enabled || turn.chatReady
    ensures AllBounded(TurnTaken(q, i, turn, max, enabled).jobs, max)
    ensures Total(TurnTaken(q, i, turn, max, enabled).jobs, max) < Total(q.jobs, max)
  {
    TurnLightens(q, i, turn, max, enabled);
    LighterTotal(q.jobs, TurnTaken(q, i, turn, max, enabled).jobs, max, i);
  }

  lemma {:induction false} TurnsShrink(q: Queue, batch: seq<nat>, pass: Pass, n: nat, max: nat)
    requires n <= |batch| <= |pass.turns| && Within(batch, q.jobs) && PendingFirst(batch, q.jobs, 0)
    requires AllBounded(q.jobs, max) && max > 0
    requires pass.enabled || forall k :: 0 <= k < |pass.turns| ==> pass.turns[k].chatReady
    ensures var r := TurnsTaken(q, batch, pass.turns, n, max, pass.enabled).jobs;
      && AllBounded(r, max)
      && Total(r, max) + n <= Total(q.jobs, max)
      && (forall k :: n <= k < |batch| ==> r[batch[k]] == q.jobs[batch[k]])
  {
    if n > 0 {
      TurnsShrink(q, batch, pass, n - 1, max);
      var before := TurnsTaken(q, batch, pass.turns, n - 1, max, pass.enabled);
      assert before.jobs[batch[n - 1]] == q.jobs[batch[n - 1]];
      TurnShrinks(before, batch[n - 1], pass.turns[n - 1], max, pass.enabled);
    }
  }

  /** While any job is unsettled, a pass with a provider takes work off the queue. */
  lemma {:induction false} PassShrinks(q: Queue, pass: Pass, max: nat)
    requires AllBounded(q.jobs, max) && max > 0 && Served(pass, |q.jobs|)
    ensures AllBounded(AfterPass(q, pass, max).jobs, max)
    ensures Total(AfterPass(q, pass, max).jobs, max) <= Total(q.jobs, max)
    ensures (exists i :: 0 <= i < |q.jobs| && !Over(q.jobs[i])) ==>
      Total(AfterPass(q, pass, max).jobs, max) < Total(q.jobs, max)
  {
    var ready, batch := Prepared(q, pass, max), Picked(q, pass, max);
    PreparedShrinks(q, pass, max);
    TurnsShrink(ready, batch, pass, |batch|, max);
    LighterTotal(q.jobs, ready.jobs, max, -1);
    if i :| 0 <= i < |q.jobs| && !Over(q.jobs[i]) {
      if q.jobs[i].state == Pending {
        BatchFinds(ready.jobs, Limit(pass));
        assert |batch| < Limit(pass) ==> i in batch;
      } else {
        LighterTotal(q.jobs, ready.jobs, max, i);
      }
    }
  }

  function AfterPasses(q: Queue, passes: seq<Pass>, max: nat): Queue
    requires forall p :: 0 <= p < |passes| ==> Complete(passes[p])
    decreases |passes|
  {
    if passes == [] then q else AfterPasses(AfterPass(q, passes[0], max), passes[1..], max)
  }

  /** With a provider there, enough passes take every job to READY or FAILED, however often the provider
      itself fails and whatever states a crash left behind. */
  lemma {:induction false} EveryJobSettles(q: Queue, passes: seq<Pass>, max: nat)
    requires AllBounded(q.jobs, max) && max > 0
    requires forall p :: 0 <= p < |passes| ==> Served(passes[p], |q.jobs|)
    requires |passes| >= Total(q.jobs, max) && forall p :: 0 <= p < |passes| ==> Complete(passes[p])
    ensures var r := AfterPasses(q, passes, max).jobs; |r| == |q.jobs| && forall i :: 0 <= i < |r| ==> Over(r[i])
    decreases |passes|
  {
    if passes == [] {
      forall i | 0 <= i < |q.jobs| ensures Over(q.jobs[i]) { NothingLeft(q.jobs, max, i); }
    } else {
      PassShrinks(q, passes[0], max);
      var next := AfterPass(q, passes[0], max);
      if forall i :: 0 <= i < |q.jobs| ==> Over(q.jobs[i]) {
        SettledWeighsNothing(q.jobs, max);
      }
      EveryJobSettles(next, passes[1..], max);
    }
  }

  lemma {:induction false} SettledWeighsNothing(jobs: seq<Job>, max: nat)
    requires forall i :: 0 <= i < |jobs| ==> Over(jobs[i])
    ensures Total(jobs, max) == 0
  {
    if jobs != [] {
      SettledWeighsNothing(jobs[..|jobs| - 1], max);
    }
  }

  // Without a provider.

  lemma {:induction false} RefusedTurns(q: Queue, batch: seq<nat>, turns: seq<Turn>, n: nat, max: nat)
    requires n <= |batch| <= |turns| && Within(batch, q.jobs) && PendingFirst(batch, q.jobs, 0)
    requires forall k :: 0 <= k < |batch| ==> q.jobs[batch[k]].kind != Importance
    ensures var r := TurnsTaken(q, batch, turns, n, max, false).jobs;
      && (forall i :: 0 <= i < |r| ==>
        r[i] == q.jobs[i] || (q.jobs[i].kind != Importance && r[i] == q.jobs[i].(state := Failed)))
      && (forall k :: n <= k < |batch| ==> r[batch[k]] == q.jobs[batch[k]])
      && (forall k :: 0 <= k < n ==> r[batch[k]].state == Failed)
  {
    if n > 0 {
      RefusedTurns(q, batch, turns, n - 1, max);
    }
  }

  /** A pass without a provider claims nothing and counts no attempt: change reviews are all parked before
      the limit applies, and the batch is spent on failing other jobs. */
  lemma UnavailablePassSpendsNothing(q: Queue, pass: Pass, max: nat)
    requires Complete(pass) && !pass.enabled && !pass.chatReady
    ensures var r := AfterPass(q, pass, max).jobs;
      && (forall i :: 0 <= i < |r| ==> r[i].attempts == q.jobs[i].attempts)
      && (forall i :: 0 <= i < |r| && r[i].kind == Importance ==> r[i].state != Pending)
      && (forall k :: 0 <= k < |Picked(q, pass, max)| ==> r[Picked(q, pass, max)[k]].state == Failed)
  {
    var ready, batch := Prepared(q, pass, max), Picked(q, pass, max);
    RecoveredJobs(q, |q.jobs|, pass.stale, max);
    RefusedTurns(ready, batch, pass.turns, |batch|, max);
  }

  // Pending analyses.

  ghost predicate HasWork(jobs: seq<Job>, kind: Kind, entity: nat, hash: nat) {
    exists i :: 0 <= i < |jobs| && IsFor(jobs[i], kind, entity, hash) && !Over(jobs[i])
  }

  ghost predicate NoSettledJob(jobs: seq<Job>, kind: Kind, entity: nat, hash: nat) {
    forall i :: 0 <= i < |jobs| && IsFor(jobs[i], kind, entity, hash) ==> !Over(jobs[i])
  }

  lemma RequestedHasWork(jobs: seq<Job>, kind: Kind, entity: nat, hash: nat, force: bool)
    requires Unique(jobs)
    ensures HasWork(Requested(jobs, kind, entity, hash, force), kind, entity, hash) <==>
      force || NoSettledJob(jobs, kind, entity, hash)
  {
    var r, found := Requested(jobs, kind, entity, hash, force), Find(jobs, kind, entity, hash, 0);
    if found.Some? {
      assert IsFor(r[found.value], kind, entity, hash);
      assert forall i :: 0 <= i < |jobs| && IsFor(jobs[i], kind, entity, hash) ==> i == found.value;
    } else {
      assert IsFor(r[|jobs|], kind, entity, hash) && !Over(r[|jobs|]);
    }
  }

  /** An unforced request leaves its analysis pending with work to come exactly when the input has no
      settled job yet; a forced one always does. */
  lemma PendingEffortHasWorkExactlyWithoutSettledJob(q: Queue, task: nat, hash: nat, force: bool)
    requires Keyed(q) && (force || !EffortIsCurrent(q, task, hash))
    ensures var r := EffortEnqueued(q, task, hash, force);
      && r.efforts[task] == Analysis(Pending, hash)
      && (HasWork(r.jobs, Effort, task, hash) <==> force || NoSettledJob(q.jobs, Effort, task, hash))
  {
    RequestedHasWork(q.jobs, Effort, task, hash, force);
  }

  lemma PendingReviewHasWorkExactlyWithoutSettledJob(q: Queue, event: nat, hash: nat)
    requires Keyed(q) && !(event in q.reviews && q.reviews[event].hash == hash)
    ensures var r := ReviewEnqueued(q, event, hash, false);
      && r.reviews[event] == Analysis(Pending, hash)
      && (HasWork(r.jobs, Importance, event, hash) <==> NoSettledJob(q.jobs, Importance, event, hash))
  {
    RequestedHasWork(q.jobs, Importance, event, hash, false);
  }

  const ANSWERS := Pass(10, {}, true, false, seq(10, _ => Turn(false, Answered)))

  /** A task edited and edited back: its analysis waits for a job that is already READY. */
  lemma ReturningToAnOldInputStalls()
    ensures var read := AfterPass(EffortEnqueued(START.q, 1, 10, false), ANSWERS, 2);
      var edited := EffortEnqueued(EffortEnqueued(read, 1, 20, false), 1, 10, false);
      1 in edited.efforts && edited.efforts[1] == Analysis(Pending, 10) && !HasWork(edited.jobs, Effort, 1, 10)
  {
    var asked := EffortEnqueued(START.q, 1, 10, false);
    assert asked.jobs == [Job(Effort, 1, 10, Pending, 0)];
    assert Recovered(asked, 0, {}, 2) == asked == Recovered(asked, 1, {}, 2);
    assert Prepared(asked, ANSWERS, 2) == asked;
    assert PendingFrom(asked.jobs, 1) == [];
    assert Picked(asked, ANSWERS, 2) == [0];
    var read := AfterPass(asked, ANSWERS, 2);
    assert read == TurnTaken(TurnsTaken(asked, [0], ANSWERS.turns, 0, 2, true), 0, ANSWERS.turns[0], 2, true);
    assert read.jobs == [Job(Effort, 1, 10, Ready, 1)];
    assert EffortEnqueued(read, 1, 20, false).jobs == [Job(Effort, 1, 10, Ready, 1), Job(Effort, 1, 20, Pending, 0)];
  }
}
