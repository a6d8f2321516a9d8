/** backend/app/ai/queue.py: an uninterrupted worker pass is one run of the interleaved steps, so safety over
    runs and progress of passes are about the same machine. */
module QueuePass {
  import opened AnalysisQueue
  import opened QueueHistory

  lemma {:induction false} RunIsShaped(w: World, steps: seq<Step>, max: nat)
    requires Shaped(w)
    ensures Shaped(Run(w, steps, max))
    decreases |steps|
  {
    if steps != [] {
      NextIsShaped(w, steps[0], max);
      RunIsShaped(Next(w, steps[0], max), steps[1..], max);
    }
  }

  lemma {:induction false} RunAppend(w: World, a: seq<Step>, b: seq<Step>, max: nat)
    requires Shaped(w)
    ensures Shaped(Run(w, a, max)) && Run(w, a + b, max) == Run(Run(w, a, max), b, max)
    decreases |a|
  {
    RunIsShaped(w, a, max);
    if a == [] {
      assert a + b == b;
    } else {
      NextIsShaped(w, a[0], max);
      assert (a + b)[1..] == a[1..] + b;
      RunAppend(Next(w, a[0], max), a[1..], b, max);
    }
  }

  /** The steps of the first `n` turns. */
  function TurnsSteps(q: Queue, batch: seq<nat>, turns: seq<Turn>, n: nat, max: nat, enabled: bool): seq<Step>
    requires n <= |batch| <= |turns| && Within(batch, q.jobs)
  {
    if n == 0 then []
    else
      TurnsSteps(q, batch, turns, n - 1, max, enabled)
        + TurnSteps(TurnsTaken(q, batch, turns, n - 1, max, enabled).jobs[batch[n - 1]], turns[n - 1], enabled)
  }

  lemma {:induction false} LaterJobsWait(q: Queue, batch: seq<nat>, turns: seq<Turn>, n: nat, max: nat, enabled: bool,
      k: nat)
    requires n <= k < |batch| <= |turns| && Within(batch, q.jobs) && PendingFirst(batch, q.jobs, 0)
    ensures TurnsTaken(q, batch, turns, n, max, enabled).jobs[batch[k]] == q.jobs[batch[k]]
  {
    if n > 0 {
      LaterJobsWait(q, batch, turns, n - 1, max, enabled, k);
    }
  }

  /** `r` is `w` after the first `n` turns of the batch it has fetched. */
  ghost predicate TurnsDone(w: World, r: World, batch: seq<nat>, turns: seq<Turn>, n: nat, max: nat, enabled: bool)
    requires n <= |batch| <= |turns| && Within(batch, w.q.jobs)
  {
    && Shaped(r) && r.q == TurnsTaken(w.q, batch, turns, n, max, enabled)
    && r.worker == Working(LoadedOf(w.q.jobs, batch)[n..])
  }

  lemma OneMoreTurn(w: World, r: World, batch: seq<nat>, turns: seq<Turn>, n: nat, max: nat, enabled: bool)
    requires 0 < n <= |batch| <= |turns| && Within(batch, w.q.jobs) && PendingFirst(batch, w.q.jobs, 0)
    requires TurnsDone(w, r, batch, turns, n - 1, max, enabled)
    ensures TurnsDone(w, Run(r, TurnSteps(r.q.jobs[batch[n - 1]], turns[n - 1], enabled), max), batch, turns, n, max,
      enabled)
  {
    var loaded := LoadedOf(w.q.jobs, batch);
    LaterJobsWait(w.q, batch, turns, n - 1, max, enabled, n - 1);
    assert loaded[n - 1..][0] == loaded[n - 1] && loaded[n - 1..][1..] == loaded[n..];
    TurnIsARun(r, turns[n - 1], enabled, max);
    RunIsShaped(r, TurnSteps(r.q.jobs[batch[n - 1]], turns[n - 1], enabled), max);
  }

  lemma {:induction false} TurnsAreARun(w: World, batch: seq<nat>, turns: seq<Turn>, n: nat, max: nat, enabled: bool)
    requires n <= |batch| <= |turns| && Shaped(w) && Within(batch, w.q.jobs) && PendingFirst(batch, w.q.jobs, 0)
    requires w.worker == Working(LoadedOf(w.q.jobs, batch))
    ensures TurnsDone(w, Run(w, TurnsSteps(w.q, batch, turns, n, max, enabled), max), batch, turns, n, max, enabled)
  {
    if n > 0 {
      TurnsAreARun(w, batch, turns, n - 1, max, enabled);
      var earlier := TurnsSteps(w.q, batch, turns, n - 1, max, enabled);
      var r := Run(w, earlier, max);
      OneMoreTurn(w, r, batch, turns, n, max, enabled);
      RunAppend(w, earlier, TurnSteps(r.q.jobs[batch[n - 1]], turns[n - 1], enabled), max);
    }
  }

  /** Recovery, routing, fetching the batch, its turns, and finding it empty. */
  function PassSteps(q: Queue, pass: Pass, max: nat): seq<Step>
    requires Complete(pass)
  {
    [Recover(pass.stale), Route(pass.enabled || pass.chatReady), Fetch(Limit(pass))]
      + (TurnsSteps(Prepared(q, pass, max), Picked(q, pass, max), pass.turns, |Picked(q, pass, max)|, max, pass.enabled)
         + [Take(pass.enabled, pass.chatReady)])
  }

  /** A pass of an idle worker is the run of its steps, and leaves the worker idle. */
  lemma {:induction false} PassIsARun(w: World, pass: Pass, max: nat)
    requires Shaped(w) && w.worker.Idle? && Complete(pass)
    ensures var r := Run(w, PassSteps(w.q, pass, max), max);
      r.q == AfterPass(w.q, pass, max) && r.worker.Idle?
  {
    var head := [Recover(pass.stale), Route(pass.enabled || pass.chatReady), Fetch(Limit(pass))];
    var prepared, batch := Prepared(w.q, pass, max), Picked(w.q, pass, max);
    var turns, last :=
      TurnsSteps(prepared, batch, pass.turns, |batch|, max, pass.enabled), [Take(pass.enabled, pass.chatReady)];
    RunThree(w, head[0], head[1], head[2], max);
    var fetched := Run(w, head, max);
    RunIsShaped(w, head, max);
    assert fetched.q == prepared && fetched.worker == Working(LoadedOf(prepared.jobs, batch));
    TurnsAreARun(fetched, batch, pass.turns, |batch|, max, pass.enabled);
    var done := Run(fetched, turns, max);
    RunAppend(fetched, turns, last, max);
    RunAppend(w, head, turns + last, max);
    assert done.worker == Working([]);
    assert last[1..] == [] && Run(done, last, max) == World(done.q, done.tallies, Idle);
  }
}
