/** Runs of the analysis queue (backend/app/ai/queue.py): enqueueing at any moment, one worker going from
    commit to commit, and crashes between any two commits. */
module QueueHistory {
  import opened AnalysisQueue

  /** What has happened to one job: `spent` claims, `calls` of the provider, `forced` fresh starts. */
  datatype Tally = Tally(spent: nat, calls: nat, forced: nat)

  /** A job of the batch with the attempt count it was loaded with. */
  datatype Loaded = Loaded(job: nat, attempts: nat)

  datatype Worker =
    | Idle
    | Working(batch: seq<Loaded>)
    | Calling(job: nat, called: bool, rest: seq<Loaded>)

  datatype World = World(q: Queue, tallies: seq<Tally>, worker: Worker)

  datatype Step =
    | AskEffort(task: nat, hash: nat, force: bool)
    | AskReview(event: nat, hash: nat, drop: bool)
    | Recover(stale: set<nat>)
    | Route(ready: bool)
    | Fetch(limit: nat)
    | Take(enabled: bool, chatReady: bool)
    | Call
    | Settle(outcome: Outcome, enabled: bool)
    | Crash

  function LoadedOf(jobs: seq<Job>, batch: seq<nat>): (loaded: seq<Loaded>)
    requires Within(batch, jobs)
    ensures |loaded| == |batch| && forall k :: 0 <= k < |batch| ==>
      loaded[k] == Loaded(batch[k], jobs[batch[k]].attempts)
  {
    seq(|batch|, k requires 0 <= k < |batch| => Loaded(batch[k], jobs[batch[k]].attempts))
  }

  function Requests(tallies: seq<Tally>, jobs: seq<Job>, kind: Kind, entity: nat, hash: nat, force: bool): seq<Tally>
    requires |tallies| == |jobs|
  {
    match Find(jobs, kind, entity, hash, 0)
    case None => tallies + [Tally(0, 0, 0)]
    case Some(i) => if force then tallies[i := tallies[i].(forced := tallies[i].forced + 1)] else tallies
  }

  predicate Shaped(w: World) {
    && |w.tallies| == |w.q.jobs|
    && (w.worker.Working? ==> LoadedWithin(w.worker.batch, w.q.jobs))
    && (w.worker.Calling? ==> w.worker.job < |w.q.jobs| && LoadedWithin(w.worker.rest, w.q.jobs))
  }

  predicate LoadedWithin(batch: seq<Loaded>, jobs: seq<Job>) {
    forall k :: 0 <= k < |batch| ==> batch[k].job < |jobs|
  }

  function Taken(w: World, enabled: bool, chatReady: bool, max: nat): World
    requires Shaped(w) && w.worker.Working? && w.worker.batch != []
  {
    var next, rest := w.worker.batch[0], w.worker.batch[1..];
    if Parks(w.q.jobs[next.job], enabled, chatReady) then
      World(Moved(w.q, next.job, WaitingAi), w.tallies, Working(rest))
    else if Refuses(w.q.jobs[next.job], enabled) then
      World(Stopped(w.q, next.job, max, enabled), w.tallies, Working(rest))
    else
      var t := w.tallies[next.job];
      World(Claimed(w.q, next.job, next.attempts), w.tallies[next.job := t.(spent := t.spent + 1)],
        Calling(next.job, false, rest))
  }

  function Next(w: World, s: Step, max: nat): World
    requires Shaped(w)
  {
    match s
    case AskEffort(task, hash, force) =>
      if !force && EffortIsCurrent(w.q, task, hash) then w
      else World(EffortEnqueued(w.q, task, hash, force), Requests(w.tallies, w.q.jobs, Effort, task, hash, force),
        w.worker)
    case AskReview(event, hash, drop) =>
      if drop || (event in w.q.reviews && w.q.reviews[event].hash == hash) then
        World(ReviewEnqueued(w.q, event, hash, drop), w.tallies, w.worker)
      else World(ReviewEnqueued(w.q, event, hash, drop), Requests(w.tallies, w.q.jobs, Importance, event, hash, false),
        w.worker)
    case Recover(stale) =>
      if w.worker.Idle? then World(Recovered(w.q, |w.q.jobs|, stale, max), w.tallies, w.worker) else w
    case Route(ready) => if w.worker.Idle? then World(Routed(w.q, ready), w.tallies, w.worker) else w
    case Fetch(limit) =>
      if !w.worker.Idle? then w
      else BatchFinds(w.q.jobs, limit); World(w.q, w.tallies, Working(LoadedOf(w.q.jobs, Batch(w.q.jobs, limit))))
    case Take(enabled, chatReady) =>
      if !w.worker.Working? then w
      else if w.worker.batch == [] then World(w.q, w.tallies, Idle)
      else Taken(w, enabled, chatReady, max)
    case Call =>
      if !w.worker.Calling? || w.worker.called then w
      else
        var i := w.worker.job;
        World(CallStarted(w.q, i), w.tallies[i := w.tallies[i].(calls := w.tallies[i].calls + 1)],
          Calling(i, true, w.worker.rest))
    case Settle(outcome, enabled) =>
      if !w.worker.Calling? then w
      else World(Settled(w.q, w.worker.job, outcome, max, enabled), w.tallies, Working(w.worker.rest))
    case Crash => World(w.q, w.tallies, Idle)
  }

  // The bound.

  predicate Bounded(job: Job, max: nat) {
    match job.state
    case Pending => job.attempts < max
    case WaitingAi => job.attempts < max && job.kind == Importance
    case Reviewing => 1 <= job.attempts <= max
    case Ready => job.attempts <= max
    case Failed => job.attempts <= max
    case Suppressed => false
  }

  predicate Accounted(job: Job, t: Tally, max: nat) {
    t.spent <= max * t.forced + job.attempts && t.calls <= t.spent
  }

  /** A job waiting its turn in a batch is pending, and at most newly restarted since it was loaded. */
  predicate Queued(batch: seq<Loaded>, jobs: seq<Job>, max: nat)
    requires LoadedWithin(batch, jobs)
  {
    && (forall k :: 0 <= k < |batch| ==>
      jobs[batch[k].job].state == Pending && jobs[batch[k].job].attempts <= batch[k].attempts < max)
    && (forall j, k :: 0 <= j < k < |batch| ==> batch[j].job != batch[k].job)
  }

  predicate WorkerAgrees(w: World, max: nat)
    requires Shaped(w)
  {
    match w.worker
    case Idle => true
    case Working(batch) => Queued(batch, w.q.jobs, max)
    case Calling(i, called, rest) =>
      && w.q.jobs[i].state in {Reviewing, Pending}
      && (!called ==> w.tallies[i].calls < w.tallies[i].spent)
      && Queued(rest, w.q.jobs, max)
      && (forall k :: 0 <= k < |rest| ==> rest[k].job != i)
  }

  /** A pending analysis always has a job made for its input, in whatever state. */
  ghost predicate HasJob(jobs: seq<Job>, kind: Kind, entity: nat, hash: nat) {
    exists i :: 0 <= i < |jobs| && IsFor(jobs[i], kind, entity, hash)
  }

  ghost predicate Backed(q: Queue) {
    && (forall t :: t in q.efforts && q.efforts[t].status == Pending ==> HasJob(q.jobs, Effort, t, q.efforts[t].hash))
    && (forall e :: e in q.reviews && q.reviews[e].status == Pending ==>
      HasJob(q.jobs, Importance, e, q.reviews[e].hash))
  }

  /** One job for each input: the table's uniqueness constraint is never hit. */
  ghost predicate Unique(jobs: seq<Job>) {
    forall i, j :: 0 <= i < j < |jobs| ==> !IsFor(jobs[j], jobs[i].kind, jobs[i].entity, jobs[i].hash)
  }

  ghost predicate Sound(w: World, max: nat) {
    && Shaped(w)
    && (forall i :: 0 <= i < |w.q.jobs| ==> Bounded(w.q.jobs[i], max))
    && (forall i :: 0 <= i < |w.q.jobs| ==> Accounted(w.q.jobs[i], w.tallies[i], max))
    && WorkerAgrees(w, max)
  }

  ghost predicate Keyed(q: Queue) {
    Unique(q.jobs) && Backed(q)
  }

  // Keys.

  ghost predicate SameKeys(a: seq<Job>, b: seq<Job>) {
    |a| == |b| && forall i :: 0 <= i < |a| ==> IsFor(b[i], a[i].kind, a[i].entity, a[i].hash)
  }

  ghost predicate NothingQueued(q: Queue, r: Queue) {
    && (forall t :: t in r.efforts && r.efforts[t].status == Pending ==> t in q.efforts && q.efforts[t] == r.efforts[t])
    && (forall e :: e in r.reviews && r.reviews[e].status == Pending ==> e in q.reviews && q.reviews[e] == r.reviews[e])
  }

  lemma HasJobAt(jobs: seq<Job>, i: nat, kind: Kind, entity: nat, hash: nat)
    requires i < |jobs| && IsFor(jobs[i], kind, entity, hash)
    ensures HasJob(jobs, kind, entity, hash)
  {
  }

  lemma JobSurvives(a: seq<Job>, b: seq<Job>, kind: Kind, entity: nat, hash: nat)
    requires |a| <= |b| && SameKeys(a, b[..|a|]) && HasJob(a, kind, entity, hash)
    ensures HasJob(b, kind, entity, hash)
  {
    var i :| 0 <= i < |a| && IsFor(a[i], kind, entity, hash);
    assert b[..|a|][i] == b[i];
    HasJobAt(b, i, kind, entity, hash);
  }

  lemma BackedWhenNothingQueued(q: Queue, r: Queue)
    requires Keyed(q) && SameKeys(q.jobs, r.jobs) && NothingQueued(q, r)
    ensures Keyed(r)
  {
    assert r.jobs[..|q.jobs|] == r.jobs;
    forall t | t in r.efforts && r.efforts[t].status == Pending ensures HasJob(r.jobs, Effort, t, r.efforts[t].hash) {
      JobSurvives(q.jobs, r.jobs, Effort, t, r.efforts[t].hash);
    }
    forall e | e in r.reviews && r.reviews[e].status == Pending
      ensures HasJob(r.jobs, Importance, e, r.reviews[e].hash) {
      JobSurvives(q.jobs, r.jobs, Importance, e, r.reviews[e].hash);
    }
  }

  lemma RequestedKeys(jobs: seq<Job>, kind: Kind, entity: nat, hash: nat, force: bool)
    requires Unique(jobs)
    ensures var r := Requested(jobs, kind, entity, hash, force);
      Unique(r) && HasJob(r, kind, entity, hash) && |jobs| <= |r| && SameKeys(jobs, r[..|jobs|])
  {
    var r := Requested(jobs, kind, entity, hash, force);
    match Find(jobs, kind, entity, hash, 0)
    case None => HasJobAt(r, |jobs|, kind, entity, hash);
    case Some(i) => HasJobAt(r, i, kind, entity, hash);
  }

  lemma EffortEnqueuedIsKeyed(q: Queue, task: nat, hash: nat, force: bool)
    requires Keyed(q)
    ensures Keyed(EffortEnqueued(q, task, hash, force))
  {
    var r := EffortEnqueued(q, task, hash, force);
    if r != q {
      RequestedKeys(q.jobs, Effort, task, hash, force);
      forall t | t in r.efforts && r.efforts[t].status == Pending ensures HasJob(r.jobs, Effort, t, r.efforts[t].hash) {
        if t != task { JobSurvives(q.jobs, r.jobs, Effort, t, r.efforts[t].hash); }
      }
      forall e | e in r.reviews && r.reviews[e].status == Pending
        ensures HasJob(r.jobs, Importance, e, r.reviews[e].hash) {
        JobSurvives(q.jobs, r.jobs, Importance, e, r.reviews[e].hash);
      }
    }
  }

  lemma ReviewEnqueuedIsKeyed(q: Queue, event: nat, hash: nat, drop: bool)
    requires Keyed(q)
    ensures Keyed(ReviewEnqueued(q, event, hash, drop))
  {
    var r := ReviewEnqueued(q, event, hash, drop);
    if r != q && drop {
      BackedWhenNothingQueued(q, r);
    } else if r != q {
      RequestedKeys(q.jobs, Importance, event, hash, false);
      forall t | t in r.efforts && r.efforts[t].status == Pending ensures HasJob(r.jobs, Effort, t, r.efforts[t].hash) {
        JobSurvives(q.jobs, r.jobs, Effort, t, r.efforts[t].hash);
      }
      forall e | e in r.reviews && r.reviews[e].status == Pending
        ensures HasJob(r.jobs, Importance, e, r.reviews[e].hash) {
        if e != event { JobSurvives(q.jobs, r.jobs, Importance, e, r.reviews[e].hash); }
      }
    }
  }

  // Recovery.

  function RecoveredState(job: Job, stale: bool, max: nat): Job {
    if stale && job.state == Reviewing then job.(state := if job.attempts >= max then Failed else Pending) else job
  }

  lemma RecoveredJobIs(q: Queue, i: nat, max: nat)
    requires i < |q.jobs| && q.jobs[i].state == Reviewing
    ensures RecoveredJob(q, i, max).jobs == q.jobs[i := RecoveredState(q.jobs[i], true, max)]
    ensures NothingQueued(q, RecoveredJob(q, i, max))
  {
  }

  lemma {:induction false} RecoveredJobs(q: Queue, n: nat, stale: set<nat>, max: nat)
    requires n <= |q.jobs|
    ensures forall i :: 0 <= i < n ==> Recovered(q, n, stale, max).jobs[i] == RecoveredState(q.jobs[i], i in stale, max)
  {
    if n > 0 {
      RecoveredJobs(q, n - 1, stale, max);
      var before := Recovered(q, n - 1, stale, max);
      if n - 1 in stale && q.jobs[n - 1].state == Reviewing {
        RecoveredJobIs(before, n - 1, max);
      }
    }
  }

  lemma {:induction false} RecoveringQueuesNothing(q: Queue, n: nat, stale: set<nat>, max: nat)
    requires n <= |q.jobs|
    ensures NothingQueued(q, Recovered(q, n, stale, max))
  {
    if n > 0 {
      RecoveringQueuesNothing(q, n - 1, stale, max);
      var before := Recovered(q, n - 1, stale, max);
      if n - 1 in stale && q.jobs[n - 1].state == Reviewing {
        RecoveredJobIs(before, n - 1, max);
      }
    }
  }

  lemma SettledMovesOneJob(q: Queue, i: nat, outcome: Outcome, max: nat, enabled: bool)
    requires i < |q.jobs|
    ensures var r := Settled(q, i, outcome, max, enabled);
      && NothingQueued(q, r) && |r.jobs| == |q.jobs|
      && (forall k :: 0 <= k < |q.jobs| && k != i ==> r.jobs[k] == q.jobs[k])
      && (r.jobs[i] == q.jobs[i].(state := Ready) || r.jobs[i] == q.jobs[i].(state := Failed)
        || (q.jobs[i].attempts < max && r.jobs[i] == q.jobs[i].(state := Pending)))
  {
  }

  lemma {:induction false} RecoverQueuesNothing(q: Queue, stale: set<nat>, max: nat)
    ensures SameKeys(q.jobs, Recovered(q, |q.jobs|, stale, max).jobs)
      && NothingQueued(q, Recovered(q, |q.jobs|, stale, max))
  {
    RecoveredJobs(q, |q.jobs|, stale, max);
    RecoveringQueuesNothing(q, |q.jobs|, stale, max);
  }

  lemma SettleQueuesNothing(q: Queue, i: nat, outcome: Outcome, max: nat, enabled: bool)
    requires i < |q.jobs|
    ensures SameKeys(q.jobs, Settled(q, i, outcome, max, enabled).jobs)
      && NothingQueued(q, Settled(q, i, outcome, max, enabled))
  {
    SettledMovesOneJob(q, i, outcome, max, enabled);
  }

  lemma StopQueuesNothing(q: Queue, i: nat, max: nat, enabled: bool)
    requires i < |q.jobs|
    ensures SameKeys(q.jobs, Stopped(q, i, max, enabled).jobs) && NothingQueued(q, Stopped(q, i, max, enabled))
  {
  }

  lemma MovingQueuesNothing(q: Queue, i: nat, state: State, attempts: nat)
    requires i < |q.jobs|
    ensures SameKeys(q.jobs, Moved(q, i, state).jobs) && NothingQueued(q, Moved(q, i, state))
    ensures SameKeys(q.jobs, Claimed(q, i, attempts).jobs) && NothingQueued(q, Claimed(q, i, attempts))
  {
  }

  lemma TakeQueuesNothing(w: World, enabled: bool, chatReady: bool, max: nat)
    requires Shaped(w)
    ensures var n := Next(w, Take(enabled, chatReady), max); SameKeys(w.q.jobs, n.q.jobs) && NothingQueued(w.q, n.q)
  {
    if w.worker.Working? && w.worker.batch != [] {
      StopQueuesNothing(w.q, w.worker.batch[0].job, max, enabled);
      MovingQueuesNothing(w.q, w.worker.batch[0].job, WaitingAi, w.worker.batch[0].attempts);
    }
  }

  /** Every step but the two requests leaves every key alone and queues no analysis. */
  lemma WorkQueuesNothing(w: World, s: Step, max: nat)
    requires Shaped(w) && !s.AskEffort? && !s.AskReview?
    ensures SameKeys(w.q.jobs, Next(w, s, max).q.jobs) && NothingQueued(w.q, Next(w, s, max).q)
  {
    match s
    case Recover(stale) => RecoverQueuesNothing(w.q, stale, max);
    case Take(enabled, chatReady) => TakeQueuesNothing(w, enabled, chatReady, max);
    case Settle(outcome, enabled) =>
      if w.worker.Calling? { SettleQueuesNothing(w.q, w.worker.job, outcome, max, enabled); }
    case _ =>
  }

  // The bound is kept.

  /** A fresh start moves what was spent into the allowance. */
  lemma RequestIsAccounted(jobs: seq<Job>, tallies: seq<Tally>, kind: Kind, entity: nat, hash: nat, force: bool,
      max: nat)
    requires |jobs| == |tallies| && forall i :: 0 <= i < |jobs| ==>
      Bounded(jobs[i], max) && Accounted(jobs[i], tallies[i], max)
    requires max > 0 && kind != Unsupported
    ensures var (r, t) :=
      (Requested(jobs, kind, entity, hash, force), Requests(tallies, jobs, kind, entity, hash, force));
      && |jobs| <= |r| == |t| && (forall i :: 0 <= i < |r| ==> Bounded(r[i], max) && Accounted(r[i], t[i], max))
      && (forall i :: 0 <= i < |jobs| ==> Restarted(jobs[i], tallies[i], r[i], t[i]))
  {
    var found := Find(jobs, kind, entity, hash, 0);
    if force && found.Some? {
      var i := found.value;
      assert Accounted(jobs[i], tallies[i], max) && Bounded(jobs[i], max);
      assert max * (tallies[i].forced + 1) == max * tallies[i].forced + max;
    }
  }

  predicate Restarted(job: Job, t: Tally, r: Job, u: Tally) {
    (r == job || (r.state == Pending && r.attempts == 0)) && u.calls == t.calls && u.spent == t.spent
  }

  lemma RequestIsSound(w: World, q: Queue, kind: Kind, entity: nat, hash: nat, force: bool, max: nat)
    requires Sound(w, max) && max > 0 && kind != Unsupported && q.jobs == Requested(w.q.jobs, kind, entity, hash, force)
    ensures Sound(World(q, Requests(w.tallies, w.q.jobs, kind, entity, hash, force), w.worker), max)
  {
    RequestIsAccounted(w.q.jobs, w.tallies, kind, entity, hash, force, max);
  }

  lemma IdleStepIsSound(w: World, s: Step, max: nat)
    requires Sound(w, max) && max > 0 && (s.Recover? || s.Route? || s.Fetch? || s.Crash?)
    ensures Sound(Next(w, s, max), max)
  {
    match s
    case Recover(stale) => RecoveredJobs(w.q, |w.q.jobs|, stale, max);
    case Fetch(limit) => BatchFinds(w.q.jobs, limit);
    case _ =>
  }

  lemma RestStaysQueued(batch: seq<Loaded>, a: seq<Job>, b: seq<Job>, max: nat)
    requires batch != [] && |a| == |b| && LoadedWithin(batch, a) && Queued(batch, a, max)
    requires forall i :: 0 <= i < |a| && i != batch[0].job ==> b[i] == a[i]
    ensures Queued(batch[1..], b, max) && forall k :: 0 <= k < |batch| - 1 ==> batch[1..][k].job != batch[0].job
  {
    assert forall k :: 0 <= k < |batch| - 1 ==> batch[1..][k] == batch[k + 1];
  }

  lemma ClaimIsSound(w: World, max: nat)
    requires Sound(w, max) && max > 0 && w.worker.Working? && w.worker.batch != []
    ensures var next, rest := w.worker.batch[0], w.worker.batch[1..]; var t := w.tallies[next.job];
      Sound(World(Claimed(w.q, next.job, next.attempts), w.tallies[next.job := t.(spent := t.spent + 1)],
        Calling(next.job, false, rest)), max)
  {
    var next := w.worker.batch[0];
    assert Accounted(w.q.jobs[next.job], w.tallies[next.job], max);
    RestStaysQueued(w.worker.batch, w.q.jobs, Claimed(w.q, next.job, next.attempts).jobs, max);
  }

  lemma PutAsideIsSound(w: World, q: Queue, max: nat)
    requires Sound(w, max) && w.worker.Working? && w.worker.batch != [] && |q.jobs| == |w.q.jobs|
    requires forall i :: 0 <= i < |q.jobs| && i != w.worker.batch[0].job ==> q.jobs[i] == w.q.jobs[i]
    requires var i := w.worker.batch[0].job; Bounded(q.jobs[i], max) && q.jobs[i].attempts == w.q.jobs[i].attempts
    ensures Sound(World(q, w.tallies, Working(w.worker.batch[1..])), max)
  {
    RestStaysQueued(w.worker.batch, w.q.jobs, q.jobs, max);
  }

  lemma TakeIsSound(w: World, enabled: bool, chatReady: bool, max: nat)
    requires Sound(w, max) && max > 0
    ensures Sound(Next(w, Take(enabled, chatReady), max), max)
  {
    if w.worker.Working? && w.worker.batch != [] {
      var job := w.q.jobs[w.worker.batch[0].job];
      if Parks(job, enabled, chatReady) {
        PutAsideIsSound(w, Moved(w.q, w.worker.batch[0].job, WaitingAi), max);
      } else if Refuses(job, enabled) {
        PutAsideIsSound(w, Stopped(w.q, w.worker.batch[0].job, max, enabled), max);
      } else {
        ClaimIsSound(w, max);
      }
    }
  }

  lemma CallIsSound(w: World, max: nat)
    requires Sound(w, max) && max > 0
    ensures Sound(Next(w, Call, max), max)
  {
  }

  lemma SettleIsSound(w: World, outcome: Outcome, enabled: bool, max: nat)
    requires Sound(w, max) && max > 0
    ensures Sound(Next(w, Settle(outcome, enabled), max), max)
  {
    if w.worker.Calling? { SettledMovesOneJob(w.q, w.worker.job, outcome, max, enabled); }
  }

  lemma StepIsSound(w: World, s: Step, max: nat)
    requires Sound(w, max) && Keyed(w.q) && max > 0
    ensures Sound(Next(w, s, max), max) && Keyed(Next(w, s, max).q)
  {
    match s
    case AskEffort(task, hash, force) =>
      if Next(w, s, max) != w {
        RequestIsSound(w, EffortEnqueued(w.q, task, hash, force), Effort, task, hash, force, max);
      }
      EffortEnqueuedIsKeyed(w.q, task, hash, force);
    case AskReview(event, hash, drop) =>
      if Next(w, s, max).q.jobs != w.q.jobs {
        RequestIsSound(w, ReviewEnqueued(w.q, event, hash, false), Importance, event, hash, false, max);
      }
      ReviewEnqueuedIsKeyed(w.q, event, hash, drop);
    case Take(enabled, chatReady) => TakeIsSound(w, enabled, chatReady, max); WorkStepIsKeyed(w, s, max);
    case Call => CallIsSound(w, max); WorkStepIsKeyed(w, s, max);
    case Settle(outcome, enabled) => SettleIsSound(w, outcome, enabled, max); WorkStepIsKeyed(w, s, max);
    case _ => IdleStepIsSound(w, s, max); WorkStepIsKeyed(w, s, max);
  }

  lemma WorkStepIsKeyed(w: World, s: Step, max: nat)
    requires Shaped(w) && Keyed(w.q) && !s.AskEffort? && !s.AskReview?
    ensures Keyed(Next(w, s, max).q)
  {
    WorkQueuesNothing(w, s, max);
    BackedWhenNothingQueued(w.q, Next(w, s, max).q);
  }

  lemma NextIsShaped(w: World, s: Step, max: nat)
    requires Shaped(w)
    ensures Shaped(Next(w, s, max))
  {
    if s.Fetch? { BatchFinds(w.q.jobs, s.limit); }
  }

  function Run(w: World, steps: seq<Step>, max: nat): World
    requires Shaped(w)
    decreases |steps|
  {
    if steps == [] then w else NextIsShaped(w, steps[0], max); Run(Next(w, steps[0], max), steps[1..], max)
  }

  function TurnSteps(job: Job, turn: Turn, enabled: bool): seq<Step> {
    if Parks(job, enabled, turn.chatReady) || Refuses(job, enabled) then [Take(enabled, turn.chatReady)]
    else if turn.outcome == Dropped then [Take(enabled, turn.chatReady), Settle(turn.outcome, enabled)]
    else [Take(enabled, turn.chatReady), Call, Settle(turn.outcome, enabled)]
  }

  lemma {:induction false} RunTwo(w: World, a: Step, b: Step, max: nat)
    requires Shaped(w)
    ensures Shaped(Next(w, a, max)) && Run(w, [a, b], max) == Next(Next(w, a, max), b, max)
  {
    NextIsShaped(w, a, max);
    NextIsShaped(Next(w, a, max), b, max);
    assert [a, b][1..] == [b] && [b][1..] == [];
    assert Run(Next(w, a, max), [b], max) == Next(Next(w, a, max), b, max);
  }

  lemma {:induction false} RunThree(w: World, a: Step, b: Step, c: Step, max: nat)
    requires Shaped(w)
    ensures Shaped(Next(w, a, max)) && Shaped(Next(Next(w, a, max), b, max))
    ensures Run(w, [a, b, c], max) == Next(Next(Next(w, a, max), b, max), c, max)
  {
    NextIsShaped(w, a, max);
    NextIsShaped(Next(w, a, max), b, max);
    assert [a, b, c][1..] == [b, c];
    RunTwo(Next(w, a, max), b, c, max);
  }

  /** A job's turn in an uninterrupted pass is a run of two or three of these steps. */
  lemma {:induction false} TurnIsARun(w: World, turn: Turn, enabled: bool, max: nat)
    requires Shaped(w) && w.worker.Working? && w.worker.batch != []
    requires w.worker.batch[0].attempts == w.q.jobs[w.worker.batch[0].job].attempts
    ensures var i := w.worker.batch[0].job;
      var r := Run(w, TurnSteps(w.q.jobs[i], turn, enabled), max);
      r.q == TurnTaken(w.q, i, turn, max, enabled) && r.worker == Working(w.worker.batch[1..])
  {
    var i := w.worker.batch[0].job;
    var take, settle := Take(enabled, turn.chatReady), Settle(turn.outcome, enabled);
    if Parks(w.q.jobs[i], enabled, turn.chatReady) || Refuses(w.q.jobs[i], enabled) {
      assert [take][1..] == [];
    } else if turn.outcome == Dropped {
      RunTwo(w, take, settle, max);
    } else {
      RunThree(w, take, Call, settle, max);
    }
  }

  const START := World(Queue([], map[], map[]), [], Idle)

  lemma {:induction false} RunsAreSound(w: World, steps: seq<Step>, max: nat)
    requires Sound(w, max) && Keyed(w.q) && max > 0
    ensures Sound(Run(w, steps, max), max) && Keyed(Run(w, steps, max).q)
    decreases |steps|
  {
    if steps != [] {
      StepIsSound(w, steps[0], max);
      RunsAreSound(Next(w, steps[0], max), steps[1..], max);
    }
  }

  /** Whatever crashes and concurrent requests there were, the provider has been called for a job at most
      `max` times, and `max` times more for every fresh start that was forced. */
  lemma {:induction false} ProviderCallsAreBounded(steps: seq<Step>, max: nat, i: nat)
    requires max > 0 && i < |Run(START, steps, max).q.jobs|
    ensures var w := Run(START, steps, max);
      && |w.tallies| == |w.q.jobs| && w.tallies[i].calls <= max * (w.tallies[i].forced + 1)
      && Bounded(w.q.jobs[i], max)
  {
    RunsAreSound(START, steps, max);
    var w := Run(START, steps, max);
    var t := w.tallies[i];
    assert Accounted(w.q.jobs[i], t, max) && Bounded(w.q.jobs[i], max);
    assert max * (t.forced + 1) == max * t.forced + max;
  }

  predicate Over(job: Job) {
    job.state in {Ready, Failed}
  }

  /** A settled job is touched by nothing but a forced request for its own input. */
  lemma OverUntilForced(w: World, s: Step, max: nat, i: nat)
    requires Sound(w, max) && max > 0 && i < |w.q.jobs| && Over(w.q.jobs[i])
    requires !(s.AskEffort? && s.force && IsFor(w.q.jobs[i], Effort, s.task, s.hash))
    ensures i < |Next(w, s, max).q.jobs| && Next(w, s, max).q.jobs[i] == w.q.jobs[i]
  {
    match s
    case Recover(stale) => RecoveredJobs(w.q, |w.q.jobs|, stale, max);
    case Settle(outcome, enabled) =>
      if w.worker.Calling? { SettledMovesOneJob(w.q, w.worker.job, outcome, max, enabled); }
    case _ =>
  }
}
