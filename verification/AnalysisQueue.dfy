/** backend/app/ai/queue.py: what enqueueing and one worker pass do to the job and analysis tables. Hashes,
    the prefilter and the provider are opaque; a job's place in `jobs` is its creation order. */
module AnalysisQueue {
  import opened Documents

  datatype Kind = Effort | Importance | Unsupported

  datatype State = Pending | WaitingAi | Reviewing | Ready | Failed | Suppressed

  datatype Job = Job(kind: Kind, entity: nat, hash: nat, state: State, attempts: nat)

  datatype Analysis = Analysis(status: State, hash: nat)

  /** `efforts` holds the task analyses, `reviews` the change analyses. */
  datatype Queue = Queue(jobs: seq<Job>, efforts: map<nat, Analysis>, reviews: map<nat, Analysis>)

  predicate IsFor(job: Job, kind: Kind, entity: nat, hash: nat) {
    job.kind == kind && job.entity == entity && job.hash == hash
  }

  function Find(jobs: seq<Job>, kind: Kind, entity: nat, hash: nat, from: nat): (found: Option<nat>)
    requires from <= |jobs|
    ensures found.Some? ==> from <= found.value < |jobs| && IsFor(jobs[found.value], kind, entity, hash)
    ensures found.Some? ==> forall i :: from <= i < found.value ==> !IsFor(jobs[i], kind, entity, hash)
    ensures found.None? ==> forall i :: from <= i < |jobs| ==> !IsFor(jobs[i], kind, entity, hash)
    decreases |jobs| - from
  {
    if from == |jobs| then None
    else if IsFor(jobs[from], kind, entity, hash) then Some(from)
    else Find(jobs, kind, entity, hash, from + 1)
  }

  /** The job for an input is made once; a forced request starts an existing one afresh. */
  function Requested(jobs: seq<Job>, kind: Kind, entity: nat, hash: nat, force: bool): seq<Job> {
    match Find(jobs, kind, entity, hash, 0)
    case None => jobs + [Job(kind, entity, hash, Pending, 0)]
    case Some(i) => if force then jobs[i := Job(kind, entity, hash, Pending, 0)] else jobs
  }

  predicate EffortIsCurrent(q: Queue, task: nat, hash: nat) {
    task in q.efforts && q.efforts[task].hash == hash && q.efforts[task].status in {Failed, Pending, Ready}
  }

  function EffortEnqueued(q: Queue, task: nat, hash: nat, force: bool): Queue {
    if !force && EffortIsCurrent(q, task, hash) then q
    else Queue(Requested(q.jobs, Effort, task, hash, force), q.efforts[task := Analysis(Pending, hash)], q.reviews)
  }

  function ReviewEnqueued(q: Queue, event: nat, hash: nat, drop: bool): Queue {
    if event in q.reviews && q.reviews[event].hash == hash then q
    else if drop then Queue(q.jobs, q.efforts, q.reviews[event := Analysis(Suppressed, hash)])
    else Queue(Requested(q.jobs, Importance, event, hash, false), q.efforts,
      q.reviews[event := Analysis(Pending, hash)])
  }

  // One worker pass. Each of these functions ends in one commit.

  function Moved(q: Queue, i: nat, state: State): Queue
    requires i < |q.jobs|
  {
    Queue(q.jobs[i := q.jobs[i].(state := state)], q.efforts, q.reviews)
  }

  function Relabelled(table: map<nat, Analysis>, entity: nat, status: State): map<nat, Analysis> {
    if entity in table then table[entity := Analysis(status, table[entity].hash)] else table
  }

  /** `_mark_failed`: every kind but `task_effort` looks its entity up among the change analyses. */
  function MarkedFailed(q: Queue, job: Job): Queue {
    if job.kind == Effort then Queue(q.jobs, Relabelled(q.efforts, job.entity, Failed), q.reviews)
    else Queue(q.jobs, q.efforts, Relabelled(q.reviews, job.entity, Failed))
  }

  function RecoveredJob(q: Queue, i: nat, max: nat): Queue
    requires i < |q.jobs|
  {
    if q.jobs[i].attempts >= max then MarkedFailed(Moved(q, i, Failed), q.jobs[i]) else Moved(q, i, Pending)
  }

  /** Claims among the first `n` jobs that have gone `stale` are released. */
  function Recovered(q: Queue, n: nat, stale: set<nat>, max: nat): (r: Queue)
    requires n <= |q.jobs|
    ensures |r.jobs| == |q.jobs| && forall i :: n <= i < |q.jobs| ==> r.jobs[i] == q.jobs[i]
  {
    if n == 0 then q
    else
      var before := Recovered(q, n - 1, stale, max);
      if n - 1 in stale && q.jobs[n - 1].state == Reviewing then RecoveredJob(before, n - 1, max) else before
  }

  function RoutedJob(job: Job, ready: bool): Job {
    if job.kind == Importance && ready && job.state == WaitingAi then job.(state := Pending)
    else if job.kind == Importance && !ready && job.state == Pending then job.(state := WaitingAi)
    else job
  }

  /** Change reviews wait while there is no provider and come back when there is one. */
  function Routed(q: Queue, ready: bool): Queue {
    Queue(seq(|q.jobs|, i requires 0 <= i < |q.jobs| => RoutedJob(q.jobs[i], ready)), q.efforts, q.reviews)
  }

  /** The pending jobs from `from` on, oldest first. */
  function PendingFrom(jobs: seq<Job>, from: nat): seq<nat>
    requires from <= |jobs|
    decreases |jobs| - from
  {
    if from == |jobs| then []
    else if jobs[from].state == Pending then [from] + PendingFrom(jobs, from + 1)
    else PendingFrom(jobs, from + 1)
  }

  ghost predicate Within(batch: seq<nat>, jobs: seq<Job>) {
    forall k :: 0 <= k < |batch| ==> batch[k] < |jobs|
  }

  ghost predicate PendingFirst(batch: seq<nat>, jobs: seq<Job>, from: nat) {
    && (forall k :: 0 <= k < |batch| ==> from <= batch[k] < |jobs| && jobs[batch[k]].state == Pending)
    && (forall j, k :: 0 <= j < k < |batch| ==> batch[j] < batch[k])
  }

  lemma {:induction false} PendingFromFinds(jobs: seq<Job>, from: nat)
    requires from <= |jobs|
    ensures PendingFirst(PendingFrom(jobs, from), jobs, from)
    ensures forall i :: from <= i < |jobs| && jobs[i].state == Pending ==> i in PendingFrom(jobs, from)
    decreases |jobs| - from
  {
    if from < |jobs| {
      PendingFromFinds(jobs, from + 1);
    }
  }

  function Batch(jobs: seq<Job>, limit: nat): (batch: seq<nat>) {
    var found := PendingFrom(jobs, 0);
    if |found| <= limit then found else found[..limit]
  }

  lemma BatchFinds(jobs: seq<Job>, limit: nat)
    ensures |Batch(jobs, limit)| <= limit && PendingFirst(Batch(jobs, limit), jobs, 0)
      && Within(Batch(jobs, limit), jobs)
    ensures |Batch(jobs, limit)| < limit ==> forall i :: 0 <= i < |jobs| && jobs[i].state == Pending ==>
      i in Batch(jobs, limit)
  {
    PendingFromFinds(jobs, 0);
  }

  /** How the work on a claimed job ends: the provider answers, the prefilter now drops the change, or
      something raises. */
  datatype Outcome = Answered | Dropped | Raised

  function Ending(q: Queue, job: Job, outcome: Outcome): Outcome {
    match job.kind
    case Unsupported => Raised
    case Effort => if outcome == Dropped then Raised else outcome
    case Importance => if job.entity !in q.reviews then Raised else outcome
  }

  predicate Parks(job: Job, enabled: bool, chatReady: bool) {
    job.kind == Importance && !enabled && !chatReady
  }

  predicate Refuses(job: Job, enabled: bool) {
    job.kind != Importance && !enabled
  }

  /** The attempt is counted from the value loaded with the batch. */
  function Claimed(q: Queue, i: nat, loaded: nat): Queue
    requires i < |q.jobs|
  {
    Queue(q.jobs[i := q.jobs[i].(state := Reviewing, attempts := loaded + 1)], q.efforts, q.reviews)
  }

  /** A change analysis is shown as under review while the provider works. */
  function CallStarted(q: Queue, i: nat): Queue
    requires i < |q.jobs|
  {
    if q.jobs[i].kind == Importance
    then Queue(q.jobs, q.efforts, Relabelled(q.reviews, q.jobs[i].entity, Reviewing))
    else q
  }

  function Succeeded(q: Queue, i: nat): Queue
    requires i < |q.jobs|
  {
    var job := q.jobs[i];
    if job.kind == Effort
    then Queue(q.jobs[i := job.(state := Ready)], q.efforts[job.entity := Analysis(Ready, job.hash)], q.reviews)
    else Queue(q.jobs[i := job.(state := Ready)], q.efforts, q.reviews[job.entity := Analysis(Ready, job.hash)])
  }

  function Stopped(q: Queue, i: nat, max: nat, enabled: bool): Queue
    requires i < |q.jobs|
  {
    var job := q.jobs[i];
    var terminal := job.attempts >= max || Refuses(job, enabled);
    var moved := Moved(q, i, if terminal then Failed else Pending);
    if terminal || job.kind == Importance then MarkedFailed(moved, job) else moved
  }

  function Settled(q: Queue, i: nat, outcome: Outcome, max: nat, enabled: bool): Queue
    requires i < |q.jobs|
  {
    match Ending(q, q.jobs[i], outcome)
    case Answered => Succeeded(q, i)
    case Dropped => Queue(Moved(q, i, Ready).jobs, q.efforts, Relabelled(q.reviews, q.jobs[i].entity, Suppressed))
    case Raised => Stopped(q, i, max, enabled)
  }

  datatype Turn = Turn(chatReady: bool, outcome: Outcome)

  function TurnTaken(q: Queue, i: nat, turn: Turn, max: nat, enabled: bool): (r: Queue)
    requires i < |q.jobs|
    ensures |r.jobs| == |q.jobs| && forall k :: 0 <= k < |q.jobs| && k != i ==> r.jobs[k] == q.jobs[k]
  {
    if Parks(q.jobs[i], enabled, turn.chatReady) then Moved(q, i, WaitingAi)
    else if Refuses(q.jobs[i], enabled) then Stopped(q, i, max, enabled)
    else
      var claimed := Claimed(q, i, q.jobs[i].attempts);
      Settled(if turn.outcome == Dropped then claimed else CallStarted(claimed, i), i, turn.outcome, max, enabled)
  }

  function TurnsTaken(q: Queue, batch: seq<nat>, turns: seq<Turn>, n: nat, max: nat, enabled: bool): (r: Queue)
    requires n <= |batch| <= |turns| && Within(batch, q.jobs)
    ensures |r.jobs| == |q.jobs|
  {
    if n == 0 then q
    else TurnTaken(TurnsTaken(q, batch, turns, n - 1, max, enabled), batch[n - 1], turns[n - 1], max, enabled)
  }

  /** What one pass cannot foresee: claims that have gone stale, whether the built-in provider is enabled
      and the chat provider ready, and how each job's turn goes. */
  datatype Pass = Pass(limit: nat, stale: set<nat>, enabled: bool, chatReady: bool, turns: seq<Turn>)

  predicate Complete(pass: Pass) {
    |pass.turns| >= Limit(pass)
  }

  function Limit(pass: Pass): nat {
    if pass.limit < 1 then 1 else if pass.limit > 10 then 10 else pass.limit
  }

  function Prepared(q: Queue, pass: Pass, max: nat): (r: Queue)
    ensures |r.jobs| == |q.jobs|
  {
    Routed(Recovered(q, |q.jobs|, pass.stale, max), pass.enabled || pass.chatReady)
  }

  function Picked(q: Queue, pass: Pass, max: nat): (batch: seq<nat>)
    ensures |batch| <= Limit(pass) && Within(batch, q.jobs) && PendingFirst(batch, Prepared(q, pass, max).jobs, 0)
  {
    BatchFinds(Prepared(q, pass, max).jobs, Limit(pass));
    Batch(Prepared(q, pass, max).jobs, Limit(pass))
  }

  function AfterPass(q: Queue, pass: Pass, max: nat): (r: Queue)
    requires Complete(pass)
    ensures |r.jobs| == |q.jobs|
  {
    var batch := Picked(q, pass, max);
    TurnsTaken(Prepared(q, pass, max), batch, pass.turns, |batch|, max, pass.enabled)
  }
}
