/** backend/app/api/broker.py: what a completed sign-in, a clearing and the outside world leave of the provider
    sessions. */
module PublicationEffects {
  import opened Documents
  import opened Challenges
  import opened ProviderSessionStore
  import opened Publication

  predicate Untouched(a: SessionState, b: SessionState, key: string) {
    ValueOf(b, key) == ValueOf(a, key) && GenerationOf(b, key) == GenerationOf(a, key)
  }

  /** `key` alone changes, to this value, one generation further. */
  ghost predicate Changes(a: SessionState, b: SessionState, key: string, value: Option<ProviderSession>) {
    && ValueOf(b, key) == value && GenerationOf(b, key) == GenerationOf(a, key) + 1
    && forall other :: other != key ==> Untouched(a, b, other)
  }

  /** The challenge is pending, in time, and for one credential or for all. */
  predicate Completes(w: World, id: nat, now: int, all: bool) {
    && id in w.table.rows && Pending(w.table.rows[id]) && now < w.table.rows[id].deadline
    && (w.table.rows[id].provider == All) == all
  }

  /** A completion publishes exactly if its challenge is pending in time, the credential is still at the generation
      captured, its address is unchanged and the vault takes it: the session is stored, or dropped for a logout,
      and the challenge ends authenticated. Otherwise nothing is published and it does not. */
  lemma CompletingPublishesExactly(w: World, op: Op)
    requires op.Complete?
    ensures var n := Next(w, op);
      var target := if op.id in w.table.rows then w.table.rows[op.id].target else Target("", false, 0, map[]);
      var goes := Completes(w, op.id, op.now, false)
        && GenerationOf(w.sessions, target.credential) == target.generation && op.baseUnchanged && op.vaultOk;
      && n.seen == w.seen
      && FinishEffect(w.table.rows, n.table.rows, op.id, op.now, goes, MayFinish(w.table, op.now, op.id))
      && (goes ==>
            && op.id in n.table.rows && n.table.rows[op.id].state == Authenticated
            && Changes(w.sessions, n.sessions, target.credential, if target.login then Some(op.value) else None)
            && n.log == w.log
                 + [Act(op.id, target.credential, target.generation, ValueOf(w.sessions, target.credential))])
      && (!goes ==> n.sessions == w.sessions && n.log == w.log)
  {
    FinishHasEffect(w.table, op.now, op.id, true);
    FinishHasEffect(w.table, op.now, op.id, false);
  }

  lemma {:induction false} EnoughForAll(w: World, id: nat, expected: map<string, nat>, order: seq<string>, failsAt: nat)
    requires failsAt >= |order|
    ensures RemoveMatching(w, id, expected, order, failsAt).1
    decreases |order|
  {
    if order != [] {
      if order[0] !in expected || GenerationOf(w.sessions, order[0]) != expected[order[0]] {
        EnoughForAll(w, id, expected, order[1..], failsAt);
      } else {
        EnoughForAll(w.(sessions := Dropped(w.sessions, order[0]), log := w.log + [Record(w, id, order[0])]),
          id, expected, order[1..], failsAt - 1);
      }
    }
  }

  lemma {:induction false} RemovingKeepsTheRest(w: World, id: nat, expected: map<string, nat>, order: seq<string>,
      failsAt: nat)
    ensures var n := RemoveMatching(w, id, expected, order, failsAt).0; n.table == w.table && n.seen == w.seen
    decreases |order|
  {
    if order != [] {
      if order[0] !in expected || GenerationOf(w.sessions, order[0]) != expected[order[0]] {
        RemovingKeepsTheRest(w, id, expected, order[1..], failsAt);
      } else if failsAt > 0 {
        RemovingKeepsTheRest(w.(sessions := Dropped(w.sessions, order[0]), log := w.log + [Record(w, id, order[0])]),
          id, expected, order[1..], failsAt - 1);
      }
    }
  }

  /** A clearing that meets no vault fault drops every listed credential still at its captured generation, leaves
      every other one alone, and ends authenticated; one that may not run changes no session. */
  lemma ClearingAllClearsExactly(w: World, op: Op, key: string)
    requires op.CompleteClearAll?
    ensures var n := Next(w, op);
      var expected := if op.id in w.table.rows then w.table.rows[op.id].target.generations else map[];
      var due := key in op.order && key in expected && GenerationOf(w.sessions, key) == expected[key];
      && (Completes(w, op.id, op.now, true) && op.failsAt >= |op.order| ==>
            && op.id in n.table.rows && n.table.rows[op.id].state == Authenticated
            && (due ==> ValueOf(n.sessions, key) == None
                        && GenerationOf(n.sessions, key) == GenerationOf(w.sessions, key) + 1))
      && (!Completes(w, op.id, op.now, true) || !due ==> Untouched(w.sessions, n.sessions, key))
  {
    if Completes(w, op.id, op.now, true) {
      var expected := w.table.rows[op.id].target.generations;
      RemoveMatchingRemovesExactly(w, op.id, expected, op.order, op.failsAt, key);
      RemovingKeepsTheRest(w, op.id, expected, op.order, op.failsAt);
      if op.failsAt >= |op.order| {
        EnoughForAll(w, op.id, expected, op.order, op.failsAt);
      }
    }
  }

  /** A challenge captures what it is going to compare with: the generation, or all of them. */
  lemma CreatingCaptures(w: World, op: Op)
    requires (op.CreateLogin? || op.CreateClearAll?) && op.id !in w.table.rows && op.id in Next(w, op).table.rows
    ensures var n := Next(w, op);
      && n.sessions == w.sessions && n.log == w.log && Pending(n.table.rows[op.id])
      && n.table.rows[op.id].deadline == op.now + op.ttl
      && n.table.rows[op.id].ticket == op.ticket && n.table.rows[op.id].control == op.control
      && (op.CreateLogin? ==>
            && n.table.rows[op.id].provider == op.provider
            && n.table.rows[op.id].target == Target(op.key, op.login, GenerationOf(w.sessions, op.key), map[]))
      && (op.CreateClearAll? ==>
            && n.table.rows[op.id].provider == All
            && n.table.rows[op.id].target.generations.Keys == op.keys
            && forall key :: key in op.keys ==>
                 n.table.rows[op.id].target.generations[key] == GenerationOf(w.sessions, key))
  {
    if op.CreateLogin? {
      CreateHasEffect(w.table, op.now, op.ttl, op.provider,
        Target(op.key, op.login, GenerationOf(w.sessions, op.key), map[]), op.id, op.ticket, op.control);
    } else {
      CreateHasEffect(w.table, op.now, op.ttl, All, Target("all", false, 0, Capture(w, op.keys)), op.id, op.ticket,
        op.control);
    }
  }

  /** Everything else: other steps of the protocol touch no session, and the outside world compares and sets. */
  lemma OtherStepsOnSessions(w: World, op: Op)
    ensures op.Claim? || op.Begin? || op.Fail? || op.Control? ==>
      Next(w, op).sessions == w.sessions && Next(w, op).log == w.log
    ensures op.OutsideSet? ==>
      && Next(w, op).table == w.table && Next(w, op).log == w.log
      && (if GenerationOf(w.sessions, op.key) == op.expected
          then Changes(w.sessions, Next(w, op).sessions, op.key, Some(op.value)) else Next(w, op) == w)
    ensures op.OutsideRemove? ==>
      && Next(w, op).table == w.table && Next(w, op).log == w.log
      && Changes(w.sessions, Next(w, op).sessions, op.key, None)
  {
  }
}
