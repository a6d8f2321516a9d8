/** backend/app/api/broker.py: what a completed sign-in publishes. Challenges capture a generation when
    they are created; publication is a compare and set against it. */
module Publication {
  import opened Documents
  import opened Challenges
  import opened ProviderSessionStore

  /** One change of `key` made by a challenge that had captured `generation`. */
  datatype Act = Act(challenge: nat, key: string, generation: nat, before: Option<ProviderSession>)

  /** `seen` records what each challenge saw of each key it captured. */
  datatype World = World(
    table: Table,
    sessions: SessionState,
    log: seq<Act>,
    seen: map<(nat, string), (nat, Option<ProviderSession>)>)

  datatype Op =
    | CreateLogin(now: int, ttl: int, provider: Provider, key: string, login: bool, id: nat, ticket: Token,
      control: Token)
    | CreateClearAll(now: int, ttl: int, keys: set<string>, id: nat, ticket: Token, control: Token)
    | Claim(now: int, ref: Ref, token: Token, exchange: Token)
    | Begin(now: int, ref: Ref, token: Token)
    | Fail(id: nat)
    | Control(now: int, ref: Ref, token: Token, cancel: bool)
    | Complete(now: int, id: nat, value: ProviderSession, baseUnchanged: bool, vaultOk: bool)
    | CompleteClearAll(now: int, id: nat, order: seq<string>, failsAt: nat)
    | OutsideSet(key: string, value: ProviderSession, expected: nat)
    | OutsideRemove(key: string)

  function Capture(w: World, keys: set<string>): map<string, nat> {
    map key | key in keys :: GenerationOf(w.sessions, key)
  }

  function SeenBy(w: World, id: nat, keys: set<string>): map<(nat, string), (nat, Option<ProviderSession>)> {
    w.seen + map key | key in keys :: (id, key) := (GenerationOf(w.sessions, key), ValueOf(w.sessions, key))
  }

  /** `publish_provider`: the generation and base URL must be the captured ones, and the vault must
      take the write; otherwise it raises and nothing is published. */
  predicate Agrees(w: World, target: Target, baseUnchanged: bool) {
    GenerationOf(w.sessions, target.credential) == target.generation && baseUnchanged
  }

  function Record(w: World, id: nat, key: string): Act {
    Act(id, key, GenerationOf(w.sessions, key), ValueOf(w.sessions, key))
  }

  /** The provider part of `clear_all`: keys still at their captured generation are removed one by one;
      a vault fault at position `failsAt` stops the loop there. */
  function RemoveMatching(w: World, id: nat, expected: map<string, nat>, order: seq<string>,
      failsAt: nat): (World, bool)
    decreases |order|
  {
    if order == [] then (w, true)
    else if order[0] !in expected || GenerationOf(w.sessions, order[0]) != expected[order[0]] then
      RemoveMatching(w, id, expected, order[1..], failsAt)
    else if failsAt == 0 then (w, false)
    else
      RemoveMatching(
        w.(sessions := Dropped(w.sessions, order[0]), log := w.log + [Record(w, id, order[0])]),
        id, expected, order[1..], failsAt - 1)
  }

  function Next(w: World, op: Op): World {
    match op
    case CreateLogin(now, ttl, provider, key, login, id, ticket, control) =>
      var target := Target(key, login, GenerationOf(w.sessions, key), map[]);
      w.(table := Created(w.table, now, ttl, provider, target, id, ticket, control),
         seen := SeenBy(w, id, {key}))
    case CreateClearAll(now, ttl, keys, id, ticket, control) =>
      w.(table := Created(w.table, now, ttl, All, Target("all", false, 0, Capture(w, keys)), id, ticket, control),
         seen := SeenBy(w, id, keys))
    case Claim(now, ref, token, exchange) => w.(table := Claimed(w.table, now, ref, token, exchange).0)
    case Begin(now, ref, token) => w.(table := Begun(w.table, now, ref, token).0)
    case Fail(id) => w.(table := FailedRow(w.table, id))
    case Control(now, ref, token, cancel) => w.(table := Controlled(w.table, now, ref, token, cancel).0)
    case Complete(now, id, value, baseUnchanged, vaultOk) =>
      if !MayFinish(w.table, now, id) || w.table.rows[id].provider == All
        || !Agrees(w, w.table.rows[id].target, baseUnchanged) || !vaultOk then
        w.(table := Finished(w.table, now, id, false))
      else
        var target := w.table.rows[id].target;
        w.(table := Finished(w.table, now, id, true),
           sessions :=
             if target.login then Put(w.sessions, target.credential, value)
             else Dropped(w.sessions, target.credential),
           log := w.log + [Record(w, id, target.credential)])
    case CompleteClearAll(now, id, order, failsAt) =>
      if !MayFinish(w.table, now, id) || w.table.rows[id].provider != All then
        w.(table := Finished(w.table, now, id, false))
      else
        var (cleared, done) := RemoveMatching(w, id, w.table.rows[id].target.generations, order, failsAt);
        cleared.(table := Finished(w.table, now, id, done))
    case OutsideSet(key, value, expected) =>
      if GenerationOf(w.sessions, key) == expected then w.(sessions := Put(w.sessions, key, value)) else w
    case OutsideRemove(key) => w.(sessions := Dropped(w.sessions, key))
  }

  ghost predicate Possible(w: World, op: Op) {
    match op
    case CreateLogin(_, _, provider, key, _, id, _, _) =>
      provider != All && id !in w.table.rows && forall k :: (id, k) !in w.seen
    case CreateClearAll(_, _, _, id, _, _) => id !in w.table.rows && forall k :: (id, k) !in w.seen
    case _ => true
  }

  /** Everything in the log is in the past, and matches what its challenge saw when it was created. */
  ghost predicate LogSound(w: World) {
    && (forall i :: 0 <= i < |w.log| ==> w.log[i].generation < GenerationOf(w.sessions, w.log[i].key))
    && (forall i, j :: 0 <= i < j < |w.log| ==> w.log[i].key == w.log[j].key ==>
      w.log[i].generation != w.log[j].generation)
    && (forall i :: 0 <= i < |w.log| ==>
          && (w.log[i].challenge, w.log[i].key) in w.seen
          && w.seen[(w.log[i].challenge, w.log[i].key)] == (w.log[i].generation, w.log[i].before))
  }

  /** A key still at the generation a challenge saw holds the value it saw. */
  ghost predicate SeenSound(w: World) {
    forall c, k :: (c, k) in w.seen ==>
      && w.seen[(c, k)].0 <= GenerationOf(w.sessions, k)
      && (w.seen[(c, k)].0 == GenerationOf(w.sessions, k) ==> w.seen[(c, k)].1 == ValueOf(w.sessions, k))
  }

  predicate SawTarget(seen: map<(nat, string), (nat, Option<ProviderSession>)>, id: nat, row: Challenge) {
    if row.provider == All then
      forall key :: key in row.target.generations ==>
        (id, key) in seen && seen[(id, key)].0 == row.target.generations[key]
    else (id, row.target.credential) in seen && seen[(id, row.target.credential)].0 == row.target.generation
  }

  ghost predicate RowsSound(w: World) {
    forall id :: id in w.table.rows ==> SawTarget(w.seen, id, w.table.rows[id])
  }

  ghost predicate Sound(w: World) {
    LogSound(w) && SeenSound(w) && RowsSound(w)
  }

  lemma ChangingAKeyIsSound(w: World, next: SessionState, key: string)
    requires LogSound(w) && SeenSound(w)
    requires GenerationOf(next, key) > GenerationOf(w.sessions, key)
    requires forall k :: k != key ==>
      GenerationOf(next, k) == GenerationOf(w.sessions, k) && ValueOf(next, k) == ValueOf(w.sessions, k)
    ensures LogSound(w.(sessions := next)) && SeenSound(w.(sessions := next))
  {
  }

  lemma PublishingIsSound(w: World, id: nat, key: string, next: SessionState)
    requires LogSound(w) && SeenSound(w)
    requires (id, key) in w.seen && w.seen[(id, key)].0 == GenerationOf(w.sessions, key)
    requires GenerationOf(next, key) > GenerationOf(w.sessions, key)
    requires forall k :: k != key ==>
      GenerationOf(next, k) == GenerationOf(w.sessions, k) && ValueOf(next, k) == ValueOf(w.sessions, k)
    ensures var n := w.(sessions := next, log := w.log + [Record(w, id, key)]); LogSound(n) && SeenSound(n)
  {
    ChangingAKeyIsSound(w, next, key);
  }

  lemma {:induction false} RemoveMatchingIsSound(w: World, id: nat, expected: map<string, nat>, order: seq<string>,
      failsAt: nat)
    requires LogSound(w) && SeenSound(w)
    requires forall key :: key in expected ==> (id, key) in w.seen && w.seen[(id, key)].0 == expected[key]
    ensures var n := RemoveMatching(w, id, expected, order, failsAt).0;
      LogSound(n) && SeenSound(n) && n.seen == w.seen && n.table == w.table && w.log <= n.log
    decreases |order|
  {
    if order != [] {
      if order[0] !in expected || GenerationOf(w.sessions, order[0]) != expected[order[0]] {
        RemoveMatchingIsSound(w, id, expected, order[1..], failsAt);
      } else if failsAt > 0 {
        PublishingIsSound(w, id, order[0], Dropped(w.sessions, order[0]));
        RemoveMatchingIsSound(
          w.(sessions := Dropped(w.sessions, order[0]), log := w.log + [Record(w, id, order[0])]),
          id, expected, order[1..], failsAt - 1);
      }
    }
  }

  /** The key is listed and still at the generation the challenge captured. */
  predicate Due(w: World, expected: map<string, nat>, order: seq<string>, key: string) {
    key in order && key in expected && GenerationOf(w.sessions, key) == expected[key]
  }

  predicate SameAt(a: World, b: World, key: string) {
    ValueOf(b.sessions, key) == ValueOf(a.sessions, key)
      && GenerationOf(b.sessions, key) == GenerationOf(a.sessions, key)
  }

  predicate DroppedAt(a: World, b: World, key: string) {
    ValueOf(b.sessions, key) == None && GenerationOf(b.sessions, key) == GenerationOf(a.sessions, key) + 1
  }

  /** Clearing all drops exactly the keys still at their captured generation, each once; when a vault fault
      stops it, each of them is either dropped or untouched, and every other key is untouched. */
  lemma {:induction false} RemoveMatchingRemovesExactly(w: World, id: nat, expected: map<string, nat>,
      order: seq<string>,
      failsAt: nat, key: string)
    ensures var (n, done) := RemoveMatching(w, id, expected, order, failsAt);
      && (!Due(w, expected, order, key) ==> SameAt(w, n, key))
      && (Due(w, expected, order, key) && done ==> DroppedAt(w, n, key))
      && (Due(w, expected, order, key) ==> SameAt(w, n, key) || DroppedAt(w, n, key))
    decreases |order|
  {
    if order != [] {
      if order[0] !in expected || GenerationOf(w.sessions, order[0]) != expected[order[0]] {
        RemoveMatchingRemovesExactly(w, id, expected, order[1..], failsAt, key);
      } else if failsAt > 0 {
        RemoveMatchingRemovesExactly(
          w.(sessions := Dropped(w.sessions, order[0]), log := w.log + [Record(w, id, order[0])]),
          id, expected, order[1..], failsAt - 1, key);
      }
    }
  }

  /** Steps that only touch the challenge table keep every row's provider and target. */
  predicate SameTargets(a: Table, b: Table) {
    forall id :: id in b.rows ==>
      id in a.rows && b.rows[id].provider == a.rows[id].provider && b.rows[id].target == a.rows[id].target
  }

  lemma SameTargetsKeepRows(w: World, table: Table)
    requires RowsSound(w) && SameTargets(w.table, table)
    ensures RowsSound(w.(table := table))
  {
    forall id | id in table.rows ensures SawTarget(w.seen, id, table.rows[id]) {
      assert SawTarget(w.seen, id, w.table.rows[id]);
    }
  }

  lemma FinishedKeepsTargets(t: Table, now: int, id: nat, published: bool)
    ensures SameTargets(t, Finished(t, now, id, published))
  {
  }

  lemma SeenByAt(w: World, id: nat, keys: set<string>, c: nat, k: string)
    ensures (c, k) in SeenBy(w, id, keys) <==> (c == id && k in keys) || (c, k) in w.seen
    ensures c == id && k in keys ==>
      SeenBy(w, id, keys)[(c, k)] == (GenerationOf(w.sessions, k), ValueOf(w.sessions, k))
    ensures !(c == id && k in keys) && (c, k) in w.seen ==> SeenBy(w, id, keys)[(c, k)] == w.seen[(c, k)]
  {
  }

  lemma SeeingIsSound(w: World, id: nat, keys: set<string>)
    requires LogSound(w) && SeenSound(w) && forall k :: (id, k) !in w.seen
    ensures var n := w.(seen := SeenBy(w, id, keys)); LogSound(n) && SeenSound(n)
  {
    var n := w.(seen := SeenBy(w, id, keys));
    forall i | 0 <= i < |w.log|
      ensures (w.log[i].challenge, w.log[i].key) in n.seen
           && n.seen[(w.log[i].challenge, w.log[i].key)] == (w.log[i].generation, w.log[i].before)
    {
      SeenByAt(w, id, keys, w.log[i].challenge, w.log[i].key);
    }
    forall c, k | (c, k) in n.seen
      ensures n.seen[(c, k)].0 <= GenerationOf(n.sessions, k)
           && (n.seen[(c, k)].0 == GenerationOf(n.sessions, k) ==> n.seen[(c, k)].1 == ValueOf(n.sessions, k))
    {
      SeenByAt(w, id, keys, c, k);
    }
  }

  lemma OldRowsStillSaw(w: World, id: nat, keys: set<string>, c: nat, row: Challenge)
    requires SawTarget(w.seen, c, row) && c != id
    ensures SawTarget(SeenBy(w, id, keys), c, row)
  {
    SeenByAt(w, id, keys, c, row.target.credential);
    forall key | row.provider == All && key in row.target.generations
      ensures (c, key) in SeenBy(w, id, keys) && SeenBy(w, id, keys)[(c, key)].0 == row.target.generations[key]
    {
      SeenByAt(w, id, keys, c, key);
    }
  }

  lemma CreatedRows(t: Table, now: int, ttl: int, provider: Provider, target: Target, id: nat, ticket: Token,
      control: Token, c: nat)
    requires c in Created(t, now, ttl, provider, target, id, ticket, control).rows && id !in t.rows
    ensures var row := Created(t, now, ttl, provider, target, id, ticket, control).rows[c];
      if c == id then row.provider == provider && row.target == target
      else c in t.rows && row.provider == t.rows[c].provider && row.target == t.rows[c].target
  {
  }

  lemma NewRowSaw(w: World, id: nat, keys: set<string>, row: Challenge)
    requires row.provider == All ==> row.target.generations == Capture(w, keys)
    requires row.provider != All ==>
      row.target.credential in keys && row.target.generation == GenerationOf(w.sessions, row.target.credential)
    ensures SawTarget(SeenBy(w, id, keys), id, row)
  {
    SeenByAt(w, id, keys, id, row.target.credential);
    forall key | row.provider == All && key in row.target.generations
      ensures (id, key) in SeenBy(w, id, keys) && SeenBy(w, id, keys)[(id, key)].0 == row.target.generations[key]
    {
      SeenByAt(w, id, keys, id, key);
    }
  }

  lemma CreatingIsSound(w: World, now: int, ttl: int, provider: Provider, target: Target, id: nat,
      ticket: Token, control: Token, keys: set<string>)
    requires Sound(w) && id !in w.table.rows && forall k :: (id, k) !in w.seen
    requires if provider == All then target.generations == Capture(w, keys)
             else target.credential in keys && target.generation == GenerationOf(w.sessions, target.credential)
    ensures Sound(w.(table := Created(w.table, now, ttl, provider, target, id, ticket, control),
                     seen := SeenBy(w, id, keys)))
  {
    SeeingIsSound(w, id, keys);
    var table := Created(w.table, now, ttl, provider, target, id, ticket, control);
    forall c | c in table.rows ensures SawTarget(SeenBy(w, id, keys), c, table.rows[c]) {
      CreatedRows(w.table, now, ttl, provider, target, id, ticket, control, c);
      if c == id {
        NewRowSaw(w, id, keys, table.rows[c]);
      } else {
        assert SawTarget(w.seen, c, w.table.rows[c]);
        OldRowsStillSaw(w, id, keys, c, table.rows[c]);
      }
    }
  }

  lemma CompletionIsSound(w: World, op: Op)
    requires Sound(w) && op.Complete?
    ensures Sound(Next(w, op)) && w.log <= Next(w, op).log
  {
    FinishedKeepsTargets(w.table, op.now, op.id, true);
    FinishedKeepsTargets(w.table, op.now, op.id, false);
    SameTargetsKeepRows(w, Next(w, op).table);
    if Next(w, op).log != w.log {
      var target := w.table.rows[op.id].target;
      assert SawTarget(w.seen, op.id, w.table.rows[op.id]);
      PublishingIsSound(w, op.id, target.credential, Next(w, op).sessions);
    }
  }

  lemma ClearAllKeepsRows(w: World, op: Op)
    requires RowsSound(w) && op.CompleteClearAll?
    ensures RowsSound(w.(table := Next(w, op).table))
  {
    FinishedKeepsTargets(w.table, op.now, op.id, true);
    FinishedKeepsTargets(w.table, op.now, op.id, false);
    SameTargetsKeepRows(w, Next(w, op).table);
  }

  lemma ClearAllIsSound(w: World, op: Op)
    requires Sound(w) && op.CompleteClearAll?
    ensures Sound(Next(w, op)) && w.log <= Next(w, op).log
  {
    ClearAllKeepsRows(w, op);
    if MayFinish(w.table, op.now, op.id) && w.table.rows[op.id].provider == All {
      assert SawTarget(w.seen, op.id, w.table.rows[op.id]);
      RemoveMatchingIsSound(w, op.id, w.table.rows[op.id].target.generations, op.order, op.failsAt);
    }
  }

  lemma ClaimKeepsTargets(t: Table, now: int, ref: Ref, token: Token, exchange: Token)
    ensures SameTargets(t, Claimed(t, now, ref, token, exchange).0)
  {
  }

  lemma BeginKeepsTargets(t: Table, now: int, ref: Ref, token: Token)
    ensures SameTargets(t, Begun(t, now, ref, token).0)
  {
  }

  lemma ControlKeepsTargets(t: Table, now: int, ref: Ref, token: Token, cancel: bool)
    ensures SameTargets(t, Controlled(t, now, ref, token, cancel).0)
  {
  }

  lemma TableStepsKeepTargets(w: World, op: Op)
    requires op.Claim? || op.Begin? || op.Fail? || op.Control?
    ensures SameTargets(w.table, Next(w, op).table) && Next(w, op) == w.(table := Next(w, op).table)
  {
    match op
    case Claim(now, ref, token, exchange) => ClaimKeepsTargets(w.table, now, ref, token, exchange);
    case Begin(now, ref, token) => BeginKeepsTargets(w.table, now, ref, token);
    case Control(now, ref, token, cancel) => ControlKeepsTargets(w.table, now, ref, token, cancel);
    case Fail(id) =>
  }

  lemma NextIsSound(w: World, op: Op)
    requires Sound(w) && Possible(w, op)
    ensures Sound(Next(w, op)) && w.log <= Next(w, op).log
  {
    match op
    case CreateLogin(now, ttl, provider, key, login, id, ticket, control) =>
      CreatingIsSound(w, now, ttl, provider, Target(key, login, GenerationOf(w.sessions, key), map[]), id, ticket,
        control, {key});
    case CreateClearAll(now, ttl, keys, id, ticket, control) =>
      CreatingIsSound(w, now, ttl, All, Target("all", false, 0, Capture(w, keys)), id, ticket, control, keys);
    case Complete(_, _, _, _, _) => CompletionIsSound(w, op);
    case CompleteClearAll(_, _, _, _) => ClearAllIsSound(w, op);
    case OutsideSet(key, value, expected) => ChangingAKeyIsSound(w, Put(w.sessions, key, value), key);
    case OutsideRemove(key) => ChangingAKeyIsSound(w, Dropped(w.sessions, key), key);
    case _ =>
      TableStepsKeepTargets(w, op);
      SameTargetsKeepRows(w, Next(w, op).table);
  }

  function Start(instance: nat, sessions: SessionState): World {
    World(Table(instance, map[]), sessions, [], map[])
  }

  function Run(w: World, ops: seq<Op>): World
    decreases |ops|
  {
    if ops == [] then w else Run(Next(w, ops[0]), ops[1..])
  }

  ghost predicate AllPossible(w: World, ops: seq<Op>)
    decreases |ops|
  {
    ops == [] || (Possible(w, ops[0]) && AllPossible(Next(w, ops[0]), ops[1..]))
  }

  lemma {:induction false} RunsAreSound(w: World, ops: seq<Op>)
    requires Sound(w) && AllPossible(w, ops)
    ensures Sound(Run(w, ops)) && w.log <= Run(w, ops).log
    decreases |ops|
  {
    if ops != [] {
      NextIsSound(w, ops[0]);
      RunsAreSound(Next(w, ops[0]), ops[1..]);
    }
  }

  /** Generations linearise publication: over every run, of all challenges that captured one generation
      of a key at most one changes it, and the one that does finds the value it saw when created. */
  lemma {:induction false} OnePublicationPerGeneration(instance: nat, sessions: SessionState, ops: seq<Op>)
    requires AllPossible(Start(instance, sessions), ops)
    ensures var end := Run(Start(instance, sessions), ops);
      && (forall i, j :: 0 <= i < j < |end.log| && end.log[i].key == end.log[j].key ==>
        end.log[i].generation != end.log[j].generation)
      && (forall i :: 0 <= i < |end.log| ==>
            && (end.log[i].challenge, end.log[i].key) in end.seen
            && end.seen[(end.log[i].challenge, end.log[i].key)] == (end.log[i].generation, end.log[i].before))
  {
    RunsAreSound(Start(instance, sessions), ops);
    assert LogSound(Run(Start(instance, sessions), ops));
  }
}
