/** Whole runs of one tenant's challenge store: every challenge ends at most once, for good, and only a
    challenge that ended authenticated was ever published. */
module ChallengeHistory {
  import opened Challenges
  import opened Sets

  datatype Op =
    | Create(now: int, ttl: int, provider: Provider, target: Target, id: nat, ticket: Token, control: Token)
    | Claim(now: int, ref: Ref, token: Token, exchange: Token)
    | Begin(now: int, ref: Ref, token: Token)
    | Finish(now: int, id: nat, publishes: bool)
    | Fail(id: nat)
    | Control(now: int, ref: Ref, token: Token, cancel: bool)

  /** `used`, `ended`, `claims` and `published` remember what pruning forgets. */
  datatype History = History(table: Table, used: set<nat>, ended: map<nat, State>, claims: seq<nat>,
      published: seq<nat>)

  function Empty(instance: nat): History {
    History(Table(instance, map[]), {}, map[], [], [])
  }

  function Applied(t: Table, op: Op): Table {
    match op
    case Create(now, ttl, provider, target, id, ticket, control) =>
      Created(t, now, ttl, provider, target, id, ticket, control)
    case Claim(now, ref, token, exchange) => Claimed(t, now, ref, token, exchange).0
    case Begin(now, ref, token) => Begun(t, now, ref, token).0
    case Finish(now, id, publishes) => Finished(t, now, id, publishes)
    case Fail(id) => FailedRow(t, id)
    case Control(now, ref, token, cancel) => Controlled(t, now, ref, token, cancel).0
  }

  function Endings(t: Table): map<nat, State> {
    map id | id in t.rows && !Live(t.rows[id]) :: t.rows[id].state
  }

  predicate Claims(t: Table, op: Op) {
    op.Claim? && Claimed(t, op.now, op.ref, op.token, op.exchange).1.Granted?
  }

  predicate Publishes(t: Table, op: Op) {
    op.Finish? && op.publishes && MayFinish(t, op.now, op.id)
  }

  function Next(h: History, op: Op): History {
    var table := Applied(h.table, op);
    History(
      table,
      if op.Create? then h.used + {op.id} else h.used,
      Endings(table) + h.ended,
      if Claims(h.table, op) then h.claims + [op.ref.id] else h.claims,
      if Publishes(h.table, op) then h.published + [op.id] else h.published)
  }

  /** New identifiers are fresh random values, and only the handler that began a completion finishes it. */
  predicate Possible(h: History, op: Op) {
    && (op.Create? ==> op.id !in h.used)
    && (op.Finish? && op.id in h.table.rows ==> h.table.rows[op.id].finishing)
  }

  predicate AllPossible(h: History, ops: seq<Op>)
    decreases |ops|
  {
    ops == [] || (Possible(h, ops[0]) && AllPossible(Next(h, ops[0]), ops[1..]))
  }

  function Run(h: History, ops: seq<Op>): History
    decreases |ops|
  {
    if ops == [] then h else Run(Next(h, ops[0]), ops[1..])
  }

  predicate Rivals(a: Challenge, b: Challenge) {
    Live(a) && Live(b) && a.provider == b.provider && a.target.credential == b.target.credential
  }

  ghost predicate OneLivePerProfile(t: Table) {
    forall i, j :: i in t.rows && j in t.rows && i != j ==> !Rivals(t.rows[i], t.rows[j])
  }

  ghost predicate Distinct(s: seq<nat>) {
    forall i, j :: 0 <= i < j < |s| ==> s[i] != s[j]
  }

  ghost predicate RowAgrees(h: History, id: nat)
    requires id in h.table.rows
  {
    var row := h.table.rows[id];
    && id in h.used
    && (Live(row) <==> id !in h.ended)
    && (!Live(row) ==> h.ended[id] == row.state)
    && (row.claimed <==> id in h.claims)
    && (row.finishing ==> row.claimed)
    && (row.exchange.Some? ==> row.claimed)
  }

  ghost predicate Sound(h: History) {
    && |h.table.rows| <= LIMIT
    && OneLivePerProfile(h.table)
    && (forall id :: id in h.table.rows ==> RowAgrees(h, id))
    && (forall id :: id in h.ended || id in h.claims ==> id in h.used)
    && (forall id :: id in h.published <==> id in h.ended && h.ended[id] == Authenticated)
    && (forall id :: id in h.published ==> id in h.claims)
    && Distinct(h.claims) && Distinct(h.published)
  }

  /** How one row may change: who it is for never, its state only while live, its claim only one way. */
  predicate Evolves(a: Challenge, b: Challenge) {
    && b.provider == a.provider && b.target == a.target && b.ticket == a.ticket && b.control == a.control
    && b.deadline == a.deadline
    && (!Live(a) ==> b.state == a.state)
    && (a.claimed ==> b.claimed)
    && (b.finishing ==> b.claimed || a.finishing)
    && (b.exchange.Some? ==> b.claimed || a.exchange.Some?)
  }

  lemma PresentedTokensEvolve(t: Table, op: Op, id: nat)
    requires id in Applied(t, op).rows && (op.Claim? || op.Begin?)
    ensures id in t.rows && Evolves(t.rows[id], Applied(t, op).rows[id])
  {
  }

  lemma RowsEvolve(t: Table, op: Op, id: nat)
    requires id in Applied(t, op).rows && (op.Create? ==> id != op.id)
    ensures id in t.rows && Evolves(t.rows[id], Applied(t, op).rows[id])
  {
    if op.Claim? || op.Begin? {
      PresentedTokensEvolve(t, op, id);
    }
  }

  lemma ClaimedExactlyByClaims(t: Table, op: Op, id: nat)
    requires id in Applied(t, op).rows && id in t.rows && (op.Create? ==> id != op.id)
    ensures Applied(t, op).rows[id].claimed && !t.rows[id].claimed <==> Claims(t, op) && op.ref.id == id
  {
  }

  lemma AuthenticatedExactlyByPublication(t: Table, op: Op, id: nat)
    requires id in Applied(t, op).rows && id in t.rows && (op.Create? ==> id != op.id)
    ensures Applied(t, op).rows[id].state == Authenticated && t.rows[id].state != Authenticated <==>
      Publishes(t, op) && op.id == id
  {
  }

  lemma OnlyCreateAddsOrPrunes(t: Table, op: Op)
    ensures !op.Create? ==> Applied(t, op).rows.Keys == t.rows.Keys
  {
  }

  lemma RowCountBounded(t: Table, op: Op)
    requires |t.rows| <= LIMIT
    ensures |Applied(t, op).rows| <= LIMIT
  {
    OnlyCreateAddsOrPrunes(t, op);
    if op.Create? {
      var kept := Pruned(t, op.now);
      SubsetIsSmaller(kept.rows.Keys, t.rows.Keys);
      assert |kept.rows| == |kept.rows.Keys|;
      if |kept.rows| < LIMIT {
        assert Applied(t, op).rows.Keys == kept.rows.Keys + {op.id};
      }
    } else {
      assert |Applied(t, op).rows| == |Applied(t, op).rows.Keys|;
    }
  }

  lemma ProfileStaysUnique(t: Table, op: Op)
    requires OneLivePerProfile(t) && (op.Create? ==> op.id !in t.rows)
    ensures OneLivePerProfile(Applied(t, op))
  {
    var next := Applied(t, op);
    forall i, j | i in next.rows && j in next.rows && i != j ensures !Rivals(next.rows[i], next.rows[j]) {
      if !op.Create? || (i != op.id && j != op.id) {
        RowsEvolve(t, op, i);
        RowsEvolve(t, op, j);
        assert !Rivals(t.rows[i], t.rows[j]);
      }
    }
  }

  lemma NextIsSound(h: History, op: Op)
    requires Sound(h) && Possible(h, op)
    ensures Sound(Next(h, op))
  {
    var n := Next(h, op);
    RowCountBounded(h.table, op);
    ProfileStaysUnique(h.table, op);
    forall id | id in n.table.rows ensures RowAgrees(n, id) {
      if !op.Create? || id != op.id {
        RowsEvolve(h.table, op, id);
        ClaimedExactlyByClaims(h.table, op, id);
        assert RowAgrees(h, id);
      }
    }
    ClaimsAgree(h, op);
    forall id ensures id in n.published <==> id in n.ended && n.ended[id] == Authenticated {
      PublicationAgrees(h, op, id);
    }
    PublishedWereClaimed(h, op);
  }

  lemma ClaimsAgree(h: History, op: Op)
    requires Sound(h) && Possible(h, op)
    ensures var n := Next(h, op);
      Distinct(n.claims) && forall id :: id in n.ended || id in n.claims ==> id in n.used
  {
    OnlyCreateAddsOrPrunes(h.table, op);
    if Claims(h.table, op) {
      assert RowAgrees(h, op.ref.id);
    }
    forall id | id in h.table.rows ensures id in h.used { assert RowAgrees(h, id); }
  }

  lemma PublicationAgrees(h: History, op: Op, id: nat)
    requires Sound(h) && Possible(h, op)
    ensures id in Next(h, op).published <==> id in Next(h, op).ended && Next(h, op).ended[id] == Authenticated
  {
    if id in Next(h, op).table.rows && (!op.Create? || id != op.id) {
      RowsEvolve(h.table, op, id);
      AuthenticatedExactlyByPublication(h.table, op, id);
      assert RowAgrees(h, id);
    }
  }

  lemma PublishedWereClaimed(h: History, op: Op)
    requires Sound(h) && Possible(h, op)
    ensures Distinct(Next(h, op).published) && forall id :: id in Next(h, op).published ==> id in Next(h, op).claims
  {
    if Publishes(h.table, op) {
      assert RowAgrees(h, op.id);
    }
  }

  /** Over every run: at most 64 rows, one live challenge per provider and credential, each claimed and
      published at most once, published only if claimed, and published exactly if ended authenticated. */
  lemma {:induction false} RunsAreSound(h: History, ops: seq<Op>)
    requires Sound(h) && AllPossible(h, ops)
    ensures Sound(Run(h, ops))
    decreases |ops|
  {
    if ops != [] {
      NextIsSound(h, ops[0]);
      RunsAreSound(Next(h, ops[0]), ops[1..]);
    }
  }

  /** An ending is final: after cancellation, timeout, failure or supersession a challenge is never
      published, and after publication it is nothing else, however the run goes on. */
  lemma {:induction false} EndingsAreFinal(h: History, ops: seq<Op>, id: nat)
    requires Sound(h) && AllPossible(h, ops) && id in h.ended
    ensures id in Run(h, ops).ended && Run(h, ops).ended[id] == h.ended[id]
    ensures h.ended[id] != Authenticated ==> id !in Run(h, ops).published
    decreases |ops|
  {
    if ops != [] {
      NextIsSound(h, ops[0]);
      EndingsAreFinal(Next(h, ops[0]), ops[1..], id);
    }
    RunsAreSound(h, ops);
  }

  /** The same from the first start, written out: the table is bounded, nothing was claimed or published
      twice, and what was published had been claimed. */
  lemma {:induction false} RunsFromTheFirstStartAreSound(instance: nat, ops: seq<Op>)
    requires AllPossible(Empty(instance), ops)
    ensures var h := Run(Empty(instance), ops);
      && |h.table.rows| <= LIMIT && OneLivePerProfile(h.table) && Distinct(h.claims) && Distinct(h.published)
      && (forall id :: id in h.published <==> id in h.ended && h.ended[id] == Authenticated)
      && (forall id :: id in h.published ==> id in h.claims)
  {
    RunsAreSound(Empty(instance), ops);
  }
}
