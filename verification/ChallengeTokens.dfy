/** backend/app/auth/broker_challenges.py over whole runs: what somebody must have presented for a challenge to
    be where it is. */
module ChallengeTokens {
  import opened Challenges
  import opened ChallengeHistory

  /** `c` created the challenge `id`, and the row is for whom and until when it said. */
  predicate Made(c: Op, id: nat, row: Challenge) {
    && c.Create? && c.id == id && row.provider == c.provider && row.target == c.target
    && row.ticket == c.ticket && row.control == c.control && row.deadline == c.now + c.ttl
  }

  ghost predicate CreatedAs(past: set<Op>, id: nat, row: Challenge) {
    exists c :: c in past && Made(c, id, row)
  }

  /** `a` presented the ticket that `c` gave out, in time. */
  predicate ShowsTicket(c: Op, a: Op, instance: nat, id: nat) {
    && c.Create? && c.id == id && a.Claim? && a.ref == Ref(id, instance, c.provider)
    && a.token == c.ticket && a.now < c.now + c.ttl
  }

  /** The ticket was presented, and the exchange token `e` was the answer. */
  ghost predicate TicketShown(past: set<Op>, instance: nat, id: nat, e: Token) {
    exists c, a :: c in past && a in past && ShowsTicket(c, a, instance, id) && a.exchange == e
  }

  ghost predicate WasClaimed(past: set<Op>, instance: nat, id: nat) {
    exists e :: TicketShown(past, instance, id, e)
  }

  /** That exchange token was presented in turn. */
  ghost predicate ExchangeShown(past: set<Op>, instance: nat, id: nat) {
    exists e, b :: TicketShown(past, instance, id, e) && b in past
      && b.Begin? && b.ref.id == id && b.ref.instance == instance && b.token == e
  }

  predicate CancelsBy(c: Op, x: Op, instance: nat, id: nat) {
    && c.Create? && c.id == id
    && ((x.Control? && x.cancel && x.ref == Ref(id, instance, c.provider) && x.token == c.control)
        || (x.Create? && x.provider == c.provider && x.target.credential == c.target.credential))
  }

  predicate LateFor(c: Op, x: Op, id: nat) {
    && c.Create? && c.id == id && !x.Fail? && c.now + c.ttl <= x.now
    && (if x.Finish? then x.id == id else !x.Create? && x.ref.id == id)
  }

  /** What brings a challenge to an end: its control token or a newer attempt, the deadline, a failure, or a
      completion by someone who presented both tokens. */
  ghost predicate Caused(past: set<Op>, instance: nat, id: nat, state: State) {
    match state
    case Cancelled => exists c, x :: c in past && x in past && CancelsBy(c, x, instance, id)
    case TimedOut => exists c, x :: c in past && x in past && LateFor(c, x, id)
    case Failed => Op.Fail(id) in past
    case Authenticated => ExchangeShown(past, instance, id)
    case _ => true
  }

  ghost predicate RowExplained(past: set<Op>, instance: nat, id: nat, row: Challenge) {
    && CreatedAs(past, id, row)
    && (row.exchange.Some? ==> TicketShown(past, instance, id, row.exchange.value))
    && (row.finishing ==> ExchangeShown(past, instance, id))
    && Caused(past, instance, id, row.state)
  }

  ghost predicate Explained(past: set<Op>, instance: nat, h: History) {
    && h.table.instance == instance
    && (forall id :: id in h.table.rows ==> RowExplained(past, instance, id, h.table.rows[id]))
    && (forall id :: id in h.claims ==> WasClaimed(past, instance, id))
    && (forall id :: id in h.ended ==> Caused(past, instance, id, h.ended[id]))
  }

  lemma TicketStaysShown(past: set<Op>, op: Op, instance: nat, id: nat, e: Token)
    requires TicketShown(past, instance, id, e)
    ensures TicketShown(past + {op}, instance, id, e)
  {
    var c, a :| c in past && a in past && ShowsTicket(c, a, instance, id) && a.exchange == e;
    assert c in past + {op} && a in past + {op};
  }

  lemma ExchangeStaysShown(past: set<Op>, op: Op, instance: nat, id: nat)
    requires ExchangeShown(past, instance, id)
    ensures ExchangeShown(past + {op}, instance, id)
  {
    var e, b :| TicketShown(past, instance, id, e) && b in past
      && b.Begin? && b.ref.id == id && b.ref.instance == instance && b.token == e;
    TicketStaysShown(past, op, instance, id, e);
    assert b in past + {op};
  }

  lemma CauseStays(past: set<Op>, op: Op, instance: nat, id: nat, state: State)
    requires Caused(past, instance, id, state)
    ensures Caused(past + {op}, instance, id, state)
  {
    match state
    case Cancelled =>
      var c, x :| c in past && x in past && CancelsBy(c, x, instance, id);
      assert c in past + {op} && x in past + {op};
    case TimedOut =>
      var c, x :| c in past && x in past && LateFor(c, x, id);
      assert c in past + {op} && x in past + {op};
    case Authenticated => ExchangeStaysShown(past, op, instance, id);
    case _ =>
  }

  /** A row an operation leaves alone stays explained. */
  lemma RowStaysExplained(past: set<Op>, op: Op, instance: nat, id: nat, row: Challenge)
    requires RowExplained(past, instance, id, row)
    ensures RowExplained(past + {op}, instance, id, row)
  {
    var c :| c in past && Made(c, id, row);
    assert c in past + {op};
    if row.exchange.Some? { TicketStaysShown(past, op, instance, id, row.exchange.value); }
    if row.finishing { ExchangeStaysShown(past, op, instance, id); }
    CauseStays(past, op, instance, id, row.state);
  }

  /** A row timed out by an operation that came late. */
  lemma LateRowExplained(past: set<Op>, op: Op, instance: nat, id: nat, row: Challenge)
    requires RowExplained(past, instance, id, row) && (op.Claim? || op.Begin? || op.Control? || op.Finish?)
    requires row.deadline <= op.now && if op.Finish? then op.id == id else op.ref.id == id
    ensures RowExplained(past + {op}, instance, id, row.(state := TimedOut))
  {
    RowStaysExplained(past, op, instance, id, row);
    var c :| c in past && Made(c, id, row);
    assert c in past + {op} && op in past + {op} && LateFor(c, op, id);
  }

  lemma LookedUpExplained(past: set<Op>, op: Op, t: Table, after: map<nat, Challenge>, id: nat)
    requires (op.Claim? || op.Begin? || op.Control?) && LookupEffect(t.rows, after, t.instance, op.ref, op.now)
    requires id in t.rows && RowExplained(past, t.instance, id, t.rows[id])
    ensures id in after && RowExplained(past + {op}, t.instance, id, after[id])
  {
    if after[id] == t.rows[id] {
      RowStaysExplained(past, op, t.instance, id, t.rows[id]);
    } else {
      LateRowExplained(past, op, t.instance, id, t.rows[id]);
    }
  }

  lemma ClaimExplained(past: set<Op>, op: Op, t: Table, id: nat)
    requires op.Claim? && id in t.rows && RowExplained(past, t.instance, id, t.rows[id])
    ensures id in Applied(t, op).rows && RowExplained(past + {op}, t.instance, id, Applied(t, op).rows[id])
    ensures ChallengeHistory.Claims(t, op) && op.ref.id == id ==> WasClaimed(past + {op}, t.instance, id)
  {
    var (next, r) := Claimed(t, op.now, op.ref, op.token, op.exchange);
    ClaimHasEffect(t, op.now, op.ref, op.token, op.exchange);
    if !r.Granted? {
      LookedUpExplained(past, op, t, next.rows, id);
    } else {
      RowStaysExplained(past, op, t.instance, id, t.rows[id]);
      if id == op.ref.id {
        var c :| c in past && Made(c, id, t.rows[id]);
        assert c in past + {op} && op in past + {op} && ShowsTicket(c, op, t.instance, id);
        assert TicketShown(past + {op}, t.instance, id, op.exchange);
        assert CreatedAs(past + {op}, id, next.rows[id]);
      }
    }
  }

  lemma BeginExplained(past: set<Op>, op: Op, t: Table, id: nat)
    requires op.Begin? && id in t.rows && RowExplained(past, t.instance, id, t.rows[id])
    ensures id in Applied(t, op).rows && RowExplained(past + {op}, t.instance, id, Applied(t, op).rows[id])
  {
    var (next, r) := Begun(t, op.now, op.ref, op.token);
    BeginHasEffect(t, op.now, op.ref, op.token);
    if !r.Granted? {
      LookedUpExplained(past, op, t, next.rows, id);
    } else {
      RowStaysExplained(past, op, t.instance, id, t.rows[id]);
      if id == op.ref.id {
        var c :| c in past + {op} && Made(c, id, t.rows[id]);
        assert Made(c, id, next.rows[id]) && op in past + {op};
        assert TicketShown(past + {op}, t.instance, id, op.token);
      }
    }
  }

  lemma ControlExplained(past: set<Op>, op: Op, t: Table, id: nat)
    requires op.Control? && id in t.rows && RowExplained(past, t.instance, id, t.rows[id])
    ensures id in Applied(t, op).rows && RowExplained(past + {op}, t.instance, id, Applied(t, op).rows[id])
  {
    var (next, r) := Controlled(t, op.now, op.ref, op.token, op.cancel);
    ControlHasEffect(t, op.now, op.ref, op.token, op.cancel);
    if r.Granted? && op.cancel && Open(t.rows, t.instance, op.ref, op.now) {
      RowStaysExplained(past, op, t.instance, id, t.rows[id]);
      if id == op.ref.id {
        var c :| c in past && Made(c, id, t.rows[id]);
        assert c in past + {op} && op in past + {op} && CancelsBy(c, op, t.instance, id);
        assert Made(c, id, next.rows[id]);
      }
    } else {
      LookedUpExplained(past, op, t, next.rows, id);
    }
  }

  lemma FinishExplained(past: set<Op>, op: Op, t: Table, id: nat)
    requires op.Finish? && id in t.rows && RowExplained(past, t.instance, id, t.rows[id])
    requires op.id in t.rows ==> t.rows[op.id].finishing
    ensures id in Applied(t, op).rows && RowExplained(past + {op}, t.instance, id, Applied(t, op).rows[id])
  {
    FinishHasEffect(t, op.now, op.id, op.publishes);
    var next := Applied(t, op).rows;
    RowStaysExplained(past, op, t.instance, id, t.rows[id]);
    if next[id] != t.rows[id] {
      if next[id].state == TimedOut {
        LateRowExplained(past, op, t.instance, id, t.rows[id]);
      } else {
        var c :| c in past + {op} && Made(c, id, t.rows[id]);
        assert Made(c, id, next[id]);
      }
    }
  }

  lemma FailExplained(past: set<Op>, op: Op, t: Table, id: nat)
    requires op.Fail? && id in t.rows && RowExplained(past, t.instance, id, t.rows[id])
    ensures id in Applied(t, op).rows && RowExplained(past + {op}, t.instance, id, Applied(t, op).rows[id])
  {
    FailHasEffect(t, op.id);
    RowStaysExplained(past, op, t.instance, id, t.rows[id]);
    var c :| c in past + {op} && Made(c, id, t.rows[id]);
    assert Made(c, id, Applied(t, op).rows[id]) && op in past + {op};
  }

  lemma CreateExplained(past: set<Op>, op: Op, t: Table, id: nat)
    requires op.Create? && op.id !in t.rows && id in Applied(t, op).rows
    requires id in t.rows ==> RowExplained(past, t.instance, id, t.rows[id])
    ensures RowExplained(past + {op}, t.instance, id, Applied(t, op).rows[id])
  {
    CreateHasEffect(t, op.now, op.ttl, op.provider, op.target, op.id, op.ticket, op.control);
    var next := Applied(t, op).rows;
    if id == op.id {
      assert op in past + {op} && Made(op, id, next[id]);
    } else {
      RowStaysExplained(past, op, t.instance, id, t.rows[id]);
      var c :| c in past + {op} && Made(c, id, t.rows[id]);
      assert Made(c, id, next[id]);
      if next[id] != t.rows[id] {
        assert op in past + {op} && CancelsBy(c, op, t.instance, id);
      }
    }
  }

  lemma NewIdsAreNew(h: History, op: Op)
    requires Sound(h) && Possible(h, op) && op.Create?
    ensures op.id !in h.table.rows
  {
    forall id | id in h.table.rows ensures id in h.used { assert RowAgrees(h, id); }
  }

  lemma RowNextExplained(past: set<Op>, instance: nat, h: History, op: Op, id: nat)
    requires Sound(h) && Possible(h, op) && Explained(past, instance, h) && id in Next(h, op).table.rows
    ensures RowExplained(past + {op}, instance, id, Next(h, op).table.rows[id])
  {
    if op.Create? {
      NewIdsAreNew(h, op);
      CreateExplained(past, op, h.table, id);
    } else {
      OnlyCreateAddsOrPrunes(h.table, op);
      assert id in h.table.rows && RowExplained(past, instance, id, h.table.rows[id]);
      match op
      case Claim(_, _, _, _) => ClaimExplained(past, op, h.table, id);
      case Begin(_, _, _) => BeginExplained(past, op, h.table, id);
      case Finish(_, _, _) => FinishExplained(past, op, h.table, id);
      case Fail(_) => FailExplained(past, op, h.table, id);
      case Control(_, _, _, _) => ControlExplained(past, op, h.table, id);
    }
  }

  lemma NextKeepsInstance(t: Table, op: Op)
    ensures Applied(t, op).instance == t.instance
  {
  }

  lemma NextExplained(past: set<Op>, instance: nat, h: History, op: Op)
    requires Sound(h) && Possible(h, op) && Explained(past, instance, h)
    ensures Explained(past + {op}, instance, Next(h, op))
  {
    var n := Next(h, op);
    NextKeepsInstance(h.table, op);
    forall id | id in n.table.rows ensures RowExplained(past + {op}, instance, id, n.table.rows[id]) {
      RowNextExplained(past, instance, h, op, id);
    }
    forall id | id in n.claims ensures WasClaimed(past + {op}, instance, id) {
      if id in h.claims {
        var e :| TicketShown(past, instance, id, e);
        TicketStaysShown(past, op, instance, id, e);
      } else {
        ClaimHasEffect(h.table, op.now, op.ref, op.token, op.exchange);
        ClaimExplained(past, op, h.table, id);
      }
    }
    forall id | id in n.ended ensures Caused(past + {op}, instance, id, n.ended[id]) {
      if id in h.ended {
        CauseStays(past, op, instance, id, h.ended[id]);
      } else {
        assert RowExplained(past + {op}, instance, id, n.table.rows[id]);
      }
    }
  }

  function OpsOf(ops: seq<Op>): set<Op> {
    set i | 0 <= i < |ops| :: ops[i]
  }

  lemma OpsOfRest(ops: seq<Op>)
    requires ops != []
    ensures OpsOf(ops) == {ops[0]} + OpsOf(ops[1..])
  {
    forall op | op in OpsOf(ops) ensures op in {ops[0]} + OpsOf(ops[1..]) {
      var i :| 0 <= i < |ops| && ops[i] == op;
      if i > 0 { assert ops[1..][i - 1] == op; }
    }
  }

  lemma {:induction false} RunsAreExplained(past: set<Op>, instance: nat, h: History, ops: seq<Op>)
    requires Sound(h) && AllPossible(h, ops) && Explained(past, instance, h)
    ensures Explained(past + OpsOf(ops), instance, Run(h, ops))
    decreases |ops|
  {
    if ops == [] {
      assert past + OpsOf(ops) == past;
    } else {
      NextIsSound(h, ops[0]);
      NextExplained(past, instance, h, ops[0]);
      RunsAreExplained(past + {ops[0]}, instance, Next(h, ops[0]), ops[1..]);
      OpsOfRest(ops);
      assert past + {ops[0]} + OpsOf(ops[1..]) == past + OpsOf(ops);
    }
  }

  lemma {:induction false} FirstRunsAreExplained(instance: nat, ops: seq<Op>)
    requires AllPossible(Empty(instance), ops)
    ensures Explained(OpsOf(ops), instance, Run(Empty(instance), ops))
  {
    RunsAreExplained({}, instance, Empty(instance), ops);
    assert {} + OpsOf(ops) == OpsOf(ops);
  }

  lemma ExplainedMeans(past: set<Op>, instance: nat, h: History, id: nat)
    requires Sound(h) && Explained(past, instance, h)
    ensures id in h.claims ==> exists c, a :: c in past && a in past && ShowsTicket(c, a, instance, id)
    ensures id in h.published ==> ExchangeShown(past, instance, id)
    ensures id in h.ended ==> Caused(past, instance, id, h.ended[id])
  {
    if id in h.claims {
      var e :| TicketShown(past, instance, id, e);
    }
  }

  /** Nobody gets past a challenge without its tokens: over every run from an empty table, a claimed challenge
      was claimed with the ticket it was created with and in time; a published one was, besides, completed with
      the exchange token that claim was answered with; and each other ending has its own cause. */
  lemma {:induction false} EveryGrantPresentedItsToken(instance: nat, ops: seq<Op>, id: nat)
    requires AllPossible(Empty(instance), ops)
    ensures var h, all := Run(Empty(instance), ops), OpsOf(ops);
      && (id in h.claims ==> exists c, a :: c in all && a in all && ShowsTicket(c, a, instance, id))
      && (id in h.published ==> ExchangeShown(all, instance, id))
      && (id in h.ended ==> Caused(all, instance, id, h.ended[id]))
  {
    RunsAreSound(Empty(instance), ops);
    FirstRunsAreExplained(instance, ops);
    ExplainedMeans(OpsOf(ops), instance, Run(Empty(instance), ops), id);
  }
}
