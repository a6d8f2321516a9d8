/** identity-gateway/aw_gateway/main.py, `broker_browser` and `broker_return`: the gateway between the
    desktop broker and the tenants. Every request is a message that may be lost, delayed, repeated or
    overtaken; the wire therefore only grows and any message on it may be delivered at any time. */
module SignIn {
  import opened Documents
  import opened Challenges
  import opened BrokerMap

  datatype Message =
    | Issued(user: nat, slot: nat, ticket: BackendTicket)
    | AskClaim(outer: Ref, relay: Relay)
    | ClaimAnswer(outer: Ref, slot: nat, inner: Ref, exchange: Token)
    | AskCompletion(outer: Ref, relay: Relay)
    | CompletionAnswer(outer: Ref)
    | AskControl(outer: Ref, relay: Relay, cancel: bool)

  /** Where a mapping leads, fixed when it is created. */
  datatype Origin = Origin(slot: nat, inner: Ref, user: nat)

  /** `born`, `claims` and `handed` are history: the origin of every outer challenge ever created, the
      exchange token each inner claim issued, and the outer exchange tokens given out. */
  datatype World = World(
    rows: Mappings,
    tenants: map<nat, Table>,
    wire: set<Message>,
    known: set<(nat, nat)>,
    born: map<nat, Origin>,
    claims: map<(nat, nat), Token>,
    handed: seq<(nat, Token)>)

  datatype Step =
    | TenantCreate(slot: nat, user: nat, now: int, ttl: int, provider: Provider, target: Target, id: nat, ticket: Token,
      control: Token)
    | GatewayCreate(message: Message, now: int, outer: nat, ticket: Token, control: Token)
    | RelayClaim(now: int, ref: Ref, token: Token)
    | TenantClaim(message: Message, now: int, exchange: Token)
    | GatewayExchange(message: Message, now: int, outerToken: Token)
    | RelayCompletion(now: int, ref: Ref, token: Token)
    | TenantBegin(message: Message, now: int)
    | TenantFinish(message: Message, now: int, publishes: bool)
    | TenantFail(message: Message, answered: bool)
    | GatewayFinish(message: Message, now: int)
    | RelayControl(now: int, ref: Ref, token: Token, user: nat, cancel: bool)
    | TenantControl(message: Message, now: int)
    | TenantRestart(slot: nat, instance: nat)
    | GatewayRestart

  /** Guards: a delivered message is on the wire and of the right kind, its tenant exists, and new
      identifiers are fresh. */
  predicate Enabled(w: World, s: Step) {
    match s
    case TenantCreate(slot, _, _, _, _, _, id, _, _) => slot in w.tenants && (slot, id) !in w.known
    case GatewayCreate(m, _, outer, _, _) => m in w.wire && m.Issued? && outer !in w.born
    case TenantClaim(m, _, _) => m in w.wire && m.AskClaim? && m.relay.slot in w.tenants
    case GatewayExchange(m, _, _) => m in w.wire && m.ClaimAnswer?
    case TenantBegin(m, _) => m in w.wire && m.AskCompletion? && m.relay.slot in w.tenants
    case TenantFinish(m, _, _) =>
      && m in w.wire && m.AskCompletion? && m.relay.slot in w.tenants
      && m.relay.inner.id in w.tenants[m.relay.slot].rows && w.tenants[m.relay.slot].rows[m.relay.inner.id].finishing
    case TenantFail(m, _) => m in w.wire && m.AskCompletion? && m.relay.slot in w.tenants
    case GatewayFinish(m, _) => m in w.wire && m.CompletionAnswer?
    case TenantControl(m, _) => m in w.wire && m.AskControl? && m.relay.slot in w.tenants
    case TenantRestart(slot, _) => slot in w.tenants
    case _ => true
  }

  function Sent(w: World, r: Option<Relay>, build: Relay -> Message): World {
    if r.None? then w else w.(wire := w.wire + {build(r.value)})
  }

  function Next(w: World, s: Step): World
    requires Enabled(w, s)
  {
    match s
    case TenantCreate(slot, user, now, ttl, provider, target, id, ticket, control) =>
      var table := Created(w.tenants[slot], now, ttl, provider, target, id, ticket, control);
      w.(tenants := w.tenants[slot := table],
         known := w.known + {(slot, id)},
         wire := if id in table.rows
                 then w.wire + {Issued(user, slot, BackendTicket(id, table.instance, provider, ticket, control, ttl))}
                 else w.wire)
    case GatewayCreate(m, now, outer, ticket, control) =>
      w.(rows := Added(w.rows, now, m.ticket, m.user, m.slot, outer, ticket, control),
         born := w.born[outer := Origin(m.slot, Ref(m.ticket.id, m.ticket.instance, m.ticket.provider), m.user)])
    case RelayClaim(now, ref, token) => Sent(w, ClaimRelay(w.rows, now, ref, token), r => AskClaim(ref, r))
    case TenantClaim(m, now, exchange) =>
      var (table, reply) := Claimed(w.tenants[m.relay.slot], now, m.relay.inner, m.relay.token, exchange);
      if reply.Granted? then
        w.(tenants := w.tenants[m.relay.slot := table],
           claims := w.claims[(m.relay.slot, m.relay.inner.id) := exchange],
           wire := w.wire + {ClaimAnswer(m.outer, m.relay.slot, m.relay.inner, exchange)})
      else w.(tenants := w.tenants[m.relay.slot := table])
    case GatewayExchange(m, now, outerToken) =>
      w.(rows := Exchanged(w.rows, now, m.outer, m.exchange, outerToken),
         handed := if MayExchange(w.rows, now, m.outer) then w.handed + [(m.outer.id, outerToken)] else w.handed)
    case RelayCompletion(now, ref, token) =>
      Sent(w, CompletionRelay(w.rows, now, ref, token), r => AskCompletion(ref, r))
    case TenantBegin(m, now) =>
      w.(tenants := w.tenants[m.relay.slot := Begun(w.tenants[m.relay.slot], now, m.relay.inner, m.relay.token).0])
    case TenantFinish(m, now, publishes) =>
      w.(tenants := w.tenants[m.relay.slot := Finished(w.tenants[m.relay.slot], now, m.relay.inner.id, publishes)],
         wire := if publishes && MayFinish(w.tenants[m.relay.slot], now, m.relay.inner.id)
                 then w.wire + {CompletionAnswer(m.outer)} else w.wire)
    case TenantFail(m, answered) =>
      w.(tenants := w.tenants[m.relay.slot := FailedRow(w.tenants[m.relay.slot], m.relay.inner.id)],
         wire := if answered then w.wire + {CompletionAnswer(m.outer)} else w.wire)
    case GatewayFinish(m, now) => w.(rows := Popped(w.rows, now, m.outer))
    case RelayControl(now, ref, token, user, cancel) =>
      Sent(w, ControlRelay(w.rows, now, ref, token, user), r => AskControl(ref, r, cancel))
    case TenantControl(m, now) =>
      w.(tenants := w.tenants[m.relay.slot :=
        Controlled(w.tenants[m.relay.slot], now, m.relay.inner, m.relay.token, m.cancel).0])
    case TenantRestart(slot, instance) => w.(tenants := w.tenants[slot := Table(instance, map[])])
    case GatewayRestart => w.(rows := map[])
  }

  predicate Leads(w: World, outer: nat, slot: nat, inner: Ref) {
    outer in w.born && w.born[outer].slot == slot && w.born[outer].inner == inner
  }

  predicate MessageSound(w: World, m: Message) {
    match m
    case AskClaim(outer, relay) => Leads(w, outer.id, relay.slot, relay.inner)
    case AskControl(outer, relay, _) => Leads(w, outer.id, relay.slot, relay.inner)
    case ClaimAnswer(outer, slot, inner, exchange) =>
      Leads(w, outer.id, slot, inner) && (slot, inner.id) in w.claims && w.claims[(slot, inner.id)] == exchange
    case AskCompletion(outer, relay) =>
      && Leads(w, outer.id, relay.slot, relay.inner)
      && (relay.slot, relay.inner.id) in w.claims && w.claims[(relay.slot, relay.inner.id)] == relay.token
      && exists i :: 0 <= i < |w.handed| && w.handed[i].0 == outer.id
    case _ => true
  }

  ghost predicate WireSound(w: World) {
    forall m :: m in w.wire ==> MessageSound(w, m)
  }

  /** A mapping leads where it was born, and is exchanged only with what its own claim issued. */
  ghost predicate MappingSound(w: World, outer: nat, m: Mapping) {
    && Leads(w, outer, m.slot, InnerRef(m)) && w.born[outer].user == m.user
    && (m.exchange.Some? <==> m.innerExchange.Some?)
    && (m.exchange.Some? ==>
          && (m.slot, m.inner) in w.claims && m.innerExchange == Some(w.claims[(m.slot, m.inner)])
          && (outer, m.exchange.value) in w.handed)
    && (forall i :: 0 <= i < |w.handed| && w.handed[i].0 == outer ==> m.exchange == Some(w.handed[i].1))
  }

  ghost predicate RowsSound(w: World) {
    forall outer :: outer in w.rows ==> MappingSound(w, outer, w.rows[outer])
  }

  /** No outer challenge is ever handed two exchange tokens. */
  ghost predicate HandedOnce(w: World) {
    && (forall i :: 0 <= i < |w.handed| ==> w.handed[i].0 in w.born)
    && (forall i, j :: 0 <= i < j < |w.handed| ==> w.handed[i].0 != w.handed[j].0)
  }

  /** A recorded claim is a claim: the row that issued it, while it lasts, is claimed. */
  ghost predicate TenantsSound(w: World) {
    && (forall key :: key in w.claims ==> key in w.known)
    && (forall slot, id :: slot in w.tenants && id in w.tenants[slot].rows ==>
          (slot, id) in w.known && (w.tenants[slot].rows[id].claimed <==> (slot, id) in w.claims))
  }

  ghost predicate Sound(w: World) {
    WireSound(w) && RowsSound(w) && HandedOnce(w) && TenantsSound(w)
  }

  /** History only grows, and never contradicts itself. */
  ghost predicate Extends(a: World, b: World) {
    && a.wire <= b.wire
    && (forall o :: o in a.born ==> o in b.born && b.born[o] == a.born[o])
    && (forall k :: k in a.claims ==> k in b.claims && b.claims[k] == a.claims[k])
    && a.handed <= b.handed
  }

  lemma OldMessagesStaySound(a: World, b: World, m: Message)
    requires Extends(a, b) && MessageSound(a, m)
    ensures MessageSound(b, m)
  {
    if m.AskCompletion? {
      var i :| 0 <= i < |a.handed| && a.handed[i].0 == m.outer.id;
      assert b.handed[i] == a.handed[i];
    }
  }

  lemma ExtendingKeepsWire(a: World, b: World)
    requires WireSound(a) && Extends(a, b)
    requires forall m :: m in b.wire && m !in a.wire ==> MessageSound(b, m)
    ensures WireSound(b)
  {
    forall m | m in b.wire ensures MessageSound(b, m) {
      if m in a.wire { OldMessagesStaySound(a, b, m); }
    }
  }

  lemma MappingStaysSound(a: World, b: World, outer: nat, m: Mapping)
    requires MappingSound(a, outer, m) && Extends(a, b)
    requires forall i :: |a.handed| <= i < |b.handed| ==> b.handed[i].0 != outer
    ensures MappingSound(b, outer, m)
  {
    if m.exchange.Some? {
      var i :| 0 <= i < |a.handed| && a.handed[i] == (outer, m.exchange.value);
      assert b.handed[i] == a.handed[i];
    }
    forall i | 0 <= i < |b.handed| && b.handed[i].0 == outer ensures m.exchange == Some(b.handed[i].1) {
      assert i < |a.handed|;
      assert b.handed[i] == a.handed[i];
    }
  }

  /** Steps that leave the mappings and tokens alone keep them sound. */
  lemma RowsStaySound(a: World, b: World)
    requires RowsSound(a) && HandedOnce(a) && Extends(a, b) && b.handed == a.handed
    requires forall o :: o in b.rows ==> o in a.rows && b.rows[o] == a.rows[o]
    ensures RowsSound(b) && HandedOnce(b)
  {
    forall o | o in b.rows ensures MappingSound(b, o, b.rows[o]) {
      MappingStaysSound(a, b, o, a.rows[o]);
    }
  }

  lemma SendingIsSound(w: World, r: Option<Relay>, message: Message, build: Relay -> Message)
    requires Sound(w) && (r.Some? ==> build(r.value) == message && MessageSound(w, message))
    ensures Sound(Sent(w, r, build)) && Extends(w, Sent(w, r, build))
  {
    var n := Sent(w, r, build);
    ExtendingKeepsWire(w, n);
    RowsStaySound(w, n);
  }

  lemma RelayClaimIsSound(w: World, now: int, ref: Ref, token: Token)
    requires Sound(w)
    ensures Sound(Next(w, RelayClaim(now, ref, token))) && Extends(w, Next(w, RelayClaim(now, ref, token)))
  {
    var r := ClaimRelay(w.rows, now, ref, token);
    if r.Some? {
      assert MappingSound(w, ref.id, w.rows[ref.id]);
      SendingIsSound(w, r, AskClaim(ref, r.value), r => AskClaim(ref, r));
    }
  }

  lemma RelayCompletionIsSound(w: World, now: int, ref: Ref, token: Token)
    requires Sound(w)
    ensures Sound(Next(w, RelayCompletion(now, ref, token))) && Extends(w, Next(w, RelayCompletion(now, ref, token)))
  {
    var r := CompletionRelay(w.rows, now, ref, token);
    if r.Some? {
      assert MappingSound(w, ref.id, w.rows[ref.id]);
      var i :| 0 <= i < |w.handed| && w.handed[i] == (ref.id, token);
      assert MessageSound(w, AskCompletion(ref, r.value));
      SendingIsSound(w, r, AskCompletion(ref, r.value), r => AskCompletion(ref, r));
    }
  }

  lemma RelayControlIsSound(w: World, now: int, ref: Ref, token: Token, user: nat, cancel: bool)
    requires Sound(w)
    ensures Sound(Next(w, RelayControl(now, ref, token, user, cancel)))
    ensures Extends(w, Next(w, RelayControl(now, ref, token, user, cancel)))
  {
    var r := ControlRelay(w.rows, now, ref, token, user);
    if r.Some? {
      assert MappingSound(w, ref.id, w.rows[ref.id]);
      SendingIsSound(w, r, AskControl(ref, r.value, cancel), r => AskControl(ref, r, cancel));
    }
  }

  lemma RowsAreBorn(w: World)
    requires RowsSound(w)
    ensures w.rows.Keys <= w.born.Keys
  {
    forall o | o in w.rows ensures o in w.born { assert MappingSound(w, o, w.rows[o]); }
  }

  lemma GatewayCreateIsSound(w: World, s: Step)
    requires Sound(w) && s.GatewayCreate? && Enabled(w, s)
    ensures Sound(Next(w, s)) && Extends(w, Next(w, s))
  {
    var n := Next(w, s);
    ExtendingKeepsWire(w, n);
    assert s.outer !in w.rows by { RowsAreBorn(w); }
    forall o | o in n.rows ensures MappingSound(n, o, n.rows[o]) {
      if o != s.outer {
        assert o in w.rows && n.rows[o] == w.rows[o];
        MappingStaysSound(w, n, o, w.rows[o]);
      }
    }
  }

  lemma ExchangedMappingIsSound(w: World, s: Step)
    requires Sound(w) && s.GatewayExchange? && Enabled(w, s) && MayExchange(w.rows, s.now, s.message.outer)
    ensures MappingSound(Next(w, s), s.message.outer.id, Next(w, s).rows[s.message.outer.id])
  {
    var n, outer := Next(w, s), s.message.outer.id;
    assert MessageSound(w, s.message) && MappingSound(w, outer, w.rows[outer]);
    assert n.handed[|w.handed|] == (outer, s.outerToken);
  }

  lemma ExchangeKeepsRows(w: World, s: Step)
    requires Sound(w) && s.GatewayExchange? && Enabled(w, s) && MayExchange(w.rows, s.now, s.message.outer)
    ensures RowsSound(Next(w, s))
  {
    var n, outer := Next(w, s), s.message.outer.id;
    forall o | o in n.rows ensures MappingSound(n, o, n.rows[o]) {
      if o == outer {
        ExchangedMappingIsSound(w, s);
      } else {
        MappingStaysSound(w, n, o, w.rows[o]);
      }
    }
  }

  /** Racing answers for one mapping: the first exchange wins, the others find it taken. */
  lemma GatewayExchangeIsSound(w: World, s: Step)
    requires Sound(w) && s.GatewayExchange? && Enabled(w, s)
    ensures Sound(Next(w, s)) && Extends(w, Next(w, s))
    ensures !MayExchange(w.rows, s.now, s.message.outer) ==> Next(w, s) == w
    ensures MayExchange(w.rows, s.now, s.message.outer) ==>
      && Next(w, s).handed == w.handed + [(s.message.outer.id, s.outerToken)]
      && forall later :: !MayExchange(Next(w, s).rows, later, s.message.outer)
  {
    ExtendingKeepsWire(w, Next(w, s));
    if MayExchange(w.rows, s.now, s.message.outer) {
      assert MappingSound(w, s.message.outer.id, w.rows[s.message.outer.id]);
      ExchangeKeepsRows(w, s);
    }
  }

  /** One tenant's table moves to a table whose rows are old ones, claimed as before. */
  lemma TenantStepIsSound(w: World, n: World, slot: nat, table: Table)
    requires Sound(w) && slot in w.tenants && n == w.(tenants := w.tenants[slot := table], wire := n.wire)
    requires forall id :: id in table.rows ==>
      id in w.tenants[slot].rows && table.rows[id].claimed == w.tenants[slot].rows[id].claimed
    requires w.wire <= n.wire && forall m :: m in n.wire && m !in w.wire ==> m.CompletionAnswer?
    ensures Sound(n) && Extends(w, n)
  {
    ExtendingKeepsWire(w, n);
    RowsStaySound(w, n);
    forall t, id | t in n.tenants && id in n.tenants[t].rows
      ensures (t, id) in n.known && (n.tenants[t].rows[id].claimed <==> (t, id) in n.claims)
    {
      assert id in w.tenants[t].rows;
    }
  }

  lemma TenantClaimIsSound(w: World, s: Step)
    requires Sound(w) && s.TenantClaim? && Enabled(w, s)
    ensures Sound(Next(w, s)) && Extends(w, Next(w, s))
  {
    var n, slot, inner := Next(w, s), s.message.relay.slot, s.message.relay.inner;
    var (table, reply) := Claimed(w.tenants[slot], s.now, inner, s.message.relay.token, s.exchange);
    assert MessageSound(w, s.message);
    if reply.Granted? {
      assert inner.id in w.tenants[slot].rows && !w.tenants[slot].rows[inner.id].claimed;
      assert (slot, inner.id) !in w.claims;
      ExtendingKeepsWire(w, n);
      RowsStaySound(w, n);
      forall t, id | t in n.tenants && id in n.tenants[t].rows
        ensures (t, id) in n.known && (n.tenants[t].rows[id].claimed <==> (t, id) in n.claims)
      {
        assert id in w.tenants[t].rows;
        assert (t, id) != (slot, inner.id) ==> n.tenants[t].rows[id].claimed == w.tenants[t].rows[id].claimed;
      }
    } else {
      TenantStepIsSound(w, n, slot, table);
    }
  }

  lemma TenantCreateIsSound(w: World, s: Step)
    requires Sound(w) && s.TenantCreate? && Enabled(w, s)
    ensures Sound(Next(w, s)) && Extends(w, Next(w, s))
  {
    var n := Next(w, s);
    ExtendingKeepsWire(w, n);
    RowsStaySound(w, n);
    forall t, id | t in n.tenants && id in n.tenants[t].rows
      ensures (t, id) in n.known && (n.tenants[t].rows[id].claimed <==> (t, id) in n.claims)
    {
      if (t, id) != (s.slot, s.id) {
        if t == s.slot { CreatedRowClaimed(w.tenants[s.slot], s, id); }
        assert id in w.tenants[t].rows;
      } else {
        assert s.id !in w.tenants[s.slot].rows;
        CreatedRowUnclaimed(w.tenants[s.slot], s);
      }
    }
  }

  lemma CreatedRowClaimed(t: Table, s: Step, id: nat)
    requires s.TenantCreate? && id != s.id
    ensures var n := Created(t, s.now, s.ttl, s.provider, s.target, s.id, s.ticket, s.control);
      id in n.rows ==> id in t.rows && n.rows[id].claimed == t.rows[id].claimed
  {
  }

  lemma CreatedRowUnclaimed(t: Table, s: Step)
    requires s.TenantCreate? && s.id !in t.rows
    ensures var n := Created(t, s.now, s.ttl, s.provider, s.target, s.id, s.ticket, s.control);
      s.id in n.rows ==> !n.rows[s.id].claimed
  {
  }

  /** The table a non-claiming, non-creating delivery leaves behind. */
  function Delivered(w: World, s: Step): Table
    requires Enabled(w, s) && (s.TenantBegin? || s.TenantFinish? || s.TenantFail? || s.TenantControl?)
  {
    Next(w, s).tenants[s.message.relay.slot]
  }

  lemma DeliveriesKeepClaims(w: World, s: Step, id: nat)
    requires Enabled(w, s) && (s.TenantBegin? || s.TenantFinish? || s.TenantFail? || s.TenantControl?)
    requires id in Delivered(w, s).rows
    ensures var t := w.tenants[s.message.relay.slot];
      id in t.rows && Delivered(w, s).rows[id].claimed == t.rows[id].claimed
  {
  }

  lemma DeliveryIsSound(w: World, s: Step)
    requires Sound(w) && Enabled(w, s) && (s.TenantBegin? || s.TenantFinish? || s.TenantFail? || s.TenantControl?)
    ensures Sound(Next(w, s)) && Extends(w, Next(w, s))
  {
    forall id | id in Delivered(w, s).rows
      ensures id in w.tenants[s.message.relay.slot].rows
           && Delivered(w, s).rows[id].claimed == w.tenants[s.message.relay.slot].rows[id].claimed
    {
      DeliveriesKeepClaims(w, s, id);
    }
    TenantStepIsSound(w, Next(w, s), s.message.relay.slot, Delivered(w, s));
  }

  lemma RestartIsSound(w: World, s: Step)
    requires Sound(w) && Enabled(w, s) && (s.TenantRestart? || s.GatewayRestart?)
    ensures Sound(Next(w, s)) && Extends(w, Next(w, s))
  {
    if s.TenantRestart? {
      TenantStepIsSound(w, Next(w, s), s.slot, Table(s.instance, map[]));
    } else {
      ExtendingKeepsWire(w, Next(w, s));
      RowsStaySound(w, Next(w, s));
    }
  }

  lemma GatewayFinishIsSound(w: World, s: Step)
    requires Sound(w) && Enabled(w, s) && s.GatewayFinish?
    ensures Sound(Next(w, s)) && Extends(w, Next(w, s))
  {
    ExtendingKeepsWire(w, Next(w, s));
    RowsStaySound(w, Next(w, s));
  }

  lemma NextIsSound(w: World, s: Step)
    requires Sound(w) && Enabled(w, s)
    ensures Sound(Next(w, s)) && Extends(w, Next(w, s))
  {
    match s
    case TenantCreate(_, _, _, _, _, _, _, _, _) => TenantCreateIsSound(w, s);
    case GatewayCreate(_, _, _, _, _) => GatewayCreateIsSound(w, s);
    case TenantClaim(_, _, _) => TenantClaimIsSound(w, s);
    case GatewayExchange(_, _, _) => GatewayExchangeIsSound(w, s);
    case GatewayFinish(_, _) => GatewayFinishIsSound(w, s);
    case GatewayRestart => RestartIsSound(w, s);
    case TenantRestart(_, _) => RestartIsSound(w, s);
    case RelayClaim(now, ref, token) => RelayClaimIsSound(w, now, ref, token);
    case RelayCompletion(now, ref, token) => RelayCompletionIsSound(w, now, ref, token);
    case RelayControl(now, ref, token, user, cancel) => RelayControlIsSound(w, now, ref, token, user, cancel);
    case _ => DeliveryIsSound(w, s);
  }

  ghost predicate AllEnabled(w: World, steps: seq<Step>)
    decreases |steps|
  {
    steps == [] || (Enabled(w, steps[0]) && AllEnabled(Next(w, steps[0]), steps[1..]))
  }

  function Run(w: World, steps: seq<Step>): World
    requires AllEnabled(w, steps)
    decreases |steps|
  {
    if steps == [] then w else Run(Next(w, steps[0]), steps[1..])
  }

  lemma {:induction false} RunsAreSound(w: World, steps: seq<Step>)
    requires Sound(w) && AllEnabled(w, steps)
    ensures Sound(Run(w, steps)) && Extends(w, Run(w, steps))
    decreases |steps|
  {
    if steps != [] {
      NextIsSound(w, steps[0]);
      RunsAreSound(Next(w, steps[0]), steps[1..]);
    }
  }

  function Start(instances: map<nat, nat>): World {
    World(map[], map slot | slot in instances :: Table(instances[slot], map[]), {}, {}, map[], map[], [])
  }

  /** Gateway and tenant agree, over every interleaving: an exchanged mapping leads to a claimed
      challenge of its own tenant and holds the token that very claim issued; and no mapping ever
      hands out a second outer token, not even after it is gone. */
  lemma {:induction false} GatewayAndTenantAgree(instances: map<nat, nat>, steps: seq<Step>, outer: nat)
    requires AllEnabled(Start(instances), steps)
    ensures var w := Run(Start(instances), steps);
      && (outer in w.rows && w.rows[outer].exchange.Some? ==>
            var m := w.rows[outer];
            && (m.slot, m.inner) in w.claims && m.innerExchange == Some(w.claims[(m.slot, m.inner)])
            && (m.slot in w.tenants && m.inner in w.tenants[m.slot].rows ==> w.tenants[m.slot].rows[m.inner].claimed))
      && (forall i, j :: 0 <= i < j < |w.handed| ==> w.handed[i].0 != w.handed[j].0)
  {
    RunsAreSound(Start(instances), steps);
    var w := Run(Start(instances), steps);
    if outer in w.rows { assert MappingSound(w, outer, w.rows[outer]); }
  }

  lemma DeliveredElsewhere(w: World, s: Step, id: nat)
    requires Enabled(w, s)
    requires s.TenantClaim? || s.TenantBegin? || s.TenantFinish? || s.TenantFail? || s.TenantControl?
    ensures var slot := s.message.relay.slot; var t, n := w.tenants[slot], Next(w, s).tenants[slot];
      && Next(w, s).tenants == w.tenants[slot := n]
      && (id in n.rows <==> id in t.rows)
      && (id in t.rows && id != s.message.relay.inner.id ==> n.rows[id] == t.rows[id])
  {
  }

  /** A delivery touches one tenant and one challenge: the pair fixed when its mapping was created. */
  lemma DeliveryTouchesOnlyItsOrigin(w: World, s: Step, slot: nat, id: nat)
    requires Sound(w) && Enabled(w, s)
    requires s.TenantClaim? || s.TenantBegin? || s.TenantFinish? || s.TenantFail? || s.TenantControl?
    requires slot in w.tenants
    ensures s.message.outer.id in w.born
    ensures slot != w.born[s.message.outer.id].slot ==> Next(w, s).tenants[slot] == w.tenants[slot]
    ensures Next(w, s).tenants[slot].rows.Keys == w.tenants[slot].rows.Keys
    ensures var origin := w.born[s.message.outer.id];
      id in w.tenants[slot].rows && (slot, id) != (origin.slot, origin.inner.id) ==>
        Next(w, s).tenants[slot].rows[id] == w.tenants[slot].rows[id]
  {
    assert MessageSound(w, s.message);
    DeliveredElsewhere(w, s, id);
    forall other ensures other in Next(w, s).tenants[slot].rows <==> other in w.tenants[slot].rows {
      DeliveredElsewhere(w, s, other);
    }
  }

  /** Nobody completes a sign-in who was not handed that challenge's outer exchange token. */
  lemma CompletionNeedsTheHandedToken(w: World, now: int, ref: Ref, token: Token)
    requires Sound(w)
    ensures CompletionRelay(w.rows, now, ref, token).Some? ==> (ref.id, token) in w.handed
    ensures (ref.id, token) in w.handed && Lookup(w.rows, now, ref).Some? ==>
      CompletionRelay(w.rows, now, ref, token).Some?
  {
    if ref.id in w.rows { assert MappingSound(w, ref.id, w.rows[ref.id]); }
  }
}
