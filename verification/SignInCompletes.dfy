/** identity-gateway/aw_gateway/main.py: an undisturbed sign-in, from the tenant's ticket to the authenticated
    challenge, through every message of the protocol. */
module SignInCompletes {
  import opened Documents
  import opened Challenges
  import opened BrokerMap
  import opened SignIn

  /** One sign-in: who it is for, the tokens of both sides, and until when each side waits. */
  datatype Flow = Flow(
    slot: nat, user: nat, instance: nat, provider: Provider, target: Target, ttl: int,
    inner: nat, ticket: Token, control: Token, exchange: Token, due: int,
    outer: nat, outerTicket: Token, outerControl: Token, outerToken: Token, until: int)

  function InnerName(f: Flow): Ref {
    Ref(f.inner, f.instance, f.provider)
  }

  function OuterName(f: Flow): Ref {
    Ref(f.outer, f.instance, f.provider)
  }

  function Ticket(f: Flow): BackendTicket {
    BackendTicket(f.inner, f.instance, f.provider, f.ticket, f.control, f.ttl)
  }

  function NewRow(f: Flow): Challenge {
    Challenge(f.provider, f.target, f.due, f.ticket, f.control, None, Waiting, false, false)
  }

  function NewMapping(f: Flow): Mapping {
    Mapping(f.inner, f.instance, f.provider, f.user, f.slot, f.outerTicket, f.ticket, f.outerControl, f.control,
      f.until,
      None, None)
  }

  /** The tenant holds this row for the sign-in, and the gateway this mapping. */
  predicate Stands(w: World, f: Flow, row: Challenge, m: Mapping) {
    && f.slot in w.tenants && w.tenants[f.slot].instance == f.instance
    && f.inner in w.tenants[f.slot].rows && w.tenants[f.slot].rows[f.inner] == row
    && f.outer in w.rows && w.rows[f.outer] == m
  }

  /** The two sides have room: under 64 challenges at the tenant, under 64 mappings at the gateway. */
  ghost predicate HasRoom(w: World, f: Flow, tenantNow: int, gatewayNow: int)
    requires f.slot in w.tenants
  {
    var rows := w.tenants[f.slot].rows;
    && |set k | k in rows && tenantNow < rows[k].deadline + 300| < 64
    && |set k | k in w.rows && gatewayNow < w.rows[k].deadline| < 64
  }

  /** The tenant issues, the gateway maps. */
  lemma Opening(w: World, f: Flow, tenantNow: int, gatewayNow: int)
    requires f.slot in w.tenants && w.tenants[f.slot].instance == f.instance && HasRoom(w, f, tenantNow, gatewayNow)
    requires (f.slot, f.inner) !in w.known && f.inner !in w.tenants[f.slot].rows
    requires f.outer !in w.born && f.outer !in w.rows
    requires 0 < f.ttl <= 240 && f.due == tenantNow + f.ttl && f.until == gatewayNow + f.ttl
    ensures var s1 :=
      TenantCreate(f.slot, f.user, tenantNow, f.ttl, f.provider, f.target, f.inner, f.ticket, f.control);
      && Enabled(w, s1) && var w1 := Next(w, s1);
      var s2 := GatewayCreate(Issued(f.user, f.slot, Ticket(f)), gatewayNow, f.outer, f.outerTicket, f.outerControl);
      && Enabled(w1, s2) && Stands(Next(w1, s2), f, NewRow(f), NewMapping(f))
  {
    CreateHasEffect(w.tenants[f.slot], tenantNow, f.ttl, f.provider, f.target, f.inner, f.ticket, f.control);
    MapHasEffect(w.rows, gatewayNow, Ticket(f), f.user, f.slot, f.outer, f.outerTicket, f.outerControl);
  }

  function ClaimedRow(f: Flow): Challenge {
    NewRow(f).(claimed := true, exchange := Some(f.exchange), state := Opened)
  }

  function ExchangedMapping(f: Flow): Mapping {
    NewMapping(f).(exchange := Some(f.outerToken), innerExchange := Some(f.exchange))
  }

  /** The desktop broker claims with the outer ticket and is handed the outer exchange token. */
  lemma Claiming(w: World, f: Flow, asked: int, claimed: int, answered: int)
    requires Stands(w, f, NewRow(f), NewMapping(f)) && asked < f.until && claimed < f.due && answered < f.until
    ensures var s1 := RelayClaim(asked, OuterName(f), f.outerTicket);
      && Enabled(w, s1) && var w1 := Next(w, s1);
      var s2 := TenantClaim(AskClaim(OuterName(f), Relay(f.slot, InnerName(f), f.ticket)), claimed, f.exchange);
      && Enabled(w1, s2) && var w2 := Next(w1, s2);
      var s3 := GatewayExchange(ClaimAnswer(OuterName(f), f.slot, InnerName(f), f.exchange), answered, f.outerToken);
      && Enabled(w2, s3) && Stands(Next(w2, s3), f, ClaimedRow(f), ExchangedMapping(f))
      && Next(w2, s3).handed == w.handed + [(f.outer, f.outerToken)]
  {
    var w1 := Next(w, RelayClaim(asked, OuterName(f), f.outerTicket));
    ClaimHasEffect(w1.tenants[f.slot], claimed, InnerName(f), f.ticket, f.exchange);
  }

  function Completion(f: Flow): Message {
    AskCompletion(OuterName(f), Relay(f.slot, InnerName(f), f.exchange))
  }

  /** It asks for the completion with that token, and the tenant begins it. */
  lemma Beginning(w: World, f: Flow, asked: int, begun: int)
    requires Stands(w, f, ClaimedRow(f), ExchangedMapping(f)) && asked < f.until && begun < f.due
    ensures var s1, s2 := RelayCompletion(asked, OuterName(f), f.outerToken), TenantBegin(Completion(f), begun);
      && Enabled(w, s1) && var w1 := Next(w, s1);
      && Enabled(w1, s2) && Completion(f) in Next(w1, s2).wire
      && Stands(Next(w1, s2), f, ClaimedRow(f).(finishing := true), ExchangedMapping(f))
  {
    var w1 := Next(w, RelayCompletion(asked, OuterName(f), f.outerToken));
    BeginHasEffect(w1.tenants[f.slot], begun, InnerName(f), f.exchange);
  }

  predicate Done(w: World, f: Flow) {
    && f.slot in w.tenants && f.inner in w.tenants[f.slot].rows
    && w.tenants[f.slot].rows[f.inner].state == Authenticated && f.outer !in w.rows
  }

  /** The tenant publishes, and the gateway forgets the mapping. */
  lemma Finishing(w: World, f: Flow, finished: int, answered: int)
    requires Stands(w, f, ClaimedRow(f).(finishing := true), ExchangedMapping(f)) && Completion(f) in w.wire
    requires finished < f.due && answered < f.until
    ensures var s1, s2 :=
      TenantFinish(Completion(f), finished, true), GatewayFinish(CompletionAnswer(OuterName(f)), answered);
      && Enabled(w, s1) && var w1 := Next(w, s1);
      && Enabled(w1, s2) && Done(Next(w1, s2), f)
  {
    FinishHasEffect(w.tenants[f.slot], finished, f.inner, true);
  }

  /** When each step happens, by the clock of its side. */
  datatype Times = Times(issued: int, mapped: int, asked: int, claimed: int, exchanged: int, relayed: int, begun: int,
      finished: int, forgotten: int)

  predicate InTime(t: Times, f: Flow) {
    && 0 < f.ttl <= 240 && f.due == t.issued + f.ttl && f.until == t.mapped + f.ttl
    && t.claimed < f.due && t.begun < f.due && t.finished < f.due
    && t.asked < f.until && t.exchanged < f.until && t.relayed < f.until && t.forgotten < f.until
  }

  function Protocol(f: Flow, t: Times): seq<Step> {
    [TenantCreate(f.slot, f.user, t.issued, f.ttl, f.provider, f.target, f.inner, f.ticket, f.control)]
    + ([GatewayCreate(Issued(f.user, f.slot, Ticket(f)), t.mapped, f.outer, f.outerTicket, f.outerControl)]
    + FromClaim(f, t))
  }

  function FromClaim(f: Flow, t: Times): seq<Step> {
    [RelayClaim(t.asked, OuterName(f), f.outerTicket)]
    + ([TenantClaim(AskClaim(OuterName(f), Relay(f.slot, InnerName(f), f.ticket)), t.claimed, f.exchange)]
    + ([GatewayExchange(ClaimAnswer(OuterName(f), f.slot, InnerName(f), f.exchange), t.exchanged, f.outerToken)]
    + FromCompletion(f, t)))
  }

  function FromCompletion(f: Flow, t: Times): seq<Step> {
    [RelayCompletion(t.relayed, OuterName(f), f.outerToken)]
    + ([TenantBegin(Completion(f), t.begun)]
    + ([TenantFinish(Completion(f), t.finished, true)]
    + ([GatewayFinish(CompletionAnswer(OuterName(f)), t.forgotten)] + [])))
  }

  lemma {:induction false} OneStep(w: World, s: Step, rest: seq<Step>)
    requires Enabled(w, s) && AllEnabled(Next(w, s), rest)
    ensures AllEnabled(w, [s] + rest) && Run(w, [s] + rest) == Run(Next(w, s), rest)
  {
    assert ([s] + rest)[1..] == rest;
  }

  lemma {:induction false} EndCompletes(w: World, f: Flow, t: Times)
    requires Stands(w, f, ClaimedRow(f), ExchangedMapping(f)) && InTime(t, f)
    ensures AllEnabled(w, FromCompletion(f, t)) && Done(Run(w, FromCompletion(f, t)), f)
  {
    var s4 := GatewayFinish(CompletionAnswer(OuterName(f)), t.forgotten);
    var s3, s2 := TenantFinish(Completion(f), t.finished, true), TenantBegin(Completion(f), t.begun);
    var s1 := RelayCompletion(t.relayed, OuterName(f), f.outerToken);
    Beginning(w, f, t.relayed, t.begun);
    var w1 := Next(w, s1);
    var w2 := Next(w1, s2);
    Finishing(w2, f, t.finished, t.forgotten);
    OneStep(Next(w2, s3), s4, []);
    OneStep(w2, s3, [s4] + []);
    OneStep(w1, s2, [s3] + ([s4] + []));
    OneStep(w, s1, [s2] + ([s3] + ([s4] + [])));
  }

  lemma {:induction false} MiddleCompletes(w: World, f: Flow, t: Times)
    requires Stands(w, f, NewRow(f), NewMapping(f)) && InTime(t, f)
    ensures AllEnabled(w, FromClaim(f, t)) && Done(Run(w, FromClaim(f, t)), f)
  {
    var s1 := RelayClaim(t.asked, OuterName(f), f.outerTicket);
    var s2 := TenantClaim(AskClaim(OuterName(f), Relay(f.slot, InnerName(f), f.ticket)), t.claimed, f.exchange);
    var s3 := GatewayExchange(ClaimAnswer(OuterName(f), f.slot, InnerName(f), f.exchange), t.exchanged, f.outerToken);
    Claiming(w, f, t.asked, t.claimed, t.exchanged);
    var w1 := Next(w, s1);
    var w2 := Next(w1, s2);
    EndCompletes(Next(w2, s3), f, t);
    OneStep(w2, s3, FromCompletion(f, t));
    OneStep(w1, s2, [s3] + FromCompletion(f, t));
    OneStep(w, s1, [s2] + ([s3] + FromCompletion(f, t)));
  }

  /** From any state with room, an undisturbed sign-in in time goes through: every one of its nine steps is
      enabled in turn, and it ends with the challenge authenticated and the mapping gone. */
  lemma {:induction false} AnUndisturbedSignInCompletes(w: World, f: Flow, t: Times)
    requires f.slot in w.tenants && w.tenants[f.slot].instance == f.instance && HasRoom(w, f, t.issued, t.mapped)
    requires (f.slot, f.inner) !in w.known && f.inner !in w.tenants[f.slot].rows
    requires f.outer !in w.born && f.outer !in w.rows && InTime(t, f)
    ensures AllEnabled(w, Protocol(f, t)) && Done(Run(w, Protocol(f, t)), f)
  {
    var s1 := TenantCreate(f.slot, f.user, t.issued, f.ttl, f.provider, f.target, f.inner, f.ticket, f.control);
    var s2 := GatewayCreate(Issued(f.user, f.slot, Ticket(f)), t.mapped, f.outer, f.outerTicket, f.outerControl);
    Opening(w, f, t.issued, t.mapped);
    var w1 := Next(w, s1);
    MiddleCompletes(Next(w1, s2), f, t);
    OneStep(w1, s2, FromClaim(f, t));
    OneStep(w, s1, [s2] + FromClaim(f, t));
  }

  /** Nobody else gets anything relayed: a claim needs the outer ticket, a completion the outer exchange token and
      a control request the control token and the user it was made for, each while the mapping lasts. */
  lemma OnlyTheRightTokensAreRelayed(w: World, f: Flow, row: Challenge, m: Mapping, now: int, ref: Ref, token: Token,
      user: nat)
    requires Stands(w, f, row, m) && ref.id == f.outer
    ensures Next(w, RelayClaim(now, ref, token)).wire != w.wire ==> now < m.deadline && token == m.ticket
    ensures Next(w, RelayCompletion(now, ref, token)).wire != w.wire ==> now < m.deadline && m.exchange == Some(token)
    ensures forall cancel :: Next(w, RelayControl(now, ref, token, user, cancel)).wire != w.wire ==>
      now < m.deadline && token == m.control && user == m.user
  {
  }

  /** The user who made it cancels with the outer control token, and the tenant's pending challenge ends. */
  lemma CancellingGoesThrough(w: World, f: Flow, row: Challenge, m: Mapping, asked: int, delivered: int)
    requires Stands(w, f, row, m) && m.inner == f.inner && m.instance == f.instance && m.provider == f.provider
    requires m.slot == f.slot && m.innerControl == row.control && row.provider == f.provider
    requires asked < m.deadline && delivered < row.deadline && Pending(row)
    ensures var s1 := RelayControl(asked, Ref(f.outer, m.instance, m.provider), m.control, m.user, true);
      && Enabled(w, s1) && var w1 := Next(w, s1);
      var s2 := TenantControl(AskControl(Ref(f.outer, m.instance, m.provider),
        Relay(f.slot, InnerName(f), row.control), true), delivered);
      && Enabled(w1, s2) && Stands(Next(w1, s2), f, row.(state := Cancelled), m)
  {
    var w1 := Next(w, RelayControl(asked, Ref(f.outer, m.instance, m.provider), m.control, m.user, true));
    ControlHasEffect(w1.tenants[f.slot], delivered, InnerName(f), row.control, true);
  }

  predicate AsksAbout(w: World, f: Flow, message: Message) {
    message in w.wire && message.AskCompletion? && message.relay.slot == f.slot && message.relay.inner.id == f.inner
  }

  /** A tenant that gives up fails its pending challenge, and may say so; a restart forgets one side's state and
      nothing else. */
  lemma FailuresAndRestarts(w: World, f: Flow, row: Challenge, m: Mapping, message: Message, instance: nat)
    requires Stands(w, f, row, m)
    ensures AsksAbout(w, f, message) && Pending(row) ==>
        forall answered :: var n := Next(w, TenantFail(message, answered));
          && Stands(n, f, row.(state := Failed, exchange := None), m)
          && n.wire == if answered then w.wire + {CompletionAnswer(message.outer)} else w.wire
    ensures var n := Next(w, TenantRestart(f.slot, instance));
      && n.rows == w.rows && n.wire == w.wire && n.tenants[f.slot] == Table(instance, map[])
      && forall slot :: slot in w.tenants && slot != f.slot ==> slot in n.tenants && n.tenants[slot] == w.tenants[slot]
    ensures var n := Next(w, GatewayRestart);
      n.rows == map[] && n.tenants == w.tenants && n.wire == w.wire
  {
    if AsksAbout(w, f, message) {
      FailHasEffect(w.tenants[f.slot], f.inner);
    }
  }
}
