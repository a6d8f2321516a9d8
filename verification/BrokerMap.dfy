/** identity-gateway/aw_gateway/broker_map.py: outer capabilities that stand for inner ones. */
module BrokerMap {
  import opened Documents
  import opened Challenges

  datatype Mapping = Mapping(
    inner: nat, instance: nat, provider: Provider, user: nat, slot: nat,
    ticket: Token, innerTicket: Token, control: Token, innerControl: Token, deadline: int,
    exchange: Option<Token>, innerExchange: Option<Token>)

  /** What a tenant answers when a challenge is created. */
  datatype BackendTicket = BackendTicket(id: nat, instance: nat, provider: Provider, ticket: Token, control: Token,
      expiresIn: int)

  type Mappings = map<nat, Mapping>

  /** A capability translated for a tenant. */
  datatype Relay = Relay(slot: nat, inner: Ref, token: Token)

  function InnerRef(m: Mapping): Ref {
    Ref(m.inner, m.instance, m.provider)
  }

  function Lookup(rows: Mappings, now: int, ref: Ref): Option<Mapping> {
    if ref.id in rows && rows[ref.id].deadline > now && ref.instance == rows[ref.id].instance
      && ref.provider == rows[ref.id].provider
    then Some(rows[ref.id]) else None
  }

  function Unexpired(rows: Mappings, now: int): Mappings {
    map id | id in rows && rows[id].deadline > now :: rows[id]
  }

  predicate Acceptable(t: BackendTicket) {
    0 < t.expiresIn <= 240
  }

  predicate Room(rows: Mappings, now: int, t: BackendTicket) {
    Acceptable(t) && |Unexpired(rows, now)| < LIMIT
  }

  function Added(rows: Mappings, now: int, t: BackendTicket, user: nat, slot: nat, outer: nat, ticket: Token,
      control: Token): Mappings {
    if !Acceptable(t) then rows
    else if !Room(rows, now, t) then Unexpired(rows, now)
    else Unexpired(rows, now)[outer :=
      Mapping(t.id, t.instance, t.provider, user, slot, ticket, t.ticket, control, t.control, now + t.expiresIn, None,
        None)]
  }

  function ControlRelay(rows: Mappings, now: int, ref: Ref, token: Token, user: nat): Option<Relay> {
    match Lookup(rows, now, ref)
    case Some(m) =>
      if m.user == user && m.control == token then Some(Relay(m.slot, InnerRef(m), m.innerControl)) else None
    case None => None
  }

  function ClaimRelay(rows: Mappings, now: int, ref: Ref, token: Token): Option<Relay> {
    match Lookup(rows, now, ref)
    case Some(m) => if m.ticket == token then Some(Relay(m.slot, InnerRef(m), m.innerTicket)) else None
    case None => None
  }

  predicate MayExchange(rows: Mappings, now: int, ref: Ref) {
    Lookup(rows, now, ref).Some? && Lookup(rows, now, ref).value.exchange.None?
  }

  function Exchanged(rows: Mappings, now: int, ref: Ref, inner: Token, outer: Token): Mappings {
    if MayExchange(rows, now, ref) then
      rows[ref.id := rows[ref.id].(exchange := Some(outer), innerExchange := Some(inner))]
    else rows
  }

  function CompletionRelay(rows: Mappings, now: int, ref: Ref, token: Token): Option<Relay> {
    match Lookup(rows, now, ref)
    case Some(m) =>
      if m.exchange == Some(token) && m.innerExchange.Some? then Some(Relay(m.slot, InnerRef(m), m.innerExchange.value))
      else None
    case None => None
  }

  function Popped(rows: Mappings, now: int, ref: Ref): Mappings {
    if Lookup(rows, now, ref).Some? then rows - {ref.id} else rows
  }

  // The same, said of the rows.

  /** The reference names a mapping that has not expired. */
  predicate Found(rows: Mappings, now: int, ref: Ref) {
    && ref.id in rows && now < rows[ref.id].deadline
    && ref.instance == rows[ref.id].instance && ref.provider == rows[ref.id].provider
  }

  /** Refused without a lifetime of at most four minutes or with 64 unexpired mappings; otherwise the mapping binds
      the outer ticket and control to the inner ones, for that lifetime. Expired mappings go. */
  ghost predicate MapEffect(before: Mappings, after: Mappings, now: int, t: BackendTicket, outer: nat, m: Mapping,
      ok: bool)
  {
    var room := |set k | k in before && now < before[k].deadline| < 64;
    && (ok <==> 0 < t.expiresIn <= 240 && room)
    && (!(0 < t.expiresIn <= 240) ==> after == before)
    && (0 < t.expiresIn <= 240 ==>
          && (forall k :: k in after <==> (k in before && now < before[k].deadline) || (ok && k == outer))
          && (forall k :: k in after && !(ok && k == outer) ==> after[k] == before[k])
          && (ok ==> after[outer] == m))
  }

  lemma MapHasEffect(rows: Mappings, now: int, t: BackendTicket, user: nat, slot: nat, outer: nat, ticket: Token,
      control: Token)
    requires outer !in rows
    ensures MapEffect(rows, Added(rows, now, t, user, slot, outer, ticket, control), now, t, outer,
      Mapping(t.id, t.instance, t.provider, user, slot, ticket, t.ticket, control, t.control, now + t.expiresIn,
        None, None), Room(rows, now, t))
  {
    assert Unexpired(rows, now).Keys == set k | k in rows && now < rows[k].deadline;
    assert |Unexpired(rows, now)| == |Unexpired(rows, now).Keys|;
  }

  class Map {
    var rows: Mappings

    /** The two halves of an exchange are always set together. */
    ghost predicate Valid()
      reads this
    {
      forall id :: id in rows ==> (rows[id].exchange.Some? <==> rows[id].innerExchange.Some?)
    }

    constructor ()
      ensures Valid() && rows == map[]
    {
      rows := map[];
    }

    method Find(now: int, ref: Ref) returns (r: Option<Mapping>)
      ensures r == Lookup(rows, now, ref)
    {
      if ref.id !in rows {
        return None;
      }
      var row := rows[ref.id];
      if row.deadline <= now || ref.instance != row.instance || ref.provider != row.provider {
        return None;
      }
      r := Some(row);
    }

    method Create(now: int, t: BackendTicket, user: nat, slot: nat, outer: nat, ticket: Token, control: Token)
      returns (ok: bool)
      requires Valid() && outer !in rows
      modifies this
      ensures Valid() && ok == Room(old(rows), now, t)
      ensures rows == Added(old(rows), now, t, user, slot, outer, ticket, control)
      ensures MapEffect(old(rows), rows, now, t, outer,
        Mapping(t.id, t.instance, t.provider, user, slot, ticket, t.ticket, control, t.control, now + t.expiresIn,
          None, None), ok)
    {
      MapHasEffect(rows, now, t, user, slot, outer, ticket, control);
      if !(0 < t.expiresIn <= 240) {
        return false;
      }
      rows := map id | id in rows && rows[id].deadline > now :: rows[id];
      if |rows| >= LIMIT {
        return false;
      }
      rows := rows[outer :=
        Mapping(t.id, t.instance, t.provider, user, slot, ticket, t.ticket, control, t.control, now + t.expiresIn, None,
          None)];
      ok := true;
    }

    method BrowserControl(now: int, ref: Ref, token: Token, user: nat) returns (r: Option<Relay>)
      ensures r == ControlRelay(rows, now, ref, token, user)
      ensures r.Some? <==> Found(rows, now, ref) && rows[ref.id].user == user && rows[ref.id].control == token
      ensures r.Some? ==> var m := rows[ref.id];
        r.value == Relay(m.slot, Ref(m.inner, m.instance, m.provider), m.innerControl)
    {
      var found := Find(now, ref);
      if found.None? || found.value.user != user || found.value.control != token {
        return None;
      }
      r := Some(Relay(found.value.slot, InnerRef(found.value), found.value.innerControl));
    }

    method BrokerClaim(now: int, ref: Ref, token: Token) returns (r: Option<Relay>)
      ensures r == ClaimRelay(rows, now, ref, token)
      ensures r.Some? <==> Found(rows, now, ref) && rows[ref.id].ticket == token
      ensures r.Some? ==> var m := rows[ref.id];
        r.value == Relay(m.slot, Ref(m.inner, m.instance, m.provider), m.innerTicket)
    {
      var found := Find(now, ref);
      if found.None? || found.value.ticket != token {
        return None;
      }
      r := Some(Relay(found.value.slot, InnerRef(found.value), found.value.innerTicket));
    }

    method Exchange(now: int, ref: Ref, inner: Token, outer: Token) returns (ok: bool)
      requires Valid()
      modifies this
      ensures Valid() && ok == MayExchange(old(rows), now, ref)
      ensures rows == Exchanged(old(rows), now, ref, inner, outer)
      ensures ok <==> Found(old(rows), now, ref) && old(rows)[ref.id].exchange == None
      ensures rows == if !ok then old(rows)
        else old(rows)[ref.id := old(rows)[ref.id].(exchange := Some(outer), innerExchange := Some(inner))]
    {
      var found := Find(now, ref);
      if found.None? || found.value.exchange.Some? {
        return false;
      }
      rows := rows[ref.id := found.value.(exchange := Some(outer), innerExchange := Some(inner))];
      ok := true;
    }

    method BrokerCompletion(now: int, ref: Ref, token: Token) returns (r: Option<Relay>)
      requires Valid()
      ensures r == CompletionRelay(rows, now, ref, token)
      ensures r.Some? <==> Found(rows, now, ref) && rows[ref.id].exchange == Some(token)
      ensures r.Some? ==> var m := rows[ref.id];
        && m.innerExchange.Some?
        && r.value == Relay(m.slot, Ref(m.inner, m.instance, m.provider), m.innerExchange.value)
    {
      var found := Find(now, ref);
      if found.None? || found.value.exchange.None? || found.value.exchange.value != token {
        return None;
      }
      r := Some(Relay(found.value.slot, InnerRef(found.value), found.value.innerExchange.value));
    }

    method Finish(now: int, ref: Ref) returns (ok: bool)
      requires Valid()
      modifies this
      ensures Valid() && ok == Lookup(old(rows), now, ref).Some? && rows == Popped(old(rows), now, ref)
      ensures ok <==> Found(old(rows), now, ref)
      ensures rows == if ok then old(rows) - {ref.id} else old(rows)
    {
      var found := Find(now, ref);
      if found.None? {
        return false;
      }
      rows := rows - {ref.id};
      ok := true;
    }
  }
}
