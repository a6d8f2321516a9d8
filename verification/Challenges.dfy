/** backend/app/auth/broker_challenges.py: expiring one-shot sign-in capabilities of one tenant.
    Tokens are opaque values; hashing them is injective, so a stored hash is modelled by its token. */
module Challenges {
  import opened Documents

  type Token = nat

  datatype Provider = Canvas | Gradescope | PrairieLearn | All

  /** `generations` is what a clear-all challenge captured, `generation` what any other one did. */
  datatype Target = Target(credential: string, login: bool, generation: nat, generations: map<string, nat>)

  datatype State = Waiting | Opened | Authenticated | Cancelled | TimedOut | Failed

  datatype Challenge = Challenge(
    provider: Provider, target: Target, deadline: int,
    ticket: Token, control: Token, exchange: Option<Token>,
    state: State, claimed: bool, finishing: bool)

  datatype Table = Table(instance: nat, rows: map<nat, Challenge>)

  /** How a message names a challenge. */
  datatype Ref = Ref(id: nat, instance: nat, provider: Provider)

  datatype Reply<+T> = Granted(value: T) | Invalid | Expired | Busy

  const LIMIT := 64
  const GRACE := 300

  predicate Live(row: Challenge) {
    row.state == Waiting || row.state == Opened
  }

  function Expire(row: Challenge, now: int): Challenge {
    if row.deadline <= now && Live(row) then row.(state := TimedOut) else row
  }

  predicate Names(t: Table, ref: Ref) {
    ref.instance == t.instance && ref.id in t.rows && t.rows[ref.id].provider == ref.provider
  }

  /** `_row`: looking a challenge up also times it out. */
  function Touched(t: Table, ref: Ref, now: int): Table {
    if Names(t, ref) then t.(rows := t.rows[ref.id := Expire(t.rows[ref.id], now)]) else t
  }

  /** `_live` of a row that was found. */
  function Refusal(row: Challenge): Reply<Challenge> {
    if row.state == TimedOut then Expired else if Live(row) then Granted(row) else Invalid
  }

  function Pruned(t: Table, now: int): Table {
    t.(rows := map id | id in t.rows && t.rows[id].deadline + GRACE > now :: t.rows[id])
  }

  predicate Superseded(row: Challenge, provider: Provider, target: Target) {
    row.provider == provider && row.target.credential == target.credential && Live(row)
  }

  function CancelIfSuperseded(row: Challenge, provider: Provider, target: Target): Challenge {
    if Superseded(row, provider, target) then row.(state := Cancelled) else row
  }

  function Supersede(t: Table, provider: Provider, target: Target): Table {
    t.(rows := map id | id in t.rows :: CancelIfSuperseded(t.rows[id], provider, target))
  }

  /** Even a refused creation has pruned. */
  function Created(t: Table, now: int, ttl: int, provider: Provider, target: Target, id: nat, ticket: Token,
      control: Token): Table {
    var kept := Pruned(t, now);
    if |kept.rows| >= LIMIT then kept
    else
      var superseded := Supersede(kept, provider, target);
      superseded.(rows := superseded.rows[id :=
        Challenge(provider, target, now + ttl, ticket, control, None, Waiting, false, false)])
  }

  function Claimed(t: Table, now: int, ref: Ref, token: Token, exchange: Token): (r: (Table, Reply<Challenge>)) {
    if !Names(t, ref) then (t, Invalid)
    else
      var touched := Touched(t, ref, now);
      var row := touched.rows[ref.id];
      if !Refusal(row).Granted? then (touched, Refusal(row))
      else if row.claimed || row.ticket != token then (touched, Invalid)
      else
        var claimed := row.(claimed := true, exchange := Some(exchange), state := Opened);
        (touched.(rows := touched.rows[ref.id := claimed]), Granted(claimed))
  }

  function Begun(t: Table, now: int, ref: Ref, token: Token): (Table, Reply<Challenge>) {
    if !Names(t, ref) then (t, Invalid)
    else
      var touched := Touched(t, ref, now);
      var row := touched.rows[ref.id];
      if !Refusal(row).Granted? then (touched, Refusal(row))
      else if !row.claimed || row.finishing || row.exchange != Some(token) then (touched, Invalid)
      else
        var begun := row.(finishing := true);
        (touched.(rows := touched.rows[ref.id := begun]), Granted(begun))
  }

  /** May `publish` run now? */
  predicate MayFinish(t: Table, now: int, id: nat) {
    id in t.rows && Live(Expire(t.rows[id], now))
  }

  /** `published` is false when the publication raised: the challenge then stays as it was. */
  function Finished(t: Table, now: int, id: nat, published: bool): Table {
    if id !in t.rows then t
    else
      var row := Expire(t.rows[id], now);
      if Live(row) && published then t.(rows := t.rows[id := row.(state := Authenticated, exchange := None)])
      else t.(rows := t.rows[id := row])
  }

  function FailedRow(t: Table, id: nat): Table {
    if id in t.rows && Live(t.rows[id]) then t.(rows := t.rows[id := t.rows[id].(state := Failed, exchange := None)])
    else t
  }

  function Controlled(t: Table, now: int, ref: Ref, token: Token, cancel: bool): (Table, Reply<State>) {
    if !Names(t, ref) then (t, Invalid)
    else
      var touched := Touched(t, ref, now);
      var row := touched.rows[ref.id];
      if row.control != token then (touched, Invalid)
      else if cancel && Live(row) then
        (touched.(rows := touched.rows[ref.id := row.(state := Cancelled)]), Granted(Cancelled))
      else (touched, Granted(row.state))
  }

  // The same operations, said of the rows.

  predicate Pending(row: Challenge) {
    row.state == Waiting || row.state == Opened
  }

  /** The reference names one of these rows. */
  predicate Refers(rows: map<nat, Challenge>, instance: nat, ref: Ref) {
    ref.instance == instance && ref.id in rows && rows[ref.id].provider == ref.provider
  }

  /** It names one that is pending and not past its deadline. */
  predicate Open(rows: map<nat, Challenge>, instance: nat, ref: Ref, now: int) {
    Refers(rows, instance, ref) && Pending(rows[ref.id]) && now < rows[ref.id].deadline
  }

  /** All that looking a challenge up does: a pending one past its deadline is timed out. */
  ghost predicate LookupEffect(before: map<nat, Challenge>, after: map<nat, Challenge>, instance: nat, ref: Ref,
      now: int)
  {
    if Refers(before, instance, ref) && Pending(before[ref.id]) && before[ref.id].deadline <= now
    then after == before[ref.id := before[ref.id].(state := TimedOut)] else after == before
  }

  /** A ticket is taken once, by its own token, from a pending row in time. */
  ghost predicate ClaimEffect(before: map<nat, Challenge>, after: map<nat, Challenge>, instance: nat, ref: Ref,
      now: int, token: Token, exchange: Token, r: Reply<Challenge>)
  {
    && (r.Granted? <==>
          Open(before, instance, ref, now) && !before[ref.id].claimed && before[ref.id].ticket == token)
    && (r.Granted? ==>
          && after == before[ref.id := before[ref.id].(claimed := true, exchange := Some(exchange), state := Opened)]
          && r.value == after[ref.id])
    && (!r.Granted? ==> LookupEffect(before, after, instance, ref, now))
    && (r.Expired? <==> Refers(after, instance, ref) && after[ref.id].state == TimedOut) && r != Busy
  }

  /** A completion begins once, by the exchange token of the claim. */
  ghost predicate BeginEffect(before: map<nat, Challenge>, after: map<nat, Challenge>, instance: nat, ref: Ref,
      now: int, token: Token, r: Reply<Challenge>)
  {
    && (r.Granted? <==>
          && Open(before, instance, ref, now) && before[ref.id].claimed && !before[ref.id].finishing
          && before[ref.id].exchange == Some(token))
    && (r.Granted? ==> after == before[ref.id := before[ref.id].(finishing := true)] && r.value == after[ref.id])
    && (!r.Granted? ==> LookupEffect(before, after, instance, ref, now))
    && (r.Expired? <==> Refers(after, instance, ref) && after[ref.id].state == TimedOut) && r != Busy
  }

  /** The control token reads the state, and cancels a pending challenge. */
  ghost predicate ControlEffect(before: map<nat, Challenge>, after: map<nat, Challenge>, instance: nat, ref: Ref,
      now: int, token: Token, cancel: bool, r: Reply<State>)
  {
    && (r.Granted? <==> Refers(before, instance, ref) && before[ref.id].control == token)
    && (r.Granted? ==> ref.id in after && r.value == after[ref.id].state) && (r.Granted? || r == Invalid)
    && if r.Granted? && cancel && Open(before, instance, ref, now)
       then after == before[ref.id := before[ref.id].(state := Cancelled)]
       else LookupEffect(before, after, instance, ref, now)
  }

  /** A live row is published and ends, if the publication returned. */
  ghost predicate FinishEffect(before: map<nat, Challenge>, after: map<nat, Challenge>, id: nat, now: int,
      publishes: bool, ran: bool)
  {
    && (ran <==> id in before && Pending(before[id]) && now < before[id].deadline)
    && if ran && publishes then after == before[id := before[id].(state := Authenticated, exchange := None)]
       else if id in before && Pending(before[id]) && before[id].deadline <= now
       then after == before[id := before[id].(state := TimedOut)] else after == before
  }

  ghost predicate FailEffect(before: map<nat, Challenge>, after: map<nat, Challenge>, id: nat) {
    if id in before && Pending(before[id]) then after == before[id := before[id].(state := Failed, exchange := None)]
    else after == before
  }

  /** Rows five minutes past their deadline go; with 64 left nothing is created; otherwise the pending ones of the
      same provider and credential are cancelled and the new one waits. */
  ghost predicate CreateEffect(before: map<nat, Challenge>, after: map<nat, Challenge>, id: nat, now: int,
      created: Challenge, r: Reply<nat>)
  {
    && (r == Busy || r == Granted(id))
    && (r == Busy <==> |set k | k in before && now < before[k].deadline + 300| >= 64)
    && (forall k :: k in after <==>
          (k in before && now < before[k].deadline + 300) || (r.Granted? && k == id))
    && (forall k :: k in after && (r == Busy || k != id) ==>
          after[k] ==
            if r.Granted? && Pending(before[k]) && before[k].provider == created.provider
              && before[k].target.credential == created.target.credential
            then before[k].(state := Cancelled) else before[k])
    && (r.Granted? ==> after[id] == created)
  }

  lemma ClaimHasEffect(t: Table, now: int, ref: Ref, token: Token, exchange: Token)
    ensures var (next, r) := Claimed(t, now, ref, token, exchange);
      next.instance == t.instance && ClaimEffect(t.rows, next.rows, t.instance, ref, now, token, exchange, r)
  {
    if Names(t, ref) { assert t.rows[ref.id := t.rows[ref.id]] == t.rows; }
  }

  lemma BeginHasEffect(t: Table, now: int, ref: Ref, token: Token)
    ensures var (next, r) := Begun(t, now, ref, token);
      next.instance == t.instance && BeginEffect(t.rows, next.rows, t.instance, ref, now, token, r)
  {
    if Names(t, ref) { assert t.rows[ref.id := t.rows[ref.id]] == t.rows; }
  }

  lemma ControlHasEffect(t: Table, now: int, ref: Ref, token: Token, cancel: bool)
    ensures var (next, r) := Controlled(t, now, ref, token, cancel);
      next.instance == t.instance && ControlEffect(t.rows, next.rows, t.instance, ref, now, token, cancel, r)
  {
    if Names(t, ref) { assert t.rows[ref.id := t.rows[ref.id]] == t.rows; }
  }

  lemma FinishHasEffect(t: Table, now: int, id: nat, published: bool)
    ensures var next := Finished(t, now, id, published);
      next.instance == t.instance && FinishEffect(t.rows, next.rows, id, now, published, MayFinish(t, now, id))
  {
    if id in t.rows { assert t.rows[id := t.rows[id]] == t.rows; }
  }

  lemma FailHasEffect(t: Table, id: nat)
    ensures FailedRow(t, id).instance == t.instance && FailEffect(t.rows, FailedRow(t, id).rows, id)
  {
  }

  lemma CreateHasEffect(t: Table, now: int, ttl: int, provider: Provider, target: Target, id: nat, ticket: Token,
      control: Token)
    requires id !in t.rows
    ensures var next := Created(t, now, ttl, provider, target, id, ticket, control);
      var r := if id in next.rows then Granted(id) else Busy;
      && next.instance == t.instance
      && CreateEffect(t.rows, next.rows, id, now,
           Challenge(provider, target, now + ttl, ticket, control, None, Waiting, false, false), r)
  {
    var kept := Pruned(t, now).rows;
    assert kept.Keys == set k | k in t.rows && now < t.rows[k].deadline + 300;
    assert |kept| == |kept.Keys|;
  }

  class ChallengeStore {
    const instance: nat
    const ttl: int
    var rows: map<nat, Challenge>

    constructor (instance: nat, ttl: int)
      ensures Contents() == Table(instance, map[]) && this.ttl == ttl
    {
      this.instance, this.ttl := instance, ttl;
      rows := map[];
    }

    function Contents(): Table
      reads this
    {
      Table(instance, rows)
    }

    method CancelOne(k: nat, provider: Provider, target: Target)
      requires k in rows
      modifies `rows
      ensures rows == old(rows)[k := CancelIfSuperseded(old(rows)[k], provider, target)]
    {
      var row := rows[k];
      if row.provider == provider && row.target.credential == target.credential {
        if row.state == Waiting || row.state == Opened {
          rows := rows[k := row.(state := Cancelled)];
        }
      }
    }

    /** A newer attempt supersedes the pending attempt of the same profile. */
    method CancelOlder(provider: Provider, target: Target)
      modifies this
      ensures Contents() == Supersede(old(Contents()), provider, target)
    {
      ghost var kept := Contents();
      var todo := rows.Keys;
      while todo != {}
        invariant todo <= rows.Keys == kept.rows.Keys
        invariant forall k :: k in rows ==>
          rows[k] == if k in todo then kept.rows[k] else CancelIfSuperseded(kept.rows[k], provider, target)
        decreases |todo|
      {
        var k :| k in todo;
        CancelOne(k, provider, target);
        todo := todo - {k};
      }
    }

    method Create(now: int, provider: Provider, target: Target, id: nat, ticket: Token, control: Token)
      returns (r: Reply<nat>)
      requires id !in rows
      modifies this
      ensures Contents() == Created(old(Contents()), now, ttl, provider, target, id, ticket, control)
      ensures r == if |Pruned(old(Contents()), now).rows| >= LIMIT then Busy else Granted(id)
      ensures CreateEffect(old(rows), rows, id, now,
        Challenge(provider, target, now + ttl, ticket, control, None, Waiting, false, false), r)
    {
      CreateHasEffect(Contents(), now, ttl, provider, target, id, ticket, control);
      rows := map k | k in rows && rows[k].deadline + GRACE > now :: rows[k];
      if |rows| >= LIMIT {
        return Busy;
      }
      CancelOlder(provider, target);
      rows := rows[id := Challenge(provider, target, now + ttl, ticket, control, None, Waiting, false, false)];
      r := Granted(id);
    }

    /** `_row`. */
    method Row(ref: Ref, now: int) returns (r: Option<Challenge>)
      modifies this
      ensures Contents() == Touched(old(Contents()), ref, now)
      ensures r == if Names(old(Contents()), ref) then Some(Expire(old(rows)[ref.id], now)) else None
      ensures LookupEffect(old(rows), rows, instance, ref, now)
      ensures r == if Refers(rows, instance, ref) then Some(rows[ref.id]) else None
    {
      if ref.instance != instance || ref.id !in rows || rows[ref.id].provider != ref.provider {
        return None;
      }
      var row := rows[ref.id];
      if row.deadline <= now && (row.state == Waiting || row.state == Opened) {
        row := row.(state := TimedOut);
      }
      rows := rows[ref.id := row];
      r := Some(row);
    }

    method Claim(now: int, ref: Ref, token: Token, exchange: Token) returns (r: Reply<Challenge>)
      modifies this
      ensures (Contents(), r) == Claimed(old(Contents()), now, ref, token, exchange)
      ensures ClaimEffect(old(rows), rows, instance, ref, now, token, exchange, r)
    {
      ClaimHasEffect(Contents(), now, ref, token, exchange);
      var found := Row(ref, now);
      if found.None? {
        return Invalid;
      }
      var row := found.value;
      if row.state == TimedOut {
        return Expired;
      }
      if row.state != Waiting && row.state != Opened {
        return Invalid;
      }
      if row.claimed || row.ticket != token {
        return Invalid;
      }
      row := row.(claimed := true, exchange := Some(exchange), state := Opened);
      rows := rows[ref.id := row];
      r := Granted(row);
    }

    method BeginCompletion(now: int, ref: Ref, token: Token) returns (r: Reply<Challenge>)
      modifies this
      ensures (Contents(), r) == Begun(old(Contents()), now, ref, token)
      ensures BeginEffect(old(rows), rows, instance, ref, now, token, r)
    {
      BeginHasEffect(Contents(), now, ref, token);
      var found := Row(ref, now);
      if found.None? {
        return Invalid;
      }
      var row := found.value;
      if row.state == TimedOut {
        return Expired;
      }
      if row.state != Waiting && row.state != Opened {
        return Invalid;
      }
      if !row.claimed || row.finishing || row.exchange != Some(token) {
        return Invalid;
      }
      row := row.(finishing := true);
      rows := rows[ref.id := row];
      r := Granted(row);
    }

    /** `publishes` says whether the publication, run under the lock after the checks, returned. */
    method Finish(now: int, id: nat, provider: Provider, publishes: bool) returns (ran: bool)
      requires id in rows ==> rows[id].provider == provider
      modifies this
      ensures ran == MayFinish(old(Contents()), now, id)
      ensures Contents() == Finished(old(Contents()), now, id, publishes)
      ensures FinishEffect(old(rows), rows, id, now, publishes, ran)
    {
      FinishHasEffect(Contents(), now, id, publishes);
      var found := Row(Ref(id, instance, provider), now);
      if found.None? || (found.value.state != Waiting && found.value.state != Opened) {
        return false;
      }
      if publishes {
        rows := rows[id := found.value.(state := Authenticated, exchange := None)];
      }
      ran := true;
    }

    method Fail(id: nat)
      modifies this
      ensures Contents() == FailedRow(old(Contents()), id)
      ensures FailEffect(old(rows), rows, id)
    {
      if id in rows && (rows[id].state == Opened || rows[id].state == Waiting) {
        rows := rows[id := rows[id].(state := Failed, exchange := None)];
      }
    }

    method Control(now: int, ref: Ref, token: Token, cancel: bool) returns (r: Reply<State>)
      modifies this
      ensures (Contents(), r) == Controlled(old(Contents()), now, ref, token, cancel)
      ensures ControlEffect(old(rows), rows, instance, ref, now, token, cancel, r)
    {
      ControlHasEffect(Contents(), now, ref, token, cancel);
      var found := Row(ref, now);
      if found.None? || found.value.control != token {
        return Invalid;
      }
      var row := found.value;
      if cancel && (row.state == Waiting || row.state == Opened) {
        row := row.(state := Cancelled);
        rows := rows[ref.id := row];
      }
      r := Granted(row.state);
    }
  }
}
