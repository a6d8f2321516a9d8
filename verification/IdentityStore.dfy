/** identity-gateway/aw_gateway/store.py: each public method is one serialised transaction over the
    tables, proved to do what Identity says of its call. */
module IdentityStore {
  import opened Documents
  import opened Identity

  /** A SHA-512 crypt hash and a code of at least 32 characters. */
  predicate UsableMaterial(hash: string, codeLength: nat) {
    "$6$" <= hash && codeLength >= 32
  }

  predicate Free(users: map<nat, User>, slot: nat) {
    forall id :: id in users ==> users[id].slot != slot
  }

  /** The least slot from 2 to `slots` that no account holds. */
  predicate LeastUnused(users: map<nat, User>, slots: nat, slot: nat) {
    2 <= slot <= slots && Free(users, slot) && forall n :: 2 <= n < slot ==> !Free(users, n)
  }

  predicate Full(users: map<nat, User>, slots: nat) {
    forall n :: 2 <= n <= slots ==> !Free(users, n)
  }

  predicate NoNamesake(users: map<nat, User>, username: string, email: string) {
    forall id :: id in users ==> users[id].username != username && users[id].email != email
  }

  predicate MayAdminister(users: map<nat, User>, id: nat) {
    id in users && users[id].role == Admin && users[id].status == Active && !users[id].mustChange
  }

  /** Exactly the sessions of other users. */
  predicate SessionsLeft(before: map<Token, Session>, after: map<Token, Session>, user: nat) {
    && (forall k :: k in after ==> k in before && before[k].user != user && after[k] == before[k])
    && (forall k :: k in before && before[k].user != user ==> k in after)
  }

  lemma {:induction false} LeastFreeIsLeast(users: map<nat, User>, slots: nat)
    ensures LeastFree(users, 2, slots).Some? ==> LeastUnused(users, slots, LeastFree(users, 2, slots).value)
    ensures LeastFree(users, 2, slots).None? ==> Full(users, slots)
  {
    LeastFreeIsFree(users, 2, slots);
    forall n: nat ensures Free(users, n) <==> !Used(users, n) {}
  }

  class Store {
    const slots: nat
    var users: map<nat, User>
    var sessions: map<Token, Session>
    var invitations: map<Token, Invitation>
    var callbacks: map<Token, Callback>

    function Contents(): Tables
      reads this
    {
      Tables(slots, users, sessions, invitations, callbacks)
    }

    constructor (slots: nat)
      requires 1 <= slots <= 5
      ensures Contents() == Identity.Empty(slots)
    {
      this.slots := slots;
      users, sessions, invitations, callbacks := map[], map[], map[], map[];
    }

    /** The least unused slot from 2 on. */
    method FreeSlot() returns (r: Option<nat>)
      ensures r == LeastFree(users, 2, slots)
      ensures r.Some? ==> LeastUnused(users, slots, r.value)
      ensures r.None? ==> Full(users, slots)
    {
      LeastFreeIsLeast(users, slots);
      var used := set id | id in users :: users[id].slot;
      var number := 2;
      while number <= slots
        invariant 2 <= number
        invariant LeastFree(users, 2, slots) == LeastFree(users, number, slots)
        decreases slots + 1 - number
      {
        if number !in used {
          assert !Used(users, number);
          return Some(number);
        }
        assert Used(users, number);
        number := number + 1;
      }
      r := None;
    }

    /** The UNIQUE constraints of an insertion. */
    method Unique(username: string, email: string) returns (ok: bool)
      ensures ok == !NameTaken(Contents(), username, email)
      ensures ok == NoNamesake(users, username, email)
    {
      ok := !(exists id :: id in users && (users[id].username == username || users[id].email == email));
    }

    /** `codeLength` is that of the code's text. */
    method CreateOwner(id: nat, username: string, email: string, hash: string, code: Token, codeLength: nat)
      returns (ok: bool)
      requires id !in users
      modifies this
      ensures var c := Call.CreateOwner(id, username, email, code);
        && ok == (UsableMaterial(hash, codeLength) && Succeeds(old(Contents()), c))
        && Contents() == if UsableMaterial(hash, codeLength) then Called(old(Contents()), c) else old(Contents())
      ensures ok <==> "$6$" <= hash && codeLength >= 32 && old(users) == map[]
      ensures Contents() == old(Contents()).(users := users)
      ensures users == if ok then map[id := User(username, email, Admin, Active, 1, false, true, Some(code), false)]
        else old(users)
    {
      if !("$6$" <= hash) || codeLength < 32 {
        return false;
      }
      if users != map[] {
        return false;
      }
      users := users[id := User(username, email, Admin, Active, 1, false, true, Some(code), false)];
      ok := true;
    }

    method CreatePreview(id: nat, username: string, email: string) returns (ok: bool)
      requires id !in users
      modifies this
      ensures var c := Call.CreatePreview(id, username, email);
        ok == Succeeds(old(Contents()), c) && Contents() == Called(old(Contents()), c)
      ensures ok <==> !Full(old(users), slots) && NoNamesake(old(users), username, email)
      ensures Contents() == old(Contents()).(users := users) && (!ok ==> users == old(users))
      ensures ok ==>
        && id in users && LeastUnused(old(users), slots, users[id].slot)
        && users == old(users)[id :=
             User(username, email, Member, Active, users[id].slot, true, false, None, false)]
    {
      var slot := FreeSlot();
      if slot.None? {
        return false;
      }
      ok := Unique(username, email);
      if ok {
        users := users[id := User(username, email, Member, Active, slot.value, true, false, None, false)];
      }
    }

    method ClaimOwner(user: nat, code: Token, token: Token, now: int) returns (ok: bool)
      requires token !in sessions
      modifies this
      ensures var c := Call.ClaimOwner(user, code, token, now);
        ok == Succeeds(old(Contents()), c) && Contents() == Called(old(Contents()), c)
      ensures ok <==>
        && user in old(users) && old(users)[user].role == Admin && old(users)[user].status == Active
        && old(users)[user].mustChange && !old(users)[user].codeClaimed && old(users)[user].code == Some(code)
      ensures ok ==>
        && users == old(users)[user := old(users)[user].(code := None, codeClaimed := true)]
        && sessions == old(sessions)[token := Session(user, Bootstrap, now + 600)]
      ensures Contents() == old(Contents()).(users := users, sessions := sessions)
      ensures !ok ==> users == old(users) && sessions == old(sessions)
    {
      if user !in users {
        return false;
      }
      var u := users[user];
      if u.role != Admin || u.status != Active || !u.mustChange || u.codeClaimed || u.code.None?
        || u.code.value != code {
        return false;
      }
      users := users[user := u.(code := None, codeClaimed := true)];
      sessions := sessions[token := Session(user, Bootstrap, now + 600)];
      ok := true;
    }

    method FinishOwnerPasswordChange(token: Token, newToken: Token, now: int) returns (ok: bool)
      requires newToken !in sessions
      modifies this
      ensures var c := FinishChange(token, newToken, now);
        ok == Succeeds(old(Contents()), c) && Contents() == Called(old(Contents()), c)
      ensures ok <==>
        && token in old(sessions) && old(sessions)[token].kind == Bootstrap && now < old(sessions)[token].expires
        && var user := old(sessions)[token].user;
           user in old(users) && old(users)[user].mustChange && old(users)[user].codeClaimed
      ensures ok ==> var user := old(sessions)[token].user;
        && users == old(users)[user := old(users)[user].(code := None, mustChange := false)]
        && newToken in sessions && sessions[newToken] == Session(user, Normal, now + 604800)
        && SessionsLeft(old(sessions), sessions - {newToken}, user)
      ensures Contents() == old(Contents()).(users := users, sessions := sessions)
      ensures !ok ==> users == old(users) && sessions == old(sessions)
    {
      if token !in sessions || sessions[token].kind != Bootstrap || sessions[token].expires <= now
        || sessions[token].user !in users {
        return false;
      }
      var user := sessions[token].user;
      if !users[user].mustChange || !users[user].codeClaimed {
        return false;
      }
      users := users[user := users[user].(code := None, mustChange := false)];
      sessions := map k | k in sessions && sessions[k].user != user :: sessions[k];
      sessions := sessions[newToken := Session(user, Normal, now + WEEK)];
      ok := true;
    }

    method CreateSession(user: nat, token: Token, now: int) returns (ok: bool)
      requires token !in sessions
      modifies this
      ensures var c := Call.CreateSession(user, token, now);
        ok == Succeeds(old(Contents()), c) && Contents() == Called(old(Contents()), c)
      ensures ok <==> user in users && users[user].status == Active && !users[user].mustChange
      ensures Contents() == old(Contents()).(sessions := sessions)
      ensures sessions == if ok then old(sessions)[token := Session(user, Normal, now + 604800)] else old(sessions)
    {
      if user !in users || users[user].status != Active || users[user].mustChange {
        return false;
      }
      sessions := sessions[token := Session(user, Normal, now + WEEK)];
      ok := true;
    }

    /** Under the invariant the status test is redundant: a live token always names an active user. */
    method Authenticate(token: Token, now: int) returns (r: Option<(nat, Kind)>)
      requires Sound(Contents())
      ensures r.Some? <==> token in sessions && sessions[token].expires > now
      ensures r.Some? ==> r.value == (sessions[token].user, sessions[token].kind)
      ensures r.Some? ==>
        r.value.0 in users && users[r.value.0].status.Active? && (r.value.1.Bootstrap? <==> users[r.value.0].mustChange)
    {
      assert token in sessions ==> SessionSound(Contents(), sessions[token]);
      if token !in sessions || sessions[token].expires <= now || sessions[token].user !in users
        || users[sessions[token].user].status != Active {
        return None;
      }
      r := Some((sessions[token].user, sessions[token].kind));
    }

    method CreateInvitation(actor: nat, email: string, token: Token, now: int) returns (ok: bool)
      requires token !in invitations
      modifies this
      ensures var c := Call.CreateInvitation(actor, email, token, now);
        ok == Succeeds(old(Contents()), c) && Contents() == Called(old(Contents()), c)
      ensures ok <==> MayAdminister(users, actor) && |users| < slots
      ensures Contents() == old(Contents()).(invitations := invitations)
      ensures invitations == if ok then old(invitations)[token := Invitation(email, actor, now + 604800, None)]
        else old(invitations)
    {
      if actor !in users || users[actor].role != Admin || users[actor].status != Active || users[actor].mustChange {
        return false;
      }
      if |users| >= slots {
        return false;
      }
      invitations := invitations[token := Invitation(email, actor, now + WEEK, None)];
      ok := true;
    }

    method RedeemInvitation(token: Token, id: nat, username: string, email: string, now: int)
      returns (ok: bool, slot: Option<nat>)
      requires id !in users
      modifies this
      ensures var c := Redeem(token, id, username, email, now);
        && ok == Succeeds(old(Contents()), c) && Contents() == Called(old(Contents()), c)
        && (ok ==> slot == LeastFree(old(users), 2, slots))
      ensures ok <==>
        && token in old(invitations) && now < old(invitations)[token].expires
        && old(invitations)[token].redeemedBy == None && old(invitations)[token].email == email
        && !Full(old(users), slots) && NoNamesake(old(users), username, email)
      ensures ok ==>
        && slot.Some? && LeastUnused(old(users), slots, slot.value)
        && users == old(users)[id := User(username, email, Member, Pending, slot.value, false, false, None, false)]
        && invitations == old(invitations)[token := old(invitations)[token].(redeemedBy := Some(id))]
      ensures Contents() == old(Contents()).(users := users, invitations := invitations)
      ensures !ok ==> users == old(users) && invitations == old(invitations)
    {
      slot := None;
      ok := false;
      if token !in invitations || invitations[token].expires <= now || invitations[token].redeemedBy.Some?
        || invitations[token].email != email {
        return;
      }
      slot := FreeSlot();
      if slot.None? {
        return;
      }
      ok := Unique(username, email);
      if ok {
        users := users[id := User(username, email, Member, Pending, slot.value, false, false, None, false)];
        invitations := invitations[token := invitations[token].(redeemedBy := Some(id))];
      }
    }

    method DisableUser(actor: nat, target: nat) returns (ok: bool)
      modifies this
      ensures var c := Disable(actor, target);
        ok == Succeeds(old(Contents()), c) && Contents() == Called(old(Contents()), c)
      ensures ok <==>
        && actor != target && MayAdminister(old(users), actor)
        && target in old(users) && old(users)[target].status != Disabled
      ensures ok ==>
        && users == old(users)[target := old(users)[target].(status := Disabled)]
        && SessionsLeft(old(sessions), sessions, target)
      ensures Contents() == old(Contents()).(users := users, sessions := sessions)
      ensures !ok ==> users == old(users) && sessions == old(sessions)
    {
      if actor == target {
        return false;
      }
      if actor !in users || users[actor].role != Admin || users[actor].status != Active || users[actor].mustChange {
        return false;
      }
      if target !in users || users[target].status == Disabled {
        return false;
      }
      users := users[target := users[target].(status := Disabled)];
      sessions := map k | k in sessions && sessions[k].user != target :: sessions[k];
      ok := true;
    }

    method RegisterOAuthCallback(state: Token, user: nat, slot: nat, google: bool, inner: Token, lifetime: int,
        now: int) returns (ok: bool)
      modifies this
      ensures var c := Register(state, user, slot, google, inner, lifetime, now);
        ok == Succeeds(old(Contents()), c) && Contents() == Called(old(Contents()), c)
      ensures ok <==>
        0 < lifetime <= 600 && user in users && users[user].status == Active && users[user].slot == slot
      ensures ok ==>
        && state in callbacks && callbacks[state] == Callback(user, slot, inner, google, now + lifetime)
        && (forall k :: k != state ==>
              (k in callbacks <==> k in old(callbacks) && now < old(callbacks)[k].expires))
        && (forall k :: k in callbacks && k != state ==> callbacks[k] == old(callbacks)[k])
      ensures Contents() == old(Contents()).(callbacks := callbacks) && (!ok ==> callbacks == old(callbacks))
    {
      if !(0 < lifetime <= 600) || user !in users || users[user].status != Active || users[user].slot != slot {
        return false;
      }
      callbacks := map k | k in callbacks && callbacks[k].expires > now :: callbacks[k];
      callbacks := callbacks[state := Callback(user, slot, inner, google, now + lifetime)];
      ok := true;
    }

    /** One-shot: the state is gone after its first use, and it only ever leads to the slot its user
        holds now. */
    method ConsumeOAuthCallback(state: Token, google: bool, now: int) returns (r: Option<(nat, Token)>)
      modifies this
      ensures var c := Consume(state, google, now);
        r.Some? == Succeeds(old(Contents()), c) && Contents() == Called(old(Contents()), c)
      ensures r.Some? <==>
        && state in old(callbacks) && old(callbacks)[state].google == google && now < old(callbacks)[state].expires
        && old(callbacks)[state].user in users && users[old(callbacks)[state].user].status == Active
        && users[old(callbacks)[state].user].slot == old(callbacks)[state].slot
      ensures Contents() == old(Contents()).(callbacks := callbacks)
      ensures callbacks == if r.Some? then old(callbacks) - {state} else old(callbacks)
      ensures r.Some? ==> state !in callbacks && r.value == (old(callbacks)[state].slot, old(callbacks)[state].inner)
      ensures r.Some? ==> r.value.0 == users[old(callbacks)[state].user].slot
    {
      if state !in callbacks || callbacks[state].google != google || callbacks[state].expires <= now
        || callbacks[state].user !in users {
        return None;
      }
      var row := callbacks[state];
      if users[row.user].status != Active || users[row.user].slot != row.slot {
        return None;
      }
      callbacks := callbacks - {state};
      r := Some((row.slot, row.inner));
    }
  }
}
