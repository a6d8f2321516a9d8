/** identity-gateway/aw_gateway/store.py: the central tables as transactions on values. User names and
    email addresses are taken as already normalised; tokens are opaque and hashed injectively. */
module Identity {
  import opened Documents
  import opened Sets

  type Token = nat

  datatype Role = Admin | Member
  datatype Status = Pending | Active | Disabled
  datatype Kind = Bootstrap | Normal

  datatype User = User(
    username: string, email: string, role: Role, status: Status, slot: nat, preview: bool,
    mustChange: bool, code: Option<Token>, codeClaimed: bool)

  datatype Session = Session(user: nat, kind: Kind, expires: int)

  datatype Invitation = Invitation(email: string, createdBy: nat, expires: int, redeemedBy: Option<nat>)

  datatype Callback = Callback(user: nat, slot: nat, inner: Token, google: bool, expires: int)

  datatype Tables = Tables(
    slots: nat,
    users: map<nat, User>,
    sessions: map<Token, Session>,
    invitations: map<Token, Invitation>,
    callbacks: map<Token, Callback>)

  const WEEK := 7 * 86400

  function Empty(slots: nat): Tables {
    Tables(slots, map[], map[], map[], map[])
  }

  predicate Used(users: map<nat, User>, slot: nat) {
    exists id :: id in users && users[id].slot == slot
  }

  /** The first unused slot from `from` up to `slots`. */
  function LeastFree(users: map<nat, User>, from: nat, slots: nat): Option<nat>
    decreases slots + 1 - from
  {
    if from > slots then None
    else if !Used(users, from) then Some(from)
    else LeastFree(users, from + 1, slots)
  }

  predicate NameTaken(t: Tables, username: string, email: string) {
    exists id :: id in t.users && (t.users[id].username == username || t.users[id].email == email)
  }

  predicate Administrator(t: Tables, id: nat) {
    id in t.users && t.users[id].role.Admin? && t.users[id].status.Active? && !t.users[id].mustChange
  }

  function SessionsWithout(t: Tables, user: nat): map<Token, Session> {
    map k | k in t.sessions && t.sessions[k].user != user :: t.sessions[k]
  }

  datatype Call =
    | CreateOwner(id: nat, username: string, email: string, code: Token)
    | CreatePreview(id: nat, username: string, email: string)
    | ClaimOwner(user: nat, code: Token, token: Token, now: int)
    | FinishChange(token: Token, newToken: Token, now: int)
    | CreateSession(user: nat, token: Token, now: int)
    | Revoke(token: Token)
    | CreateInvitation(actor: nat, email: string, token: Token, now: int)
    | Redeem(token: Token, id: nat, username: string, email: string, now: int)
    | Disable(actor: nat, target: nat)
    | Register(state: Token, user: nat, slot: nat, google: bool, inner: Token, lifetime: int, now: int)
    | Consume(state: Token, google: bool, now: int)

  /** Does the transaction go through? */
  predicate Succeeds(t: Tables, c: Call) {
    match c
    case CreateOwner(_, _, _, _) => t.users == map[]
    case CreatePreview(_, username, email) => LeastFree(t.users, 2, t.slots).Some? && !NameTaken(t, username, email)
    case ClaimOwner(user, code, _, _) =>
      && user in t.users && t.users[user].role.Admin? && t.users[user].status.Active? && t.users[user].mustChange
      && !t.users[user].codeClaimed && t.users[user].code == Some(code)
    case FinishChange(token, _, now) =>
      && token in t.sessions && t.sessions[token].kind.Bootstrap? && t.sessions[token].expires > now
      && t.sessions[token].user in t.users && t.users[t.sessions[token].user].mustChange
      && t.users[t.sessions[token].user].codeClaimed
    case CreateSession(user, _, _) => user in t.users && t.users[user].status.Active? && !t.users[user].mustChange
    case Revoke(token) => token in t.sessions
    case CreateInvitation(actor, _, _, _) => Administrator(t, actor) && |t.users| < t.slots
    case Redeem(token, _, username, email, now) =>
      && token in t.invitations && t.invitations[token].expires > now && t.invitations[token].redeemedBy.None?
      && t.invitations[token].email == email && LeastFree(t.users, 2, t.slots).Some? && !NameTaken(t, username, email)
    case Disable(actor, target) =>
      actor != target && Administrator(t, actor) && target in t.users && !t.users[target].status.Disabled?
    case Register(_, user, slot, _, _, lifetime, _) =>
      0 < lifetime <= 600 && user in t.users && t.users[user].status.Active? && t.users[user].slot == slot
    case Consume(state, google, now) =>
      && state in t.callbacks && t.callbacks[state].google == google && t.callbacks[state].expires > now
      && t.callbacks[state].user in t.users && t.users[t.callbacks[state].user].status.Active?
      && t.users[t.callbacks[state].user].slot == t.callbacks[state].slot
  }

  function Committed(t: Tables, c: Call): Tables
    requires Succeeds(t, c)
  {
    match c
    case CreateOwner(id, username, email, code) =>
      t.(users := t.users[id := User(username, email, Admin, Active, 1, false, true, Some(code), false)])
    case CreatePreview(id, username, email) =>
      t.(users := t.users[id :=
        User(username, email, Member, Active, LeastFree(t.users, 2, t.slots).value, true, false, None, false)])
    case ClaimOwner(user, _, token, now) =>
      t.(users := t.users[user := t.users[user].(code := None, codeClaimed := true)],
         sessions := t.sessions[token := Session(user, Bootstrap, now + 600)])
    case FinishChange(token, newToken, now) =>
      var user := t.sessions[token].user;
      t.(users := t.users[user := t.users[user].(code := None, mustChange := false)],
         sessions := SessionsWithout(t, user)[newToken := Session(user, Normal, now + WEEK)])
    case CreateSession(user, token, now) => t.(sessions := t.sessions[token := Session(user, Normal, now + WEEK)])
    case Revoke(token) => t.(sessions := t.sessions - {token})
    case CreateInvitation(actor, email, token, now) =>
      t.(invitations := t.invitations[token := Invitation(email, actor, now + WEEK, None)])
    case Redeem(token, id, username, email, _) =>
      t.(users := t.users[id :=
        User(username, email, Member, Pending, LeastFree(t.users, 2, t.slots).value, false, false, None, false)],
         invitations := t.invitations[token := t.invitations[token].(redeemedBy := Some(id))])
    case Disable(_, target) =>
      t.(users := t.users[target := t.users[target].(status := Disabled)], sessions := SessionsWithout(t, target))
    case Register(state, user, slot, google, inner, lifetime, now) =>
      t.(callbacks := (map k | k in t.callbacks && t.callbacks[k].expires > now :: t.callbacks[k])[
           state := Callback(user, slot, inner, google, now + lifetime)])
    case Consume(state, _, _) => t.(callbacks := t.callbacks - {state})
  }

  function Called(t: Tables, c: Call): Tables {
    if Succeeds(t, c) then Committed(t, c) else t
  }

  /** The only other writers are the provisioner's: activation, and the deletion that ends a purge. */
  function Activated(t: Tables, user: nat): Tables {
    if user in t.users && t.users[user].status.Pending? then
      t.(users := t.users[user := t.users[user].(status := Active)]) else t
  }

  function Deleted(t: Tables, user: nat): Tables {
    t.(users := t.users - {user},
       sessions := SessionsWithout(t, user),
       invitations := (map k | k in t.invitations && t.invitations[k].redeemedBy != Some(user) :: t.invitations[k]),
       callbacks := (map k | k in t.callbacks && t.callbacks[k].user != user :: t.callbacks[k]))
  }

  // The invariant.

  predicate UserSound(slots: nat, u: User) {
    && 1 <= u.slot <= slots && (u.slot == 1 <==> u.role.Admin?)
    && (u.role.Admin? ==> u.status.Active? && !u.preview)
    && (u.mustChange ==> u.role.Admin?)
    && (u.code.Some? ==> u.mustChange && !u.codeClaimed)
    && (u.preview ==> !u.status.Pending?)
  }

  predicate SessionSound(t: Tables, s: Session) {
    && s.user in t.users && t.users[s.user].status.Active?
    && (s.kind.Bootstrap? <==> t.users[s.user].mustChange)
  }

  ghost predicate SlotsDistinct(users: map<nat, User>) {
    forall a, b :: a in users && b in users && users[a].slot == users[b].slot ==> a == b
  }

  ghost predicate Sound(t: Tables) {
    && t.slots >= 1
    && SlotsDistinct(t.users)
    && (forall id :: id in t.users ==> UserSound(t.slots, t.users[id]))
    && (forall k :: k in t.sessions ==> SessionSound(t, t.sessions[k]))
    && (forall k :: k in t.invitations ==>
          t.invitations[k].createdBy in t.users && t.users[t.invitations[k].createdBy].role.Admin?
          && (t.invitations[k].redeemedBy.Some? ==> t.invitations[k].redeemedBy.value in t.users))
  }

  /** New rows get fresh random identifiers and tokens. */
  predicate Fresh(t: Tables, c: Call) {
    match c
    case CreateOwner(id, _, _, _) => id !in t.users
    case CreatePreview(id, _, _) => id !in t.users
    case Redeem(_, id, _, _, _) => id !in t.users
    case ClaimOwner(_, _, token, _) => token !in t.sessions
    case FinishChange(_, newToken, _) => newToken !in t.sessions
    case CreateSession(_, token, _) => token !in t.sessions
    case CreateInvitation(_, _, token, _) => token !in t.invitations
    case _ => true
  }

  lemma {:induction false} LeastFreeIsFree(users: map<nat, User>, from: nat, slots: nat)
    ensures var r := LeastFree(users, from, slots);
      && (r.Some? ==>
            from <= r.value <= slots && !Used(users, r.value) && forall n :: from <= n < r.value ==> Used(users, n))
      && (r.None? ==> forall n :: from <= n <= slots ==> Used(users, n))
    decreases slots + 1 - from
  {
    if from <= slots && Used(users, from) {
      LeastFreeIsFree(users, from + 1, slots);
    }
  }

  lemma AddingAUserIsSound(t: Tables, id: nat, u: User)
    requires Sound(t) && id !in t.users && UserSound(t.slots, u) && !Used(t.users, u.slot)
    ensures Sound(t.(users := t.users[id := u]))
  {
    var n := t.(users := t.users[id := u]);
    forall k | k in t.sessions ensures SessionSound(n, t.sessions[k]) {
      assert SessionSound(t, t.sessions[k]);
    }
  }

  /** One existing user changes, keeping slot and role, and the sessions are adjusted to match. */
  lemma ChangingAUserIsSound(t: Tables, id: nat, u: User, sessions: map<Token, Session>)
    requires Sound(t) && id in t.users && UserSound(t.slots, u)
    requires u.slot == t.users[id].slot && u.role == t.users[id].role
    requires forall k :: k in sessions ==> SessionSound(t.(users := t.users[id := u]), sessions[k])
    ensures Sound(t.(users := t.users[id := u], sessions := sessions))
  {
  }

  lemma OtherSessionsStaySound(t: Tables, id: nat, u: User, k: Token)
    requires Sound(t) && id in t.users && k in SessionsWithout(t, id)
    ensures SessionSound(t.(users := t.users[id := u]), SessionsWithout(t, id)[k])
  {
    assert SessionSound(t, t.sessions[k]);
  }

  lemma RedeemIsSound(t: Tables, c: Call)
    requires Sound(t) && Fresh(t, c) && c.Redeem? && Succeeds(t, c)
    ensures Sound(Committed(t, c))
  {
    LeastFreeIsFree(t.users, 2, t.slots);
    var u := User(c.username, c.email, Member, Pending, LeastFree(t.users, 2, t.slots).value, false, false, None,
      false);
    AddingAUserIsSound(t, c.id, u);
  }

  lemma ClaimIsSound(t: Tables, c: Call)
    requires Sound(t) && Fresh(t, c) && c.ClaimOwner? && Succeeds(t, c)
    ensures Sound(Committed(t, c))
  {
    var u := t.users[c.user].(code := None, codeClaimed := true);
    var sessions := t.sessions[c.token := Session(c.user, Bootstrap, c.now + 600)];
    forall k | k in sessions ensures SessionSound(t.(users := t.users[c.user := u]), sessions[k]) {
      if k != c.token { assert SessionSound(t, t.sessions[k]); }
    }
    ChangingAUserIsSound(t, c.user, u, sessions);
  }

  lemma FinishIsSound(t: Tables, c: Call)
    requires Sound(t) && Fresh(t, c) && c.FinishChange? && Succeeds(t, c)
    ensures Sound(Committed(t, c))
  {
    var id := t.sessions[c.token].user;
    var u := t.users[id].(code := None, mustChange := false);
    var sessions := SessionsWithout(t, id)[c.newToken := Session(id, Normal, c.now + WEEK)];
    assert SessionSound(t, t.sessions[c.token]);
    forall k | k in sessions ensures SessionSound(t.(users := t.users[id := u]), sessions[k]) {
      if k != c.newToken { OtherSessionsStaySound(t, id, u, k); }
    }
    ChangingAUserIsSound(t, id, u, sessions);
  }

  lemma DisableIsSound(t: Tables, c: Call)
    requires Sound(t) && c.Disable? && Succeeds(t, c)
    ensures Sound(Committed(t, c))
  {
    var u := t.users[c.target].(status := Disabled);
    assert UserSound(t.slots, t.users[c.actor]) && UserSound(t.slots, t.users[c.target]);
    assert t.users[c.target].slot != 1;
    forall k | k in SessionsWithout(t, c.target)
      ensures SessionSound(t.(users := t.users[c.target := u]), SessionsWithout(t, c.target)[k])
    {
      OtherSessionsStaySound(t, c.target, u, k);
    }
    ChangingAUserIsSound(t, c.target, u, SessionsWithout(t, c.target));
  }

  lemma PreviewIsSound(t: Tables, c: Call)
    requires Sound(t) && Fresh(t, c) && c.CreatePreview? && Succeeds(t, c)
    ensures Sound(Committed(t, c))
  {
    LeastFreeIsFree(t.users, 2, t.slots);
    AddingAUserIsSound(t, c.id, User(c.username, c.email, Member, Active, LeastFree(t.users, 2, t.slots).value, true,
      false, None, false));
  }

  lemma CreatedSessionIsSound(t: Tables, c: Call)
    requires Sound(t) && Succeeds(t, c) && c.CreateSession?
    ensures Sound(Committed(t, c))
  {
    var n := Committed(t, c);
    forall k | k in n.sessions ensures SessionSound(n, n.sessions[k]) {
      if k != c.token { assert SessionSound(t, t.sessions[k]); }
    }
  }

  lemma SmallCallsAreSound(t: Tables, c: Call)
    requires Sound(t) && Succeeds(t, c)
    requires c.CreateSession? || c.Revoke? || c.CreateInvitation? || c.Register? || c.Consume?
    ensures Sound(Committed(t, c))
  {
    if c.CreateSession? {
      CreatedSessionIsSound(t, c);
    } else {
      var n := Committed(t, c);
      forall k | k in n.sessions ensures SessionSound(n, n.sessions[k]) {
        assert SessionSound(t, t.sessions[k]);
      }
    }
  }

  lemma CalledIsSound(t: Tables, c: Call)
    requires Sound(t) && Fresh(t, c)
    ensures Sound(Called(t, c))
  {
    if Succeeds(t, c) {
      match c
      case CreateOwner(id, username, email, code) =>
        AddingAUserIsSound(t, id, User(username, email, Admin, Active, 1, false, true, Some(code), false));
      case CreatePreview(_, _, _) => PreviewIsSound(t, c);
      case Redeem(_, _, _, _, _) => RedeemIsSound(t, c);
      case ClaimOwner(_, _, _, _) => ClaimIsSound(t, c);
      case FinishChange(_, _, _) => FinishIsSound(t, c);
      case Disable(_, _) => DisableIsSound(t, c);
      case _ => SmallCallsAreSound(t, c);
    }
  }

  lemma ActivatedIsSound(t: Tables, user: nat)
    requires Sound(t)
    ensures Sound(Activated(t, user))
  {
    if user in t.users && t.users[user].status.Pending? {
      var u := t.users[user].(status := Active);
      forall k | k in t.sessions ensures SessionSound(t.(users := t.users[user := u]), t.sessions[k]) {
        assert SessionSound(t, t.sessions[k]);
      }
      ChangingAUserIsSound(t, user, u, t.sessions);
    }
  }

  lemma DeletedIsSound(t: Tables, user: nat)
    requires Sound(t) && user in t.users && t.users[user].role.Member?
    ensures Sound(Deleted(t, user))
  {
    var n := Deleted(t, user);
    forall k | k in n.sessions ensures SessionSound(n, n.sessions[k]) {
      assert SessionSound(t, t.sessions[k]);
    }
  }

  // What the invariant is for.

  /** Exactly one session is left to the owner, a normal one, and it is the one just issued. */
  lemma PasswordChangeLeavesOneNormalSession(t: Tables, c: Call, k: Token)
    requires Sound(t) && Fresh(t, c) && c.FinishChange? && Succeeds(t, c)
    ensures var owner := t.sessions[c.token].user; var n := Called(t, c);
      && (k in n.sessions && n.sessions[k].user == owner <==> k == c.newToken)
      && n.sessions[c.newToken].kind.Normal?
      && !n.users[owner].mustChange
  {
  }

  function Upto(n: nat): set<nat> {
    if n == 0 then {} else Upto(n - 1) + {n}
  }

  lemma {:induction false} UptoIs(n: nat)
    ensures |Upto(n)| == n && forall i :: i in Upto(n) <==> 1 <= i <= n
  {
    if n > 0 { UptoIs(n - 1); }
  }

  function SlotSet(users: map<nat, User>): set<nat> {
    set id | id in users :: users[id].slot
  }

  lemma SlotSetWithout(users: map<nat, User>, id: nat)
    requires SlotsDistinct(users) && id in users
    ensures SlotSet(users) == SlotSet(users - {id}) + {users[id].slot} && users[id].slot !in SlotSet(users - {id})
  {
    var rest := users - {id};
    forall n | n in SlotSet(users) ensures n in SlotSet(rest) + {users[id].slot} {
      var other :| other in users && users[other].slot == n;
      if other != id { assert other in rest && rest[other].slot == n; }
    }
    forall n | n in SlotSet(rest) ensures n in SlotSet(users) {
      var other :| other in rest && rest[other].slot == n;
      assert users[other].slot == n;
    }
  }

  lemma {:induction false} DistinctSlotsCount(users: map<nat, User>)
    requires SlotsDistinct(users)
    ensures |SlotSet(users)| == |users|
    decreases |users|
  {
    if users != map[] {
      var id :| id in users;
      SlotSetWithout(users, id);
      assert users.Keys == (users - {id}).Keys + {id};
      DistinctSlotsCount(users - {id});
    } else {
      assert SlotSet(users) == {};
    }
  }

  /** Two different tests for room agree: whenever there is an owner, the head count that admits an
      invitation and the search for a free slot that redeems one say the same. */
  lemma HeadCountMatchesSlotSearch(t: Tables, owner: nat)
    requires Sound(t) && owner in t.users && t.users[owner].role.Admin?
    ensures |t.users| < t.slots <==> LeastFree(t.users, 2, t.slots).Some?
  {
    var used, all := SlotSet(t.users), Upto(t.slots);
    LeastFreeIsFree(t.users, 2, t.slots);
    DistinctSlotsCount(t.users);
    UptoIs(t.slots);
    assert UserSound(t.slots, t.users[owner]) && 1 in used;
    forall n | n in used ensures n in all {
      var id :| id in t.users && t.users[id].slot == n;
      assert UserSound(t.slots, t.users[id]);
    }
    if LeastFree(t.users, 2, t.slots).Some? {
      var free := LeastFree(t.users, 2, t.slots).value;
      assert free in all && free !in used;
      SubsetIsSmaller(used, all - {free});
    } else {
      forall n | n in all ensures n in used {
        if n >= 2 { assert Used(t.users, n); }
      }
      assert used == all;
    }
  }

  // Whole runs.

  datatype Event = Gateway(call: Call) | Activation(user: nat) | Deletion(user: nat)

  /** `issued` and `redeemed` remember invitation tokens beyond their rows; `ownerClaims` counts. */
  datatype History = History(tables: Tables, issued: set<Token>, redeemed: seq<Token>, ownerClaims: nat)

  predicate Possible(h: History, e: Event) {
    match e
    case Gateway(c) => Fresh(h.tables, c) && (c.CreateInvitation? ==> c.token !in h.issued)
    case Activation(_) => true
    case Deletion(user) => user in h.tables.users && h.tables.users[user].status.Disabled?
  }

  function Next(h: History, e: Event): History {
    match e
    case Gateway(c) =>
      History(
        Called(h.tables, c),
        if c.CreateInvitation? then h.issued + {c.token} else h.issued,
        if c.Redeem? && Succeeds(h.tables, c) then h.redeemed + [c.token] else h.redeemed,
        if c.ClaimOwner? && Succeeds(h.tables, c) then h.ownerClaims + 1 else h.ownerClaims)
    case Activation(user) => h.(tables := Activated(h.tables, user))
    case Deletion(user) => h.(tables := Deleted(h.tables, user))
  }

  /** The redemption marked an invitation that was not marked before. */
  predicate MarksRedeemed(a: Tables, b: Tables, token: Token) {
    && token in a.invitations && a.invitations[token].redeemedBy.None?
    && token in b.invitations && b.invitations[token].redeemedBy.Some?
  }

  /** The record follows the tables: a token is recorded when its invitation is marked, and a claim when the owner's
      code is. */
  lemma EventsAreRecorded(h: History, e: Event)
    ensures var n := Next(h, e);
      && n.redeemed == h.redeemed + (if e.Gateway? && e.call.Redeem? && MarksRedeemed(h.tables, n.tables, e.call.token)
                                     then [e.call.token] else [])
      && (n.ownerClaims == h.ownerClaims + 1 <==>
            e.Gateway? && e.call.ClaimOwner? && e.call.user in h.tables.users && e.call.user in n.tables.users
            && !h.tables.users[e.call.user].codeClaimed && n.tables.users[e.call.user].codeClaimed)
      && n.issued == (if e.Gateway? && e.call.CreateInvitation? then h.issued + {e.call.token} else h.issued)
  {
    assert h.redeemed + [] == h.redeemed;
  }

  ghost predicate HistorySound(h: History) {
    && Sound(h.tables)
    && InvitationsSound(h)
    && h.ownerClaims <= 1
    && (h.ownerClaims == 0 ==> NobodyClaimed(h.tables))
    && (h.ownerClaims == 1 ==> OwnerClaimed(h.tables))
  }

  ghost predicate OwnerClaimed(t: Tables) {
    exists id :: id in t.users && t.users[id].role.Admin? && t.users[id].codeClaimed
  }

  ghost predicate NobodyClaimed(t: Tables) {
    forall id :: id in t.users ==> !t.users[id].codeClaimed
  }

  lemma ClaimedOnce(t: Tables, c: Call)
    requires Sound(t) && OwnerClaimed(t) && c.ClaimOwner?
    ensures !Succeeds(t, c)
  {
    var owner :| owner in t.users && t.users[owner].role.Admin? && t.users[owner].codeClaimed;
    assert UserSound(t.slots, t.users[owner]);
    if c.user in t.users { assert UserSound(t.slots, t.users[c.user]); }
  }

  lemma ClaimedOwnerStays(t: Tables, c: Call, id: nat)
    requires Fresh(t, c) && id in t.users && t.users[id].role.Admin? && t.users[id].codeClaimed
    ensures id in Called(t, c).users && Called(t, c).users[id].role.Admin? && Called(t, c).users[id].codeClaimed
  {
  }

  lemma ClaimStays(h: History, e: Event)
    requires HistorySound(h) && Possible(h, e) && OwnerClaimed(h.tables)
    ensures OwnerClaimed(Next(h, e).tables)
  {
    var owner :| owner in h.tables.users && h.tables.users[owner].role.Admin? && h.tables.users[owner].codeClaimed;
    assert UserSound(h.tables.slots, h.tables.users[owner]);
    if e.Gateway? {
      ClaimedOwnerStays(h.tables, e.call, owner);
    } else {
      assert owner in Next(h, e).tables.users && Next(h, e).tables.users[owner].codeClaimed;
    }
  }

  lemma NobodyClaimsOtherwise(h: History, e: Event)
    requires NobodyClaimed(h.tables) && Possible(h, e) && Next(h, e).ownerClaims == h.ownerClaims
    ensures NobodyClaimed(Next(h, e).tables)
  {
  }

  lemma OwnerClaimCounted(h: History, e: Event)
    requires HistorySound(h) && Possible(h, e)
    ensures Next(h, e).ownerClaims <= 1
    ensures Next(h, e).ownerClaims == 0 ==> NobodyClaimed(Next(h, e).tables)
    ensures Next(h, e).ownerClaims == 1 ==> OwnerClaimed(Next(h, e).tables)
  {
    if h.ownerClaims == 1 {
      ClaimStays(h, e);
      if e.Gateway? && e.call.ClaimOwner? { ClaimedOnce(h.tables, e.call); }
    } else if Next(h, e).ownerClaims == 0 {
      NobodyClaimsOtherwise(h, e);
    } else {
      assert Next(h, e).tables.users[e.call.user].codeClaimed;
    }
  }

  ghost predicate InvitationsSound(h: History) {
    && (forall k :: k in h.tables.invitations ==>
          k in h.issued && (k in h.redeemed ==> h.tables.invitations[k].redeemedBy.Some?))
    && (forall i :: 0 <= i < |h.redeemed| ==> h.redeemed[i] in h.issued)
    && (forall i, j :: 0 <= i < j < |h.redeemed| ==> h.redeemed[i] != h.redeemed[j])
  }

  lemma RedeemingIsCounted(h: History, e: Event)
    requires InvitationsSound(h) && e.Gateway? && e.call.Redeem?
    ensures InvitationsSound(Next(h, e))
  {
  }

  lemma InvitingIsCounted(h: History, e: Event)
    requires InvitationsSound(h) && Possible(h, e) && e.Gateway? && e.call.CreateInvitation?
    ensures InvitationsSound(Next(h, e))
  {
  }

  lemma OtherEventsOnlyDropInvitations(h: History, e: Event)
    requires InvitationsSound(h) && (e.Gateway? ==> !e.call.Redeem? && !e.call.CreateInvitation?)
    ensures InvitationsSound(Next(h, e))
  {
    var before, after := h.tables.invitations, Next(h, e).tables.invitations;
    assert forall k :: k in after ==> k in before && after[k] == before[k];
  }

  lemma NextIsSound(h: History, e: Event)
    requires HistorySound(h) && Possible(h, e)
    ensures HistorySound(Next(h, e))
  {
    match e {
      case Gateway(c) => CalledIsSound(h.tables, c);
      case Activation(user) => ActivatedIsSound(h.tables, user);
      case Deletion(user) =>
        assert UserSound(h.tables.slots, h.tables.users[user]);
        DeletedIsSound(h.tables, user);
    }
    OwnerClaimCounted(h, e);
    if e.Gateway? && e.call.Redeem? {
      RedeemingIsCounted(h, e);
    } else if e.Gateway? && e.call.CreateInvitation? {
      InvitingIsCounted(h, e);
    } else {
      OtherEventsOnlyDropInvitations(h, e);
    }
  }

  predicate AllPossible(h: History, events: seq<Event>)
    decreases |events|
  {
    events == [] || (Possible(h, events[0]) && AllPossible(Next(h, events[0]), events[1..]))
  }

  function Run(h: History, events: seq<Event>): History
    decreases |events|
  {
    if events == [] then h else Run(Next(h, events[0]), events[1..])
  }

  /** Over every interleaving of gateway transactions, activations and purges: sessions belong to active
      users and are of the right kind, slots are distinct and in range with slot 1 the owner's alone,
      the owner's code is claimed at most once, and no invitation is redeemed twice. */
  lemma {:induction false} RunsAreSound(h: History, events: seq<Event>)
    requires HistorySound(h) && AllPossible(h, events)
    ensures HistorySound(Run(h, events))
    decreases |events|
  {
    if events != [] {
      NextIsSound(h, events[0]);
      RunsAreSound(Next(h, events[0]), events[1..]);
    }
  }

  /** A gateway with an empty database. */
  function First(slots: nat): History {
    History(Empty(slots), {}, [], 0)
  }

  /** The same from the first start, written out for the tables. */
  lemma {:induction false} RunsFromTheFirstStartAreSound(slots: nat, events: seq<Event>)
    requires slots >= 1 && AllPossible(First(slots), events)
    ensures HistorySound(Run(First(slots), events))
    ensures var t := Run(First(slots), events).tables;
      && (forall id :: id in t.users ==> 1 <= t.users[id].slot && (t.users[id].slot == 1 <==> t.users[id].role.Admin?))
      && (forall k :: k in t.sessions ==> t.sessions[k].user in t.users && t.users[t.sessions[k].user].status.Active?)
  {
    RunsAreSound(First(slots), events);
    var t := Run(First(slots), events).tables;
    forall id | id in t.users ensures 1 <= t.users[id].slot && (t.users[id].slot == 1 <==> t.users[id].role.Admin?) {
      assert UserSound(t.slots, t.users[id]);
    }
    forall k | k in t.sessions ensures t.sessions[k].user in t.users && t.users[t.sessions[k].user].status.Active? {
      assert SessionSound(t, t.sessions[k]);
    }
  }
}
