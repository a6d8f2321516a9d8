/** Whether the gateway will ever have an owner: identity-gateway/aw_gateway/store.py, `create_owner` and
    `create_preview`, over whole runs. */
module Ownership {
  import opened Documents
  import opened Identity

  ghost predicate Owned(t: Tables) {
    exists id :: id in t.users && t.users[id].role.Admin?
  }

  /** With accounts but no owner nothing can ever change that: nobody may disable, so nobody may be
      purged, and an owner is only created in an empty table. */
  predicate Ownerless(t: Tables) {
    t.users != map[] && forall id :: id in t.users ==> t.users[id].role.Member? && !t.users[id].status.Disabled?
  }

  ghost predicate Settled(t: Tables) {
    t.users == map[] || Owned(t) || Ownerless(t)
  }

  lemma CallsKeepTheOwner(t: Tables, c: Call, id: nat)
    requires Fresh(t, c) && id in t.users && t.users[id].role.Admin?
    ensures id in Called(t, c).users && Called(t, c).users[id].role.Admin?
  {
  }

  /** An owner is never disabled, so never deleted. */
  lemma OwnedOnce(h: History, e: Event)
    requires HistorySound(h) && Possible(h, e) && Owned(h.tables)
    ensures Owned(Next(h, e).tables)
  {
    var owner :| owner in h.tables.users && h.tables.users[owner].role.Admin?;
    assert UserSound(h.tables.slots, h.tables.users[owner]);
    if e.Gateway? {
      CallsKeepTheOwner(h.tables, e.call, owner);
    } else {
      assert owner in Next(h, e).tables.users && Next(h, e).tables.users[owner].role.Admin?;
    }
  }

  lemma CallsKeepOwnerless(t: Tables, c: Call)
    requires Ownerless(t) && Fresh(t, c)
    ensures Ownerless(Called(t, c))
  {
    var id :| id in t.users;
    assert id in Called(t, c).users;
    assert !Succeeds(t, c) || !c.CreateOwner?;
  }

  lemma OwnerlessOnce(h: History, e: Event)
    requires Ownerless(h.tables) && Possible(h, e)
    ensures Ownerless(Next(h, e).tables)
  {
    match e
    case Gateway(c) => CallsKeepOwnerless(h.tables, c);
    case Activation(user) =>
      var id :| id in h.tables.users;
      assert id in Activated(h.tables, user).users;
    case Deletion(user) => assert false;
  }

  lemma {:induction false} OwnerlessForGood(h: History, events: seq<Event>)
    requires Ownerless(h.tables) && AllPossible(h, events)
    ensures Ownerless(Run(h, events).tables)
    decreases |events|
  {
    if events != [] {
      OwnerlessOnce(h, events[0]);
      OwnerlessForGood(Next(h, events[0]), events[1..]);
    }
  }

  lemma EmptyTableCalls(t: Tables, c: Call)
    requires Sound(t) && t.users == map[]
    ensures c.CreateOwner? ==> Owned(Called(t, c))
    ensures c.CreatePreview? && t.slots >= 2 ==> Ownerless(Called(t, c))
    ensures !c.CreateOwner? && !(c.CreatePreview? && t.slots >= 2) ==> Called(t, c).users == map[]
  {
    match c
    case CreatePreview(id, _, _) =>
      LeastFreeIsFree(t.users, 2, t.slots);
      if t.slots >= 2 {
        assert !Used(t.users, 2);
        assert id in Called(t, c).users;
      }
    case CreateOwner(id, _, _, _) => assert id in Called(t, c).users && Called(t, c).users[id].role.Admin?;
    case Redeem(token, _, _, _, _) => assert token !in t.invitations;
    case _ => assert Called(t, c).users == map[];
  }

  predicate OwnerFirst(e: Event) {
    e.Gateway? && e.call.CreateOwner?
  }

  predicate PreviewFirst(e: Event, slots: nat) {
    e.Gateway? && e.call.CreatePreview? && slots >= 2
  }

  lemma EmptyTableEvents(h: History, e: Event)
    requires HistorySound(h) && Possible(h, e) && h.tables.users == map[]
    ensures OwnerFirst(e) ==> Owned(Next(h, e).tables)
    ensures PreviewFirst(e, h.tables.slots) ==> Ownerless(Next(h, e).tables)
    ensures !OwnerFirst(e) && !PreviewFirst(e, h.tables.slots) ==> Next(h, e).tables.users == map[]
  {
    if e.Gateway? { EmptyTableCalls(h.tables, e.call); }
  }

  /** An ownerless table is entered exactly by creating a preview account in an empty one: no other
      transaction, activation or deletion leads there. */
  lemma OnlyAnEarlyPreviewLosesTheOwner(h: History, e: Event)
    requires HistorySound(h) && Possible(h, e) && Settled(h.tables) && !Ownerless(h.tables)
    ensures Settled(Next(h, e).tables)
    ensures Ownerless(Next(h, e).tables) <==> h.tables.users == map[] && PreviewFirst(e, h.tables.slots)
  {
    if h.tables.users == map[] {
      EmptyTableEvents(h, e);
    } else {
      OwnedOnce(h, e);
    }
  }

  lemma {:induction false} OwnedForGood(h: History, events: seq<Event>)
    requires HistorySound(h) && AllPossible(h, events) && Owned(h.tables)
    ensures Owned(Run(h, events).tables)
    decreases |events|
  {
    if events != [] {
      OwnedOnce(h, events[0]);
      NextIsSound(h, events[0]);
      OwnedForGood(Next(h, events[0]), events[1..]);
    }
  }

  /** Of the events that create an account in an empty table, the first is a preview. */
  predicate PreviewBeforeOwner(events: seq<Event>, slots: nat) {
    events != [] && !OwnerFirst(events[0]) && (PreviewFirst(events[0], slots) || PreviewBeforeOwner(events[1..], slots))
  }

  predicate NoAccountYet(events: seq<Event>, slots: nat) {
    events == [] || (!OwnerFirst(events[0]) && !PreviewFirst(events[0], slots) && NoAccountYet(events[1..], slots))
  }

  lemma {:induction false} TheFirstAccountDecides(h: History, events: seq<Event>)
    requires HistorySound(h) && AllPossible(h, events) && h.tables.users == map[]
    ensures var t := Run(h, events).tables;
      && (t.users == map[] <==> NoAccountYet(events, h.tables.slots))
      && (Ownerless(t) <==> PreviewBeforeOwner(events, h.tables.slots))
      && (Owned(t) <==> !NoAccountYet(events, h.tables.slots) && !PreviewBeforeOwner(events, h.tables.slots))
    decreases |events|
  {
    if events != [] {
      var next := Next(h, events[0]);
      EmptyTableEvents(h, events[0]);
      NextIsSound(h, events[0]);
      if OwnerFirst(events[0]) {
        OwnedForGood(next, events[1..]);
      } else if PreviewFirst(events[0], h.tables.slots) {
        OwnerlessForGood(next, events[1..]);
      } else {
        TheFirstAccountDecides(next, events[1..]);
      }
    }
  }

  /** From the first start, the order of two kinds of event says it all: every reachable table is empty, has
      an owner, or is ownerless for good, and it is ownerless if and only if a preview account was created
      before any owner. */
  lemma {:induction false} OwnerlessExactlyByAnEarlyPreview(slots: nat, events: seq<Event>)
    requires slots >= 1 && AllPossible(First(slots), events)
    ensures var t := Run(First(slots), events).tables;
      && Settled(t)
      && (Ownerless(t) <==> PreviewBeforeOwner(events, slots))
      && (t.users == map[] <==> NoAccountYet(events, slots))
  {
    TheFirstAccountDecides(First(slots), events);
  }
}
