/** ops/azure/aw_provision.py, `reconcile_user`: what one account's turn makes of its slot, part by part, and
    where a whole `reconcile` with working commands ends. */
module Reconciliation {
  import opened Documents
  import opened Identity
  import opened Provisioner

  /** The parts in the order they are made: 1 to 5 are prepared, 6 is the running instance. */
  function Has(d: Storage, part: nat): bool {
    match part
    case 1 => d.image
    case 2 => d.fstab
    case 3 => d.mounted
    case 4 => d.secrets
    case 5 => d.token
    case _ => d.running
  }

  /** The first `n` external commands succeeded. */
  predicate Through(outcomes: seq<(bool, bool)>, n: nat)
    requires n <= |outcomes|
  {
    forall k :: 0 <= k < n ==> outcomes[k].0
  }

  /** The command had its effect, be it that it reported failure. */
  predicate Took(outcome: (bool, bool)) {
    outcome.0 || outcome.1
  }

  /** An account not waiting to be provisioned: under an import lock or disabled it is only ever stopped, and
      active it is only ever started, when its secrets are there. */
  predicate Supervises(before: Storage, after: Storage, status: Status, took: bool) {
    && after == before.(running := after.running)
    && (before.importLock || status == Disabled ==> (after.running <==> before.running && !took))
    && (!before.importLock && status == Active ==> (after.running <==> before.running || (before.secrets && took)))
  }

  /** A locked slot counts as a failure, and so does an instance that did not come up. */
  predicate FailsSupervision(before: Storage, status: Status, outcome: (bool, bool)) {
    before.importLock || (status == Active && !before.running && before.secrets && !outcome.0)
  }

  /** An account waiting: from step `at` on each part is there exactly if it was, or its command took effect and
      all before it succeeded. */
  predicate Provisions(before: Storage, after: Storage, at: nat, outcomes: seq<(bool, bool)>)
    requires 1 <= at && |outcomes| + at >= 9
  {
    && after.importLock == before.importLock
    && forall part :: 1 <= part <= 6 ==>
         (Has(after, part) <==>
          Has(before, part) || (part >= at && Through(outcomes, part - at) && Took(outcomes[part - at])))
  }

  lemma {:induction false} ThroughRest(outcomes: seq<(bool, bool)>, n: nat)
    requires 0 < n <= |outcomes|
    ensures Through(outcomes, n) <==> outcomes[0].0 && Through(outcomes[1..], n - 1)
  {
    assert forall k :: 0 <= k < n - 1 ==> outcomes[1..][k] == outcomes[k + 1];
    if outcomes[0].0 && Through(outcomes[1..], n - 1) {
      forall k | 0 <= k < n ensures outcomes[k].0 {
        if k > 0 { assert outcomes[1..][k - 1].0; }
      }
    }
  }

  lemma ProvisionsFurther(before: Storage, mid: Storage, after: Storage, at: nat, outcomes: seq<(bool, bool)>)
    requires 1 <= at <= 7 && |outcomes| + at >= 9 && outcomes[0].0
    requires Provisions(mid, after, at + 1, outcomes[1..])
    requires mid.importLock == before.importLock
    requires forall part :: 1 <= part <= 6 ==> (Has(mid, part) <==> Has(before, part) || part == at)
    ensures Provisions(before, after, at, outcomes)
  {
    forall part | 1 <= part <= 6
      ensures Has(after, part) <==>
        Has(before, part) || (part >= at && Through(outcomes, part - at) && Took(outcomes[part - at]))
    {
      if part > at {
        ThroughRest(outcomes, part - at);
        assert outcomes[1..][part - (at + 1)] == outcomes[part - at];
      }
    }
  }

  lemma ProvisionsNoFurther(before: Storage, after: Storage, at: nat, outcomes: seq<(bool, bool)>)
    requires 1 <= at <= 8 && |outcomes| + at >= 9 && (!outcomes[0].0 || at == 8)
    requires after.importLock == before.importLock
    requires forall part :: 1 <= part <= 6 ==>
      (Has(after, part) <==> Has(before, part) || (part == at && Took(outcomes[0])))
    ensures Provisions(before, after, at, outcomes)
  {
    forall part | 1 <= part <= 6
      ensures Has(after, part) <==>
        Has(before, part) || (part >= at && Through(outcomes, part - at) && Took(outcomes[part - at]))
    {
      if part > at { assert !Through(outcomes, part - at); }
    }
  }

  /** Everything but the slot of the account at the head. */
  ghost predicate ElsewhereSame(a: World, b: World, slot: nat) {
    forall other :: other != slot ==> DiskAt(b, other) == DiskAt(a, other)
  }

  /** The account's row: activated only if it still waited. */
  predicate Activates(before: Tables, after: Tables, id: nat) {
    && after.(users := before.users) == before
    && after.users.Keys == before.users.Keys
    && forall k :: k in before.users ==>
         after.users[k] == if k == id && before.users[k].status == Pending then before.users[k].(status := Active)
                           else before.users[k]
  }

  predicate Fails(u: Seen, before: Storage, outcomes: seq<(bool, bool)>)
    requires |outcomes| >= 9
  {
    if u.preview then false
    else if before.importLock || u.status != Pending then FailsSupervision(before, u.status, outcomes[0])
    else !Through(outcomes[1..], 8)
  }

  /** One account's turn: what becomes of its slot and the tables, and whether it counts as a failure. */
  ghost predicate TurnOf(u: Seen, before: Storage, after: Storage, was: Tables, now: Tables,
      outcomes: seq<(bool, bool)>, failed: bool)
    requires |outcomes| >= 9
  {
    && failed == Fails(u, before, outcomes)
    && if u.preview then after == before && now == was
       else if before.importLock || u.status != Pending then
         Supervises(before, after, u.status, Took(outcomes[0])) && now == was
       else
         && Provisions(before, after, 1, outcomes[1..])
         && (failed ==> now == was) && (!failed ==> Activates(was, now, u.id))
  }

  /** The account's row goes, with its sessions and callbacks and the invitation it redeemed. */
  ghost predicate Deletes(before: Tables, after: Tables, id: nat) {
    && after.slots == before.slots && after.users == before.users - {id}
    && (forall k :: k in after.sessions <==> k in before.sessions && before.sessions[k].user != id)
    && (forall k :: k in after.sessions ==> after.sessions[k] == before.sessions[k])
    && (forall k :: k in after.callbacks <==> k in before.callbacks && before.callbacks[k].user != id)
    && (forall k :: k in after.callbacks ==> after.callbacks[k] == before.callbacks[k])
    && (forall k :: k in after.invitations <==> k in before.invitations && before.invitations[k].redeemedBy != Some(id))
    && (forall k :: k in after.invitations ==> after.invitations[k] == before.invitations[k])
  }

  lemma DeletedDeletes(t: Tables, id: nat)
    ensures Deletes(t, Deleted(t, id), id)
  {
  }

  lemma ActivatedActivates(t: Tables, id: nat)
    ensures Activates(t, Activated(t, id), id)
  {
  }

  /** What the turn of a waiting account leaves, from step `at` on. */
  ghost predicate Ends(w: World, outcomes: seq<(bool, bool)>, r: World)
    requires w.command.Reconciling? && w.command.todo != [] && 1 <= w.command.at <= 8
    requires |outcomes| >= 9 - w.command.at
  {
    var u, at := w.command.todo[0], w.command.at;
    && Provisions(DiskAt(w, u.slot), DiskAt(r, u.slot), at, outcomes) && ElsewhereSame(w, r, u.slot)
    && r.answered == (if at <= 7 && Through(outcomes, 8 - at) then w.answered + {u.id} else w.answered)
    && (Through(outcomes, 9 - at) ==> Activates(w.tables, r.tables, u.id))
    && (!Through(outcomes, 9 - at) ==> r.tables == w.tables)
    && r.command == Skip(w).command
  }

  lemma StepSucceeds(w: World, partial: bool)
    requires w.command.Reconciling? && w.command.todo != [] && 1 <= w.command.at <= 7
    requires w.command.at == 7 ==> DiskAt(w, w.command.todo[0].slot).running
    ensures var u, n := w.command.todo[0], Reconciled(w, true, partial);
      && n.command == Reconciling(w.command.todo, w.command.at + 1) && n.tables == w.tables
      && ElsewhereSame(w, n, u.slot) && DiskAt(n, u.slot).importLock == DiskAt(w, u.slot).importLock
      && (forall part :: 1 <= part <= 6 ==>
            (Has(DiskAt(n, u.slot), part) <==> Has(DiskAt(w, u.slot), part) || part == w.command.at))
      && n.answered == (if w.command.at == 7 then w.answered + {u.id} else w.answered)
  {
  }

  lemma {:induction false} TurnStops(w: World, outcomes: seq<(bool, bool)>)
    requires w.command.Reconciling? && w.command.todo != [] && 1 <= w.command.at <= 8
    requires |outcomes| >= 9 - w.command.at && (!outcomes[0].0 || w.command.at == 8)
    ensures Ends(w, outcomes, ReconcileHead(w, outcomes))
  {
    var u, at, r := w.command.todo[0], w.command.at, ReconcileHead(w, outcomes);
    HeadStops(w, outcomes);
    ProvisionsNoFurther(DiskAt(w, u.slot), DiskAt(r, u.slot), at, outcomes);
    ActivatedActivates(w.tables, u.id);
  }

  lemma {:induction false} HeadStops(w: World, outcomes: seq<(bool, bool)>)
    requires w.command.Reconciling? && w.command.todo != [] && 1 <= w.command.at <= 8
    requires |outcomes| >= 9 - w.command.at && (!outcomes[0].0 || w.command.at == 8)
    ensures var u, r := w.command.todo[0], ReconcileHead(w, outcomes);
      && ElsewhereSame(w, r, u.slot) && DiskAt(r, u.slot).importLock == DiskAt(w, u.slot).importLock
      && (forall part :: 1 <= part <= 6 ==>
            (Has(DiskAt(r, u.slot), part) <==>
             Has(DiskAt(w, u.slot), part) || (part == w.command.at && Took(outcomes[0]))))
      && r.command == Skip(w).command && r.answered == w.answered
      && r.tables == (if outcomes[0].0 then Activated(w.tables, u.id) else w.tables)
  {
    assert ReconcileHead(w, outcomes) == Reconciled(w, outcomes[0].0, outcomes[0].1);
  }

  lemma {:induction false} TurnGoesOn(w: World, outcomes: seq<(bool, bool)>, n: World, r: World)
    requires w.command.Reconciling? && w.command.todo != [] && 1 <= w.command.at <= 7
    requires |outcomes| >= 9 - w.command.at && outcomes[0].0
    requires w.command.at == 7 ==> DiskAt(w, w.command.todo[0].slot).running
    requires n == Reconciled(w, true, outcomes[0].1) && n.command == Reconciling(w.command.todo, w.command.at + 1)
    requires Ends(n, outcomes[1..], r)
    ensures Ends(w, outcomes, r)
  {
    var u, at := w.command.todo[0], w.command.at;
    StepSucceeds(w, outcomes[0].1);
    ThroughRest(outcomes, 9 - at);
    ThroughRest(outcomes, 8 - at);
    ProvisionsFurther(DiskAt(w, u.slot), DiskAt(n, u.slot), DiskAt(r, u.slot), at, outcomes);
  }

  lemma {:induction false} WaitingFrom(w: World, outcomes: seq<(bool, bool)>)
    requires w.command.Reconciling? && w.command.todo != [] && 1 <= w.command.at <= 8
    requires |outcomes| >= 9 - w.command.at
    requires w.command.at >= 7 ==> DiskAt(w, w.command.todo[0].slot).running
    ensures Ends(w, outcomes, ReconcileHead(w, outcomes))
    decreases 9 - w.command.at
  {
    if outcomes[0].0 && w.command.at < 8 {
      var n := Reconciled(w, outcomes[0].0, outcomes[0].1);
      StepSucceeds(w, outcomes[0].1);
      assert w.command.at == 6 ==> Has(DiskAt(n, w.command.todo[0].slot), 6);
      assert w.command.at == 7 ==> DiskAt(n, w.command.todo[0].slot).running;
      WaitingFrom(n, outcomes[1..]);
      TurnGoesOn(w, outcomes, n, ReconcileHead(n, outcomes[1..]));
      HeadAdvances(w, outcomes, n, ReconcileHead(n, outcomes[1..]));
    } else {
      TurnStops(w, outcomes);
    }
  }

  /** One account's whole turn, said of its slot, its row and the healthy answers. */
  lemma {:induction false} HeadReconciled(w: World, outcomes: seq<(bool, bool)>)
    requires w.command.Reconciling? && w.command.todo != [] && w.command.at == 0 && |outcomes| >= 9
    ensures var u, r := w.command.todo[0], ReconcileHead(w, outcomes);
      var before, after := DiskAt(w, u.slot), DiskAt(r, u.slot);
      && ElsewhereSame(w, r, u.slot) && r.command == Skip(w).command
      && (u.preview ==> after == before && r.tables == w.tables && r.answered == w.answered)
      && (!u.preview && (before.importLock || u.status != Pending) ==>
            && Supervises(before, after, u.status, Took(outcomes[0]))
            && r.tables == w.tables && r.answered == w.answered)
      && (!u.preview && !before.importLock && u.status == Pending ==>
            && Provisions(before, after, 1, outcomes[1..])
            && r.answered == (if Through(outcomes[1..], 7) then w.answered + {u.id} else w.answered)
            && (Through(outcomes[1..], 8) ==> Activates(w.tables, r.tables, u.id))
            && (!Through(outcomes[1..], 8) ==> r.tables == w.tables))
  {
    var u := w.command.todo[0];
    if !u.preview && !DiskAt(w, u.slot).importLock && u.status == Pending {
      WaitingFrom(Advance(w), outcomes[1..]);
    }
  }

  /** The same with the answer. */
  lemma {:induction false} TurnTold(w: World, outcomes: seq<(bool, bool)>, failed: bool)
    requires w.command.Reconciling? && w.command.todo != [] && w.command.at == 0 && |outcomes| >= 9
    requires failed == Fails(w.command.todo[0], DiskAt(w, w.command.todo[0].slot), outcomes)
    ensures var u, r := w.command.todo[0], ReconcileHead(w, outcomes);
      && TurnOf(u, DiskAt(w, u.slot), DiskAt(r, u.slot), w.tables, r.tables, outcomes, failed)
      && ElsewhereSame(w, r, u.slot)
  {
    HeadReconciled(w, outcomes);
  }

  /** The other steps: a gateway transaction changes tables only, an import lock only slot 1, a purge starts exactly
      for the disabled holder of a slot from 2 on, and a crash forgets where the command was. */
  lemma OtherStepsOnTheHost(w: World, s: Step)
    requires Provisioner.Enabled(w, s)
    ensures var n := Provisioner.Next(w, s);
      && (s.Transaction? ==> n == w.(tables := Called(w.tables, s.call)))
      && (s.ImportLock? ==>
            && n.tables == w.tables && n.command == w.command && n.answered == w.answered && ElsewhereSame(w, n, 1)
            && DiskAt(n, 1) == DiskAt(w, 1).(importLock := s.locked))
      && (s.StartPurge? ==>
            && n.(command := Idle) == w && (n.command.Idle? || n.command == Purging(s.slot, s.user, 1))
            && (n.command.Purging? <==>
                  s.slot != 1 && s.user in w.tables.users && w.tables.users[s.user].slot == s.slot
                  && w.tables.users[s.user].status == Disabled))
      && (s.Crash? ==> n == w.(command := Idle))
  {
  }

  // A whole reconcile whose commands work.

  const WORKING: seq<(bool, bool)> := [(true, false), (true, false), (true, false), (true, false), (true, false),
      (true, false), (true, false), (true, false), (true, false)]

  /** The turns of all accounts on the list, nothing failing. */
  function AllTurns(w: World): World
    requires w.command.Reconciling? && w.command.todo != [] && w.command.at == 0
    decreases |w.command.todo|
  {
    HeadReconciled(w, WORKING);
    var n := ReconcileHead(w, WORKING);
    if |w.command.todo| == 1 then n else AllTurns(n)
  }

  /** Where a slot should be: held ones stopped, active ones running, waiting ones provisioned. */
  predicate Settles(u: Seen, before: Storage, after: Storage) {
    if u.preview then after == before
    else if before.importLock || u.status == Disabled then after == before.(running := false)
    else if u.status == Active then after == before.(running := before.running || before.secrets)
    else after == Storage(true, true, true, true, true, true, false)
  }

  predicate RowSettles(u: Seen, d: Storage, before: User, after: User) {
    after == if !u.preview && !d.importLock && u.status == Pending && before.status == Pending
             then before.(status := Active) else before
  }

  ghost predicate SeparateEntries(todo: seq<Seen>) {
    forall i, j :: 0 <= i < j < |todo| ==> todo[i].slot != todo[j].slot && todo[i].id != todo[j].id
  }

  lemma {:induction false} WorkingTurn(w: World)
    requires w.command.Reconciling? && w.command.todo != [] && w.command.at == 0
    ensures var u, r := w.command.todo[0], ReconcileHead(w, WORKING);
      && Settles(u, DiskAt(w, u.slot), DiskAt(r, u.slot)) && ElsewhereSame(w, r, u.slot)
      && r.command == Skip(w).command && r.tables.users.Keys == w.tables.users.Keys
      && (u.id in w.tables.users ==>
            RowSettles(u, DiskAt(w, u.slot), w.tables.users[u.id], r.tables.users[u.id]))
      && forall id :: id in w.tables.users && id != u.id ==> r.tables.users[id] == w.tables.users[id]
  {
    var u, r := w.command.todo[0], ReconcileHead(w, WORKING);
    HeadReconciled(w, WORKING);
    var before, after := DiskAt(w, u.slot), DiskAt(r, u.slot);
    if !u.preview && !before.importLock && u.status == Pending {
      forall part | 1 <= part <= 6 ensures Has(after, part) {
        assert Through(WORKING[1..], part - 1) && Took(WORKING[1..][part - 1]);
      }
      assert Has(after, 1) && Has(after, 2) && Has(after, 3) && Has(after, 4) && Has(after, 5) && Has(after, 6);
    }
  }

  /** Turns touch only what their own entries name. */
  lemma {:induction false} TurnsLeaveOthers(w: World, slot: nat, id: nat)
    requires w.command.Reconciling? && w.command.todo != [] && w.command.at == 0 && id in w.tables.users
    requires forall i :: 0 <= i < |w.command.todo| ==> w.command.todo[i].slot != slot && w.command.todo[i].id != id
    ensures DiskAt(AllTurns(w), slot) == DiskAt(w, slot)
    ensures id in AllTurns(w).tables.users && AllTurns(w).tables.users[id] == w.tables.users[id]
    decreases |w.command.todo|
  {
    WorkingTurn(w);
    if |w.command.todo| > 1 {
      var n := ReconcileHead(w, WORKING);
      assert forall i :: 0 <= i < |n.command.todo| ==> n.command.todo[i] == w.command.todo[i + 1];
      TurnsLeaveOthers(n, slot, id);
    }
  }

  lemma {:induction false} TurnsSettle(w: World, k: nat)
    requires w.command.Reconciling? && w.command.at == 0 && k < |w.command.todo|
    requires SeparateEntries(w.command.todo) && w.command.todo[k].id in w.tables.users
    ensures var u, r := w.command.todo[k], AllTurns(w);
      && Settles(u, DiskAt(w, u.slot), DiskAt(r, u.slot)) && u.id in r.tables.users
      && RowSettles(u, DiskAt(w, u.slot), w.tables.users[u.id], r.tables.users[u.id])
    decreases |w.command.todo|
  {
    WorkingTurn(w);
    if |w.command.todo| > 1 {
      var u, n := w.command.todo[k], ReconcileHead(w, WORKING);
      assert forall i :: 0 <= i < |n.command.todo| ==> n.command.todo[i] == w.command.todo[i + 1];
      if k == 0 {
        TurnsLeaveOthers(n, u.slot, u.id);
      } else {
        assert w.command.todo[0].slot != u.slot && w.command.todo[0].id != u.id;
        TurnsSettle(n, k - 1);
      }
    }
  }

  /** A whole reconcile whose commands work reaches, for every account listed, the state its row asks for:
      waiting accounts are provisioned and active, active ones run, disabled or locked ones are stopped, and
      previews are left alone. */
  lemma {:induction false} WorkingReconcileConverges(w: World, ids: seq<nat>, k: nat)
    requires Identity.Sound(w.tables) && w.command.Idle? && Enabled(w, StartReconcile(ids)) && k < |ids|
    requires forall i, j :: 0 <= i < j < |ids| ==> ids[i] != ids[j]
    ensures var u := w.tables.users[ids[k]]; var d := DiskAt(w, u.slot);
      var n := Provisioner.Next(w, StartReconcile(ids));
      && n.command.Reconciling? && n.command.todo != [] && n.command.at == 0
      && var r := AllTurns(n);
      && var after := DiskAt(r, u.slot);
      && ids[k] in r.tables.users
      && (u.preview ==> after == d && r.tables.users[ids[k]] == u)
      && (!u.preview && (d.importLock || u.status == Disabled) ==> !after.running && r.tables.users[ids[k]] == u)
      && (!u.preview && !d.importLock && u.status == Active && d.secrets ==>
            after.running && r.tables.users[ids[k]] == u)
      && (!u.preview && !d.importLock && u.status == Pending ==>
            && after == Storage(true, true, true, true, true, true, false)
            && r.tables.users[ids[k]] == u.(status := Active))
  {
    var n := Provisioner.Next(w, StartReconcile(ids));
    var todo := n.command.todo;
    assert |todo| == |ids|;
    forall i, j | 0 <= i < j < |todo| ensures todo[i].slot != todo[j].slot && todo[i].id != todo[j].id {
      assert ids[i] != ids[j] && ids[i] in w.tables.users && ids[j] in w.tables.users;
    }
    TurnsSettle(n, k);
  }
}
