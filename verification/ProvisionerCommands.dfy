/** ops/azure/aw_provision.py: `reconcile_user` and `purge` run straight through, the latter with a crash
    allowed between any two statements. Provisioner has both interleaved with the gateway. */
module ProvisionerCommands {
  import opened Identity
  import opened Provisioner
  import opened Reconciliation

  /** What the external commands do this time. `crash` is the number of steps before the process dies. */
  datatype Machine = Machine(stops: bool, unmounts: bool, works: bool, databaseWorks: bool, crash: nat)

  datatype Exit = Freed | NotEligible | StillRunning | Busy | RowRemains | Crashed

  /** Whatever is set in `a` is set in `b`. */
  predicate Within(a: Storage, b: Storage) {
    && (a.image ==> b.image) && (a.fstab ==> b.fstab) && (a.mounted ==> b.mounted) && (a.secrets ==> b.secrets)
    && (a.token ==> b.token) && (a.running ==> b.running) && (a.importLock ==> b.importLock)
  }

  /** From `stop_tenant` to `userdel` on one slot: `left` is what is there when the sequence ends or the
      process dies. */
  method Strip(before: Storage, m: Machine) returns (left: Storage, exit: Exit)
    ensures exit.Freed? || exit.StillRunning? || exit.Busy? || exit.Crashed?
    ensures exit.Freed? ==> left == CLEAN
    ensures exit.StillRunning? || exit.Busy? ==> left == before || left == before.(running := false)
    ensures Within(left, before)
    ensures left.running ==> left == before
    ensures m.stops && m.unmounts && m.works && m.crash > 6 ==> exit.Freed?
  {
    left := before;
    if m.crash == 0 { return left, Crashed; }
    if m.stops {
      left := left.(running := false);
    }
    if m.crash == 1 { return left, Crashed; }
    if left.running {
      return left, StillRunning;
    }
    if left.mounted && !m.unmounts {
      return left, Busy;
    }
    left := left.(mounted := false);
    if m.crash == 2 { return left, Crashed; }
    left := left.(fstab := false);
    if m.crash == 3 || !m.works { return left, Crashed; }
    left := left.(image := false);
    if m.crash == 4 { return left, Crashed; }
    left := left.(token := false);
    if m.crash == 5 { return left, Crashed; }
    left := left.(secrets := false, importLock := false);
    if m.crash == 6 { return left, Crashed; }
    exit := Freed;
  }

  class Host {
    var tables: Tables
    var disks: map<nat, Storage>

    ghost var answered: set<nat>

    constructor (slots: nat)
      ensures tables == Identity.Empty(slots) && disks == map[] && answered == {}
    {
      tables, disks, answered := Identity.Empty(slots), map[], {};
    }

    function Disk(slot: nat): Storage
      reads this
    {
      if slot in disks then disks[slot] else CLEAN
    }

    /** The state with the command at step `at` of reconciling `u`. */
    ghost function Facing(u: Seen, at: nat): World
      reads this
    {
      World(tables, disks, Reconciling([u], at), answered)
    }

    /** `prepare_slot`, in order: each part is left alone when it is there already, and the first one that
        raises ends it. Answers how many parts succeeded. */
    method PrepareSlot(u: Seen, outcomes: seq<(bool, bool)>) returns (done: nat)
      requires |outcomes| >= 9
      modifies `disks
      ensures done <= 5 && (done < 5 ==> !outcomes[done + 1].0) && Through(outcomes[1..], done)
      ensures ReconcileHead(old(Facing(u, 1)), outcomes[1..]) ==
        if done == 5 then ReconcileHead(Facing(u, 6), outcomes[6..]) else Skip(Facing(u, done + 1))
    {
      done := 0;
      while done < 5
        invariant done <= 5 && Through(outcomes[1..], done)
        invariant ReconcileHead(old(Facing(u, 1)), outcomes[1..])
          == ReconcileHead(Facing(u, done + 1), outcomes[done + 1..])
      {
        ghost var before := Facing(u, done + 1);
        assert outcomes[done + 1..][1..] == outcomes[done + 2..];
        var (ok, partial) := outcomes[done + 1];
        disks := disks[u.slot := WithPart(Disk(u.slot), done + 1, ok || partial)];
        if !ok {
          HeadEnds(before, outcomes[done + 1..]);
          return;
        }
        HeadAdvances(before, outcomes[done + 1..], Facing(u, done + 2),
          ReconcileHead(Facing(u, done + 2), outcomes[done + 2..]));
        done := done + 1;
      }
    }

    /** `start_tenant`: the unit is enabled and asked for its health until it answers or time is up. */
    method StartTenant(u: Seen, enabled: (bool, bool), healthy: bool) returns (ok: bool)
      modifies `disks, `answered
      ensures disks == old(disks)[u.slot :=
        old(Disk(u.slot)).(running := old(Disk(u.slot)).running || enabled.0 || enabled.1)]
      ensures ok == (enabled.0 && healthy)
      ensures answered == if ok then old(answered) + {u.id} else old(answered)
    {
      var d := Disk(u.slot);
      disks := disks[u.slot := d.(running := d.running || enabled.0 || enabled.1)];
      ok := enabled.0 && healthy;
      if ok {
        answered := answered + {u.id};
      }
    }

    /** A prepared slot is started and its account activated. */
    method StartAndActivate(u: Seen, outcomes: seq<(bool, bool)>) returns (ok: bool)
      requires |outcomes| >= 9
      modifies this
      ensures Matches(ReconcileHead(old(Facing(u, 6)), outcomes[6..]))
      ensures ok ==> Disk(u.slot).running && u.id in answered
      ensures ok <==> outcomes[6].0 && outcomes[7].0 && outcomes[8].0
    {
      ghost var w6 := Facing(u, 6);
      assert outcomes[6..][1..] == outcomes[7..] && outcomes[7..][1..] == outcomes[8..];
      var healthy := StartTenant(u, outcomes[6], outcomes[7].0);
      if !healthy {
        StartFails(w6, outcomes[6..]);
        return false;
      }
      StartWorks(w6, outcomes[6..]);
      ok := outcomes[8].0;
      if ok {
        tables := Activated(tables, u.id);
      }
    }

    /** Tables, slots and history are those of `w`. */
    ghost predicate Matches(w: World)
      reads this
    {
      tables == w.tables && answered == w.answered && forall slot :: Disk(slot) == DiskAt(w, slot)
    }

    /** A slot whose account is not waiting: held stopped, or kept running. Answers whether it failed. */
    method Supervise(slot: nat, status: Status, outcome: (bool, bool)) returns (failed: bool)
      requires Disk(slot).importLock || status != Pending
      modifies `disks
      ensures Disk(slot) == Supervised(old(Disk(slot)), status, outcome.0 || outcome.1)
      ensures forall other :: other != slot ==> Disk(other) == old(Disk(other))
      ensures Supervises(old(Disk(slot)), Disk(slot), status, Took(outcome))
      ensures failed <==> FailsSupervision(old(Disk(slot)), status, outcome)
    {
      var d, effect := Disk(slot), outcome.0 || outcome.1;
      failed := d.importLock;
      if d.importLock || status == Disabled {
        if d.running {
          disks := disks[slot := d.(running := !effect)];
        }
      } else if !d.running && d.secrets {
        disks := disks[slot := d.(running := effect)];
        failed := !outcome.0;
      }
    }

    /** An account waiting: prepared, started, activated. */
    method Provision(u: Seen, outcomes: seq<(bool, bool)>) returns (failed: bool)
      requires |outcomes| >= 9
      modifies this
      ensures Matches(ReconcileHead(old(Facing(u, 1)), outcomes[1..]))
      ensures failed <==> !Through(outcomes[1..], 8)
      ensures !failed ==> Disk(u.slot).running && u.id in answered
    {
      var done := PrepareSlot(u, outcomes);
      if done < 5 {
        assert !outcomes[1..][done].0;
        return true;
      }
      var ok := StartAndActivate(u, outcomes);
      AllThrough(outcomes);
      failed := !ok;
    }

    /** `reconcile_user`: answers whether the account counts as a failure. It does to the tables and slots
        exactly what the steps of Provisioner do. */
    method ReconcileUser(u: Seen, outcomes: seq<(bool, bool)>) returns (failed: bool)
      requires |outcomes| >= 9
      modifies this
      ensures Matches(ReconcileHead(old(Facing(u, 0)), outcomes))
      ensures u.preview ==> !failed && Contents() == old(Contents())
      ensures !failed && u.status.Pending? && !u.preview ==> Disk(u.slot).running && u.id in answered
      ensures forall other :: other != u.slot ==> Disk(other) == old(Disk(other))
      ensures TurnOf(u, old(Disk(u.slot)), Disk(u.slot), old(tables), tables, outcomes, failed)
    {
      ghost var w0 := Facing(u, 0);
      if u.preview {
        HeadEnds(w0, outcomes);
        failed := false;
      } else if Disk(u.slot).importLock || u.status != Pending {
        NotWaitingEnds(w0, outcomes);
        failed := Supervise(u.slot, u.status, outcomes[0]);
      } else {
        HeadAdvances(w0, outcomes, Facing(u, 1), ReconcileHead(Facing(u, 1), outcomes[1..]));
        failed := Provision(u, outcomes);
      }
      TurnTold(w0, outcomes, failed);
    }

    function Contents(): (Tables, map<nat, Storage>)
      reads this
    {
      (tables, disks)
    }

    /** The account's row goes last and only with the slot empty: however the command ends, the slot is
        either still held by its disabled account or holds nothing at all. */
    method Purge(slot: nat, username: string, user: nat, m: Machine) returns (exit: Exit)
      requires user in tables.users ==> tables.users[user].username == username
      modifies this
      ensures exit.Freed? ==>
        Purgeable(old(tables), slot, user) && tables == Deleted(old(tables), user) && Disk(slot) == CLEAN
      ensures exit.Freed? ==> Deletes(old(tables), tables, user)
      ensures !exit.Freed? ==> tables == old(tables)
      ensures exit.NotEligible? <==> !Purgeable(old(tables), slot, user) || !m.databaseWorks
      ensures exit.NotEligible? ==> disks == old(disks)
      ensures exit.StillRunning? || exit.Busy? ==>
        Disk(slot) == old(Disk(slot)) || Disk(slot) == old(Disk(slot)).(running := false)
      ensures Within(Disk(slot), old(Disk(slot))) && (Disk(slot).running ==> Disk(slot) == old(Disk(slot)))
      ensures forall other :: other != slot ==> Disk(other) == old(Disk(other))
      ensures m.stops && m.unmounts && m.works && m.databaseWorks && m.crash > 8 ==>
        Purgeable(old(tables), slot, user) ==> exit.Freed?
    {
      if slot == 1 || user !in tables.users || tables.users[user].slot != slot || tables.users[user].status != Disabled
        || !m.databaseWorks {
        return NotEligible;
      }
      var left;
      left, exit := Strip(Disk(slot), m);
      disks := disks[slot := left];
      if !exit.Freed? {
        return;
      }
      if m.crash == 7 {
        return RowRemains;
      }
      if m.crash == 8 { return Crashed; }
      DeletedDeletes(tables, user);
      tables := Deleted(tables, user);
    }
  }

  lemma AllThrough(outcomes: seq<(bool, bool)>)
    requires |outcomes| >= 9 && Through(outcomes[1..], 5)
    ensures Through(outcomes[1..], 8) <==> outcomes[6].0 && outcomes[7].0 && outcomes[8].0
  {
    var rest := outcomes[1..];
    assert rest[5] == outcomes[6] && rest[6] == outcomes[7] && rest[7] == outcomes[8];
  }

  lemma {:induction false} NotWaitingEnds(w: World, outcomes: seq<(bool, bool)>)
    requires w.command.Reconciling? && |w.command.todo| == 1 && w.command.at == 0 && |outcomes| >= 9
      && !w.command.todo[0].preview
    requires DiskAt(w, w.command.todo[0].slot).importLock || w.command.todo[0].status != Pending
    ensures var u := w.command.todo[0];
      ReconcileHead(w, outcomes) == Skip(WithDisk(w, u.slot,
        Supervised(DiskAt(w, u.slot), u.status, outcomes[0].0 || outcomes[0].1)))
  {
    HeadEnds(w, outcomes);
  }

  lemma {:induction false} StartFails(w: World, outcomes: seq<(bool, bool)>)
    requires w.command.Reconciling? && |w.command.todo| == 1 && w.command.at == 6 && |outcomes| >= 3
    requires !outcomes[0].0 || !outcomes[1].0
    ensures var u := w.command.todo[0]; var d := DiskAt(w, u.slot);
      ReconcileHead(w, outcomes) == Skip(WithDisk(w, u.slot,
        d.(running := d.running || outcomes[0].0 || outcomes[0].1)))
  {
    if outcomes[0].0 {
      var w7 := Reconciled(w, outcomes[0].0, outcomes[0].1);
      HeadAdvances(w, outcomes, w7, ReconcileHead(w7, outcomes[1..]));
      HeadEnds(w7, outcomes[1..]);
    } else {
      HeadEnds(w, outcomes);
    }
  }

  lemma {:induction false} StartWorks(w: World, outcomes: seq<(bool, bool)>)
    requires w.command.Reconciling? && |w.command.todo| == 1 && w.command.at == 6 && |outcomes| >= 3
    requires outcomes[0].0 && outcomes[1].0
    ensures var u := w.command.todo[0]; var d := DiskAt(w, u.slot);
      var up := WithDisk(w, u.slot, d.(running := true)).(answered := w.answered + {u.id});
      ReconcileHead(w, outcomes) == Skip(if outcomes[2].0 then up.(tables := Activated(w.tables, u.id)) else up)
  {
    var w7 := Reconciled(w, outcomes[0].0, outcomes[0].1);
    HeadAdvances(w, outcomes, w7, ReconcileHead(w7, outcomes[1..]));
    var w8 := Reconciled(w7, outcomes[1].0, outcomes[1].1);
    HeadAdvances(w7, outcomes[1..], w8, ReconcileHead(w8, outcomes[1..][1..]));
    assert outcomes[1..][1..][0] == outcomes[2];
    HeadEnds(w8, outcomes[1..][1..]);
  }
}
