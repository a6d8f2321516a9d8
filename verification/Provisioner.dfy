/** ops/azure/aw_provision.py: `reconcile` and `purge` as crashable sequences over slot storage, while
    gateway transactions go on in between. */
module Provisioner {
  import opened Identity

  datatype Storage = Storage(image: bool, fstab: bool, mounted: bool, secrets: bool, token: bool, running: bool,
      importLock: bool)

  const CLEAN := Storage(false, false, false, false, false, false, false)

  /** One row as `read_users` dumped it, possibly stale by the time it is used. */
  datatype Seen = Seen(id: nat, status: Status, slot: nat, preview: bool)

  /** Where the provisioner is; `at` counts the steps of the current slot. A crash goes back to Idle. */
  datatype Command =
    | Idle
    | Reconciling(todo: seq<Seen>, at: nat)
    | Purging(slot: nat, user: nat, at: nat)

  /** `answered` remembers the accounts whose own instance answered healthy. */
  datatype World = World(tables: Tables, disks: map<nat, Storage>, command: Command, answered: set<nat>)

  function DiskAt(w: World, slot: nat): Storage {
    if slot in w.disks then w.disks[slot] else CLEAN
  }

  function WithDisk(w: World, slot: nat, s: Storage): World {
    w.(disks := w.disks[slot := s])
  }

  /** `outcome` is whether the external command of this step succeeded; a failing one may still have had
      its effect (`partial`). */
  datatype Step =
    | Transaction(call: Call)
    | StartReconcile(ids: seq<nat>)
    | Reconcile(outcome: bool, partial: bool)
    | StartPurge(slot: nat, user: nat)
    | Purge(outcome: bool, partial: bool)
    | Crash
    | ImportLock(locked: bool)

  function Dump(users: map<nat, User>, ids: seq<nat>): seq<Seen>
    requires forall i :: 0 <= i < |ids| ==> ids[i] in users
  {
    seq(|ids|, i requires 0 <= i < |ids| => Seen(ids[i], users[ids[i]].status, users[ids[i]].slot,
      users[ids[i]].preview))
  }

  predicate Purgeable(t: Tables, slot: nat, user: nat) {
    slot != 1 && user in t.users && t.users[user].slot == slot && t.users[user].status.Disabled?
  }

  predicate Enabled(w: World, s: Step) {
    match s
    case Transaction(c) =>
      Fresh(w.tables, c) && (c.Redeem? || c.CreatePreview? || c.CreateOwner? ==> c.id !in w.answered)
    case StartReconcile(ids) => w.command.Idle? && forall i :: 0 <= i < |ids| ==> ids[i] in w.tables.users
    case Reconcile(_, _) => w.command.Reconciling? && w.command.todo != []
    case StartPurge(_, _) => w.command.Idle?
    case Purge(_, _) => w.command.Purging?
    case Crash => true
    case ImportLock(_) => DiskAt(w, 1).secrets
  }

  function Skip(w: World): World
    requires w.command.Reconciling? && w.command.todo != []
  {
    w.(command := if |w.command.todo| == 1 then Idle else Reconciling(w.command.todo[1..], 0))
  }

  function Advance(w: World): World
    requires !w.command.Idle?
  {
    w.(command := w.command.(at := w.command.at + 1))
  }

  /** One step of `reconcile_user` for the head of the list. Steps 1 to 5 are `prepare_slot`, 6 and 7
      `start_tenant`, 8 `activate`. */
  function Reconciled(w: World, outcome: bool, partial: bool): World
    requires w.command.Reconciling? && w.command.todo != []
  {
    var u := w.command.todo[0];
    var d := DiskAt(w, u.slot);
    var effect := outcome || partial;
    match w.command.at
    case 0 =>
      if u.preview then Skip(w)
      else if d.importLock || !u.status.Pending? then Skip(WithDisk(w, u.slot, Supervised(d, u.status, effect)))
      else Advance(w)
    case 7 => if outcome && d.running then Advance(w.(answered := w.answered + {u.id})) else Skip(w)
    case 8 => Skip(w.(tables := if outcome then Activated(w.tables, u.id) else w.tables))
    case part => Prepared(w, WithPart(d, part, effect), outcome)
  }

  /** An instance under an import lock or of a disabled account is held stopped, an active one kept running. */
  function Supervised(d: Storage, status: Status, effect: bool): Storage {
    if d.importLock || status.Disabled? then d.(running := d.running && !effect)
    else d.(running := d.running || (d.secrets && effect))
  }

  function WithPart(d: Storage, part: nat, effect: bool): Storage {
    match part
    case 1 => d.(image := d.image || effect)
    case 2 => d.(fstab := d.fstab || effect)
    case 3 => d.(mounted := d.mounted || effect)
    case 4 => d.(secrets := d.secrets || effect)
    case 5 => d.(token := d.token || effect)
    case _ => d.(running := d.running || effect)
  }

  function Prepared(w: World, d: Storage, outcome: bool): World
    requires w.command.Reconciling? && w.command.todo != []
  {
    var next := WithDisk(w, w.command.todo[0].slot, d);
    if outcome then Advance(next) else Skip(next)
  }

  /** One step of `purge` after its dry run: stop, check, unmount, fstab, image, token, secrets, system
      user, and only then the row. */
  function Purged(w: World, outcome: bool, partial: bool): World
    requires w.command.Purging?
  {
    var d := DiskAt(w, w.command.slot);
    var effect := outcome || partial;
    match w.command.at
    case 1 => Advance(WithDisk(w, w.command.slot, d.(running := d.running && !effect)))
    case 2 => if d.running then w.(command := Idle) else Advance(w)
    case 3 => Removing(w, d.(mounted := d.mounted && !outcome), outcome || !d.mounted)
    case 4 => Removing(w, d.(fstab := d.fstab && !effect), outcome)
    case 5 => Removing(w, d.(image := d.image && !effect), outcome)
    case 6 => Removing(w, d.(token := d.token && !effect), outcome)
    case 7 => Removing(w, d.(secrets := d.secrets && !effect, importLock := d.importLock && !effect), outcome)
    case 8 => Advance(w)
    case _ =>
      if outcome && Purgeable(w.tables, w.command.slot, w.command.user) then
        w.(tables := Deleted(w.tables, w.command.user), command := Idle)
      else w.(command := Idle)
  }

  function Removing(w: World, d: Storage, outcome: bool): World
    requires w.command.Purging?
  {
    var next := WithDisk(w, w.command.slot, d);
    if outcome then Advance(next) else next.(command := Idle)
  }

  function Next(w: World, s: Step): World
    requires Enabled(w, s)
  {
    match s
    case Transaction(c) => w.(tables := Called(w.tables, c))
    case StartReconcile(ids) => if ids == [] then w else w.(command := Reconciling(Dump(w.tables.users, ids), 0))
    case Reconcile(outcome, partial) => Reconciled(w, outcome, partial)
    case StartPurge(slot, user) => if Purgeable(w.tables, slot, user) then w.(command := Purging(slot, user, 1)) else w
    case Purge(outcome, partial) => Purged(w, outcome, partial)
    case Crash => w.(command := Idle)
    case ImportLock(locked) => WithDisk(w, 1, DiskAt(w, 1).(importLock := locked))
  }

  /** `reconcile_user` run through for the account at the head of the list. */
  function ReconcileHead(w: World, outcomes: seq<(bool, bool)>): World
    requires w.command.Reconciling? && w.command.todo != [] && w.command.at <= 8 && |outcomes| >= 9 - w.command.at
    decreases 9 - w.command.at
  {
    var n := Reconciled(w, outcomes[0].0, outcomes[0].1);
    if n.command.Reconciling? && n.command.at == w.command.at + 1 <= 8 then ReconcileHead(n, outcomes[1..]) else n
  }

  lemma {:induction false} HeadAdvances(w: World, outcomes: seq<(bool, bool)>, n: World, r: World)
    requires w.command.Reconciling? && w.command.todo != [] && w.command.at < 8 && |outcomes| >= 9 - w.command.at
    requires n == Reconciled(w, outcomes[0].0, outcomes[0].1)
      && n.command == Reconciling(w.command.todo, w.command.at + 1)
    requires r == ReconcileHead(n, outcomes[1..])
    ensures ReconcileHead(w, outcomes) == r
  {
  }

  lemma {:induction false} HeadEnds(w: World, outcomes: seq<(bool, bool)>)
    requires w.command.Reconciling? && w.command.todo != [] && w.command.at <= 8 && |outcomes| >= 9 - w.command.at
    requires Reconciled(w, outcomes[0].0, outcomes[0].1)
      == Skip(Reconciled(w, outcomes[0].0, outcomes[0].1).(command := w.command))
    ensures ReconcileHead(w, outcomes) == Reconciled(w, outcomes[0].0, outcomes[0].1)
  {
  }

  // The invariant.

  /** A slot that may hold nothing: no account, or an account without a tenant. */
  ghost predicate MustBeClean(t: Tables, slot: nat) {
    slot >= 2 && (!Used(t.users, slot) || exists id :: id in t.users && t.users[id].slot == slot && t.users[id].preview)
  }

  ghost predicate DisksSound(w: World) {
    forall slot :: MustBeClean(w.tables, slot) ==> DiskAt(w, slot) == CLEAN
  }

  predicate EarnedActivation(w: World, id: nat)
    requires id in w.tables.users
  {
    var u := w.tables.users[id];
    u.status.Active? && !u.preview && u.slot >= 2 ==> id in w.answered
  }

  predicate SeenSound(t: Tables, s: Seen) {
    && s.id in t.users && t.users[s.id].slot == s.slot && t.users[s.id].preview == s.preview
    && (s.slot == 1 ==> !s.status.Pending?)
  }

  predicate PurgeProgress(d: Storage, at: nat) {
    && (at >= 3 ==> !d.running) && (at >= 4 ==> !d.mounted) && (at >= 5 ==> !d.fstab)
    && (at >= 6 ==> !d.image) && (at >= 7 ==> !d.token) && (at >= 8 ==> !d.secrets && !d.importLock)
  }

  ghost predicate CommandSound(w: World) {
    match w.command
    case Idle => true
    case Purging(slot, user, at) =>
      slot >= 2 && 1 <= at <= 9 && Purgeable(w.tables, slot, user) && PurgeProgress(DiskAt(w, slot), at)
    case Reconciling(todo, at) =>
      && todo != [] && at <= 8
      && (forall i :: 0 <= i < |todo| ==> SeenSound(w.tables, todo[i]))
      && (at > 0 ==> todo[0].status.Pending? && !todo[0].preview)
      && (at == 8 ==> todo[0].id in w.answered)
  }

  ghost predicate Sound(w: World) {
    && Identity.Sound(w.tables)
    && DisksSound(w)
    && (forall id :: id in w.tables.users ==> EarnedActivation(w, id))
    && CommandSound(w)
  }

  lemma TenantSlotMayHoldData(t: Tables, id: nat)
    requires SlotsDistinct(t.users) && id in t.users && !t.users[id].preview
    ensures !MustBeClean(t, t.users[id].slot)
  {
  }

  lemma WritingASlot(w: World, slot: nat, d: Storage)
    requires DisksSound(w) && (MustBeClean(w.tables, slot) ==> d == CLEAN)
    ensures DisksSound(WithDisk(w, slot, d))
  {
  }

  /** Gateway transactions never delete an account, move it, or revive a disabled one. */
  lemma CallKeepsRows(t: Tables, c: Call, id: nat)
    requires Fresh(t, c) && id in t.users
    ensures id in Called(t, c).users
    ensures var a, b := t.users[id], Called(t, c).users[id];
      && b.slot == a.slot && b.preview == a.preview && b.role == a.role
      && (a.status.Disabled? ==> b.status.Disabled?)
      && (b.status.Active? ==> a.status.Active?)
  {
  }

  /** The one row a transaction may add: the owner in slot 1, or an account in a free slot that is either
      pending or a preview. */
  lemma CallAddsIntoFreeSlots(t: Tables, c: Call, id: nat)
    requires Fresh(t, c) && id in Called(t, c).users && id !in t.users
    ensures var u := Called(t, c).users[id];
      && !Used(t.users, u.slot)
      && (u.slot == 1 || u.status.Pending? || u.preview)
  {
    LeastFreeIsFree(t.users, 2, t.slots);
  }

  lemma CallKeepsDisks(w: World, c: Call, slot: nat)
    requires DisksSound(w) && Fresh(w.tables, c) && MustBeClean(Called(w.tables, c), slot)
    ensures DiskAt(w, slot) == CLEAN
  {
    var n := Called(w.tables, c);
    if Used(w.tables.users, slot) {
      var id :| id in w.tables.users && w.tables.users[id].slot == slot;
      CallKeepsRows(w.tables, c, id);
      assert Used(n.users, slot);
      var p :| p in n.users && n.users[p].slot == slot && n.users[p].preview;
      if p in w.tables.users {
        CallKeepsRows(w.tables, c, p);
      } else {
        CallAddsIntoFreeSlots(w.tables, c, p);
      }
    }
    assert MustBeClean(w.tables, slot);
  }

  lemma GatewayIsSound(w: World, c: Call)
    requires Sound(w) && Enabled(w, Transaction(c))
    ensures Sound(Next(w, Transaction(c)))
  {
    var n := Next(w, Transaction(c));
    CalledIsSound(w.tables, c);
    forall slot | MustBeClean(n.tables, slot) ensures DiskAt(n, slot) == CLEAN {
      CallKeepsDisks(w, c, slot);
    }
    forall id | id in n.tables.users ensures EarnedActivation(n, id) {
      if id in w.tables.users {
        CallKeepsRows(w.tables, c, id);
        assert EarnedActivation(w, id);
      } else {
        CallAddsIntoFreeSlots(w.tables, c, id);
      }
    }
    CallKeepsCommand(w, c);
  }

  lemma CallKeepsCommand(w: World, c: Call)
    requires Sound(w) && Fresh(w.tables, c)
    ensures CommandSound(w.(tables := Called(w.tables, c)))
  {
    match w.command
    case Idle =>
    case Purging(slot, user, at) => CallKeepsRows(w.tables, c, user);
    case Reconciling(todo, at) =>
      forall i | 0 <= i < |todo| ensures SeenSound(Called(w.tables, c), todo[i]) {
        CallKeepsRows(w.tables, c, todo[i].id);
      }
  }

  lemma SkipIsSound(w: World)
    requires Sound(w) && w.command.Reconciling?
    ensures Sound(Skip(w))
  {
  }

  /** A step on the slot of the account at the head of the list. */
  lemma HeadSlotWrite(w: World, d: Storage)
    requires Sound(w) && w.command.Reconciling? && !w.command.todo[0].preview
    ensures Sound(WithDisk(w, w.command.todo[0].slot, d))
  {
    var u := w.command.todo[0];
    assert SeenSound(w.tables, u);
    TenantSlotMayHoldData(w.tables, u.id);
    WritingASlot(w, u.slot, d);
  }

  lemma PreparedIsSound(w: World, d: Storage, outcome: bool)
    requires Sound(w) && w.command.Reconciling? && 0 < w.command.at < 7
    ensures Sound(Prepared(w, d, outcome))
  {
    HeadSlotWrite(w, d);
    SkipIsSound(WithDisk(w, w.command.todo[0].slot, d));
  }

  lemma ActivationIsSound(w: World, user: nat)
    requires Sound(w) && user in w.answered
    ensures Sound(w.(tables := Activated(w.tables, user)))
  {
    var n := w.(tables := Activated(w.tables, user));
    ActivatedIsSound(w.tables, user);
    forall slot | MustBeClean(n.tables, slot) ensures DiskAt(n, slot) == CLEAN {
      if Used(w.tables.users, slot) {
        var id :| id in w.tables.users && w.tables.users[id].slot == slot;
        assert id in n.tables.users && n.tables.users[id].slot == slot;
        var p :| p in n.tables.users && n.tables.users[p].slot == slot && n.tables.users[p].preview;
        assert w.tables.users[p].preview && w.tables.users[p].slot == slot;
      }
      assert MustBeClean(w.tables, slot);
    }
    forall id | id in n.tables.users ensures EarnedActivation(n, id) {
      assert EarnedActivation(w, id);
    }
  }

  lemma ReconciledIsSound(w: World, outcome: bool, partial: bool)
    requires Sound(w) && Enabled(w, Reconcile(outcome, partial))
    ensures Sound(Reconciled(w, outcome, partial))
  {
    var u := w.command.todo[0];
    var d := DiskAt(w, u.slot);
    assert SeenSound(w.tables, u);
    if w.command.at == 0 {
      DispatchIsSound(w, outcome, partial);
    } else if w.command.at == 7 {
      var n := w.(answered := w.answered + {u.id});
      forall id | id in n.tables.users ensures EarnedActivation(n, id) { assert EarnedActivation(w, id); }
      SkipIsSound(w);
    } else if w.command.at == 8 {
      ActivationIsSound(w, u.id);
      SkipIsSound(w);
      SkipIsSound(w.(tables := Activated(w.tables, u.id)));
    } else {
      PreparedIsSound(w, Reconciled(w, outcome, partial).disks[u.slot], outcome);
    }
  }

  lemma DispatchIsSound(w: World, outcome: bool, partial: bool)
    requires Sound(w) && Enabled(w, Reconcile(outcome, partial)) && w.command.at == 0
    ensures Sound(Reconciled(w, outcome, partial))
  {
    var u := w.command.todo[0];
    SkipIsSound(w);
    if !u.preview {
      forall d ensures Sound(Skip(WithDisk(w, u.slot, d))) {
        HeadSlotWrite(w, d);
        SkipIsSound(WithDisk(w, u.slot, d));
      }
    }
  }

  lemma ReleasingIsSound(w: World)
    requires Sound(w) && w.command.Purging? && w.command.at == 9
    ensures Sound(w.(tables := Deleted(w.tables, w.command.user), command := Idle))
  {
    var slot, user := w.command.slot, w.command.user;
    var n := w.(tables := Deleted(w.tables, user), command := Idle);
    assert UserSound(w.tables.slots, w.tables.users[user]);
    DeletedIsSound(w.tables, user);
    forall s | MustBeClean(n.tables, s) ensures DiskAt(n, s) == CLEAN {
      if s != slot {
        if Used(w.tables.users, s) {
          var id :| id in w.tables.users && w.tables.users[id].slot == s;
          assert id in n.tables.users;
        }
        assert MustBeClean(w.tables, s);
      }
    }
    forall id | id in n.tables.users ensures EarnedActivation(n, id) { assert EarnedActivation(w, id); }
  }

  /** Every step before the last only takes things away from the slot. */
  lemma ClearingOnlyTakesAway(w: World, outcome: bool, partial: bool)
    requires w.command.Purging? && 1 <= w.command.at < 9 && DiskAt(w, w.command.slot) == CLEAN
    ensures DiskAt(Purged(w, outcome, partial), w.command.slot) == CLEAN
  {
  }

  lemma ClearingStaysInItsSlot(w: World, outcome: bool, partial: bool, s: nat)
    requires w.command.Purging? && 1 <= w.command.at < 9
    ensures var n := Purged(w, outcome, partial);
      n.tables == w.tables && n.answered == w.answered && (s != w.command.slot ==> DiskAt(n, s) == DiskAt(w, s))
  {
  }

  lemma ClearingMakesProgress(w: World, outcome: bool, partial: bool)
    requires w.command.Purging? && 1 <= w.command.at < 9 && PurgeProgress(DiskAt(w, w.command.slot), w.command.at)
    ensures var n := Purged(w, outcome, partial);
      n.command.Idle? ||
      (n.command == Purging(w.command.slot, w.command.user, w.command.at + 1)
        && PurgeProgress(DiskAt(n, w.command.slot), n.command.at))
  {
  }

  lemma ClearingIsSound(w: World, outcome: bool, partial: bool)
    requires Sound(w) && w.command.Purging? && w.command.at < 9
    ensures Sound(Purged(w, outcome, partial))
  {
    ClearingStaysInItsSlot(w, outcome, partial, 0);
    ClearingMakesProgress(w, outcome, partial);
    var n := Purged(w, outcome, partial);
    forall s | MustBeClean(n.tables, s) ensures DiskAt(n, s) == CLEAN {
      ClearingStaysInItsSlot(w, outcome, partial, s);
      if s == w.command.slot { ClearingOnlyTakesAway(w, outcome, partial); }
    }
    forall id | id in n.tables.users ensures EarnedActivation(n, id) { assert EarnedActivation(w, id); }
  }

  lemma WorkingPurgeGoesOn(w: World)
    requires w.command.Purging? && 1 <= w.command.at < 9 && (w.command.at == 2 ==> !DiskAt(w, w.command.slot).running)
    ensures var n := Purged(w, true, true);
      n.command == Purging(w.command.slot, w.command.user, w.command.at + 1)
        && (n.command.at == 2 ==> !DiskAt(n, w.command.slot).running)
  {
  }

  lemma PurgedIsSound(w: World, outcome: bool, partial: bool)
    requires Sound(w) && Enabled(w, Purge(outcome, partial))
    ensures Sound(Purged(w, outcome, partial))
  {
    if w.command.at < 9 { ClearingIsSound(w, outcome, partial); } else { ReleasingIsSound(w); }
  }

  lemma StartReconcileIsSound(w: World, ids: seq<nat>)
    requires Sound(w) && Enabled(w, StartReconcile(ids))
    ensures Sound(Next(w, StartReconcile(ids)))
  {
    if ids != [] {
      var todo := Dump(w.tables.users, ids);
      forall i | 0 <= i < |todo| ensures SeenSound(w.tables, todo[i]) {
        assert UserSound(w.tables.slots, w.tables.users[ids[i]]);
      }
    }
  }

  lemma NextIsSound(w: World, s: Step)
    requires Sound(w) && Enabled(w, s)
    ensures Sound(Next(w, s))
  {
    match s
    case Transaction(c) => GatewayIsSound(w, c);
    case StartReconcile(ids) => StartReconcileIsSound(w, ids);
    case Reconcile(outcome, partial) => ReconciledIsSound(w, outcome, partial);
    case StartPurge(slot, user) =>
      if user in w.tables.users { assert UserSound(w.tables.slots, w.tables.users[user]); }
    case Purge(outcome, partial) => PurgedIsSound(w, outcome, partial);
    case Crash =>
    case ImportLock(_) => WritingASlot(w, 1, DiskAt(Next(w, s), 1));
  }

  ghost predicate AllEnabled(w: World, steps: seq<Step>)
    decreases |steps|
  {
    steps == [] || (Enabled(w, steps[0]) && AllEnabled(Next(w, steps[0]), steps[1..]))
  }

  function Run(w: World, steps: seq<Step>): World
    requires AllEnabled(w, steps)
    decreases |steps|
  {
    if steps == [] then w else Run(Next(w, steps[0]), steps[1..])
  }

  lemma {:induction false} RunsAreSound(w: World, steps: seq<Step>)
    requires Sound(w) && AllEnabled(w, steps)
    ensures Sound(Run(w, steps))
    decreases |steps|
  {
    if steps != [] {
      NextIsSound(w, steps[0]);
      RunsAreSound(Next(w, steps[0]), steps[1..]);
    }
  }

  function Start(slots: nat): World {
    World(Identity.Empty(slots), map[], Idle, {})
  }

  /** Slot reuse is clean, whatever interleaves and wherever the provisioner crashes: a slot without an
      account holds no image, mount, secrets, token or running instance, and a real account beyond the
      owner's is active only after its own instance answered healthy. */
  lemma {:induction false} SlotReuseIsClean(slots: nat, steps: seq<Step>, slot: nat, id: nat)
    requires slots >= 1 && AllEnabled(Start(slots), steps)
    ensures var w := Run(Start(slots), steps);
      && (slot >= 2 && !Used(w.tables.users, slot) ==> DiskAt(w, slot) == CLEAN)
      && (id in w.tables.users && w.tables.users[id].preview ==> DiskAt(w, w.tables.users[id].slot) == CLEAN)
      && (id in w.tables.users ==> EarnedActivation(w, id))
  {
    RunsAreSound(Start(slots), steps);
    var w := Run(Start(slots), steps);
    if slot >= 2 && !Used(w.tables.users, slot) { assert MustBeClean(w.tables, slot); }
    if id in w.tables.users && w.tables.users[id].preview {
      assert UserSound(w.tables.slots, w.tables.users[id]);
      assert MustBeClean(w.tables, w.tables.users[id].slot);
    }
  }

  /** A purge in which every command works, from its first step. */
  function PurgeOn(w: World): World
    requires w.command.Purging? && w.command.at <= 9
    decreases 10 - w.command.at
  {
    var n := Purged(w, true, true);
    if n.command.Purging? && n.command.at == w.command.at + 1 <= 9 then PurgeOn(n) else n
  }

  lemma {:induction false} PurgeOnCompletes(w: World)
    requires Sound(w) && w.command.Purging? && (w.command.at == 2 ==> !DiskAt(w, w.command.slot).running)
    ensures var n := PurgeOn(w);
      && n.command.Idle? && Sound(n)
      && n.tables == Deleted(w.tables, w.command.user)
      && DiskAt(n, w.command.slot) == CLEAN && !Used(n.tables.users, w.command.slot)
      && forall s :: s != w.command.slot ==> DiskAt(n, s) == DiskAt(w, s)
    decreases 10 - w.command.at
  {
    var n := Purged(w, true, true);
    PurgedIsSound(w, true, true);
    if w.command.at < 9 {
      WorkingPurgeGoesOn(w);
      ClearingStaysInItsSlot(w, true, true, 0);
      forall s | s != w.command.slot ensures DiskAt(n, s) == DiskAt(w, s) {
        ClearingStaysInItsSlot(w, true, true, s);
      }
      PurgeOnCompletes(n);
    } else {
      assert n.command.Idle?;
    }
  }

  /** A purge that crashed anywhere can be run again to completion: from every reachable idle state a
      disabled account's slot can be emptied and released, and nothing else is touched. */
  lemma CrashedPurgeCanBeRerun(w: World, slot: nat, user: nat)
    requires Sound(w) && Purgeable(w.tables, slot, user)
    ensures var started := Next(Next(w, Crash), StartPurge(slot, user));
      && started.command.Purging?
      && PurgeOn(started).tables == Deleted(w.tables, user)
      && DiskAt(PurgeOn(started), slot) == CLEAN && !Used(PurgeOn(started).tables.users, slot)
  {
    var idle := Next(w, Crash);
    NextIsSound(w, Crash);
    NextIsSound(idle, StartPurge(slot, user));
    PurgeOnCompletes(Next(idle, StartPurge(slot, user)));
  }

  /** Nothing the gateway does while a purge is under way can make its last step refuse the account. */
  lemma PurgeIsNeverOvertaken(w: World, c: Call)
    requires Sound(w) && w.command.Purging? && Enabled(w, Transaction(c))
    ensures Purgeable(Next(w, Transaction(c)).tables, w.command.slot, w.command.user)
  {
    GatewayIsSound(w, c);
  }
}
