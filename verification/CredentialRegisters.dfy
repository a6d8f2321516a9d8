/** backend/app/auth/store.py over whole runs: every part of an identifier's credentials is a register of the
    last accepted operation that decides it, said without the dictionaries or the published entries. */
module CredentialRegisters {
  import opened Documents
  import opened Vault
  import opened CredentialMemory

  /** An operation that took effect, and the clock offset of the process it ran in. */
  type Logged = (Op, real)

  function SlotRegister(log: seq<Logged>, id: string, mode: Mode): Option<SavedSlot> {
    if log == [] then None
    else
      var before, (op, offset) := SlotRegister(log[..|log| - 1], id, mode), log[|log| - 1];
      match op
      case Install(k, slot) => if k == id && ModeOf(slot) == mode then Some(Save(slot, offset)) else before
      case Remove(k, gone) => if k == id && gone == mode then None else before
      case Block(k) => if k == id then None else before
      case Clear(k) => if k == id then None else before
      case ClearAll => None
      case _ => before
  }

  function LoginRegister(log: seq<Logged>, id: string): Option<Login> {
    if log == [] then None
    else
      var before, op := LoginRegister(log[..|log| - 1], id), log[|log| - 1].0;
      match op
      case SetNtlm(k, login, _) => if k == id then Some(login) else before
      case DropNtlm(k) => if k == id then None else before
      case Install(k, _) => if k == id then None else before
      case Block(k) => if k == id then None else before
      case Clear(k) => if k == id then None else before
      case ClearAll => None
      case _ => before
  }

  function PreferenceRegister(log: seq<Logged>, id: string): Mode {
    if log == [] then OAuth
    else
      var before, op := PreferenceRegister(log[..|log| - 1], id), log[|log| - 1].0;
      match op
      case Select(k, mode) => if k == id then mode else before
      case ClearAll => OAuth
      case _ => before
  }

  /** Blocked by a block, by removing the PAT, or by clearing while a PAT is held; lifted by installing a PAT. */
  function BlockRegister(log: seq<Logged>, id: string): bool {
    if log == [] then false
    else
      var earlier, op := log[..|log| - 1], log[|log| - 1].0;
      var before := BlockRegister(earlier, id);
      match op
      case Block(k) => k == id || before
      case Remove(k, mode) => (k == id && mode == Pat) || before
      case Clear(k) => (k == id && SlotRegister(earlier, id, Pat).Some?) || before
      case Install(k, slot) => !(k == id && slot.PatSlot?) && before
      case ClearAll => false
      case _ => before
  }

  /** The entry of `id` is what the registers say. */
  ghost predicate Holds(log: seq<Logged>, id: string, e: Entry) {
    && e.ntlm == LoginRegister(log, id) && e.preferred == PreferenceRegister(log, id)
    && e.blocked == BlockRegister(log, id)
    && forall mode :: SlotRegister(log, id, mode) == if mode in e.slots then Some(e.slots[mode]) else None
  }

  function Entered(op: Op, offset: real, id: string, e: Entry): Entry {
    if op.ClearAll? then FRESH else if id == op.id then Change(op, e, offset) else e
  }

  lemma EnteredHolds(log: seq<Logged>, op: Op, offset: real, id: string, e: Entry)
    requires Holds(log, id, e)
    ensures Holds(log + [(op, offset)], id, Entered(op, offset, id, e))
  {
    var longer := log + [(op, offset)];
    assert longer[..|longer| - 1] == log;
  }

  /** The operations of a run that count for the end of it: the accepted ones, and the one whose write was lost
      behind the rename, from the next restart on. `closedBy` is that one, while the vault is closed. */
  function Counted(events: seq<Event>, offset: real, closedBy: Option<Logged>): seq<Logged>
    decreases |events|
  {
    if events == [] then []
    else
      match events[0]
      case Restart(next, _) =>
        (if closedBy.Some? then [closedBy.value] else []) + Counted(events[1..], next, None)
      case Do(op, fault) =>
        if closedBy.Some? then Counted(events[1..], offset, closedBy)
        else if fault == None then [(op, offset)] + Counted(events[1..], offset, None)
        else Counted(events[1..], offset, if fault == Some(SyncDirectory) then Some((op, offset)) else None)
  }

  function Lost(closedBy: Option<Logged>): seq<Logged> {
    if closedBy.Some? then [closedBy.value] else []
  }

  ghost predicate Tracks(p: Process, log: seq<Logged>, closedBy: Option<Logged>) {
    && Durable(p) && (p.vault.failed <==> closedBy.Some?)
    && (forall id :: Holds(log, id, EntryAt(p.memory, p.offset, id)))
    && (forall id :: Holds(log + Lost(closedBy), id, SavedAt(OnDisk(p), id)))
  }

  lemma AcceptedIsTracked(p: Process, op: Op, log: seq<Logged>)
    requires Tracks(p, log, None) && Allowed(p.memory, op) && NonEmptyTexts(op)
    ensures Tracks(Performed(p, op, None), log + [(op, p.offset)], None)
  {
    var q := Performed(p, op, None);
    PerformedIsDurable(p, op, None);
    forall id ensures Holds(log + [(op, p.offset)], id, EntryAt(q.memory, q.offset, id)) {
      MemoryFollowsPublication(p.memory, p.offset, op, id);
      EnteredHolds(log, op, p.offset, id, EntryAt(p.memory, p.offset, id));
    }
    assert log + [(op, p.offset)] + [] == log + [(op, p.offset)];
  }

  lemma LostIsTracked(p: Process, op: Op, log: seq<Logged>)
    requires Tracks(p, log, None) && Allowed(p.memory, op) && NonEmptyTexts(op)
    ensures Tracks(Performed(p, op, Some(SyncDirectory)), log, Some((op, p.offset)))
  {
    var q := Performed(p, op, Some(SyncDirectory));
    PerformedIsDurable(p, op, Some(SyncDirectory));
    forall id ensures Holds(log + [(op, p.offset)], id, SavedAt(OnDisk(q), id)) {
      PublishedAt(p.memory, p.offset, op, id);
      EnteredHolds(log, op, p.offset, id, EntryAt(p.memory, p.offset, id));
    }
  }

  lemma RestartIsTracked(p: Process, offset: real, generations: map<(string, Mode), nat>, log: seq<Logged>,
      closedBy: Option<Logged>)
    requires Tracks(p, log, closedBy)
    ensures Restarted(p, offset, generations).Some?
    ensures Tracks(Restarted(p, offset, generations).value, log + Lost(closedBy), None)
  {
    RestoredIsReadable(OnDisk(p), offset, generations);
    var all := log + Lost(closedBy);
    assert all + Lost(None) == all;
  }

  lemma DoneIsTracked(p: Process, op: Op, fault: Option<Step>, log: seq<Logged>, closedBy: Option<Logged>)
    requires Tracks(p, log, closedBy) && Allowed(p.memory, op) && NonEmptyTexts(op)
    ensures var took := closedBy.None? && fault == None;
      var lost := if closedBy.None? && fault == Some(SyncDirectory) then Some((op, p.offset)) else closedBy;
      Tracks(Performed(p, op, fault), if took then log + [(op, p.offset)] else log, lost)
  {
    if closedBy.None? && fault == None {
      AcceptedIsTracked(p, op, log);
    } else if closedBy.None? && fault == Some(SyncDirectory) {
      LostIsTracked(p, op, log);
    } else {
      assert Performed(p, op, fault) == p;
    }
  }

  lemma {:induction false} RunsAreTracked(p: Process, events: seq<Event>, log: seq<Logged>, closedBy: Option<Logged>)
    requires Tracks(p, log, closedBy) && Respectful(p, events)
    ensures RunAll(p, events).Some?
    ensures var q := RunAll(p, events).value;
      forall id :: Holds(log + Counted(events, p.offset, closedBy), id, EntryAt(q.memory, q.offset, id))
    decreases |events|
  {
    if events == [] {
      assert log + [] == log;
    } else {
      var next := Next(p, events[0]);
      match events[0] {
        case Restart(offset, generations) =>
          RestartIsTracked(p, offset, generations, log, closedBy);
          RunsAreTracked(next.value, events[1..], log + Lost(closedBy), None);
          assert log + (Lost(closedBy) + Counted(events[1..], offset, None))
              == log + Lost(closedBy) + Counted(events[1..], offset, None);
        case Do(op, fault) =>
          DoneIsTracked(p, op, fault, log, closedBy);
          if closedBy.None? && fault == None {
            RunsAreTracked(next.value, events[1..], log + [(op, p.offset)], None);
            assert log + ([(op, p.offset)] + Counted(events[1..], p.offset, None))
                == log + [(op, p.offset)] + Counted(events[1..], p.offset, None);
          } else {
            var lost := if closedBy.None? && fault == Some(SyncDirectory) then Some((op, p.offset)) else closedBy;
            RunsAreTracked(next.value, events[1..], log, lost);
          }
      }
    }
  }

  /** The credential in use: the first present of the preference, OAuth, PAT, browser session and login. */
  function InUse(log: seq<Logged>, id: string): Effective {
    var preferred := SlotRegister(log, id, PreferenceRegister(log, id));
    var oauth, pat := SlotRegister(log, id, OAuth), SlotRegister(log, id, Pat);
    var browser, login := SlotRegister(log, id, BrowserSession), LoginRegister(log, id);
    if preferred.Some? then UsesCanvas(preferred.value)
    else if oauth.Some? then UsesCanvas(oauth.value)
    else if pat.Some? then UsesCanvas(pat.value)
    else if browser.Some? then UsesCanvas(browser.value)
    else if login.Some? then UsesNtlm(login.value) else NoCredential
  }

  lemma InUseIsDecided(log: seq<Logged>, id: string, e: Entry)
    requires Holds(log, id, e)
    ensures EffectiveOf(e) == InUse(log, id)
  {
    assert SlotRegister(log, id, e.preferred) == if e.preferred in e.slots then Some(e.slots[e.preferred]) else None;
    assert SlotRegister(log, id, OAuth) == if OAuth in e.slots then Some(e.slots[OAuth]) else None;
    assert SlotRegister(log, id, Pat) == if Pat in e.slots then Some(e.slots[Pat]) else None;
  }

  lemma NothingIsTracked(start: real)
    ensures Tracks(FirstStart(start), [], None)
  {
    var first := FirstStart(start);
    FirstStartIsDurable(start);
    assert [] + Lost(None) == [];
    forall k ensures Holds([], k, EntryAt(first.memory, start, k)) && Holds([], k, SavedAt(OnDisk(first), k)) {
      assert SaveAll(SlotsOf(first.memory, k), start) == map[];
    }
  }

  /** From the first start, over every run of operations, faults and restarts: an identifier holds in each mode
      the slot last installed and not since removed or cleared, the login, preference and block last decided,
      and the credential in use follows from these. */
  lemma {:induction false} CredentialsAreRegisters(start: real, events: seq<Event>, id: string)
    requires Respectful(FirstStart(start), events)
    ensures RunAll(FirstStart(start), events).Some?
    ensures var p, log := RunAll(FirstStart(start), events).value, Counted(events, start, None);
      && (forall mode :: mode in SlotsOf(p.memory, id) <==> SlotRegister(log, id, mode).Some?)
      && (forall mode :: mode in SlotsOf(p.memory, id) ==>
            SlotRegister(log, id, mode) == Some(Save(SlotsOf(p.memory, id)[mode], p.offset)))
      && PreferredOf(p.memory, id) == PreferenceRegister(log, id)
      && (id in p.memory.blocked <==> BlockRegister(log, id))
      && (id in p.memory.credentials && p.memory.credentials[id].Ntlm? <==> LoginRegister(log, id).Some?)
      && (LoginRegister(log, id).Some? ==> p.memory.credentials[id].login == LoginRegister(log, id).value)
      && EffectiveAt(p.memory, p.offset, id) == InUse(log, id)
  {
    var first := FirstStart(start);
    NothingIsTracked(start);
    RunsAreTracked(first, events, [], None);
    var p, log := RunAll(first, events).value, Counted(events, start, None);
    assert [] + log == log;
    var e := EntryAt(p.memory, p.offset, id);
    assert Holds(log, id, e);
    FirstStartIsDurable(start);
    RunsAreDurable(first, events);
    EffectiveIsDetermined(p.memory, p.offset, id);
    InUseIsDecided(log, id, e);
  }
}
