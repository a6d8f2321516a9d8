/** backend/app/auth/store.py: the dictionaries themselves. Every public method publishes a full
    snapshot before it touches memory, and does to memory and vault exactly what CredentialMemory says. */
module CredentialStore {
  import opened Documents
  import opened Vault
  import opened CredentialEffects
  import opened CredentialMemory
  import opened Sets

  /** What the outside world contributes to one call: both clocks, the vault fault that strikes, and
      the temporary file name. */
  datatype World = World(wall: real, monotonic: real, fault: Option<Step>, unique: nat)

  class Store {
    var credentials: map<string, Active>
    var slots: map<string, map<Mode, Slot>>
    var preferred: map<string, Mode>
    var blocked: set<string>
    var generations: map<(string, Mode), nat>
    var vault: CredentialVault?
    const offset: real

    ghost function Footprint(): set<object>
      reads this
    {
      if vault == null then {} else {vault, vault.directory}
    }

    ghost predicate Valid()
      reads this, Footprint()
    {
      vault != null ==> vault.Valid()
    }

    ghost predicate Suits(w: World)
      reads this, Footprint()
    {
      && w.wall - w.monotonic == offset
      && (vault != null ==> Temporary(w.unique) !in vault.directory.files)
    }

    function Contents(): Memory
      reads this
    {
      Memory(credentials, slots, preferred, blocked, generations)
    }

    /** Memory changes only when the vault took the write, and the vault sees one write. */
    twostate predicate Performs(op: Op, fault: Option<Step>, ok: bool)
      requires old(Valid()) && Valid()
      reads this, Footprint()
    {
      && vault == old(vault)
      && Contents() == (if ok then After(old(Contents()), op) else old(Contents()))
      && (vault == null ==> ok)
      && (vault != null ==>
            && ok == Accepts(old(vault.State()), fault)
            && vault.State() == Written(old(vault.State()), SourceCredentials, Published(old(Contents()), offset, op),
              fault))
    }

    constructor (offset: real)
      ensures Valid() && vault == null && Contents() == NOTHING && this.offset == offset
    {
      this.offset := offset;
      credentials, slots, preferred, blocked, generations := map[], map[], map[], {}, map[];
      vault := null;
    }

    function Encode(slot: Slot, w: World): SavedSlot {
      match slot
      case OAuthSlot(b, t, r, e) => SavedOAuth(b, t, r, w.wall + e - w.monotonic)
      case PatSlot(b, t) => SavedPat(b, t)
      case BrowserSlot(b, c) => SavedBrowser(b, c)
    }

    method TakeSnapshot(w: World) returns (entries: map<string, Entry>)
      requires w.wall - w.monotonic == offset
      ensures entries == Snapshot(Contents(), offset)
    {
      var keys := credentials.Keys + slots.Keys + preferred.Keys + blocked;
      entries := map[];
      var todo := keys;
      while todo != {}
        invariant todo <= keys && entries.Keys == keys - todo
        invariant forall id :: id in entries ==> entries[id] == EntryAt(Contents(), offset, id)
        decreases |todo|
      {
        var id :| id in todo;
        var own := SlotsOf(Contents(), id);
        var saved := map mode | mode in own :: Encode(own[mode], w);
        assert saved == SaveAll(own, offset);
        var ntlm := if id in credentials && credentials[id].Ntlm? then Some(credentials[id].login) else None;
        entries := entries[id := Entry(ntlm, saved, PreferredMode(id), id in blocked)];
        todo := todo - {id};
      }
    }

    function PreferredMode(id: string): Mode
      reads this
    {
      if id in preferred then preferred[id] else OAuth
    }

    /** `_persist_change`: snapshot, change one entry, write. Memory is not touched. */
    method PersistChange(op: Op, w: World) returns (ok: bool)
      requires Valid() && Suits(w) && !op.ClearAll?
      modifies Footprint()
      ensures Valid() && (vault == null ==> ok)
      ensures vault != null ==>
        && ok == Accepts(old(vault.State()), w.fault)
        && vault.State() == Written(old(vault.State()), SourceCredentials, Published(Contents(), offset, op), w.fault)
    {
      if vault == null {
        return true;
      }
      var entries := TakeSnapshot(w);
      var entry := if op.id in entries then entries[op.id] else FRESH;
      ghost var moments;
      ok, moments :=
        vault.Write(SourceCredentials, Credentials(entries[op.id := Change(op, entry, offset)]), w.fault, w.unique);
    }

    method SetNtlm(id: string, login: Login, identity: nat, w: World) returns (ok: bool)
      requires Valid() && Suits(w)
      modifies this, Footprint()
      ensures Valid() && Performs(Op.SetNtlm(id, login, identity), w.fault, ok)
      ensures ok ==> credentials == old(credentials)[id := Ntlm(login, identity)]
      ensures Contents() == old(Contents()).(credentials := credentials) && (!ok ==> credentials == old(credentials))
    {
      ok := PersistChange(Op.SetNtlm(id, login, identity), w);
      if ok {
        credentials := credentials[id := Ntlm(login, identity)];
      }
    }

    /** Compare and set on object identity: `replaced` only if the caller saw the current object. */
    method ReplaceNtlm(id: string, expected: Option<Active>, candidate: Option<(Login, nat)>, w: World)
      returns (ok: bool, replaced: bool)
      requires Valid() && Suits(w)
      modifies this, Footprint()
      ensures Valid()
      ensures replaced ==> ok
      ensures expected != old(if id in credentials then Some(credentials[id]) else None) ==>
        && ok && !replaced && vault == old(vault) && Contents() == old(Contents())
        && (vault != null ==> vault.State() == old(vault.State()))
      ensures expected == old(if id in credentials then Some(credentials[id]) else None) ==>
        && replaced == ok
        && Performs(
             if candidate.Some? then Op.SetNtlm(id, candidate.value.0, candidate.value.1) else DropNtlm(id),
             w.fault, ok)
      ensures Contents() == old(Contents()).(credentials := credentials)
      ensures credentials == if !replaced then old(credentials)
        else if candidate.Some? then old(credentials)[id := Ntlm(candidate.value.0, candidate.value.1)]
        else old(credentials) - {id}
    {
      var current := if id in credentials then Some(credentials[id]) else None;
      if current != expected {
        return true, false;
      }
      match candidate {
        case None =>
          ok := PersistChange(DropNtlm(id), w);
          if ok {
            credentials := credentials - {id};
          }
        case Some(next) =>
          ok := PersistChange(Op.SetNtlm(id, next.0, next.1), w);
          if ok {
            credentials := credentials[id := Ntlm(next.0, next.1)];
          }
      }
      replaced := ok;
    }

    method ActivateBest(id: string)
      modifies this`credentials
      ensures Contents() == Activate(old(Contents()), id)
    {
      var own := if id in slots then slots[id] else map[];
      var chosen: Option<Slot> := None;
      var priority := if id in preferred then [preferred[id], OAuth, Pat, BrowserSession]
        else [OAuth, Pat, BrowserSession];
      var i := 0;
      while i < |priority| && chosen.None?
        invariant 0 <= i <= |priority|
        invariant chosen.None? ==> forall j :: 0 <= j < i ==> priority[j] !in own
        invariant chosen.Some? ==> own != map[] && chosen.value == Best(own, PreferredMode(id))
      {
        if priority[i] in own {
          assert (i > 0 ==> priority[0] !in own) && (i > 1 ==> priority[1] !in own) && (i > 2 ==> priority[2] !in own);
          chosen := Some(own[priority[i]]);
        }
        i := i + 1;
      }
      if chosen.None? {
        assert OAuth in priority && Pat in priority && BrowserSession in priority;
        assert own == map[] by { if own != map[] { SomeMode(own); } }
        credentials := credentials - {id};
      } else {
        credentials := credentials[id := Canvas(chosen.value)];
      }
    }

    method InstallInMemory(id: string, slot: Slot)
      modifies `slots, `generations, `credentials, `blocked
      ensures Contents() == Installed(old(Contents()), id, slot)
    {
      var mode := ModeOf(slot);
      var own := if id in slots then slots[id] else map[];
      slots := slots[id := own[mode := slot]];
      generations := generations[(id, mode) := Generation(id, mode) + 1];
      ActivateBest(id);
      if mode == Pat {
        blocked := blocked - {id};
      }
    }

    /** The three public installers: a PAT, a browser session, an OAuth credential. Only the PAT lifts
        a block. */
    method SetCanvas(id: string, slot: Slot, w: World) returns (ok: bool)
      requires Valid() && Suits(w)
      modifies this, Footprint()
      ensures Valid() && Performs(Install(id, slot), w.fault, ok)
      ensures ok ==> Installs(old(Contents()), Contents(), id, slot)
      ensures ok && slot.PatSlot? ==> id !in blocked
      ensures ok && !slot.PatSlot? ==> (id in blocked <==> id in old(blocked))
      ensures !ok ==> Contents() == old(Contents())
    {
      ok := PersistChange(Install(id, slot), w);
      if ok {
        InstallInMemory(id, slot);
        InstalledInstalls(old(Contents()), id, slot);
      }
    }

    function Generation(id: string, mode: Mode): nat
      reads this
    {
      if (id, mode) in generations then generations[(id, mode)] else 0
    }

    method RemoveFromMemory(id: string, mode: Mode) returns (removed: bool)
      modifies `slots, `generations, `credentials, `blocked
      ensures Contents() == Removed(old(Contents()), id, mode)
      ensures removed == (mode in SlotsOf(old(Contents()), id))
    {
      removed := id in slots && mode in slots[id];
      if removed {
        slots := slots[id := slots[id] - {mode}];
      }
      generations := generations[(id, mode) := Generation(id, mode) + 1];
      if mode == Pat {
        blocked := blocked + {id};
      }
      if removed {
        ActivateBest(id);
      }
    }

    /** A stale generation leaves everything alone. */
    method RemoveCanvasSlot(id: string, mode: Mode, generation: Option<nat>, w: World) returns (ok: bool, removed: bool)
      requires Valid() && Suits(w)
      modifies this, Footprint()
      ensures Valid()
      ensures generation.Some? && generation.value != old(Generation(id, mode)) ==>
        && ok && !removed && vault == old(vault) && Contents() == old(Contents())
        && (vault != null ==> vault.State() == old(vault.State()))
      ensures generation.None? || generation.value == old(Generation(id, mode)) ==>
        Performs(Remove(id, mode), w.fault, ok) && removed == (ok && mode in SlotsOf(old(Contents()), id))
      ensures ok && (generation.None? || generation.value == old(Generation(id, mode))) ==>
        Removes(old(Contents()), Contents(), id, mode)
      ensures !ok ==> Contents() == old(Contents())
    {
      removed := false;
      if generation.Some? && Generation(id, mode) != generation.value {
        return true, false;
      }
      ok := PersistChange(Remove(id, mode), w);
      if ok {
        removed := RemoveFromMemory(id, mode);
        RemovedRemoves(old(Contents()), id, mode);
      }
    }

    method SelectCanvasMode(id: string, mode: Mode, w: World) returns (ok: bool)
      requires Valid() && Suits(w)
      modifies this, Footprint()
      ensures Valid() && Performs(Select(id, mode), w.fault, ok)
      ensures ok ==> Selects(old(Contents()), Contents(), id, mode)
      ensures !ok ==> Contents() == old(Contents())
    {
      ok := PersistChange(Select(id, mode), w);
      if !ok {
        return;
      }
      preferred := preferred[id := mode];
      if id in slots && mode in slots[id] {
        credentials := credentials[id := Canvas(slots[id][mode])];
      }
      SelectedSelects(old(Contents()), id, mode);
    }

    method RemoveUnpersisted(id: string, mode: Mode, w: World)
      requires vault == null && w.wall - w.monotonic == offset
      modifies this
      ensures vault == null && Contents() == Removed(old(Contents()), id, mode)
    {
      var _, _ := RemoveCanvasSlot(id, mode, None, w);
    }

    /** `_clear_memory`, called with persistence switched off: slots go one by one through
        RemoveCanvasSlot, which re-activates the next best each time. */
    method ClearMemory(id: string, w: World)
      requires vault == null && w.wall - w.monotonic == offset
      modifies this
      ensures vault == null && Contents() == Cleared(old(Contents()), id)
    {
      ghost var before, now, done := Contents(), Contents(), {};
      ClearingStarts(before, id);
      var modes := if id in slots then slots[id].Keys else {};
      var todo := modes;
      while todo != {}
        invariant vault == null && todo !! done && todo + done == modes
        invariant Contents() == now && PartlyCleared(before, now, id, done)
        decreases |todo|
      {
        var mode :| mode in todo;
        ClearingOneMore(before, now, id, done, mode);
        MovingOneOver(todo, done, mode);
        RemoveUnpersisted(id, mode, w);
        now, done := Removed(now, id, mode), done + {mode};
        todo := todo - {mode};
      }
      ClearingEnds(before, now, id);
      credentials := credentials - {id};
    }

    method BlockCanvas(id: string, w: World) returns (ok: bool)
      requires Valid() && Suits(w)
      modifies this, Footprint()
      ensures Valid() && Performs(Block(id), w.fault, ok)
      ensures ok ==> id in blocked && Clears(old(Contents()), Contents(), id, true)
      ensures !ok ==> Contents() == old(Contents())
    {
      ok := PersistChange(Block(id), w);
      if !ok {
        return;
      }
      blocked := blocked + {id};
      var original := vault;
      vault := null;
      ClearMemory(id, w);
      vault := original;
      BlockedClears(old(Contents()), id);
    }

    method Clear(id: string, w: World) returns (ok: bool)
      requires Valid() && Suits(w)
      modifies this, Footprint()
      ensures Valid() && Performs(Op.Clear(id), w.fault, ok)
      ensures ok ==> Clears(old(Contents()), Contents(), id, SlotAt(old(Contents()), id, Pat).Some?)
      ensures !ok ==> Contents() == old(Contents())
    {
      ok := PersistChange(Op.Clear(id), w);
      if !ok {
        return;
      }
      var original := vault;
      vault := null;
      ClearMemory(id, w);
      vault := original;
      ClearedClears(old(Contents()), id);
    }

    method ClearAllMemory(w: World)
      requires vault == null && w.wall - w.monotonic == offset
      modifies this
      ensures vault == null && Contents() == NOTHING
    {
      var todo := slots.Keys;
      while todo != {}
        invariant vault == null
        decreases |todo|
      {
        var id :| id in todo;
        var _ := Clear(id, w);
        todo := todo - {id};
      }
      slots, generations, credentials, preferred, blocked := map[], map[], map[], map[], {};
    }

    method ClearAll(w: World) returns (ok: bool)
      requires Valid() && Suits(w)
      modifies this, Footprint()
      ensures Valid() && Performs(Op.ClearAll, w.fault, ok)
      ensures Contents() == if ok then NOTHING else old(Contents())
    {
      ok := true;
      if vault != null {
        ghost var moments;
        ok, moments := vault.Write(SourceCredentials, Empty, w.fault, w.unique);
      }
      if ok {
        var original := vault;
        vault := null;
        ClearAllMemory(w);
        vault := original;
      }
    }

    method DrawGenerations(id: string, modes: set<Mode>, draw: (string, Mode) -> nat)
      modifies `generations
      ensures generations.Keys >= old(generations).Keys
      ensures forall key ::
        key in generations && (key !in old(generations) || generations[key] != old(generations)[key]) ==>
          generations[key] > 0
      ensures forall mode :: mode in modes ==> (id, mode) in generations && generations[(id, mode)] > 0
    {
      var todo := modes;
      while todo != {}
        invariant todo <= modes
        invariant generations.Keys >= old(generations).Keys
        invariant forall key ::
          key in generations && (key !in old(generations) || generations[key] != old(generations)[key]) ==>
            generations[key] > 0
        invariant forall mode :: mode in modes - todo ==> (id, mode) in generations && generations[(id, mode)] > 0
        decreases |todo|
      {
        var mode :| mode in todo;
        generations := generations[(id, mode) := draw(id, mode) + 1];
        todo := todo - {mode};
      }
    }

    method LoadSlots(id: string, entry: Entry)
      requires entry.slots != map[] && id in preferred && preferred[id] == entry.preferred
      modifies `credentials, `slots
      ensures slots == old(slots)[id := LoadAll(entry.slots, offset)]
      ensures credentials == old(credentials)[id := LoadedActive(entry, offset)]
    {
      SomeSlotLoads(entry.slots, offset);
      slots := slots[id := LoadAll(entry.slots, offset)];
      ActivateBest(id);
    }

    /** One entry: preference, login, then slots, which take over the cache. */
    method LoadOne(id: string, entry: Entry)
      modifies `credentials, `slots, `preferred, `blocked
      ensures preferred == old(preferred)[id := entry.preferred]
      ensures blocked == if entry.blocked then old(blocked) + {id} else old(blocked)
      ensures slots == if entry.slots != map[] then old(slots)[id := LoadAll(entry.slots, offset)] else old(slots)
      ensures credentials ==
        if entry.slots != map[] || entry.ntlm.Some? then old(credentials)[id := LoadedActive(entry, offset)]
        else old(credentials)
    {
      preferred := preferred[id := entry.preferred];
      if entry.ntlm.Some? {
        credentials := credentials[id := Ntlm(entry.ntlm.value, 0)];
      }
      if entry.slots != map[] {
        LoadSlots(id, entry);
      }
      if entry.blocked {
        blocked := blocked + {id};
      }
    }

    method LoadNext(id: string, entry: Entry, ghost done: map<string, Entry>)
      requires Contents().(generations := map[]) == Restored(done, offset, map[]) && id !in done
      modifies `credentials, `slots, `preferred, `blocked
      ensures Contents().(generations := map[]) == Restored(done[id := entry], offset, map[])
    {
      LoadOne(id, entry);
      RestoringOneMore(done, id, entry, offset);
    }

    /** Every slot of the entries in `done` has a positive generation. */
    ghost predicate Drawn(done: map<string, Entry>)
      reads this
    {
      forall id, mode :: id in done && mode in done[id].slots ==> Generation(id, mode) > 0
    }

    method LoadAndDraw(id: string, entry: Entry, draw: (string, Mode) -> nat, ghost done: map<string, Entry>)
      requires Contents().(generations := map[]) == Restored(done, offset, map[]) && id !in done && Drawn(done)
      modifies `credentials, `slots, `preferred, `blocked, `generations
      ensures Contents().(generations := map[]) == Restored(done[id := entry], offset, map[])
        && Drawn(done[id := entry])
    {
      LoadNext(id, entry, done);
      DrawGenerations(id, entry.slots.Keys, draw);
    }

    method LoadEntries(loaded: map<string, Entry>, draw: (string, Mode) -> nat)
      requires Contents() == NOTHING
      modifies `credentials, `slots, `preferred, `blocked, `generations
      ensures Contents() == Restored(loaded, offset, generations) && Drawn(loaded)
      ensures loaded == map[] ==> Contents() == NOTHING
    {
      var done: map<string, Entry> := map[];
      var todo := loaded.Keys;
      while todo != {}
        invariant done.Keys == loaded.Keys - todo && todo <= loaded.Keys
        invariant forall id :: id in done ==> done[id] == loaded[id]
        invariant Contents().(generations := map[]) == Restored(done, offset, map[]) && Drawn(done)
        invariant loaded == map[] ==> Contents() == NOTHING
        decreases |todo|
      {
        var id :| id in todo;
        LoadAndDraw(id, loaded[id], draw, done);
        done := done[id := loaded[id]];
        todo := todo - {id};
      }
      assert done == loaded;
    }

    /** Validate everything first, then forget memory, then load. Nothing changes on a refusal. */
    method ConfigurePersistence(next: CredentialVault?, draw: (string, Mode) -> nat, w: World) returns (ok: bool)
      requires Valid() && w.wall - w.monotonic == offset
      requires next != null ==> next.Valid()
      modifies this
      ensures next == null ==> ok && Contents() == NOTHING && vault == null
      ensures next != null ==>
        var d := ReadFrom(next.State().disk, SourceCredentials);
        ok == (!next.failed && !d.Sessions? && !d.Ai? && AllReadable(EntriesOf(d)))
      ensures next != null && ok ==>
        && vault == next
        && Contents() == Restored(EntriesOf(ReadFrom(next.State().disk, SourceCredentials)), offset, generations)
        && forall id, mode :: id in slots && mode in slots[id] ==> Generation(id, mode) > 0
      ensures !ok ==> vault == old(vault) && Contents() == old(Contents())
      ensures next != null ==> next.Valid() && next.State() == old(next.State())
    {
      var loaded: map<string, Entry> := map[];
      if next != null {
        var read := next.Read(SourceCredentials);
        if read.None? || read.value.Sessions? || read.value.Ai? {
          return false;
        }
        loaded := EntriesOf(read.value);
        var unchecked := loaded.Keys;
        while unchecked != {}
          invariant unchecked <= loaded.Keys
          invariant forall id :: id in loaded && id !in unchecked ==> Readable(id, loaded[id])
          decreases |unchecked|
        {
          var id :| id in unchecked;
          if !Readable(id, loaded[id]) {
            return false;
          }
          unchecked := unchecked - {id};
        }
      }
      vault := null;
      ClearAllMemory(w);
      vault := next;
      LoadEntries(loaded, draw);
      ok := true;
    }
  }

  lemma SomeSlotLoads(slots: map<Mode, SavedSlot>, offset: real)
    requires slots != map[]
    ensures LoadAll(slots, offset) != map[]
  {
    var mode :| mode in slots;
    assert mode in LoadAll(slots, offset);
  }

  lemma RestoringOneMore(entries: map<string, Entry>, id: string, e: Entry, offset: real)
    requires id !in entries
    ensures var m, n := Restored(entries, offset, map[]), Restored(entries[id := e], offset, map[]);
      && n.preferred == m.preferred[id := e.preferred]
      && n.blocked == (if e.blocked then m.blocked + {id} else m.blocked)
      && n.slots == (if e.slots != map[] then m.slots[id := LoadAll(e.slots, offset)] else m.slots)
      && n.credentials == (if e.slots != map[] || e.ntlm.Some? then m.credentials[id := LoadedActive(e, offset)]
        else m.credentials)
  {
    RestoringCredentials(entries, id, e, offset);
    RestoringSlots(entries, id, e, offset);
  }

  lemma RestoringCredentials(entries: map<string, Entry>, id: string, e: Entry, offset: real)
    requires id !in entries
    ensures Restored(entries[id := e], offset, map[]).credentials
         == var c := Restored(entries, offset, map[]).credentials;
            if e.slots != map[] || e.ntlm.Some? then c[id := LoadedActive(e, offset)] else c
  {
  }

  lemma RestoredSlotsAt(entries: map<string, Entry>, offset: real, k: string)
    ensures var slots := Restored(entries, offset, map[]).slots;
      && (k in slots <==> k in entries && entries[k].slots != map[])
      && (k in slots ==> slots[k] == LoadAll(entries[k].slots, offset))
  {
  }

  lemma RestoringSlots(entries: map<string, Entry>, id: string, e: Entry, offset: real)
    requires id !in entries
    ensures Restored(entries[id := e], offset, map[]).slots
         == var s := Restored(entries, offset, map[]).slots;
            if e.slots != map[] then s[id := LoadAll(e.slots, offset)] else s
  {
    var before, after := Restored(entries, offset, map[]).slots, Restored(entries[id := e], offset, map[]).slots;
    var expected := if e.slots != map[] then before[id := LoadAll(e.slots, offset)] else before;
    forall k ensures (k in after <==> k in expected) && (k in after ==> after[k] == expected[k]) {
      RestoredSlotsAt(entries, offset, k);
      RestoredSlotsAt(entries[id := e], offset, k);
    }
  }
}
