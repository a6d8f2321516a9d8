/** backend/app/auth/store.py on values: what the store remembers, what it writes to the vault, and
    why the two never drift apart. The class in CredentialStore.dfy is proved against this. */
module CredentialMemory {
  import opened Documents
  import opened Vault

  /** A live Canvas credential: OAuth expiry is monotonic-clock time of this process. */
  datatype Slot =
    | OAuthSlot(baseUrl: string, token: string, refresh: string, expiresClock: real)
    | PatSlot(baseUrl: string, token: string)
    | BrowserSlot(baseUrl: string, cookies: map<string, string>)

  /** `identity` stands for the object identity that `replace_ntlm` compares. */
  datatype Active = Ntlm(login: Login, identity: nat) | Canvas(slot: Slot)

  datatype Memory = Memory(
    credentials: map<string, Active>,
    slots: map<string, map<Mode, Slot>>,
    preferred: map<string, Mode>,
    blocked: set<string>,
    generations: map<(string, Mode), nat>)

  const NOTHING := Memory(map[], map[], map[], {}, map[])

  const FRESH := Entry(None, map[], OAuth, false)

  function ModeOf(s: Slot): Mode {
    match s
    case OAuthSlot(_, _, _, _) => OAuth
    case PatSlot(_, _) => Pat
    case BrowserSlot(_, _) => BrowserSession
  }

  function SavedMode(s: SavedSlot): Mode {
    match s
    case SavedOAuth(_, _, _, _) => OAuth
    case SavedPat(_, _) => Pat
    case SavedBrowser(_, _) => BrowserSession
  }

  /** `offset` is wall clock minus monotonic clock, constant while the process lives. */
  function Save(s: Slot, offset: real): SavedSlot {
    match s
    case OAuthSlot(b, t, r, e) => SavedOAuth(b, t, r, e + offset)
    case PatSlot(b, t) => SavedPat(b, t)
    case BrowserSlot(b, c) => SavedBrowser(b, c)
  }

  function Load(s: SavedSlot, offset: real): Slot {
    match s
    case SavedOAuth(b, t, r, e) => OAuthSlot(b, t, r, e - offset)
    case SavedPat(b, t) => PatSlot(b, t)
    case SavedBrowser(b, c) => BrowserSlot(b, c)
  }

  function SaveAll(slots: map<Mode, Slot>, offset: real): map<Mode, SavedSlot> {
    map mode | mode in slots :: Save(slots[mode], offset)
  }

  function LoadAll(slots: map<Mode, SavedSlot>, offset: real): map<Mode, Slot> {
    map mode | mode in slots :: Load(slots[mode], offset)
  }

  function SlotsOf(m: Memory, id: string): map<Mode, Slot> {
    if id in m.slots then m.slots[id] else map[]
  }

  function PreferredOf(m: Memory, id: string): Mode {
    if id in m.preferred then m.preferred[id] else OAuth
  }

  function GenerationOf(m: Memory, id: string, mode: Mode): nat {
    if (id, mode) in m.generations then m.generations[(id, mode)] else 0
  }

  /** The first slot present in the order: preferred, then OAuth, PAT, browser session. */
  function Best(slots: map<Mode, Slot>, preferred: Mode): Slot
    requires slots != map[]
  {
    if preferred in slots then slots[preferred]
    else if OAuth in slots then slots[OAuth]
    else if Pat in slots then slots[Pat]
    else
      assert BrowserSession in slots by { SomeMode(slots); }
      slots[BrowserSession]
  }

  lemma SomeMode(slots: map<Mode, Slot>)
    requires slots != map[]
    ensures OAuth in slots || Pat in slots || BrowserSession in slots
  {
    var mode :| mode in slots;
    assert mode == OAuth || mode == Pat || mode == BrowserSession;
  }

  function Activate(m: Memory, id: string): Memory {
    m.(credentials :=
      if SlotsOf(m, id) == map[] then m.credentials - {id}
      else m.credentials[id := Canvas(Best(SlotsOf(m, id), PreferredOf(m, id)))])
  }

  /** The cache of effective credentials is what the slots and preference say it is. */
  ghost predicate CacheAt(m: Memory, id: string) {
    && (SlotsOf(m, id) != map[] ==>
          id in m.credentials && m.credentials[id] == Canvas(Best(SlotsOf(m, id), PreferredOf(m, id))))
    && (SlotsOf(m, id) == map[] ==> id in m.credentials ==> m.credentials[id].Ntlm?)
    && (forall mode :: mode in SlotsOf(m, id) ==> ModeOf(SlotsOf(m, id)[mode]) == mode)
  }

  ghost predicate Consistent(m: Memory) {
    forall id :: CacheAt(m, id)
  }

  /** One identifier as the snapshot writes it. */
  function EntryAt(m: Memory, offset: real, id: string): Entry {
    Entry(
      if id in m.credentials && m.credentials[id].Ntlm? then Some(m.credentials[id].login) else None,
      SaveAll(SlotsOf(m, id), offset),
      PreferredOf(m, id),
      id in m.blocked)
  }

  function Known(m: Memory): set<string> {
    m.credentials.Keys + m.slots.Keys + m.preferred.Keys + m.blocked
  }

  function Snapshot(m: Memory, offset: real): map<string, Entry> {
    map id | id in Known(m) :: EntryAt(m, offset, id)
  }

  function EntriesOf(d: Document): map<string, Entry> {
    if d.Credentials? then d.entries else map[]
  }

  function SavedAt(entries: map<string, Entry>, id: string): Entry {
    if id in entries then entries[id] else FRESH
  }

  // Operations.

  datatype Op =
    | SetNtlm(id: string, login: Login, identity: nat)
    | DropNtlm(id: string)
    | Install(id: string, slot: Slot)
    | Remove(id: string, mode: Mode)
    | Select(id: string, mode: Mode)
    | Block(id: string)
    | Clear(id: string)
    | ClearAll

  function Bump(m: Memory, id: string, modes: set<Mode>): map<(string, Mode), nat> {
    m.generations + (map mode | mode in modes :: (id, mode) := GenerationOf(m, id, mode) + 1)
  }

  function Bumped(m: Memory, id: string, mode: Mode): map<(string, Mode), nat> {
    m.generations[(id, mode) := GenerationOf(m, id, mode) + 1]
  }

  lemma BumpAt(m: Memory, id: string, modes: set<Mode>, k: string, mode: Mode)
    ensures (k, mode) in Bump(m, id, modes) <==> (k == id && mode in modes) || (k, mode) in m.generations
    ensures k == id && mode in modes ==> Bump(m, id, modes)[(k, mode)] == GenerationOf(m, id, mode) + 1
    ensures !(k == id && mode in modes) && (k, mode) in m.generations ==>
      Bump(m, id, modes)[(k, mode)] == m.generations[(k, mode)]
  {
  }

  lemma BumpOneMore(m: Memory, id: string, modes: set<Mode>, mode: Mode)
    requires mode !in modes
    ensures Bump(m, id, modes + {mode}) == Bump(m, id, modes)[(id, mode) := GenerationOf(m, id, mode) + 1]
  {
    var one, all := Bump(m, id, modes)[(id, mode) := GenerationOf(m, id, mode) + 1], Bump(m, id, modes + {mode});
    forall k, other
      ensures ((k, other) in all <==> (k, other) in one) && ((k, other) in all ==> all[(k, other)] == one[(k, other)]) {
      BumpAt(m, id, modes + {mode}, k, other);
      BumpAt(m, id, modes, k, other);
    }
    assert forall key :: key in all <==> key in one by {
      forall key ensures key in all <==> key in one { assert key == (key.0, key.1); }
    }
    forall key | key in all ensures all[key] == one[key] { assert key == (key.0, key.1); }
  }

  lemma BumpElsewhere(m: Memory, id: string, modes: set<Mode>, mode: Mode)
    requires mode !in modes
    ensures GenerationOf(m.(generations := Bump(m, id, modes)), id, mode) == GenerationOf(m, id, mode)
  {
  }

  function Cleared(m: Memory, id: string): Memory {
    m.(credentials := m.credentials - {id},
       slots := if id in m.slots then m.slots[id := map[]] else m.slots,
       blocked := if Pat in SlotsOf(m, id) then m.blocked + {id} else m.blocked,
       generations := Bump(m, id, SlotsOf(m, id).Keys))
  }

  /** Halfway through clearing: the modes in `done` are gone, the cache of `id` may be anything. */
  ghost predicate PartlyCleared(before: Memory, m: Memory, id: string, done: set<Mode>) {
    && m.preferred == before.preferred
    && m.slots == (if id in before.slots then before.slots[id := before.slots[id] - done] else before.slots)
    && m.blocked == (if Pat in done then before.blocked + {id} else before.blocked)
    && m.generations == Bump(before, id, done)
    && m.credentials - {id} == before.credentials - {id}
  }

  lemma RemovedElsewhere(m: Memory, id: string, mode: Mode)
    ensures Removed(m, id, mode).credentials - {id} == m.credentials - {id}
    ensures Removed(m, id, mode).preferred == m.preferred
  {
  }

  lemma ClearingOneMore(before: Memory, m: Memory, id: string, done: set<Mode>, mode: Mode)
    requires PartlyCleared(before, m, id, done) && mode in SlotsOf(before, id) && mode !in done
    ensures PartlyCleared(before, Removed(m, id, mode), id, done + {mode})
  {
    RemovedElsewhere(m, id, mode);
    RemovedGenerations(before, m, id, done, mode);
    RemovedSlotsPartly(before, m, id, done, mode);
  }

  lemma RemovedGenerations(before: Memory, m: Memory, id: string, done: set<Mode>, mode: Mode)
    requires m.generations == Bump(before, id, done) && mode !in done
    ensures Removed(m, id, mode).generations == Bump(before, id, done + {mode})
  {
    BumpOneMore(before, id, done, mode);
    BumpElsewhere(before, id, done, mode);
    assert GenerationOf(m, id, mode) == GenerationOf(m.(generations := Bump(before, id, done)), id, mode);
  }

  lemma RemovedSlotsPartly(before: Memory, m: Memory, id: string, done: set<Mode>, mode: Mode)
    requires mode in SlotsOf(before, id) && mode !in done && m.slots == before.slots[id := before.slots[id] - done]
    ensures Removed(m, id, mode).slots == before.slots[id := before.slots[id] - (done + {mode})]
  {
    assert before.slots[id] - done - {mode} == before.slots[id] - (done + {mode});
    assert mode in SlotsOf(m, id);
    assert m.slots[id := before.slots[id] - (done + {mode})] == before.slots[id := before.slots[id] - (done + {mode})];
  }

  lemma ClearingStarts(m: Memory, id: string)
    ensures PartlyCleared(m, m, id, {})
  {
    assert Bump(m, id, {}) == m.generations;
    if id in m.slots { assert m.slots[id] - {} == m.slots[id]; }
  }

  lemma ClearingEnds(before: Memory, m: Memory, id: string)
    requires PartlyCleared(before, m, id, SlotsOf(before, id).Keys)
    ensures m.(credentials := m.credentials - {id}) == Cleared(before, id)
  {
    if id in before.slots { assert before.slots[id] - before.slots[id].Keys == map[]; }
  }

  function Removed(m: Memory, id: string, mode: Mode): Memory {
    var marked := m.(
      generations := Bumped(m, id, mode),
      blocked := if mode == Pat then m.blocked + {id} else m.blocked);
    if mode !in SlotsOf(m, id) then marked
    else Activate(marked.(slots := m.slots[id := m.slots[id] - {mode}]), id)
  }

  function Installed(m: Memory, id: string, slot: Slot): Memory {
    Activate(
      m.(slots := m.slots[id := SlotsOf(m, id)[ModeOf(slot) := slot]],
         generations := Bumped(m, id, ModeOf(slot)),
         blocked := if ModeOf(slot) == Pat then m.blocked - {id} else m.blocked),
      id)
  }

  function Selected(m: Memory, id: string, mode: Mode): Memory {
    m.(preferred := m.preferred[id := mode],
       credentials := if mode in SlotsOf(m, id) then m.credentials[id := Canvas(SlotsOf(m, id)[mode])]
         else m.credentials)
  }

  /** What each operation does to the dictionaries. */
  function After(m: Memory, op: Op): Memory {
    match op
    case SetNtlm(id, login, identity) => m.(credentials := m.credentials[id := Ntlm(login, identity)])
    case DropNtlm(id) => m.(credentials := m.credentials - {id})
    case Install(id, slot) => Installed(m, id, slot)
    case Remove(id, mode) => Removed(m, id, mode)
    case Select(id, mode) => Selected(m, id, mode)
    case Block(id) => Cleared(m.(blocked := m.blocked + {id}), id)
    case Clear(id) => Cleared(m, id)
    case ClearAll => NOTHING
  }

  /** What each operation does to the entry it publishes. */
  function Change(op: Op, e: Entry, offset: real): Entry {
    match op
    case SetNtlm(_, login, _) => e.(ntlm := Some(login))
    case DropNtlm(_) => e.(ntlm := None)
    case Install(_, slot) =>
      Entry(None, e.slots[ModeOf(slot) := Save(slot, offset)], e.preferred, e.blocked && ModeOf(slot) != Pat)
    case Remove(_, mode) => e.(slots := e.slots - {mode}, blocked := e.blocked || mode == Pat)
    case Select(_, mode) => e.(preferred := mode)
    case Block(_) => e.(ntlm := None, slots := map[], blocked := true)
    case Clear(_) => e.(ntlm := None, slots := map[], blocked := e.blocked || Pat in e.slots)
    case ClearAll => FRESH
  }

  function Published(m: Memory, offset: real, op: Op): Document {
    if op.ClearAll? then Empty
    else
      Credentials(Snapshot(m, offset)[op.id := Change(op, SavedAt(Snapshot(m, offset), op.id), offset)])
  }

  /** What callers must respect: NTLM and Canvas do not share an identifier, only NTLM credentials are
      dropped as such, and a mode is selected when its slot is present, none is, or the choice is
      between the same winners. */
  predicate Allowed(m: Memory, op: Op) {
    match op
    case SetNtlm(id, _, _) => SlotsOf(m, id) == map[]
    case DropNtlm(id) => SlotsOf(m, id) == map[]
    case Select(id, mode) => SelectKeepsWinner(m, id, mode)
    case _ => true
  }

  predicate SelectKeepsWinner(m: Memory, id: string, mode: Mode) {
    var slots := SlotsOf(m, id);
    mode in slots || slots == map[] || Best(slots, PreferredOf(m, id)) == Best(slots, OAuth)
  }

  // Snapshot and restoration.

  lemma SnapshotAt(m: Memory, offset: real, id: string)
    ensures SavedAt(Snapshot(m, offset), id) == EntryAt(m, offset, id)
  {
    if id !in Known(m) {
      assert SaveAll(SlotsOf(m, id), offset) == map[];
    }
  }

  predicate TextsPresent(s: SavedSlot) {
    match s
    case SavedOAuth(b, t, r, _) => b != "" && t != "" && r != ""
    case SavedPat(b, t) => b != "" && t != ""
    case SavedBrowser(b, _) => b != ""
  }

  /** The validation `configure_persistence` applies to one stored entry. */
  predicate Readable(id: string, e: Entry) {
    && id != ""
    && (e.ntlm.Some? ==> e.ntlm.value.username != "" && e.ntlm.value.password != "")
    && forall mode :: mode in e.slots ==> SavedMode(e.slots[mode]) == mode && TextsPresent(e.slots[mode])
  }

  predicate AllReadable(entries: map<string, Entry>) {
    forall id :: id in entries ==> Readable(id, entries[id])
  }

  function LoadedActive(e: Entry, offset: real): Active
    requires e.slots != map[] || e.ntlm.Some?
  {
    if e.slots != map[] then
      assert LoadAll(e.slots, offset) != map[] by {
        var mode :| mode in e.slots;
        assert mode in LoadAll(e.slots, offset);
      }
      Canvas(Best(LoadAll(e.slots, offset), e.preferred))
    else Ntlm(e.ntlm.value, 0)
  }

  /** Memory after a restart. Generations start at arbitrary positive numbers, here `generations`. */
  function Restored(entries: map<string, Entry>, offset: real, generations: map<(string, Mode), nat>): Memory {
    Memory(
      (map id | id in entries && (entries[id].slots != map[] || entries[id].ntlm.Some?) ::
         LoadedActive(entries[id], offset)),
      (map id | id in entries && entries[id].slots != map[] :: LoadAll(entries[id].slots, offset)),
      (map id | id in entries :: entries[id].preferred),
      (set id | id in entries && entries[id].blocked),
      generations)
  }

  lemma LoadThenSave(slots: map<Mode, SavedSlot>, offset: real)
    ensures SaveAll(LoadAll(slots, offset), offset) == slots
  {
  }

  /** A restart gives back every entry exactly, in any process whatever its clocks, unless an
      identifier holds both kinds: then Canvas wins. */
  lemma RestoreRoundTrip(entries: map<string, Entry>, offset: real, generations: map<(string, Mode), nat>, id: string)
    requires AllReadable(entries)
    ensures CacheAt(Restored(entries, offset, generations), id)
    ensures EntryAt(Restored(entries, offset, generations), offset, id)
         == (var e := SavedAt(entries, id); if e.slots != map[] then e.(ntlm := None) else e)
  {
    var m := Restored(entries, offset, generations);
    var e := SavedAt(entries, id);
    LoadThenSave(e.slots, offset);
    if id in entries && e.slots != map[] {
      var mode :| mode in e.slots;
      assert mode in LoadAll(e.slots, offset);
      assert id in m.slots;
    } else {
      assert id !in m.slots;
    }
  }

  // Publishing an entry and updating the dictionaries are the same operation.

  /** The entry of `k` after an operation, said without the dictionaries. */
  function Expected(m: Memory, offset: real, op: Op, k: string): Entry {
    if op.ClearAll? then FRESH
    else if k == op.id then Change(op, EntryAt(m, offset, k), offset)
    else EntryAt(m, offset, k)
  }

  lemma PublishedAt(m: Memory, offset: real, op: Op, k: string)
    ensures SavedAt(EntriesOf(Published(m, offset, op)), k) == Expected(m, offset, op, k)
  {
    SnapshotAt(m, offset, k);
  }

  lemma SaveAllWithout(slots: map<Mode, Slot>, offset: real, mode: Mode)
    ensures SaveAll(slots - {mode}, offset) == SaveAll(slots, offset) - {mode}
  {
  }

  lemma SaveAllWith(slots: map<Mode, Slot>, offset: real, mode: Mode, slot: Slot)
    ensures SaveAll(slots[mode := slot], offset) == SaveAll(slots, offset)[mode := Save(slot, offset)]
  {
  }

  lemma AbsentModeChangesNothing(slots: map<Mode, Slot>, mode: Mode)
    requires mode !in slots
    ensures slots - {mode} == slots
  {
  }

  lemma RemoveFollows(m: Memory, offset: real, id: string, mode: Mode, k: string)
    requires CacheAt(m, id) && CacheAt(m, k)
    ensures EntryAt(Removed(m, id, mode), offset, k) == Expected(m, offset, Remove(id, mode), k)
    ensures CacheAt(Removed(m, id, mode), k)
  {
    RemovedSlots(m, id, mode, k);
    RemoveKeepsCache(m, id, mode, k);
    if k == id {
      SaveAllWithout(SlotsOf(m, id), offset, mode);
    }
  }

  lemma RemovedSlots(m: Memory, id: string, mode: Mode, k: string)
    ensures SlotsOf(Removed(m, id, mode), k) == if k == id then SlotsOf(m, k) - {mode} else SlotsOf(m, k)
  {
    if k == id && mode !in SlotsOf(m, id) { AbsentModeChangesNothing(SlotsOf(m, id), mode); }
  }

  lemma RemoveKeepsCache(m: Memory, id: string, mode: Mode, k: string)
    requires CacheAt(m, id) && CacheAt(m, k)
    ensures CacheAt(Removed(m, id, mode), k)
  {
    RemovedSlots(m, id, mode, k);
    if k == id && mode !in SlotsOf(m, id) { AbsentModeChangesNothing(SlotsOf(m, id), mode); }
  }

  lemma InstallFollows(m: Memory, offset: real, id: string, slot: Slot, k: string)
    requires CacheAt(m, id) && CacheAt(m, k)
    ensures EntryAt(Installed(m, id, slot), offset, k) == Expected(m, offset, Install(id, slot), k)
    ensures CacheAt(Installed(m, id, slot), k)
  {
    if k == id {
      var slots := SlotsOf(m, id);
      SaveAllWith(slots, offset, ModeOf(slot), slot);
      assert SlotsOf(Installed(m, id, slot), id) == slots[ModeOf(slot) := slot];
      assert ModeOf(slot) in slots[ModeOf(slot) := slot];
    } else {
      assert SlotsOf(Installed(m, id, slot), k) == SlotsOf(m, k);
    }
  }

  lemma ClearFollows(m: Memory, offset: real, id: string, k: string)
    requires CacheAt(m, k)
    ensures EntryAt(Cleared(m, id), offset, k) == Expected(m, offset, Clear(id), k)
    ensures CacheAt(Cleared(m, id), k)
  {
    assert SlotsOf(Cleared(m, id), k) == if k == id then map[] else SlotsOf(m, k);
    assert Pat in SaveAll(SlotsOf(m, id), offset) <==> Pat in SlotsOf(m, id);
  }

  lemma BlockFollows(m: Memory, offset: real, id: string, k: string)
    requires CacheAt(m, k)
    ensures EntryAt(After(m, Block(id)), offset, k) == Expected(m, offset, Block(id), k)
    ensures CacheAt(After(m, Block(id)), k)
  {
    var blocking := m.(blocked := m.blocked + {id});
    assert SlotsOf(blocking, k) == SlotsOf(m, k) && PreferredOf(blocking, k) == PreferredOf(m, k);
    ClearFollows(blocking, offset, id, k);
  }

  lemma SelectFollows(m: Memory, offset: real, id: string, mode: Mode, k: string)
    requires CacheAt(m, id) && CacheAt(m, k) && SelectKeepsWinner(m, id, mode)
    ensures EntryAt(Selected(m, id, mode), offset, k) == Expected(m, offset, Select(id, mode), k)
    ensures CacheAt(Selected(m, id, mode), k)
  {
    assert SlotsOf(Selected(m, id, mode), k) == SlotsOf(m, k);
  }

  lemma NtlmFollows(m: Memory, offset: real, op: Op, k: string)
    requires (op.SetNtlm? || op.DropNtlm?) && CacheAt(m, op.id) && CacheAt(m, k) && SlotsOf(m, op.id) == map[]
    ensures EntryAt(After(m, op), offset, k) == Expected(m, offset, op, k)
    ensures CacheAt(After(m, op), k)
  {
    assert SlotsOf(After(m, op), k) == SlotsOf(m, k);
  }

  /** The dictionaries after an operation hold exactly the entry the operation publishes, and every
      other identifier keeps its own; the cache of winners stays right. */
  lemma MemoryFollowsPublication(m: Memory, offset: real, op: Op, k: string)
    requires Consistent(m) && Allowed(m, op)
    ensures EntryAt(After(m, op), offset, k) == Expected(m, offset, op, k)
    ensures CacheAt(After(m, op), k)
  {
    assert CacheAt(m, k);
    if !op.ClearAll? { assert CacheAt(m, op.id); }
    match op
    case Remove(id, mode) => RemoveFollows(m, offset, id, mode, k);
    case Install(id, slot) => InstallFollows(m, offset, id, slot, k);
    case Clear(id) => ClearFollows(m, offset, id, k);
    case Block(id) => BlockFollows(m, offset, id, k);
    case Select(id, mode) => SelectFollows(m, offset, id, mode, k);
    case SetNtlm(_, _, _) => NtlmFollows(m, offset, op, k);
    case DropNtlm(_) => NtlmFollows(m, offset, op, k);
    case ClearAll => assert SlotsOf(NOTHING, k) == map[];
  }

  /** Selecting a mode keeps the cache right exactly when the guard of `Allowed` holds: with the slot
      absent, the current winner must already be the one the default order picks. */
  lemma SelectIsSafeExactlyWhenWinnerStays(m: Memory, id: string, mode: Mode)
    requires Consistent(m)
    ensures Consistent(After(m, Select(id, mode))) <==> SelectKeepsWinner(m, id, mode)
  {
    var n := After(m, Select(id, mode));
    assert CacheAt(m, id);
    if SelectKeepsWinner(m, id, mode) {
      forall k ensures CacheAt(n, k) {
        MemoryFollowsPublication(m, 0.0, Select(id, mode), k);
      }
    } else {
      assert SlotsOf(n, id) == SlotsOf(m, id) && n.credentials == m.credentials;
      assert !CacheAt(n, id);
    }
  }

  /** An NTLM login on an identifier that holds Canvas slots is what the guard forbids: memory would
      serve the login while a restart would serve Canvas. */
  lemma SetNtlmIsSafeExactlyWithoutSlots(m: Memory, id: string, login: Login, identity: nat)
    requires Consistent(m)
    ensures Consistent(After(m, SetNtlm(id, login, identity))) <==> SlotsOf(m, id) == map[]
  {
    var n := After(m, SetNtlm(id, login, identity));
    assert CacheAt(m, id);
    if SlotsOf(m, id) == map[] {
      forall k ensures CacheAt(n, k) {
        MemoryFollowsPublication(m, 0.0, SetNtlm(id, login, identity), k);
      }
    } else {
      assert !CacheAt(n, id);
    }
  }

  /** What that precondition keeps out: PAT preferred and active, OAuth also present, browser mode selected
      without a browser slot. Memory keeps serving the PAT, a restart would serve OAuth. */
  lemma SelectingAnAbsentModeCanDesynchronise()
    ensures var oauth, pat := OAuthSlot("b", "t", "r", 0.0), PatSlot("b", "t");
      var m := Memory(map["c" := Canvas(pat)], map["c" := map[OAuth := oauth, Pat := pat]], map["c" := Pat], {}, map[]);
      && Consistent(m) && OAuth in SlotsOf(m, "c")
      && After(m, Select("c", BrowserSession)).credentials["c"] == Canvas(pat)
      && Best(SlotsOf(m, "c"), BrowserSession) == oauth
  {
    var oauth, pat := OAuthSlot("b", "t", "r", 0.0), PatSlot("b", "t");
    var m := Memory(map["c" := Canvas(pat)], map["c" := map[OAuth := oauth, Pat := pat]], map["c" := Pat], {}, map[]);
    forall id ensures CacheAt(m, id) {
      assert OAuth in m.slots["c"] && Pat in m.slots["c"];
    }
  }

  /** Generations only ever grow, except that `clear_all` forgets them: a generation captured before it
      can come round again. */
  lemma GenerationsGrowExceptOnClearAll(m: Memory, op: Op, id: string, mode: Mode)
    ensures !op.ClearAll? ==> GenerationOf(After(m, op), id, mode) >= GenerationOf(m, id, mode)
    ensures op.ClearAll? ==> GenerationOf(After(m, op), id, mode) == 0
  {
    match op
    case Clear(k) => ClearRaises(m, k, id, mode);
    case Block(k) => ClearRaises(m.(blocked := m.blocked + {k}), k, id, mode);
    case _ =>
  }

  lemma ClearRaises(m: Memory, k: string, id: string, mode: Mode)
    ensures GenerationOf(Cleared(m, k), id, mode)
         == GenerationOf(m, id, mode) + if k == id && mode in SlotsOf(m, id) then 1 else 0
  {
    if k == id && mode !in SlotsOf(m, id) { BumpElsewhere(m, id, SlotsOf(m, id).Keys, mode); }
  }

  /** A slot never appears, changes or disappears without its generation rising, `clear_all` apart: a
      caller that saw a generation and still sees it knows the slot is the one it saw. */
  lemma SlotChangesRaiseGeneration(m: Memory, op: Op, id: string, mode: Mode)
    requires !op.ClearAll? && GenerationOf(After(m, op), id, mode) == GenerationOf(m, id, mode)
    ensures mode in SlotsOf(After(m, op), id) <==> mode in SlotsOf(m, id)
    ensures mode in SlotsOf(m, id) ==> SlotsOf(After(m, op), id)[mode] == SlotsOf(m, id)[mode]
  {
    match op
    case Clear(k) => ClearRaises(m, k, id, mode);
    case Block(k) => ClearRaises(m.(blocked := m.blocked + {k}), k, id, mode);
    case Remove(k, other) => RemovedSlots(m, k, other, id);
    case _ =>
  }

  // Whole runs, with faults and restarts.

  datatype Process = Process(memory: Memory, offset: real, vault: VaultState)

  datatype Event = Do(op: Op, fault: Option<Step>) | Restart(offset: real, generations: map<(string, Mode), nat>)

  function Performed(p: Process, op: Op, fault: Option<Step>): Process {
    p.(memory := if Accepts(p.vault, fault) then After(p.memory, op) else p.memory,
       vault := Written(p.vault, SourceCredentials, Published(p.memory, p.offset, op), fault))
  }

  function OnDisk(p: Process): map<string, Entry> {
    EntriesOf(ReadFrom(p.vault.disk, SourceCredentials))
  }

  /** A new process over the same file; None when it refuses the file and does not start. */
  function Restarted(p: Process, offset: real, generations: map<(string, Mode), nat>): Option<Process> {
    if AllReadable(OnDisk(p)) then
      Some(Process(Restored(OnDisk(p), offset, generations), offset, VaultState(p.vault.disk, false, p.vault.disk)))
    else None
  }

  function Next(p: Process, e: Event): Option<Process> {
    match e
    case Do(op, fault) => Some(Performed(p, op, fault))
    case Restart(offset, generations) => Restarted(p, offset, generations)
  }

  function RunAll(p: Process, events: seq<Event>): Option<Process>
    decreases |events|
  {
    if events == [] then Some(p)
    else
      match Next(p, events[0])
      case None => None
      case Some(q) => RunAll(q, events[1..])
  }

  predicate NonEmptyTexts(op: Op) {
    match op
    case ClearAll => true
    case SetNtlm(id, login, _) => id != "" && login.username != "" && login.password != ""
    case Install(id, slot) => id != "" && TextsPresent(Save(slot, 0.0))
    case _ => op.id != ""
  }

  /** Every operation of the run respects `Allowed` in the state it meets, and carries no empty text. */
  predicate Respectful(p: Process, events: seq<Event>)
    decreases |events|
  {
    events == [] ||
    (&& (events[0].Do? ==> Allowed(p.memory, events[0].op) && NonEmptyTexts(events[0].op))
     && (Next(p, events[0]).Some? ==> Respectful(Next(p, events[0]).value, events[1..])))
  }

  ghost predicate OneKind(entries: map<string, Entry>) {
    forall id :: id in entries ==> entries[id].slots == map[] || entries[id].ntlm.None?
  }

  /** The disk can always be restored, and while the vault is open it says what memory says. */
  ghost predicate Durable(p: Process) {
    && Consistent(p.memory)
    && Coherent(p.vault)
    && AllReadable(OnDisk(p)) && OneKind(OnDisk(p))
    && AllReadable(Snapshot(p.memory, p.offset))
    && (!p.vault.failed ==> forall id :: SavedAt(OnDisk(p), id) == EntryAt(p.memory, p.offset, id))
  }

  lemma PublishedIsReadable(m: Memory, offset: real, op: Op)
    requires Consistent(m) && Allowed(m, op) && NonEmptyTexts(op) && AllReadable(Snapshot(m, offset))
    ensures AllReadable(EntriesOf(Published(m, offset, op)))
  {
    var entries := EntriesOf(Published(m, offset, op));
    forall id | id in entries ensures Readable(id, entries[id]) {
      PublishedAt(m, offset, op, id);
      SnapshotAt(m, offset, id);
      if id in Known(m) { assert Readable(id, Snapshot(m, offset)[id]); }
    }
  }

  lemma PublishedIsOneKind(m: Memory, offset: real, op: Op)
    requires Consistent(m) && Allowed(m, op)
    ensures OneKind(EntriesOf(Published(m, offset, op)))
  {
    var entries := EntriesOf(Published(m, offset, op));
    forall id | id in entries && entries[id].slots != map[] ensures entries[id].ntlm.None? {
      PublishedAt(m, offset, op, id);
      MemoryFollowsPublication(m, offset, op, id);
      SavedSlotsMeanSlots(After(m, op), offset, id);
    }
  }

  lemma MemoryStaysReadable(m: Memory, offset: real, op: Op)
    requires Consistent(m) && Allowed(m, op) && AllReadable(EntriesOf(Published(m, offset, op)))
    ensures AllReadable(Snapshot(After(m, op), offset))
  {
    var after, entries := Snapshot(After(m, op), offset), EntriesOf(Published(m, offset, op));
    forall id | id in after ensures Readable(id, after[id]) {
      PublishedAt(m, offset, op, id);
      MemoryFollowsPublication(m, offset, op, id);
      assert id in entries && entries[id] == after[id];
    }
  }

  lemma SavedSlotsMeanSlots(m: Memory, offset: real, id: string)
    requires SaveAll(SlotsOf(m, id), offset) != map[]
    ensures SlotsOf(m, id) != map[]
  {
  }

  lemma PerformedIsDurable(p: Process, op: Op, fault: Option<Step>)
    requires Durable(p) && Allowed(p.memory, op) && NonEmptyTexts(op)
    ensures Durable(Performed(p, op, fault))
  {
    var q := Performed(p, op, fault);
    PublishedIsReadable(p.memory, p.offset, op);
    PublishedIsOneKind(p.memory, p.offset, op);
    MemoryStaysReadable(p.memory, p.offset, op);
    forall id ensures CacheAt(After(p.memory, op), id) {
      MemoryFollowsPublication(p.memory, p.offset, op, id);
    }
    if Accepts(p.vault, fault) {
      forall id ensures SavedAt(OnDisk(q), id) == EntryAt(q.memory, q.offset, id) {
        PublishedAt(p.memory, p.offset, op, id);
        MemoryFollowsPublication(p.memory, p.offset, op, id);
      }
    }
  }

  lemma RestoredIsReadable(entries: map<string, Entry>, offset: real, generations: map<(string, Mode), nat>)
    requires AllReadable(entries) && OneKind(entries)
    ensures Consistent(Restored(entries, offset, generations))
    ensures AllReadable(Snapshot(Restored(entries, offset, generations), offset))
    ensures forall id :: EntryAt(Restored(entries, offset, generations), offset, id) == SavedAt(entries, id)
  {
    var m := Restored(entries, offset, generations);
    forall id ensures CacheAt(m, id) && EntryAt(m, offset, id) == SavedAt(entries, id) {
      RestoreRoundTrip(entries, offset, generations, id);
    }
    forall id | id in Known(m) ensures Readable(id, Snapshot(m, offset)[id]) {
      SnapshotAt(m, offset, id);
      assert id in entries;
    }
  }

  /** Durability over every run: whatever operations, faults and restarts happen, every restart comes
      up, and memory and disk agree whenever the vault is open. */
  lemma {:induction false} RunsAreDurable(p: Process, events: seq<Event>)
    requires Durable(p) && Respectful(p, events)
    ensures RunAll(p, events).Some?
    ensures Durable(RunAll(p, events).value)
    decreases |events|
  {
    if events != [] {
      match events[0] {
        case Do(op, fault) => PerformedIsDurable(p, op, fault);
        case Restart(offset, generations) => RestoredIsReadable(OnDisk(p), offset, generations);
      }
      RunsAreDurable(Next(p, events[0]).value, events[1..]);
    }
  }

  /** What a caller can observe of the effective credential; expiry is absolute. */
  datatype Effective = NoCredential | UsesNtlm(login: Login) | UsesCanvas(slot: SavedSlot)

  function EffectiveAt(m: Memory, offset: real, id: string): Effective {
    if id !in m.credentials then NoCredential
    else
      match m.credentials[id]
      case Ntlm(login, _) => UsesNtlm(login)
      case Canvas(slot) => UsesCanvas(Save(slot, offset))
  }

  function EffectiveOf(e: Entry): Effective {
    if e.preferred in e.slots then UsesCanvas(e.slots[e.preferred])
    else if OAuth in e.slots then UsesCanvas(e.slots[OAuth])
    else if Pat in e.slots then UsesCanvas(e.slots[Pat])
    else if BrowserSession in e.slots then UsesCanvas(e.slots[BrowserSession])
    else if e.ntlm.Some? then UsesNtlm(e.ntlm.value)
    else NoCredential
  }

  /** The cache of winners is redundant: it is a function of the published entry. */
  lemma EffectiveIsDetermined(m: Memory, offset: real, id: string)
    requires CacheAt(m, id)
    ensures EffectiveAt(m, offset, id) == EffectiveOf(EntryAt(m, offset, id))
  {
    var slots := SlotsOf(m, id);
    if slots != map[] {
      SomeMode(slots);
    }
  }

  /** A restart is invisible: same entries, same effective credential, whatever the new clocks. */
  lemma RestartIsInvisible(p: Process, offset: real, generations: map<(string, Mode), nat>, id: string)
    requires Durable(p) && !p.vault.failed
    ensures Restarted(p, offset, generations).Some?
    ensures var q := Restarted(p, offset, generations).value;
      && EntryAt(q.memory, offset, id) == EntryAt(p.memory, p.offset, id)
      && EffectiveAt(q.memory, offset, id) == EffectiveAt(p.memory, p.offset, id)
  {
    RestoredIsReadable(OnDisk(p), offset, generations);
    var q := Restarted(p, offset, generations).value;
    EffectiveIsDetermined(q.memory, offset, id);
    EffectiveIsDetermined(p.memory, p.offset, id);
  }

  /** A first start: no file, nothing in memory. */
  function FirstStart(offset: real): Process {
    Process(NOTHING, offset, VaultState(map[], false, map[]))
  }

  lemma FirstStartIsDurable(offset: real)
    ensures Durable(FirstStart(offset))
  {
  }

  /** From the first start on: whatever operations, faults and restarts came, the process is there, and
      unless its vault is closed a restart now would show every id the same entry and credential. */
  lemma {:induction false} RestartsAreInvisibleFromTheFirstStart(start: real, events: seq<Event>, offset: real,
      generations: map<(string, Mode), nat>, id: string)
    requires Respectful(FirstStart(start), events)
    ensures RunAll(FirstStart(start), events).Some?
    ensures var p := RunAll(FirstStart(start), events).value;
      !p.vault.failed ==>
        && Restarted(p, offset, generations).Some?
        && var q := Restarted(p, offset, generations).value;
        && EntryAt(q.memory, offset, id) == EntryAt(p.memory, p.offset, id)
        && EffectiveAt(q.memory, offset, id) == EffectiveAt(p.memory, p.offset, id)
  {
    FirstStartIsDurable(start);
    RunsAreDurable(FirstStart(start), events);
    var p := RunAll(FirstStart(start), events).value;
    if !p.vault.failed {
      RestartIsInvisible(p, offset, generations, id);
    }
  }

  /** After an ambiguous fault memory keeps the old state, nothing more is accepted, and the next
      restart finds exactly the operation that was attempted. */
  lemma AmbiguousFaultCommitsAtRestart(p: Process, op: Op, later: Op, fault: Option<Step>,
      offset: real, generations: map<(string, Mode), nat>, id: string)
    requires Durable(p) && !p.vault.failed && Allowed(p.memory, op) && NonEmptyTexts(op)
    ensures var q := Performed(p, op, Some(SyncDirectory));
      && q.memory == p.memory
      && Performed(q, later, fault) == q
      && Restarted(q, offset, generations).Some?
      && EntryAt(Restarted(q, offset, generations).value.memory, offset, id)
        == EntryAt(After(p.memory, op), p.offset, id)
  {
    var q := Performed(p, op, Some(SyncDirectory));
    PerformedIsDurable(p, op, Some(SyncDirectory));
    RestoredIsReadable(OnDisk(q), offset, generations);
    PublishedAt(p.memory, p.offset, op, id);
    MemoryFollowsPublication(p.memory, p.offset, op, id);
  }

  /** Exact precondition of the installers: a login or token with an empty text would be saved, and then the
      next process refuses the whole file; with non-empty texts it never does. The callers supply the guard:
      backend/app/services/auth.py:318-325 and website_access.py:52-61 for logins, canvas_oauth.py:84-89 for
      OAuth tokens; a PAT or a session is installed only once Canvas has accepted it. */
  lemma EmptyTextIsFatalAtRestart(p: Process, op: Op, offset: real, generations: map<(string, Mode), nat>)
    requires Durable(p) && !p.vault.failed && Allowed(p.memory, op)
    ensures Restarted(Performed(p, op, None), offset, generations).Some? <==> NonEmptyTexts(op)
  {
    if NonEmptyTexts(op) {
      PerformedIsDurable(p, op, None);
    } else {
      PublishedAt(p.memory, p.offset, op, op.id);
      var entries := OnDisk(Performed(p, op, None));
      assert op.id in entries;
      if op.Install? {
        assert ModeOf(op.slot) in entries[op.id].slots;
      }
      assert !Readable(op.id, entries[op.id]);
    }
  }
}
