/** backend/app/auth/store.py: what one accepted operation leaves, slot by slot and flag by flag. */
module CredentialEffects {
  import opened Documents
  import opened CredentialMemory

  function SlotAt(m: Memory, id: string, mode: Mode): Option<Slot> {
    if mode in SlotsOf(m, id) then Some(SlotsOf(m, id)[mode]) else None
  }

  function LoginAt(m: Memory, id: string): Option<Active> {
    if id in m.credentials && m.credentials[id].Ntlm? then Some(m.credentials[id]) else None
  }

  ghost predicate SameSlotsBut(a: Memory, b: Memory, id: string, mode: Mode) {
    forall k, other :: (k, other) != (id, mode) ==> SlotAt(b, k, other) == SlotAt(a, k, other)
  }

  /** Nobody else's effective credential moves. */
  ghost predicate OthersServed(a: Memory, b: Memory, id: string) {
    b.credentials - {id} == a.credentials - {id}
  }

  /** The identifier is served from its slots, by its preference first, or not at all. */
  predicate ServedFromSlots(m: Memory, id: string) {
    if SlotsOf(m, id) == map[] then id !in m.credentials
    else
      var best := if SlotAt(m, id, PreferredOf(m, id)).Some? then SlotAt(m, id, PreferredOf(m, id))
                  else if SlotAt(m, id, OAuth).Some? then SlotAt(m, id, OAuth)
                  else if SlotAt(m, id, Pat).Some? then SlotAt(m, id, Pat) else SlotAt(m, id, BrowserSession);
      id in m.credentials && best.Some? && m.credentials[id] == Canvas(best.value)
  }

  ghost predicate Raised(a: Memory, b: Memory, id: string, mode: Mode) {
    forall k, other ::
      GenerationOf(b, k, other) == GenerationOf(a, k, other) + if (k, other) == (id, mode) then 1 else 0
  }

  ghost predicate Installs(a: Memory, b: Memory, id: string, slot: Slot) {
    && SlotAt(b, id, ModeOf(slot)) == Some(slot) && SameSlotsBut(a, b, id, ModeOf(slot))
    && ServedFromSlots(b, id) && OthersServed(a, b, id) && b.preferred == a.preferred
    && Raised(a, b, id, ModeOf(slot))
    && (slot.PatSlot? ==> b.blocked == a.blocked - {id}) && (!slot.PatSlot? ==> b.blocked == a.blocked)
  }

  ghost predicate Removes(a: Memory, b: Memory, id: string, mode: Mode) {
    && SlotAt(b, id, mode) == None && SameSlotsBut(a, b, id, mode)
    && (SlotAt(a, id, mode).Some? ==> ServedFromSlots(b, id))
    && (SlotAt(a, id, mode).None? ==> b.credentials == a.credentials)
    && OthersServed(a, b, id) && b.preferred == a.preferred && Raised(a, b, id, mode)
    && b.blocked == (if mode == Pat then a.blocked + {id} else a.blocked)
  }

  /** Only the preference, and the credential served if its slot is there. */
  ghost predicate Selects(a: Memory, b: Memory, id: string, mode: Mode) {
    && b.(preferred := a.preferred, credentials := a.credentials) == a
    && b.preferred == a.preferred[id := mode] && OthersServed(a, b, id)
    && (SlotAt(a, id, mode).Some? ==> id in b.credentials && b.credentials[id] == Canvas(SlotAt(a, id, mode).value))
    && (SlotAt(a, id, mode).None? ==> b.credentials == a.credentials)
  }

  /** Nothing of `id` is left but its preference, and whether it is `blocked`. */
  ghost predicate Clears(a: Memory, b: Memory, id: string, blocked: bool) {
    && id !in b.credentials && OthersServed(a, b, id) && b.preferred == a.preferred
    && (forall mode :: SlotAt(b, id, mode) == None)
    && (forall k, mode :: k != id ==> SlotAt(b, k, mode) == SlotAt(a, k, mode))
    && (forall k, mode :: GenerationOf(b, k, mode)
          == GenerationOf(a, k, mode) + if k == id && SlotAt(a, k, mode).Some? then 1 else 0)
    && b.blocked == (if blocked then a.blocked + {id} else a.blocked)
  }

  lemma SlotsPresent(slots: map<Mode, Slot>)
    ensures slots == map[] <==> OAuth !in slots && Pat !in slots && BrowserSession !in slots
  {
    if slots != map[] { SomeMode(slots); }
  }

  lemma ActivateServes(m: Memory, id: string)
    ensures ServedFromSlots(Activate(m, id), id)
  {
    assert SlotsOf(Activate(m, id), id) == SlotsOf(m, id);
    SlotsPresent(SlotsOf(m, id));
  }

  lemma InstalledInstalls(m: Memory, id: string, slot: Slot)
    ensures Installs(m, After(m, Install(id, slot)), id, slot)
  {
    var b := After(m, Install(id, slot));
    assert SlotsOf(b, id) == SlotsOf(m, id)[ModeOf(slot) := slot];
    assert ModeOf(slot) == Pat <==> slot.PatSlot?;
    ActivateServes(m.(slots := m.slots[id := SlotsOf(m, id)[ModeOf(slot) := slot]],
      generations := Bumped(m, id, ModeOf(slot)),
      blocked := if ModeOf(slot) == Pat then m.blocked - {id} else m.blocked), id);
  }

  lemma RemovedServes(m: Memory, id: string, mode: Mode)
    ensures var b := Removed(m, id, mode);
      && (SlotAt(m, id, mode).Some? ==> ServedFromSlots(b, id))
      && (SlotAt(m, id, mode).None? ==> b.credentials == m.credentials)
  {
    if mode in SlotsOf(m, id) {
      ActivateServes(m.(generations := Bumped(m, id, mode),
        blocked := if mode == Pat then m.blocked + {id} else m.blocked,
        slots := m.slots[id := m.slots[id] - {mode}]), id);
    }
  }

  lemma RemovedLeaves(m: Memory, id: string, mode: Mode)
    ensures var b := Removed(m, id, mode);
      && SlotAt(b, id, mode) == None && SameSlotsBut(m, b, id, mode)
  {
    forall k ensures SlotsOf(Removed(m, id, mode), k) == if k == id then SlotsOf(m, k) - {mode} else SlotsOf(m, k) {
      RemovedSlots(m, id, mode, k);
    }
  }

  lemma RemovedRemoves(m: Memory, id: string, mode: Mode)
    ensures Removes(m, After(m, Remove(id, mode)), id, mode)
  {
    RemovedServes(m, id, mode);
    RemovedLeaves(m, id, mode);
  }

  lemma SelectedSelects(m: Memory, id: string, mode: Mode)
    ensures Selects(m, After(m, Select(id, mode)), id, mode)
  {
  }

  lemma ClearedClears(m: Memory, id: string)
    ensures Clears(m, Cleared(m, id), id, SlotAt(m, id, Pat).Some?)
  {
    var b := Cleared(m, id);
    forall k ensures SlotsOf(b, k) == if k == id then map[] else SlotsOf(m, k) {}
    forall k, mode ensures GenerationOf(b, k, mode)
        == GenerationOf(m, k, mode) + if k == id && SlotAt(m, k, mode).Some? then 1 else 0 {
      ClearRaises(m, id, k, mode);
    }
  }

  lemma BlockingFirst(m: Memory, marked: Memory, b: Memory, id: string)
    requires marked == m.(blocked := m.blocked + {id}) && Clears(marked, b, id, SlotAt(marked, id, Pat).Some?)
    ensures Clears(m, b, id, true)
  {
    forall k, mode
      ensures SlotAt(marked, k, mode) == SlotAt(m, k, mode)
      ensures GenerationOf(marked, k, mode) == GenerationOf(m, k, mode)
    {
      assert SlotsOf(marked, k) == SlotsOf(m, k);
    }
    assert m.blocked + {id} + {id} == m.blocked + {id};
  }

  lemma BlockedClears(m: Memory, id: string)
    ensures Clears(m, Cleared(m.(blocked := m.blocked + {id}), id), id, true)
  {
    var marked := m.(blocked := m.blocked + {id});
    ClearedClears(marked, id);
    BlockingFirst(m, marked, Cleared(marked, id), id);
  }
}
