/** backend/app/auth/provider_sessions.py: browser sessions guarded by a generation per key. */
module ProviderSessionStore {
  import opened Documents
  import opened Vault

  datatype SessionState = SessionState(values: map<string, ProviderSession>, generations: map<string, nat>)

  function GenerationOf(s: SessionState, key: string): nat {
    if key in s.generations then s.generations[key] else 0
  }

  function ValueOf(s: SessionState, key: string): Option<ProviderSession> {
    if key in s.values then Some(s.values[key]) else None
  }

  function Put(s: SessionState, key: string, value: ProviderSession): SessionState {
    SessionState(s.values[key := value], s.generations[key := GenerationOf(s, key) + 1])
  }

  function Dropped(s: SessionState, key: string): SessionState {
    SessionState(s.values - {key}, s.generations[key := GenerationOf(s, key) + 1])
  }

  predicate KnownProvider(value: ProviderSession) {
    value.provider == "gradescope" || value.provider == "prairielearn"
  }

  predicate Loadable(key: string, value: ProviderSession) {
    key != "" && KnownProvider(value) && value.baseUrl != ""
  }

  function Saved(d: Document): map<string, ProviderSession> {
    if d.Sessions? then d.sessions else map[]
  }

  predicate AllLoadable(d: Document) {
    !d.Credentials? && !d.Ai? && forall key :: key in Saved(d) ==> Loadable(key, Saved(d)[key])
  }

  datatype SetOutcome = Stored | Stale | VaultFailed

  class Store {
    var values: map<string, ProviderSession>
    var generations: map<string, nat>
    var vault: CredentialVault?

    ghost function Footprint(): set<object>
      reads this
    {
      if vault == null then {} else {vault, vault.directory}
    }

    /** While the vault is open its namespace is exactly the sessions in memory. */
    ghost predicate Valid()
      reads this, Footprint()
    {
      vault != null ==>
        vault.Valid() && (!vault.failed ==> Saved(ReadFrom(vault.State().disk, ProviderSessions)) == values)
    }

    function Contents(): SessionState
      reads this
    {
      SessionState(values, generations)
    }

    constructor ()
      ensures Valid() && vault == null && Contents() == SessionState(map[], map[])
    {
      values, generations, vault := map[], map[], null;
    }

    /** Loading validates every entry first; generations restart at arbitrary positive numbers. */
    method ConfigurePersistence(next: CredentialVault?, draw: string -> nat) returns (ok: bool)
      requires Valid()
      requires next != null ==> next.Valid()
      modifies this
      ensures Valid()
      ensures next == null ==> ok && values == map[] && vault == null
      ensures next != null ==>
        ok == (!next.failed && AllLoadable(ReadFrom(next.State().disk, ProviderSessions)))
      ensures next != null ==>
        var d := ReadFrom(next.State().disk, ProviderSessions);
        ok == (!next.failed && (d.Empty? || (d.Sessions? && forall key :: key in d.sessions ==>
          key != "" && d.sessions[key].provider in ["gradescope", "prairielearn"] && d.sessions[key].baseUrl != "")))
      ensures next != null && ok ==> vault == next && values == Saved(ReadFrom(next.State().disk, ProviderSessions))
      ensures ok ==> generations.Keys == values.Keys && forall key :: key in generations ==> generations[key] > 0
      ensures !ok ==> vault == old(vault) && Contents() == old(Contents())
      ensures next != null ==> next.State() == old(next.State())
    {
      var loaded: map<string, ProviderSession> := map[];
      if next != null {
        var read := next.Read(ProviderSessions);
        if read.None? || read.value.Credentials? || read.value.Ai? {
          return false;
        }
        loaded := Saved(read.value);
        var unchecked := loaded.Keys;
        while unchecked != {}
          invariant unchecked <= loaded.Keys
          invariant forall key :: key in loaded && key !in unchecked ==> Loadable(key, loaded[key])
          decreases |unchecked|
        {
          var key :| key in unchecked;
          if !Loadable(key, loaded[key]) {
            return false;
          }
          unchecked := unchecked - {key};
        }
      }
      vault := next;
      values := loaded;
      generations := map key | key in loaded :: draw(key) + 1;
      ok := true;
    }

    function Generation(key: string): nat
      reads this
    {
      if key in generations then generations[key] else 0
    }

    method RemoveMemory(key: string)
      modifies `values, `generations
      ensures Contents() == Dropped(old(Contents()), key)
    {
      values := values - {key};
      generations := generations[key := Generation(key) + 1];
    }

    /** Compare and set: the write happens only at the generation the caller saw. */
    method Set(key: string, value: ProviderSession, expected: nat, fault: Option<Step>, unique: nat)
      returns (r: SetOutcome)
      requires Valid() && (vault != null ==> Temporary(unique) !in vault.directory.files)
      modifies this, Footprint()
      ensures Valid() && vault == old(vault)
      ensures r == if old(Generation(key)) != expected then Stale
                   else if vault == null || Accepts(old(vault.State()), fault) then Stored else VaultFailed
      ensures Contents() == if r.Stored? then Put(old(Contents()), key, value) else old(Contents())
      ensures r.Stale? && vault != null ==> vault.State() == old(vault.State())
      ensures r.Stale? <==> old(Generation(key)) != expected
      ensures r.VaultFailed? ==> vault != null && (old(vault.failed) || fault != None)
      ensures r.Stored? ==> vault == null || (!old(vault.failed) && fault == None)
      ensures values == if r.Stored? then old(values)[key := value] else old(values)
      ensures generations == if r.Stored? then old(generations)[key := old(Generation(key)) + 1] else old(generations)
    {
      if Generation(key) != expected {
        return Stale;
      }
      if vault != null {
        ghost var moments;
        var ok;
        ok, moments := vault.Write(ProviderSessions, Sessions(values[key := value]), fault, unique);
        if !ok {
          return VaultFailed;
        }
      }
      RemoveMemory(key);
      values := values[key := value];
      r := Stored;
      assert values == old(values)[key := value];
    }

    method Remove(key: string, fault: Option<Step>, unique: nat) returns (ok: bool)
      requires Valid() && (vault != null ==> Temporary(unique) !in vault.directory.files)
      modifies this, Footprint()
      ensures Valid() && vault == old(vault)
      ensures ok == (vault == null || Accepts(old(vault.State()), fault))
      ensures Contents() == if ok then Dropped(old(Contents()), key) else old(Contents())
      ensures ok <==> vault == null || (!old(vault.failed) && fault == None)
      ensures values == if ok then old(values) - {key} else old(values)
      ensures generations == if ok then old(generations)[key := old(Generation(key)) + 1] else old(generations)
    {
      ok := true;
      if vault != null {
        ghost var moments;
        ok, moments := vault.Write(ProviderSessions, Sessions(values - {key}), fault, unique);
      }
      if ok {
        RemoveMemory(key);
      }
    }
  }
}
