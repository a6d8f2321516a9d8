/** backend/app/services/ai_settings.py: what has to have happened before AI chat calls itself ready. */
module AiSettings {
  import opened Documents
  import opened Vault

  datatype Row = Row(base: Base, model: string, revision: nat)

  /** The settings row as one process sees it, plus that process's credential generation. */
  datatype Identity = Identity(config: Config, generation: nat)

  datatype Secrets = Secrets(key: Option<string>, base: Base, generation: nat, verified: Option<Identity>,
      vault: Option<VaultState>)

  predicate Supported(b: Base) {
    b.Hosted? || b.Local?
  }

  function ConfigOf(row: Row): Config {
    Config(row.base, row.model, row.revision)
  }

  function KeyFor(s: Secrets, base: Base): Option<string> {
    if s.base == base then s.key else None
  }

  /** `chat_ready`. */
  predicate Ready(row: Option<Row>, s: Secrets) {
    && row.Some? && Supported(row.value.base) && row.value.model != ""
    && (row.value.base.Local? || KeyFor(s, row.value.base).Some?)
    && s.verified == Some(Identity(ConfigOf(row.value), s.generation))
  }

  function RecordOf(key: Option<string>, base: Base, verified: Option<Identity>): AiRecord {
    AiRecord(key, base, if verified.Some? then Some(verified.value.config) else None)
  }

  predicate SaveWorks(s: Secrets, fault: Option<Step>) {
    s.vault.None? || Accepts(s.vault.value, fault)
  }

  function Saving(s: Secrets, record: AiRecord, fault: Option<Step>): Secrets {
    if s.vault.None? then s else s.(vault := Some(Written(s.vault.value, AiCredential, Ai(record), fault)))
  }

  function Invalidated(s: Secrets, advance: bool, fault: Option<Step>): Secrets {
    var saved := Saving(s, RecordOf(s.key, s.base, None), fault);
    if SaveWorks(s, fault) then saved.(verified := None, generation := s.generation + if advance then 1 else 0)
    else saved
  }

  function Marked(s: Secrets, identity: Identity, fault: Option<Step>): Secrets {
    if identity.generation != s.generation then s
    else
      var saved := Saving(s, RecordOf(s.key, s.base, Some(identity)), fault);
      if SaveWorks(s, fault) then saved.(verified := Some(identity)) else saved
  }

  function KeySet(s: Secrets, key: Option<string>, base: Base, fault: Option<Step>): Secrets {
    var saved := Saving(s, RecordOf(key, base, None), fault);
    if SaveWorks(s, fault) then saved.(key := key, base := base, generation := s.generation + 1, verified := None)
    else saved
  }

  /** ASCII without white space, and not empty. */
  predicate PlainText(text: string) {
    text != "" && forall i :: 0 <= i < |text| ==>
      text[i] < '\U{0080}' && text[i] !in " \t\n\U{000B}\U{000C}\r\U{001C}\U{001D}\U{001E}\U{001F}"
  }

  /** The validation at start-up. A stored key must sit next to the endpoint that was verified. */
  predicate Loadable(r: AiRecord) {
    && (r.key.Some? ==> PlainText(r.key.value))
    && (r.base == Unset || Supported(r.base))
    && (r.verified.Some? ==> Supported(r.verified.value.base) && (r.key.Some? ==> r.verified.value.base == r.base))
  }

  function Stored(v: VaultState): AiRecord {
    match ReadFrom(v.disk, AiCredential)
    case Ai(record) => record
    case _ => AiRecord(None, Unset, None)
  }

  predicate Acceptable(vault: VaultState) {
    var d := ReadFrom(vault.disk, AiCredential);
    (d.Empty? || d.Ai?) && Loadable(Stored(vault))
  }

  function Configured(vault: VaultState, generation: nat): Secrets {
    var r := Stored(vault);
    Secrets(r.key, r.base, generation + 1,
      if r.verified.Some? then Some(Identity(r.verified.value, generation + 1)) else None,
      Some(VaultState(vault.disk, false, vault.disk)))
  }

  /** What a record must be for the process to start: a plausible key if any, known endpoints, and a verification
      only of the endpoint the key is for. */
  predicate Starts(r: AiRecord) {
    && (r.key == None || PlainText(r.key.value))
    && (r.base == Unset || r.base.Hosted? || r.base.Local?)
    && (r.verified == None ||
        ((r.verified.value.base.Hosted? || r.verified.value.base.Local?)
         && (r.key == None || r.verified.value.base == r.base)))
  }

  /** AIProbeSecretStore, with the vault on values. */
  class SecretStore {
    var key: Option<string>
    var base: Base
    var generation: nat
    var verified: Option<Identity>
    var vault: CredentialVault?

    ghost function Footprint(): set<object>
      reads this
    {
      if vault == null then {} else {vault, vault.directory}
    }

    ghost predicate Valid()
      reads this, Footprint()
    {
      vault != null ==> vault.Valid()
    }

    ghost function Contents(): Secrets
      reads this, Footprint()
      requires Valid()
    {
      Secrets(key, base, generation, verified, if vault == null then None else Some(vault.State()))
    }

    /** The record on disk. */
    ghost predicate Holds(key: Option<string>, base: Base, verified: Option<Identity>)
      reads this, Footprint()
      requires Valid() && vault != null
    {
      ReadFrom(vault.State().disk, AiCredential)
        == Ai(AiRecord(key, base, if verified.Some? then Some(verified.value.config) else None))
    }

    twostate predicate Remembered()
      reads this
    {
      key == old(key) && base == old(base) && verified == old(verified) && generation == old(generation)
    }

    constructor ()
      ensures Valid() && vault == null && Contents() == Secrets(None, Unset, 0, None, None)
    {
      key, base, generation, verified, vault := None, Unset, 0, None, null;
    }

    method Save(key: Option<string>, base: Base, verified: Option<Identity>, fault: Option<Step>, unique: nat)
      returns (ok: bool)
      requires Valid() && (vault != null ==> Temporary(unique) !in vault.directory.files)
      modifies Footprint()
      ensures Valid() && ok == SaveWorks(old(Contents()), fault)
      ensures Contents() == Saving(old(Contents()), RecordOf(key, base, verified), fault)
      ensures ok && vault != null ==> Holds(key, base, verified)
    {
      ok := true;
      if vault != null {
        ghost var moments;
        ok, moments := vault.Write(AiCredential, Ai(RecordOf(key, base, verified)), fault, unique);
      }
    }

    method InvalidateVerification(advance: bool, fault: Option<Step>, unique: nat) returns (ok: bool)
      requires Valid() && (vault != null ==> Temporary(unique) !in vault.directory.files)
      modifies this, Footprint()
      ensures Valid() && vault == old(vault) && ok == SaveWorks(old(Contents()), fault)
      ensures Contents() == Invalidated(old(Contents()), advance, fault)
      ensures key == old(key) && base == old(base)
      ensures ok ==> verified == None && generation == old(generation) + (if advance then 1 else 0)
      ensures !ok ==> verified == old(verified) && generation == old(generation)
      ensures ok && vault != null ==> Holds(key, base, None)
    {
      ok := Save(key, base, None, fault, unique);
      if ok {
        verified := None;
        if advance {
          generation := generation + 1;
        }
      }
    }

    method MarkVerified(identity: Identity, fault: Option<Step>, unique: nat) returns (ok: bool)
      requires Valid() && (vault != null ==> Temporary(unique) !in vault.directory.files)
      modifies this, Footprint()
      ensures Valid() && vault == old(vault)
      ensures ok == (identity.generation == old(generation) && SaveWorks(old(Contents()), fault))
      ensures Contents() == Marked(old(Contents()), identity, fault)
      ensures key == old(key) && base == old(base) && generation == old(generation)
      ensures verified == if ok then Some(identity) else old(verified)
      ensures ok && vault != null ==> Holds(key, base, Some(identity))
    {
      if identity.generation != generation {
        return false;
      }
      ok := Save(key, base, Some(identity), fault, unique);
      if ok {
        verified := Some(identity);
      }
    }

    /** Refused outright when the text is not a plausible key. */
    method Set(value: string, newBase: Base, fault: Option<Step>, unique: nat) returns (ok: bool)
      requires Valid() && (vault != null ==> Temporary(unique) !in vault.directory.files)
      modifies this, Footprint()
      ensures Valid() && vault == old(vault) && ok == (PlainText(value) && SaveWorks(old(Contents()), fault))
      ensures Contents() == if PlainText(value) then KeySet(old(Contents()), Some(value), newBase, fault)
        else old(Contents())
      ensures ok ==> key == Some(value) && base == newBase && verified == None && generation == old(generation) + 1
      ensures !ok ==> Remembered()
      ensures ok && vault != null ==> Holds(key, base, None)
    {
      if !PlainText(value) {
        return false;
      }
      ok := Save(Some(value), newBase, None, fault, unique);
      if ok {
        key, base, generation, verified := Some(value), newBase, generation + 1, None;
      }
    }

    method Clear(fault: Option<Step>, unique: nat) returns (ok: bool)
      requires Valid() && (vault != null ==> Temporary(unique) !in vault.directory.files)
      modifies this, Footprint()
      ensures Valid() && vault == old(vault) && ok == SaveWorks(old(Contents()), fault)
      ensures Contents() == KeySet(old(Contents()), None, Unset, fault)
      ensures ok ==> key == None && base == Unset && verified == None && generation == old(generation) + 1
      ensures !ok ==> Remembered()
      ensures ok && vault != null ==> Holds(None, Unset, None)
    {
      ok := Save(None, Unset, None, fault, unique);
      if ok {
        key, base, generation, verified := None, Unset, generation + 1, None;
      }
    }

    /** Without a vault the store starts empty; with one, what the vault holds must validate. */
    method ConfigurePersistence(next: CredentialVault?) returns (ok: bool)
      requires Valid() && (next != null ==> next.Valid())
      modifies this
      ensures Valid() && (next != null ==> next.State() == old(next.State()))
      ensures next == null ==> ok && Contents() == Secrets(None, Unset, old(generation) + 1, None, None)
      ensures next != null ==> ok == (!next.failed && Acceptable(next.State()))
      ensures next != null && ok ==> vault == next && Contents() == Configured(next.State(), old(generation))
      ensures next != null ==>
        var d := ReadFrom(next.State().disk, AiCredential);
        ok == (!next.failed && (d.Empty? || (d.Ai? && Starts(d.record))))
      ensures next != null && ok ==>
        var d := ReadFrom(next.State().disk, AiCredential);
        && generation == old(generation) + 1
        && (d.Empty? ==> key == None && base == Unset && verified == None)
        && (d.Ai? ==> key == d.record.key && base == d.record.base
                      && (verified.Some? <==> d.record.verified.Some?)
                      && (verified.Some? ==> verified.value == Identity(d.record.verified.value, generation)))
      ensures !ok ==> vault == old(vault) && key == old(key) && base == old(base)
      ensures !ok ==> generation == old(generation) && verified == old(verified)
    {
      var record := AiRecord(None, Unset, None);
      if next != null {
        var read := next.Read(AiCredential);
        if read.None? || !(read.value.Empty? || read.value.Ai?) {
          return false;
        }
        if read.value.Ai? {
          record := read.value.record;
        }
      }
      if !Loadable(record) {
        return false;
      }
      vault := next;
      key, base := record.key, record.base;
      generation := generation + 1;
      verified := if record.verified.Some? then Some(Identity(record.verified.value, generation)) else None;
      ok := true;
    }
  }
}
