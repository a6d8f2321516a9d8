/** backend/app/auth/vault.py: one encrypted file holding every namespace, replaced atomically. */
module Vault {
  import opened Documents

  datatype Namespace = SourceCredentials | ProviderSessions | AiCredential

  type Namespaces = map<Namespace, Document>

  /** Authenticated encryption: only the sealing key recovers the contents. */
  datatype File = Unfinished | Sealed(key: nat, contents: Namespaces)

  datatype FileName = Main | Temporary(n: nat)

  /** The points of `write` at which an exception can strike, in program order. */
  datatype Step = Inspect | Encode | CreateTemporary | FillTemporary | Replace | SyncDirectory

  datatype VaultState = VaultState(memory: Namespaces, failed: bool, disk: Namespaces)

  function ReadFrom(contents: Namespaces, namespace: Namespace): Document {
    if namespace in contents then contents[namespace] else Empty
  }

  /** The file at the vault's path, decrypted; None when it cannot be. */
  function Decode(files: map<FileName, File>, key: nat): Option<Namespaces> {
    if Main !in files then Some(map[])
    else if files[Main].Sealed? && files[Main].key == key then Some(files[Main].contents)
    else None
  }

  /** A write seen from outside: a fault before the rename leaves no trace, one after it leaves
      the new file on disk and closes the vault. */
  function Written(v: VaultState, namespace: Namespace, value: Document, fault: Option<Step>): VaultState {
    if v.failed then v
    else
      match fault
      case None =>
        VaultState(v.memory[namespace := value], false, v.memory[namespace := value])
      case Some(SyncDirectory) =>
        VaultState(v.memory, true, v.memory[namespace := value])
      case Some(_) => v
  }

  predicate Accepts(v: VaultState, fault: Option<Step>) {
    !v.failed && fault.None?
  }

  /** While the vault is open, memory is what the disk decodes to. */
  predicate Coherent(v: VaultState) {
    !v.failed ==> v.memory == v.disk
  }

  datatype Call = Store(namespace: Namespace, value: Document, fault: Option<Step>) | Reopen

  function Called(v: VaultState, c: Call): VaultState {
    match c
    case Store(namespace, value, fault) => Written(v, namespace, value, fault)
    case Reopen => VaultState(v.disk, false, v.disk)
  }

  function Run(v: VaultState, calls: seq<Call>): VaultState
    decreases |calls|
  {
    if calls == [] then v else Run(Called(v, calls[0]), calls[1..])
  }

  /** The writes of a run that reach the rename: none while the vault is closed, and a fault at the
      directory sync closes it until it is reopened. */
  function Reached(calls: seq<Call>, open: bool): seq<(Namespace, Document)> {
    if calls == [] then []
    else
      match calls[0]
      case Reopen => Reached(calls[1..], true)
      case Store(namespace, value, fault) =>
        if !open || (fault.Some? && fault != Some(SyncDirectory)) then Reached(calls[1..], open)
        else [(namespace, value)] + Reached(calls[1..], fault.None?)
  }

  function LastFor(log: seq<(Namespace, Document)>, namespace: Namespace, initial: Document): Document {
    if log == [] then initial
    else if log[|log| - 1].0 == namespace then log[|log| - 1].1
    else LastFor(log[..|log| - 1], namespace, initial)
  }

  lemma {:induction false} LastForCons(first: (Namespace, Document), log: seq<(Namespace, Document)>,
      namespace: Namespace, initial: Document)
    ensures LastFor([first] + log, namespace, initial)
         == LastFor(log, namespace, if first.0 == namespace then first.1 else initial)
  {
    var all := [first] + log;
    if log != [] {
      assert all[..|all| - 1] == [first] + log[..|log| - 1];
      LastForCons(first, log[..|log| - 1], namespace, initial);
    }
  }

  /** Over every run of writes, faults and reopenings, the disk is a register per namespace: it holds
      the last value of that namespace whose write reached the rename, and a write touches no other. */
  lemma {:induction false} DiskHoldsLastReached(v: VaultState, calls: seq<Call>, namespace: Namespace)
    requires Coherent(v)
    ensures Coherent(Run(v, calls))
    ensures ReadFrom(Run(v, calls).disk, namespace)
         == LastFor(Reached(calls, !v.failed), namespace, ReadFrom(v.disk, namespace))
    decreases |calls|
  {
    if calls != [] {
      var next := Called(v, calls[0]);
      DiskHoldsLastReached(next, calls[1..], namespace);
      if calls[0].Store? && Reached(calls, !v.failed) != Reached(calls[1..], !next.failed) {
        LastForCons((calls[0].namespace, calls[0].value), Reached(calls[1..], !next.failed), namespace,
          ReadFrom(v.disk, namespace));
      }
    }
  }

  /** Once closed, no write of any kind gets through before a reopening. */
  lemma {:induction false} ClosedVaultIsFrozen(v: VaultState, calls: seq<Call>)
    requires v.failed && forall i :: 0 <= i < |calls| ==> calls[i].Store?
    ensures Run(v, calls) == v
    decreases |calls|
  {
    if calls != [] {
      ClosedVaultIsFrozen(Called(v, calls[0]), calls[1..]);
    }
  }

  class Directory {
    var files: map<FileName, File>

    constructor ()
      ensures files == map[]
    {
      files := map[];
    }
  }

  class CredentialVault {
    const directory: Directory
    const key: nat
    var memory: Namespaces
    var failed: bool

    ghost predicate Valid()
      reads this, directory
    {
      Decode(directory.files, key).Some? && Coherent(State())
    }

    ghost function State(): VaultState
      reads this, directory
      requires Decode(directory.files, key).Some?
    {
      VaultState(memory, failed, Decode(directory.files, key).value)
    }

    constructor (directory: Directory, key: nat, contents: Namespaces)
      requires Decode(directory.files, key) == Some(contents)
      ensures this.directory == directory && this.key == key && Valid()
      ensures State() == VaultState(contents, false, contents)
    {
      this.directory, this.key := directory, key;
      memory, failed := contents, false;
    }

    /** Opening on a file sealed with another key, or on a damaged one, is refused. */
    static method Open(directory: Directory, key: nat) returns (vault: CredentialVault?)
      ensures vault == null <==> Decode(directory.files, key).None?
      ensures vault != null ==>
        && fresh(vault) && vault.directory == directory && vault.key == key && vault.Valid()
        && vault.State() == VaultState(vault.State().disk, false, Decode(directory.files, key).value)
    {
      vault := null;
      if Main !in directory.files {
        vault := new CredentialVault(directory, key, map[]);
      } else if directory.files[Main].Sealed? && directory.files[Main].key == key {
        vault := new CredentialVault(directory, key, directory.files[Main].contents);
      }
    }

    method Read(namespace: Namespace) returns (r: Option<Document>)
      requires Valid()
      ensures r == if failed then None else Some(ReadFrom(State().disk, namespace))
    {
      if failed {
        return None;
      }
      r := Some(ReadFrom(memory, namespace));
    }

    /** `moments` lists what the disk decoded to after each change to the directory, so it is also
        what a power loss at any instant leaves behind. `unique` is the name mkstemp picks. */
    method Write(namespace: Namespace, value: Document, fault: Option<Step>, unique: nat)
      returns (ok: bool, ghost moments: seq<Option<Namespaces>>)
      requires Valid() && Temporary(unique) !in directory.files
      modifies this, directory
      ensures Valid()
      ensures State() == Written(old(State()), namespace, value, fault)
      ensures ok == Accepts(old(State()), fault)
      ensures ok <==> !old(failed) && fault == None
      ensures memory == if ok then old(memory)[namespace := value] else old(memory)
      ensures failed <==> old(failed) || fault == Some(SyncDirectory)
      ensures State().disk == if ok || (!old(failed) && fault == Some(SyncDirectory))
        then old(memory)[namespace := value] else old(State()).disk
      ensures forall m :: m in moments ==>
        m == Some(old(State()).disk) || m == Some(old(State()).memory[namespace := value])
      ensures directory.files.Keys - {Main} == old(directory.files.Keys) - {Main}
    {
      moments := [Decode(directory.files, key)];
      ok := false;
      if failed || fault == Some(Inspect) {
        return;
      }
      var updated := memory[namespace := value];
      if fault == Some(Encode) || fault == Some(CreateTemporary) {
        return;
      }
      directory.files := directory.files[Temporary(unique) := Unfinished];
      moments := moments + [Decode(directory.files, key)];
      if fault == Some(FillTemporary) {
        directory.files := directory.files - {Temporary(unique)};
        moments := moments + [Decode(directory.files, key)];
        return;
      }
      directory.files := directory.files[Temporary(unique) := Sealed(key, updated)];
      moments := moments + [Decode(directory.files, key)];
      if fault == Some(Replace) {
        directory.files := directory.files - {Temporary(unique)};
        moments := moments + [Decode(directory.files, key)];
        return;
      }
      directory.files := (directory.files - {Temporary(unique)})[Main := Sealed(key, updated)];
      moments := moments + [Decode(directory.files, key)];
      if fault == Some(SyncDirectory) {
        failed := true;
        return;
      }
      memory := updated;
      ok := true;
    }
  }
}
