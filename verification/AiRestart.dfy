/** What a restart makes of AI readiness: when the stored record can be loaded, and when the next process
    is ready where this one was. */
module AiRestart {
  import opened Documents
  import opened Vault
  import opened AiSettings
  import opened AiReadiness

  /** While the vault is open its record is what memory says. Once it is closed memory cannot change, and
      memory and record do not both hold a verification. */
  predicate RecordFits(s: Secrets) {
    s.vault.Some? ==>
      && Coherent(s.vault.value)
      && (!s.vault.value.failed ==> Stored(s.vault.value) == RecordOf(s.key, s.base, s.verified))
      && (s.vault.value.failed && s.verified.Some? ==> Stored(s.vault.value).verified.None?)
  }

  predicate KeyFits(s: Secrets) {
    && (s.key.Some? ==> PlainText(s.key.value))
    && (s.base == Unset || Supported(s.base))
  }

  /** Probes carry distinct generations, none ahead of the present one, and while a probe of the present
      generation is out nothing is verified. */
  ghost predicate ProbesFit(w: World) {
    && (forall p :: p in w.probes ==> p.identity.generation <= w.secrets.generation)
    && (forall p :: p in w.probes && p.identity.generation == w.secrets.generation ==> w.secrets.verified.None?)
    && (forall p, q :: p in w.probes && q in w.probes && p.identity.generation == q.identity.generation ==> p == q)
  }

  ghost predicate Fits(w: World) {
    RecordFits(w.secrets) && KeyFits(w.secrets) && ProbesFit(w)
  }

  predicate NoStaleKey(w: World) {
    w.secrets.key.Some? ==> w.row.Some? && w.secrets.base == w.row.value.base
  }

  lemma KeySetFits(w: World, key: Option<string>, base: Base, fault: Option<Step>)
    requires Fits(w) && KeyFits(w.secrets.(key := key, base := base))
    ensures Fits(WithSecrets(w, KeySet(w.secrets, key, base, fault)))
  {
  }

  lemma InvalidatedFits(w: World, advance: bool, fault: Option<Step>)
    requires Fits(w)
    ensures Fits(WithSecrets(w, Invalidated(w.secrets, advance, fault)))
  {
  }

  lemma ProbeBegunFits(w: World, fault: Option<Step>)
    requires Fits(w)
    ensures Fits(ProbeBegun(w, fault))
  {
    InvalidatedFits(w, true, fault);
  }

  /** Even a verification that is lost behind the rename fits: nothing was verified before it. */
  lemma ProbeEndedFits(w: World, p: Probe, success: bool, committed: bool, fault: Option<Step>)
    requires Fits(w) && p in w.probes
    ensures Fits(ProbeEnded(w, p, success, committed, fault))
  {
  }

  lemma RestartedFits(w: World)
    requires Fits(w) && Restartable(w.secrets)
    ensures Fits(Restarted(w))
  {
  }

  lemma NextFits(w: World, e: Event)
    requires Fits(w) && Enabled(w, e)
    ensures Fits(Next(w, e))
  {
    match e
    case SaveSettings(base, model, revision, committed, fault) =>
      var edited := Edited(w, Row(base, model, revision));
      KeySetFits(edited, None, Unset, fault);
      InvalidatedFits(edited, false, fault);
    case ImportKey(text, fault) =>
      if w.row.Some? && w.row.value.base.Hosted? && PlainText(text) {
        KeySetFits(w, Some(text), w.row.value.base, fault);
      }
    case ClearKey(fault) => KeySetFits(w, None, Unset, fault);
    case BeginProbe(fault) => ProbeBegunFits(w, fault);
    case EndProbe(p, success, committed, fault) => ProbeEndedFits(w, p, success, committed, fault);
    case Restart => RestartedFits(w);
  }

  lemma {:induction false} RunsFit(w: World, events: seq<Event>)
    requires Fits(w) && AllEnabled(w, events)
    ensures Fits(AiReadiness.Run(w, events))
    decreases |events|
  {
    if events != [] {
      NextFits(w, events[0]);
      RunsFit(Next(w, events[0]), events[1..]);
    }
  }

  /** Over every run from a first start: a process that is ready is ready again after a restart if and only
      if its vault is open and it holds no key for another endpoint. */
  lemma {:induction false} ReadinessSurvivesARestartExactly(vault: Option<VaultState>, events: seq<Event>)
    requires vault.Some? ==> Coherent(vault.value) && Stored(vault.value) == AiRecord(None, Unset, None)
    requires AllEnabled(Start(vault), events)
    ensures var w := AiReadiness.Run(Start(vault), events);
      Ready(w.row, w.secrets) ==>
        ((Restartable(w.secrets) && Ready(Restarted(w).row, Restarted(w).secrets)) <==>
         w.secrets.vault.Some? && !w.secrets.vault.value.failed && NoStaleKey(w))
  {
    RunsFit(Start(vault), events);
  }

  /** The two ways a ready process fails to come back ready: with a key for another endpoint it does not
      start, and without an open vault it starts unready. */
  lemma {:induction false} ReadyOnesThatDoNotComeBack(vault: Option<VaultState>, events: seq<Event>)
    requires vault.Some? ==> Coherent(vault.value) && Stored(vault.value) == AiRecord(None, Unset, None)
    requires AllEnabled(Start(vault), events)
    ensures var w := AiReadiness.Run(Start(vault), events);
      Ready(w.row, w.secrets) && w.secrets.vault.Some? && !w.secrets.vault.value.failed ==>
        (Restartable(w.secrets) <==> NoStaleKey(w))
    ensures var w := AiReadiness.Run(Start(vault), events);
      Ready(w.row, w.secrets) && (w.secrets.vault.None? || w.secrets.vault.value.failed) && Restartable(w.secrets) ==>
        Restarted(w).secrets.verified.None?
  {
    RunsFit(Start(vault), events);
  }

  /** A verification makes the stored record unreadable for the next process exactly when a key for
      another endpoint is still stored beside it. */
  lemma MarkingIsRestartableExactlyWithoutStaleKey(s: Secrets, identity: Identity)
    requires s.vault.Some? && !s.vault.value.failed && identity.generation == s.generation
    requires Supported(identity.config.base) && KeyFits(s)
    ensures Restartable(Marked(s, identity, None)) <==> s.key.None? || s.base == identity.config.base
  {
  }

  /** A key for another endpoint is left behind by a change of endpoint whose clear is not reported done,
      with a fault at any step or a vault already closed, and otherwise only found by a restart behind a
      closed vault. */
  lemma StaleKeysComeFromFailedClears(w: World, e: Event)
    requires Fits(w) && Enabled(w, e) && NoStaleKey(w) && !NoStaleKey(Next(w, e))
    ensures (e.SaveSettings? && e.committed && !SaveWorks(w.secrets, e.fault))
         || (e.Restart? && w.secrets.vault.Some? && w.secrets.vault.value.failed)
  {
  }

  // The inputs.

  function VaultOf(r: AiRecord, failed: bool): VaultState {
    VaultState(map[AiCredential := Ai(r)], failed, map[AiCredential := Ai(r)])
  }

  const KEYED := World(
    Some(Row(Hosted(1), "m", 1)),
    Secrets(Some("k"), Hosted(1), 2, None, Some(VaultOf(AiRecord(Some("k"), Hosted(1), None), false))),
    {}, {}, 1, 1, map[1 := 1])

  lemma ImportingAKey()
    ensures var w0 := Start(Some(VaultState(map[], false, map[])));
      var e1, e2 := SaveSettings(Hosted(1), "m", 1, true, None), ImportKey("k", None);
      Enabled(w0, e1) && Enabled(Next(w0, e1), e2) && Next(Next(w0, e1), e2) == KEYED
  {
    assert PlainText("k") by { assert forall i :: 0 <= i < |"k"| ==> "k"[i] == 'k'; }
    var record := Ai(AiRecord(Some("k"), Hosted(1), None));
    var saved := map[AiCredential := Ai(AiRecord(None, Unset, None))];
    var w1 := Next(Start(Some(VaultState(map[], false, map[]))), SaveSettings(Hosted(1), "m", 1, true, None));
    assert w1.secrets == Secrets(None, Unset, 1, None, Some(VaultState(saved, false, saved)));
    assert saved[AiCredential := record] == map[AiCredential := record];
  }

  /** A stale key, once: behind an imported key for a hosted endpoint, switch to a local one while the
      vault write fails, and probe the local one. Chat is ready, and the next start is refused. */
  lemma AFailedClearCanBlockTheNextStart()
    ensures var e1 := SaveSettings(Local(1), "m", 2, true, Some(Encode));
      var e3 := EndProbe(Probe(Identity(Config(Local(1), "m", 2), 3), None, 2, 1), true, true, None);
      var w1 := Next(KEYED, e1);
      var w2 := Next(w1, BeginProbe(None));
      var w3 := Next(w2, e3);
      && Enabled(KEYED, e1) && Enabled(w1, BeginProbe(None)) && Enabled(w2, e3)
      && Ready(w3.row, w3.secrets) && !Restartable(w3.secrets)
  {
  }

  /** KEYED after its first probe passed. */
  const VERIFIED := World(
    Some(Row(Hosted(1), "m", 1)),
    Secrets(Some("k"), Hosted(1), 3, Some(Identity(Config(Hosted(1), "m", 1), 3)),
      Some(VaultOf(AiRecord(Some("k"), Hosted(1), Some(Config(Hosted(1), "m", 1))), false))),
    {}, {Pass(Config(Hosted(1), "m", 1), Some("k"), 1, 1)}, 1, 1, map[1 := 1])

  lemma VerifyingAKey()
    ensures var p := Probe(Identity(Config(Hosted(1), "m", 1), 3), Some("k"), 1, 1);
      var w1 := Next(KEYED, BeginProbe(None));
      Enabled(KEYED, BeginProbe(None)) && Enabled(w1, EndProbe(p, true, true, None))
      && Next(w1, EndProbe(p, true, true, None)) == VERIFIED
  {
    var p := Probe(Identity(Config(Hosted(1), "m", 1), 3), Some("k"), 1, 1);
    var before, after := AiRecord(Some("k"), Hosted(1), None), VERIFIED.secrets.vault.value.memory[AiCredential].record;
    var w1 := Next(KEYED, BeginProbe(None));
    assert VaultOf(before, false).memory[AiCredential := Ai(before)] == VaultOf(before, false).memory;
    assert w1.secrets == KEYED.secrets.(generation := 3) && w1.probes == {p};
    assert VaultOf(before, false).memory[AiCredential := Ai(after)] == VaultOf(after, false).memory;
  }

  /** A fault behind the rename, once: a further probe cannot report its withdrawal as stored. This process
      stays ready, with the right key and a record that loads, and the next one is not ready. */
  lemma AnAmbiguousWithdrawalLosesReadiness()
    ensures var e := BeginProbe(Some(SyncDirectory));
      var w := Next(VERIFIED, e);
      && Enabled(VERIFIED, e) && Ready(w.row, w.secrets) && NoStaleKey(w) && Restartable(w.secrets)
      && !Ready(Restarted(w).row, Restarted(w).secrets)
  {
    assert PlainText("k") by { assert forall i :: 0 <= i < |"k"| ==> "k"[i] == 'k'; }
  }
}
