/** Whole runs of the AI settings: edits, key imports, overlapping probes, failing commits and vault
    writes, and restarts, in any order. Readiness is always earned. */
module AiReadiness {
  import opened Documents
  import opened Vault
  import opened AiSettings

  /** A probe between its two critical sections, with the key it sends (None for a local endpoint). The
      two counters are the numbers of settings and credential changes before it began. */
  datatype Probe = Probe(identity: Identity, used: Option<string>, settingsChanges: nat, keyChanges: nat)

  /** A probe the provider answered with success. */
  datatype Pass = Pass(config: Config, used: Option<string>, settingsChanges: nat, keyChanges: nat)

  datatype World = World(
    row: Option<Row>, secrets: Secrets, probes: set<Probe>, passed: set<Pass>,
    settingsChanges: nat, keyChanges: nat, revisions: map<nat, nat>)

  datatype Event =
    | SaveSettings(base: Base, model: string, revision: nat, committed: bool, fault: Option<Step>)
    | ImportKey(text: string, fault: Option<Step>)
    | ClearKey(fault: Option<Step>)
    | BeginProbe(fault: Option<Step>)
    | EndProbe(probe: Probe, success: bool, committed: bool, fault: Option<Step>)
    | Restart

  function InForce(s: Secrets, base: Base): Option<string> {
    if base.Local? then None else KeyFor(s, base)
  }

  /** The new secrets, counting a change of the stored credential. */
  function WithSecrets(w: World, s: Secrets): World {
    w.(secrets := s,
       keyChanges := if s.key == w.secrets.key && s.base == w.secrets.base then w.keyChanges else w.keyChanges + 1)
  }

  predicate Unchanged(row: Option<Row>, base: Base, model: string) {
    row.Some? && row.value.base == base && row.value.model == model
  }

  function Edited(w: World, row: Row): World {
    w.(row := Some(row), settingsChanges := w.settingsChanges + 1,
       revisions := w.revisions[row.revision := w.settingsChanges + 1])
  }

  /** `set_ai_probe_settings`: the row commits first, then the credential is cleared or its
      verification withdrawn, which may fail on its own. */
  function SettingsSaved(w: World, e: Event): World
    requires e.SaveSettings?
  {
    if !e.committed || Unchanged(w.row, e.base, e.model) then w
    else
      var edited := Edited(w, Row(e.base, e.model, e.revision));
      if w.row.None? || w.row.value.base != e.base then WithSecrets(edited, KeySet(w.secrets, None, Unset, e.fault))
      else WithSecrets(edited, Invalidated(w.secrets, false, e.fault))
  }

  predicate Probeable(w: World) {
    && w.row.Some? && Supported(w.row.value.base) && w.row.value.model != ""
    && (w.row.value.base.Local? || KeyFor(w.secrets, w.row.value.base).Some?)
  }

  function ProbeBegun(w: World, fault: Option<Step>): World {
    if !Probeable(w) then w
    else
      var s := Invalidated(w.secrets, true, fault);
      if !SaveWorks(w.secrets, fault) then WithSecrets(w, s)
      else
        WithSecrets(w, s).(probes := w.probes + {
          Probe(Identity(ConfigOf(w.row.value), s.generation), InForce(w.secrets, w.row.value.base), w.settingsChanges,
            w.keyChanges)})
  }

  predicate StillCurrent(w: World, p: Probe) {
    w.row.Some? && p.identity == Identity(ConfigOf(w.row.value), w.secrets.generation)
  }

  function ProbeEnded(w: World, p: Probe, success: bool, committed: bool, fault: Option<Step>): World {
    var pass := Pass(p.identity.config, p.used, p.settingsChanges, p.keyChanges);
    var done := w.(probes := w.probes - {p}, passed := if success then w.passed + {pass} else w.passed);
    if !success || !StillCurrent(w, p) || !committed then done
    else WithSecrets(done, Marked(w.secrets, p.identity, fault))
  }

  predicate Restartable(s: Secrets) {
    s.vault.Some? ==> Loadable(Stored(s.vault.value))
  }

  /** Probes and generations die with the process; the row and the vault file stay. */
  function Restarted(w: World): World {
    WithSecrets(
      w.(probes := {}),
      if w.secrets.vault.Some? then Configured(w.secrets.vault.value, 0) else Secrets(None, Unset, 0, None, None))
  }

  predicate Enabled(w: World, e: Event) {
    match e
    case SaveSettings(base, _, revision, _, _) => Supported(base) && revision !in w.revisions
    case EndProbe(p, _, _, _) => p in w.probes
    case Restart => Restartable(w.secrets)
    case _ => true
  }

  function Next(w: World, e: Event): World {
    match e
    case SaveSettings(_, _, _, _, _) => SettingsSaved(w, e)
    case ImportKey(text, fault) =>
      if w.row.Some? && w.row.value.base.Hosted? && PlainText(text) then
        WithSecrets(w, KeySet(w.secrets, Some(text), w.row.value.base, fault))
      else w
    case ClearKey(fault) => WithSecrets(w, KeySet(w.secrets, None, Unset, fault))
    case BeginProbe(fault) => ProbeBegun(w, fault)
    case EndProbe(p, success, committed, fault) => ProbeEnded(w, p, success, committed, fault)
    case Restart => Restarted(w)
  }

  /** The configuration passed with the key in force, at the present credential count. */
  ghost predicate Earned(w: World, c: Config) {
    exists p :: p in w.passed && p.config == c && p.used == InForce(w.secrets, c.base) && p.keyChanges == w.keyChanges
      && c.revision in w.revisions && w.revisions[c.revision] == p.settingsChanges
  }

  ghost predicate ProbeSound(w: World, p: Probe) {
    && p.identity.generation <= w.secrets.generation
    && (p.identity.generation == w.secrets.generation ==>
          p.keyChanges == w.keyChanges && p.used == InForce(w.secrets, p.identity.config.base))
    && p.identity.config.revision in w.revisions && w.revisions[p.identity.config.revision] == p.settingsChanges
  }

  /** What memory certifies, and what a restart would certify, was earned. */
  ghost predicate Sound(w: World) {
    && (w.row.Some? ==> w.row.value.revision in w.revisions && w.revisions[w.row.value.revision] == w.settingsChanges)
    && (w.secrets.verified.Some? ==> Earned(w, w.secrets.verified.value.config))
    && (w.secrets.vault.Some? && Stored(w.secrets.vault.value).verified.Some? ==>
          var r := Stored(w.secrets.vault.value);
          r.key == w.secrets.key && r.base == w.secrets.base && Earned(w, r.verified.value))
    && (forall p :: p in w.probes ==> ProbeSound(w, p))
  }

  lemma EarnedLasts(w: World, n: World, c: Config)
    requires Earned(w, c) && w.passed <= n.passed && n.keyChanges == w.keyChanges
    requires n.secrets.key == w.secrets.key && n.secrets.base == w.secrets.base
    requires forall r :: r in w.revisions ==> r in n.revisions && n.revisions[r] == w.revisions[r]
    ensures Earned(n, c)
  {
    var p :| p in w.passed && p.config == c && p.used == InForce(w.secrets, c.base) && p.keyChanges == w.keyChanges
      && c.revision in w.revisions && w.revisions[c.revision] == p.settingsChanges;
    assert p in n.passed;
  }

  /** Any change of secrets that withdraws the verification, or changes nothing, is harmless: a vault
      write either stores a record without verification or leaves the file alone. */
  lemma WithdrawingIsSound(w: World, s: Secrets, record: AiRecord, fault: Option<Step>)
    requires Sound(w) && record.verified.None?
    requires s.vault == Saving(w.secrets, record, fault).vault
    requires if SaveWorks(w.secrets, fault) then s.verified.None? && s.generation >= w.secrets.generation
               && (s.generation == w.secrets.generation ==> s.key == w.secrets.key && s.base == w.secrets.base)
             else s.(vault := None) == w.secrets.(vault := None)
    ensures Sound(WithSecrets(w, s))
  {
    var n := WithSecrets(w, s);
    if s.verified.Some? { EarnedLasts(w, n, s.verified.value.config); }
    if s.vault.Some? && Stored(s.vault.value).verified.Some? {
      assert s.vault == w.secrets.vault;
      EarnedLasts(w, n, Stored(s.vault.value).verified.value);
    }
  }

  lemma EditingTheRowIsSound(w: World, row: Row)
    requires Sound(w) && row.revision !in w.revisions
    ensures Sound(Edited(w, row))
  {
    var n := Edited(w, row);
    if w.secrets.verified.Some? { EarnedLasts(w, n, w.secrets.verified.value.config); }
    if w.secrets.vault.Some? && Stored(w.secrets.vault.value).verified.Some? {
      EarnedLasts(w, n, Stored(w.secrets.vault.value).verified.value);
    }
    forall p | p in n.probes ensures ProbeSound(n, p) {
      assert ProbeSound(w, p);
    }
  }

  lemma ClearingIsSound(w: World, fault: Option<Step>)
    requires Sound(w)
    ensures Sound(WithSecrets(w, KeySet(w.secrets, None, Unset, fault)))
  {
    WithdrawingIsSound(w, KeySet(w.secrets, None, Unset, fault), RecordOf(None, Unset, None), fault);
  }

  lemma InvalidatingIsSound(w: World, advance: bool, fault: Option<Step>)
    requires Sound(w)
    ensures Sound(WithSecrets(w, Invalidated(w.secrets, advance, fault)))
  {
    WithdrawingIsSound(w, Invalidated(w.secrets, advance, fault), RecordOf(w.secrets.key, w.secrets.base, None), fault);
  }

  lemma SettingsSavedIsSound(w: World, e: Event)
    requires Sound(w) && e.SaveSettings? && Enabled(w, e)
    ensures Sound(SettingsSaved(w, e))
  {
    if e.committed && !Unchanged(w.row, e.base, e.model) {
      var edited := Edited(w, Row(e.base, e.model, e.revision));
      EditingTheRowIsSound(w, Row(e.base, e.model, e.revision));
      if w.row.None? || w.row.value.base != e.base {
        ClearingIsSound(edited, e.fault);
      } else {
        InvalidatingIsSound(edited, false, e.fault);
      }
    }
  }

  lemma ProbeBegunIsSound(w: World, fault: Option<Step>)
    requires Sound(w)
    ensures Sound(ProbeBegun(w, fault))
  {
    if Probeable(w) {
      var s := Invalidated(w.secrets, true, fault);
      InvalidatingIsSound(w, true, fault);
      var n := ProbeBegun(w, fault);
      if SaveWorks(w.secrets, fault) {
        forall p | p in n.probes ensures ProbeSound(n, p) {
          if p in w.probes { assert ProbeSound(WithSecrets(w, s), p); }
        }
      }
    }
  }

  /** The heart of the matter: a probe may mark only if its generation is still current, and then no
      credential changed since it began. */
  lemma MarkingIsSound(w: World, p: Probe, fault: Option<Step>)
    requires Sound(w) && StillCurrent(w, p) && p.identity.generation == w.secrets.generation
    requires Earned(w, p.identity.config)
    ensures Sound(WithSecrets(w, Marked(w.secrets, p.identity, fault)))
  {
    var n := WithSecrets(w, Marked(w.secrets, p.identity, fault));
    EarnedLasts(w, n, p.identity.config);
    if w.secrets.verified.Some? { EarnedLasts(w, n, w.secrets.verified.value.config); }
    if w.secrets.vault.Some? && Stored(w.secrets.vault.value).verified.Some? {
      EarnedLasts(w, n, Stored(w.secrets.vault.value).verified.value);
    }
  }

  lemma ProbeEndedIsSound(w: World, p: Probe, success: bool, committed: bool, fault: Option<Step>)
    requires Sound(w) && p in w.probes
    ensures Sound(ProbeEnded(w, p, success, committed, fault))
  {
    var pass := Pass(p.identity.config, p.used, p.settingsChanges, p.keyChanges);
    var done := w.(probes := w.probes - {p}, passed := if success then w.passed + {pass} else w.passed);
    if w.secrets.verified.Some? { EarnedLasts(w, done, w.secrets.verified.value.config); }
    if w.secrets.vault.Some? && Stored(w.secrets.vault.value).verified.Some? {
      EarnedLasts(w, done, Stored(w.secrets.vault.value).verified.value);
    }
    forall q | q in done.probes ensures ProbeSound(done, q) {
      assert ProbeSound(w, q);
    }
    if success && StillCurrent(w, p) && committed {
      assert ProbeSound(w, p) && pass in done.passed;
      MarkingIsSound(done, p, fault);
    }
  }

  lemma RestartedIsSound(w: World)
    requires Sound(w) && Restartable(w.secrets)
    ensures Sound(Restarted(w))
  {
    if w.secrets.vault.Some? && Stored(w.secrets.vault.value).verified.Some? {
      EarnedLasts(w, Restarted(w), Stored(w.secrets.vault.value).verified.value);
    }
  }

  lemma NextIsSound(w: World, e: Event)
    requires Sound(w) && Enabled(w, e)
    ensures Sound(Next(w, e))
  {
    match e
    case SaveSettings(_, _, _, _, _) => SettingsSavedIsSound(w, e);
    case ImportKey(text, fault) =>
      if w.row.Some? && w.row.value.base.Hosted? && PlainText(text) {
        WithdrawingIsSound(w, KeySet(w.secrets, Some(text), w.row.value.base, fault),
          RecordOf(Some(text), w.row.value.base, None), fault);
      }
    case ClearKey(fault) => ClearingIsSound(w, fault);
    case BeginProbe(fault) => ProbeBegunIsSound(w, fault);
    case EndProbe(p, success, committed, fault) => ProbeEndedIsSound(w, p, success, committed, fault);
    case Restart => RestartedIsSound(w);
  }

  predicate AllEnabled(w: World, events: seq<Event>)
    decreases |events|
  {
    events == [] || (Enabled(w, events[0]) && AllEnabled(Next(w, events[0]), events[1..]))
  }

  function Run(w: World, events: seq<Event>): World
    decreases |events|
  {
    if events == [] then w else Run(Next(w, events[0]), events[1..])
  }

  lemma {:induction false} RunsAreSound(w: World, events: seq<Event>)
    requires Sound(w) && AllEnabled(w, events)
    ensures Sound(Run(w, events))
    decreases |events|
  {
    if events != [] {
      NextIsSound(w, events[0]);
      RunsAreSound(Next(w, events[0]), events[1..]);
    }
  }

  /** A first start: no settings row, and no AI namespace in the vault, if there is a vault. */
  function Start(vault: Option<VaultState>): World {
    World(None, Secrets(None, Unset, 0, None, vault), {}, {}, 0, 0, map[])
  }

  /** Whenever chat calls itself ready, a probe of exactly the present endpoint, model and key
      succeeded, and neither settings nor credential changed since that probe began. */
  lemma {:induction false} ReadinessIsEarned(vault: Option<VaultState>, events: seq<Event>)
    requires vault.Some? ==> Stored(vault.value).verified.None?
    requires AllEnabled(Start(vault), events)
    ensures var w := Run(Start(vault), events);
      Ready(w.row, w.secrets) ==>
        exists p :: p in w.passed && p.config == ConfigOf(w.row.value) && p.used == InForce(w.secrets, w.row.value.base)
          && p.settingsChanges == w.settingsChanges && p.keyChanges == w.keyChanges
  {
    RunsAreSound(Start(vault), events);
    var w := Run(Start(vault), events);
    if Ready(w.row, w.secrets) {
      var c := ConfigOf(w.row.value);
      assert Earned(w, c);
    }
  }

  // What each event does, said of the row and the secrets.

  predicate VaultTakes(s: Secrets, fault: Option<Step>) {
    s.vault.None? || (!s.vault.value.failed && fault.None?)
  }

  /** Key, endpoint, generation and verification as they were. */
  predicate Remembers(a: Secrets, b: Secrets) {
    b.key == a.key && b.base == a.base && b.generation == a.generation && b.verified == a.verified
  }

  /** A committed save puts exactly its endpoint and model in force, under a new revision unless both already
      were; a change withdraws the verification, and a change of endpoint takes the key, if the vault takes it. */
  lemma SavedSettingsAreInForce(w: World, e: Event)
    requires e.SaveSettings?
    ensures var n := Next(w, e);
      var same := w.row.Some? && w.row.value.base == e.base && w.row.value.model == e.model;
      var moved := w.row.None? || w.row.value.base != e.base;
      && n.probes == w.probes && n.passed == w.passed
      && (!e.committed ==> n == w)
      && (e.committed ==> n.row == Some(Row(e.base, e.model, if same then w.row.value.revision else e.revision)))
      && (e.committed && same ==> n == w)
      && (e.committed && !same && VaultTakes(w.secrets, e.fault) ==>
            && n.secrets.verified.None?
            && (moved ==> n.secrets.key.None? && n.secrets.base == Unset
                          && n.secrets.generation == w.secrets.generation + 1)
            && (!moved ==> n.secrets.key == w.secrets.key && n.secrets.base == w.secrets.base
                           && n.secrets.generation == w.secrets.generation))
      && (e.committed && !VaultTakes(w.secrets, e.fault) ==> Remembers(w.secrets, n.secrets))
  {
  }

  /** A plausible key for the hosted endpoint in force is taken, and withdraws the verification. */
  lemma ImportedKeyIsInForce(w: World, text: string, fault: Option<Step>)
    ensures var n := Next(w, ImportKey(text, fault));
      var taken := w.row.Some? && w.row.value.base.Hosted? && PlainText(text) && VaultTakes(w.secrets, fault);
      && n.row == w.row && n.probes == w.probes
      && (taken ==> n.secrets.key == Some(text) && n.secrets.base == w.row.value.base
                    && n.secrets.verified.None? && n.secrets.generation == w.secrets.generation + 1)
      && (!taken ==> Remembers(w.secrets, n.secrets))
  {
  }

  lemma ClearedKeyIsGone(w: World, fault: Option<Step>)
    ensures var n := Next(w, ClearKey(fault));
      && n.row == w.row && n.probes == w.probes
      && (VaultTakes(w.secrets, fault) ==>
            && n.secrets.key.None? && n.secrets.base == Unset && n.secrets.verified.None?
            && n.secrets.generation == w.secrets.generation + 1)
      && (!VaultTakes(w.secrets, fault) ==> Remembers(w.secrets, n.secrets))
  {
  }

  /** Settings that can be probed at all: a supported endpoint, a model, and a key unless it is local. */
  predicate Complete(w: World) {
    && w.row.Some? && (w.row.value.base.Hosted? || w.row.value.base.Local?) && w.row.value.model != ""
    && (w.row.value.base.Hosted? ==> w.secrets.base == w.row.value.base && w.secrets.key.Some?)
  }

  /** A probe of complete settings starts with the key in force and one generation further, and withdraws the
      verification; any other attempt changes nothing. */
  lemma BegunProbeIsCurrent(w: World, fault: Option<Step>)
    ensures var n := Next(w, BeginProbe(fault));
      && n.row == w.row && n.secrets.key == w.secrets.key && n.secrets.base == w.secrets.base
      && (Complete(w) && VaultTakes(w.secrets, fault) ==>
            && n.secrets.verified.None? && n.secrets.generation == w.secrets.generation + 1
            && n.probes == w.probes + {Probe(
                 Identity(Config(w.row.value.base, w.row.value.model, w.row.value.revision), n.secrets.generation),
                 if w.row.value.base.Local? then None else w.secrets.key, w.settingsChanges, w.keyChanges)})
      && (!Complete(w) || !VaultTakes(w.secrets, fault) ==>
            Remembers(w.secrets, n.secrets) && n.probes == w.probes)
  {
  }

  /** A probe that comes back verifies the settings exactly if it passed, its commit and vault write went through,
      and settings and generation are still the ones it was sent with. */
  lemma EndedProbeVerifies(w: World, p: Probe, success: bool, committed: bool, fault: Option<Step>)
    ensures var n := Next(w, EndProbe(p, success, committed, fault));
      var current := w.row.Some? && p.identity.generation == w.secrets.generation
        && p.identity.config == Config(w.row.value.base, w.row.value.model, w.row.value.revision);
      && n.row == w.row && n.probes == w.probes - {p}
      && (success && committed && current && VaultTakes(w.secrets, fault) ==>
            && n.secrets.verified == Some(p.identity) && n.secrets.generation == w.secrets.generation
            && n.secrets.key == w.secrets.key && n.secrets.base == w.secrets.base)
      && (!(success && committed && current && VaultTakes(w.secrets, fault)) ==> Remembers(w.secrets, n.secrets))
  {
  }

  /** Readiness can be had: complete settings are ready after one probe that passes, whatever came before. */
  lemma APassingProbeMakesReady(w: World)
    requires Complete(w) && VaultTakes(w.secrets, None)
    ensures var used := if w.row.value.base.Local? then None else w.secrets.key;
      var p := Probe(Identity(Config(w.row.value.base, w.row.value.model, w.row.value.revision),
        w.secrets.generation + 1), used, w.settingsChanges, w.keyChanges);
      var begun := Next(w, BeginProbe(None));
      && Enabled(begun, EndProbe(p, true, true, None))
      && var done := Next(begun, EndProbe(p, true, true, None));
      && Ready(done.row, done.secrets)
  {
    BegunProbeIsCurrent(w, None);
    var used := if w.row.value.base.Local? then None else w.secrets.key;
    var p := Probe(Identity(Config(w.row.value.base, w.row.value.model, w.row.value.revision),
      w.secrets.generation + 1), used, w.settingsChanges, w.keyChanges);
    var begun := Next(w, BeginProbe(None));
    assert p in begun.probes;
    EndedProbeVerifies(begun, p, true, true, None);
  }

  /** What the record counts: every change of the row or of the stored credential, and the passes of probes that
      were answered with success, each with the counts from before it began. */
  lemma EventsAreCounted(w: World, e: Event)
    ensures var n := Next(w, e);
      && n.settingsChanges == w.settingsChanges + (if n.row != w.row then 1 else 0)
      && n.keyChanges == w.keyChanges
           + (if n.secrets.key != w.secrets.key || n.secrets.base != w.secrets.base then 1 else 0)
      && n.revisions == (if n.row != w.row then w.revisions[n.row.value.revision := n.settingsChanges]
                         else w.revisions)
      && n.passed == (if e.EndProbe? && e.success then
                        w.passed + {Pass(e.probe.identity.config, e.probe.used, e.probe.settingsChanges,
                          e.probe.keyChanges)}
                      else w.passed)
  {
  }
}
