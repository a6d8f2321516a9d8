/** backend/hotfix_sync.py, `store_observation`: partial assignment responses over a whole history of one
    item. The chain is a register of the last value each field was known to have. */
module LastKnown {
  import opened Documents
  import opened Observations

  /** What the hash sees of field `k`. */
  function Shown(fields: Fields, k: Field, file: bool): Option<Json> {
    if k in fields && !Ignored(k, file) then Some(Scrub(fields[k], file)) else None
  }

  ghost predicate SameShown(f: Fields, g: Fields, file: bool) {
    forall k :: Shown(f, k, file) == Shown(g, k, file)
  }

  lemma ScrubShows(f: Fields, k: Field, file: bool)
    ensures Look(ScrubFields(f, file), k) == Shown(f, k, file)
  {
  }

  lemma SameShownScrubsAlike(f: Fields, g: Fields, file: bool)
    ensures ScrubFields(f, file) == ScrubFields(g, file) <==> SameShown(f, g, file)
  {
    var a, b := ScrubFields(f, file), ScrubFields(g, file);
    forall k ensures Look(a, k) == Shown(f, k, file) && Look(b, k) == Shown(g, k, file) {
      ScrubShows(f, k, file);
      ScrubShows(g, k, file);
    }
    if SameShown(f, g, file) {
      forall k ensures (k in a <==> k in b) && (k in a ==> a[k] == b[k]) {
        assert Shown(f, k, file) == Shown(g, k, file);
      }
    }
  }

  lemma {:induction false} DeadlineTaken(fields: Fields, prior: Fields, n: nat, k: Field)
    requires n <= |DEADLINE|
    ensures Look(WithDeadline(fields, prior, n), k) == if k in DEADLINE[..n] && k in prior then Some(prior[k])
      else Look(fields, k)
  {
    if n > 0 {
      DeadlineTaken(fields, prior, n - 1, k);
      assert DEADLINE[..n] == DEADLINE[..n - 1] + [DEADLINE[n - 1]];
    }
  }

  lemma {:induction false} NothingKept(prior: Fields, n: nat, k: Field)
    requires n <= |DEADLINE| && KeptDeadline(prior, n) == []
    ensures k in DEADLINE[..n] ==> k !in prior
  {
    if n > 0 {
      NothingKept(prior, n - 1, k);
      assert DEADLINE[..n] == DEADLINE[..n - 1] + [DEADLINE[n - 1]];
    }
  }

  lemma DeadlineFields(k: Field)
    ensures k in DEADLINE[..|DEADLINE|] <==> IsDeadline(k)
  {
    assert DEADLINE[0] == DueAt && DEADLINE[1] == DueDateLocal && DEADLINE[2] == DeadlinePrecision;
    assert DEADLINE[3] == DeadlineTimezone && DEADLINE[4] == SourceDeadlineText && DEADLINE[5] == DeadlineSourceRank;
    assert DEADLINE[..|DEADLINE|] == DEADLINE;
  }

  /** Merging takes a field from the last snapshot exactly when the response lacks it and the snapshot has it. */
  lemma MergedField(raw: Raw, prior: Snapshot, k: Field)
    requires k != DescriptionState && k != DueAtState && k != RetainedFields
    ensures Look(Merged(raw, prior).fields, k) == if Keeps(raw.fields, prior.fields, k) then Some(prior.fields[k])
      else Look(raw.fields, k)
  {
    DeadlineFields(k);
    if KeptNames(raw.fields, prior.fields) == [] {
      if LacksDeadline(raw.fields) { NothingKept(prior.fields, |DEADLINE|, k); }
    } else {
      DeadlineTaken(LabelledDescription(raw.fields, prior.fields), prior.fields, |DEADLINE|, k);
    }
  }

  lemma {:induction false} KeptDeadlineIs(prior: Fields, n: nat, k: Field)
    requires n <= |DEADLINE|
    ensures k in KeptDeadline(prior, n) <==> k in DEADLINE[..n] && k in prior
  {
    if n > 0 {
      KeptDeadlineIs(prior, n - 1, k);
      assert DEADLINE[..n] == DEADLINE[..n - 1] + [DEADLINE[n - 1]];
    }
  }

  lemma KeptNamesAre(fields: Fields, prior: Fields, k: Field)
    ensures k in KeptNames(fields, prior) <==> Lacks(fields, k) && k in prior
  {
    DeadlineFields(k);
    KeptDeadlineIs(prior, |DEADLINE|, k);
  }

  lemma {:induction false} LabelsPassTheDeadline(fields: Fields, prior: Fields, k: Field)
    requires !IsDeadline(k)
    ensures Look(WithDeadline(fields, prior, |DEADLINE|), k) == Look(fields, k)
  {
    DeadlineFields(k);
    DeadlineTaken(fields, prior, |DEADLINE|, k);
  }

  /** The labels of a merged response: description and due date are marked as retained exactly when they are, and
      the fields retained are listed by name. */
  lemma MergedLabels(raw: Raw, prior: Snapshot)
    ensures var m, names := Merged(raw, prior), KeptNames(raw.fields, prior.fields);
      && m.id == raw.id && m.kind == raw.kind && (names == [] ==> m == raw)
      && (names != [] ==>
            && RetainedFields in m.fields && m.fields[RetainedFields].List?
            && |m.fields[RetainedFields].items| == |names|
            && forall i :: 0 <= i < |names| ==> m.fields[RetainedFields].items[i] == Text(NameOf(names[i])))
    ensures Look(Merged(raw, prior).fields, DescriptionState)
      == if LacksDescription(raw.fields) && Description in prior.fields then Some(Text("retained"))
         else Look(raw.fields, DescriptionState)
    ensures Look(Merged(raw, prior).fields, DueAtState)
      == if LacksDeadline(raw.fields) && DueAt in prior.fields then Some(Text("retained"))
         else Look(raw.fields, DueAtState)
  {
    var described := LabelledDescription(raw.fields, prior.fields);
    KeptNamesAre(raw.fields, prior.fields, Description);
    KeptNamesAre(raw.fields, prior.fields, DueAt);
    LabelsPassTheDeadline(described, prior.fields, DescriptionState);
    LabelsPassTheDeadline(described, prior.fields, DueAtState);
  }

  lemma MergedText(raw: Raw, prior: Snapshot)
    ensures Merged(raw, prior).text == if Keeps(raw.fields, prior.fields, Description) then prior.text else raw.text
  {
  }

  /** What a response makes known of field `k` to a reader who knew `before`. */
  function Learned(before: Option<Json>, raw: Raw, k: Field): Option<Json> {
    if Lacks(raw.fields, k) && before.Some? then before else Shown(raw.fields, k, false)
  }

  function LearnedText(before: string, described: bool, raw: Raw): string {
    if LacksDescription(raw.fields) && described then before else raw.text
  }

  lemma MergedIsLearned(raw: Raw, prior: Snapshot, k: Field)
    ensures Shown(Merged(raw, prior).fields, k, false) == Learned(Shown(prior.fields, k, false), raw, k)
  {
    if !Ignored(k, false) {
      MergedField(raw, prior, k);
    }
  }

  /** A response brings nothing new exactly when everything it does speak for is as it was. */
  lemma NothingNewExactly(item: Item, raw: Raw, src: Source)
    requires ChainSound(item) && Merges(item, raw, src) && item.kind == Assignment
    ensures Unchanged(Some(item), raw, src) <==>
      && (forall k :: Learned(Shown(item.Latest().fields, k, false), raw, k) == Shown(item.Latest().fields, k, false))
      && LearnedText(item.Latest().text, Description in item.Latest().fields, raw) == item.Latest().text
  {
    var prior := item.Latest();
    var merged := Merged(raw, prior);
    MergedText(raw, prior);
    forall k ensures Shown(merged.fields, k, false) == Learned(Shown(prior.fields, k, false), raw, k) {
      MergedIsLearned(raw, prior, k);
    }
    SameShownScrubsAlike(merged.fields, prior.fields, false);
  }

  /** A partial response that agrees on all it does say is silent. */
  lemma AgreeingPartialIsSilent(item: Item, raw: Raw, src: Source, emitInitial: bool, judge: Judge,
      keys: set<SemanticKey>)
    requires ChainSound(item) && Merges(item, raw, src) && item.kind == Assignment
    requires forall k ::
      (Lacks(raw.fields, k) && k in item.Latest().fields)
      || Shown(raw.fields, k, false) == Shown(item.Latest().fields, k, false)
    requires (LacksDescription(raw.fields) && Description in item.Latest().fields) || raw.text == item.Latest().text
    ensures Observed(Some(item), raw, src, emitInitial, judge, keys) == Outcome(Seen(item), None)
  {
    NothingNewExactly(item, raw, src);
    ObservedByHash(Some(item), raw, src, emitInitial, judge, keys);
  }

  // Histories of one item.

  datatype Visit =
    | Sighting(raw: Raw, emitInitial: bool, keys: set<SemanticKey>)
    | Unfetched(raw: Raw)
    | Vanished

  function Visited(known: Option<Item>, v: Visit, src: Source, judge: Judge): Option<Item> {
    match v
    case Sighting(raw, emitInitial, keys) => Some(Observed(known, raw, src, emitInitial, judge, keys).item)
    case Unfetched(raw) => if known.Some? then known else Some(Placeholder(raw))
    case Vanished =>
      if known.Some? then Some(Item(known.value.kind, known.value.snapshots, known.value.hash, true)) else None
  }

  function AfterVisits(visits: seq<Visit>, src: Source, judge: Judge): Option<Item> {
    if visits == [] then None
    else Visited(AfterVisits(visits[..|visits| - 1], src, judge), visits[|visits| - 1], src, judge)
  }

  function Register(visits: seq<Visit>, k: Field): Option<Json> {
    if visits == [] then None
    else
      var before, v := Register(visits[..|visits| - 1], k), visits[|visits| - 1];
      if v.Sighting? then Learned(before, v.raw, k) else before
  }

  /** The text that goes with the description. */
  function TextRegister(visits: seq<Visit>): string {
    if visits == [] then ""
    else
      var earlier, v := visits[..|visits| - 1], visits[|visits| - 1];
      if v.Sighting? then LearnedText(TextRegister(earlier), Register(earlier, Description).Some?, v.raw)
      else TextRegister(earlier)
  }

  ghost predicate OfAssignment(visits: seq<Visit>) {
    forall i :: 0 <= i < |visits| ==> visits[i].Vanished? || visits[i].raw.kind == Assignment
  }

  lemma LatestAfterSighting(item: Item, raw: Raw, src: Source, emitInitial: bool, judge: Judge, keys: set<SemanticKey>)
    requires ChainSound(item) && Merges(item, raw, src) && item.kind == Assignment
    ensures var after, merged :=
      Observed(Some(item), raw, src, emitInitial, judge, keys).item, Merged(raw, item.Latest());
      && after.snapshots != []
      && after.Latest().fields == (if Unchanged(Some(item), raw, src) then item.Latest().fields else merged.fields)
      && after.Latest().text == (if Unchanged(Some(item), raw, src) then item.Latest().text else merged.text)
  {
    ObservedByHash(Some(item), raw, src, emitInitial, judge, keys);
  }

  lemma SightingLearns(item: Item, raw: Raw, src: Source, emitInitial: bool, judge: Judge, keys: set<SemanticKey>,
      k: Field)
    requires ChainSound(item) && Merges(item, raw, src) && item.kind == Assignment
    ensures var after := Observed(Some(item), raw, src, emitInitial, judge, keys).item;
      after.snapshots != []
        && Shown(after.Latest().fields, k, false) == Learned(Shown(item.Latest().fields, k, false), raw, k)
  {
    LatestAfterSighting(item, raw, src, emitInitial, judge, keys);
    if Unchanged(Some(item), raw, src) {
      NothingNewExactly(item, raw, src);
    } else {
      MergedIsLearned(raw, item.Latest(), k);
    }
  }

  lemma FirstSighting(raw: Raw, src: Source, emitInitial: bool, judge: Judge, keys: set<SemanticKey>, k: Field)
    requires raw.kind == Assignment
    ensures var item := Observed(None, raw, src, emitInitial, judge, keys).item;
      && ChainSound(item) && item.kind == Assignment && item.snapshots != []
      && Shown(item.Latest().fields, k, false) == Shown(raw.fields, k, false)
  {
    ObservingKeepsTheChain(None, raw, src, emitInitial, judge, keys);
    ObservedByHash(None, raw, src, emitInitial, judge, keys);
  }

  lemma VisitLearns(item: Item, v: Visit, src: Source, judge: Judge, k: Field)
    requires ChainSound(item) && item.kind == Assignment && item.snapshots != [] && src.canvas
    requires v.Vanished? || v.raw.kind == Assignment
    ensures var after := Visited(Some(item), v, src, judge);
      && after.Some? && ChainSound(after.value) && after.value.kind == Assignment && after.value.snapshots != []
      && Shown(after.value.Latest().fields, k, false) ==
        (if v.Sighting? then Learned(Shown(item.Latest().fields, k, false), v.raw, k)
          else Shown(item.Latest().fields, k, false))
  {
    if v.Sighting? {
      ObservingKeepsTheChain(Some(item), v.raw, src, v.emitInitial, judge, v.keys);
      SightingLearns(item, v.raw, src, v.emitInitial, judge, v.keys, k);
    }
  }

  /** Whatever full and partial responses, failed fetches and removals follow the first response, the latest
      snapshot holds for every field the value it was last known to have. */
  lemma {:induction false} LatestSnapshotIsTheRegister(visits: seq<Visit>, src: Source, judge: Judge, k: Field)
    requires src.canvas && OfAssignment(visits) && visits != [] && visits[0].Sighting?
    ensures var item := AfterVisits(visits, src, judge);
      && item.Some? && ChainSound(item.value) && item.value.kind == Assignment && item.value.snapshots != []
      && Shown(item.value.Latest().fields, k, false) == Register(visits, k)
  {
    var before, v := visits[..|visits| - 1], visits[|visits| - 1];
    if before == [] {
      assert AfterVisits(before, src, judge) == None && Register(before, k) == None;
      FirstSighting(v.raw, src, v.emitInitial, judge, v.keys, k);
    } else {
      assert before[0] == visits[0];
      LatestSnapshotIsTheRegister(before, src, judge, k);
      VisitLearns(AfterVisits(before, src, judge).value, v, src, judge, k);
    }
  }

  lemma SightingLearnsText(item: Item, raw: Raw, src: Source, emitInitial: bool, judge: Judge, keys: set<SemanticKey>)
    requires ChainSound(item) && Merges(item, raw, src) && item.kind == Assignment
    ensures var after := Observed(Some(item), raw, src, emitInitial, judge, keys).item;
      after.snapshots != []
        && after.Latest().text == LearnedText(item.Latest().text, Description in item.Latest().fields, raw)
  {
    LatestAfterSighting(item, raw, src, emitInitial, judge, keys);
    MergedText(raw, item.Latest());
    if Unchanged(Some(item), raw, src) {
      NothingNewExactly(item, raw, src);
    }
  }

  lemma FirstText(raw: Raw, src: Source, emitInitial: bool, judge: Judge, keys: set<SemanticKey>)
    requires raw.kind == Assignment
    ensures var item := Observed(None, raw, src, emitInitial, judge, keys).item;
      item.snapshots != [] && item.Latest().text == raw.text
  {
  }

  /** The text of the latest snapshot is the one last sent with a description, over any history. */
  lemma {:induction false} LatestTextIsTheRegister(visits: seq<Visit>, src: Source, judge: Judge)
    requires src.canvas && OfAssignment(visits) && visits != [] && visits[0].Sighting?
    ensures var item := AfterVisits(visits, src, judge);
      item.Some? && item.value.snapshots != [] && item.value.Latest().text == TextRegister(visits)
  {
    var earlier, v := visits[..|visits| - 1], visits[|visits| - 1];
    if earlier == [] {
      assert AfterVisits(earlier, src, judge) == None && Register(earlier, Description) == None;
      FirstText(v.raw, src, v.emitInitial, judge, v.keys);
    } else {
      assert earlier[0] == visits[0];
      LatestTextIsTheRegister(earlier, src, judge);
      LatestSnapshotIsTheRegister(earlier, src, judge, Description);
      if v.Sighting? {
        SightingLearnsText(AfterVisits(earlier, src, judge).value, v.raw, src, v.emitInitial, judge, v.keys);
      }
    }
  }

  /** Read without the fold: a value stands as long as every later response lacks its field. */
  lemma {:induction false} LastKnownValueStands(visits: seq<Visit>, src: Source, judge: Judge, k: Field, j: nat)
    requires src.canvas && OfAssignment(visits) && j < |visits| && visits[0].Sighting? && visits[j].Sighting?
    requires !Ignored(k, false) && k in visits[j].raw.fields && !Lacks(visits[j].raw.fields, k)
    requires forall i :: j < i < |visits| && visits[i].Sighting? ==> Lacks(visits[i].raw.fields, k)
    ensures Register(visits, k) == Some(Scrub(visits[j].raw.fields[k], false))
    ensures var item := AfterVisits(visits, src, judge);
      && item.Some? && item.value.snapshots != []
      && Shown(item.value.Latest().fields, k, false) == Some(Scrub(visits[j].raw.fields[k], false))
    decreases |visits|
  {
    LatestSnapshotIsTheRegister(visits, src, judge, k);
    if j < |visits| - 1 {
      LastKnownValueStands(visits[..|visits| - 1], src, judge, k, j);
    }
  }

  ghost predicate OfRules(visits: seq<Visit>, kind: ItemKind) {
    forall i :: 0 <= i < |visits| ==> visits[i].Vanished? || SameRules(kind, visits[i].raw.kind)
  }

  lemma UnstartedChain(item: Item, v: Visit, src: Source, judge: Judge)
    requires ChainSound(item) && (v.Vanished? || SameRules(item.kind, v.raw.kind))
    ensures var after := Visited(Some(item), v, src, judge);
      && after.Some? && ChainSound(after.value) && after.value.kind == item.kind
      && (after.value.snapshots == [] <==>
          item.snapshots == [] && (v.Sighting? ==> DigestOf(v.raw.fields, v.raw.text, item.kind) == item.hash))
      && (after.value.snapshots == [] ==> after.value.hash == item.hash)
  {
    if v.Sighting? {
      ObservingKeepsTheChain(Some(item), v.raw, src, v.emitInitial, judge, v.keys);
      ObservedByHash(Some(item), v.raw, src, v.emitInitial, judge, v.keys);
    }
  }

  /** Every response so far was what the placeholder was made from. */
  ghost predicate AllAre(visits: seq<Visit>, kind: ItemKind, hash: Digest) {
    forall i :: 0 <= i < |visits| && visits[i].Sighting? ==>
      DigestOf(visits[i].raw.fields, visits[i].raw.text, kind) == hash
  }

  lemma AllAreLast(visits: seq<Visit>, kind: ItemKind, hash: Digest)
    requires visits != []
    ensures var v := visits[|visits| - 1];
      AllAre(visits, kind, hash) <==>
        AllAre(visits[..|visits| - 1], kind, hash) && (v.Sighting? ==> DigestOf(v.raw.fields, v.raw.text, kind) == hash)
  {
  }

  /** An item of any kind first met as a row that could not be fetched has no chain until some response
      differs from that row: until then nothing is known of it. */
  lemma {:induction false} ChainStartsAtTheFirstDifference(visits: seq<Visit>, kind: ItemKind, src: Source,
      judge: Judge)
    requires OfRules(visits, kind) && visits != [] && visits[0].Unfetched? && visits[0].raw.kind == kind
    ensures var item, first := AfterVisits(visits, src, judge), Placeholder(visits[0].raw);
      && item.Some? && item.value.kind == kind && ChainSound(item.value)
      && (item.value.snapshots == [] ==> item.value.hash == first.hash)
      && (item.value.snapshots == [] <==> AllAre(visits, kind, first.hash))
  {
    var before, v := visits[..|visits| - 1], visits[|visits| - 1];
    AllAreLast(visits, kind, Placeholder(visits[0].raw).hash);
    if before == [] {
      assert AfterVisits(before, src, judge) == None;
    } else {
      assert before[0] == visits[0];
      ChainStartsAtTheFirstDifference(before, kind, src, judge);
      UnstartedChain(AfterVisits(before, src, judge).value, v, src, judge);
    }
  }

  // What Canvas sends.

  /** `CanvasAdapter._normalize` for an assignment: the row's own keys, the values computed from them, and
      whether the row spoke for description and deadline at all. */
  function Normalised(row: Fields, text: string, group: Json, task: Json, key: Json): Fields {
    var dated := Truthy(Get(row, DueAt));
    row[Named("assignment_group_name") := group][Named("task_type") := task][Named("source_key") := key]
      [Description := Text(text)]
      [DescriptionState := Text(if Description in row then "known" else "missing")]
      [DueAtState := Text(if dated then "known" else if DueAt in row then "removed" else "missing")]
      [DeadlinePrecision := if dated then Text("EXACT_DATETIME") else Null]
      [DeadlineTimezone := Text("America/Chicago")]
      [DeadlineSourceRank := Number(1.0)]
      [SourceDeadlineText := Get(row, DueAt)]
  }

  /** The state labels tell a missing key from one sent empty. */
  lemma LabelsTellMissingKeys(row: Fields, text: string, group: Json, task: Json, key: Json)
    ensures var f := Normalised(row, text, group, task, key);
      && (LacksDescription(f) <==> Description !in row) && (LacksDeadline(f) <==> DueAt !in row)
      && Look(f, DueAt) == Look(row, DueAt) && Look(f, Description) == Some(Text(text))
  {
    assert "known"[0] == 'k' && "removed"[0] == 'r' && "missing"[0] == 'm';
    assert Named("assignment_group_name") != DueAt;
  }

  ghost predicate FromCanvas(v: Visit, row: Fields) {
    v.Sighting? ==> exists text, group, task, key :: v.raw.fields == Normalised(row, text, group, task, key)
  }

  /** A due date, once sent, stands in the latest snapshot as long as later rows leave the key out; a row
      that sends it empty clears it. */
  lemma {:induction false} OmittedDueDatesStand(visits: seq<Visit>, rows: seq<Fields>, src: Source, judge: Judge,
      j: nat)
    requires src.canvas && OfAssignment(visits) && j < |visits| == |rows| && visits[0].Sighting? && visits[j].Sighting?
    requires forall i :: 0 <= i < |visits| ==> FromCanvas(visits[i], rows[i])
    requires DueAt in rows[j] && forall i :: j < i < |visits| && visits[i].Sighting? ==> DueAt !in rows[i]
    ensures var item := AfterVisits(visits, src, judge);
      && item.Some? && item.value.snapshots != []
      && Shown(item.value.Latest().fields, DueAt, false) == Some(Scrub(rows[j][DueAt], false))
  {
    forall i | 0 <= i < |visits| && visits[i].Sighting?
      ensures (Lacks(visits[i].raw.fields, DueAt) <==> DueAt !in rows[i])
        && Look(visits[i].raw.fields, DueAt) == Look(rows[i], DueAt)
    {
      var text, group, task, key :| visits[i].raw.fields == Normalised(rows[i], text, group, task, key);
      LabelsTellMissingKeys(rows[i], text, group, task, key);
    }
    LastKnownValueStands(visits, src, judge, DueAt, j);
  }

  // Seen twice.

  lemma MergedTwice(raw: Raw, prior: Snapshot, hash: Digest)
    requires raw.kind == Assignment
    ensures var once := Merged(raw, prior);
      var twice := Merged(raw, Snapshot(hash, once.fields, once.text));
      DigestOf(twice.fields, twice.text, Assignment) == DigestOf(once.fields, once.text, Assignment)
  {
    var once := Merged(raw, prior);
    var last := Snapshot(hash, once.fields, once.text);
    var twice := Merged(raw, last);
    MergedField(raw, prior, Description);
    MergedText(raw, prior);
    MergedText(raw, last);
    forall k ensures Shown(twice.fields, k, false) == Shown(once.fields, k, false) {
      MergedIsLearned(raw, prior, k);
      MergedIsLearned(raw, last, k);
    }
    SameShownScrubsAlike(twice.fields, once.fields, false);
  }

  lemma MergedWithItself(raw: Raw, hash: Digest)
    requires raw.kind == Assignment
    ensures var once := Merged(raw, Snapshot(hash, raw.fields, raw.text));
      DigestOf(once.fields, once.text, Assignment) == DigestOf(raw.fields, raw.text, Assignment)
  {
    var last := Snapshot(hash, raw.fields, raw.text);
    var once := Merged(raw, last);
    MergedText(raw, last);
    forall k ensures Shown(once.fields, k, false) == Shown(raw.fields, k, false) {
      MergedIsLearned(raw, last, k);
    }
    SameShownScrubsAlike(once.fields, raw.fields, false);
  }

  lemma StoredIsCurrent(item: Item, raw: Raw, src: Source)
    requires ChainSound(item) && SameRules(item.kind, raw.kind) && !Unchanged(Some(item), raw, src)
    ensures Unchanged(Some(Extended(Seen(item), Taken(item, raw, src), DigestTaken(item, raw, src))), raw, src)
  {
    var once := Extended(Seen(item), Taken(item, raw, src), DigestTaken(item, raw, src));
    if Merges(once, raw, src) {
      if item.snapshots != [] {
        MergedTwice(raw, item.Latest(), once.hash);
      } else {
        MergedWithItself(raw, once.hash);
      }
    }
  }

  lemma FirstIsCurrent(raw: Raw, src: Source)
    ensures Unchanged(Some(Extended(Placeholder(raw), raw, Placeholder(raw).hash)), raw, src)
  {
    if raw.kind == Assignment {
      MergedWithItself(raw, Placeholder(raw).hash);
    }
  }

  lemma ObservedIsCurrent(known: Option<Item>, raw: Raw, src: Source, emitInitial: bool, judge: Judge,
      keys: set<SemanticKey>)
    requires known.Some? ==> ChainSound(known.value) && SameRules(known.value.kind, raw.kind)
    ensures Unchanged(Some(Observed(known, raw, src, emitInitial, judge, keys).item), raw, src)
  {
    ObservedByHash(known, raw, src, emitInitial, judge, keys);
    if known.None? {
      FirstIsCurrent(raw, src);
    } else if !Unchanged(known, raw, src) {
      StoredIsCurrent(known.value, raw, src);
    }
  }

  /** Observing the same response again changes nothing, partial or not, whatever was announced. */
  lemma ObservingTwiceIsObservingOnce(known: Option<Item>, raw: Raw, src: Source, judge: Judge,
      emitFirst: bool, keysFirst: set<SemanticKey>, emitAgain: bool, keysAgain: set<SemanticKey>)
    requires known.Some? ==> ChainSound(known.value) && SameRules(known.value.kind, raw.kind)
    ensures var once := Observed(known, raw, src, emitFirst, judge, keysFirst).item;
      Observed(Some(once), raw, src, emitAgain, judge, keysAgain) == Outcome(once, None)
  {
    var once := Observed(known, raw, src, emitFirst, judge, keysFirst).item;
    ObservingKeepsTheChain(known, raw, src, emitFirst, judge, keysFirst);
    ObservedIsCurrent(known, raw, src, emitFirst, judge, keysFirst);
    ObservedByHash(Some(once), raw, src, emitAgain, judge, keysAgain);
  }

  // What is announced.

  /** An event for an item with a chain: there is one exactly when the content is new, worth announcing and
      not announced before, and it carries the change the code classifies. */
  lemma AnnouncedChange(item: Item, raw: Raw, src: Source, emitInitial: bool, judge: Judge, keys: set<SemanticKey>)
    requires ChainSound(item) && SameRules(item.kind, raw.kind) && item.snapshots != []
    ensures var out, taken := Observed(Some(item), raw, src, emitInitial, judge, keys), Taken(item, raw, src);
      && (out.event.Some? <==>
          && !Unchanged(Some(item), raw, src) && Announces(taken, LatestFields(item), src, judge)
          && KeyFor(item, taken, DigestTaken(item, raw, src), src, judge) !in keys)
      && (out.event.Some? ==> out.event.value.change == ChangeOf(taken, LatestFields(item), src, judge))
  {
    ObservedByHash(Some(item), raw, src, emitInitial, judge, keys);
  }

  /** The response speaks for the deadline, or none was ever stored, and it differs from the stored one. */
  predicate MovesDeadline(item: Item, raw: Raw)
    requires item.snapshots != []
  {
    !Keeps(raw.fields, item.Latest().fields, DueAt) && Get(raw.fields, DueAt) != Get(item.Latest().fields, DueAt)
  }

  lemma DeadlineClassified(item: Item, raw: Raw, src: Source, judge: Judge)
    requires Merges(item, raw, src) && src.qualified
    ensures ChangeOf(Taken(item, raw, src), LatestFields(item), src, judge).kind == DeadlineChanged <==>
      MovesDeadline(item, raw)
  {
    MergedField(raw, item.Latest(), DueAt);
  }

  /** A deadline change is announced if and only if the response moves the deadline and the change is new,
      worth announcing and not announced before. */
  lemma DeadlineChangesAreReal(item: Item, raw: Raw, src: Source, emitInitial: bool, judge: Judge,
      keys: set<SemanticKey>)
    requires ChainSound(item) && Merges(item, raw, src) && src.qualified && item.kind == Assignment
    ensures var out, taken := Observed(Some(item), raw, src, emitInitial, judge, keys), Taken(item, raw, src);
      out.event.Some? && out.event.value.change.kind == DeadlineChanged <==>
        && MovesDeadline(item, raw) && !Unchanged(Some(item), raw, src)
        && judge.emits(DeadlineChanged, LatestFields(item), taken.fields)
        && SemanticKey(raw.id, DeadlineChanged, LatestHash(item), Stored(DigestTaken(item, raw, src))) !in keys
  {
    AnnouncedChange(item, raw, src, emitInitial, judge, keys);
    DeadlineClassified(item, raw, src, judge);
    MergingKeepsIdentity(item, raw, src);
  }
}
