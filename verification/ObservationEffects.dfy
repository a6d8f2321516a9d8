/** backend/hotfix_sync.py: what one observation, placeholder or removal leaves, said of items, snapshots and
    events, and which differences count as a change at all. */
module ObservationEffects {
  import opened Documents
  import opened Observations
  import opened LastKnown
  import opened SyncRun

  /** The fields that never make a difference; `updated_at` only counts for files. */
  const SILENT: set<Field> := {HtmlUrl, Url, CreatedAt, LockInfo, Permissions, PreviewUrl, PageContextTitles,
    DiscoveredViaPages, SecondsLate, DescriptionState, DueAtState, RetainedFields}

  predicate Counts(k: Field, kind: ItemKind) {
    k !in SILENT && (k == UpdatedAt ==> kind == File)
  }

  /** Where the field counts, it is absent from both, or has the same value up to what is silent inside. */
  predicate AgreeOn(f: Fields, g: Fields, k: Field, kind: ItemKind) {
    Counts(k, kind) ==> (k in f <==> k in g) && (k in f ==> Scrub(f[k], kind == File) == Scrub(g[k], kind == File))
  }

  lemma AgreementShows(f: Fields, g: Fields, k: Field, kind: ItemKind)
    ensures AgreeOn(f, g, k, kind) <==> Shown(f, k, kind == File) == Shown(g, k, kind == File)
  {
    assert Counts(k, kind) <==> !Ignored(k, kind == File);
  }

  /** Two contents are the same to the synchroniser exactly when their texts agree and every field that counts
      does. */
  lemma SameDigestExactly(f: Fields, g: Fields, text: string, other: string, kind: ItemKind)
    ensures DigestOf(f, text, kind) == DigestOf(g, other, kind) <==>
      text == other && forall k :: AgreeOn(f, g, k, kind)
  {
    var file := kind == File;
    SameShownScrubsAlike(f, g, file);
    if SameShown(f, g, file) {
      forall k ensures AgreeOn(f, g, k, kind) {
        AgreementShows(f, g, k, kind);
        assert Shown(f, k, file) == Shown(g, k, file);
      }
    }
    if forall k :: AgreeOn(f, g, k, kind) {
      forall k ensures Shown(f, k, file) == Shown(g, k, file) {
        AgreementShows(f, g, k, kind);
        assert AgreeOn(f, g, k, kind);
      }
    }
  }

  /** Inside a value, plain ones count as they are and lists element by element. */
  lemma {:induction false} PlainValuesCount(j: Json, file: bool)
    ensures !j.Object? && !j.List? ==> Scrub(j, file) == j
    ensures j.List? ==> Scrub(j, file).List? && |Scrub(j, file).items| == |j.items|
    ensures j.List? ==> forall i :: 0 <= i < |j.items| ==> Scrub(j, file).items[i] == Scrub(j.items[i], file)
    ensures j.Object? ==> Scrub(j, file).Object?
  {
  }

  // Kinds of change.

  function NameIn(fields: Fields): Json {
    if Truthy(Get(fields, DisplayName)) then Get(fields, DisplayName) else Get(fields, Filename)
  }

  function ShaIn(fields: Fields): Json {
    if Truthy(Get(fields, Sha256)) then Get(fields, Sha256) else Get(fields, ContentSha256)
  }

  /** A change to a Canvas assignment is, in this order, its creation, a moved deadline, its publication, or an
      update, and always asks for action. */
  lemma AssignmentChanges(raw: Raw, prior: Option<Fields>, judge: Judge)
    requires raw.kind == Assignment
    ensures var change := ChangeOf(raw, prior, Source(true, true), judge);
      var moved := prior.Some? && Get(prior.value, DueAt) != Get(raw.fields, DueAt);
      var published := prior.Some?
        && Get(prior.value, Published) == Bool(false) && Get(raw.fields, Published) == Bool(true);
      && change.action
      && (change.kind == AssignmentCreated <==> prior.None?)
      && (change.kind == DeadlineChanged <==> moved)
      && (change.kind == AssignmentPublished <==> !moved && published)
      && (change.kind == AssignmentUpdated <==> prior.Some? && !moved && !published)
      && (change.importance == "important" <==>
            !moved || judge.classify(prior, raw.fields).importance == "important")
  {
  }

  /** A change to a Canvas file is its addition, its release, a new name, new content, or else metadata. */
  lemma FileChanges(raw: Raw, prior: Option<Fields>, judge: Judge)
    requires raw.kind == File
    ensures var change := ChangeOf(raw, prior, Source(true, true), judge);
      var released := prior.Some?
        && Get(prior.value, Hidden) == Bool(true) && Get(raw.fields, Hidden) == Bool(false);
      var renamed := prior.Some? && NameIn(prior.value) != NameIn(raw.fields);
      var rewritten := prior.Some? && Truthy(ShaIn(prior.value)) && Truthy(ShaIn(raw.fields))
        && ShaIn(prior.value) != ShaIn(raw.fields);
      && !change.action
      && (change.kind == FileAdded <==> prior.None?)
      && (change.kind == NewFile <==> released)
      && (change.kind == FileRenamed <==> !released && renamed)
      && (change.kind == FileChange <==> !released && !renamed && rewritten)
      && (change.kind == FileMetadataUpdated <==> prior.Some? && !released && !renamed && !rewritten)
      && (change.importance == "important" <==> change.kind in {NewFile, FileChange})
  {
  }

  // One observation.

  /** What is compared and stored: the response, or for a partial assignment the response completed. */
  function Content(known: Option<Item>, raw: Raw, src: Source): Raw {
    if known.Some? && known.value.snapshots != [] && src.canvas && raw.kind == Assignment
    then Merged(raw, known.value.snapshots[|known.value.snapshots| - 1]) else raw
  }

  /** The content is the current one, or the latest snapshot hashed afresh. */
  predicate NothingNew(known: Option<Item>, digest: Digest) {
    && known.Some?
    && (known.value.hash == digest ||
        (known.value.snapshots != [] &&
         var last := known.value.snapshots[|known.value.snapshots| - 1];
         DigestOf(last.fields, last.text, known.value.kind) == digest))
  }

  function PriorSnapshots(known: Option<Item>): seq<Snapshot> {
    if known.Some? then known.value.snapshots else []
  }

  /** The event an addition is announced with. */
  function Announcement(prior: seq<Snapshot>, content: Raw, digest: Digest, src: Source, judge: Judge): Event {
    var last := if prior == [] then None else Some(prior[|prior| - 1].fields);
    var change := ChangeOf(content, last, src, judge);
    Event(content.id, change, if prior == [] then None else Some(|prior| - 1), Some(|prior|),
      SemanticKey(content.id, change.kind, if prior == [] then None else Some(prior[|prior| - 1].hash), Stored(digest)))
  }

  predicate Worth(prior: seq<Snapshot>, content: Raw, change: Change, src: Source, judge: Judge) {
    judge.emits(change.kind, if prior == [] then None else Some(prior[|prior| - 1].fields), content.fields)
    || (src.canvas && content.kind == File && change.kind == FileMetadataUpdated)
  }

  /** An observation brings its item back and puts its content at the end of the chain unless there is nothing
      new; the addition is announced exactly if it extends a chain or first sightings are announced too, it is
      worth it, and no earlier event has its key. */
  ghost predicate ObservationEffect(known: Option<Item>, after: Item, event: Option<Event>, raw: Raw, src: Source,
      emitInitial: bool, judge: Judge, earlier: set<SemanticKey>)
  {
    var content := Content(known, raw, src);
    var digest := DigestOf(content.fields, content.text, raw.kind);
    var prior := PriorSnapshots(known);
    && !after.deleted && after.hash == digest && after.kind == (if known.Some? then known.value.kind else raw.kind)
    && (NothingNew(known, digest) ==> after.snapshots == prior && event == None)
    && (!NothingNew(known, digest) ==>
          && after.snapshots == prior + [Snapshot(digest, content.fields, content.text)]
          && var said := Announcement(prior, content, digest, src, judge);
          && (event.Some? <==>
                && (prior != [] || emitInitial) && Worth(prior, content, said.change, src, judge)
                && said.key !in earlier)
          && (event.Some? ==> event.value == said))
  }

  lemma StoringHasEffect(item: Item, content: Raw, digest: Digest, src: Source, emitInitial: bool, judge: Judge,
      earlier: set<SemanticKey>)
    ensures var out := StoredAs(item, content, digest, src, emitInitial, judge, earlier);
      var said := Announcement(item.snapshots, content, digest, src, judge);
      && out.item == Item(item.kind, item.snapshots + [Snapshot(digest, content.fields, content.text)], digest,
           item.deleted)
      && (out.event.Some? <==>
            && (item.snapshots != [] || emitInitial) && Worth(item.snapshots, content, said.change, src, judge)
            && said.key !in earlier)
      && (out.event.Some? ==> out.event.value == said)
  {
  }

  lemma FirstHasEffect(raw: Raw, src: Source, emitInitial: bool, judge: Judge, earlier: set<SemanticKey>)
    ensures var out := Observed(None, raw, src, emitInitial, judge, earlier);
      ObservationEffect(None, out.item, out.event, raw, src, emitInitial, judge, earlier)
  {
    StoringHasEffect(Placeholder(raw), raw, Placeholder(raw).hash, src, emitInitial, judge, earlier);
  }

  lemma ContentIsTaken(item: Item, raw: Raw, src: Source)
    ensures Content(Some(item), raw, src) == Taken(item, raw, src)
    ensures var digest := DigestTaken(item, raw, src);
      NothingNew(Some(item), digest) <==> item.hash == digest || (item.snapshots != [] && Upgraded(item) == digest)
  {
  }

  lemma LaterHasEffect(item: Item, raw: Raw, src: Source, emitInitial: bool, judge: Judge, earlier: set<SemanticKey>)
    ensures var out := Observed(Some(item), raw, src, emitInitial, judge, earlier);
      ObservationEffect(Some(item), out.item, out.event, raw, src, emitInitial, judge, earlier)
  {
    ContentIsTaken(item, raw, src);
    if !NothingNew(Some(item), DigestTaken(item, raw, src)) {
      StoringHasEffect(Seen(item), Taken(item, raw, src), DigestTaken(item, raw, src), src, emitInitial, judge,
        earlier);
    }
  }

  lemma ObservedHasEffect(known: Option<Item>, raw: Raw, src: Source, emitInitial: bool, judge: Judge,
      earlier: set<SemanticKey>)
    ensures var out := Observed(known, raw, src, emitInitial, judge, earlier);
      ObservationEffect(known, out.item, out.event, raw, src, emitInitial, judge, earlier)
  {
    if known.None? {
      FirstHasEffect(raw, src, emitInitial, judge, earlier);
    } else {
      LaterHasEffect(known.value, raw, src, emitInitial, judge, earlier);
    }
  }

  /** A row that could not be fetched: a placeholder for an unknown item, nothing for a known one. */
  ghost predicate PlaceholderEffect(before: Catalog, after: Catalog, raw: Raw) {
    && after.events == before.events
    && after.items == if raw.id in before.items then before.items
                      else before.items[raw.id :=
                        Item(raw.kind, [], DigestOf(raw.fields, raw.text, raw.kind), false)]
  }

  /** The removal of an item, as announced. */
  function RemovalSaid(id: string, item: Item): Event {
    Event(id,
      Change(Removed(item.kind), if item.kind == Assignment then "important" else "minor", item.kind == Assignment),
      if item.snapshots == [] then None else Some(|item.snapshots| - 1), None,
      SemanticKey(id, Removed(item.kind),
        if item.snapshots == [] then None else Some(item.snapshots[|item.snapshots| - 1].hash), Deleted))
  }

  /** An item is marked once, and announced if asked and not announced before with the same last content. */
  ghost predicate RemovalEffect(before: Catalog, after: Catalog, id: string, emit: bool)
    requires id in before.items
  {
    var item := before.items[id];
    var said := RemovalSaid(id, item);
    var silent := !emit || exists i :: 0 <= i < |before.events| && before.events[i].key == said.key;
    if item.deleted then after == before
    else
      && after.items == before.items[id := Item(item.kind, item.snapshots, item.hash, true)]
      && after.events == if silent then before.events else before.events + [said]
  }

  lemma RemovalHasEffect(c: Catalog, id: string, emit: bool)
    requires id in c.items
    ensures RemovalEffect(c, RemovedIn(c, id, emit), id, emit)
  {
  }

  predicate SawId(seen: map<ItemKind, set<string>>, kind: ItemKind, id: string) {
    kind in seen && id in seen[kind]
  }

  /** Reconciling marks the listed items not seen, touches no other, and only ever adds events. */
  ghost predicate ReconciliationEffect(before: Catalog, after: Catalog, order: seq<string>,
      seen: map<ItemKind, set<string>>)
  {
    && after.items.Keys == before.items.Keys && before.events <= after.events
    && forall id :: id in before.items ==>
         after.items[id] == before.items[id].(
           deleted := before.items[id].deleted || (id in order && !SawId(seen, before.items[id].kind, id)))
  }

  lemma {:induction false} ReconcilingOnlyAdds(c: Catalog, order: seq<string>, n: nat, seen: ItemKind -> set<string>,
      emit: bool)
    requires n <= |order| && forall i :: 0 <= i < |order| ==> order[i] in c.items
    ensures c.events <= Reconciled(c, order, n, seen, emit).events
  {
    if n > 0 {
      ReconcilingOnlyAdds(c, order, n - 1, seen, emit);
    }
  }

  lemma {:induction false} ReconciliationHasEffect(c: Catalog, order: seq<string>, seen: map<ItemKind, set<string>>,
      f: ItemKind -> set<string>, emit: bool, after: Catalog)
    requires forall i :: 0 <= i < |order| ==> order[i] in c.items
    requires forall kind :: f(kind) == if kind in seen then seen[kind] else {}
    requires after == Reconciled(c, order, |order|, f, emit)
    ensures ReconciliationEffect(c, after, order, seen)
  {
    ReconcilingOnlyAdds(c, order, |order|, f, emit);
    assert order[..|order|] == order;
    forall id | id in c.items
      ensures after.items[id] == Marked(c.items[id], id in order && !SawId(seen, c.items[id].kind, id))
    {
      ReconcilingMarks(c, order, |order|, f, emit, id);
    }
  }

  // Whole runs.

  ghost predicate RowEffect(before: Catalog, after: Catalog, row: Row, s: Setting) {
    if row.pending then PlaceholderEffect(before, after, row.raw)
    else exists event :: ObservedIn(before, after, row.raw, event, s)
  }

  ghost predicate ObservedIn(before: Catalog, after: Catalog, raw: Raw, event: Option<Event>, s: Setting) {
    && after.events == (if event.Some? then before.events + [event.value] else before.events)
    && raw.id in after.items && after.items == before.items[raw.id := after.items[raw.id]]
    && ObservationEffect(if raw.id in before.items then Some(before.items[raw.id]) else None, after.items[raw.id],
         event, raw, s.src, s.emit, s.judge, set i | 0 <= i < |before.events| :: before.events[i].key)
  }

  /** The first `n` rows, each in turn. */
  ghost predicate RowsEffect(before: Catalog, after: Catalog, rows: seq<Row>, n: nat, s: Setting)
    requires n <= |rows|
  {
    exists states :: RowByRow(states, before, after, rows, n, s)
  }

  ghost predicate RowByRow(states: seq<Catalog>, before: Catalog, after: Catalog, rows: seq<Row>, n: nat, s: Setting)
    requires n <= |rows|
  {
    && |states| == n + 1 && states[0] == before && states[n] == after
    && forall k :: 0 <= k < n ==> RowEffect(states[k], states[k + 1], rows[k], s)
  }

  lemma RowHasEffect(c: Catalog, row: Row, s: Setting)
    ensures RowEffect(c, RowTaken(c, row, s), row, s)
  {
    if !row.pending {
      ObservedHasEffect(Find(c, row.raw.id), row.raw, s.src, s.emit, s.judge, Keys(c.events));
      assert ObservedIn(c, RowTaken(c, row, s), row.raw, Observe(c, row.raw, s).event, s);
    }
  }

  function Catalogs(c: Catalog, rows: seq<Row>, n: nat, s: Setting): (states: seq<Catalog>)
    requires n <= |rows|
    ensures |states| == n + 1 && forall k :: 0 <= k <= n ==> states[k] == RowsTaken(c, rows, k, s)
  {
    seq(n + 1, k requires 0 <= k <= n => RowsTaken(c, rows, k, s))
  }

  lemma {:induction false} OneMoreRow(c: Catalog, rows: seq<Row>, k: nat, s: Setting)
    requires k < |rows|
    ensures RowEffect(RowsTaken(c, rows, k, s), RowsTaken(c, rows, k + 1, s), rows[k], s)
  {
    RowHasEffect(RowsTaken(c, rows, k, s), rows[k], s);
  }

  lemma {:induction false} RowsHaveEffect(c: Catalog, rows: seq<Row>, n: nat, s: Setting)
    requires n <= |rows|
    ensures RowsEffect(c, RowsTaken(c, rows, n, s), rows, n, s)
  {
    var states := Catalogs(c, rows, n, s);
    forall k | 0 <= k < n ensures RowEffect(states[k], states[k + 1], rows[k], s) {
      OneMoreRow(c, rows, k, s);
    }
    assert RowByRow(states, c, RowsTaken(c, rows, n, s), rows, n, s);
  }

  /** A run that gets to its end: its rows, and then every item of a kind fetched successfully that no row of its
      kind named is marked. */
  ghost predicate RunEffect(before: Catalog, after: Catalog, rows: seq<Row>, successful: set<ItemKind>, s: Setting) {
    exists mid :: RowsEffect(before, mid, rows, |rows|, s) && UnseenMarked(mid, after, rows, successful)
  }

  ghost predicate UnseenMarked(mid: Catalog, after: Catalog, rows: seq<Row>, successful: set<ItemKind>) {
    && after.items.Keys == mid.items.Keys && mid.events <= after.events
    && forall id :: id in mid.items ==>
         after.items[id] == mid.items[id].(deleted := mid.items[id].deleted
           || (mid.items[id].kind in successful && !NamedIn(rows, id, mid.items[id].kind)))
  }

  predicate NamedIn(rows: seq<Row>, id: string, kind: ItemKind) {
    exists i :: 0 <= i < |rows| && rows[i].raw.id == id && rows[i].raw.kind == kind
  }

  lemma {:induction false} RunHasEffect(c: Catalog, rows: seq<Row>, order: seq<string>, successful: set<ItemKind>,
      s: Setting)
    requires Selects(order, RowsTaken(c, rows, |rows|, s).items, successful)
    ensures RunEffect(c, AfterRun(c, rows, order, successful, s), rows, successful, s)
  {
    var mid, f := RowsTaken(c, rows, |rows|, s), (kind => SeenOf(rows, |rows|, kind));
    RowsHaveEffect(c, rows, |rows|, s);
    ReconcilingOnlyAdds(mid, order, |order|, f, s.emit);
    assert order[..|order|] == order;
    forall id | id in mid.items
      ensures AfterRun(c, rows, order, successful, s).items[id] == Marked(mid.items[id],
        mid.items[id].kind in successful && !NamedIn(rows, id, mid.items[id].kind))
    {
      ReconcilingMarks(mid, order, |order|, f, s.emit, id);
    }
    assert UnseenMarked(mid, AfterRun(c, rows, order, successful, s), rows, successful);
  }
}
