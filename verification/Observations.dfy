/** backend/hotfix_sync.py: what storing one observation does to one item. Field names the code mentions are
    constructors, every other name is `Named`; equal digests mean equal content (the hash is injective). */
module Observations {
  import opened Documents

  datatype Field =
    | Description | DescriptionState | DueAt | DueAtState | RetainedFields
    | DueDateLocal | DeadlinePrecision | DeadlineTimezone | SourceDeadlineText | DeadlineSourceRank
    | HtmlUrl | Url | UpdatedAt | CreatedAt | LockInfo | Permissions | PreviewUrl | PageContextTitles
    | DiscoveredViaPages | SecondsLate
    | Published | Hidden | DisplayName | Filename | Sha256 | ContentSha256
    | Named(name: string)

  datatype Json =
    | Null
    | Bool(truth: bool)
    | Number(value: real)
    | Text(text: string)
    | List(items: seq<Json>)
    | Object(fields: map<Field, Json>)

  type Fields = map<Field, Json>

  datatype ItemKind =
    | File | Assignment | Page | Announcement | Module | ModuleItem | Syllabus | AssignmentGroup
    | OtherKind(name: string)

  // `_semantic_value` and `content_hash`.

  predicate Ignored(k: Field, file: bool) {
    match k
    case UpdatedAt => !file
    case HtmlUrl => true
    case Url => true
    case CreatedAt => true
    case LockInfo => true
    case Permissions => true
    case PreviewUrl => true
    case PageContextTitles => true
    case DiscoveredViaPages => true
    case SecondsLate => true
    case DescriptionState => true
    case DueAtState => true
    case RetainedFields => true
    case _ => false
  }

  function Scrub(j: Json, file: bool): Json
    decreases j
  {
    match j
    case Object(fields) => Object(map k | k in fields && !Ignored(k, file) :: Scrub(fields[k], file))
    case List(items) => List(seq(|items|, i requires 0 <= i < |items| => Scrub(items[i], file)))
    case _ => j
  }

  function ScrubFields(fields: Fields, file: bool): Fields {
    map k | k in fields && !Ignored(k, file) :: Scrub(fields[k], file)
  }

  datatype Digest = Digest(fields: Fields, text: string)

  function DigestOf(fields: Fields, text: string, kind: ItemKind): Digest {
    Digest(ScrubFields(fields, kind == File), text)
  }

  datatype Raw = Raw(id: string, kind: ItemKind, fields: Fields, text: string)

  datatype Snapshot = Snapshot(hash: Digest, fields: Fields, text: string)

  datatype Item = Item(kind: ItemKind, snapshots: seq<Snapshot>, hash: Digest, deleted: bool) {
    function Latest(): Snapshot
      requires snapshots != []
    {
      snapshots[|snapshots| - 1]
    }
  }

  // Partial responses.

  const DEADLINE := [DueAt, DueDateLocal, DeadlinePrecision, DeadlineTimezone, SourceDeadlineText, DeadlineSourceRank]

  predicate IsDeadline(k: Field) {
    k.DueAt? || k.DueDateLocal? || k.DeadlinePrecision? || k.DeadlineTimezone? || k.SourceDeadlineText?
      || k.DeadlineSourceRank?
  }

  function Get(fields: Fields, k: Field): Json {
    if k in fields then fields[k] else Null
  }

  function Look(fields: Fields, k: Field): Option<Json> {
    if k in fields then Some(fields[k]) else None
  }

  predicate LacksDescription(fields: Fields) {
    Get(fields, DescriptionState) == Text("missing")
  }

  predicate LacksDeadline(fields: Fields) {
    Get(fields, DueAtState) == Text("missing")
  }

  /** The response does not speak for field `k`. */
  predicate Lacks(fields: Fields, k: Field) {
    (k == Description && LacksDescription(fields)) || (IsDeadline(k) && LacksDeadline(fields))
  }

  predicate Keeps(fields: Fields, prior: Fields, k: Field) {
    Lacks(fields, k) && k in prior
  }

  /** The kept deadline fields among the first `n`, in the order they are copied. */
  function KeptDeadline(prior: Fields, n: nat): seq<Field>
    requires n <= |DEADLINE|
  {
    if n == 0 then [] else KeptDeadline(prior, n - 1) + (if DEADLINE[n - 1] in prior then [DEADLINE[n - 1]] else [])
  }

  function KeptNames(fields: Fields, prior: Fields): seq<Field> {
    (if Keeps(fields, prior, Description) then [Description] else [])
    + (if LacksDeadline(fields) then KeptDeadline(prior, |DEADLINE|) else [])
  }

  function NameOf(k: Field): string {
    match k
    case Description => "description"
    case DueAt => "due_at"
    case DueDateLocal => "due_date_local"
    case DeadlinePrecision => "deadline_precision"
    case DeadlineTimezone => "deadline_timezone"
    case SourceDeadlineText => "source_deadline_text"
    case _ => "deadline_source_rank"
  }

  function NameList(names: seq<Field>): Json {
    List(seq(|names|, i requires 0 <= i < |names| => Text(NameOf(names[i]))))
  }

  function LabelledDescription(fields: Fields, prior: Fields): Fields {
    if Keeps(fields, prior, Description)
    then fields[Description := prior[Description]][DescriptionState := Text("retained")]
    else fields
  }

  /** `fields` with the first `n` deadline fields taken from `prior` where it has them. */
  function WithDeadline(fields: Fields, prior: Fields, n: nat): Fields
    requires n <= |DEADLINE|
  {
    if n == 0 then fields
    else
      var before := WithDeadline(fields, prior, n - 1);
      if DEADLINE[n - 1] in prior then before[DEADLINE[n - 1] := prior[DEADLINE[n - 1]]] else before
  }

  /** A partial assignment response with the last good values put back and their provenance noted. */
  function Merged(raw: Raw, prior: Snapshot): Raw {
    var names := KeptNames(raw.fields, prior.fields);
    if names == [] then raw
    else
      var described := LabelledDescription(raw.fields, prior.fields);
      var dated := if LacksDeadline(raw.fields) then WithDeadline(described, prior.fields, |DEADLINE|) else described;
      var labelled := if Keeps(raw.fields, prior.fields, DueAt) then dated[DueAtState := Text("retained")] else dated;
      Raw(raw.id, raw.kind, labelled[RetainedFields := NameList(names)],
          if Keeps(raw.fields, prior.fields, Description) then prior.text else raw.text)
  }

  // Kinds of change.

  datatype ChangeKind =
    | AssignmentCreated | DeadlineChanged | AssignmentPublished | AssignmentUpdated
    | FileAdded | NewFile | FileRenamed | FileChange | FileMetadataUpdated
    | Created(kind: ItemKind) | Updated(kind: ItemKind)
    | Canvas(fallback: string)
    | Plain(name: string)
    | Removed(kind: ItemKind)

  datatype Change = Change(kind: ChangeKind, importance: string, action: bool)

  /** `classify_change` and `should_emit_change`, whatever they answer. */
  datatype Judge = Judge(classify: (Option<Fields>, Fields) -> Change,
      emits: (ChangeKind, Option<Fields>, Fields) -> bool)

  /** Where observations come from: Canvas or not, and whether the source name starts with `canvas:`. */
  datatype Source = Source(canvas: bool, qualified: bool)

  predicate Truthy(j: Json) {
    match j
    case Null => false
    case Bool(b) => b
    case Number(r) => r != 0.0
    case Text(s) => s != ""
    case List(items) => items != []
    case Object(fields) => fields != map[]
  }

  function Or(a: Json, b: Json): Json {
    if Truthy(a) then a else b
  }

  predicate Prefixed(kind: ItemKind) {
    kind in {Page, Module, ModuleItem, Announcement, Syllabus, AssignmentGroup}
  }

  function FileChanged(prior: Fields, next: Fields): Change {
    var oldName, newName :=
      Or(Get(prior, DisplayName), Get(prior, Filename)), Or(Get(next, DisplayName), Get(next, Filename));
    var oldSha, newSha :=
      Or(Get(prior, Sha256), Get(prior, ContentSha256)), Or(Get(next, Sha256), Get(next, ContentSha256));
    if Get(prior, Hidden) == Bool(true) && Get(next, Hidden) == Bool(false) then Change(NewFile, "important", false)
    else if oldName != newName then Change(FileRenamed, "minor", false)
    else if Truthy(oldSha) && Truthy(newSha) && oldSha != newSha then Change(FileChange, "important", false)
    else Change(FileMetadataUpdated, "minor", false)
  }

  function CanvasChange(raw: Raw, prior: Option<Fields>, judged: Change): Change {
    match raw.kind
    case Assignment =>
      if prior.None? then Change(AssignmentCreated, "important", true)
      else if Get(prior.value, DueAt) != Get(raw.fields, DueAt) then Change(DeadlineChanged, judged.importance, true)
      else if Get(prior.value, Published) == Bool(false) && Get(raw.fields, Published) == Bool(true)
        then Change(AssignmentPublished, "important", true)
      else Change(AssignmentUpdated, "important", true)
    case File => if prior.None? then Change(FileAdded, "minor", false) else FileChanged(prior.value, raw.fields)
    case _ =>
      if Prefixed(raw.kind)
      then Change(if prior.None? then Created(raw.kind) else Updated(raw.kind),
                  if raw.kind in {Announcement, Syllabus} then "important" else "minor", judged.action)
      else if judged.kind.Plain? then Change(Canvas(judged.kind.name), judged.importance, judged.action)
      else judged
  }

  function ChangeOf(raw: Raw, prior: Option<Fields>, src: Source, judge: Judge): Change {
    var judged := judge.classify(prior, raw.fields);
    if src.canvas && (src.qualified || (prior.None? && raw.kind in {Assignment, Announcement}))
    then CanvasChange(raw, prior, judged)
    else judged
  }

  // Events.

  datatype Identity = Stored(hash: Digest) | Deleted

  /** What `stable_change_key` is the hash of. */
  datatype SemanticKey = SemanticKey(item: string, kind: ChangeKind, prior: Option<Digest>, next: Identity)

  /** `prior` and `next` are places in the item's chain of snapshots. */
  datatype Event = Event(item: string, change: Change, prior: Option<nat>, next: Option<nat>, key: SemanticKey)

  datatype Outcome = Outcome(item: Item, event: Option<Event>)

  predicate Announces(raw: Raw, prior: Option<Fields>, src: Source, judge: Judge) {
    var kind := ChangeOf(raw, prior, src, judge).kind;
    judge.emits(kind, prior, raw.fields) || (src.canvas && raw.kind == File && kind == FileMetadataUpdated)
  }

  function LatestFields(item: Item): Option<Fields> {
    if item.snapshots == [] then None else Some(item.Latest().fields)
  }

  function LatestHash(item: Item): Option<Digest> {
    if item.snapshots == [] then None else Some(item.Latest().hash)
  }

  function KeyFor(item: Item, raw: Raw, digest: Digest, src: Source, judge: Judge): SemanticKey {
    SemanticKey(raw.id, ChangeOf(raw, LatestFields(item), src, judge).kind, LatestHash(item), Stored(digest))
  }

  function Extended(item: Item, raw: Raw, digest: Digest): Item {
    Item(item.kind, item.snapshots + [Snapshot(digest, raw.fields, raw.text)], digest, item.deleted)
  }

  /** A new snapshot, and the event for it unless it is a silent first one, is not worth announcing, or
      has been announced before. */
  function StoredAs(item: Item, raw: Raw, digest: Digest, src: Source, emitInitial: bool, judge: Judge,
      keys: set<SemanticKey>): Outcome {
    var after, key := Extended(item, raw, digest), KeyFor(item, raw, digest, src, judge);
    if (item.snapshots == [] && !emitInitial) || !Announces(raw, LatestFields(item), src, judge) || key in keys
    then Outcome(after, None)
    else
      Outcome(after, Some(Event(raw.id, ChangeOf(raw, LatestFields(item), src, judge),
        if item.snapshots == [] then None else Some(|item.snapshots| - 1), Some(|item.snapshots|), key)))
  }

  predicate Merges(item: Item, raw: Raw, src: Source) {
    item.snapshots != [] && src.canvas && raw.kind == Assignment
  }

  /** The response as it is compared and stored. */
  function Taken(item: Item, raw: Raw, src: Source): Raw {
    if Merges(item, raw, src) then Merged(raw, item.Latest()) else raw
  }

  function DigestTaken(item: Item, raw: Raw, src: Source): Digest {
    DigestOf(Taken(item, raw, src).fields, Taken(item, raw, src).text, raw.kind)
  }

  /** The latest snapshot hashed afresh, by the rules for the kind the item was created with. */
  function Upgraded(item: Item): Digest
    requires item.snapshots != []
  {
    DigestOf(item.Latest().fields, item.Latest().text, item.kind)
  }

  function Seen(item: Item): Item {
    Item(item.kind, item.snapshots, item.hash, false)
  }

  /** An item known only from a row that could not be fetched. */
  function Placeholder(raw: Raw): Item {
    Item(raw.kind, [], DigestOf(raw.fields, raw.text, raw.kind), false)
  }

  function Observed(known: Option<Item>, raw: Raw, src: Source, emitInitial: bool, judge: Judge,
      keys: set<SemanticKey>): Outcome {
    match known
    case None =>
      StoredAs(Placeholder(raw), raw, Placeholder(raw).hash, src, emitInitial, judge, keys)
    case Some(item) =>
      var digest := DigestTaken(item, raw, src);
      if item.hash == digest then Outcome(Seen(item), None)
      else if item.snapshots != [] && Upgraded(item) == digest then
        Outcome(Item(item.kind, item.snapshots, digest, false), None)
      else StoredAs(Seen(item), Taken(item, raw, src), digest, src, emitInitial, judge, keys)
  }

  // The chain of snapshots.

  predicate SameRules(a: ItemKind, b: ItemKind) {
    a == File <==> b == File
  }

  ghost predicate ChainSound(item: Item) {
    && (forall i :: 0 <= i < |item.snapshots| ==>
        item.snapshots[i].hash == DigestOf(item.snapshots[i].fields, item.snapshots[i].text, item.kind))
    && (forall i :: 0 < i < |item.snapshots| ==> item.snapshots[i].hash != item.snapshots[i - 1].hash)
    && (item.snapshots != [] ==> item.hash == item.Latest().hash)
  }

  /** The event starts the chain or goes from one snapshot to the next, and its key says which. */
  ghost predicate Spans(e: Event, item: Item, at: nat) {
    && at < |item.snapshots| && e.next == Some(at) && e.key.next == Stored(item.snapshots[at].hash)
    && e.key.item == e.item && e.key.kind == e.change.kind
    && (if at == 0 then e.prior == None && e.key.prior == None
        else e.prior == Some(at - 1) && e.key.prior == Some(item.snapshots[at - 1].hash))
  }

  lemma ExtendedIsSound(item: Item, raw: Raw)
    requires ChainSound(item) && SameRules(item.kind, raw.kind)
    requires item.snapshots != [] ==> item.hash != DigestOf(raw.fields, raw.text, raw.kind)
    ensures ChainSound(Extended(item, raw, DigestOf(raw.fields, raw.text, raw.kind)))
  {
    assert DigestOf(raw.fields, raw.text, raw.kind) == DigestOf(raw.fields, raw.text, item.kind);
  }

  lemma StoredEventSpans(item: Item, raw: Raw, digest: Digest, src: Source, emitInitial: bool, judge: Judge,
      keys: set<SemanticKey>)
    ensures var out := StoredAs(item, raw, digest, src, emitInitial, judge, keys);
      out.item == Extended(item, raw, digest)
      && (out.event.Some? ==>
          && Spans(out.event.value, out.item, |item.snapshots|)
          && out.event.value.item == raw.id && out.event.value.key !in keys)
  {
  }

  function Chain(known: Option<Item>): seq<Snapshot> {
    if known.Some? then known.value.snapshots else []
  }

  /** The response brings nothing new. */
  predicate Unchanged(known: Option<Item>, raw: Raw, src: Source) {
    known.Some? && DigestTaken(known.value, raw, src) == known.value.hash
  }

  /** On a sound chain the current hash decides alone: the stored digest is never out of date. */
  lemma ObservedByHash(known: Option<Item>, raw: Raw, src: Source, emitInitial: bool, judge: Judge,
      keys: set<SemanticKey>)
    requires known.Some? ==> ChainSound(known.value) && SameRules(known.value.kind, raw.kind)
    ensures Observed(known, raw, src, emitInitial, judge, keys) ==
      if Unchanged(known, raw, src) then Outcome(Seen(known.value), None)
      else if known.None? then StoredAs(Placeholder(raw), raw, Placeholder(raw).hash, src, emitInitial, judge, keys)
      else StoredAs(Seen(known.value), Taken(known.value, raw, src), DigestTaken(known.value, raw, src), src,
        emitInitial, judge, keys)
  {
    if known.Some? && known.value.snapshots != [] {
      assert Upgraded(known.value) == known.value.hash;
    }
  }

  lemma MergingKeepsIdentity(item: Item, raw: Raw, src: Source)
    ensures Taken(item, raw, src).kind == raw.kind && Taken(item, raw, src).id == raw.id
  {
  }

  /** What every observation does: the chain stays sound, grows exactly when the content taken differs from
      what is current, and any event spans the new snapshot and the one before it. */
  ghost predicate ChainKept(known: Option<Item>, raw: Raw, src: Source, out: Outcome, keys: set<SemanticKey>) {
    && ChainSound(out.item) && !out.item.deleted
    && out.item.kind == (if known.Some? then known.value.kind else raw.kind)
    && (Unchanged(known, raw, src) ==> out.item.snapshots == Chain(known) && out.event == None)
    && (!Unchanged(known, raw, src) ==>
        |out.item.snapshots| == |Chain(known)| + 1 && out.item.snapshots[..|Chain(known)|] == Chain(known))
    && (out.event.Some? ==>
        && Spans(out.event.value, out.item, |Chain(known)|)
        && out.event.value.item == raw.id && out.event.value.key !in keys)
  }

  lemma FirstKeepsTheChain(raw: Raw, src: Source, emitInitial: bool, judge: Judge, keys: set<SemanticKey>)
    ensures ChainKept(None, raw, src, Observed(None, raw, src, emitInitial, judge, keys), keys)
  {
    ExtendedIsSound(Placeholder(raw), raw);
    StoredEventSpans(Placeholder(raw), raw, Placeholder(raw).hash, src, emitInitial, judge, keys);
  }

  lemma LaterKeepsTheChain(item: Item, raw: Raw, src: Source, emitInitial: bool, judge: Judge, keys: set<SemanticKey>)
    requires ChainSound(item) && SameRules(item.kind, raw.kind)
    ensures ChainKept(Some(item), raw, src, Observed(Some(item), raw, src, emitInitial, judge, keys), keys)
  {
    ObservedByHash(Some(item), raw, src, emitInitial, judge, keys);
    if !Unchanged(Some(item), raw, src) {
      var taken := Taken(item, raw, src);
      MergingKeepsIdentity(item, raw, src);
      ExtendedIsSound(Seen(item), taken);
      StoredEventSpans(Seen(item), taken, DigestTaken(item, raw, src), src, emitInitial, judge, keys);
    }
  }

  lemma ObservingKeepsTheChain(known: Option<Item>, raw: Raw, src: Source, emitInitial: bool, judge: Judge,
      keys: set<SemanticKey>)
    requires known.Some? ==> ChainSound(known.value) && SameRules(known.value.kind, raw.kind)
    ensures ChainKept(known, raw, src, Observed(known, raw, src, emitInitial, judge, keys), keys)
  {
    if known.Some? {
      LaterKeepsTheChain(known.value, raw, src, emitInitial, judge, keys);
    } else {
      FirstKeepsTheChain(raw, src, emitInitial, judge, keys);
    }
  }
}
