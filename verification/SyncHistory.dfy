/** Histories of observations and removals (backend/hotfix_sync.py): the event log against the chains of
    snapshots, and runs repeated. */
module SyncHistory {
  import opened Documents
  import opened Observations
  import opened LastKnown
  import opened SyncRun

  datatype Action = Take(row: Row, s: Setting) | Remove(id: string, emit: bool)

  function Acted(c: Catalog, a: Action): Catalog {
    match a
    case Take(row, s) => RowTaken(c, row, s)
    case Remove(id, emit) => if id in c.items then RemovedIn(c, id, emit) else c
  }

  function After(actions: seq<Action>): Catalog {
    if actions == [] then Catalog(map[], []) else Acted(After(actions[..|actions| - 1]), actions[|actions| - 1])
  }

  /** An event of an observation starts the chain or spans two adjacent snapshots; one of a removal leaves
      from a snapshot of the item, or from nothing when it had none. */
  ghost predicate Fits(e: Event, item: Item) {
    && e.key.item == e.item && e.key.kind == e.change.kind
    && match e.key.next
       case Stored(_) => e.next.Some? && Spans(e, item, e.next.value)
       case Deleted =>
         && e.next == None && e.change.kind == Removed(item.kind)
         && (e.prior.None? ==> e.key.prior == None)
         && (e.prior.Some? ==>
           e.prior.value < |item.snapshots| && e.key.prior == Some(item.snapshots[e.prior.value].hash))
  }

  ghost predicate EventsFit(c: Catalog) {
    forall i :: 0 <= i < |c.events| ==> c.events[i].item in c.items && Fits(c.events[i], c.items[c.events[i].item])
  }

  predicate KeysDiffer(events: seq<Event>) {
    forall i, j :: 0 <= i < j < |events| ==> events[i].key != events[j].key
  }

  ghost predicate ItemsSound(c: Catalog, kindOf: string -> ItemKind) {
    forall id :: id in c.items ==> ChainSound(c.items[id]) && c.items[id].kind == kindOf(id)
  }

  predicate Extends(a: Item, b: Item) {
    a.kind == b.kind && |a.snapshots| <= |b.snapshots| && b.snapshots[..|a.snapshots|] == a.snapshots
  }

  ghost predicate AllExtend(c: Catalog, d: Catalog) {
    forall id :: id in c.items ==> id in d.items && Extends(c.items[id], d.items[id])
  }

  lemma StillFits(e: Event, a: Item, b: Item)
    requires Fits(e, a) && Extends(a, b)
    ensures Fits(e, b)
  {
    assert forall i :: 0 <= i < |a.snapshots| ==> b.snapshots[..|a.snapshots|][i] == b.snapshots[i];
  }

  lemma EventsStillFit(c: Catalog, d: Catalog)
    requires EventsFit(c) && AllExtend(c, d) && d.events == c.events
    ensures EventsFit(d)
  {
    forall i | 0 <= i < |d.events| ensures d.events[i].item in d.items && Fits(d.events[i], d.items[d.events[i].item]) {
      StillFits(c.events[i], c.items[c.events[i].item], d.items[c.events[i].item]);
    }
  }

  lemma NewKeyDiffers(events: seq<Event>, e: Event)
    requires KeysDiffer(events) && e.key !in Keys(events)
    ensures KeysDiffer(events + [e])
  {
    assert forall i :: 0 <= i < |events| ==> events[i].key in Keys(events);
  }

  lemma EventAdded(c: Catalog, e: Event)
    requires EventsFit(c) && KeysDiffer(c.events) && e.item in c.items && Fits(e, c.items[e.item])
      && e.key !in Keys(c.events)
    ensures EventsFit(Catalog(c.items, c.events + [e])) && KeysDiffer(c.events + [e])
  {
    NewKeyDiffers(c.events, e);
  }

  ghost predicate Sound(c: Catalog, kindOf: string -> ItemKind) {
    ItemsSound(c, kindOf) && EventsFit(c) && KeysDiffer(c.events)
  }

  /** One item is new or goes on from what it was. */
  lemma PutItemIsSound(c: Catalog, id: string, item: Item, kindOf: string -> ItemKind)
    requires Sound(c, kindOf) && ChainSound(item) && item.kind == kindOf(id)
      && (id in c.items ==> Extends(c.items[id], item))
    ensures Sound(Catalog(c.items[id := item], c.events), kindOf)
  {
    EventsStillFit(c, Catalog(c.items[id := item], c.events));
  }

  lemma ObservedExtends(known: Option<Item>, raw: Raw, s: Setting, keys: set<SemanticKey>)
    requires known.Some? ==> ChainSound(known.value) && known.value.kind == raw.kind
    ensures var out := Observed(known, raw, s.src, s.emit, s.judge, keys);
      && ChainSound(out.item) && out.item.kind == raw.kind
      && (known.Some? ==> Extends(known.value, out.item))
      && (out.event.Some? ==>
        out.event.value.item == raw.id && Fits(out.event.value, out.item) && out.event.value.key !in keys)
  {
    ObservingKeepsTheChain(known, raw, s.src, s.emit, s.judge, keys);
  }

  lemma RowIsSound(c: Catalog, row: Row, s: Setting, kindOf: string -> ItemKind)
    requires Sound(c, kindOf) && kindOf(row.raw.id) == row.raw.kind
    ensures Sound(RowTaken(c, row, s), kindOf)
  {
    if row.pending {
      if row.raw.id !in c.items {
        PutItemIsSound(c, row.raw.id, Placeholder(row.raw), kindOf);
      }
    } else {
      var out := Observe(c, row.raw, s);
      ObservedExtends(Find(c, row.raw.id), row.raw, s, Keys(c.events));
      PutItemIsSound(c, row.raw.id, out.item, kindOf);
      if out.event.Some? {
        EventAdded(Catalog(c.items[row.raw.id := out.item], c.events), out.event.value);
      }
    }
  }

  lemma RemovalFits(id: string, item: Item)
    ensures Fits(RemovalEvent(id, item), Marked(item, true))
  {
  }

  lemma RemovalIsSound(c: Catalog, id: string, emit: bool, kindOf: string -> ItemKind)
    requires Sound(c, kindOf) && id in c.items
    ensures Sound(RemovedIn(c, id, emit), kindOf)
  {
    var item, r := c.items[id], RemovedIn(c, id, emit);
    if !item.deleted {
      PutItemIsSound(c, id, Marked(item, true), kindOf);
      if r.events != c.events {
        RemovalFits(id, item);
        EventAdded(Catalog(c.items[id := Marked(item, true)], c.events), RemovalEvent(id, item));
      }
    }
  }

  /** Whatever is observed, found gone or left unfetched, in whatever order and however runs are cut short:
      each item's current hash is that of its latest snapshot, adjacent snapshots differ, every event spans
      adjacent snapshots (or starts or ends a chain), and no two events share a semantic key. */
  lemma {:induction false} HistoriesAreSound(actions: seq<Action>, kindOf: string -> ItemKind)
    requires forall i :: 0 <= i < |actions| && actions[i].Take? ==>
      kindOf(actions[i].row.raw.id) == actions[i].row.raw.kind
    ensures Sound(After(actions), kindOf)
  {
    if actions != [] {
      var before, a := actions[..|actions| - 1], actions[|actions| - 1];
      HistoriesAreSound(before, kindOf);
      match a
      case Take(row, s) => RowIsSound(After(before), row, s, kindOf);
      case Remove(id, emit) => if id in After(before).items { RemovalIsSound(After(before), id, emit, kindOf); }
    }
  }

  // The same run again.

  ghost predicate FetchedOnce(rows: seq<Row>) {
    && (forall i :: 0 <= i < |rows| ==> !rows[i].pending)
    && (forall i, j :: 0 <= i < j < |rows| ==> rows[i].raw.id != rows[j].raw.id)
  }

  /** The catalogs between the rows of a run. */
  function States(c: Catalog, rows: seq<Row>, s: Setting): (states: seq<Catalog>)
    ensures |states| == |rows| + 1 && forall i :: 0 <= i <= |rows| ==> states[i] == RowsTaken(c, rows, i, s)
  {
    seq(|rows| + 1, i requires 0 <= i <= |rows| => RowsTaken(c, rows, i, s))
  }

  ghost predicate OthersLeave(states: seq<Catalog>, rows: seq<Row>, id: string) {
    |states| == |rows| + 1 && forall i :: 0 <= i < |rows| && rows[i].raw.id != id ==>
      Find(states[i + 1], id) == Find(states[i], id)
  }

  lemma StatesLeaveOthers(c: Catalog, rows: seq<Row>, s: Setting, id: string)
    ensures OthersLeave(States(c, rows, s), rows, id)
  {
    forall i | 0 <= i < |rows| && rows[i].raw.id != id
      ensures Find(RowsTaken(c, rows, i + 1, s), id) == Find(RowsTaken(c, rows, i, s), id)
    {
      OtherRowKeeps(RowsTaken(c, rows, i, s), rows[i], s, id);
    }
  }

  lemma {:induction false} OtherRowsLeave(states: seq<Catalog>, rows: seq<Row>, m: nat, n: nat, id: string)
    requires OthersLeave(states, rows, id) && m <= n <= |rows| && forall i :: m <= i < n ==> rows[i].raw.id != id
    ensures Find(states[n], id) == Find(states[m], id)
  {
    if m < n {
      OtherRowsLeave(states, rows, m, n - 1, id);
    }
  }

  lemma OwnRow(c: Catalog, rows: seq<Row>, i: nat, s: Setting)
    requires i < |rows| && !rows[i].pending
    ensures Find(RowsTaken(c, rows, i + 1, s), rows[i].raw.id)
      == Some(Observe(RowsTaken(c, rows, i, s), rows[i].raw, s).item)
  {
  }

  lemma OwnState(c: Catalog, rows: seq<Row>, i: nat, s: Setting)
    requires i < |rows| && !rows[i].pending
    ensures Find(States(c, rows, s)[i + 1], rows[i].raw.id) == Some(Observe(States(c, rows, s)[i], rows[i].raw, s).item)
  {
    OwnRow(c, rows, i, s);
  }

  /** A row's item is left as that row alone makes it. */
  lemma RowStands(c: Catalog, rows: seq<Row>, i: nat, s: Setting, states: seq<Catalog>)
    requires i < |rows| && FetchedOnce(rows) && states == States(c, rows, s)
    ensures Find(states[i], rows[i].raw.id) == Find(states[0], rows[i].raw.id)
    ensures Find(states[|rows|], rows[i].raw.id) == Some(Observe(states[i], rows[i].raw, s).item)
  {
    StatesLeaveOthers(c, rows, s, rows[i].raw.id);
    OtherRowsLeave(states, rows, 0, i, rows[i].raw.id);
    OwnState(c, rows, i, s);
    OtherRowsLeave(states, rows, i + 1, |rows|, rows[i].raw.id);
  }

  lemma SettledRow(c: Catalog, row: Row, s: Setting)
    requires !row.pending && row.raw.id in c.items && Observe(c, row.raw, s) == Outcome(c.items[row.raw.id], None)
    ensures RowTaken(c, row, s) == c
  {
    assert c.items[row.raw.id := c.items[row.raw.id]] == c.items;
  }

  lemma {:induction false} SettledRowsChangeNothing(c: Catalog, rows: seq<Row>, n: nat, s: Setting)
    requires n <= |rows| && forall i :: 0 <= i < n ==> RowTaken(c, rows[i], s) == c
    ensures RowsTaken(c, rows, n, s) == c
  {
    if n > 0 {
      SettledRowsChangeNothing(c, rows, n - 1, s);
    }
  }

  lemma {:induction false} NothingToReconcile(c: Catalog, order: seq<string>, n: nat, seen: ItemKind -> set<string>,
      emit: bool)
    requires n <= |order| && forall i :: 0 <= i < |order| ==> order[i] in c.items
    requires forall i :: 0 <= i < |order| ==> c.items[order[i]].deleted || order[i] in seen(c.items[order[i]].kind)
    ensures Reconciled(c, order, n, seen, emit) == c
  {
    if n > 0 {
      NothingToReconcile(c, order, n - 1, seen, emit);
    }
  }

  ghost predicate TypedRows(c: Catalog, rows: seq<Row>) {
    forall i :: 0 <= i < |rows| ==> TypedAt(c, rows, rows[i].raw.id, rows[i].raw.kind)
  }

  predicate IsObserved(item: Option<Item>, c: Catalog, raw: Raw, s: Setting, keys: set<SemanticKey>) {
    item == Some(Observed(Find(c, raw.id), raw, s.src, s.emit, s.judge, keys).item)
  }

  /** What a run makes of one of its rows' items. */
  lemma {:induction false} RowAfterRun(c: Catalog, rows: seq<Row>, order: seq<string>, successful: set<ItemKind>,
      s: Setting, i: nat)
    requires FetchedOnce(rows) && TypedRows(c, rows) && i < |rows|
      && Selects(order, RowsTaken(c, rows, |rows|, s).items, successful)
    ensures exists keys :: IsObserved(Find(AfterRun(c, rows, order, successful, s), rows[i].raw.id), c, rows[i].raw, s,
      keys)
  {
    var raw, states := rows[i].raw, States(c, rows, s);
    RowStands(c, rows, i, s, states);
    assert states[0] == c;
    assert TypedAt(c, rows, raw.id, raw.kind) && Mentioned(rows, |rows|, raw.id);
    RunMarksExactlyTheUnseen(c, rows, order, successful, s, raw.id, raw.kind);
    var keys := Keys(states[i].events);
    assert IsObserved(Find(AfterRun(c, rows, order, successful, s), raw.id), c, raw, s, keys);
  }

  lemma {:induction false} RowSettles(c: Catalog, rows: seq<Row>, order: seq<string>, successful: set<ItemKind>,
      s: Setting, emitAgain: bool, i: nat)
    requires FetchedOnce(rows) && TypedRows(c, rows) && i < |rows|
      && Selects(order, RowsTaken(c, rows, |rows|, s).items, successful)
    ensures var r := AfterRun(c, rows, order, successful, s);
      RowTaken(r, rows[i], Setting(s.src, emitAgain, s.judge)) == r
  {
    var raw, r := rows[i].raw, AfterRun(c, rows, order, successful, s);
    RowAfterRun(c, rows, order, successful, s, i);
    var keys :| IsObserved(Find(r, raw.id), c, raw, s, keys);
    assert TypedAt(c, rows, raw.id, raw.kind);
    ObservingTwiceIsObservingOnce(Find(c, raw.id), raw, s.src, s.judge, s.emit, keys, emitAgain, Keys(r.events));
    SettledRow(r, rows[i], Setting(s.src, emitAgain, s.judge));
  }

  /** A second run over the same distinct, fetched rows leaves the catalog exactly as it is: no snapshot, no
      event, no mark. */
  lemma {:induction false} SecondRunIsSilent(c: Catalog, rows: seq<Row>, order: seq<string>, orderAgain: seq<string>,
      successful: set<ItemKind>, s: Setting, emitAgain: bool)
    requires FetchedOnce(rows) && TypedRows(c, rows)
    requires Selects(order, RowsTaken(c, rows, |rows|, s).items, successful)
    requires Selects(orderAgain, AfterRun(c, rows, order, successful, s).items, successful)
    ensures var r, again := AfterRun(c, rows, order, successful, s), Setting(s.src, emitAgain, s.judge);
      && RowsTaken(r, rows, |rows|, again) == r
      && AfterRun(r, rows, orderAgain, successful, again) == r
  {
    var taken, r, again :=
      RowsTaken(c, rows, |rows|, s), AfterRun(c, rows, order, successful, s), Setting(s.src, emitAgain, s.judge);
    forall i | 0 <= i < |rows| ensures RowTaken(r, rows[i], again) == r {
      RowSettles(c, rows, order, successful, s, emitAgain, i);
    }
    SettledRowsChangeNothing(r, rows, |rows|, again);
    forall i | 0 <= i < |orderAgain|
      ensures r.items[orderAgain[i]].deleted || orderAgain[i] in SeenOf(rows, |rows|, r.items[orderAgain[i]].kind)
    {
      ReconcilingMarks(taken, order, |order|, kind => SeenOf(rows, |rows|, kind), s.emit, orderAgain[i]);
      assert order[..|order|] == order;
    }
    NothingToReconcile(r, orderAgain, |orderAgain|, kind => SeenOf(rows, |rows|, kind), emitAgain);
  }

  // What goes unannounced.

  /** A stored change is announced exactly when it extends a chain, or first sightings are announced too, it
      is worth it, and the same change, between the same two contents, was never announced before. */
  lemma AnnouncedExactlyOnce(c: Catalog, raw: Raw, s: Setting)
    requires raw.id in c.items && ChainSound(c.items[raw.id]) && SameRules(c.items[raw.id].kind, raw.kind)
    requires !Unchanged(Find(c, raw.id), raw, s.src)
    ensures var item := c.items[raw.id]; var taken := Taken(item, raw, s.src);
      Observe(c, raw, s).event.Some? <==>
        && (item.snapshots != [] || s.emit)
        && Announces(taken, LatestFields(item), s.src, s.judge)
        && forall i :: 0 <= i < |c.events| ==>
             c.events[i].key != KeyFor(item, taken, DigestTaken(item, raw, s.src), s.src, s.judge)
  {
    ObservedByHash(Find(c, raw.id), raw, s.src, s.emit, s.judge, Keys(c.events));
    MergingKeepsIdentity(c.items[raw.id], raw, s.src);
  }

  const EAGER :=
    Judge((prior: Option<Fields>, next: Fields) => Change(Plain("updated"), "minor", false),
      (kind, prior, next) => true)
  const WEBSITE := Setting(Source(false, false), true, EAGER)

  function PageRow(text: string): Row {
    Row(Raw("page", Page, map[], text), false)
  }

  function PageDigest(text: string): Digest {
    DigestOf(map[], text, Page)
  }

  function PageKey(prior: Option<Digest>, text: string): SemanticKey {
    SemanticKey("page", Plain("updated"), prior, Stored(PageDigest(text)))
  }

  lemma PageSeen(c: Catalog, text: string)
    requires "page" in c.items && ChainSound(c.items["page"]) && c.items["page"].kind == Page
      && c.items["page"].snapshots != []
    requires c.items["page"].hash != PageDigest(text)
    ensures var r, item := RowTaken(c, PageRow(text), WEBSITE), c.items["page"];
      && "page" in r.items && r.items["page"] == Extended(Seen(item), PageRow(text).raw, PageDigest(text))
      && ChainSound(r.items["page"])
      && |r.events| == |c.events| + (if PageKey(Some(item.Latest().hash), text) in Keys(c.events) then 0 else 1)
      && r.events[..|c.events|] == c.events
      && PageKey(Some(item.Latest().hash), text) in Keys(r.events)
  {
    var item, raw := c.items["page"], PageRow(text).raw;
    ObservedByHash(Find(c, "page"), raw, WEBSITE.src, true, EAGER, Keys(c.events));
    ExtendedIsSound(Seen(item), raw);
    var r := RowTaken(c, PageRow(text), WEBSITE);
    if |r.events| == |c.events| + 1 {
      assert r.events[|c.events|].key == PageKey(Some(item.Latest().hash), text);
    }
  }

  lemma FirstPage(text: string)
    ensures var r := RowTaken(Catalog(map[], []), PageRow(text), WEBSITE);
      && "page" in r.items
      && r.items["page"] == Item(Page, [Snapshot(PageDigest(text), map[], text)], PageDigest(text), false)
      && ChainSound(r.items["page"]) && |r.events| <= 1
  {
  }

  /** Content that goes back and forth: the second change from `a` to `b` is stored but not announced. */
  lemma TheThirdFlipIsSilent()
    ensures var c :=
      RowsTaken(Catalog(map[], []), [PageRow("a"), PageRow("b"), PageRow("a"), PageRow("b")], 4, WEBSITE);
      "page" in c.items && |c.items["page"].snapshots| == 4 && |c.events| <= 3
  {
    var rows := [PageRow("a"), PageRow("b"), PageRow("a"), PageRow("b")];
    var c0 := Catalog(map[], []);
    assert RowsTaken(c0, rows, 0, WEBSITE) == c0;
    FirstPage("a");
    var c1 := RowsTaken(c0, rows, 1, WEBSITE);
    PageSeen(c1, "b");
    var c2 := RowsTaken(c0, rows, 2, WEBSITE);
    PageSeen(c2, "a");
    var c3 := RowsTaken(c0, rows, 3, WEBSITE);
    StillAnnounced(c2.events, c3.events, PageKey(Some(PageDigest("a")), "b"));
    PageSeen(c3, "b");
  }

  lemma StillAnnounced(a: seq<Event>, b: seq<Event>, key: SemanticKey)
    requires |a| <= |b| && b[..|a|] == a && key in Keys(a)
    ensures key in Keys(b)
  {
    var i :| 0 <= i < |a| && a[i].key == key;
    assert b[..|a|][i] == b[i];
  }
}
