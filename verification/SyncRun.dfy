/** backend/hotfix_sync.py: the rows of one course and source, a whole run over them, and reconciliation. */
module SyncRun {
  import opened Documents
  import opened Observations

  /** Items by external id, and every change event so far. */
  datatype Catalog = Catalog(items: map<string, Item>, events: seq<Event>)

  /** One row of an adapter's answer; `pending` when its fetch status asks for authentication. */
  datatype Row = Row(raw: Raw, pending: bool)

  /** What does not change during a run. */
  datatype Setting = Setting(src: Source, emit: bool, judge: Judge)

  function Keys(events: seq<Event>): set<SemanticKey> {
    set i | 0 <= i < |events| :: events[i].key
  }

  function Find(c: Catalog, id: string): Option<Item> {
    if id in c.items then Some(c.items[id]) else None
  }

  function Added(events: seq<Event>, event: Option<Event>): seq<Event> {
    if event.Some? then events + [event.value] else events
  }

  function Observe(c: Catalog, raw: Raw, s: Setting): Outcome {
    Observed(Find(c, raw.id), raw, s.src, s.emit, s.judge, Keys(c.events))
  }

  function RowTaken(c: Catalog, row: Row, s: Setting): Catalog {
    if row.pending then
      if row.raw.id in c.items then c else Catalog(c.items[row.raw.id := Placeholder(row.raw)], c.events)
    else
      var out := Observe(c, row.raw, s);
      Catalog(c.items[row.raw.id := out.item], Added(c.events, out.event))
  }

  function RowsTaken(c: Catalog, rows: seq<Row>, n: nat, s: Setting): Catalog
    requires n <= |rows|
  {
    if n == 0 then c else RowTaken(RowsTaken(c, rows, n - 1, s), rows[n - 1], s)
  }

  /** The ids of one kind among the first `n` rows, fetched or not. */
  function SeenOf(rows: seq<Row>, n: nat, kind: ItemKind): set<string>
    requires n <= |rows|
  {
    set i | 0 <= i < n && rows[i].raw.kind == kind :: rows[i].raw.id
  }

  function RemovalKey(id: string, item: Item): SemanticKey {
    SemanticKey(id, Removed(item.kind), LatestHash(item), Deleted)
  }

  function RemovalEvent(id: string, item: Item): Event {
    var change :=
      Change(Removed(item.kind), if item.kind == Assignment then "important" else "minor", item.kind == Assignment);
    Event(id, change,
      if item.snapshots == [] then None else Some(|item.snapshots| - 1), None, RemovalKey(id, item))
  }

  /** An item already marked is passed over; a removal announced before is not announced again. */
  function RemovedIn(c: Catalog, id: string, emit: bool): Catalog
    requires id in c.items
  {
    var item := c.items[id];
    if item.deleted then c
    else
      Catalog(c.items[id := Item(item.kind, item.snapshots, item.hash, true)],
              if emit && RemovalKey(id, item) !in Keys(c.events) then c.events + [RemovalEvent(id, item)] else c.events)
  }

  function Reconciled(c: Catalog, order: seq<string>, n: nat, seen: ItemKind -> set<string>, emit: bool): (r: Catalog)
    requires n <= |order| && forall i :: 0 <= i < |order| ==> order[i] in c.items
    ensures r.items.Keys == c.items.Keys
  {
    if n == 0 then c
    else
      var before, id := Reconciled(c, order, n - 1, seen, emit), order[n - 1];
      if id in seen(before.items[id].kind) then before else RemovedIn(before, id, emit)
  }

  /** `order` lists the items of the kinds fetched successfully, as the query may return them. */
  predicate Selects(order: seq<string>, items: map<string, Item>, successful: set<ItemKind>) {
    && (forall i :: 0 <= i < |order| ==> order[i] in items && items[order[i]].kind in successful)
    && (forall id :: id in items && items[id].kind in successful ==> id in order)
  }

  function AfterRun(c: Catalog, rows: seq<Row>, order: seq<string>, successful: set<ItemKind>, s: Setting): Catalog
    requires Selects(order, RowsTaken(c, rows, |rows|, s).items, successful)
  {
    Reconciled(RowsTaken(c, rows, |rows|, s), order, |order|, kind => SeenOf(rows, |rows|, kind), s.emit)
  }

  // One id through a run.

  /** External ids name their kind: rows and the item of one id agree on it. */
  ghost predicate TypedAt(c: Catalog, rows: seq<Row>, id: string, kind: ItemKind) {
    && (id in c.items ==> c.items[id].kind == kind && ChainSound(c.items[id]))
    && (forall i :: 0 <= i < |rows| && rows[i].raw.id == id ==> rows[i].raw.kind == kind)
  }

  predicate Mentioned(rows: seq<Row>, n: nat, id: string)
    requires n <= |rows|
  {
    exists i :: 0 <= i < n && rows[i].raw.id == id
  }

  predicate Fetched(rows: seq<Row>, n: nat, id: string)
    requires n <= |rows|
  {
    exists i :: 0 <= i < n && rows[i].raw.id == id && !rows[i].pending
  }

  function WasDeleted(c: Catalog, id: string): bool {
    id in c.items && c.items[id].deleted
  }

  lemma OwnRowKeeps(c: Catalog, row: Row, s: Setting)
    requires row.raw.id in c.items ==> c.items[row.raw.id].kind == row.raw.kind && ChainSound(c.items[row.raw.id])
    ensures var r, id := RowTaken(c, row, s), row.raw.id;
      && id in r.items && r.items[id].kind == row.raw.kind && ChainSound(r.items[id])
      && r.items[id].deleted == (row.pending && WasDeleted(c, id))
  {
    if !row.pending {
      ObservingKeepsTheChain(Find(c, row.raw.id), row.raw, s.src, s.emit, s.judge, Keys(c.events));
    }
  }

  lemma OtherRowKeeps(c: Catalog, row: Row, s: Setting, id: string)
    requires id != row.raw.id
    ensures Find(RowTaken(c, row, s), id) == Find(c, id)
  {
  }

  /** What the first `n` rows have made of `id`. */
  ghost predicate KeptBy(c: Catalog, r: Catalog, rows: seq<Row>, n: nat, id: string, kind: ItemKind)
    requires n <= |rows|
  {
    && TypedAt(r, rows, id, kind)
    && (id in r.items <==> id in c.items || Mentioned(rows, n, id))
    && (!Mentioned(rows, n, id) ==> Find(r, id) == Find(c, id))
    && WasDeleted(r, id) == (!Fetched(rows, n, id) && WasDeleted(c, id))
  }

  lemma OneMoreRowKeeps(c: Catalog, before: Catalog, rows: seq<Row>, n: nat, s: Setting, id: string, kind: ItemKind)
    requires 0 < n <= |rows| && KeptBy(c, before, rows, n - 1, id, kind)
    ensures KeptBy(c, RowTaken(before, rows[n - 1], s), rows, n, id, kind)
  {
    var row := rows[n - 1];
    if row.raw.id == id {
      OwnRowKeeps(before, row, s);
      assert Mentioned(rows, n, id);
    } else {
      OtherRowKeeps(before, row, s, id);
      assert Mentioned(rows, n, id) == Mentioned(rows, n - 1, id) && Fetched(rows, n, id) == Fetched(rows, n - 1, id);
    }
  }

  /** After the rows an item exists exactly when it did or some row named it, and it is marked deleted
      exactly when it was and no row fetched it. */
  lemma {:induction false} RowsKeep(c: Catalog, rows: seq<Row>, n: nat, s: Setting, id: string, kind: ItemKind)
    requires n <= |rows| && TypedAt(c, rows, id, kind)
    ensures KeptBy(c, RowsTaken(c, rows, n, s), rows, n, id, kind)
  {
    if n > 0 {
      RowsKeep(c, rows, n - 1, s, id, kind);
      OneMoreRowKeeps(c, RowsTaken(c, rows, n - 1, s), rows, n, s, id, kind);
    }
  }

  function Marked(item: Item, deleted: bool): Item {
    Item(item.kind, item.snapshots, item.hash, item.deleted || deleted)
  }

  lemma {:induction false} ReconcilingMarks(c: Catalog, order: seq<string>, n: nat, seen: ItemKind -> set<string>,
      emit: bool, id: string)
    requires n <= |order| && (forall i :: 0 <= i < |order| ==> order[i] in c.items) && id in c.items
    ensures Reconciled(c, order, n, seen, emit).items[id]
      == Marked(c.items[id], id in order[..n] && id !in seen(c.items[id].kind))
  {
    if n > 0 {
      ReconcilingMarks(c, order, n - 1, seen, emit, id);
      assert order[..n] == order[..n - 1] + [order[n - 1]];
    }
  }

  lemma SeenIsMentioned(rows: seq<Row>, id: string, kind: ItemKind)
    requires forall i :: 0 <= i < |rows| && rows[i].raw.id == id ==> rows[i].raw.kind == kind
    ensures id in SeenOf(rows, |rows|, kind) <==> Mentioned(rows, |rows|, id)
  {
    if i :| 0 <= i < |rows| && rows[i].raw.id == id {
      assert rows[i].raw.kind == kind;
    }
  }

  /** After a whole run: an item of a successfully fetched kind is marked deleted exactly when no row of the
      run named it, or it was marked before and no row fetched it; other items are as the rows left them. */
  lemma {:induction false} RunMarksExactlyTheUnseen(c: Catalog, rows: seq<Row>, order: seq<string>,
      successful: set<ItemKind>, s: Setting, id: string, kind: ItemKind)
    requires TypedAt(c, rows, id, kind) && (id in c.items || Mentioned(rows, |rows|, id))
    requires Selects(order, RowsTaken(c, rows, |rows|, s).items, successful)
    ensures var r, taken := AfterRun(c, rows, order, successful, s), RowsTaken(c, rows, |rows|, s);
      && id in r.items && id in taken.items && TypedAt(r, rows, id, kind)
      && r.items[id] == Marked(taken.items[id], kind in successful && !Mentioned(rows, |rows|, id))
      && (r.items[id].deleted <==>
          (kind in successful && !Mentioned(rows, |rows|, id)) || (!Fetched(rows, |rows|, id) && WasDeleted(c, id)))
  {
    RowsKeep(c, rows, |rows|, s, id, kind);
    ReconcilingMarks(RowsTaken(c, rows, |rows|, s), order, |order|, kind => SeenOf(rows, |rows|, kind), s.emit, id);
    assert order[..|order|] == order;
    SeenIsMentioned(rows, id, kind);
  }

  /** So being named keeps an item unmarked exactly when some row fetched it or it was unmarked before: a
      row waiting for authentication does not bring a removed item back. */
  lemma {:induction false} NamedItemsStayUnlessUnfetched(c: Catalog, rows: seq<Row>, order: seq<string>,
      successful: set<ItemKind>, s: Setting, id: string, kind: ItemKind)
    requires TypedAt(c, rows, id, kind) && Mentioned(rows, |rows|, id)
    requires Selects(order, RowsTaken(c, rows, |rows|, s).items, successful)
    ensures id in AfterRun(c, rows, order, successful, s).items
    ensures !AfterRun(c, rows, order, successful, s).items[id].deleted <==>
      Fetched(rows, |rows|, id) || !WasDeleted(c, id)
  {
    RunMarksExactlyTheUnseen(c, rows, order, successful, s, id, kind);
  }
}
