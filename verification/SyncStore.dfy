/** backend/hotfix_sync.py: the items and change events of one course and source, updated row by row. */
module SyncStore {
  import opened Documents
  import opened LastKnown
  import opened ObservationEffects
  import opened Observations
  import opened SyncRun

  function SeenIn(seen: map<ItemKind, set<string>>): ItemKind -> set<string> {
    kind => if kind in seen then seen[kind] else {}
  }

  lemma {:induction false} SameSeenReconcilesAlike(c: Catalog, order: seq<string>, n: nat,
      f: ItemKind -> set<string>, g: ItemKind -> set<string>, emit: bool)
    requires n <= |order| && forall i :: 0 <= i < |order| ==> order[i] in c.items
    requires forall kind :: f(kind) == g(kind)
    ensures Reconciled(c, order, n, f, emit) == Reconciled(c, order, n, g, emit)
  {
    if n > 0 {
      SameSeenReconcilesAlike(c, order, n - 1, f, g, emit);
    }
  }

  method CopyDeadline(fields: Fields, prior: Fields) returns (structured: Fields, retained: seq<Field>)
    ensures structured == WithDeadline(fields, prior, |DEADLINE|) && retained == KeptDeadline(prior, |DEADLINE|)
  {
    structured, retained := fields, [];
    for i := 0 to |DEADLINE|
      invariant structured == WithDeadline(fields, prior, i) && retained == KeptDeadline(prior, i)
    {
      if DEADLINE[i] in prior {
        structured := structured[DEADLINE[i] := prior[DEADLINE[i]]];
        retained := retained + [DEADLINE[i]];
      }
    }
  }

  method RetainFields(raw: Raw, prior: Snapshot) returns (merged: Raw)
    ensures merged == Merged(raw, prior)
    ensures merged.text ==
      if Get(raw.fields, DescriptionState) == Text("missing") && Description in prior.fields then prior.text
      else raw.text
    ensures forall k :: k != DescriptionState && k != DueAtState && k != RetainedFields ==>
      Look(merged.fields, k) == if Lacks(raw.fields, k) && k in prior.fields then Some(prior.fields[k])
                                else Look(raw.fields, k)
  {
    MergedText(raw, prior);
    forall k | k != DescriptionState && k != DueAtState && k != RetainedFields
      ensures Look(Merged(raw, prior).fields, k) ==
        if Lacks(raw.fields, k) && k in prior.fields then Some(prior.fields[k]) else Look(raw.fields, k)
    {
      MergedField(raw, prior, k);
    }
    var structured, text, retained := raw.fields, raw.text, [];
    if Get(structured, DescriptionState) == Text("missing") && Description in prior.fields {
      structured := structured[Description := prior.fields[Description]];
      structured := structured[DescriptionState := Text("retained")];
      text := prior.text;
      retained := retained + [Description];
    }
    assert structured == LabelledDescription(raw.fields, prior.fields);
    if Get(structured, DueAtState) == Text("missing") {
      var names;
      structured, names := CopyDeadline(structured, prior.fields);
      retained := retained + names;
      if DueAt in prior.fields {
        structured := structured[DueAtState := Text("retained")];
      }
    }
    assert retained == KeptNames(raw.fields, prior.fields);
    if retained == [] {
      return raw;
    }
    merged := Raw(raw.id, raw.kind, structured[RetainedFields := NameList(retained)], text);
  }

  class Store {
    const src: Source
    const judge: Judge
    var items: map<string, Item>
    var events: seq<Event>

    constructor (src: Source, judge: Judge)
      ensures this.src == src && this.judge == judge && Contents() == Catalog(map[], [])
    {
      this.src, this.judge, items, events := src, judge, map[], [];
    }

    function Contents(): Catalog
      reads this
    {
      Catalog(items, events)
    }

    function Under(emit: bool): Setting {
      Setting(src, emit, judge)
    }

    method HasKey(key: SemanticKey) returns (found: bool)
      ensures found <==> key in Keys(events)
    {
      for i := 0 to |events|
        invariant forall j :: 0 <= j < i ==> events[j].key != key
      {
        if events[i].key == key {
          return true;
        }
      }
      found := false;
    }

    method StoreSnapshot(item: Item, raw: Raw, digest: Digest, emitInitial: bool) returns (event: Option<Event>)
      modifies this
      ensures var out := StoredAs(item, raw, digest, src, emitInitial, judge, Keys(old(events)));
        event == out.event && items == old(items)[raw.id := out.item] && events == Added(old(events), event)
    {
      items := items[raw.id :=
        Item(item.kind, item.snapshots + [Snapshot(digest, raw.fields, raw.text)], digest, item.deleted)];
      if item.snapshots == [] && !emitInitial {
        return None;
      }
      var before := LatestFields(item);
      var change := ChangeOf(raw, before, src, judge);
      var provisional := src.canvas && raw.kind == File && change.kind == FileMetadataUpdated;
      if !judge.emits(change.kind, before, raw.fields) && !provisional {
        return None;
      }
      var key := SemanticKey(raw.id, change.kind, LatestHash(item), Stored(digest));
      var announced := HasKey(key);
      if announced {
        return None;
      }
      var place := |item.snapshots|;
      event := Some(Event(raw.id, change, if place == 0 then None else Some(place - 1), Some(place), key));
      events := events + [event.value];
    }

    method ObserveAgain(raw: Raw, emitInitial: bool) returns (event: Option<Event>)
      requires raw.id in items
      modifies this
      ensures var out := Observed(Some(old(items)[raw.id]), raw, src, emitInitial, judge, Keys(old(events)));
        event == out.event && items == old(items)[raw.id := out.item] && events == Added(old(events), event)
    {
      var item, taken := items[raw.id], raw;
      if item.snapshots != [] && src.canvas && raw.kind == Assignment {
        taken := RetainFields(raw, item.Latest());
      }
      var digest := DigestOf(taken.fields, taken.text, raw.kind);
      assert digest == DigestTaken(item, raw, src) && taken.id == raw.id;
      if item.hash == digest {
        items := items[raw.id := Item(item.kind, item.snapshots, item.hash, false)];
        return None;
      }
      if item.snapshots != [] && DigestOf(item.Latest().fields, item.Latest().text, item.kind) == digest {
        items := items[raw.id := Item(item.kind, item.snapshots, digest, false)];
        return None;
      }
      event := StoreSnapshot(Item(item.kind, item.snapshots, item.hash, false), taken, digest, emitInitial);
    }

    method StoreObservation(raw: Raw, emitInitial: bool) returns (event: Option<Event>)
      modifies this
      ensures Contents() == RowTaken(old(Contents()), Row(raw, false), Under(emitInitial))
      ensures event == Observe(old(Contents()), raw, Under(emitInitial)).event
      ensures events == if event.Some? then old(events) + [event.value] else old(events)
      ensures raw.id in items && items == old(items)[raw.id := items[raw.id]]
      ensures ObservationEffect(if raw.id in old(items) then Some(old(items)[raw.id]) else None, items[raw.id], event,
        raw, src, emitInitial, judge, set i | 0 <= i < |old(events)| :: old(events)[i].key)
    {
      ObservedHasEffect(Find(Contents(), raw.id), raw, src, emitInitial, judge, Keys(events));
      if raw.id in items {
        event := ObserveAgain(raw, emitInitial);
      } else {
        var digest := DigestOf(raw.fields, raw.text, raw.kind);
        event := StoreSnapshot(Item(raw.kind, [], digest, false), raw, digest, emitInitial);
      }
    }

    method PendingSourceItem(raw: Raw, emit: bool)
      modifies this
      ensures Contents() == RowTaken(old(Contents()), Row(raw, true), Under(emit))
      ensures PlaceholderEffect(old(Contents()), Contents(), raw)
    {
      if raw.id !in items {
        items := items[raw.id := Item(raw.kind, [], DigestOf(raw.fields, raw.text, raw.kind), false)];
      }
    }

    /** The rows of the kinds given, in some order. */
    method SelectItems(kinds: set<ItemKind>) returns (order: seq<string>)
      ensures Selects(order, items, kinds)
    {
      order := [];
      var todo := items.Keys;
      while todo != {}
        invariant todo <= items.Keys
        invariant forall i :: 0 <= i < |order| ==> order[i] in items && items[order[i]].kind in kinds
        invariant forall id :: id in items && id !in todo && items[id].kind in kinds ==> id in order
        decreases |todo|
      {
        var id :| id in todo;
        todo := todo - {id};
        if items[id].kind in kinds {
          order := order + [id];
        }
      }
    }

    method MarkRemoved(id: string, emit: bool) returns (announced: bool)
      requires id in items
      modifies this
      ensures Contents() == RemovedIn(old(Contents()), id, emit)
      ensures RemovalEffect(old(Contents()), Contents(), id, emit)
      ensures |events| == |old(events)| + (if announced then 1 else 0)
    {
      RemovalHasEffect(Contents(), id, emit);
      var item := items[id];
      if item.deleted {
        return false;
      }
      items := items[id := Item(item.kind, item.snapshots, item.hash, true)];
      if !emit {
        return false;
      }
      var key := SemanticKey(id, Removed(item.kind), LatestHash(item), Deleted);
      var known := HasKey(key);
      if known {
        return false;
      }
      var assignment := item.kind == Assignment;
      events := events + [Event(id, Change(Removed(item.kind), if assignment then "important" else "minor", assignment),
        if item.snapshots == [] then None else Some(|item.snapshots| - 1), None, key)];
      announced := true;
    }

    /** Answers how many removals were announced. */
    method ReconcileCanvas(order: seq<string>, seen: map<ItemKind, set<string>>, emit: bool) returns (count: nat)
      requires forall i :: 0 <= i < |order| ==> order[i] in items
      modifies this
      ensures Contents() == Reconciled(old(Contents()), order, |order|, SeenIn(seen), emit)
      ensures ReconciliationEffect(old(Contents()), Contents(), order, seen)
      ensures |events| == |old(events)| + count
    {
      count := 0;
      for i := 0 to |order|
        invariant items.Keys == old(items.Keys)
        invariant Contents() == Reconciled(old(Contents()), order, i, SeenIn(seen), emit)
        invariant |events| == |old(events)| + count
      {
        var id := order[i];
        if items[id].kind !in seen || id !in seen[items[id].kind] {
          var announced := MarkRemoved(id, emit);
          count := count + (if announced then 1 else 0);
        }
      }
      ReconciliationHasEffect(old(Contents()), order, seen, SeenIn(seen), emit, Contents());
    }

    method TakeRows(rows: seq<Row>, until: nat, emit: bool) returns (seen: map<ItemKind, set<string>>, changes: nat)
      requires until <= |rows|
      modifies this
      ensures Contents() == RowsTaken(old(Contents()), rows, until, Under(emit))
      ensures forall kind :: SeenIn(seen)(kind) == SeenOf(rows, until, kind)
      ensures |events| == |old(events)| + changes
    {
      seen, changes := map[], 0;
      for i := 0 to until
        invariant Contents() == RowsTaken(old(Contents()), rows, i, Under(emit))
        invariant forall kind :: SeenIn(seen)(kind) == SeenOf(rows, i, kind)
        invariant |events| == |old(events)| + changes
      {
        var raw := rows[i].raw;
        ghost var seenBefore := seen;
        seen := seen[raw.kind := (if raw.kind in seen then seen[raw.kind] else {}) + {raw.id}];
        SeenGrows(rows, i, seenBefore, seen);
        if rows[i].pending {
          PendingSourceItem(raw, emit);
        } else {
          var event := StoreObservation(raw, emit);
          changes := changes + (if event.Some? then 1 else 0);
        }
      }
    }

    /** One source's rows and, unless an exception ends the run at row `until`, the reconciliation. The
        first run of a source is its baseline and announces nothing it first sees. */
    method RunCourse(rows: seq<Row>, until: nat, successful: set<ItemKind>, baseline: bool)
      returns (completed: bool, changes: nat, order: seq<string>)
      requires until <= |rows|
      modifies this
      ensures completed <==> until == |rows|
      ensures !completed ==> Contents() == RowsTaken(old(Contents()), rows, until, Under(!baseline))
      ensures completed ==> Selects(order, RowsTaken(old(Contents()), rows, |rows|, Under(!baseline)).items, successful)
      ensures completed ==> Contents() == AfterRun(old(Contents()), rows, order, successful, Under(!baseline))
      ensures !completed ==> RowsEffect(old(Contents()), Contents(), rows, until, Under(!baseline))
      ensures completed ==> RunEffect(old(Contents()), Contents(), rows, successful, Under(!baseline))
      ensures |events| == |old(events)| + changes
    {
      var seen;
      seen, changes := TakeRows(rows, until, !baseline);
      completed, order := until == |rows|, [];
      RowsHaveEffect(old(Contents()), rows, until, Under(!baseline));
      if completed {
        order := SelectItems(successful);
        SameSeenReconcilesAlike(Contents(), order, |order|, SeenIn(seen), kind => SeenOf(rows, |rows|, kind),
          !baseline);
        var removed := ReconcileCanvas(order, seen, !baseline);
        changes := changes + removed;
        RunHasEffect(old(Contents()), rows, order, successful, Under(!baseline));
      }
    }
  }

  lemma SeenGrows(rows: seq<Row>, i: nat, before: map<ItemKind, set<string>>, after: map<ItemKind, set<string>>)
    requires i < |rows| && forall kind :: SeenIn(before)(kind) == SeenOf(rows, i, kind)
    requires after == before[rows[i].raw.kind := SeenIn(before)(rows[i].raw.kind) + {rows[i].raw.id}]
    ensures forall kind :: SeenIn(after)(kind) == SeenOf(rows, i + 1, kind)
  {
    forall kind ensures SeenIn(after)(kind) == SeenOf(rows, i + 1, kind) {
      assert SeenOf(rows, i + 1, kind)
        == SeenOf(rows, i, kind) + (if rows[i].raw.kind == kind then {rows[i].raw.id} else {});
    }
  }
}
