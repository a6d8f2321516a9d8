/** identity-gateway/aw_gateway/store.py, `record_login_attempt`: a sliding window kept in one table that
    every call prunes, whatever its key. */
module LoginWindow {

  datatype Row = Row(key: string, at: int)

  datatype Event = Attempt(key: string, limit: nat, now: int) | Clear(key: string)

  /** Rows of `key` no older than `since`: what the SELECT counts. */
  function Count(rows: seq<Row>, key: string, since: int): nat {
    if rows == [] then 0
    else (if rows[0].key == key && rows[0].at >= since then 1 else 0) + Count(rows[1..], key, since)
  }

  function CountBetween(rows: seq<Row>, key: string, from: int, to: int): nat {
    if rows == [] then 0
    else (if rows[0].key == key && from <= rows[0].at <= to then 1 else 0) + CountBetween(rows[1..], key, from, to)
  }

  /** DELETE of everything older than `since`, of any key. */
  function Recent(rows: seq<Row>, since: int): seq<Row> {
    if rows == [] then []
    else (if rows[0].at >= since then [rows[0]] else []) + Recent(rows[1..], since)
  }

  function Without(rows: seq<Row>, key: string): seq<Row> {
    if rows == [] then []
    else (if rows[0].key != key then [rows[0]] else []) + Without(rows[1..], key)
  }

  predicate Allows(rows: seq<Row>, e: Event, window: nat) {
    e.Attempt? && Count(rows, e.key, e.now - window) < e.limit
  }

  /** The table as the code keeps it. */
  function Pruned(rows: seq<Row>, e: Event, window: nat): seq<Row> {
    match e
    case Clear(key) => Without(rows, key)
    case Attempt(key, limit, now) =>
      var kept := Recent(rows, now - window);
      if Allows(kept, e, window) then kept + [Row(key, now)] else kept
  }

  /** The reference: every accepted attempt since its key was last cleared, nothing else ever dropped. */
  function Remembered(rows: seq<Row>, e: Event, window: nat): seq<Row> {
    match e
    case Clear(key) => Without(rows, key)
    case Attempt(key, limit, now) => if Allows(rows, e, window) then rows + [Row(key, now)] else rows
  }

  // The same, said of the rows.

  /** The places of the rows of `key` no older than `since`. */
  function Places(rows: seq<Row>, key: string, since: int): set<nat> {
    set i | 0 <= i < |rows| && rows[i].key == key && since <= rows[i].at
  }

  lemma {:induction false} CountSnoc(rows: seq<Row>, row: Row, key: string, since: int)
    ensures Count(rows + [row], key, since)
      == Count(rows, key, since) + if row.key == key && since <= row.at then 1 else 0
  {
    if rows == [] {
      assert (rows + [row])[1..] == [];
    } else {
      assert (rows + [row])[1..] == rows[1..] + [row];
      CountSnoc(rows[1..], row, key, since);
    }
  }

  lemma {:induction false} CountIsCardinality(rows: seq<Row>, key: string, since: int)
    ensures Count(rows, key, since) == |Places(rows, key, since)|
  {
    if rows == [] {
      assert Places(rows, key, since) == {};
    } else {
      var n := |rows| - 1;
      assert rows[..n] + [rows[n]] == rows;
      CountIsCardinality(rows[..n], key, since);
      CountSnoc(rows[..n], rows[n], key, since);
      var places, before := Places(rows, key, since), Places(rows[..n], key, since);
      assert places == if rows[n].key == key && since <= rows[n].at then before + {n} else before;
    }
  }

  /** How many rows are this one. */
  function Times(rows: seq<Row>, row: Row): nat {
    multiset(rows)[row]
  }

  lemma {:induction false} TimesCons(first: Row, rest: seq<Row>, row: Row)
    ensures Times([first] + rest, row) == Times(rest, row) + if first == row then 1 else 0
  {
  }

  lemma {:induction false} TimesSnoc(rows: seq<Row>, last: Row, row: Row)
    ensures Times(rows + [last], row) == Times(rows, row) + if last == row then 1 else 0
  {
  }

  lemma {:induction false} RecentKeepsExactly(rows: seq<Row>, since: int, row: Row)
    ensures Times(Recent(rows, since), row) == if since <= row.at then Times(rows, row) else 0
  {
    if rows != [] {
      RecentKeepsExactly(rows[1..], since, row);
      RecentCons(rows[0], rows[1..], since);
      TimesCons(rows[0], rows[1..], row);
      TimesCons(rows[0], Recent(rows[1..], since), row);
      assert [rows[0]] + rows[1..] == rows;
    }
  }

  lemma {:induction false} WithoutKeepsExactly(rows: seq<Row>, key: string, row: Row)
    ensures Times(Without(rows, key), row) == if row.key != key then Times(rows, row) else 0
  {
    if rows != [] {
      WithoutKeepsExactly(rows[1..], key, row);
      WithoutCons(rows[0], rows[1..], key);
      TimesCons(rows[0], rows[1..], row);
      TimesCons(rows[0], Without(rows[1..], key), row);
      assert [rows[0]] + rows[1..] == rows;
    }
  }

  /** An attempt goes through exactly if fewer than `limit` rows of its key lie within the window; rows behind the
      window go, whatever their key, and an accepted attempt is recorded. */
  ghost predicate AttemptEffect(before: seq<Row>, after: seq<Row>, key: string, limit: nat, now: int, window: nat,
      ok: bool)
  {
    && (ok <==> |Places(before, key, now - window)| < limit)
    && forall row :: Times(after, row) ==
         (if now - window <= row.at then Times(before, row) else 0) + (if ok && row == Row(key, now) then 1 else 0)
  }

  lemma AttemptCounts(rows: seq<Row>, key: string, limit: nat, now: int, window: nat)
    ensures Allows(Recent(rows, now - window), Attempt(key, limit, now), window)
      <==> |Places(rows, key, now - window)| < limit
  {
    RecentCounts(rows, key, now - window);
    CountIsCardinality(rows, key, now - window);
  }

  lemma AttemptRecords(kept: seq<Row>, row: Row, added: Row, ok: bool)
    ensures Times(if ok then kept + [added] else kept, row) == Times(kept, row) + if ok && row == added then 1 else 0
  {
    TimesSnoc(kept, added, row);
  }

  lemma {:induction false} AttemptHasEffect(rows: seq<Row>, key: string, limit: nat, now: int, window: nat,
      after: seq<Row>, ok: bool)
    requires ok == Allows(Recent(rows, now - window), Attempt(key, limit, now), window)
    requires after == Pruned(rows, Attempt(key, limit, now), window)
    ensures AttemptEffect(rows, after, key, limit, now, window, ok)
  {
    AttemptCounts(rows, key, limit, now, window);
    var kept := Recent(rows, now - window);
    assert after == if ok then kept + [Row(key, now)] else kept;
    forall row ensures Times(after, row) ==
        (if now - window <= row.at then Times(rows, row) else 0) + (if ok && row == Row(key, now) then 1 else 0)
    {
      RecentKeepsExactly(rows, now - window, row);
      AttemptRecords(kept, row, Row(key, now), ok);
    }
  }

  class Limiter {
    const window: nat
    var rows: seq<Row>

    constructor (window: nat)
      ensures this.window == window && rows == []
    {
      this.window, rows := window, [];
    }

    /** The rows of the transaction: prune, count, insert. */
    method PruneAndRecord(key: string, limit: nat, now: int) returns (ok: bool)
      modifies this
      ensures ok == Allows(Recent(old(rows), now - window), Attempt(key, limit, now), window)
      ensures rows == Pruned(old(rows), Attempt(key, limit, now), window)
    {
      var kept: seq<Row> := [];
      var attempts := 0;
      var i := |rows|;
      while i > 0
        invariant 0 <= i <= |rows|
        invariant kept == Recent(rows[i..], now - window)
        invariant attempts == Count(kept, key, now - window)
      {
        i := i - 1;
        assert rows[i..][1..] == rows[i + 1..];
        if rows[i].at >= now - window {
          assert ([rows[i]] + kept)[1..] == kept;
          kept := [rows[i]] + kept;
          if kept[0].key == key {
            attempts := attempts + 1;
          }
        } else {
          assert [] + kept == kept;
        }
      }
      assert rows[0..] == rows;
      rows := kept;
      if attempts >= limit {
        return false;
      }
      rows := rows + [Row(key, now)];
      ok := true;
    }

    method RecordLoginAttempt(key: string, limit: nat, now: int) returns (ok: bool)
      modifies this
      ensures ok == Allows(Recent(old(rows), now - window), Attempt(key, limit, now), window)
      ensures rows == Pruned(old(rows), Attempt(key, limit, now), window)
      ensures AttemptEffect(old(rows), rows, key, limit, now, window, ok)
    {
      ok := PruneAndRecord(key, limit, now);
      AttemptHasEffect(old(rows), key, limit, now, window, rows, ok);
    }

    method ClearLoginAttempts(key: string)
      modifies this
      ensures rows == Pruned(old(rows), Clear(key), window)
      ensures forall row :: Times(rows, row) == if row.key != key then Times(old(rows), row) else 0
    {
      forall row ensures Times(Without(rows, key), row) == if row.key != key then Times(rows, row) else 0 {
        WithoutKeepsExactly(rows, key, row);
      }
      var kept: seq<Row> := [];
      var i := |rows|;
      while i > 0
        invariant 0 <= i <= |rows|
        invariant kept == Without(rows[i..], key)
      {
        i := i - 1;
        assert rows[i..][1..] == rows[i + 1..];
        kept := (if rows[i].key != key then [rows[i]] else []) + kept;
      }
      assert rows[0..] == rows;
      rows := kept;
    }
  }

  lemma {:induction false} RecentAppend(rows: seq<Row>, row: Row, since: int)
    ensures Recent(rows + [row], since) == Recent(rows, since) + (if row.at >= since then [row] else [])
  {
    if rows != [] {
      assert (rows + [row])[1..] == rows[1..] + [row];
      RecentAppend(rows[1..], row, since);
    }
  }

  lemma {:induction false} RecentTwice(rows: seq<Row>, early: int, late: int)
    requires early <= late
    ensures Recent(Recent(rows, early), late) == Recent(rows, late)
  {
    if rows != [] {
      RecentTwice(rows[1..], early, late);
      if rows[0].at >= early {
        assert ([rows[0]] + Recent(rows[1..], early))[1..] == Recent(rows[1..], early);
      } else {
        assert Recent(rows, early) == Recent(rows[1..], early);
      }
    }
  }

  lemma {:induction false} RecentCounts(rows: seq<Row>, key: string, since: int)
    ensures Count(Recent(rows, since), key, since) == Count(rows, key, since)
  {
    if rows != [] {
      RecentCounts(rows[1..], key, since);
      if rows[0].at >= since {
        assert ([rows[0]] + Recent(rows[1..], since))[1..] == Recent(rows[1..], since);
      } else {
        assert Recent(rows, since) == Recent(rows[1..], since);
      }
    }
  }

  lemma {:induction false} RecentWithout(rows: seq<Row>, key: string, since: int)
    ensures Without(Recent(rows, since), key) == Recent(Without(rows, key), since)
  {
    if rows != [] {
      RecentWithout(rows[1..], key, since);
      RecentCons(rows[0], rows[1..], since);
      WithoutCons(rows[0], rows[1..], key);
      RecentCons(rows[0], Without(rows[1..], key), since);
      WithoutCons(rows[0], Recent(rows[1..], since), key);
      assert [rows[0]] + rows[1..] == rows;
    }
  }

  lemma {:induction false} RecentCons(row: Row, rest: seq<Row>, since: int)
    ensures Recent([row] + rest, since) == if row.at >= since then [row] + Recent(rest, since) else Recent(rest, since)
  {
    assert ([row] + rest)[1..] == rest;
  }

  lemma {:induction false} WithoutCons(row: Row, rest: seq<Row>, key: string)
    ensures Without([row] + rest, key) == if row.key != key then [row] + Without(rest, key) else Without(rest, key)
  {
    assert ([row] + rest)[1..] == rest;
  }

  /** Time does not go backwards along the events, starting from `clock`. */
  predicate Ordered(clock: int, events: seq<Event>)
    decreases |events|
  {
    events == [] ||
    (match events[0]
     case Clear(_) => Ordered(clock, events[1..])
     case Attempt(_, _, now) => clock <= now && Ordered(now, events[1..]))
  }

  function Answers(rows: seq<Row>, events: seq<Event>, window: nat, pruning: bool): seq<bool>
    decreases |events|
  {
    if events == [] then []
    else
      var seen := if pruning && events[0].Attempt? then Recent(rows, events[0].now - window) else rows;
      var next := if pruning then Pruned(rows, events[0], window) else Remembered(rows, events[0], window);
      [Allows(seen, events[0], window)] + Answers(next, events[1..], window, pruning)
  }

  /** Pruning is exact: over any run with a clock that does not go back, the pruned table gives every
      answer the complete history would, whatever the keys and limits. */
  lemma {:induction false} PruningIsExact(rows: seq<Row>, full: seq<Row>, clock: int, events: seq<Event>, window: nat)
    requires rows == Recent(full, clock - window) && Ordered(clock, events)
    ensures Answers(rows, events, window, true) == Answers(full, events, window, false)
    decreases |events|
  {
    if events != [] {
      match events[0]
      case Clear(key) =>
        RecentWithout(full, key, clock - window);
        PruningIsExact(Without(rows, key), Without(full, key), clock, events[1..], window);
      case Attempt(key, limit, now) =>
        RecentTwice(full, clock - window, now - window);
        RecentCounts(full, key, now - window);
        RecentAppend(full, Row(key, now), now - window);
        PruningIsExact(Pruned(rows, events[0], window), Remembered(full, events[0], window), now, events[1..], window);
    }
  }

  lemma {:induction false} CountAppend(rows: seq<Row>, row: Row, key: string, from: int, to: int)
    ensures CountBetween(rows + [row], key, from, to)
         == CountBetween(rows, key, from, to) + (if row.key == key && from <= row.at <= to then 1 else 0)
  {
    if rows != [] {
      assert (rows + [row])[1..] == rows[1..] + [row];
      CountAppend(rows[1..], row, key, from, to);
    }
  }

  lemma {:induction false} CountWithin(rows: seq<Row>, key: string, from: int, to: int, since: int)
    requires since <= from
    ensures CountBetween(rows, key, from, to) <= Count(rows, key, since)
  {
    if rows != [] { CountWithin(rows[1..], key, from, to, since); }
  }

  lemma {:induction false} CountWithout(rows: seq<Row>, cleared: string, key: string, from: int, to: int)
    ensures CountBetween(Without(rows, cleared), key, from, to) == if key == cleared then 0
      else CountBetween(rows, key, from, to)
  {
    if rows != [] {
      CountWithout(rows[1..], cleared, key, from, to);
      var rest := Without(rows[1..], cleared);
      assert ([rows[0]] + rest)[1..] == rest && [] + rest == rest;
    }
  }

  /** `key` is always tried with the limit `limit`. */
  predicate FixedLimit(events: seq<Event>, key: string, limit: nat) {
    forall i :: 0 <= i < |events| && events[i].Attempt? && events[i].key == key ==> events[i].limit == limit
  }

  function History(rows: seq<Row>, events: seq<Event>, window: nat): seq<Row>
    decreases |events|
  {
    if events == [] then rows else History(Remembered(rows, events[0], window), events[1..], window)
  }

  /** Whatever interval of one window length is chosen, at most `limit` attempts of a key fall into it
      between two clears, wherever the interval lies. */
  lemma {:induction false} WindowBoundsAttempts(rows: seq<Row>, events: seq<Event>, window: nat, key: string,
      limit: nat, from: int)
    requires FixedLimit(events, key, limit) && CountBetween(rows, key, from, from + window) <= limit
    ensures CountBetween(History(rows, events, window), key, from, from + window) <= limit
    decreases |events|
  {
    if events != [] {
      match events[0] {
        case Clear(k) => CountWithout(rows, k, key, from, from + window);
        case Attempt(k, l, now) =>
          CountAppend(rows, Row(k, now), key, from, from + window);
          if k == key && from <= now <= from + window {
            CountWithin(rows, key, from, from + window, now - window);
          }
      }
      WindowBoundsAttempts(Remembered(rows, events[0], window), events[1..], window, key, limit, from);
    }
  }

  // The bound, for what the pruned table accepts.

  /** Every accepted attempt since its key was last cleared, as the pruned table accepts them. */
  function Accepted(rows: seq<Row>, log: seq<Row>, events: seq<Event>, window: nat): seq<Row>
    decreases |events|
  {
    if events == [] then log
    else
      match events[0]
      case Clear(key) => Accepted(Without(rows, key), Without(log, key), events[1..], window)
      case Attempt(key, limit, now) =>
        Accepted(Pruned(rows, events[0], window),
          if Allows(Recent(rows, now - window), events[0], window) then log + [Row(key, now)] else log,
          events[1..], window)
  }

  lemma {:induction false} AcceptedIsHistory(rows: seq<Row>, full: seq<Row>, clock: int, events: seq<Event>,
      window: nat)
    requires rows == Recent(full, clock - window) && Ordered(clock, events)
    ensures Accepted(rows, full, events, window) == History(full, events, window)
    decreases |events|
  {
    if events != [] {
      match events[0]
      case Clear(key) =>
        RecentWithout(full, key, clock - window);
        AcceptedIsHistory(Without(rows, key), Without(full, key), clock, events[1..], window);
      case Attempt(key, limit, now) =>
        RecentTwice(full, clock - window, now - window);
        RecentCounts(full, key, now - window);
        RecentAppend(full, Row(key, now), now - window);
        AcceptedIsHistory(Pruned(rows, events[0], window), Remembered(full, events[0], window), now, events[1..],
          window);
    }
  }

  /** Whatever interval of one window length is chosen, the pruned table accepts at most `limit` attempts of
      a key in it between two clears. */
  lemma PrunedTableBoundsAttempts(clock: int, events: seq<Event>, window: nat, key: string, limit: nat, from: int)
    requires Ordered(clock, events) && FixedLimit(events, key, limit)
    ensures CountBetween(Accepted([], [], events, window), key, from, from + window) <= limit
  {
    AcceptedIsHistory([], [], clock, events, window);
    WindowBoundsAttempts([], events, window, key, limit, from);
  }

  // Any clock.

  /** An accepted attempt and the latest moment up to which some later call has pruned. */
  datatype Mark = Mark(row: Row, horizon: int)

  function Rows(marks: seq<Mark>): seq<Row> {
    if marks == [] then [] else [marks[0].row] + Rows(marks[1..])
  }

  /** What the pruned table still holds. */
  function Kept(marks: seq<Mark>): seq<Row> {
    if marks == [] then []
    else (if marks[0].row.at >= marks[0].horizon then [marks[0].row] else []) + Kept(marks[1..])
  }

  function Aged(marks: seq<Mark>, since: int): seq<Mark> {
    if marks == [] then []
    else [Mark(marks[0].row, if marks[0].horizon < since then since else marks[0].horizon)] + Aged(marks[1..], since)
  }

  function Spared(marks: seq<Mark>, key: string): seq<Mark> {
    if marks == [] then []
    else (if marks[0].row.key != key then [marks[0]] else []) + Spared(marks[1..], key)
  }

  /** The complete history, each attempt with how far later calls have pruned. */
  function Noted(marks: seq<Mark>, e: Event, window: nat): seq<Mark> {
    match e
    case Clear(key) => Spared(marks, key)
    case Attempt(key, limit, now) =>
      Aged(marks, now - window) + (if Allows(Rows(marks), e, window) then [Mark(Row(key, now), now - window)] else [])
  }

  /** The call's own window holds the limit, but not without attempts that a call from further ahead has
      pruned. */
  predicate Forgets(marks: seq<Mark>, e: Event, window: nat) {
    e.Attempt? && Count(Kept(marks), e.key, e.now - window) < e.limit <= Count(Rows(marks), e.key, e.now - window)
  }

  predicate NeverForgets(marks: seq<Mark>, events: seq<Event>, window: nat)
    decreases |events|
  {
    events == [] || (!Forgets(marks, events[0], window)
      && NeverForgets(Noted(marks, events[0], window), events[1..], window))
  }

  lemma {:induction false} AgedRows(marks: seq<Mark>, since: int)
    ensures Rows(Aged(marks, since)) == Rows(marks)
    ensures Kept(Aged(marks, since)) == Recent(Kept(marks), since)
  {
    if marks != [] {
      AgedRows(marks[1..], since);
      var aged := Aged(marks, since);
      assert aged[1..] == Aged(marks[1..], since);
      assert [] + Kept(marks[1..]) == Kept(marks[1..])
        && [] + Recent(Kept(marks[1..]), since) == Recent(Kept(marks[1..]), since);
      if marks[0].row.at >= marks[0].horizon {
        assert Kept(marks)[1..] == Kept(marks[1..]);
      }
    }
  }

  lemma {:induction false} SparedRows(marks: seq<Mark>, key: string)
    ensures Rows(Spared(marks, key)) == Without(Rows(marks), key)
    ensures Kept(Spared(marks, key)) == Without(Kept(marks), key)
  {
    if marks != [] {
      SparedRows(marks[1..], key);
      var rest := Spared(marks[1..], key);
      assert [] + rest == rest && ([marks[0]] + rest)[1..] == rest;
      assert Rows(marks)[1..] == Rows(marks[1..]);
      assert [] + Kept(marks[1..]) == Kept(marks[1..]) && [] + Kept(rest) == Kept(rest);
      assert ([marks[0].row] + Kept(marks[1..]))[1..] == Kept(marks[1..]);
    }
  }

  lemma {:induction false} MarkAdded(marks: seq<Mark>, mark: Mark)
    ensures Rows(marks + [mark]) == Rows(marks) + [mark.row]
    ensures Kept(marks + [mark]) == Kept(marks) + (if mark.row.at >= mark.horizon then [mark.row] else [])
  {
    if marks != [] {
      assert (marks + [mark])[1..] == marks[1..] + [mark];
      MarkAdded(marks[1..], mark);
    }
  }

  /** One call, whatever the clock did before: both tables give the same answer exactly unless the call
      forgets, and then they stay the two views of one history. */
  lemma {:induction false} CallAgreesExactly(marks: seq<Mark>, e: Event, window: nat)
    ensures var seen := if e.Attempt? then Recent(Kept(marks), e.now - window) else Kept(marks);
      Allows(seen, e, window) == Allows(Rows(marks), e, window) <==> !Forgets(marks, e, window)
    ensures !Forgets(marks, e, window) ==>
      && Pruned(Kept(marks), e, window) == Kept(Noted(marks, e, window))
      && Remembered(Rows(marks), e, window) == Rows(Noted(marks, e, window))
  {
    match e
    case Clear(key) => SparedRows(marks, key);
    case Attempt(key, limit, now) =>
      AgedRows(marks, now - window);
      RecentCounts(Kept(marks), key, now - window);
      KeptCountsLess(marks, key, now - window);
      MarkAdded(Aged(marks, now - window), Mark(Row(key, now), now - window));
      assert Aged(marks, now - window) + [] == Aged(marks, now - window);
  }

  lemma {:induction false} KeptCountsLess(marks: seq<Mark>, key: string, since: int)
    ensures Count(Kept(marks), key, since) <= Count(Rows(marks), key, since)
  {
    if marks != [] {
      KeptCountsLess(marks[1..], key, since);
      assert Rows(marks)[1..] == Rows(marks[1..]);
      assert [] + Kept(marks[1..]) == Kept(marks[1..]);
      assert ([marks[0].row] + Kept(marks[1..]))[1..] == Kept(marks[1..]);
    }
  }

  /** Pruning under any clock: over a whole run the pruned table answers as the complete history would if
      and only if no call finds its window at the limit only through attempts pruned meanwhile. */
  lemma {:induction false} PruningIsExactUnlessItForgets(marks: seq<Mark>, events: seq<Event>, window: nat)
    ensures Answers(Kept(marks), events, window, true) == Answers(Rows(marks), events, window, false)
      <==> NeverForgets(marks, events, window)
    decreases |events|
  {
    if events != [] {
      CallAgreesExactly(marks, events[0], window);
      var pruned, full := Answers(Kept(marks), events, window, true), Answers(Rows(marks), events, window, false);
      if Forgets(marks, events[0], window) {
        assert pruned[0] != full[0];
      } else {
        assert pruned[0] == full[0];
        assert pruned == [full[0]] + pruned[1..] && full == [full[0]] + full[1..];
        PruningIsExactUnlessItForgets(Noted(marks, events[0], window), events[1..], window);
      }
    }
  }

  lemma {:induction false} RecentOfEarlier(rows: seq<Row>, early: int, late: int)
    requires early <= late
    ensures Recent(Recent(rows, late), early) == Recent(rows, late)
  {
    if rows != [] {
      RecentOfEarlier(rows[1..], early, late);
      assert [] + Recent(rows[1..], late) == Recent(rows[1..], late);
      assert ([rows[0]] + Recent(rows[1..], late))[1..] == Recent(rows[1..], late);
    }
  }

  lemma {:induction false} RecentOnlyLoses(rows: seq<Row>, key: string, early: int, late: int)
    requires early <= late
    ensures Count(Recent(rows, late), key, early) == Count(rows, key, late)
  {
    if rows != [] {
      RecentOnlyLoses(rows[1..], key, early, late);
      assert [] + Recent(rows[1..], late) == Recent(rows[1..], late);
      assert ([rows[0]] + Recent(rows[1..], late))[1..] == Recent(rows[1..], late);
    }
  }

  lemma {:induction false} CountsMore(rows: seq<Row>, key: string, early: int, late: int)
    requires early <= late
    ensures Count(rows, key, late) <= Count(rows, key, early)
  {
    if rows != [] {
      CountsMore(rows[1..], key, early, late);
    }
  }

  lemma {:induction false} PrunedAgainCount(full: seq<Row>, key: string, early: int, late: int)
    requires early <= late
    ensures Count(Recent(Recent(full, early), late), key, late) == Count(full, key, late)
  {
    RecentTwice(full, early, late);
    RecentCounts(full, key, late);
  }

  lemma {:induction false} PrunedFurtherCount(full: seq<Row>, key: string, early: int, late: int)
    requires early <= late
    ensures Count(Recent(Recent(full, late), early), key, early) == Count(full, key, late)
  {
    RecentOfEarlier(full, early, late);
    RecentOnlyLoses(full, key, early, late);
  }

  lemma PrunedCount(full: seq<Row>, mark: int, key: string, now: int, window: nat)
    ensures Count(Recent(Recent(full, mark - window), now - window), key, now - window)
         == Count(full, key, (if mark < now then now else mark) - window)
  {
    if mark <= now {
      PrunedAgainCount(full, key, mark - window, now - window);
    } else {
      PrunedFurtherCount(full, key, now - window, mark - window);
    }
  }

  /** The first call after an ordered run up to `mark`: its answer is exact if and only if the attempts from
      its own window that lie before the pruned part do not make the difference. */
  lemma FirstCallAfterAnOrderedRun(full: seq<Row>, mark: int, key: string, limit: nat, now: int, window: nat)
    ensures var e := Attempt(key, limit, now);
      var since := (if mark < now then now else mark) - window;
      Allows(Recent(Recent(full, mark - window), now - window), e, window) == Allows(full, e, window) <==>
        !(Count(full, key, since) < limit <= Count(full, key, now - window))
  {
    PrunedCount(full, mark, key, now, window);
    CountsMore(full, key, now - window, (if mark < now then now else mark) - window);
  }

  /** A clock that does not go back never makes it forget. */
  lemma {:induction false} OrderedRunsNeverForget(clock: int, events: seq<Event>, window: nat)
    requires Ordered(clock, events)
    ensures NeverForgets([], events, window)
  {
    PruningIsExact([], [], clock, events, window);
    PruningIsExactUnlessItForgets([], events, window);
  }

  /** A run that forgets: one call from the future empties the table. */
  lemma AClockJumpForgets()
    ensures var first, jump, again := Attempt("a", 1, 0), Attempt("b", 1, 2000), Attempt("a", 1, 1);
      var pruned := Pruned(Pruned([], first, 900), jump, 900);
      var full := Remembered(Remembered([], first, 900), jump, 900);
      Allows(Recent(pruned, again.now - 900), again, 900) && !Allows(full, again, 900)
  {
    var a, b := Row("a", 0), Row("b", 2000);
    assert Recent([a], 1100) == [] && Recent([b], -899) == [b];
    assert [a, b][1..] == [b] && Count([b], "a", -899) == 0 && Count([a, b], "a", -899) == 1;
    assert Count([a], "b", 1100) == 0;
    assert "a" != "b" && Pruned([], Attempt("a", 1, 0), 900) == [a] && Pruned([a], Attempt("b", 1, 2000), 900) == [b];
    assert Count([b], "a", -899) == 0;
  }
}
