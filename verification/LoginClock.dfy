/** Which clocks the pruned login table bears: a condition on the times of the attempts alone. */
module LoginClock {
  import opened LoginWindow

  /** Attempt `i` is pruned by the later attempt `j`, and still counts for `k`, later again. */
  predicate Jumps(events: seq<Event>, i: nat, j: nat, k: nat, window: nat)
    requires i < j < k < |events|
  {
    && events[i].Attempt? && events[j].Attempt? && events[k].Attempt?
    && events[k].now - window <= events[i].now < events[j].now - window
  }

  predicate Steady(events: seq<Event>, window: nat) {
    forall i, j, k :: 0 <= i < j < k < |events| ==> !Jumps(events, i, j, k, window)
  }

  // A steady clock never makes the table forget.

  ghost predicate Tried(past: seq<Event>, at: int) {
    exists i :: 0 <= i < |past| && past[i].Attempt? && past[i].now == at
  }

  ghost predicate Overtaken(past: seq<Event>, at: int, horizon: int, window: nat) {
    exists i, j :: 0 <= i < j < |past| && past[i].Attempt? && past[j].Attempt? && past[i].now == at
      && past[j].now - window >= horizon
  }

  /** Each attempt in the history was made in `past`, and if it is pruned, a later call did that. */
  ghost predicate Traced(marks: seq<Mark>, past: seq<Event>, window: nat) {
    forall m :: m in marks ==>
      Tried(past, m.row.at) && (m.row.at < m.horizon ==> Overtaken(past, m.row.at, m.horizon, window))
  }

  lemma {:induction false} AgedComeFrom(marks: seq<Mark>, since: int, m: Mark) returns (was: Mark)
    requires m in Aged(marks, since)
    ensures was in marks && m.row == was.row && (m.horizon == was.horizon || m.horizon == since)
  {
    was := marks[0];
    if m != Aged(marks, since)[0] {
      was := AgedComeFrom(marks[1..], since, m);
    }
  }

  lemma {:induction false} SparedComeFrom(marks: seq<Mark>, key: string, m: Mark)
    requires m in Spared(marks, key)
    ensures m in marks
  {
    if marks != [] && (marks[0].row.key == key || m != marks[0]) {
      SparedComeFrom(marks[1..], key, m);
    }
  }

  lemma LongerPast(past: seq<Event>, e: Event, m: Mark, window: nat)
    ensures Tried(past, m.row.at) ==> Tried(past + [e], m.row.at)
    ensures Overtaken(past, m.row.at, m.horizon, window) ==> Overtaken(past + [e], m.row.at, m.horizon, window)
  {
    var more := past + [e];
    if Tried(past, m.row.at) {
      var i :| 0 <= i < |past| && past[i].Attempt? && past[i].now == m.row.at;
      assert more[i] == past[i];
    }
    if Overtaken(past, m.row.at, m.horizon, window) {
      var i, j :| 0 <= i < j < |past| && past[i].Attempt? && past[j].Attempt? && past[i].now == m.row.at
        && past[j].now - window >= m.horizon;
      assert more[i] == past[i] && more[j] == past[j];
    }
  }

  lemma OvertakenNow(past: seq<Event>, e: Event, at: int, window: nat)
    requires Tried(past, at) && e.Attempt?
    ensures Overtaken(past + [e], at, e.now - window, window)
  {
    var i :| 0 <= i < |past| && past[i].Attempt? && past[i].now == at;
    var more := past + [e];
    assert more[i] == past[i] && more[|past|] == e;
  }

  lemma NotingIsTraced(past: seq<Event>, marks: seq<Mark>, e: Event, window: nat)
    requires Traced(marks, past, window)
    ensures Traced(Noted(marks, e, window), past + [e], window)
  {
    forall m | m in Noted(marks, e, window)
      ensures Tried(past + [e], m.row.at)
      ensures m.row.at < m.horizon ==> Overtaken(past + [e], m.row.at, m.horizon, window)
    {
      if e.Clear? {
        SparedComeFrom(marks, e.key, m);
        LongerPast(past, e, m, window);
      } else if m in Aged(marks, e.now - window) {
        var was := AgedComeFrom(marks, e.now - window, m);
        LongerPast(past, e, was, window);
        OvertakenNow(past, e, m.row.at, window);
      } else {
        assert (past + [e])[|past|] == e;
      }
    }
  }

  lemma {:induction false} PrunedAttempt(marks: seq<Mark>, key: string, since: int) returns (m: Mark)
    requires Count(Kept(marks), key, since) < Count(Rows(marks), key, since)
    ensures m in marks && since <= m.row.at < m.horizon
  {
    m := marks[0];
    assert Rows(marks)[1..] == Rows(marks[1..]);
    if !(since <= m.row.at < m.horizon) {
      assert [] + Kept(marks[1..]) == Kept(marks[1..]);
      assert ([m.row] + Kept(marks[1..]))[1..] == Kept(marks[1..]);
      m := PrunedAttempt(marks[1..], key, since);
    }
  }

  lemma SteadyCallRemembers(past: seq<Event>, marks: seq<Mark>, e: Event, rest: seq<Event>, window: nat)
    requires Traced(marks, past, window) && Steady(past + [e] + rest, window)
    ensures !Forgets(marks, e, window)
  {
    if Forgets(marks, e, window) {
      var m := PrunedAttempt(marks, e.key, e.now - window);
      var i, j :| 0 <= i < j < |past| && past[i].Attempt? && past[j].Attempt? && past[i].now == m.row.at
        && past[j].now - window >= m.horizon;
      var all := past + [e] + rest;
      assert all[i] == past[i] && all[j] == past[j] && all[|past|] == e;
      assert Jumps(all, i, j, |past|, window);
    }
  }

  lemma {:induction false} SteadyRunsRemember(past: seq<Event>, marks: seq<Mark>, events: seq<Event>, window: nat)
    requires Traced(marks, past, window) && Steady(past + events, window)
    ensures NeverForgets(marks, events, window)
    decreases |events|
  {
    if events != [] {
      assert past + [events[0]] + events[1..] == past + events;
      SteadyCallRemembers(past, marks, events[0], events[1..], window);
      NotingIsTraced(past, marks, events[0], window);
      SteadyRunsRemember(past + [events[0]], Noted(marks, events[0], window), events[1..], window);
    }
  }

  // A clock that jumps makes it forget, for some keys and limits.

  /** The same calls at the same times, whatever their keys and limits. */
  predicate SameTimes(events: seq<Event>, others: seq<Event>) {
    && |others| == |events|
    && forall i :: 0 <= i < |events| ==>
         others[i].Attempt? == events[i].Attempt? && (events[i].Attempt? ==> others[i].now == events[i].now)
  }

  /** One key with one attempt allowed tries twice, at `i` and `k`; nobody else is admitted. */
  function Betraying(events: seq<Event>, i: nat, k: nat): (others: seq<Event>)
    ensures SameTimes(events, others)
  {
    seq(|events|, n requires 0 <= n < |events| =>
      if events[n].Clear? then Clear("b")
      else if n == i || n == k then Attempt("a", 1, events[n].now)
      else Attempt("b", 0, events[n].now))
  }

  predicate Idle(e: Event) {
    e == Clear("b") || (e.Attempt? && e.key == "b" && e.limit == 0)
  }

  lemma IdleOnlyAges(row: Row, horizon: int, e: Event, window: nat)
    requires Idle(e) && row.key == "a"
    ensures var h := if e.Attempt? && horizon < e.now - window then e.now - window else horizon;
      Noted([Mark(row, horizon)], e, window) == [Mark(row, h)]
    ensures Noted([], e, window) == []
  {
    var marks := [Mark(row, horizon)];
    assert marks[1..] == [] && "a" != "b";
    if e.Attempt? {
      var h := if horizon < e.now - window then e.now - window else horizon;
      assert Aged(marks, e.now - window) == [Mark(row, h)];
      assert !Allows(Rows(marks), e, window) && [Mark(row, h)] + [] == [Mark(row, h)];
    } else {
      assert Spared(marks[1..], "b") == [] && Spared(marks, "b") == [marks[0]] + [];
    }
  }

  /** From the first attempt on: pruned at `j`, or before, it is missed at `k`. */
  lemma {:induction false} MissedAttempt(row: Row, horizon: int, events: seq<Event>, j: int, k: nat, window: nat)
    requires row.key == "a" && k < |events| && (forall n :: 0 <= n < k ==> Idle(events[n]))
    requires events[k].Attempt? && events[k].key == "a" && events[k].limit == 1 && events[k].now - window <= row.at
    requires row.at < horizon || (0 <= j < k && events[j].Attempt? && row.at < events[j].now - window)
    ensures !NeverForgets([Mark(row, horizon)], events, window)
    decreases |events|
  {
    var marks := [Mark(row, horizon)];
    if k == 0 {
      assert marks[1..] == [] && Kept(marks[1..]) == [] && Kept(marks) == [] + [];
      assert Rows(marks) == [row] && [row][1..] == [];
      assert Forgets(marks, events[0], window);
    } else {
      IdleOnlyAges(row, horizon, events[0], window);
      var h := if events[0].Attempt? && horizon < events[0].now - window then events[0].now - window else horizon;
      assert forall n :: 0 <= n < |events| - 1 ==> events[1..][n] == events[n + 1];
      MissedAttempt(row, h, events[1..], j - 1, k - 1, window);
    }
  }

  lemma {:induction false} BetrayedRun(events: seq<Event>, i: nat, j: nat, k: nat, window: nat)
    requires i < j < k < |events| && Jumps(events, i, j, k, window)
    requires forall n :: 0 <= n < k && n != i ==> Idle(events[n])
    requires events[i].key == "a" && events[i].limit == 1 && events[k].key == "a" && events[k].limit == 1
    ensures !NeverForgets([], events, window)
    decreases |events|
  {
    assert forall n :: 0 <= n < |events| - 1 ==> events[1..][n] == events[n + 1];
    if i == 0 {
      var row := Row("a", events[0].now);
      assert Noted([], events[0], window) == [Mark(row, events[0].now - window)];
      MissedAttempt(row, events[0].now - window, events[1..], j - 1, k - 1, window);
    } else {
      IdleOnlyAges(Row("a", 0), 0, events[0], window);
      BetrayedRun(events[1..], i - 1, j - 1, k - 1, window);
    }
  }

  lemma SteadyDependsOnTimes(events: seq<Event>, others: seq<Event>, window: nat)
    requires SameTimes(events, others) && Steady(events, window)
    ensures Steady(others, window)
  {
    forall i, j, k | 0 <= i < j < k < |others| ensures !Jumps(others, i, j, k, window) {
      assert !Jumps(events, i, j, k, window);
    }
  }

  predicate Exact(events: seq<Event>, window: nat) {
    Answers([], events, window, true) == Answers([], events, window, false)
  }

  lemma SteadyRunsAreExact(events: seq<Event>, window: nat)
    requires Steady(events, window)
    ensures Exact(events, window)
  {
    assert [] + events == events;
    SteadyRunsRemember([], [], events, window);
    PruningIsExactUnlessItForgets([], events, window);
  }

  /** The clock alone decides: calls at given times are answered as the complete history would answer them,
      whatever their keys and limits, if and only if no attempt is pruned by a later one and still inside
      the window of one later again. */
  lemma PruningIsExactExactlyOnASteadyClock(events: seq<Event>, window: nat)
    ensures Steady(events, window) <==> forall others :: SameTimes(events, others) ==> Exact(others, window)
  {
    if Steady(events, window) {
      forall others | SameTimes(events, others) ensures Exact(others, window) {
        SteadyDependsOnTimes(events, others, window);
        SteadyRunsAreExact(others, window);
      }
    } else {
      var i, j, k :| 0 <= i < j < k < |events| && Jumps(events, i, j, k, window);
      var others := Betraying(events, i, k);
      BetrayedRun(others, i, j, k, window);
      PruningIsExactUnlessItForgets([], others, window);
      assert SameTimes(events, others) && !Exact(others, window);
    }
  }

  lemma {:induction false} OrderedNotBefore(clock: int, events: seq<Event>, j: nat)
    requires Ordered(clock, events) && j < |events| && events[j].Attempt?
    ensures clock <= events[j].now
    decreases |events|
  {
    if j > 0 {
      assert events[1..][j - 1] == events[j];
      OrderedNotBefore(if events[0].Attempt? then events[0].now else clock, events[1..], j - 1);
    }
  }

  lemma {:induction false} OrderedTimes(clock: int, events: seq<Event>, i: nat, j: nat)
    requires Ordered(clock, events) && i < j < |events| && events[i].Attempt? && events[j].Attempt?
    ensures events[i].now <= events[j].now
    decreases |events|
  {
    assert events[1..][j - 1] == events[j];
    if i == 0 {
      OrderedNotBefore(events[0].now, events[1..], j - 1);
    } else {
      assert events[1..][i - 1] == events[i];
      OrderedTimes(if events[0].Attempt? then events[0].now else clock, events[1..], i - 1, j - 1);
    }
  }

  /** A clock that does not go back is steady. */
  lemma {:induction false} OrderedClocksAreSteady(clock: int, events: seq<Event>, window: nat)
    requires Ordered(clock, events)
    ensures Steady(events, window)
  {
    forall i, j, k | 0 <= i < j < k < |events| ensures !Jumps(events, i, j, k, window) {
      if Jumps(events, i, j, k, window) {
        OrderedTimes(clock, events, j, k);
      }
    }
  }
}
