/** backend/app/api/broker.py, `publish`: a browser sign-in to Canvas changes its slot only at the generation
    its challenge captured. */
module CanvasPublication {
  import opened Documents
  import opened CredentialMemory

  function AfterAll(m: Memory, ops: seq<Op>): Memory
    decreases |ops|
  {
    if ops == [] then m else AfterAll(After(m, ops[0]), ops[1..])
  }

  predicate KeepsCounting(ops: seq<Op>) {
    forall i :: 0 <= i < |ops| ==> !ops[i].ClearAll?
  }

  function Captured(m: Memory, id: string): nat {
    GenerationOf(m, id, BrowserSession)
  }

  function SlotAt(m: Memory, id: string): Option<Slot> {
    if BrowserSession in SlotsOf(m, id) then Some(SlotsOf(m, id)[BrowserSession]) else None
  }

  /** What a completed challenge does: a login installs the session, a clear removes it. */
  function Effect(id: string, session: Option<Slot>): Op {
    if session.Some? then Install(id, session.value) else Remove(id, BrowserSession)
  }

  predicate MayPublish(m: Memory, id: string, captured: nat) {
    Captured(m, id) == captured
  }

  lemma {:induction false} GenerationsOnlyGrow(m: Memory, ops: seq<Op>, id: string)
    requires KeepsCounting(ops)
    ensures Captured(AfterAll(m, ops), id) >= Captured(m, id)
    decreases |ops|
  {
    if ops != [] {
      GenerationsGrowExceptOnClearAll(m, ops[0], id, BrowserSession);
      GenerationsOnlyGrow(After(m, ops[0]), ops[1..], id);
    }
  }

  /** A challenge that may still publish finds the slot as it was when it was created, whatever other
      operations came between, short of `clear_all`. */
  lemma {:induction false} PublicationFindsWhatItSaw(m: Memory, ops: seq<Op>, id: string)
    requires KeepsCounting(ops) && MayPublish(AfterAll(m, ops), id, Captured(m, id))
    ensures SlotAt(AfterAll(m, ops), id) == SlotAt(m, id)
    decreases |ops|
  {
    if ops != [] {
      GenerationsGrowExceptOnClearAll(m, ops[0], id, BrowserSession);
      GenerationsOnlyGrow(After(m, ops[0]), ops[1..], id);
      SlotChangesRaiseGeneration(m, ops[0], id, BrowserSession);
      PublicationFindsWhatItSaw(After(m, ops[0]), ops[1..], id);
    }
  }

  /** Of all challenges that captured one generation at most one publishes. */
  lemma {:induction false} PublishedOnceForAll(m: Memory, session: Option<Slot>, ops: seq<Op>, id: string)
    requires KeepsCounting(ops) && (session.Some? ==> session.value.BrowserSlot?)
    ensures !MayPublish(AfterAll(After(m, Effect(id, session)), ops), id, Captured(m, id))
  {
    var n := After(m, Effect(id, session));
    assert Captured(n, id) == Captured(m, id) + 1;
    GenerationsOnlyGrow(n, ops, id);
  }

  // With `clear_all` anywhere.

  /** By how much one operation raises the count of `id`. */
  function Raise(m: Memory, op: Op, id: string): nat {
    match op
    case Install(k, slot) => if k == id && slot.BrowserSlot? then 1 else 0
    case Remove(k, mode) => if k == id && mode == BrowserSession then 1 else 0
    case Clear(k) => if k == id && SlotAt(m, id).Some? then 1 else 0
    case Block(k) => if k == id && SlotAt(m, id).Some? then 1 else 0
    case _ => 0
  }

  function Raises(m: Memory, ops: seq<Op>, id: string): nat
    decreases |ops|
  {
    if ops == [] then 0 else Raise(m, ops[0], id) + Raises(After(m, ops[0]), ops[1..], id)
  }

  lemma OneOpRaises(m: Memory, op: Op, id: string)
    requires !op.ClearAll?
    ensures Captured(After(m, op), id) == Captured(m, id) + Raise(m, op, id)
  {
    match op
    case Clear(k) => ClearRaises(m, k, id, BrowserSession);
    case Block(k) => ClearRaises(m.(blocked := m.blocked + {k}), k, id, BrowserSession);
    case _ =>
  }

  /** Between two calls of `clear_all` a generation counts the installations and removals. */
  lemma {:induction false} GenerationsCountRaises(m: Memory, ops: seq<Op>, id: string)
    requires KeepsCounting(ops)
    ensures Captured(AfterAll(m, ops), id) == Captured(m, id) + Raises(m, ops, id)
    decreases |ops|
  {
    if ops != [] {
      OneOpRaises(m, ops[0], id);
      GenerationsCountRaises(After(m, ops[0]), ops[1..], id);
    }
  }

  /** The operations behind the last `clear_all`: all of them when there is none. */
  function SinceClearAll(ops: seq<Op>): seq<Op>
    decreases |ops|
  {
    if KeepsCounting(ops) then ops else assert ops != []; SinceClearAll(ops[1..])
  }

  lemma {:induction false} ClearAllForgetsTheRest(m: Memory, ops: seq<Op>)
    requires !KeepsCounting(ops)
    ensures KeepsCounting(SinceClearAll(ops)) && AfterAll(m, ops) == AfterAll(NOTHING, SinceClearAll(ops))
    decreases |ops|
  {
    if KeepsCounting(ops[1..]) {
      assert ops[0].ClearAll? by {
        if !ops[0].ClearAll? { assert forall i :: 0 < i < |ops| ==> ops[i] == ops[1..][i - 1]; }
      }
    } else {
      ClearAllForgetsTheRest(After(m, ops[0]), ops[1..]);
    }
  }

  /** The count a generation has reached: it starts again behind the last `clear_all`. */
  function Reached(m: Memory, ops: seq<Op>, id: string): nat {
    if KeepsCounting(ops) then Captured(m, id) + Raises(m, ops, id) else Raises(NOTHING, SinceClearAll(ops), id)
  }

  /** Over every run, `clear_all` included: a challenge may publish exactly when the count reached is the
      one it captured. */
  lemma {:induction false} MayPublishExactlyAtItsCount(m: Memory, ops: seq<Op>, id: string, captured: nat)
    ensures MayPublish(AfterAll(m, ops), id, captured) <==> Reached(m, ops, id) == captured
  {
    if KeepsCounting(ops) {
      GenerationsCountRaises(m, ops, id);
    } else {
      ClearAllForgetsTheRest(m, ops);
      GenerationsCountRaises(NOTHING, SinceClearAll(ops), id);
    }
  }

  /** So a challenge whose generation another has used up is refused if and only if no `clear_all` came
      since, or the count reached behind the last one is not the captured one. */
  lemma {:induction false} PublishedOnceExactlyUnlessRecounted(m: Memory, session: Option<Slot>, ops: seq<Op>,
      id: string)
    requires session.Some? ==> session.value.BrowserSlot?
    ensures !MayPublish(AfterAll(After(m, Effect(id, session)), ops), id, Captured(m, id)) <==>
      KeepsCounting(ops) || Raises(NOTHING, SinceClearAll(ops), id) != Captured(m, id)
  {
    var n := After(m, Effect(id, session));
    assert Captured(n, id) == Captured(m, id) + 1;
    MayPublishExactlyAtItsCount(n, ops, id, Captured(m, id));
  }

  /** A challenge that may still publish finds what its creation saw, or else what the operations behind
      the last `clear_all` left in an empty store. */
  lemma {:induction false} PublicationFindsWhatItSawOrARestart(m: Memory, ops: seq<Op>, id: string)
    requires MayPublish(AfterAll(m, ops), id, Captured(m, id))
    ensures SlotAt(AfterAll(m, ops), id) ==
      if KeepsCounting(ops) then SlotAt(m, id) else SlotAt(AfterAll(NOTHING, SinceClearAll(ops)), id)
  {
    if KeepsCounting(ops) {
      PublicationFindsWhatItSaw(m, ops, id);
    } else {
      ClearAllForgetsTheRest(m, ops);
    }
  }

  /** The store alone would let a capture from before `clear_all` match another session: that no challenge
      is older than the last `clear_all` is for the start-up order to ensure. */
  lemma ClearAllBringsGenerationsRound()
    ensures var old1, new1 := BrowserSlot("b", map["c" := "1"]), BrowserSlot("b", map["c" := "2"]);
      var m := After(NOTHING, Install("canvas", old1));
      var n := AfterAll(m, [ClearAll, Install("canvas", new1)]);
      MayPublish(n, "canvas", Captured(m, "canvas")) && SlotAt(n, "canvas") != SlotAt(m, "canvas")
  {
    var old1, new1 := BrowserSlot("b", map["c" := "1"]), BrowserSlot("b", map["c" := "2"]);
    var m := After(NOTHING, Install("canvas", old1));
    var ops := [ClearAll, Install("canvas", new1)];
    assert ops[1..] == [Install("canvas", new1)] && ops[1..][1..] == [];
    assert AfterAll(After(NOTHING, ops[1]), ops[1..][1..]) == After(NOTHING, ops[1]);
    assert AfterAll(m, ops) == AfterAll(NOTHING, ops[1..]) == After(NOTHING, ops[1]);
    assert map["c" := "1"]["c"] != map["c" := "2"]["c"];
  }
}
