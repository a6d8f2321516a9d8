/** frontend/src/timeline.tsx, `layoutTimeline`: label tracks and the tick filter, two greedy passes over
    sorted positions. Coordinates are reals. */
module Timeline {

  /** One task on its course line; `title` is the length of its title. */
  datatype Node = Node(lane: int, x: real, title: nat)

  /** Where a track is taken up to; `Nowhere` is minus infinity. */
  datatype End = Nowhere | Until(at: real)

  /** The ends of the three tracks of a lane. */
  datatype Ends = Ends(first: End, second: End, third: End) {
    function At(t: nat): End
      requires t < 3
    {
      if t == 0 then first else if t == 1 then second else third
    }

    function Put(t: nat, end: End): Ends
      requires t < 3
    {
      if t == 0 then Ends(end, second, third) else if t == 1 then Ends(first, end, third) else Ends(first, second, end)
    }
  }

  const FREE := Ends(Nowhere, Nowhere, Nowhere)
  const GAP := 10.0
  const SPACING := 68.0

  function LabelStart(n: Node): real {
    n.x + 14.0
  }

  function LabelEnd(n: Node): real {
    n.x + 14.0 + (if n.title < 24 then n.title else 24) as real * 7.4
  }

  predicate Fits(n: Node, e: End) {
    e == Nowhere || LabelStart(n) > e.at + GAP
  }

  predicate AtMost(a: End, b: End) {
    a == Nowhere || (b.Until? && a.at <= b.at)
  }

  /** The first free track, or else the first of those that end earliest. */
  function Choose(ends: Ends, n: Node): (t: nat)
    ensures t < 3
    ensures Fits(n, ends.At(t)) <==> exists k :: 0 <= k < 3 && Fits(n, ends.At(k))
    ensures !Fits(n, ends.At(t)) ==> forall k :: 0 <= k < 3 ==> AtMost(ends.At(t), ends.At(k))
    ensures Fits(n, ends.At(t)) ==> forall k :: 0 <= k < t ==> !Fits(n, ends.At(k))
    ensures !Fits(n, ends.At(t)) ==> forall k :: 0 <= k < t ==> !AtMost(ends.At(k), ends.At(t))
  {
    if Fits(n, ends.At(0)) then 0 else if Fits(n, ends.At(1)) then 1 else if Fits(n, ends.At(2)) then 2
    else if AtMost(ends.At(0), ends.At(1)) && AtMost(ends.At(0), ends.At(2)) then 0
    else if AtMost(ends.At(1), ends.At(2)) then 1 else 2
  }

  function EndsOf(lanes: map<int, Ends>, lane: int): Ends {
    if lane in lanes then lanes[lane] else FREE
  }

  datatype Layout = Layout(lanes: map<int, Ends>, tracks: seq<nat>)

  /** The layout of the first `n` nodes. */
  function Lay(nodes: seq<Node>, n: nat): (l: Layout)
    requires n <= |nodes|
    ensures |l.tracks| == n && forall i :: 0 <= i < n ==> l.tracks[i] < 3
  {
    if n == 0 then Layout(map[], [])
    else
      var before, node := Lay(nodes, n - 1), nodes[n - 1];
      var ends := EndsOf(before.lanes, node.lane);
      var t := Choose(ends, node);
      Layout(before.lanes[node.lane := ends.Put(t, Until(LabelEnd(node)))], before.tracks + [t])
  }

  predicate Before(a: Node, b: Node) {
    a.lane < b.lane || (a.lane == b.lane && a.x <= b.x)
  }

  ghost predicate Sorted(nodes: seq<Node>) {
    forall i, j :: 0 <= i < j < |nodes| ==> Before(nodes[i], nodes[j])
  }

  method PlaceLabels(nodes: seq<Node>) returns (placed: seq<nat>)
    ensures placed == Lay(nodes, |nodes|).tracks
  {
    var lanes: map<int, Ends> := map[];
    placed := [];
    for i := 0 to |nodes|
      invariant Layout(lanes, placed) == Lay(nodes, i)
    {
      var node := nodes[i];
      var ends := if node.lane in lanes then lanes[node.lane] else FREE;
      var t := 0;
      while t < 3 && !Fits(node, ends.At(t))
        invariant 0 <= t <= 3 && forall k :: 0 <= k < t ==> !Fits(node, ends.At(k))
      {
        t := t + 1;
      }
      if t == 3 {
        t := 0;
        var k := 1;
        while k < 3
          invariant 1 <= k <= 3 && 0 <= t < k
          invariant forall j :: 0 <= j < k ==> AtMost(ends.At(t), ends.At(j))
          invariant forall j :: 0 <= j < t ==> !AtMost(ends.At(j), ends.At(t))
        {
          if !AtMost(ends.At(t), ends.At(k)) {
            t := k;
          }
          k := k + 1;
        }
      }
      lanes := lanes[node.lane := ends.Put(t, Until(LabelEnd(node)))];
      placed := placed + [t];
    }
  }

  // When are labels kept apart?

  predicate Apart(a: Node, b: Node) {
    LabelStart(b) - LabelEnd(a) > GAP
  }

  /** Any two labels of one lane on one track are more than 10 apart. */
  ghost predicate Separates(nodes: seq<Node>, tracks: seq<nat>, n: nat)
    requires n <= |nodes| && n <= |tracks|
  {
    forall i, j :: 0 <= i < j < n && nodes[i].lane == nodes[j].lane && tracks[i] == tracks[j] ==>
      Apart(nodes[i], nodes[j])
  }

  predicate Blocks(nodes: seq<Node>, i: int, j: int)
    requires 0 <= i < |nodes| && 0 <= j < |nodes|
  {
    i < j && nodes[i].lane == nodes[j].lane && !Apart(nodes[i], nodes[j])
  }

  ghost predicate Crowded(nodes: seq<Node>, j: int)
    requires 0 <= j < |nodes|
  {
    exists a, b, c :: 0 <= a < b < c < j && Blocks(nodes, a, j) && Blocks(nodes, b, j) && Blocks(nodes, c, j)
  }

  /** The ends of a lane are the ends of the last label on each track, and bound all earlier ones. */
  ghost predicate EndsTellTracks(nodes: seq<Node>, n: nat, lane: int)
    requires n <= |nodes|
  {
    var l := Lay(nodes, n);
    forall t :: 0 <= t < 3 ==>
      var e := EndsOf(l.lanes, lane).At(t);
      && (e == Nowhere ==> forall i :: 0 <= i < n && nodes[i].lane == lane ==> l.tracks[i] != t)
      && (e != Nowhere ==>
        exists i :: 0 <= i < n && nodes[i].lane == lane && l.tracks[i] == t && e == Until(LabelEnd(nodes[i])))
      && (e != Nowhere ==> forall i :: 0 <= i < n && nodes[i].lane == lane && l.tracks[i] == t ==>
        LabelEnd(nodes[i]) <= e.at)
  }

  lemma PlacingKeepsEnds(nodes: seq<Node>, n: nat, lane: int)
    requires 0 < n <= |nodes| && EndsTellTracks(nodes, n - 1, lane)
    requires nodes[n - 1].lane == lane ==>
      Fits(nodes[n - 1], EndsOf(Lay(nodes, n - 1).lanes, lane).At(Lay(nodes, n).tracks[n - 1]))
    ensures EndsTellTracks(nodes, n, lane)
  {
    var before, after, node := Lay(nodes, n - 1), Lay(nodes, n), nodes[n - 1];
    assert forall i :: 0 <= i < n - 1 ==> after.tracks[i] == before.tracks[i];
    forall t | 0 <= t < 3
      ensures var e := EndsOf(after.lanes, lane).At(t);
        && (e == Nowhere ==> forall i :: 0 <= i < n && nodes[i].lane == lane ==> after.tracks[i] != t)
        && (e != Nowhere ==>
          exists i :: 0 <= i < n && nodes[i].lane == lane && after.tracks[i] == t && e == Until(LabelEnd(nodes[i])))
        && (e != Nowhere ==> forall i :: 0 <= i < n && nodes[i].lane == lane && after.tracks[i] == t ==>
          LabelEnd(nodes[i]) <= e.at)
    {
      if node.lane == lane && t == after.tracks[n - 1] {
        assert after.tracks[n - 1] == t && EndsOf(after.lanes, lane).At(t) == Until(LabelEnd(node));
      } else {
        assert EndsOf(after.lanes, lane).At(t) == EndsOf(before.lanes, lane).At(t);
      }
    }
  }

  /** A taken track was taken by a label that blocks the next one. */
  lemma TakenTrackBlocks(nodes: seq<Node>, n: nat, t: nat) returns (i: nat)
    requires n < |nodes| && t < 3 && EndsTellTracks(nodes, n, nodes[n].lane)
    requires !Fits(nodes[n], EndsOf(Lay(nodes, n).lanes, nodes[n].lane).At(t))
    ensures i < n && Lay(nodes, n).tracks[i] == t && Blocks(nodes, i, n)
  {
    var l, lane := Lay(nodes, n), nodes[n].lane;
    i :| 0 <= i < n && nodes[i].lane == lane && l.tracks[i] == t
      && EndsOf(l.lanes, lane).At(t) == Until(LabelEnd(nodes[i]));
  }

  lemma ThreeBlockersCrowd(nodes: seq<Node>, n: nat, p: nat, q: nat, r: nat)
    requires n < |nodes| && p < n && q < n && r < n && p != q && q != r && p != r
    requires Blocks(nodes, p, n) && Blocks(nodes, q, n) && Blocks(nodes, r, n)
    ensures Crowded(nodes, n)
    decreases (if q < p then 1 else 0) + (if r < q then 1 else 0) + (if r < p then 1 else 0)
  {
    if q < p {
      ThreeBlockersCrowd(nodes, n, q, p, r);
    } else if r < q {
      ThreeBlockersCrowd(nodes, n, p, r, q);
    }
  }

  /** With three tracks taken past a label's start, three earlier labels block it. */
  lemma {:induction false} NoFreeTrackMeansCrowded(nodes: seq<Node>, n: nat)
    requires n < |nodes| && EndsTellTracks(nodes, n, nodes[n].lane)
    requires forall t :: 0 <= t < 3 ==> !Fits(nodes[n], EndsOf(Lay(nodes, n).lanes, nodes[n].lane).At(t))
    ensures Crowded(nodes, n)
  {
    var p := TakenTrackBlocks(nodes, n, 0);
    var q := TakenTrackBlocks(nodes, n, 1);
    var r := TakenTrackBlocks(nodes, n, 2);
    ThreeBlockersCrowd(nodes, n, p, q, r);
  }

  lemma {:induction false} UncrowdedIsSeparated(nodes: seq<Node>, n: nat)
    requires n <= |nodes| && forall j :: 0 <= j < n ==> !Crowded(nodes, j)
    ensures Separates(nodes, Lay(nodes, n).tracks, n)
    ensures forall lane :: EndsTellTracks(nodes, n, lane)
  {
    if n > 0 {
      UncrowdedIsSeparated(nodes, n - 1);
      var before, after, node := Lay(nodes, n - 1), Lay(nodes, n), nodes[n - 1];
      var ends, t := EndsOf(before.lanes, node.lane), after.tracks[n - 1];
      assert EndsTellTracks(nodes, n - 1, node.lane);
      if !Fits(node, ends.At(t)) {
        NoFreeTrackMeansCrowded(nodes, n - 1);
        assert false;
      }
      forall lane ensures EndsTellTracks(nodes, n, lane) {
        PlacingKeepsEnds(nodes, n, lane);
      }
      forall i, j | 0 <= i < j < n && nodes[i].lane == nodes[j].lane && after.tracks[i] == after.tracks[j]
        ensures Apart(nodes[i], nodes[j])
      {
        assert after.tracks[i] == before.tracks[i];
        if j == n - 1 {
          assert ends.At(t) != Nowhere && LabelEnd(nodes[i]) <= ends.At(t).at;
        } else {
          assert after.tracks[j] == before.tracks[j];
        }
      }
    }
  }

  /** A crowded label and its three blockers conflict pairwise, so three tracks cannot hold them. */
  lemma CrowdedCannotBeSeparated(nodes: seq<Node>, tracks: seq<nat>, j: nat)
    requires Sorted(nodes) && |tracks| == |nodes| && j < |nodes| && Crowded(nodes, j)
    requires forall i :: 0 <= i < |tracks| ==> tracks[i] < 3
    ensures !Separates(nodes, tracks, |nodes|)
  {
    var a, b, c :| 0 <= a < b < c < j && Blocks(nodes, a, j) && Blocks(nodes, b, j) && Blocks(nodes, c, j);
    assert Before(nodes[b], nodes[j]) && Before(nodes[c], nodes[j]);
    assert !Apart(nodes[a], nodes[b]) && !Apart(nodes[a], nodes[c]) && !Apart(nodes[b], nodes[c]);
    assert tracks[a] < 3 && tracks[b] < 3 && tracks[c] < 3 && tracks[j] < 3;
  }

  /** The greedy placement is as good as any: it separates all labels exactly when some placement on
      three tracks does, and that is exactly when no label is blocked by three earlier ones. */
  lemma {:induction false} GreedyTracksAreOptimal(nodes: seq<Node>)
    requires Sorted(nodes)
    ensures Separates(nodes, Lay(nodes, |nodes|).tracks, |nodes|) <==>
      forall j :: 0 <= j < |nodes| ==> !Crowded(nodes, j)
    ensures Separates(nodes, Lay(nodes, |nodes|).tracks, |nodes|) <==>
      exists tracks: seq<nat> :: |tracks| == |nodes| && (forall i :: 0 <= i < |tracks| ==> tracks[i] < 3)
        && Separates(nodes, tracks, |nodes|)
  {
    var greedy := Lay(nodes, |nodes|).tracks;
    if forall j :: 0 <= j < |nodes| ==> !Crowded(nodes, j) {
      UncrowdedIsSeparated(nodes, |nodes|);
      assert |greedy| == |nodes|;
    } else {
      var j :| 0 <= j < |nodes| && Crowded(nodes, j);
      forall tracks: seq<nat> | |tracks| == |nodes| && forall i :: 0 <= i < |tracks| ==> tracks[i] < 3
        ensures !Separates(nodes, tracks, |nodes|)
      {
        CrowdedCannotBeSeparated(nodes, tracks, j);
      }
    }
  }

  // Ticks.

  predicate Spaced(last: End, x: real) {
    last == Nowhere || x - last.at >= SPACING
  }

  function Kept(xs: seq<real>, last: End): seq<real> {
    if xs == [] then []
    else if Spaced(last, xs[0]) then [xs[0]] + Kept(xs[1..], Until(xs[0]))
    else Kept(xs[1..], last)
  }

  method FilterTicks(xs: seq<real>) returns (ticks: seq<real>)
    ensures ticks == Kept(xs, Nowhere)
  {
    ticks := [];
    var last := Nowhere;
    for i := 0 to |xs|
      invariant Kept(xs, Nowhere) == ticks + Kept(xs[i..], last)
    {
      assert xs[i..][1..] == xs[i + 1..];
      if Spaced(last, xs[i]) {
        assert ticks + Kept(xs[i..], last) == ticks + [xs[i]] + Kept(xs[i + 1..], Until(xs[i]));
        ticks := ticks + [xs[i]];
        last := Until(xs[i]);
      }
    }
    assert xs[|xs|..] == [];
  }

  predicate Ascending(xs: seq<real>) {
    forall i, j :: 0 <= i < j < |xs| ==> xs[i] <= xs[j]
  }

  /** `sub` is `xs` with some elements left out. */
  predicate Subsequence(sub: seq<real>, xs: seq<real>) {
    if sub == [] then true
    else if xs == [] then false
    else (sub[0] == xs[0] && Subsequence(sub[1..], xs[1..])) || Subsequence(sub, xs[1..])
  }

  predicate AllSpaced(xs: seq<real>) {
    forall i, j :: 0 <= i < j < |xs| ==> xs[j] - xs[i] >= SPACING
  }

  lemma {:induction false} SubsequenceMember(sub: seq<real>, xs: seq<real>, k: nat)
    requires Subsequence(sub, xs) && k < |sub|
    ensures sub[k] in xs
  {
    if sub[0] == xs[0] && Subsequence(sub[1..], xs[1..]) {
      if k > 0 { SubsequenceMember(sub[1..], xs[1..], k - 1); }
    } else {
      SubsequenceMember(sub, xs[1..], k);
    }
  }

  lemma {:induction false} DropFirst(sub: seq<real>, xs: seq<real>)
    requires Subsequence(sub, xs) && sub != []
    ensures Subsequence(sub[1..], xs)
  {
    if sub[0] == xs[0] && Subsequence(sub[1..], xs[1..]) {
      if sub[1..] != [] { DropFirstOf(sub[1..], xs); }
    } else {
      DropFirst(sub, xs[1..]);
    }
  }

  lemma {:induction false} DropFirstOf(sub: seq<real>, xs: seq<real>)
    requires xs != [] && Subsequence(sub, xs[1..])
    ensures Subsequence(sub, xs)
  {
  }

  /** What is kept is a spaced choice of the ticks. */
  lemma {:induction false} KeptIsAChoice(xs: seq<real>, last: End)
    requires Ascending(xs)
    ensures Subsequence(Kept(xs, last), xs) && AllSpaced(Kept(xs, last))
    ensures Kept(xs, last) != [] ==> Spaced(last, Kept(xs, last)[0])
  {
    if xs != [] {
      var rest := Kept(xs[1..], if Spaced(last, xs[0]) then Until(xs[0]) else last);
      KeptIsAChoice(xs[1..], if Spaced(last, xs[0]) then Until(xs[0]) else last);
      if Spaced(last, xs[0]) {
        assert Kept(xs, last)[1..] == rest;
        forall k | 0 <= k < |rest| ensures rest[k] - xs[0] >= SPACING {
          if k > 0 { assert rest[k] - rest[0] >= SPACING; }
        }
      }
    }
  }

  /** No spaced choice of the ticks is larger than the one the filter makes. */
  lemma {:induction false} KeptIsLargest(xs: seq<real>, last: End, sub: seq<real>)
    requires Ascending(xs) && Subsequence(sub, xs) && AllSpaced(sub)
    requires sub != [] ==> Spaced(last, sub[0])
    ensures |sub| <= |Kept(xs, last)|
  {
    if sub != [] {
      var x := xs[0];
      if Spaced(last, x) {
        SubsequenceMember(sub, xs, 0);
        if sub[0] == x && Subsequence(sub[1..], xs[1..]) {
        } else {
          DropFirst(sub, xs[1..]);
        }
        if |sub| > 1 {
          assert sub[1] - sub[0] >= SPACING;
        }
        KeptIsLargest(xs[1..], Until(x), sub[1..]);
      } else {
        KeptIsLargest(xs[1..], last, sub);
      }
    }
  }
}
