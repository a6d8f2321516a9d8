/** frontend/src/timeline.tsx: where the greedy layout puts each label, said of the labels before it and in the
    measures of the drawing. */
module TimelineGreedy {
  import opened Timeline

  /** Labels are 7.4 wide for each of at most 24 letters. */
  function Width(n: Node): real {
    if n.title < 24 then 7.4 * n.title as real else 177.6
  }

  /** `i` is the last of the first `j` labels on this lane and track. */
  ghost predicate LastOn(nodes: seq<Node>, tracks: seq<nat>, i: nat, j: nat, lane: int, t: nat)
    requires j <= |nodes| && j <= |tracks|
  {
    && i < j && nodes[i].lane == lane && tracks[i] == t
    && forall k :: i < k < j ==> nodes[k].lane != lane || tracks[k] != t
  }

  /** Nothing on the track of its lane, or its last label ends more than 10 before this one starts. */
  ghost predicate Clear(nodes: seq<Node>, tracks: seq<nat>, j: nat, t: nat)
    requires j < |nodes| && j <= |tracks|
  {
    forall i :: 0 <= i < j && LastOn(nodes, tracks, i, j, nodes[j].lane, t) ==>
      nodes[j].x > nodes[i].x + Width(nodes[i]) + 10.0
  }

  /** The last label on track `s` ends no later than that on track `t`, and earlier if `t` comes first. */
  ghost predicate EndsBefore(nodes: seq<Node>, tracks: seq<nat>, j: nat, s: nat, t: nat)
    requires j < |nodes| && j <= |tracks|
  {
    forall a, b :: 0 <= a < j && 0 <= b < j ==>
      LastOn(nodes, tracks, a, j, nodes[j].lane, s) && LastOn(nodes, tracks, b, j, nodes[j].lane, t) ==>
        && nodes[a].x + Width(nodes[a]) <= nodes[b].x + Width(nodes[b])
        && (t < s ==> nodes[a].x + Width(nodes[a]) != nodes[b].x + Width(nodes[b]))
  }

  /** Label `j` goes on the first clear track, and if none is clear on the first of those that end earliest. */
  ghost predicate WellPlaced(nodes: seq<Node>, tracks: seq<nat>, j: nat)
    requires j < |nodes| && j < |tracks|
  {
    && tracks[j] < 3
    && if Clear(nodes, tracks, j, tracks[j]) then forall t :: 0 <= t < tracks[j] ==> !Clear(nodes, tracks, j, t)
       else
         && (forall t :: 0 <= t < 3 ==> !Clear(nodes, tracks, j, t))
         && (forall t :: 0 <= t < 3 && t != tracks[j] ==> EndsBefore(nodes, tracks, j, tracks[j], t))
  }

  lemma WidthIs(n: Node)
    ensures LabelEnd(n) == n.x + 14.0 + Width(n) && LabelStart(n) == n.x + 14.0
  {
  }

  /** The end kept for a track is that of its last label. */
  ghost predicate EndIsLast(nodes: seq<Node>, n: nat, lane: int, t: nat)
    requires n <= |nodes| && t < 3
  {
    var l := Lay(nodes, n);
    match EndsOf(l.lanes, lane).At(t)
    case Nowhere => forall i :: 0 <= i < n ==> !LastOn(nodes, l.tracks, i, n, lane, t)
    case Until(end) =>
      && (exists i :: 0 <= i < n && LastOn(nodes, l.tracks, i, n, lane, t))
      && forall i :: 0 <= i < n && LastOn(nodes, l.tracks, i, n, lane, t) ==>
           end == nodes[i].x + 14.0 + Width(nodes[i])
  }

  lemma {:induction false} LastElsewhere(nodes: seq<Node>, n: nat, lane: int, t: nat, i: nat)
    requires 0 < n <= |nodes| && (nodes[n - 1].lane != lane || Lay(nodes, n).tracks[n - 1] != t) && i < n
    ensures LastOn(nodes, Lay(nodes, n).tracks, i, n, lane, t) <==>
      i < n - 1 && LastOn(nodes, Lay(nodes, n - 1).tracks, i, n - 1, lane, t)
  {
    var before, after := Lay(nodes, n - 1).tracks, Lay(nodes, n).tracks;
    assert after[..n - 1] == before && forall k :: 0 <= k < n - 1 ==> after[k] == before[k];
  }

  lemma {:induction false} PlacingElsewhere(nodes: seq<Node>, n: nat, lane: int, t: nat)
    requires 0 < n <= |nodes| && t < 3 && (nodes[n - 1].lane != lane || Lay(nodes, n).tracks[n - 1] != t)
    requires EndIsLast(nodes, n - 1, lane, t)
    ensures EndIsLast(nodes, n, lane, t)
  {
    assert EndsOf(Lay(nodes, n).lanes, lane).At(t) == EndsOf(Lay(nodes, n - 1).lanes, lane).At(t);
    forall i | 0 <= i < n
      ensures LastOn(nodes, Lay(nodes, n).tracks, i, n, lane, t) <==>
        i < n - 1 && LastOn(nodes, Lay(nodes, n - 1).tracks, i, n - 1, lane, t)
    {
      LastElsewhere(nodes, n, lane, t, i);
    }
    if EndsOf(Lay(nodes, n).lanes, lane).At(t).Until? {
      var i :| 0 <= i < n - 1 && LastOn(nodes, Lay(nodes, n - 1).tracks, i, n - 1, lane, t);
      assert LastOn(nodes, Lay(nodes, n).tracks, i, n, lane, t);
    }
  }

  lemma {:induction false} PlacingHere(nodes: seq<Node>, n: nat)
    requires 0 < n <= |nodes|
    ensures EndIsLast(nodes, n, nodes[n - 1].lane, Lay(nodes, n).tracks[n - 1])
  {
    var tracks, node := Lay(nodes, n).tracks, nodes[n - 1];
    WidthIs(node);
    assert LastOn(nodes, tracks, n - 1, n, node.lane, tracks[n - 1]);
    assert EndsOf(Lay(nodes, n).lanes, node.lane).At(tracks[n - 1]) == Until(LabelEnd(node));
  }

  lemma {:induction false} EndsAreLast(nodes: seq<Node>, n: nat, lane: int, t: nat)
    requires n <= |nodes| && t < 3
    ensures EndIsLast(nodes, n, lane, t)
  {
    if n > 0 {
      EndsAreLast(nodes, n - 1, lane, t);
      if nodes[n - 1].lane == lane && Lay(nodes, n).tracks[n - 1] == t {
        PlacingHere(nodes, n);
      } else {
        PlacingElsewhere(nodes, n, lane, t);
      }
    }
  }

  lemma {:induction false} FitsMeansClear(nodes: seq<Node>, j: nat, t: nat)
    requires j < |nodes| && t < 3
    ensures Fits(nodes[j], EndsOf(Lay(nodes, j).lanes, nodes[j].lane).At(t)) <==>
      Clear(nodes, Lay(nodes, j).tracks, j, t)
  {
    EndsAreLast(nodes, j, nodes[j].lane, t);
    WidthIs(nodes[j]);
  }

  lemma {:induction false} OrderMeansBefore(nodes: seq<Node>, j: nat, s: nat, t: nat)
    requires j < |nodes| && s < 3 && t < 3
    requires var ends := EndsOf(Lay(nodes, j).lanes, nodes[j].lane);
      AtMost(ends.At(s), ends.At(t)) && (t < s ==> !AtMost(ends.At(t), ends.At(s)))
    ensures EndsBefore(nodes, Lay(nodes, j).tracks, j, s, t)
  {
    EndsAreLast(nodes, j, nodes[j].lane, s);
    EndsAreLast(nodes, j, nodes[j].lane, t);
  }

  lemma {:induction false} LastIsPlaced(nodes: seq<Node>, j: nat)
    requires j < |nodes|
    ensures WellPlaced(nodes, Lay(nodes, j).tracks + [Lay(nodes, j + 1).tracks[j]], j)
  {
    var before, t := Lay(nodes, j), Lay(nodes, j + 1).tracks[j];
    var ends, all := EndsOf(before.lanes, nodes[j].lane), before.tracks + [t];
    assert t == Choose(ends, nodes[j]);
    forall s | 0 <= s < 3 ensures Fits(nodes[j], ends.At(s)) <==> Clear(nodes, all, j, s) {
      FitsMeansClear(nodes, j, s);
      SameStart(nodes, before.tracks, all, j, s);
    }
    if !Fits(nodes[j], ends.At(t)) {
      forall s | 0 <= s < 3 && s != t ensures EndsBefore(nodes, all, j, t, s) {
        OrderMeansBefore(nodes, j, t, s);
        SameStartEnds(nodes, before.tracks, all, j, t, s);
      }
    }
  }

  lemma SameLast(nodes: seq<Node>, a: seq<nat>, b: seq<nat>, i: nat, j: nat, lane: int, t: nat)
    requires j <= |nodes| && j <= |a| && j <= |b| && a[..j] == b[..j]
    ensures LastOn(nodes, a, i, j, lane, t) <==> LastOn(nodes, b, i, j, lane, t)
  {
    assert forall k :: 0 <= k < j ==> a[..j][k] == a[k] && b[..j][k] == b[k];
  }

  lemma SameStart(nodes: seq<Node>, a: seq<nat>, b: seq<nat>, j: nat, t: nat)
    requires j < |nodes| && j <= |a| && j <= |b| && a[..j] == b[..j]
    ensures Clear(nodes, a, j, t) <==> Clear(nodes, b, j, t)
  {
    forall i | 0 <= i < j
      ensures LastOn(nodes, a, i, j, nodes[j].lane, t) <==> LastOn(nodes, b, i, j, nodes[j].lane, t)
    {
      SameLast(nodes, a, b, i, j, nodes[j].lane, t);
    }
  }

  lemma SameStartEnds(nodes: seq<Node>, a: seq<nat>, b: seq<nat>, j: nat, s: nat, t: nat)
    requires j < |nodes| && j <= |a| && j <= |b| && a[..j] == b[..j]
    ensures EndsBefore(nodes, a, j, s, t) <==> EndsBefore(nodes, b, j, s, t)
  {
    forall i | 0 <= i < j
      ensures LastOn(nodes, a, i, j, nodes[j].lane, s) <==> LastOn(nodes, b, i, j, nodes[j].lane, s)
      ensures LastOn(nodes, a, i, j, nodes[j].lane, t) <==> LastOn(nodes, b, i, j, nodes[j].lane, t)
    {
      SameLast(nodes, a, b, i, j, nodes[j].lane, s);
      SameLast(nodes, a, b, i, j, nodes[j].lane, t);
    }
  }

  lemma {:induction false} LayGrows(nodes: seq<Node>, n: nat, m: nat)
    requires n <= m <= |nodes|
    ensures Lay(nodes, m).tracks[..n] == Lay(nodes, n).tracks
    decreases m - n
  {
    if n == m {
      assert Lay(nodes, n).tracks[..n] == Lay(nodes, n).tracks;
    } else {
      LayGrows(nodes, n, m - 1);
      assert Lay(nodes, m).tracks[..m - 1] == Lay(nodes, m - 1).tracks;
      assert Lay(nodes, m).tracks[..n] == Lay(nodes, m - 1).tracks[..n];
    }
  }

  lemma SameStartPlaced(nodes: seq<Node>, a: seq<nat>, b: seq<nat>, j: nat)
    requires j < |nodes| && j < |a| && j < |b| && a[..j + 1] == b[..j + 1] && WellPlaced(nodes, a, j)
    ensures WellPlaced(nodes, b, j)
  {
    assert a[..j + 1][..j] == a[..j] && b[..j + 1][..j] == b[..j];
    assert a[..j + 1][j] == a[j] && b[..j + 1][j] == b[j];
    forall t | 0 <= t < 3
      ensures Clear(nodes, a, j, t) <==> Clear(nodes, b, j, t)
      ensures EndsBefore(nodes, a, j, a[j], t) <==> EndsBefore(nodes, b, j, b[j], t)
    {
      SameStart(nodes, a, b, j, t);
      SameStartEnds(nodes, a, b, j, a[j], t);
    }
  }

  /** Every label of a layout is on the first track that is clear for it, more than 10 behind the end of the last
      label there, and if none is clear on the first of those that end earliest. */
  lemma {:induction false} EveryLabelIsWellPlaced(nodes: seq<Node>, j: nat)
    requires j < |nodes|
    ensures WellPlaced(nodes, Lay(nodes, |nodes|).tracks, j)
  {
    var all := Lay(nodes, |nodes|).tracks;
    LastIsPlaced(nodes, j);
    LayGrows(nodes, j + 1, |nodes|);
    LayGrows(nodes, j, j + 1);
    var upTo := Lay(nodes, j).tracks + [Lay(nodes, j + 1).tracks[j]];
    assert upTo == Lay(nodes, j + 1).tracks;
    assert upTo[..j + 1] == upTo;
    SameStartPlaced(nodes, upTo, all, j);
  }

  /** So are kept ticks at least 68 apart, and kept labels clear of each other, in the same measures. */
  lemma {:induction false} MeasuresOfTheDrawing(nodes: seq<Node>, xs: seq<real>, i: nat, j: nat)
    requires i < j
    requires Ascending(xs)
    ensures j < |Kept(xs, Nowhere)| ==> Kept(xs, Nowhere)[j] - Kept(xs, Nowhere)[i] >= 68.0
    ensures j < |nodes| && (forall k :: 0 <= k < |nodes| ==> !Crowded(nodes, k)) ==>
      var tracks := Lay(nodes, |nodes|).tracks;
      nodes[i].lane == nodes[j].lane && tracks[i] == tracks[j] ==> nodes[j].x - nodes[i].x > Width(nodes[i]) + 10.0
  {
    KeptIsAChoice(xs, Nowhere);
    if j < |nodes| && forall k :: 0 <= k < |nodes| ==> !Crowded(nodes, k) {
      UncrowdedIsSeparated(nodes, |nodes|);
      WidthIs(nodes[i]);
      WidthIs(nodes[j]);
    }
  }
}
