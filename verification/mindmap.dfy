/** The advanced mind map of static/js/mindmap.js: the bounded undo/redo
  * history with its cursor, copy and paste, and the summary of the map.
  * Drawing, notifications, keyboard handling and the server calls are left
  * out; the base MindMap class is not part of this model, and its node id
  * counter is given to the constructor. */
module MindMapEditor {
  import opened Common
  import opened Records

  /** The most snapshots the history keeps. */
  const HistoryLimit := 50

  /** A deep copy of the map's nodes and connections. */
  datatype MapState = MapState(nodes: seq<MapNode>, connections: seq<MapLink>)

  // ------------------------------------------------------------ history on values

  /** saveState on (history, cursor): everything after the cursor is dropped,
    * the snapshot is pushed, and the oldest one goes when there are too many. */
  function Saved(history: seq<MapState>, index: int, s: MapState): (seq<MapState>, int)
    requires -1 <= index < |history|
  {
    var kept := history[..index + 1] + [s];
    if |kept| > HistoryLimit then (kept[1..], index) else (kept, index + 1)
  }

  /** The cursor after undo: one back, unless at the first snapshot or before it. */
  function UndoIndex(index: int): int { if index > 0 then index - 1 else index }

  /** The cursor after redo: one on, unless at the last snapshot. */
  function RedoIndex(history: seq<MapState>, index: int): int { if index < |history| - 1 then index + 1 else index }

  /** The history after saveState is the latest snapshots up to the cursor,
    * at most 49 of them, followed by the new one, and the cursor is on it. */
  lemma SavedSpec(history: seq<MapState>, index: int, s: MapState)
    requires -1 <= index < |history| <= HistoryLimit
    ensures var (h, i) := Saved(history, index, s);
      && |h| == (if index + 2 > HistoryLimit then HistoryLimit else index + 2)
      && i == |h| - 1 && h[i] == s
      && h[..i] == history[index + 2 - |h|..index + 1]
  {
    var kept := history[..index + 1] + [s];
    if |kept| > HistoryLimit {
      assert kept[1..][..|kept| - 2] == history[1..index + 1];
    } else {
      assert kept[..index + 1] == history[..index + 1];
    }
  }

  /** Undo that moved the cursor, then redo, puts it back; so does redo, then undo. */
  lemma UndoRedo(history: seq<MapState>, index: int)
    requires -1 <= index < |history| && (index == -1 <==> history == [])
    ensures UndoIndex(index) != index ==> RedoIndex(history, UndoIndex(index)) == index
    ensures RedoIndex(history, index) != index ==> UndoIndex(RedoIndex(history, index)) == index
    ensures -1 <= UndoIndex(index) < |history| && -1 <= RedoIndex(history, index) < |history|
  {
  }

  // ------------------------------------------------------------ the editor

  class MindMap {
    var nodes: seq<MapNode>
    var connections: seq<MapLink>
    var history: seq<MapState>
    var historyIndex: int
    var clipboard: Option<MapNode>
    var selected: Option<MapNode>
    var nodeIdCounter: int

    /** The cursor is on a snapshot, or at -1 before the first; the history is bounded. */
    predicate Valid()
      reads this
    {
      -1 <= historyIndex < |history| <= HistoryLimit && (historyIndex == -1 <==> history == [])
    }

    constructor (nodeIdCounter: int)
      ensures Valid() && history == [] && historyIndex == -1
      ensures nodes == [] && connections == [] && clipboard.None? && selected.None?
      ensures this.nodeIdCounter == nodeIdCounter
    {
      nodes, connections := [], [];
      history, historyIndex := [], -1;
      clipboard, selected := None, None;
      this.nodeIdCounter := nodeIdCounter;
    }

    /** saveState: a snapshot of the current nodes and connections becomes the
      * last one, and the cursor moves onto it. */
    method SaveState()
      requires Valid()
      modifies this
      ensures Valid()
      ensures (history, historyIndex) == Saved(old(history), old(historyIndex), MapState(nodes, connections))
      ensures nodes == old(nodes) && connections == old(connections) && clipboard == old(clipboard)
      ensures selected == old(selected) && nodeIdCounter == old(nodeIdCounter)
    {
      var state := MapState(nodes, connections);
      history := history[..historyIndex + 1];
      history := history + [state];
      historyIndex := historyIndex + 1;
      if |history| > HistoryLimit {
        history := history[1..];
        historyIndex := historyIndex - 1;
      }
    }

    /** undo: back one snapshot and load it, unless at the first. */
    method Undo()
      requires Valid()
      modifies this
      ensures Valid() && history == old(history) && historyIndex == UndoIndex(old(historyIndex))
      ensures historyIndex != old(historyIndex) ==>
        nodes == history[historyIndex].nodes && connections == history[historyIndex].connections
      ensures historyIndex == old(historyIndex) ==> nodes == old(nodes) && connections == old(connections)
      ensures clipboard == old(clipboard) && selected == old(selected) && nodeIdCounter == old(nodeIdCounter)
    {
      if historyIndex > 0 {
        historyIndex := historyIndex - 1;
        var state := history[historyIndex];
        nodes, connections := state.nodes, state.connections;
      }
    }

    /** redo: on one snapshot and load it, unless at the last. */
    method Redo()
      requires Valid()
      modifies this
      ensures Valid() && history == old(history) && historyIndex == RedoIndex(history, old(historyIndex))
      ensures historyIndex != old(historyIndex) ==>
        nodes == history[historyIndex].nodes && connections == history[historyIndex].connections
      ensures historyIndex == old(historyIndex) ==> nodes == old(nodes) && connections == old(connections)
      ensures clipboard == old(clipboard) && selected == old(selected) && nodeIdCounter == old(nodeIdCounter)
    {
      if historyIndex < |history| - 1 {
        historyIndex := historyIndex + 1;
        var state := history[historyIndex];
        nodes, connections := state.nodes, state.connections;
      }
    }

    /** copy: the selected node, if any, goes to the clipboard. */
    method Copy()
      modifies this
      ensures clipboard == if old(selected).Some? then old(selected) else old(clipboard)
      ensures nodes == old(nodes) && connections == old(connections) && history == old(history)
      ensures historyIndex == old(historyIndex) && selected == old(selected) && nodeIdCounter == old(nodeIdCounter)
    {
      if selected.Some? {
        clipboard := selected;
      }
    }

    /** paste: with a clipboard, a copy of it under the next id, 50 to the right
      * and 50 down, is added, selected and saved in the history. */
    method Paste()
      requires Valid()
      modifies this
      ensures Valid()
      ensures old(clipboard).None? ==>
        nodes == old(nodes) && history == old(history) && historyIndex == old(historyIndex)
        && selected == old(selected) && nodeIdCounter == old(nodeIdCounter)
      ensures old(clipboard).Some? ==>
        && nodes == old(nodes) + [Pasted(old(clipboard).value, old(nodeIdCounter))]
        && nodeIdCounter == old(nodeIdCounter) + 1
        && selected == Some(Pasted(old(clipboard).value, old(nodeIdCounter)))
        && (history, historyIndex) == Saved(old(history), old(historyIndex), MapState(nodes, connections))
      ensures connections == old(connections) && clipboard == old(clipboard)
    {
      if clipboard.Some? {
        var node := clipboard.value.(id := nodeIdCounter, x := clipboard.value.x + 50, y := clipboard.value.y + 50);
        nodeIdCounter := nodeIdCounter + 1;
        nodes := nodes + [node];
        selected := Some(node);
        SaveState();
      }
    }

    /** generateSummary over the current map. */
    method GenerateSummary() returns (s: Summary)
      ensures s == Summary(|nodes|, Tally(nodes), |connections|, Isolated(nodes, connections),
                           CompletionRate(Tally(nodes)))
    {
      var byType := TallyNodes(nodes);
      var linked := Touched(connections);
      s := Summary(|nodes|, byType, |connections|, Filter(nodes, (n: MapNode) => n.id !in linked),
                   CompletionRate(byType));
    }
  }

  /** The pasted copy of a clipboard node. */
  function Pasted(n: MapNode, id: int): MapNode { n.(id := id, x := n.x + 50, y := n.y + 50) }

  // ------------------------------------------------------------ the summary

  /** The summary: counts per node type in first-seen order, as the keys of a
    * JavaScript object keep them. */
  datatype Summary = Summary(totalNodes: nat, nodesByType: seq<(string, nat)>, totalConnections: nat,
                             isolatedNodes: seq<MapNode>, completionRate: int)

  /** The count under a type, 0 when it has none (`|| 0`). */
  function Get(t: seq<(string, nat)>, kind: string): nat
  {
    if t == [] then 0
    else if t[|t| - 1].0 == kind then t[|t| - 1].1
    else Get(t[..|t| - 1], kind)
  }

  /** One more node of the type: its count goes up, or it is added last with 1. */
  function Bump(t: seq<(string, nat)>, kind: string): seq<(string, nat)>
    decreases |t|
  {
    if t == [] then [(kind, 1)]
    else if t[|t| - 1].0 == kind then t[..|t| - 1] + [(kind, t[|t| - 1].1 + 1)]
    else Bump(t[..|t| - 1], kind) + [t[|t| - 1]]
  }

  /** The per-type counts after the loop over the nodes. */
  function Tally(nodes: seq<MapNode>): seq<(string, nat)>
    decreases |nodes|
  {
    if nodes == [] then [] else Bump(Tally(nodes[..|nodes| - 1]), nodes[|nodes| - 1].kind)
  }

  /** The loop counting nodes by type. */
  method TallyNodes(nodes: seq<MapNode>) returns (t: seq<(string, nat)>)
    ensures t == Tally(nodes)
  {
    t := [];
    var i := 0;
    while i < |nodes|
      invariant 0 <= i <= |nodes| && t == Tally(nodes[..i])
    {
      assert nodes[..i + 1][..i] == nodes[..i];
      t := Bump(t, nodes[i].kind);
      i := i + 1;
    }
    assert nodes[..i] == nodes;
  }

  function OfKind(kind: string): MapNode -> bool { (n: MapNode) => n.kind == kind }

  function Sum(t: seq<(string, nat)>): nat
  {
    if t == [] then 0 else Sum(t[..|t| - 1]) + t[|t| - 1].1
  }

  predicate HasKey(t: seq<(string, nat)>, k: string)
  {
    exists i :: 0 <= i < |t| && t[i].0 == k
  }

  predicate Keyed(t: seq<(string, nat)>)
  {
    forall i, j :: 0 <= i < j < |t| ==> t[i].0 != t[j].0
  }

  /** Every type is listed once; the count under each type is the number of
    * nodes of that type, and the counts add up to the number of nodes. */
  lemma {:induction false} TallyCounts(nodes: seq<MapNode>)
    ensures Keyed(Tally(nodes))
    ensures forall kind :: Get(Tally(nodes), kind) == Count(nodes, OfKind(kind))
    ensures Sum(Tally(nodes)) == |nodes|
    decreases |nodes|
  {
    if nodes != [] {
      var init, n := nodes[..|nodes| - 1], nodes[|nodes| - 1];
      TallyCounts(init);
      BumpCounts(Tally(init), n.kind);
      BumpKeyed(Tally(init), n.kind);
      forall kind ensures Get(Tally(nodes), kind) == Count(nodes, OfKind(kind)) {
        CountLast(nodes, OfKind(kind));
      }
    }
  }

  /** Bumping a type adds one to its count, leaves the others and adds one to the sum. */
  lemma {:induction false} BumpCounts(t: seq<(string, nat)>, kind: string)
    ensures forall k :: Get(Bump(t, kind), k) == Get(t, k) + (if k == kind then 1 else 0)
    ensures Sum(Bump(t, kind)) == Sum(t) + 1
    decreases |t|
  {
    if t != [] {
      var init, last := t[..|t| - 1], t[|t| - 1];
      var r := Bump(t, kind);
      if last.0 == kind {
        assert r[..|r| - 1] == init;
      } else {
        BumpCounts(init, kind);
        assert r[..|r| - 1] == Bump(init, kind);
      }
    }
  }

  /** After bumping, the types are the old ones and the bumped one. */
  lemma {:induction false} BumpKeys(t: seq<(string, nat)>, kind: string)
    ensures forall k :: HasKey(Bump(t, kind), k) <==> k == kind || HasKey(t, k)
    decreases |t|
  {
    if t == [] {
      assert Bump(t, kind)[0].0 == kind;
    } else {
      var init, last := t[..|t| - 1], t[|t| - 1];
      var r := Bump(t, kind);
      assert forall i :: 0 <= i < |init| ==> t[i] == init[i];
      if last.0 == kind {
        assert r[..|r| - 1] == init;
        assert forall i :: 0 <= i < |r| ==> r[i].0 == t[i].0;
      } else {
        BumpKeys(init, kind);
        var b := Bump(init, kind);
        assert r == b + [last];
        forall k ensures HasKey(r, k) <==> k == kind || HasKey(t, k) {
          if HasKey(r, k) {
            var i :| 0 <= i < |r| && r[i].0 == k;
            if i < |b| {
              assert b[i].0 == k;
              assert HasKey(b, k);
              if k != kind {
                var i' :| 0 <= i' < |init| && init[i'].0 == k;
                assert t[i'].0 == k;
              }
            } else {
              assert t[|t| - 1].0 == k;
            }
          }
          if HasKey(t, k) && k != kind {
            var i :| 0 <= i < |t| && t[i].0 == k;
            if i < |init| {
              assert init[i].0 == k;
              assert HasKey(b, k);
              var i' :| 0 <= i' < |b| && b[i'].0 == k;
              assert r[i'].0 == k;
            } else {
              assert r[|r| - 1].0 == k;
            }
          }
          if k == kind {
            assert HasKey(b, k);
            var i' :| 0 <= i' < |b| && b[i'].0 == k;
            assert r[i'].0 == k;
          }
        }
      }
    }
  }

  /** Bumping keeps every type listed once. */
  lemma {:induction false} BumpKeyed(t: seq<(string, nat)>, kind: string)
    requires Keyed(t)
    ensures Keyed(Bump(t, kind))
    decreases |t|
  {
    if t != [] {
      var init, last := t[..|t| - 1], t[|t| - 1];
      var r := Bump(t, kind);
      assert forall i :: 0 <= i < |init| ==> t[i] == init[i];
      if last.0 == kind {
        assert r[..|r| - 1] == init;
        assert forall i :: 0 <= i < |r| ==> r[i].0 == t[i].0;
      } else {
        BumpKeyed(init, kind);
        BumpKeys(init, kind);
        var b := Bump(init, kind);
        assert r == b + [last];
        forall i, j | 0 <= i < j < |r| ensures r[i].0 != r[j].0 {
          if j == |r| - 1 {
            assert HasKey(b, r[i].0) by { assert b[i].0 == r[i].0; }
            if r[i].0 != kind {
              var i' :| 0 <= i' < |init| && init[i'].0 == r[i].0;
              assert t[i'].0 == r[i].0;
            }
          } else {
            assert r[i] == b[i] && r[j] == b[j];
          }
        }
      }
    }
  }

  /** The node ids some connection starts or ends at. */
  function Linked(connections: seq<MapLink>): set<int>
    decreases |connections|
  {
    if connections == [] then {}
    else
      var c := connections[|connections| - 1];
      Linked(connections[..|connections| - 1]) + {c.from, c.to}
  }

  /** An id is connected exactly when some connection starts or ends at it. */
  lemma {:induction false} LinkedSpec(connections: seq<MapLink>, id: int)
    ensures id in Linked(connections) <==> exists c :: c in connections && (c.from == id || c.to == id)
    decreases |connections|
  {
    if connections != [] {
      var init, c := connections[..|connections| - 1], connections[|connections| - 1];
      LinkedSpec(init, id);
      assert connections == init + [c];
    }
  }

  /** The loop collecting connected node ids. */
  method Touched(connections: seq<MapLink>) returns (ids: set<int>)
    ensures ids == Linked(connections)
  {
    ids := {};
    var i := 0;
    while i < |connections|
      invariant 0 <= i <= |connections|
      invariant ids == Linked(connections[..i])
    {
      assert connections[..i + 1][..i] == connections[..i];
      ids := ids + {connections[i].from, connections[i].to};
      i := i + 1;
    }
    assert connections[..i] == connections;
  }

  /** The nodes no connection names, in map order. */
  function Isolated(nodes: seq<MapNode>, connections: seq<MapLink>): seq<MapNode>
  {
    Filter(nodes, (n: MapNode) => n.id !in Linked(connections))
  }

  /** A node is isolated exactly when it is on the map and no connection starts or ends at it. */
  lemma IsolatedExact(nodes: seq<MapNode>, connections: seq<MapLink>, n: MapNode)
    ensures n in Isolated(nodes, connections) <==>
      n in nodes && forall c :: c in connections ==> c.from != n.id && c.to != n.id
  {
    var p := (m: MapNode) => m.id !in Linked(connections);
    LinkedSpec(connections, n.id);
    if n in Isolated(nodes, connections) {
      var i :| 0 <= i < |Isolated(nodes, connections)| && Isolated(nodes, connections)[i] == n;
    }
    if n in nodes && forall c :: c in connections ==> c.from != n.id && c.to != n.id {
      var i :| 0 <= i < |nodes| && nodes[i] == n;
      assert p(nodes[i]);
    }
  }

  /** `Math.round(100 * done / total)`, on exact fractions: floor((200 * done + total) / (2 * total)). */
  function RoundPercent(done: nat, total: nat): nat
    requires total > 0
  {
    (200 * done + total) / (2 * total)
  }

  /** The share of done among the todo, in_progress and done nodes, in whole percent; 0 without such nodes. */
  function CompletionRate(t: seq<(string, nat)>): int
  {
    var done := Get(t, "done");
    var actionable := Get(t, "todo") + Get(t, "in_progress") + done;
    if actionable > 0 then RoundPercent(done, actionable) else 0
  }

  /** The rate is a percentage: 0 with no actionable or no done nodes, 100 when all are done. */
  lemma CompletionBounds(nodes: seq<MapNode>)
    ensures 0 <= CompletionRate(Tally(nodes)) <= 100
    ensures Count(nodes, OfKind("todo")) + Count(nodes, OfKind("in_progress")) + Count(nodes, OfKind("done")) == 0
            ==> CompletionRate(Tally(nodes)) == 0
    ensures Count(nodes, OfKind("done")) == 0 ==> CompletionRate(Tally(nodes)) == 0
    ensures Count(nodes, OfKind("todo")) + Count(nodes, OfKind("in_progress")) == 0 < Count(nodes, OfKind("done"))
            ==> CompletionRate(Tally(nodes)) == 100
  {
    TallyEntry(nodes, "todo");
    TallyEntry(nodes, "in_progress");
    TallyEntry(nodes, "done");
    RateBounds(Tally(nodes));
  }

  lemma TallyEntry(nodes: seq<MapNode>, kind: string)
    ensures Get(Tally(nodes), kind) == Count(nodes, OfKind(kind))
  {
    TallyCounts(nodes);
  }

  /** The same bounds in terms of the tally's entries. */
  lemma RateBounds(t: seq<(string, nat)>)
    ensures 0 <= CompletionRate(t) <= 100
    ensures Get(t, "todo") + Get(t, "in_progress") + Get(t, "done") == 0 ==> CompletionRate(t) == 0
    ensures Get(t, "done") == 0 ==> CompletionRate(t) == 0
    ensures Get(t, "todo") + Get(t, "in_progress") == 0 < Get(t, "done") ==> CompletionRate(t) == 100
  {
    var done := Get(t, "done");
    var actionable := Get(t, "todo") + Get(t, "in_progress") + done;
    if actionable > 0 {
      PercentBounds(done, actionable);
    }
  }

  lemma PercentBounds(done: nat, total: nat)
    requires 0 < total && done <= total
    ensures RoundPercent(done, total) <= 100
    ensures done == 0 ==> RoundPercent(done, total) == 0
    ensures done == total ==> RoundPercent(done, total) == 100
  {
    var d := 2 * total;
    if done == 0 {
      DivIs(total, d, 0);
    } else if done == total {
      DivIs(200 * done + total, d, 100);
    } else {
      DivAtMost(200 * done + total, d, 100);
    }
  }

  /** The quotient is the q with q * d <= n < (q + 1) * d. */
  lemma DivIs(n: nat, d: nat, q: nat)
    requires d > 0 && q * d <= n < (q + 1) * d
    ensures n / d == q
  {
    var k, r := n / d, n % d;
    assert n == k * d + r && 0 <= r < d;
    assert (k - q) * d == k * d - q * d;
    SmallMultiple(k - q, d);
  }

  /** A multiple of d strictly between -d and d is zero. */
  lemma SmallMultiple(m: int, d: int)
    requires d > 0 && -d < m * d < d
    ensures m == 0
  {
    if m > 0 {
      MulMono(1, m, d);
    } else if m < 0 {
      MulMono(1, -m, d);
    }
  }

  lemma {:induction false} MulMono(a: int, b: int, d: int)
    requires 0 <= a <= b && d >= 0
    ensures a * d <= b * d
    decreases b - a
  {
    if a < b {
      MulMono(a, b - 1, d);
      assert b * d == (b - 1) * d + d;
    }
  }

  /** n below (q + 1) * d gives a quotient of at most q. */
  lemma DivAtMost(n: nat, d: nat, q: nat)
    requires d > 0 && n < (q + 1) * d
    ensures n / d <= q
  {
    var k, r := n / d, n % d;
    assert n == k * d + r && 0 <= r < d;
  }
}
