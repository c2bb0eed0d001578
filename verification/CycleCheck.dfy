/** The depth-first search that reports dependency cycles. */
module CycleCheck {
  import opened Texts
  import opened Cycles

  datatype Color = Visiting | Visited
  datatype Violation = Violation(cycle: seq<string>, packageName: string)

  ghost function Nodes(g: Graph): set<string>
  {
    g.Keys + set a, b | a in g && b in g[a] :: b
  }

  function Dependencies(g: Graph, node: string): seq<string>
  {
    if node in g then g[node] else []
  }

  ghost predicate NamesBarFree(g: Graph)
  {
    forall n :: n in Nodes(g) ==> BarFree(n)
  }

  /** A reported cycle stands for the edge from `a` to `b`. */
  ghost predicate Covers(g: Graph, v: Violation, a: string, b: string)
  {
    NamesBarFree(g) ==> OnCycle(v.cycle, a, b)
  }

  ghost predicate Covered(g: Graph, violations: seq<Violation>, a: string, b: string)
  {
    exists i :: 0 <= i < |violations| && Covers(g, violations[i], a, b)
  }

  /** Edge `a`-`b` leads to a finished node, or a reported cycle stands for it. */
  ghost predicate Settled(g: Graph, finished: seq<string>, violations: seq<Violation>, a: string, b: string)
  {
    b in finished || Covered(g, violations, a, b)
  }

  /** The nodes of a reported cycle. */
  function CycleNodes(v: Violation): seq<string>
  {
    if v.cycle == [] then [] else v.cycle[..|v.cycle| - 1]
  }

  ghost predicate Reported(g: Graph, emitted: set<string>, violations: seq<Violation>)
  {
    (forall i :: 0 <= i < |violations| ==>
       IsSimpleCycle(g, violations[i].cycle) && violations[i].packageName == violations[i].cycle[0] &&
       CanonicalCycle(violations[i].cycle) in emitted) &&
    (forall i, j :: 0 <= i < j < |violations| ==> CanonicalCycle(violations[i].cycle) != CanonicalCycle(violations[j].cycle)) &&
    (forall k :: k in emitted ==> exists i :: 0 <= i < |violations| && CanonicalCycle(violations[i].cycle) == k)
  }

  ghost predicate Colored(g: Graph, state: map<string, Color>, path: seq<string>, finished: seq<string>)
  {
    state.Keys <= Nodes(g) &&
    (forall n :: n in state && state[n] == Visiting <==> n in path) &&
    (forall n :: n in state && state[n] == Visited <==> n in finished)
  }

  /** Every edge out of a finished node leads to a node that finished earlier, or is covered. */
  ghost predicate FinishedOk(g: Graph, finished: seq<string>, violations: seq<Violation>)
  {
    forall i, b :: 0 <= i < |finished| && Edge(g, finished[i], b) ==> Settled(g, finished[..i], violations, finished[i], b)
  }

  // ---------------------------------------------------------------- small steps

  lemma MoreViolations(g: Graph, finished: seq<string>, before: seq<Violation>, after: seq<Violation>)
    requires before <= after && FinishedOk(g, finished, before)
    ensures FinishedOk(g, finished, after)
  {
    hide Edge, Covers;
    forall i, b | 0 <= i < |finished| && Edge(g, finished[i], b)
      ensures Settled(g, finished[..i], after, finished[i], b)
    {
      assert Settled(g, finished[..i], before, finished[i], b);
      SettledLater(g, finished[..i], finished[..i], before, after, finished[i], b);
    }
  }

  /** The search has moved on. */
  ghost predicate Later(f: seq<string>, f': seq<string>, v: seq<Violation>, v': seq<Violation>, seen: set<string>, seen': set<string>)
  {
    f <= f' && v <= v' && seen <= seen'
  }

  lemma LaterStill(
    f: seq<string>, f': seq<string>, f'': seq<string>, v: seq<Violation>, v': seq<Violation>, v'': seq<Violation>,
    seen: set<string>, seen': set<string>, seen'': set<string>)
    requires Later(f, f', v, v', seen, seen') && Later(f', f'', v', v'', seen', seen'')
    ensures Later(f, f'', v, v'', seen, seen'')
  {
  }

  lemma LaterSelf(f: seq<string>, v: seq<Violation>, seen: set<string>)
    ensures Later(f, f, v, v, seen, seen)
  {
  }

  lemma LaterAround(f: seq<string>, f': seq<string>, v: seq<Violation>, v': seq<Violation>,
                    seen: set<string>, entered: set<string>, seen': set<string>, node: string)
    requires Later(f, f', v, v', entered, seen') && seen <= entered
    ensures Later(f, f' + [node], v, v', seen, seen' + {node})
  {
  }

  lemma SettledLater(g: Graph, f: seq<string>, f': seq<string>, v: seq<Violation>, v': seq<Violation>, a: string, b: string)
    requires Settled(g, f, v, a, b) && f <= f' && v <= v'
    ensures Settled(g, f', v', a, b)
  {
    hide Covers;
    if b !in f {
      var i :| 0 <= i < |v| && Covers(g, v[i], a, b);
      assert Covers(g, v'[i], a, b);
    }
  }

  lemma SettledOnceLater(g: Graph, f: seq<string>, f': seq<string>, v: seq<Violation>, v': seq<Violation>,
                         seen: set<string>, seen': set<string>, a: string, b: string)
    requires Settled(g, f, v, a, b) && Later(f, f', v, v', seen, seen')
    ensures Settled(g, f', v', a, b)
  {
    SettledLater(g, f, f', v, v', a, b);
  }

  lemma Finish(g: Graph, finished: seq<string>, violations: seq<Violation>, node: string)
    requires FinishedOk(g, finished, violations)
    requires forall b :: Edge(g, node, b) ==> Settled(g, finished, violations, node, b)
    ensures FinishedOk(g, finished + [node], violations)
  {
    hide Edge, Settled;
    var f := finished + [node];
    forall i, b | 0 <= i < |f| && Edge(g, f[i], b)
      ensures Settled(g, f[..i], violations, f[i], b)
    {
      if i < |finished| {
        assert f[..i] == finished[..i] && f[i] == finished[i];
      } else {
        assert f[..i] == finished;
      }
    }
  }

  /** The part of the path from `node` on, closed by the edge back to it, is a simple cycle. */
  lemma BackEdgeCycle(g: Graph, path: seq<string>, start: nat)
    requires start < |path| && Walk(g, path) && AllDistinct(path) && Edge(g, path[|path| - 1], path[start])
    ensures var cycle := path[start..] + [path[start]];
      IsSimpleCycle(g, cycle) && cycle[0] == path[start] && cycle == Close(path[start..]) && cycle[..|cycle| - 1] == path[start..] &&
      OnCycle(cycle, path[|path| - 1], path[start])
  {
    hide Edge;
    var cycle := path[start..] + [path[start]];
    forall i | 0 <= i < |cycle| - 1
      ensures Edge(g, cycle[i], cycle[i + 1])
    {
      if i + 1 < |cycle| - 1 { assert Edge(g, path[start + i], path[start + i + 1]); }
    }
    assert cycle[..|cycle| - 1] == path[start..];
    var last := |cycle| - 2;
    assert cycle[last] == path[|path| - 1] && cycle[last + 1] == path[start];
  }

  lemma CycleNodesIn(g: Graph, cycle: seq<string>)
    requires IsCycle(g, cycle)
    ensures forall i :: 0 <= i < |cycle| ==> cycle[i] in Nodes(g)
  {
    forall i | 0 <= i < |cycle|
      ensures cycle[i] in Nodes(g)
    {
      if i < |cycle| - 1 { assert Edge(g, cycle[i], cycle[i + 1]); } else { assert Edge(g, cycle[0], cycle[1]); }
    }
  }

  /** A cycle with the key of a reported one has that one's edges. */
  lemma SameKeyCovers(g: Graph, v: Violation, cycle: seq<string>, a: string, b: string)
    requires IsCycle(g, cycle) && IsCycle(g, v.cycle) && OnCycle(cycle, a, b)
    requires CanonicalCycle(cycle) == CanonicalCycle(v.cycle)
    ensures Covers(g, v, a, b)
  {
    hide CanonicalCycle, Nodes, OnCycle, BarFree;
    var x, y := cycle[..|cycle| - 1], v.cycle[..|v.cycle| - 1];
    assert cycle == Close(x) && v.cycle == Close(y);
    if NamesBarFree(g) {
      CycleNodesIn(g, cycle);
      CycleNodesIn(g, v.cycle);
      hide IsCycle, Close;
      SameKeyIsRotation(x, y);
      RotationKeepsEdges(x, y, a, b);
    }
  }

  /** How many nodes the search has not entered yet. */
  ghost function Left(g: Graph, state: map<string, Color>): nat
  {
    |Nodes(g) - state.Keys|
  }

  lemma FewerLeft(g: Graph, state: map<string, Color>, node: string)
    requires node !in state && node in Nodes(g)
    ensures Left(g, state[node := Visiting]) < Left(g, state)
  {
    hide Nodes;
    assert Nodes(g) - state.Keys == Nodes(g) - state[node := Visiting].Keys + {node};
  }

  lemma SmallerSet(a: set<string>, b: set<string>)
    requires a <= b
    ensures |a| <= |b|
  {
    assert b == a + (b - a);
  }

  // ---------------------------------------------------------------- the search

  ghost predicate SearchOk(g: Graph, state: map<string, Color>, path: seq<string>, emitted: set<string>,
                           violations: seq<Violation>, finished: seq<string>)
  {
    Colored(g, state, path, finished) && AllDistinct(path) && Walk(g, path) &&
    Reported(g, emitted, violations) && FinishedOk(g, finished, violations)
  }

  lemma ColorsMean(g: Graph, state: map<string, Color>, path: seq<string>, emitted: set<string>,
                   violations: seq<Violation>, finished: seq<string>, node: string)
    requires SearchOk(g, state, path, emitted, violations, finished)
    ensures node in state && state[node] == Visiting <==> node in path
    ensures node in state && state[node] == Visited <==> node in finished
  {
    hide AllDistinct, Walk, Reported, FinishedOk, Nodes;
  }

  class Search {
    const graph: Graph
    var state: map<string, Color>
    var path: seq<string>
    var emitted: set<string>
    var violations: seq<Violation>
    ghost var finished: seq<string>

    ghost predicate Valid()
      reads this
    {
      SearchOk(graph, state, path, emitted, violations, finished)
    }

    constructor (graph: Graph)
      ensures Valid() && this.graph == graph && path == [] && finished == [] && violations == []
    {
      this.graph := graph;
      state, path, emitted, violations, finished := map[], [], {}, [], [];
    }

    /** The back edge from the end of the path to `node`. */
    method Report(node: string)
      requires Valid() && node in path && path != [] && Edge(graph, path[|path| - 1], node)
      modifies this`emitted, this`violations
      ensures Valid() && Later(finished, finished, old(violations), violations, state.Keys, state.Keys)
      ensures Covered(graph, violations, path[|path| - 1], node)
    {
      hide Covers, CanonicalCycle, IsSimpleCycle, AllDistinct, Walk, Colored, Edge;
      var start := IndexOf(path, node);
      var cycle := path[start..] + [node];
      BackEdgeCycle(graph, path, start);
      var key := CanonicalCycle(cycle);
      var v := Violation(cycle, node);
      if key !in emitted {
        Push(graph, emitted, violations, v);
        MoreViolations(graph, finished, violations, violations + [v]);
        emitted, violations := emitted + {key}, violations + [v];
        assert Covers(graph, violations[|violations| - 1], path[|path| - 1], node) by { NewCovers(graph, v, path[|path| - 1], node); }
      } else {
        var i :| 0 <= i < |violations| && CanonicalCycle(violations[i].cycle) == key;
        SimpleIsCycle(graph, cycle);
        SimpleIsCycle(graph, violations[i].cycle);
        SameKeyCovers(graph, violations[i], cycle, path[|path| - 1], node);
      }
    }

    method Visit(node: string)
      requires Valid() && node in Nodes(graph) && (path != [] ==> Edge(graph, path[|path| - 1], node))
      modifies this
      ensures Valid() && path == old(path) && Later(old(finished), finished, old(violations), violations, old(state).Keys, state.Keys)
      ensures if path == [] then node in finished else Settled(graph, finished, violations, path[|path| - 1], node)
      decreases Left(graph, state), 1
    {
      hide Nodes, SearchOk, Edge, Covered, Later, Left;
      LaterSelf(finished, violations, state.Keys);
      ColorsMean(graph, state, path, emitted, violations, finished, node);
      if node in state && state[node] == Visited { return; }
      if node in state && state[node] == Visiting {
        Report(node);
        return;
      }
      FewerLeft(graph, state, node);
      Enter(node);
      ghost var entered := state.Keys;
      assert entered == old(state).Keys + {node};
      VisitAll(node);
      ghost var f, seen := finished, state.Keys;
      Leave(node);
      LaterAround(old(finished), f, old(violations), violations, old(state).Keys, entered, seen, node);
      assert state.Keys == seen + {node};
    }

    method Enter(node: string)
      requires Valid() && node in Nodes(graph) && node !in state && (path != [] ==> Edge(graph, path[|path| - 1], node))
      modifies this`state, this`path
      ensures Valid() && state == old(state)[node := Visiting] && path == old(path) + [node]
    {
      hide Covers, CanonicalCycle, Reported, FinishedOk, Nodes, Edge;
      state := state[node := Visiting];
      path := path + [node];
      assert forall i :: 0 <= i < |path| - 1 ==> path[i] == old(path)[i];
    }

    /** The loop over the dependencies of `node`. */
    method VisitAll(node: string)
      requires Valid() && path != [] && path[|path| - 1] == node
      modifies this
      ensures Valid() && path == old(path) && Later(old(finished), finished, old(violations), violations, old(state).Keys, state.Keys)
      ensures forall b :: Edge(graph, node, b) ==> Settled(graph, finished, violations, node, b)
      decreases Left(graph, state), 2
    {
      hide SearchOk, Settled, Edge, Nodes, Later, Left, Dependencies;
      LaterSelf(finished, violations, state.Keys);
      var dependencies := Dependencies(graph, node);
      var i := 0;
      while i < |dependencies|
        invariant 0 <= i <= |dependencies| && Valid() && path == old(path)
        invariant Later(old(finished), finished, old(violations), violations, old(state).Keys, state.Keys)
        invariant forall j :: 0 <= j < i ==> Settled(graph, finished, violations, node, dependencies[j])
      {
        ghost var f, v, seen := finished, violations, state.Keys;
        DependencyIsEdge(graph, node, i);
        NotMore(graph, old(finished), f, old(violations), v, old(state), state);
        Visit(dependencies[i]);
        LaterStill(old(finished), f, finished, old(violations), v, violations, old(state).Keys, seen, state.Keys);
        forall j | 0 <= j < i
          ensures Settled(graph, finished, violations, node, dependencies[j])
        {
          SettledOnceLater(graph, f, finished, v, violations, seen, state.Keys, node, dependencies[j]);
        }
        i := i + 1;
      }
      EdgesAreDependencies(graph, node);
    }

    method Leave(node: string)
      requires Valid() && path != [] && path[|path| - 1] == node
      requires forall b :: Edge(graph, node, b) ==> Settled(graph, finished, violations, node, b)
      modifies this`path, this`state, this`finished
      ensures Valid() && path == old(path)[..|old(path)| - 1] && state == old(state)[node := Visited] && finished == old(finished) + [node]
    {
      hide Covers, CanonicalCycle, Reported, FinishedOk, Nodes, Edge, Settled;
      Finish(graph, finished, violations, node);
      path := path[..|path| - 1];
      state := state[node := Visited];
      finished := finished + [node];
      assert old(path) == path + [node];
    }
  }

  lemma DependencyIsEdge(g: Graph, node: string, i: nat)
    requires i < |Dependencies(g, node)|
    ensures Edge(g, node, Dependencies(g, node)[i]) && Dependencies(g, node)[i] in Nodes(g)
  {
  }

  lemma EdgesAreDependencies(g: Graph, node: string)
    ensures forall b :: Edge(g, node, b) ==> exists i :: 0 <= i < |Dependencies(g, node)| && Dependencies(g, node)[i] == b
  {
    forall b | Edge(g, node, b)
      ensures exists i :: 0 <= i < |Dependencies(g, node)| && Dependencies(g, node)[i] == b
    {
      var i :| 0 <= i < |g[node]| && g[node][i] == b;
      assert Dependencies(g, node)[i] == b;
    }
  }

  lemma NotMore(g: Graph, f: seq<string>, f': seq<string>, v: seq<Violation>, v': seq<Violation>,
                state: map<string, Color>, state': map<string, Color>)
    requires Later(f, f', v, v', state.Keys, state'.Keys)
    ensures Left(g, state') <= Left(g, state)
  {
    hide Nodes;
    SmallerSet(Nodes(g) - state'.Keys, Nodes(g) - state.Keys);
  }

  lemma SimpleIsCycle(g: Graph, cycle: seq<string>)
    requires IsSimpleCycle(g, cycle)
    ensures IsCycle(g, cycle)
  {
  }

  lemma NewCovers(g: Graph, v: Violation, a: string, b: string)
    requires OnCycle(v.cycle, a, b)
    ensures Covers(g, v, a, b)
  {
  }

  lemma Push(g: Graph, emitted: set<string>, violations: seq<Violation>, v: Violation)
    requires Reported(g, emitted, violations) && CanonicalCycle(v.cycle) !in emitted
    requires IsSimpleCycle(g, v.cycle) && v.packageName == v.cycle[0]
    ensures Reported(g, emitted + {CanonicalCycle(v.cycle)}, violations + [v])
  {
    hide CanonicalCycle, IsSimpleCycle;
    var after := violations + [v];
    var keys := emitted + {CanonicalCycle(v.cycle)};
    assert after[|violations|] == v;
    forall k | k in keys
      ensures exists i :: 0 <= i < |after| && CanonicalCycle(after[i].cycle) == k
    {
      if k in emitted {
        var i :| 0 <= i < |violations| && CanonicalCycle(violations[i].cycle) == k;
        assert after[i] == violations[i];
      }
    }
  }

  /** `path.indexOf(node)` for a node on the path. */
  method IndexOf(path: seq<string>, node: string) returns (i: nat)
    requires node in path
    ensures i < |path| && path[i] == node && node !in path[..i]
  {
    i := 0;
    while path[i] != node
      invariant i < |path| && node !in path[..i] && node in path[i..]
      decreases |path| - i
    {
      i := i + 1;
    }
  }

  /** `checkCycles`, on the keys of the graph in their order. */
  method CheckCycles(graph: Graph, keys: seq<string>) returns (violations: seq<Violation>)
    requires forall k :: k in keys <==> k in graph
    ensures violations != [] <==> exists c :: IsCycle(graph, c)
    ensures forall i :: 0 <= i < |violations| ==> IsSimpleCycle(graph, violations[i].cycle) && violations[i].packageName == violations[i].cycle[0]
    ensures forall i, j :: 0 <= i < j < |violations| ==> !IsRotation(CycleNodes(violations[i]), CycleNodes(violations[j]))
    ensures forall i, j :: 0 <= i < j < |violations| ==> CanonicalCycle(violations[i].cycle) != CanonicalCycle(violations[j].cycle)
    ensures NamesBarFree(graph) ==> forall c :: IsCycle(graph, c) ==> MeetsReported(c, violations)
  {
    hide IsCycle, IsSimpleCycle, CanonicalCycle, AllDistinct, Covers, NamesBarFree;
    var search := new Search(graph);
    var i := 0;
    while i < |keys|
      invariant 0 <= i <= |keys| && search.Valid() && fresh(search) && search.graph == graph && search.path == []
      invariant forall j :: 0 <= j < i ==> keys[j] in search.finished
    {
      assert keys[i] in graph;
      search.Visit(keys[i]);
      i := i + 1;
    }
    violations := search.violations;
    hide Colored, Walk;
    Verdict(graph, search.finished, search.emitted, violations);
  }

  /** `c` shares an edge with a reported cycle. */
  ghost predicate MeetsReported(c: seq<string>, violations: seq<Violation>)
  {
    exists v, i :: v in violations && 0 <= i < |c| - 1 && OnCycle(v.cycle, c[i], c[i + 1])
  }

  ghost predicate CoversEdgeOf(g: Graph, violations: seq<Violation>, c: seq<string>, i: nat)
    requires i + 1 < |c|
  {
    Covered(g, violations, c[i], c[i + 1])
  }

  /** As long as no edge of a walk is covered, each step goes to a node that finished earlier. */
  lemma {:induction false} WalksBack(g: Graph, finished: seq<string>, violations: seq<Violation>, walk: seq<string>, at: nat) returns (end: nat)
    requires FinishedOk(g, finished, violations) && Walk(g, walk) && walk != [] && at < |finished| && finished[at] == walk[0]
    requires forall i: nat :: i + 1 < |walk| ==> !CoversEdgeOf(g, violations, walk, i)
    ensures end < |finished| && finished[end] == walk[|walk| - 1] && end + |walk| - 1 <= at
    decreases |walk|
  {
    hide Edge, Covered;
    if |walk| == 1 {
      end := at;
    } else {
      assert Edge(g, walk[0], walk[1]);
      assert !CoversEdgeOf(g, violations, walk, 0);
      assert Settled(g, finished[..at], violations, finished[at], walk[1]);
      var next :| 0 <= next < at && finished[next] == walk[1];
      var rest := walk[1..];
      WalkTail(g, violations, walk);
      end := WalksBack(g, finished, violations, rest, next);
    }
  }

  lemma WalkTail(g: Graph, violations: seq<Violation>, walk: seq<string>)
    requires Walk(g, walk) && |walk| > 1 && forall i: nat :: i + 1 < |walk| ==> !CoversEdgeOf(g, violations, walk, i)
    ensures Walk(g, walk[1..]) && forall i: nat :: i + 1 < |walk[1..]| ==> !CoversEdgeOf(g, violations, walk[1..], i)
  {
    hide Edge, Covered;
    var rest := walk[1..];
    forall i | 0 <= i < |rest| - 1
      ensures Edge(g, rest[i], rest[i + 1])
    {
      assert Edge(g, walk[i + 1], walk[i + 1 + 1]);
    }
    forall i: nat | i + 1 < |rest|
      ensures !CoversEdgeOf(g, violations, rest, i)
    {
      assert !CoversEdgeOf(g, violations, walk, i + 1);
    }
  }

  /** Once every node with dependencies is finished, each cycle has a covered edge. */
  lemma EveryCycleCovered(g: Graph, finished: seq<string>, violations: seq<Violation>, c: seq<string>) returns (i: nat)
    requires FinishedOk(g, finished, violations) && (forall k :: k in g ==> k in finished) && IsCycle(g, c)
    ensures i + 1 < |c| && Covered(g, violations, c[i], c[i + 1])
  {
    hide Covered, FinishedOk;
    if j: nat :| j + 1 < |c| && CoversEdgeOf(g, violations, c, j) {
      i := j;
    } else {
      assert Edge(g, c[0], c[1]);
      var at :| 0 <= at < |finished| && finished[at] == c[0];
      i := NoWayBack(g, finished, violations, c, at);
    }
  }

  /** Finish positions cannot fall all the way round a cycle. */
  lemma NoWayBack(g: Graph, finished: seq<string>, violations: seq<Violation>, c: seq<string>, at: nat) returns (i: nat)
    requires FinishedOk(g, finished, violations) && IsCycle(g, c) && at < |finished| && finished[at] == c[0]
    ensures i + 1 < |c| && Covered(g, violations, c[i], c[i + 1])
    decreases at
  {
    hide Covered, FinishedOk;
    if j: nat :| j + 1 < |c| && CoversEdgeOf(g, violations, c, j) {
      i := j;
    } else {
      var end := WalksBack(g, finished, violations, c, at);
      i := NoWayBack(g, finished, violations, c, end);
    }
  }

  lemma Verdict(g: Graph, finished: seq<string>, emitted: set<string>, violations: seq<Violation>)
    requires FinishedOk(g, finished, violations) && Reported(g, emitted, violations) && forall k :: k in g ==> k in finished
    ensures violations != [] <==> exists c :: IsCycle(g, c)
    ensures forall i :: 0 <= i < |violations| ==> IsSimpleCycle(g, violations[i].cycle) && violations[i].packageName == violations[i].cycle[0]
    ensures forall i, j :: 0 <= i < j < |violations| ==> !IsRotation(CycleNodes(violations[i]), CycleNodes(violations[j]))
    ensures NamesBarFree(g) ==> forall c :: IsCycle(g, c) ==> MeetsReported(c, violations)
  {
    hide FinishedOk, CanonicalCycle, NamesBarFree, IsRotation, OnCycle;
    if violations != [] {
      SimpleIsCycle(g, violations[0].cycle);
      assert IsCycle(g, violations[0].cycle);
    }
    forall c | IsCycle(g, c)
      ensures violations != [] && (NamesBarFree(g) ==> MeetsReported(c, violations))
    {
      var i := EveryCycleCovered(g, finished, violations, c);
      var j :| 0 <= j < |violations| && Covers(g, violations[j], c[i], c[i + 1]);
      assert violations[j] in violations;
    }
    forall i, j | 0 <= i < j < |violations|
      ensures !IsRotation(CycleNodes(violations[i]), CycleNodes(violations[j]))
    {
      NotRotated(g, violations[i], violations[j]);
    }
  }

  lemma NotRotated(g: Graph, v: Violation, u: Violation)
    requires IsSimpleCycle(g, v.cycle) && IsSimpleCycle(g, u.cycle) && CanonicalCycle(v.cycle) != CanonicalCycle(u.cycle)
    ensures !IsRotation(CycleNodes(v), CycleNodes(u))
  {
    hide CanonicalCycle, IsRotation;
    assert v.cycle == Close(CycleNodes(v)) && u.cycle == Close(CycleNodes(u));
    if IsRotation(CycleNodes(v), CycleNodes(u)) { RotationsShareKey(CycleNodes(v), CycleNodes(u)); }
  }

  // ---------------------------------------------------------------- a graph with an unreported cycle

  /** A package that depends on itself, and two that depend on each other; their cycles share a key. */
  const BarGraph: Graph := map["a|b" := ["a|b"], "a" := ["b"], "b" := ["a"]]

  lemma BarEdges(x: string, y: string)
    ensures Edge(BarGraph, x, y) <==> (x == "a|b" && y == "a|b") || (x == "a" && y == "b") || (x == "b" && y == "a")
  {
    assert y in ["a|b"] <==> y == "a|b";
    assert y in ["b"] <==> y == "b";
    assert y in ["a"] <==> y == "a";
  }

  lemma BarNames()
    ensures "a|b" != "a" && "a|b" != "b" && "a" != "b"
  {
    assert |"a|b"| == 3 && |"a"| == 1 && "a"[0] != "b"[0];
  }

  /** The simple cycles of the graph. */
  lemma BarCycles(cycle: seq<string>)
    requires IsSimpleCycle(BarGraph, cycle)
    ensures cycle == Close(["a|b"]) || cycle == Close(["a", "b"]) || cycle == Close(["b", "a"])
  {
    hide Edge;
    BarNames();
    var nodes := cycle[..|cycle| - 1];
    assert Edge(BarGraph, cycle[0], cycle[1]);
    BarEdges(cycle[0], cycle[1]);
    if |nodes| >= 2 {
      assert nodes[0] == cycle[0] && nodes[1] == cycle[1] && nodes[0] != nodes[1];
      assert |nodes| >= 3 ==> nodes[2] == cycle[2] && nodes[0] != nodes[2];
      assert Edge(BarGraph, cycle[1], cycle[2]);
      BarEdges(cycle[1], cycle[2]);
      assert cycle[2] == cycle[0];
      assert cycle == [cycle[0], cycle[1], cycle[2]];
    } else {
      assert cycle == [cycle[0], cycle[1]];
    }
  }

  lemma BarKeys(cycle: seq<string>)
    requires IsSimpleCycle(BarGraph, cycle)
    ensures CanonicalCycle(cycle) == CanonicalCycle(Close(["a", "b"]))
  {
    hide CanonicalCycle, IsSimpleCycle, Close;
    BarCycles(cycle);
    BarNamesCollide();
    assert Rotate(["a", "b"], 1) == ["b", "a"];
    RotationsShareKey(["a", "b"], ["b", "a"]);
  }

  lemma BothAreCycles()
    ensures IsCycle(BarGraph, ["a|b", "a|b"]) && IsCycle(BarGraph, ["a", "b", "a"])
  {
    BarEdges("a|b", "a|b");
    BarEdges("a", "b");
    BarEdges("b", "a");
    hide Edge;
    var x, y := ["a|b", "a|b"], ["a", "b", "a"];
    assert Walk(BarGraph, x);
    assert forall i :: 0 <= i < 2 ==> (y[i] == "a" && y[i + 1] == "b") || (y[i] == "b" && y[i + 1] == "a");
    assert Walk(BarGraph, y);
  }

  lemma NoSharedEdge(cycle: seq<string>)
    requires IsSimpleCycle(BarGraph, cycle)
    ensures cycle == ["a|b", "a|b"] ==> !OnCycle(cycle, "a", "b") && !OnCycle(cycle, "b", "a")
    ensures cycle != ["a|b", "a|b"] ==> !OnCycle(cycle, "a|b", "a|b")
  {
    BarNames();
    BarCycles(cycle);
    hide IsSimpleCycle;
  }

  /** On this graph one of the two cycles goes unreported: no reported cycle has an edge of it. */
  method CheckBarGraph() returns (violations: seq<Violation>, missed: seq<string>)
    ensures IsCycle(BarGraph, missed) && !MeetsReported(missed, violations) && |violations| == 1
  {
    hide IsSimpleCycle, IsCycle, CanonicalCycle, OnCycle, NamesBarFree, Edge;
    violations := CheckCycles(BarGraph, ["a|b", "a", "b"]);
    BothAreCycles();
    assert violations != [];
    BarKeys(violations[0].cycle);
    if |violations| > 1 { BarKeys(violations[1].cycle); }
    NoSharedEdge(violations[0].cycle);
    missed := if violations[0].cycle == ["a|b", "a|b"] then ["a", "b", "a"] else ["a|b", "a|b"];
    assert forall v :: v in violations ==> v == violations[0];
    OnlyTwoEdges(missed);
  }

  lemma OnlyTwoEdges(missed: seq<string>)
    requires missed == ["a", "b", "a"] || missed == ["a|b", "a|b"]
    ensures forall i :: 0 <= i < |missed| - 1 ==>
      if missed == ["a|b", "a|b"] then missed[i] == "a|b" && missed[i + 1] == "a|b"
      else (missed[i] == "a" && missed[i + 1] == "b") || (missed[i] == "b" && missed[i + 1] == "a")
  {
    BarNames();
    if missed == ["a|b", "a|b"] { assert missed[0] == "a|b" && missed[1] == "a|b"; }
  }
}
