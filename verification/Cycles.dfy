/** Cycles of a dependency graph, and the canonical key that rotations of one cycle share. */
module Cycles {
  import opened Texts

  /** The dependencies of each package, in iteration order. */
  type Graph = map<string, seq<string>>

  predicate Edge(g: Graph, a: string, b: string)
  {
    a in g && b in g[a]
  }

  /** Every step of `walk` follows an edge. */
  ghost predicate Walk(g: Graph, walk: seq<string>)
  {
    forall i :: 0 <= i < |walk| - 1 ==> Edge(g, walk[i], walk[i + 1])
  }

  ghost predicate IsCycle(g: Graph, cycle: seq<string>)
  {
    |cycle| >= 2 && cycle[0] == cycle[|cycle| - 1] && Walk(g, cycle)
  }

  predicate AllDistinct(xs: seq<string>)
  {
    forall i, j :: 0 <= i < j < |xs| ==> xs[i] != xs[j]
  }

  /** A cycle that meets no node twice. */
  ghost predicate IsSimpleCycle(g: Graph, cycle: seq<string>)
  {
    IsCycle(g, cycle) && AllDistinct(cycle[..|cycle| - 1])
  }

  /** The edge from `a` to `b` is on `cycle`. */
  ghost predicate OnCycle(cycle: seq<string>, a: string, b: string)
  {
    exists i :: 0 <= i < |cycle| - 1 && cycle[i] == a && cycle[i + 1] == b
  }

  // ---------------------------------------------------------------- rotations

  function Rotate(nodes: seq<string>, k: nat): (r: seq<string>)
    requires k <= |nodes|
    ensures |r| == |nodes|
  {
    nodes[k..] + nodes[..k]
  }

  ghost predicate IsRotation(a: seq<string>, b: seq<string>)
  {
    exists k: nat :: k <= |a| && Rotate(a, k) == b
  }

  lemma RotateTwice(nodes: seq<string>, i: nat, j: nat)
    requires i <= |nodes| && j <= |nodes|
    ensures Rotate(Rotate(nodes, i), j) == if i + j <= |nodes| then Rotate(nodes, i + j) else Rotate(nodes, i + j - |nodes|)
  {
  }

  lemma RotationBack(a: seq<string>, b: seq<string>)
    requires IsRotation(a, b)
    ensures IsRotation(b, a)
  {
    var k: nat :| k <= |a| && Rotate(a, k) == b;
    RotateTwice(a, k, |a| - k);
    assert Rotate(a, |a|) == a;
    assert Rotate(b, |a| - k) == a;
  }

  lemma RotationTransitive(a: seq<string>, b: seq<string>, c: seq<string>)
    requires IsRotation(a, b) && IsRotation(b, c)
    ensures IsRotation(a, c)
  {
    var i: nat :| i <= |a| && Rotate(a, i) == b;
    var j: nat :| j <= |b| && Rotate(b, j) == c;
    RotateTwice(a, i, j);
  }

  /** The closed list of a cycle's nodes. */
  function Close(nodes: seq<string>): seq<string>
    requires nodes != []
  {
    nodes + [nodes[0]]
  }

  /** Node `i + 1` of a closed list. */
  lemma CloseNext(nodes: seq<string>, i: nat)
    requires i < |nodes|
    ensures Close(nodes)[i] == nodes[i]
    ensures Close(nodes)[i + 1] == if i + 1 < |nodes| then nodes[i + 1] else nodes[0]
  {
  }

  /** Rotating a cycle keeps its edges. */
  lemma RotationKeepsEdges(a: seq<string>, b: seq<string>, x: string, y: string)
    requires a != [] && IsRotation(a, b) && OnCycle(Close(a), x, y)
    ensures b != [] && OnCycle(Close(b), x, y)
  {
    hide Close;
    var k: nat :| k <= |a| && Rotate(a, k) == b;
    CloseLength(a);
    CloseLength(b);
    var i :| 0 <= i < |Close(a)| - 1 && Close(a)[i] == x && Close(a)[i + 1] == y;
    CloseNext(a, i);
    var j := if i >= k then i - k else i + |a| - k;
    CloseNext(b, j);
    assert b[j] == a[i];
    assert Close(b)[j] == x && Close(b)[j + 1] == y;
  }

  lemma CloseLength(nodes: seq<string>)
    requires nodes != []
    ensures |Close(nodes)| == |nodes| + 1
  {
  }

  // ---------------------------------------------------------------- the canonical key

  /** `names.join("|")` */
  function Join(names: seq<string>): string
  {
    if names == [] then "" else if |names| == 1 then names[0] else names[0] + ("|" + Join(names[1..]))
  }

  function RotationTexts(nodes: seq<string>, from: nat): (texts: seq<string>)
    requires from <= |nodes|
    ensures |texts| == |nodes| - from
    ensures forall i :: 0 <= i < |texts| ==> texts[i] == Join(Rotate(nodes, from + i))
    decreases |nodes| - from
  {
    if from == |nodes| then [] else [Join(Rotate(nodes, from))] + RotationTexts(nodes, from + 1)
  }

  /** `canonicalCycle` */
  function CanonicalCycle(cycle: seq<string>): string
  {
    if |cycle| <= 1 then ""
    else
      var sorted := Sort(RotationTexts(cycle[..|cycle| - 1], 0));
      if sorted == [] then "" else sorted[0]
  }

  /** The key is the least text among the rotations. */
  lemma KeyIsLeast(nodes: seq<string>)
    requires nodes != []
    ensures exists k: nat :: k < |nodes| && CanonicalCycle(Close(nodes)) == Join(Rotate(nodes, k))
    ensures forall k: nat :: k < |nodes| ==> AtMost(CanonicalCycle(Close(nodes)), Join(Rotate(nodes, k)))
  {
    hide Join, Sort;
    assert Close(nodes)[..|Close(nodes)| - 1] == nodes;
    var texts := RotationTexts(nodes, 0);
    SortSorts(texts);
    var sorted := Sort(texts);
    assert |multiset(sorted)| == |multiset(texts)| && |multiset(sorted)| == |sorted|;
    var key := sorted[0];
    assert key in multiset(sorted);
    assert key in texts;
    var k :| 0 <= k < |texts| && texts[k] == key;
    assert key == Join(Rotate(nodes, k));
    forall j: nat | j < |nodes|
      ensures AtMost(key, Join(Rotate(nodes, j)))
    {
      assert texts[j] in multiset(texts);
      assert texts[j] in sorted;
      var i :| 0 <= i < |sorted| && sorted[i] == texts[j];
    }
  }

  /** Rotations of one cycle have one key. */
  lemma RotationsShareKey(a: seq<string>, b: seq<string>)
    requires a != [] && IsRotation(a, b)
    ensures b != [] && CanonicalCycle(Close(a)) == CanonicalCycle(Close(b))
  {
    hide Join, CanonicalCycle;
    KeyIsLeast(a);
    KeyIsLeast(b);
    RotationBack(a, b);
    KeyBelow(a, b);
    KeyBelow(b, a);
    LessTotal(CanonicalCycle(Close(a)), CanonicalCycle(Close(b)));
  }

  lemma KeyBelow(a: seq<string>, b: seq<string>)
    requires a != [] && IsRotation(a, b) && b != []
    requires exists k: nat :: k < |b| && CanonicalCycle(Close(b)) == Join(Rotate(b, k))
    requires forall k: nat :: k < |a| ==> AtMost(CanonicalCycle(Close(a)), Join(Rotate(a, k)))
    ensures AtMost(CanonicalCycle(Close(a)), CanonicalCycle(Close(b)))
  {
    hide Join, CanonicalCycle, Close, AtMost;
    var k: nat :| k < |b| && CanonicalCycle(Close(b)) == Join(Rotate(b, k));
    assert IsRotation(b, Rotate(b, k));
    RotationTransitive(a, b, Rotate(b, k));
    var j: nat :| j <= |a| && Rotate(a, j) == Rotate(b, k);
    assert Rotate(a, |a|) == a == Rotate(a, 0);
    assert j < |a| || Rotate(a, j) == Rotate(a, 0);
  }

  // ---------------------------------------------------------------- without "|" in a name, one key is one cycle

  predicate BarFree(s: string)
  {
    forall i :: 0 <= i < |s| ==> s[i] != '|'
  }

  predicate AllBarFree(names: seq<string>)
  {
    forall i :: 0 <= i < |names| ==> BarFree(names[i])
  }

  predicate Stops(s: string)
  {
    s == "" || s[0] == '|'
  }

  lemma BarSplit(x: string, y: string, s: string, t: string)
    requires BarFree(x) && BarFree(y) && Stops(s) && Stops(t)
    ensures x + s == y + t ==> x == y && s == t
  {
    var l, r := x + s, y + t;
    if |x| < |y| {
      assert r[|x|] == y[|x|];
      if s != "" { assert l[|x|] == s[0]; }
    }
    if |y| < |x| {
      assert l[|y|] == x[|y|];
      if t != "" { assert r[|y|] == t[0]; }
    }
    assert l[..|x|] == x && r[..|y|] == y && l[|x|..] == s && r[|y|..] == t;
  }

  lemma {:induction false} JoinInjective(a: seq<string>, b: seq<string>)
    requires AllBarFree(a) && AllBarFree(b) && a != [] && b != [] && Join(a) == Join(b)
    ensures a == b
    decreases |a|
  {
    var s, t := if |a| == 1 then "" else "|" + Join(a[1..]), if |b| == 1 then "" else "|" + Join(b[1..]);
    assert Join(a) == a[0] + s && Join(b) == b[0] + t;
    BarSplit(a[0], b[0], s, t);
    assert a == [a[0]] + a[1..] && b == [b[0]] + b[1..];
    if |a| > 1 && |b| > 1 {
      assert s[1..] == Join(a[1..]) && t[1..] == Join(b[1..]);
      JoinInjective(a[1..], b[1..]);
    }
  }

  lemma SameKeyIsRotation(a: seq<string>, b: seq<string>)
    requires a != [] && b != [] && AllBarFree(a) && AllBarFree(b)
    ensures CanonicalCycle(Close(a)) == CanonicalCycle(Close(b)) <==> IsRotation(a, b)
  {
    hide Join, CanonicalCycle, Close, BarFree;
    if IsRotation(a, b) { RotationsShareKey(a, b); }
    if CanonicalCycle(Close(a)) == CanonicalCycle(Close(b)) {
      KeyIsLeast(a);
      KeyIsLeast(b);
      var i: nat :| i < |a| && CanonicalCycle(Close(a)) == Join(Rotate(a, i));
      var j: nat :| j < |b| && CanonicalCycle(Close(b)) == Join(Rotate(b, j));
      JoinInjective(Rotate(a, i), Rotate(b, j));
      assert IsRotation(a, Rotate(a, i)) && IsRotation(b, Rotate(b, j));
      RotationBack(b, Rotate(b, j));
      RotationTransitive(a, Rotate(a, i), b);
    }
  }

  /** With a "|" in a name two different cycles can share a key, and only the first is reported. */
  lemma BarNamesCollide()
    ensures CanonicalCycle(Close(["a|b"])) == CanonicalCycle(Close(["a", "b"])) && !IsRotation(["a|b"], ["a", "b"])
  {
    var x, y := ["a|b"], ["a", "b"];
    KeyIsLeast(x);
    KeyIsLeast(y);
    hide CanonicalCycle, Close;
    assert Rotate(x, 0) == x && Rotate(y, 0) == y && Rotate(y, 1) == ["b", "a"];
    assert ["a", "b"][1..] == ["b"] && ["b", "a"][1..] == ["a"];
    assert Join(x) == "a|b" && Join(y) == "a|b" && Join(["b", "a"]) == "b|a";
    assert Less("a|b", "b|a");
    LessTotal("a|b", "b|a");
    var k: nat :| k < 2 && CanonicalCycle(Close(y)) == Join(Rotate(y, k));
    assert AtMost(CanonicalCycle(Close(y)), Join(Rotate(y, 0)));
  }
}
