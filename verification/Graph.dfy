/** The graph a catalog's `dependsOn` lists draw between services. */
module Graph {
  import opened Sequences

  /** A service with no entry, like a service the catalog does not know, has no outgoing edge. */
  type Graph = map<string, seq<string>>

  function Out(g: Graph, s: string): seq<string> {
    if s in g then g[s] else []
  }

  predicate Edge(g: Graph, s: string, d: string) {
    d in Out(g, s)
  }

  ghost predicate Walk(g: Graph, p: seq<string>) {
    forall i :: 0 <= i < |p| - 1 ==> Edge(g, p[i], p[i + 1])
  }

  ghost predicate Cycle(g: Graph, p: seq<string>) {
    |p| >= 2 && p[0] == p[|p| - 1] && Walk(g, p)
  }

  ghost predicate HasCycle(g: Graph) {
    exists p :: Cycle(g, p)
  }

  function Keep(s: seq<string>, among: set<string>): seq<string> {
    if s == [] then [] else (if s[0] in among then [s[0]] else []) + Keep(s[1..], among)
  }

  lemma {:induction false} KeepMembers(s: seq<string>, among: set<string>)
    ensures forall x :: x in Keep(s, among) <==> x in s && x in among
  {
    if s != [] {
      KeepMembers(s[1..], among);
      assert s == [s[0]] + s[1..];
    }
  }

  /** The graph that is left when only the services in `among` are kept. */
  function Induced(g: Graph, among: set<string>): Graph {
    map s | s in g && s in among :: Keep(g[s], among)
  }

  lemma InducedEdge(g: Graph, among: set<string>, s: string, d: string)
    ensures Edge(Induced(g, among), s, d) <==> Edge(g, s, d) && s in among && d in among
  {
    if s in g {
      KeepMembers(g[s], among);
    }
  }

  lemma {:induction false} InducedWalk(g: Graph, among: set<string>, p: seq<string>)
    requires Walk(Induced(g, among), p) && |p| >= 2
    ensures Walk(g, p) && forall k :: 0 <= k < |p| ==> p[k] in among
  {
    InducedEdge(g, among, p[0], p[1]);
    if |p| > 2 {
      InducedWalk(g, among, p[1..]);
      assert forall k :: 1 <= k < |p| ==> p[k] == p[1..][k - 1];
    }
  }

  /** Dropping services never creates a cycle. */
  lemma InducedCycle(g: Graph, among: set<string>)
    requires HasCycle(Induced(g, among))
    ensures HasCycle(g)
  {
    var p :| Cycle(Induced(g, among), p);
    InducedWalk(g, among, p);
    assert Cycle(g, p);
  }

  /** A walk with more stops than there are services passes through one of them twice. */
  lemma LongWalkHasCycle(g: Graph, p: seq<string>, nodes: set<string>)
    requires Walk(g, p) && |p| > |nodes|
    requires forall k :: 0 <= k < |p| ==> p[k] in nodes
    ensures HasCycle(g)
  {
    var i, j := Pigeonhole(p, nodes);
    assert Cycle(g, p[i..j + 1]);
  }

  /** Every service of `order` has all its dependencies strictly before it. */
  ghost predicate DependenciesFirst(g: Graph, order: seq<string>) {
    forall i, d :: 0 <= i < |order| && Edge(g, order[i], d) ==> d in order[..i]
  }

  lemma {:induction false} WalkDescends(g: Graph, order: seq<string>, i: nat, p: seq<string>)
    requires DependenciesFirst(g, order)
    requires |p| >= 2 && Walk(g, p) && i < |order| && order[i] == p[0]
    ensures p[|p| - 1] in order[..i]
    decreases |p|
  {
    assert Edge(g, p[0], p[1]);
    var j :| 0 <= j < i && order[j] == p[1];
    if |p| > 2 {
      assert Walk(g, p[1..]);
      WalkDescends(g, order, j, p[1..]);
    }
  }

  lemma {:induction false} OrderRefutesCycle(g: Graph, order: seq<string>, i: nat, p: seq<string>)
    requires DependenciesFirst(g, order) && Cycle(g, p)
    requires i < |order| && order[i] == p[0]
    ensures false
    decreases i
  {
    WalkDescends(g, order, i, p);
    var j :| 0 <= j < i && order[j] == p[0];
    OrderRefutesCycle(g, order, j, p);
  }

  lemma WalkBackClosesCycle(g: Graph, p: seq<string>, id: string)
    requires Walk(g, p) && id in p && Edge(g, p[|p| - 1], id)
    ensures HasCycle(g)
  {
    var k :| 0 <= k < |p| && p[k] == id;
    assert Cycle(g, p[k..] + [id]);
  }

  lemma DependenciesFirstSnoc(g: Graph, order: seq<string>, id: string)
    requires DependenciesFirst(g, order)
    requires forall d :: d in Out(g, id) ==> d in order
    ensures DependenciesFirst(g, order + [id])
  {
    var next := order + [id];
    forall i, d | 0 <= i < |next| && Edge(g, next[i], d)
      ensures d in next[..i]
    {
      assert next[..i] == order[..i];
    }
  }
}
