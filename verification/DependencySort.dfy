/** The order in which a plan starts its units (scripts/plan.mjs, topologicallySortByDependency). */
module DependencySort {
  import opened Sequences
  import opened Graph
  import opened PlanTypes
  import opened Catalog
  import opened CatalogCheck

  function ServicesOf(entries: seq<Entry>): set<string> {
    set e | e in entries :: e.service
  }

  /** Entry `i` may come next once the entries at `done` have been placed: every entry of every
      service its own service depends on has been placed. */
  ghost predicate Ready(g: Graph, entries: seq<Entry>, done: seq<nat>, i: nat)
    requires i < |entries|
  {
    forall j :: 0 <= j < |entries| && Edge(g, entries[i].service, entries[j].service) ==> j in done
  }

  ghost predicate InRange(order: seq<nat>, n: nat) {
    forall k :: 0 <= k < |order| ==> order[k] < n
  }

  ghost predicate Permutation(order: seq<nat>, n: nat) {
    |order| == n && InRange(order, n) && Distinct(order) && forall i :: 0 <= i < n ==> i in order
  }

  /** An order of all entries in which dependencies come first. */
  ghost predicate ValidOrder(g: Graph, entries: seq<Entry>, order: seq<nat>) {
    && Permutation(order, |entries|)
    && forall k :: 0 <= k < |order| ==> Ready(g, entries, order[..k], order[k])
  }

  /** Every choice took the earliest entry that was ready. */
  ghost predicate Greedy(g: Graph, entries: seq<Entry>, order: seq<nat>)
    requires InRange(order, |entries|)
  {
    forall k :: 0 <= k < |order| ==>
      && Ready(g, entries, order[..k], order[k])
      && forall i :: 0 <= i < order[k] ==> i in order[..k] || !Ready(g, entries, order[..k], i)
  }

  ghost predicate LexLess(p: seq<nat>, q: seq<nat>) {
    exists k :: 0 <= k < |p| && k < |q| && p[..k] == q[..k] && p[k] < q[k]
  }

  /** The order among the valid ones that puts the earliest possible entry at every place. */
  ghost predicate LeastValidOrder(g: Graph, entries: seq<Entry>, order: seq<nat>) {
    && ValidOrder(g, entries, order)
    && forall q :: ValidOrder(g, entries, q) ==> q == order || LexLess(order, q)
  }

  lemma FirstDifference(p: seq<nat>, q: seq<nat>) returns (k: nat)
    requires |p| == |q| && p != q
    ensures k < |p| && p[..k] == q[..k] && p[k] != q[k]
  {
    if p[0] != q[0] {
      k := 0;
    } else {
      assert p == [p[0]] + p[1..] && q == [q[0]] + q[1..];
      k := FirstDifference(p[1..], q[1..]);
      assert p[..k + 1] == [p[0]] + p[1..][..k] && q[..k + 1] == [q[0]] + q[1..][..k];
      k := k + 1;
    }
  }

  lemma GreedyIsLeast(g: Graph, entries: seq<Entry>, order: seq<nat>)
    requires Permutation(order, |entries|) && Greedy(g, entries, order)
    ensures LeastValidOrder(g, entries, order)
  {
    forall q | ValidOrder(g, entries, q) && q != order
      ensures LexLess(order, q)
    {
      var k := FirstDifference(order, q);
      assert Ready(g, entries, order[..k], q[k]);
      assert q[k] !in order[..k];
    }
  }

  /** Two units of one service are never swapped. */
  lemma SameServiceKeepsOrder(g: Graph, entries: seq<Entry>, order: seq<nat>, a: nat, b: nat)
    requires Permutation(order, |entries|) && Greedy(g, entries, order)
    requires a < b < |order| && entries[order[a]].service == entries[order[b]].service
    ensures order[a] < order[b]
  {
    assert Ready(g, entries, order[..a], order[a]);
    assert Ready(g, entries, order[..a], order[b]);
    assert order[b] !in order[..a];
  }

  /** In a valid order, whatever a walk from the service of the entry at place `a` reaches has
      all its entries before that place. */
  lemma {:induction false} WalkComesFirst(g: Graph, entries: seq<Entry>, order: seq<nat>, a: nat, p: seq<string>)
    requires ValidOrder(g, entries, order) && a < |order|
    requires |p| >= 2 && Walk(g, p) && p[0] == entries[order[a]].service
    requires forall k :: 0 <= k < |p| ==> p[k] in ServicesOf(entries)
    ensures forall j :: 0 <= j < |entries| && entries[j].service == p[|p| - 1] ==> j in order[..a]
    decreases |p|
  {
    assert Ready(g, entries, order[..a], order[a]);
    assert Edge(g, p[0], p[1]);
    if |p| > 2 {
      var e :| e in entries && e.service == p[1];
      var j :| 0 <= j < |entries| && entries[j] == e;
      assert j in order[..a];
      var b :| 0 <= b < a && order[b] == j;
      WalkComesFirst(g, entries, order, b, p[1..]);
      assert order[..b] <= order[..a];
    }
  }

  lemma CycleHasNoOrder(g: Graph, entries: seq<Entry>, order: seq<nat>)
    requires ValidOrder(g, entries, order)
    ensures !HasCycle(Induced(g, ServicesOf(entries)))
  {
    var present := ServicesOf(entries);
    if p :| Cycle(Induced(g, present), p) {
      InducedWalk(g, present, p);
      var e :| e in entries && e.service == p[0];
      var j :| 0 <= j < |entries| && entries[j] == e;
      assert j in order;
      var a :| 0 <= a < |order| && order[a] == j;
      WalkComesFirst(g, entries, order, a, p);
      assert false;
    }
  }

  ghost predicate Waits(g: Graph, waiting: set<string>, s: string) {
    exists d :: d in waiting && Edge(g, s, d)
  }

  /** Services that each wait for another one among them contain a cycle. */
  lemma WaitingServicesHaveCycle(g: Graph, waiting: set<string>)
    requires waiting != {}
    requires forall s {:trigger Waits(g, waiting, s)} :: s in waiting ==> Waits(g, waiting, s)
    ensures HasCycle(g)
  {
    var s :| s in waiting;
    var p := WalkAmong(g, waiting, [s], |waiting| + 1);
    LongWalkHasCycle(g, p, waiting);
  }

  lemma {:induction false} WalkAmong(g: Graph, waiting: set<string>, p: seq<string>, n: nat) returns (q: seq<string>)
    requires forall s {:trigger Waits(g, waiting, s)} :: s in waiting ==> Waits(g, waiting, s)
    requires p != [] && Walk(g, p) && forall k :: 0 <= k < |p| ==> p[k] in waiting
    ensures |q| >= n && Walk(g, q) && forall k :: 0 <= k < |q| ==> q[k] in waiting
    decreases n - |p|
  {
    q := p;
    if |p| < n {
      assert Waits(g, waiting, p[|p| - 1]);
      var d :| d in waiting && Edge(g, p[|p| - 1], d);
      q := WalkAmong(g, waiting, p + [d], n);
    }
  }

  datatype Sorted = Order(entries: seq<Entry>) | CycleError(stuck: seq<Entry>)

  ghost predicate Placed(entries: seq<Entry>, order: seq<nat>, sorted: seq<Entry>) {
    && |sorted| == |order|
    && forall k :: 0 <= k < |order| ==> order[k] < |entries| && sorted[k] == entries[order[k]]
  }

  /** The sort's result: the entries in the least valid order. */
  ghost predicate IsSorted(g: Graph, entries: seq<Entry>, sorted: seq<Entry>) {
    exists order :: LeastValidOrder(g, entries, order) && Greedy(g, entries, order) && Placed(entries, order, sorted)
  }

  /** Every entry already stands behind all that its service depends on. */
  ghost predicate DependenciesBefore(g: Graph, entries: seq<Entry>) {
    forall i, j :: InPlace(g, entries, i, j)
  }

  ghost predicate InPlace(g: Graph, entries: seq<Entry>, i: int, j: int) {
    0 <= i < |entries| && 0 <= j < |entries| && Edge(g, entries[i].service, entries[j].service) ==> j < i
  }

  lemma IdentityIsValid(g: Graph, entries: seq<Entry>, identity: seq<nat>)
    requires |identity| == |entries| && forall k :: 0 <= k < |identity| ==> identity[k] == k
    requires DependenciesBefore(g, entries)
    ensures ValidOrder(g, entries, identity)
  {
    forall k, x: nat | 0 <= k <= |identity| && x < k ensures x in identity[..k] {
      assert identity[..k][x] == x;
    }
    assert identity[..|identity|] == identity;
    forall k | 0 <= k < |identity| ensures Ready(g, entries, identity[..k], identity[k]) {
      forall j | 0 <= j < |entries| && Edge(g, entries[identity[k]].service, entries[j].service)
        ensures j in identity[..k]
      {
        assert InPlace(g, entries, k, j);
        assert identity[..k][j] == j;
      }
    }
  }

  lemma NothingIsBelowIdentity(order: seq<nat>, identity: seq<nat>)
    requires Permutation(order, |identity|) && forall k :: 0 <= k < |identity| ==> identity[k] == k
    ensures !LexLess(order, identity)
  {
    forall k | 0 <= k < |order| && order[..k] == identity[..k]
      ensures identity[k] <= order[k]
    {
      forall x: nat | x < k ensures x in identity[..k] {
        assert identity[..k][x] == x;
      }
      assert order[k] !in order[..k];
    }
  }

  lemma ValidIsUnchanged(g: Graph, entries: seq<Entry>, order: seq<nat>)
    requires LeastValidOrder(g, entries, order) && DependenciesBefore(g, entries)
    ensures forall k :: 0 <= k < |order| ==> order[k] == k
  {
    var identity := seq(|entries|, i => i);
    IdentityIsValid(g, entries, identity);
    NothingIsBelowIdentity(order, identity);
    assert order == identity;
  }

  lemma UnchangedIsInPlace(g: Graph, entries: seq<Entry>, order: seq<nat>, i: nat, j: nat)
    requires Permutation(order, |entries|) && Placed(entries, order, entries)
    requires i < |entries| && j < |entries| && Edge(g, entries[i].service, entries[j].service)
    requires Ready(g, entries, order[..i], order[i])
    ensures j < i
  {
    assert entries[order[i]] == entries[i] && entries[order[j]] == entries[j];
    var b :| 0 <= b < i && order[b] == order[j];
  }

  lemma ReadyAt(g: Graph, entries: seq<Entry>, order: seq<nat>, k: nat)
    requires ValidOrder(g, entries, order) && k < |order|
    ensures Ready(g, entries, order[..k], order[k])
  {
  }

  lemma UnchangedIsValid(g: Graph, entries: seq<Entry>, order: seq<nat>, i: int, j: int)
    requires ValidOrder(g, entries, order) && Placed(entries, order, entries)
    ensures InPlace(g, entries, i, j)
  {
    if 0 <= i < |entries| && 0 <= j < |entries| {
      if Edge(g, entries[i].service, entries[j].service) {
        ReadyAt(g, entries, order, i);
        UnchangedIsInPlace(g, entries, order, i, j);
      }
    }
  }

  lemma UnchangedUnder(g: Graph, entries: seq<Entry>, order: seq<nat>, sorted: seq<Entry>)
    requires LeastValidOrder(g, entries, order) && Placed(entries, order, sorted)
    ensures sorted == entries <==> DependenciesBefore(g, entries)
  {
    if DependenciesBefore(g, entries) {
      ValidIsUnchanged(g, entries, order);
    }
    if sorted == entries {
      forall i, j ensures InPlace(g, entries, i, j) {
        UnchangedIsValid(g, entries, order, i, j);
      }
    }
  }

  /** The list comes back as it was if and only if its dependencies stood first already. */
  lemma UnchangedExactly(g: Graph, entries: seq<Entry>, sorted: seq<Entry>)
    requires IsSorted(g, entries, sorted)
    ensures sorted == entries <==> DependenciesBefore(g, entries)
  {
    var order :| LeastValidOrder(g, entries, order) && Greedy(g, entries, order) && Placed(entries, order, sorted);
    UnchangedUnder(g, entries, order, sorted);
  }

  function InPlanDependencies(g: Graph, present: set<string>, entry: Entry): seq<string> {
    Keep(Out(g, entry.service), present)
  }

  predicate DependenciesDone(g: Graph, present: set<string>, entry: Entry, done: set<string>) {
    forall d :: d in InPlanDependencies(g, present, entry) ==> d in done
  }

  /** `remaining.findIndex(...)`. */
  method FindReady(g: Graph, present: set<string>, remaining: seq<Entry>, done: set<string>) returns (at: int)
    ensures -1 <= at < |remaining|
    ensures at >= 0 ==> DependenciesDone(g, present, remaining[at], done)
    ensures forall j :: 0 <= j < (if at < 0 then |remaining| else at) ==>
      !DependenciesDone(g, present, remaining[j], done)
  {
    for i := 0 to |remaining|
      invariant forall j :: 0 <= j < i ==> !DependenciesDone(g, present, remaining[j], done)
    {
      if DependenciesDone(g, present, remaining[i], done) {
        return i;
      }
    }
    return -1;
  }

  /** What the loop keeps: `left` are the places of `remaining`, in their original order. */
  ghost predicate Split(entries: seq<Entry>, order: seq<nat>, left: seq<nat>, remaining: seq<Entry>) {
    && Placed(entries, left, remaining)
    && InRange(order, |entries|) && Distinct(order)
    && (forall a, b :: 0 <= a < b < |left| ==> left[a] < left[b])
    && (forall i: nat :: i < |entries| ==> (i in order <==> i !in left))
  }

  ghost predicate AllPlaced(entries: seq<Entry>, order: seq<nat>, service: string) {
    forall j :: 0 <= j < |entries| && entries[j].service == service ==> j in order
  }

  ghost predicate DoneServices(entries: seq<Entry>, order: seq<nat>, done: set<string>) {
    forall service :: service in ServicesOf(entries) ==>
      (service in done <==> AllPlaced(entries, order, service))
  }

  lemma ReadyAsTested(g: Graph, entries: seq<Entry>, order: seq<nat>, done: set<string>, i: nat)
    requires i < |entries| && DoneServices(entries, order, done)
    ensures DependenciesDone(g, ServicesOf(entries), entries[i], done) <==> Ready(g, entries, order, i)
  {
    var present := ServicesOf(entries);
    KeepMembers(Out(g, entries[i].service), present);
    if Ready(g, entries, order, i) {
      forall d | d in InPlanDependencies(g, present, entries[i]) ensures d in done {
        assert AllPlaced(entries, order, d);
      }
    } else {
      var j :| 0 <= j < |entries| && Edge(g, entries[i].service, entries[j].service) && j !in order;
      assert entries[j].service in present;
      assert !AllPlaced(entries, order, entries[j].service);
    }
  }

  lemma SplitStep(entries: seq<Entry>, order: seq<nat>, left: seq<nat>, remaining: seq<Entry>, at: nat)
    requires Split(entries, order, left, remaining) && at < |left|
    ensures Split(entries, order + [left[at]], left[..at] + left[at + 1..], remaining[..at] + remaining[at + 1..])
  {
    var i := left[at];
    var order', left' := order + [i], left[..at] + left[at + 1..];
    assert forall j: nat :: j in left' <==> j in left && j != i by {
      forall j: nat | j in left && j != i ensures j in left' {
        var k :| 0 <= k < |left| && left[k] == j;
        assert left'[if k < at then k else k - 1] == j;
      }
    }
    assert i !in order;
  }

  function NextDone(remaining: seq<Entry>, done: set<string>, service: string): set<string> {
    if exists other :: other in remaining && other.service == service then done else done + {service}
  }

  lemma AllPlacedStep(entries: seq<Entry>, order: seq<nat>, left: seq<nat>, remaining: seq<Entry>, i: nat)
    requires i < |entries| && Split(entries, order + [i], left, remaining)
    ensures AllPlaced(entries, order + [i], entries[i].service) <==>
            !exists other :: other in remaining && other.service == entries[i].service
  {
    var s := entries[i].service;
    if other :| other in remaining && other.service == s {
      var k :| 0 <= k < |remaining| && remaining[k] == other;
      assert left[k] !in order + [i];
    } else {
      forall j: nat | j < |entries| && j !in order + [i] ensures entries[j] in remaining {
        var k :| 0 <= k < |left| && left[k] == j;
      }
    }
  }

  lemma DoneStep(entries: seq<Entry>, order: seq<nat>, left: seq<nat>, remaining: seq<Entry>, done: set<string>, i: nat)
    requires i < |entries| && Split(entries, order + [i], left, remaining)
    requires DoneServices(entries, order, done) && !AllPlaced(entries, order, entries[i].service)
    ensures DoneServices(entries, order + [i], NextDone(remaining, done, entries[i].service))
  {
    AllPlacedStep(entries, order, left, remaining, i);
    forall service | service in ServicesOf(entries) && service != entries[i].service
      ensures AllPlaced(entries, order + [i], service) <==> AllPlaced(entries, order, service)
    {
    }
  }

  lemma GreedyStep(g: Graph, entries: seq<Entry>, order: seq<nat>, i: nat)
    requires InRange(order, |entries|) && i < |entries| && Greedy(g, entries, order)
    requires Ready(g, entries, order, i)
    requires forall j :: 0 <= j < i ==> j in order || !Ready(g, entries, order, j)
    ensures Greedy(g, entries, order + [i])
  {
    var next := order + [i];
    assert next[..|order|] == order;
    assert forall k :: 0 <= k < |order| ==> next[..k] == order[..k] && next[k] == order[k];
  }

  /** A service one of whose entries is not ready waits for another one that is left. */
  lemma NotReadyWaits(g: Graph, entries: seq<Entry>, order: seq<nat>, left: seq<nat>, remaining: seq<Entry>, k: nat)
    requires Split(entries, order, left, remaining) && k < |left| && !Ready(g, entries, order, left[k])
    ensures Waits(Induced(g, ServicesOf(entries)), ServicesOf(remaining), remaining[k].service)
  {
    var i := left[k];
    var j: nat :| j < |entries| && Edge(g, entries[i].service, entries[j].service) && j !in order;
    var m :| 0 <= m < |left| && left[m] == j;
    assert remaining[m] in remaining && entries[i] in entries && entries[j] in entries;
    InducedEdge(g, ServicesOf(entries), entries[i].service, entries[j].service);
  }

  lemma NothingReady(g: Graph, entries: seq<Entry>, order: seq<nat>, left: seq<nat>, remaining: seq<Entry>)
    requires Split(entries, order, left, remaining) && left != []
    requires forall k :: 0 <= k < |left| ==> !Ready(g, entries, order, left[k])
    ensures HasCycle(Induced(g, ServicesOf(entries)))
  {
    var waiting, induced := ServicesOf(remaining), Induced(g, ServicesOf(entries));
    forall s | s in waiting ensures Waits(induced, waiting, s) {
      var e :| e in remaining && e.service == s;
      var k :| 0 <= k < |remaining| && remaining[k] == e;
      NotReadyWaits(g, entries, order, left, remaining, k);
    }
    assert remaining[0] in remaining && remaining[0].service in waiting;
    WaitingServicesHaveCycle(induced, waiting);
  }

  /** What holds at the head of the loop. */
  ghost predicate SortState(g: Graph, entries: seq<Entry>, order: seq<nat>, left: seq<nat>,
                            remaining: seq<Entry>, done: set<string>, sorted: seq<Entry>) {
    && Split(entries, order, left, remaining)
    && Placed(entries, order, sorted)
    && |order| + |left| == |entries|
    && DoneServices(entries, order, done)
    && Greedy(g, entries, order)
  }

  lemma SortStep(g: Graph, entries: seq<Entry>, order: seq<nat>, left: seq<nat>,
                 remaining: seq<Entry>, done: set<string>, sorted: seq<Entry>, at: nat)
    requires SortState(g, entries, order, left, remaining, done, sorted) && at < |remaining|
    requires DependenciesDone(g, ServicesOf(entries), remaining[at], done)
    requires forall j :: 0 <= j < at ==> !DependenciesDone(g, ServicesOf(entries), remaining[j], done)
    ensures var remaining' := remaining[..at] + remaining[at + 1..];
            SortState(g, entries, order + [left[at]], left[..at] + left[at + 1..], remaining',
                      NextDone(remaining', done, remaining[at].service), sorted + [remaining[at]])
  {
    var i := left[at];
    ReadyAsTested(g, entries, order, done, i);
    forall j: nat | j < i ensures j in order || !Ready(g, entries, order, j) {
      if j !in order {
        var k :| 0 <= k < |left| && left[k] == j;
        ReadyAsTested(g, entries, order, done, j);
      }
    }
    GreedyStep(g, entries, order, i);
    SplitStep(entries, order, left, remaining, at);
    DoneStep(entries, order, left[..at] + left[at + 1..], remaining[..at] + remaining[at + 1..], done, i);
  }

  /** The sort ends on every input. It gives the least valid order, and gives up exactly when the
      dependencies among the listed services have a cycle. */
  method TopologicallySortByDependency(entries: seq<Entry>, g: Graph) returns (r: Sorted)
    ensures r.CycleError? <==> HasCycle(Induced(g, ServicesOf(entries)))
    ensures r.Order? ==> IsSorted(g, entries, r.entries)
  {
    var present := ServicesOf(entries);
    var remaining, done, sorted := entries, {}, [];
    ghost var order: seq<nat>, left: seq<nat> := [], seq(|entries|, i => i);
    assert DoneServices(entries, [], {}) by {
      forall service | service in present ensures !AllPlaced(entries, [], service) {
        var e :| e in entries && e.service == service;
        var j :| 0 <= j < |entries| && entries[j] == e;
      }
    }
    forall i: nat | i < |entries| ensures i in left {
      assert left[i] == i;
    }
    while |remaining| > 0
      invariant SortState(g, entries, order, left, remaining, done, sorted)
    {
      var at := FindReady(g, present, remaining, done);
      if at == -1 {
        forall k | 0 <= k < |left| ensures !Ready(g, entries, order, left[k]) {
          ReadyAsTested(g, entries, order, done, left[k]);
        }
        NothingReady(g, entries, order, left, remaining);
        return CycleError(remaining);
      }
      SortStep(g, entries, order, left, remaining, done, sorted, at);
      var entry := remaining[at];
      order, left := order + [left[at]], left[..at] + left[at + 1..];
      remaining, sorted := remaining[..at] + remaining[at + 1..], sorted + [entry];
      if !exists other :: other in remaining && other.service == entry.service {
        done := done + {entry.service};
      }
    }
    GreedyIsLeast(g, entries, order);
    CycleHasNoOrder(g, entries, order);
    r := Order(sorted);
  }

  /** A catalog that passes the catalog check never makes the sort give up, whatever it is given, as long as
      the graph has no other edges than those of the services' own lists. */
  lemma CoherentCatalogNeverStuck(services: seq<Service>, entries: seq<Entry>, g: Graph)
    requires Coherent(services)
    requires forall s, d :: Edge(g, s, d) ==> ListsDependency(services, s, d)
    ensures !HasCycle(Induced(g, ServicesOf(entries)))
  {
    if HasCycle(Induced(g, ServicesOf(entries))) {
      InducedCycle(g, ServicesOf(entries));
      var p :| Cycle(g, p);
      forall k | 0 <= k < |p| - 1 ensures Edge(DependsOn(services), p[k], p[k + 1]) {
        assert Edge(g, p[k], p[k + 1]);
        EdgeIsListed(services, p[k], p[k + 1]);
      }
      assert Cycle(DependsOn(services), p);
      AcyclicExactly(services);
    }
  }

  lemma BeforeInOrder(g: Graph, entries: seq<Entry>, order: seq<nat>, sorted: seq<Entry>, a: nat, b: nat)
    requires ValidOrder(g, entries, order) && Placed(entries, order, sorted) && a < |sorted| && b < |sorted|
    requires Edge(g, sorted[a].service, sorted[b].service)
    ensures b < a
  {
    ReadyAt(g, entries, order, a);
    assert order[b] in order[..a];
    var k :| 0 <= k < a && order[..a][k] == order[b];
    assert order[k] == order[b];
  }

  /** In the result every entry of a dependency stands before. */
  lemma DependencyComesFirst(g: Graph, entries: seq<Entry>, sorted: seq<Entry>, a: nat, b: nat)
    requires IsSorted(g, entries, sorted) && a < |sorted| && b < |sorted|
    requires Edge(g, sorted[a].service, sorted[b].service)
    ensures b < a
  {
    var order :| LeastValidOrder(g, entries, order) && Greedy(g, entries, order) && Placed(entries, order, sorted);
    BeforeInOrder(g, entries, order, sorted, a, b);
  }
}
