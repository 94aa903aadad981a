/** Which of two entries the sort puts first, for every pair: the law behind the comment at
    scripts/plan.mjs, 418-422. */
module SortLaw {
  import opened Graph
  import opened PlanTypes
  import opened DependencySort

  /** Each entry's service depends on the next entry's service. */
  ghost predicate Chain(g: Graph, entries: seq<Entry>, p: seq<nat>) {
    && |p| >= 2 && InRange(p, |entries|)
    && forall k :: 0 <= k < |p| - 1 ==> Edge(g, entries[p[k]].service, entries[p[k + 1]].service)
  }

  /** Entry `i` depends on entry `j`, directly or through other entries of the list. */
  ghost predicate Needs(g: Graph, entries: seq<Entry>, i: nat, j: nat) {
    exists p :: Chain(g, entries, p) && p[0] == i && p[|p| - 1] == j
  }

  /** `i` itself, or an entry that `i` depends on. */
  ghost predicate Within(g: Graph, entries: seq<Entry>, i: nat, j: nat) {
    j == i || Needs(g, entries, i, j)
  }

  ghost predicate Before(order: seq<nat>, i: nat, j: nat) {
    exists a, b :: 0 <= a < b < |order| && order[a] == i && order[b] == j
  }

  lemma NeedsTransitive(g: Graph, entries: seq<Entry>, i: nat, j: nat, k: nat)
    requires Needs(g, entries, i, j) && Needs(g, entries, j, k)
    ensures Needs(g, entries, i, k)
  {
    var p :| Chain(g, entries, p) && p[0] == i && p[|p| - 1] == j;
    var q :| Chain(g, entries, q) && q[0] == j && q[|q| - 1] == k;
    assert Chain(g, entries, p + q[1..]);
  }

  lemma EdgeNeeds(g: Graph, entries: seq<Entry>, i: nat, j: nat)
    requires i < |entries| && j < |entries| && Edge(g, entries[i].service, entries[j].service)
    ensures Needs(g, entries, i, j)
  {
    assert Chain(g, entries, [i, j]);
  }

  ghost function Place(order: seq<nat>, i: nat): (a: nat)
    requires i in order
    ensures a < |order| && order[a] == i
  {
    var a: nat :| a < |order| && order[a] == i;
    a
  }

  /** Everything an entry depends on is placed before it. */
  lemma {:induction false} ChainDescends(g: Graph, entries: seq<Entry>, order: seq<nat>, a: nat, p: seq<nat>)
    requires ValidOrder(g, entries, order) && a < |order| && Chain(g, entries, p) && p[0] == order[a]
    ensures p[|p| - 1] in order[..a]
    decreases |p|
  {
    assert Ready(g, entries, order[..a], order[a]);
    assert p[1] in order[..a];
    if |p| > 2 {
      var b: nat :| b < a && order[b] == p[1];
      ChainDescends(g, entries, order, b, p[1..]);
      assert order[..b] <= order[..a];
    }
  }

  lemma NeededIsPlaced(g: Graph, entries: seq<Entry>, order: seq<nat>, a: nat, j: nat)
    requires ValidOrder(g, entries, order) && a < |order| && Needs(g, entries, order[a], j)
    ensures j in order[..a]
  {
    var p :| Chain(g, entries, p) && p[0] == order[a] && p[|p| - 1] == j;
    ChainDescends(g, entries, order, a, p);
  }

  /** Of what is still missing for `i`, the entry that is placed first is ready now. */
  lemma {:induction false} SomethingReady(g: Graph, entries: seq<Entry>, order: seq<nat>, b: nat, i: nat) returns (m: nat)
    requires ValidOrder(g, entries, order) && b <= |order| && i < |entries| && i !in order[..b]
    ensures m < |entries| && m !in order[..b] && Within(g, entries, i, m) && Ready(g, entries, order[..b], m)
    decreases Place(order, i)
  {
    if Ready(g, entries, order[..b], i) {
      m := i;
    } else {
      var j: nat :| j < |entries| && Edge(g, entries[i].service, entries[j].service) && j !in order[..b];
      EdgeNeeds(g, entries, i, j);
      NeededIsPlaced(g, entries, order, Place(order, i), j);
      m := SomethingReady(g, entries, order, b, j);
      if m != j {
        NeedsTransitive(g, entries, i, j, m);
      }
    }
  }

  // The key of an entry: the last entry of the list that it needs (or the entry itself), then the last
  // one among those of its needs that need that one in turn, and so on down to the entry itself.

  /** `z` is needed for `i`, and by the first `c` entries of the key it is still missing. */
  ghost predicate Waiting(g: Graph, entries: seq<Entry>, i: nat, key: seq<nat>, c: nat, z: nat)
    requires c <= |key|
  {
    Within(g, entries, i, z) && (c > 0 ==> Needs(g, entries, z, key[c - 1]))
  }

  ghost predicate PartOfKey(g: Graph, entries: seq<Entry>, i: nat, key: seq<nat>) {
    && InRange(key, |entries|)
    && forall c :: 0 <= c < |key| ==>
         Waiting(g, entries, i, key, c, key[c]) && forall z: nat :: Waiting(g, entries, i, key, c, z) ==> z <= key[c]
  }

  ghost predicate IsKey(g: Graph, entries: seq<Entry>, i: nat, key: seq<nat>) {
    PartOfKey(g, entries, i, key) && key != [] && key[|key| - 1] == i
  }

  /** Lexicographic order; a key that another one extends is the smaller one. */
  ghost predicate KeyLess(p: seq<nat>, q: seq<nat>) {
    p < q || LexLess(p, q)
  }

  lemma WithinTransitive(g: Graph, entries: seq<Entry>, i: nat, j: nat, k: nat)
    requires Within(g, entries, i, j) && Within(g, entries, j, k)
    ensures Within(g, entries, i, k)
  {
    if j != i && k != j {
      NeedsTransitive(g, entries, i, j, k);
    }
  }

  /** What `i` needs without needing `key[c]` is placed before `key[c]`. */
  lemma {:induction false} EarlierIsPlaced(g: Graph, entries: seq<Entry>, order: seq<nat>, i: nat, key: seq<nat>, c: nat, z: nat)
    requires Permutation(order, |entries|) && Greedy(g, entries, order) && i < |entries|
    requires IsKey(g, entries, i, key) && c < |key|
    requires Within(g, entries, i, z) && z != key[c] && !Needs(g, entries, z, key[c])
    ensures z in order[..Place(order, key[c])]
    decreases c, 1
  {
    var b := Place(order, key[c]);
    if z !in order[..b] {
      var m := SomethingReady(g, entries, order, b, z);
      assert m != key[c] && key[c] <= m;
      WithinTransitive(g, entries, i, z, m);
      SameSoFar(g, entries, order, i, key, key, c, i, m);
    }
  }

  /** What `i` needs without needing the common part of two keys is placed before the next entry of the other key. */
  lemma {:induction false} SameSoFar(g: Graph, entries: seq<Entry>, order: seq<nat>,
                                     i: nat, p: seq<nat>, q: seq<nat>, c: nat, j: nat, m: nat)
    requires Permutation(order, |entries|) && Greedy(g, entries, order) && i < |entries|
    requires IsKey(g, entries, i, p) && IsKey(g, entries, j, q) && c < |p| && c < |q| && p[..c] == q[..c]
    requires Within(g, entries, i, m) && p[c] < m
    ensures m in order[..Place(order, q[c])]
    decreases c, 0
  {
    var b := Place(order, q[c]);
    assert !Waiting(g, entries, i, p, c, m);
    assert c > 0 && p[c - 1] == p[..c][c - 1] == q[..c][c - 1] == q[c - 1];
    assert Waiting(g, entries, j, q, c, q[c]);
    NeededIsPlaced(g, entries, order, b, q[c - 1]);
    if m != p[c - 1] {
      EarlierIsPlaced(g, entries, order, i, p, c - 1, m);
    }
  }

  /** An entry whose key goes on comes after the one whose key it goes on from. */
  lemma LongerKeyLater(g: Graph, entries: seq<Entry>, order: seq<nat>, i: nat, p: seq<nat>, j: nat, q: seq<nat>)
    requires ValidOrder(g, entries, order) && i < |entries| && j < |entries|
    requires IsKey(g, entries, i, p) && IsKey(g, entries, j, q) && p < q
    ensures Before(order, i, j)
  {
    var c := |p|;
    assert Waiting(g, entries, j, q, c, q[c]) && q[c - 1] == i;
    if q[c] != j {
      NeedsTransitive(g, entries, j, q[c], i);
    }
    NeededIsPlaced(g, entries, order, Place(order, j), i);
  }

  lemma KeyEntryNotLater(g: Graph, entries: seq<Entry>, order: seq<nat>, j: nat, q: seq<nat>, c: nat)
    requires ValidOrder(g, entries, order) && j < |entries| && IsKey(g, entries, j, q) && c < |q|
    ensures Place(order, q[c]) <= Place(order, j)
  {
    assert Waiting(g, entries, j, q, c, q[c]);
    if q[c] != j {
      NeededIsPlaced(g, entries, order, Place(order, j), q[c]);
    }
  }

  /** The first difference of the keys decides. */
  lemma SmallerKeyFirst(g: Graph, entries: seq<Entry>, order: seq<nat>, i: nat, p: seq<nat>, j: nat, q: seq<nat>)
    requires Permutation(order, |entries|) && Greedy(g, entries, order) && i < |entries| && j < |entries|
    requires IsKey(g, entries, i, p) && IsKey(g, entries, j, q) && KeyLess(p, q)
    ensures Before(order, i, j)
  {
    if p < q {
      LongerKeyLater(g, entries, order, i, p, j, q);
    } else {
      var c :| 0 <= c < |p| && c < |q| && p[..c] == q[..c] && p[c] < q[c];
      FirstDifferenceFirst(g, entries, order, i, p, j, q, c);
      KeyEntryNotLater(g, entries, order, j, q, c);
      assert order[..Place(order, q[c])] <= order[..Place(order, j)];
    }
  }

  lemma FirstDifferenceFirst(g: Graph, entries: seq<Entry>, order: seq<nat>, i: nat, p: seq<nat>, j: nat, q: seq<nat>, c: nat)
    requires Permutation(order, |entries|) && Greedy(g, entries, order) && i < |entries| && j < |entries|
    requires IsKey(g, entries, i, p) && IsKey(g, entries, j, q)
    requires c < |p| && c < |q| && p[..c] == q[..c] && p[c] < q[c]
    ensures i in order[..Place(order, q[c])]
  {
    var b := Place(order, q[c]);
    if i !in order[..b] {
      var m := SomethingReady(g, entries, order, b, i);
      assert q[c] <= m;
      SameSoFar(g, entries, order, i, p, q, c, j, m);
    }
  }

  lemma KeysDiffer(p: seq<nat>, q: seq<nat>)
    requires p != [] && q != [] && p[|p| - 1] != q[|q| - 1]
    ensures KeyLess(p, q) || KeyLess(q, p)
  {
    var n := if |p| < |q| then |p| else |q|;
    if p[..n] != q[..n] {
      var k := FirstDifference(p[..n], q[..n]);
      assert p[..k] == p[..n][..k] == q[..n][..k] == q[..k];
    }
  }

  /** The law: of any two entries, related or not, the one with the smaller key comes first. */
  lemma PairLaw(g: Graph, entries: seq<Entry>, order: seq<nat>, i: nat, p: seq<nat>, j: nat, q: seq<nat>)
    requires Permutation(order, |entries|) && Greedy(g, entries, order) && i < |entries| && j < |entries| && i != j
    requires IsKey(g, entries, i, p) && IsKey(g, entries, j, q)
    ensures Before(order, i, j) <==> KeyLess(p, q)
  {
    KeysDiffer(p, q);
    if KeyLess(p, q) {
      SmallerKeyFirst(g, entries, order, i, p, j, q);
    } else {
      SmallerKeyFirst(g, entries, order, j, q, i, p);
    }
  }

  // Every entry has a key.

  lemma {:induction false} LastWaiting(g: Graph, entries: seq<Entry>, i: nat, key: seq<nat>, z: nat, bound: nat) returns (last: nat)
    requires Waiting(g, entries, i, key, |key|, z)
    requires forall y: nat :: Waiting(g, entries, i, key, |key|, y) ==> y < bound
    ensures Waiting(g, entries, i, key, |key|, last)
    ensures forall y: nat :: Waiting(g, entries, i, key, |key|, y) ==> y <= last
    decreases bound
  {
    if Waiting(g, entries, i, key, |key|, bound - 1) {
      last := bound - 1;
    } else {
      last := LastWaiting(g, entries, i, key, z, bound - 1);
    }
  }

  lemma PartGrows(g: Graph, entries: seq<Entry>, i: nat, key: seq<nat>, last: nat)
    requires PartOfKey(g, entries, i, key) && last < |entries| && Waiting(g, entries, i, key, |key|, last)
    requires forall y: nat :: Waiting(g, entries, i, key, |key|, y) ==> y <= last
    ensures PartOfKey(g, entries, i, key + [last])
  {
    var next := key + [last];
    forall c | 0 <= c < |next|
      ensures Waiting(g, entries, i, next, c, next[c]) && forall z: nat :: Waiting(g, entries, i, next, c, z) ==> z <= next[c]
    {
      assert forall z: nat :: Waiting(g, entries, i, next, c, z) <==> Waiting(g, entries, i, key, c, z);
    }
  }

  lemma KeyDescends(g: Graph, entries: seq<Entry>, order: seq<nat>, i: nat, key: seq<nat>, last: nat)
    requires ValidOrder(g, entries, order) && PartOfKey(g, entries, i, key) && key != []
    requires Waiting(g, entries, i, key, |key|, last)
    ensures last < key[|key| - 1]
  {
    var c := |key| - 1;
    if last == key[c] {
      NeededIsPlaced(g, entries, order, Place(order, last), last);
    }
    assert Waiting(g, entries, i, key, c, key[c]);
    if c > 0 {
      NeedsTransitive(g, entries, last, key[c], key[c - 1]);
    }
    assert Waiting(g, entries, i, key, c, last);
  }

  lemma {:induction false} KeyGrows(g: Graph, entries: seq<Entry>, order: seq<nat>, i: nat, part: seq<nat>) returns (key: seq<nat>)
    requires ValidOrder(g, entries, order) && i < |entries| && PartOfKey(g, entries, i, part)
    requires part != [] ==> part[|part| - 1] != i
    ensures IsKey(g, entries, i, key)
    decreases if part == [] then |entries| else part[|part| - 1]
  {
    if part != [] {
      assert Waiting(g, entries, i, part, |part| - 1, part[|part| - 1]);
    }
    assert Waiting(g, entries, i, part, |part|, i);
    var last := LastWaiting(g, entries, i, part, i, |entries|);
    PartGrows(g, entries, i, part, last);
    if last == i {
      key := part + [last];
    } else {
      if part != [] {
        KeyDescends(g, entries, order, i, part, last);
      }
      key := KeyGrows(g, entries, order, i, part + [last]);
    }
  }

  lemma KeyExists(g: Graph, entries: seq<Entry>, order: seq<nat>, i: nat) returns (key: seq<nat>)
    requires ValidOrder(g, entries, order) && i < |entries|
    ensures IsKey(g, entries, i, key)
  {
    key := KeyGrows(g, entries, order, i, []);
  }

  // The two simple cases.

  /** An entry stays before a later one if everything it needs stands before that one, too. */
  lemma StaysBefore(g: Graph, entries: seq<Entry>, order: seq<nat>, i: nat, j: nat)
    requires Permutation(order, |entries|) && Greedy(g, entries, order) && i < |entries| && j < |entries|
    requires forall z: nat :: Within(g, entries, i, z) ==> z < j
    ensures Before(order, i, j)
  {
    var p := KeyExists(g, entries, order, i);
    var q := KeyExists(g, entries, order, j);
    assert Waiting(g, entries, i, p, 0, p[0]) && Waiting(g, entries, j, q, 0, j);
    assert p[..0] == q[..0];
    PairLaw(g, entries, order, i, p, j, q);
  }

  /** It is overtaken if something it needs stands behind the later one, and behind all that one needs. */
  lemma IsOvertaken(g: Graph, entries: seq<Entry>, order: seq<nat>, i: nat, j: nat, d: nat)
    requires Permutation(order, |entries|) && Greedy(g, entries, order) && i < |entries| && j < |entries| && d < |entries|
    requires Needs(g, entries, i, d) && forall z: nat :: Within(g, entries, j, z) ==> z < d
    ensures Before(order, j, i)
  {
    StaysBefore(g, entries, order, j, d);
    NeededIsPlaced(g, entries, order, Place(order, i), d);
  }

  lemma NothingNeeded(g: Graph, entries: seq<Entry>, i: nat)
    requires i < |entries| && Out(g, entries[i].service) == []
    ensures forall j: nat :: !Needs(g, entries, i, j)
  {
    forall p | Chain(g, entries, p) ensures p[0] != i {
      assert Edge(g, entries[p[0]].service, entries[p[1]].service);
    }
  }

  lemma SortedIsUnique(g: Graph, entries: seq<Entry>, order: seq<nat>, sorted: seq<Entry>)
    requires IsSorted(g, entries, sorted) && Permutation(order, |entries|) && Greedy(g, entries, order)
    ensures Placed(entries, order, sorted)
  {
    GreedyIsLeast(g, entries, order);
    var other :| LeastValidOrder(g, entries, other) && Placed(entries, other, sorted);
    assert other == order || (LexLess(order, other) && LexLess(other, order));
  }

  const A_NEEDS_C: Graph := map["a" := ["c"]]

  lemma BCAIsGreedy(entries: seq<Entry>)
    requires |entries| == 3 && entries[0].service == "a" && entries[1].service == "b" && entries[2].service == "c"
    ensures Permutation([1, 2, 0], 3) && Greedy(A_NEEDS_C, entries, [1, 2, 0])
  {
    var order := [1, 2, 0];
    assert order[..0] == [] && order[..1] == [1] && order[..2] == [1, 2];
  }

  lemma NeedsFirst(g: Graph, entries: seq<Entry>, i: nat, j: nat)
    ensures Needs(g, entries, i, j) ==>
              exists m: nat :: i < |entries| && m < |entries| && Edge(g, entries[i].service, entries[m].service)
                               && Within(g, entries, m, j)
  {
    if p :| Chain(g, entries, p) && p[0] == i && p[|p| - 1] == j {
      var m := p[1];
      if |p| > 2 {
        assert Chain(g, entries, p[1..]);
      }
      assert Within(g, entries, m, j);
    }
  }

  lemma UnrelatedAB(entries: seq<Entry>)
    requires |entries| == 3 && entries[0].service == "a" && entries[1].service == "b" && entries[2].service == "c"
    ensures !Needs(A_NEEDS_C, entries, 0, 1) && !Needs(A_NEEDS_C, entries, 1, 0)
  {
    NothingNeeded(A_NEEDS_C, entries, 1);
    NothingNeeded(A_NEEDS_C, entries, 2);
    NeedsFirst(A_NEEDS_C, entries, 0, 1);
  }

  lemma SortedAs(entries: seq<Entry>, sorted: seq<Entry>)
    requires |entries| == 3 && entries[0].service == "a" && entries[1].service == "b" && entries[2].service == "c"
    requires IsSorted(A_NEEDS_C, entries, sorted)
    ensures sorted == [entries[1], entries[2], entries[0]]
  {
    BCAIsGreedy(entries);
    SortedIsUnique(A_NEEDS_C, entries, [1, 2, 0], sorted);
  }

  /** Entries without any dependency between them do not always keep their order: here the first
      entry depends on the third, and the second, which neither needs nor is needed, overtakes it. */
  method OvertakingExample(a: Entry, b: Entry, c: Entry) returns (r: Sorted)
    requires a.service == "a" && b.service == "b" && c.service == "c"
    ensures r == Order([b, c, a])
    ensures !Needs(A_NEEDS_C, [a, b, c], 0, 1) && !Needs(A_NEEDS_C, [a, b, c], 1, 0)
  {
    r := TopologicallySortByDependency([a, b, c], A_NEEDS_C);
    BCAIsGreedy([a, b, c]);
    GreedyIsLeast(A_NEEDS_C, [a, b, c], [1, 2, 0]);
    CycleHasNoOrder(A_NEEDS_C, [a, b, c], [1, 2, 0]);
    SortedAs([a, b, c], r.entries);
    UnrelatedAB([a, b, c]);
  }
}
