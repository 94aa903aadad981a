/** The operations of backup and restore plans, and the helpers their validators share
    (scripts/backup-flow.mjs, scripts/backup-ids.mjs). */
module FlowOps {
  import opened Sequences

  datatype Action =
    | MaintenanceEnter | MaintenanceExit | ServiceStop | StagingBuild | SnapshotCreate | RetentionApply
    | ServiceStart | ReadinessWait | EvidenceWrite
    | RunnerInstall | TargetVerifyClean | SnapshotVerify | NetworkCreate | VolumeCreate | DataRestore
    | ManifestVerify | IntegrityCheck | CheckpointDataRestored | ConfigRestore | SecretMaterialize | StateRestore

  datatype Op = Op(id: string, action: Action, resource: string, destination: string)

  datatype SetEntry = SetEntry(service: string, unit: string, volume: string, retained: bool)

  /** The identifier alphabet of the schemas has no slash. */
  predicate Identifier(s: string) {
    '/' !in s
  }

  predicate ValidEntry(e: SetEntry) {
    Identifier(e.service) && Identifier(e.unit) && Identifier(e.volume)
  }

  function ConsistencySetEntryKey(e: SetEntry): string {
    e.service + "/" + e.unit + "/" + e.volume
  }

  function SlashAt(s: string): nat {
    if s == "" || s[0] == '/' then 0 else 1 + SlashAt(s[1..])
  }

  lemma {:induction false} SlashAfter(a: string, rest: string)
    requires Identifier(a)
    ensures SlashAt(a + "/" + rest) == |a|
    decreases |a|
  {
    if a != "" {
      assert (a + "/" + rest)[1..] == a[1..] + "/" + rest;
      SlashAfter(a[1..], rest);
    }
  }

  lemma FirstSlash(a: string, rest: string, b: string, rest': string)
    requires Identifier(a) && Identifier(b) && a + "/" + rest == b + "/" + rest'
    ensures a == b && rest == rest'
  {
    SlashAfter(a, rest);
    SlashAfter(b, rest');
    assert a == (a + "/" + rest)[..|a|] == b;
    assert rest == (a + "/" + rest)[|a| + 1..] == rest';
  }

  /** Two entries share a key only if they name the same volume of the same unit and service. */
  lemma EntryKeyInjective(a: SetEntry, b: SetEntry)
    requires ValidEntry(a) && ValidEntry(b)
    ensures ConsistencySetEntryKey(a) == ConsistencySetEntryKey(b) <==>
            a.service == b.service && a.unit == b.unit && a.volume == b.volume
  {
    if ConsistencySetEntryKey(a) == ConsistencySetEntryKey(b) {
      assert ConsistencySetEntryKey(a) == a.service + "/" + (a.unit + "/" + a.volume);
      assert ConsistencySetEntryKey(b) == b.service + "/" + (b.unit + "/" + b.volume);
      FirstSlash(a.service, a.unit + "/" + a.volume, b.service, b.unit + "/" + b.volume);
      FirstSlash(a.unit, a.volume, b.unit, b.volume);
    }
  }

  method HasDuplicates(keys: seq<string>) returns (r: bool)
    ensures r <==> !Distinct(keys)
  {
    var seen := {};
    for i := 0 to |keys|
      invariant seen == Elements(keys[..i]) && Distinct(keys[..i])
    {
      if keys[i] in seen {
        ghost var j :| 0 <= j < i && keys[j] == keys[i];
        return true;
      }
      assert keys[..i + 1] == keys[..i] + [keys[i]];
      seen := seen + {keys[i]};
    }
    assert keys[..|keys|] == keys;
    return false;
  }

  /** `sortedJSON(a) === sortedJSON(b)`, and `exactSetEquals` on keys: the same keys, each as often. */
  predicate SameKeys(a: seq<string>, b: seq<string>) {
    multiset(a) == multiset(b)
  }

  lemma SameKeysMembers(a: seq<string>, b: seq<string>)
    requires SameKeys(a, b)
    ensures forall k :: k in a <==> k in b
  {
    forall k ensures k in a <==> k in b {
      assert k in multiset(a) <==> k in multiset(b);
    }
  }

  predicate Has(ops: seq<Op>, action: Action) {
    exists i :: 0 <= i < |ops| && ops[i].action == action
  }

  /** `ops.findIndex(...)`. */
  function IndexOfAction(ops: seq<Op>, action: Action): (r: int)
    ensures -1 <= r < |ops|
    ensures r >= 0 ==> ops[r].action == action && forall j :: 0 <= j < r ==> ops[j].action != action
    ensures r < 0 ==> !Has(ops, action)
  {
    if ops == [] then -1
    else if ops[0].action == action then 0
    else
      var rest := IndexOfAction(ops[1..], action);
      assert forall j :: 1 <= j < |ops| ==> ops[j] == ops[1..][j - 1];
      if rest < 0 then -1 else rest + 1
  }

  function IndicesOfAction(ops: seq<Op>, action: Action): (r: seq<int>)
    ensures forall i :: i in r <==> 0 <= i < |ops| && ops[i].action == action
  {
    if ops == [] then []
    else
      var n := |ops| - 1;
      assert forall i :: 0 <= i < n ==> ops[..n][i] == ops[i];
      IndicesOfAction(ops[..n], action) + if ops[n].action == action then [n] else []
  }

  /** `Math.max(-1, ...indices)`. */
  function MaxOf(indices: seq<int>): (r: int)
    ensures r >= -1 && (r == -1 || r in indices)
    ensures forall i :: i in indices ==> i <= r
  {
    if indices == [] then -1
    else
      assert indices == [indices[0]] + indices[1..];
      var rest := MaxOf(indices[1..]);
      if indices[0] > rest then indices[0] else rest
  }

  /** `Math.min(...indices)`, with `none` for infinity when there is no index. */
  function MinOf(indices: seq<int>, none: int): (r: int)
    ensures r <= none && (r == none || r in indices)
    ensures forall i :: i in indices ==> r <= i
  {
    if indices == [] then none
    else
      assert indices == [indices[0]] + indices[1..];
      var rest := MinOf(indices[1..], none);
      if indices[0] < rest then indices[0] else rest
  }

  /** `ops.filter((op) => op.action === action)`. */
  function ByAction(ops: seq<Op>, action: Action): seq<Op> {
    if ops == [] then [] else (if ops[0].action == action then [ops[0]] else []) + ByAction(ops[1..], action)
  }

  lemma {:induction false} InByAction(ops: seq<Op>, action: Action, op: Op)
    ensures op in ByAction(ops, action) <==> op in ops && op.action == action
  {
    if ops != [] {
      InByAction(ops[1..], action, op);
      assert ops == [ops[0]] + ops[1..];
    }
  }

  lemma {:induction false} ByActionAppend(a: seq<Op>, b: seq<Op>, action: Action)
    ensures ByAction(a + b, action) == ByAction(a, action) + ByAction(b, action)
  {
    if a == [] {
      assert a + b == b;
    } else {
      assert (a + b)[1..] == a[1..] + b;
      ByActionAppend(a[1..], b, action);
    }
  }

  predicate AllOf(ops: seq<Op>, action: Action) {
    forall i :: 0 <= i < |ops| ==> ops[i].action == action
  }

  lemma {:induction false} TwoAtLeast(ops: seq<Op>, action: Action, i: nat, j: nat)
    requires i < j < |ops| && ops[i].action == action && ops[j].action == action
    ensures |ByAction(ops, action)| >= 2
  {
    assert ops == ops[..i + 1] + ops[i + 1..];
    ByActionAppend(ops[..i + 1], ops[i + 1..], action);
    assert ops[..i + 1][i] == ops[i] && ops[i + 1..][j - i - 1] == ops[j];
    InByAction(ops[..i + 1], action, ops[i]);
    InByAction(ops[i + 1..], action, ops[j]);
  }

  lemma {:induction false} ExactlyOne(ops: seq<Op>, action: Action, i: nat, j: nat)
    requires |ByAction(ops, action)| == 1
    requires i < |ops| && j < |ops| && ops[i].action == action && ops[j].action == action
    ensures i == j
  {
    if i < j {
      TwoAtLeast(ops, action, i, j);
    } else if j < i {
      TwoAtLeast(ops, action, j, i);
    }
  }

  /** Every `a` comes before every `b`. */
  predicate Before(ops: seq<Op>, a: Action, b: Action) {
    forall i, j :: 0 <= i < |ops| && 0 <= j < |ops| && ops[i].action == a && ops[j].action == b ==> i < j
  }

  lemma BeforeTransitive(ops: seq<Op>, a: Action, b: Action, c: Action)
    requires Before(ops, a, b) && Before(ops, b, c) && Has(ops, b)
    ensures Before(ops, a, c)
  {
  }

  /** Each action has a rank, and the ranks never fall along the operations. */
  ghost predicate Ranked(ops: seq<Op>, rank: Action -> nat) {
    forall i, j :: 0 <= i < j < |ops| ==> rank(ops[i].action) <= rank(ops[j].action)
  }

  lemma BeforeInRanked(ops: seq<Op>, rank: Action -> nat, a: Action, b: Action)
    requires Ranked(ops, rank) && rank(a) < rank(b)
    ensures Before(ops, a, b)
  {
  }

  /** Every rank below `n` is met, and the operations of one rank come before those of the next. */
  ghost predicate Chained(ops: seq<Op>, rank: Action -> nat, n: nat) {
    && (forall k :: 0 <= k < n ==> Met(ops, rank, k))
    && (forall a, b :: rank(a) + 1 == rank(b) < n ==> Before(ops, a, b))
  }

  ghost predicate Met(ops: seq<Op>, rank: Action -> nat, k: nat) {
    exists a :: rank(a) == k && Has(ops, a)
  }

  lemma {:induction false} ChainedBefore(ops: seq<Op>, rank: Action -> nat, n: nat, a: Action, b: Action)
    requires Chained(ops, rank, n) && rank(a) < rank(b) < n
    ensures Before(ops, a, b)
    decreases rank(b)
  {
    if rank(a) + 1 < rank(b) {
      assert Met(ops, rank, rank(b) - 1);
      var c :| rank(c) == rank(b) - 1 && Has(ops, c);
      ChainedBefore(ops, rank, n, a, c);
      BeforeTransitive(ops, a, c, b);
    }
  }

  lemma ChainedIsRanked(ops: seq<Op>, rank: Action -> nat, n: nat)
    requires Chained(ops, rank, n) && RanksWithin(ops, rank, 0, n)
    ensures Ranked(ops, rank)
  {
    forall i, j | 0 <= i < j < |ops| ensures rank(ops[i].action) <= rank(ops[j].action) {
      if rank(ops[j].action) < rank(ops[i].action) {
        ChainedBefore(ops, rank, n, ops[j].action, ops[i].action);
        assert false;
      }
    }
  }

  lemma {:induction false} MetBy(ops: seq<Op>, rank: Action -> nat, action: Action)
    requires ByAction(ops, action) != []
    ensures Met(ops, rank, rank(action))
  {
    var i := PlaceOf(ops, action);
    assert Has(ops, action);
  }

  ghost predicate RanksWithin(ops: seq<Op>, rank: Action -> nat, low: nat, high: nat) {
    forall i :: 0 <= i < |ops| ==> low <= rank(ops[i].action) < high
  }

  ghost predicate OfRank(ops: seq<Op>, rank: Action -> nat, k: nat) {
    forall i :: 0 <= i < |ops| ==> rank(ops[i].action) == k
  }

  /** The operations of one rank. */
  function ByRank(ops: seq<Op>, rank: Action -> nat, k: nat): seq<Op>
  {
    if ops == [] then [] else (if rank(ops[0].action) == k then [ops[0]] else []) + ByRank(ops[1..], rank, k)
  }

  lemma {:induction false} ByActionOfByRank(ops: seq<Op>, rank: Action -> nat, k: nat, action: Action)
    requires rank(action) == k
    ensures ByAction(ByRank(ops, rank, k), action) == ByAction(ops, action)
  {
    if ops != [] {
      ByActionOfByRank(ops[1..], rank, k, action);
      ByActionAppend(if rank(ops[0].action) == k then [ops[0]] else [], ByRank(ops[1..], rank, k), action);
      assert ByAction([ops[0]], action) == (if ops[0].action == action then [ops[0]] else []) + ByAction([], action);
    }
  }

  lemma {:induction false} ByRankNone(ops: seq<Op>, rank: Action -> nat, k: nat)
    requires forall i :: 0 <= i < |ops| ==> rank(ops[i].action) != k
    ensures ByRank(ops, rank, k) == []
  {
    if ops != [] {
      ByRankNone(ops[1..], rank, k);
    }
  }

  lemma RankedTail(ops: seq<Op>, rank: Action -> nat, low: nat, high: nat)
    requires ops != [] && Ranked(ops, rank) && RanksWithin(ops, rank, low, high)
    ensures Ranked(ops[1..], rank) && RanksWithin(ops[1..], rank, low, high)
    ensures rank(ops[0].action) > low ==> RanksWithin(ops, rank, low + 1, high)
  {
  }

  /** Ranked operations are the operations of each rank, one rank after the other. */
  lemma {:induction false} TakeRank(ops: seq<Op>, rank: Action -> nat, k: nat, high: nat) returns (rest: seq<Op>)
    requires Ranked(ops, rank) && RanksWithin(ops, rank, k, high)
    ensures ops == ByRank(ops, rank, k) + rest && Ranked(rest, rank) && RanksWithin(rest, rank, k + 1, high)
    ensures forall j :: j > k ==> ByRank(rest, rank, j) == ByRank(ops, rank, j)
    decreases |ops|
  {
    if ops == [] {
      rest := [];
    } else {
      RankedTail(ops, rank, k, high);
      if rank(ops[0].action) == k {
        rest := TakeRank(ops[1..], rank, k, high);
        assert ByRank(ops, rank, k) == [ops[0]] + ByRank(ops[1..], rank, k);
        assert ops == [ops[0]] + ops[1..];
      } else {
        ByRankNone(ops, rank, k);
        rest := ops;
      }
    }
  }

  /** The operations of the ranks from `k` to below `n`, rank by rank. */
  ghost function SegmentsFrom(ops: seq<Op>, rank: Action -> nat, k: nat, n: nat): seq<seq<Op>>
    requires k <= n
  {
    seq(n - k, i requires 0 <= i < n - k => ByRank(ops, rank, k + i))
  }

  lemma SegmentsRest(ops: seq<Op>, rest: seq<Op>, rank: Action -> nat, k: nat, n: nat)
    requires k < n && forall j :: j > k ==> ByRank(rest, rank, j) == ByRank(ops, rank, j)
    ensures SegmentsFrom(ops, rank, k, n)[0] == ByRank(ops, rank, k)
    ensures SegmentsFrom(ops, rank, k, n)[1..] == SegmentsFrom(rest, rank, k + 1, n)
  {
  }

  lemma {:induction false} RankedIsConcat(ops: seq<Op>, rank: Action -> nat, k: nat, n: nat)
    requires k <= n && Ranked(ops, rank) && RanksWithin(ops, rank, k, n)
    ensures ops == Concat(SegmentsFrom(ops, rank, k, n))
    decreases n - k
  {
    if k < n {
      var rest := TakeRank(ops, rank, k, n);
      RankedIsConcat(rest, rank, k + 1, n);
      SegmentsRest(ops, rest, rank, k, n);
      var segments := SegmentsFrom(ops, rank, k, n);
      assert Concat(segments) == segments[0] + Concat(segments[1..]);
    } else {
      EmptyWithoutMembers(ops);
    }
  }

  ghost predicate HasRanks(parts: seq<seq<Op>>, rank: Action -> nat, k: nat) {
    forall i :: 0 <= i < |parts| ==> OfRank(parts[i], rank, k + i)
  }

  function One(op: Op, rank: Action -> nat, k: nat): seq<Op> {
    if rank(op.action) == k then [op] else []
  }

  lemma {:induction false} ByRankCons(op: Op, rest: seq<Op>, rank: Action -> nat, k: nat)
    ensures ByRank([op] + rest, rank, k) == One(op, rank, k) + ByRank(rest, rank, k)
  {
    assert ([op] + rest)[1..] == rest;
  }

  lemma {:induction false} ByRankAppend(a: seq<Op>, b: seq<Op>, rank: Action -> nat, k: nat)
    ensures ByRank(a + b, rank, k) == ByRank(a, rank, k) + ByRank(b, rank, k)
  {
    if a == [] {
      assert a + b == b;
    } else {
      ByRankAppend(a[1..], b, rank, k);
      assert a + b == [a[0]] + (a[1..] + b) && a == [a[0]] + a[1..];
      ByRankCons(a[0], a[1..] + b, rank, k);
      ByRankCons(a[0], a[1..], rank, k);
    }
  }

  lemma {:induction false} ByRankOf(ops: seq<Op>, rank: Action -> nat, k: nat)
    requires OfRank(ops, rank, k)
    ensures ByRank(ops, rank, k) == ops
  {
    if ops != [] {
      ByRankOf(ops[1..], rank, k);
    }
  }

  lemma HasRanksRest(parts: seq<seq<Op>>, rank: Action -> nat, k: nat)
    requires HasRanks(parts, rank, k) && parts != []
    ensures OfRank(parts[0], rank, k) && HasRanks(parts[1..], rank, k + 1)
  {
    assert OfRank(parts[0], rank, k + 0);
    forall i | 0 <= i < |parts| - 1 ensures OfRank(parts[1..][i], rank, k + 1 + i) {
      assert OfRank(parts[i + 1], rank, k + (i + 1));
    }
  }

  lemma RankedJoin(first: seq<Op>, rest: seq<Op>, rank: Action -> nat, k: nat, high: nat)
    requires OfRank(first, rank, k) && Ranked(rest, rank) && RanksWithin(rest, rank, k + 1, high) && k < high
    ensures Ranked(first + rest, rank) && RanksWithin(first + rest, rank, k, high)
  {
    var ops := first + rest;
    forall i | 0 <= i < |ops| ensures k <= rank(ops[i].action) < high && (i < |first| ==> rank(ops[i].action) == k) {
      assert ops[i] == if i < |first| then first[i] else rest[i - |first|];
    }
    forall i, j | 0 <= i < j < |ops| ensures rank(ops[i].action) <= rank(ops[j].action) {
      if i >= |first| {
        assert ops[i] == rest[i - |first|] && ops[j] == rest[j - |first|];
      }
    }
  }

  lemma {:induction false} ByRankOfFirst(first: seq<Op>, rest: seq<Op>, rank: Action -> nat, k: nat, high: nat)
    requires OfRank(first, rank, k) && RanksWithin(rest, rank, k + 1, high)
    ensures ByRank(first + rest, rank, k) == first
  {
    ByRankAppend(first, rest, rank, k);
    ByRankOf(first, rank, k);
    ByRankNone(rest, rank, k);
  }

  lemma {:induction false} ByRankOfRest(first: seq<Op>, rest: seq<Op>, rank: Action -> nat, k: nat, m: nat)
    requires OfRank(first, rank, k) && m != k
    ensures ByRank(first + rest, rank, m) == ByRank(rest, rank, m)
  {
    ByRankAppend(first, rest, rank, m);
    ByRankNone(first, rank, m);
  }

  /** Parts of the ranks k, k + 1, … follow one another: the whole is ranked. */
  lemma {:induction false} ConcatIsRanked(parts: seq<seq<Op>>, rank: Action -> nat, k: nat)
    requires HasRanks(parts, rank, k)
    ensures Ranked(Concat(parts), rank) && RanksWithin(Concat(parts), rank, k, k + |parts|)
    decreases |parts|
  {
    if parts != [] {
      HasRanksRest(parts, rank, k);
      ConcatIsRanked(parts[1..], rank, k + 1);
      RankedJoin(parts[0], Concat(parts[1..]), rank, k, k + |parts|);
    }
  }

  /** And each part is found again. */
  lemma {:induction false} PartOfRank(parts: seq<seq<Op>>, rank: Action -> nat, k: nat, i: nat)
    requires HasRanks(parts, rank, k) && i < |parts|
    ensures ByRank(Concat(parts), rank, k + i) == parts[i]
    decreases |parts|
  {
    HasRanksRest(parts, rank, k);
    if i == 0 {
      ConcatIsRanked(parts[1..], rank, k + 1);
      ByRankOfFirst(parts[0], Concat(parts[1..]), rank, k, k + |parts|);
    } else {
      PartOfRank(parts[1..], rank, k + 1, i - 1);
      ByRankOfRest(parts[0], Concat(parts[1..]), rank, k, k + i);
    }
  }

  lemma {:induction false} ConcatOfRanks(parts: seq<seq<Op>>, rank: Action -> nat, k: nat)
    requires HasRanks(parts, rank, k)
    ensures Ranked(Concat(parts), rank) && RanksWithin(Concat(parts), rank, k, k + |parts|)
    ensures forall i :: 0 <= i < |parts| ==> ByRank(Concat(parts), rank, k + i) == parts[i]
  {
    ConcatIsRanked(parts, rank, k);
    forall i | 0 <= i < |parts| ensures ByRank(Concat(parts), rank, k + i) == parts[i] {
      PartOfRank(parts, rank, k, i);
    }
  }

  lemma {:induction false} ConcatSplit(parts: seq<seq<Op>>, k: nat)
    requires k < |parts|
    ensures Concat(parts) == Concat(parts[..k]) + parts[k] + Concat(parts[k + 1..])
  {
    if k == 0 {
      assert parts[..0] == [] && parts[0 + 1..] == parts[1..];
    } else {
      ConcatSplit(parts[1..], k - 1);
      assert parts[..k][1..] == parts[1..][..k - 1] && parts[1..][k..] == parts[k + 1..];
    }
  }

  lemma {:induction false} InConcat(parts: seq<seq<Op>>, op: Op)
    ensures op in Concat(parts) ==> exists i :: 0 <= i < |parts| && op in parts[i]
  {
    if parts != [] {
      InConcat(parts[1..], op);
      if i :| 0 <= i < |parts| - 1 && op in parts[1..][i] {
        assert op in parts[i + 1];
      }
    }
  }

  /** An order between actions of one rank is an order within that rank's part. */
  lemma {:induction false} OwnOrderOfRank(parts: seq<seq<Op>>, rank: Action -> nat, k: nat, first: Action, second: Action, key: Op -> string)
    requires HasRanks(parts, rank, 0) && k < |parts| && rank(first) == k && rank(second) == k
    ensures OwnOrder(Concat(parts), first, second, key) <==> OwnOrder(parts[k], first, second, key)
  {
    var pre, post := Concat(parts[..k]), Concat(parts[k + 1..]);
    ConcatSplit(parts, k);
    forall op: Op | op in pre + post ensures rank(op.action) != k {
      InConcat(parts[..k], op);
      InConcat(parts[k + 1..], op);
      var i :| 0 <= i < |parts| && i != k && op in parts[i];
      assert OfRank(parts[i], rank, 0 + i);
    }
    if OwnOrder(Concat(parts), first, second, key) {
      OwnOrderOfMiddle(pre, parts[k], post, first, second, key);
    }
    if OwnOrder(parts[k], first, second, key) {
      OwnOrderInMiddle(pre, parts[k], post, first, second, key);
    }
  }

  lemma OwnOrderOfMiddle(pre: seq<Op>, mid: seq<Op>, post: seq<Op>, first: Action, second: Action, key: Op -> string)
    requires OwnOrder(pre + mid + post, first, second, key)
    ensures OwnOrder(mid, first, second, key)
  {
    var ops, n := pre + mid + post, |pre|;
    assert forall i :: 0 <= i < |mid| ==> ops[n + i] == mid[i];
    forall i, j | 0 <= i < |mid| && 0 <= j < |mid| && mid[i].action == first && mid[j].action == second
                  && key(mid[i]) == key(mid[j])
      ensures i < j
    {
      assert ops[n + i] == mid[i] && ops[n + j] == mid[j];
    }
  }

  lemma OwnOrderInMiddle(pre: seq<Op>, mid: seq<Op>, post: seq<Op>, first: Action, second: Action, key: Op -> string)
    requires forall op :: op in pre + post ==> op.action != first && op.action != second
    requires OwnOrder(mid, first, second, key)
    ensures OwnOrder(pre + mid + post, first, second, key)
  {
    var ops, n := pre + mid + post, |pre|;
    forall i, j | 0 <= i < |ops| && 0 <= j < |ops| && ops[i].action == first && ops[j].action == second
                  && key(ops[i]) == key(ops[j])
      ensures i < j
    {
      assert mid[i - n] == ops[i] && mid[j - n] == ops[j];
    }
  }

  /** For each key, the last place at which the action has it. */
  ghost predicate LastPlaces(ops: seq<Op>, action: Action, key: Op -> string, places: map<string, nat>) {
    LastPlacesUpTo(ops, |ops|, action, key, places)
  }

  ghost predicate LastPlacesUpTo(ops: seq<Op>, n: nat, action: Action, key: Op -> string, places: map<string, nat>)
    requires n <= |ops|
  {
    && (forall k :: k in places ==> places[k] < n && ops[places[k]].action == action && key(ops[places[k]]) == k)
    && (forall i :: 0 <= i < n && ops[i].action == action ==> key(ops[i]) in places && i <= places[key(ops[i])])
  }

  method MapByIndex(ops: seq<Op>, action: Action, key: Op -> string) returns (places: map<string, nat>)
    ensures LastPlaces(ops, action, key, places)
  {
    places := map[];
    for n := 0 to |ops|
      invariant LastPlacesUpTo(ops, n, action, key, places)
    {
      if ops[n].action == action {
        places := places[key(ops[n]) := n];
      }
    }
  }

  /** The operations `first` and `second` on the same key come in that order. */
  ghost predicate OwnOrder(ops: seq<Op>, first: Action, second: Action, key: Op -> string) {
    forall i, j | 0 <= i < |ops| && 0 <= j < |ops| && ops[i].action == first && ops[j].action == second ::
      key(ops[i]) == key(ops[j]) ==> i < j
  }

  function DestinationOf(op: Op): string { op.destination }

  function ResourceOf(op: Op): string { op.resource }

  function IdOf(op: Op): string { op.id }

  function KeysOf(ops: seq<Op>, action: Action, key: Op -> string): seq<string> {
    Keys(ByAction(ops, action), key)
  }

  function Keys(ops: seq<Op>, key: Op -> string): seq<string> {
    seq(|ops|, i requires 0 <= i < |ops| => key(ops[i]))
  }

  /** An operation whose key is unique among those of its action is found at one place only. */
  lemma UniquePlace(ops: seq<Op>, action: Action, key: Op -> string, i: nat, j: nat)
    requires Distinct(KeysOf(ops, action, key)) && i < |ops| && j < |ops|
    requires ops[i].action == action && ops[j].action == action && key(ops[i]) == key(ops[j])
    ensures i == j
  {
    if i < j {
      SameKeyTwice(ops, action, key, i, j);
    } else if j < i {
      SameKeyTwice(ops, action, key, j, i);
    }
  }

  lemma SameKeyTwice(ops: seq<Op>, action: Action, key: Op -> string, i: nat, j: nat)
    requires i < j < |ops| && ops[i].action == action && ops[j].action == action && key(ops[i]) == key(ops[j])
    ensures !Distinct(KeysOf(ops, action, key))
  {
    var front, back := ByAction(ops[..i + 1], action), ByAction(ops[i + 1..], action);
    assert ops == ops[..i + 1] + ops[i + 1..];
    ByActionAppend(ops[..i + 1], ops[i + 1..], action);
    assert ops[..i + 1][i] == ops[i] && ops[i + 1..][j - i - 1] == ops[j];
    InByAction(ops[..i + 1], action, ops[i]);
    InByAction(ops[i + 1..], action, ops[j]);
    NotDistinctKeys(front, back, key, ops[i], ops[j]);
  }

  lemma NotDistinctKeys(front: seq<Op>, back: seq<Op>, key: Op -> string, x: Op, y: Op)
    requires x in front && y in back && key(x) == key(y)
    ensures !Distinct(Keys(front + back, key))
  {
    var a :| 0 <= a < |front| && front[a] == x;
    var b :| 0 <= b < |back| && back[b] == y;
    assert Keys(front + back, key)[a] == Keys(front + back, key)[|front| + b];
  }

  lemma KeysOfMembers(ops: seq<Op>, action: Action, key: Op -> string, k: string)
    ensures k in KeysOf(ops, action, key) <==> exists i :: 0 <= i < |ops| && ops[i].action == action && key(ops[i]) == k
  {
    var picked := ByAction(ops, action);
    if k in KeysOf(ops, action, key) {
      var a :| 0 <= a < |picked| && KeysOf(ops, action, key)[a] == k;
      InByAction(ops, action, picked[a]);
      var i :| 0 <= i < |ops| && ops[i] == picked[a];
    }
    if i :| 0 <= i < |ops| && ops[i].action == action && key(ops[i]) == k {
      InByAction(ops, action, ops[i]);
      var a :| 0 <= a < |picked| && picked[a] == ops[i];
      assert KeysOf(ops, action, key)[a] == k;
    }
  }

  lemma OwnOrderByPlaces(ops: seq<Op>, first: Action, second: Action, key: Op -> string,
                         firsts: map<string, nat>, seconds: map<string, nat>)
    requires first != second && LastPlaces(ops, first, key, firsts) && LastPlaces(ops, second, key, seconds)
    requires Distinct(KeysOf(ops, first, key)) && Distinct(KeysOf(ops, second, key))
    requires forall k :: k in seconds && k in firsts ==> firsts[k] <= seconds[k]
    ensures OwnOrder(ops, first, second, key)
  {
    forall i, j | 0 <= i < |ops| && 0 <= j < |ops| && ops[i].action == first && ops[j].action == second
                  && key(ops[i]) == key(ops[j])
      ensures i < j
    {
      UniquePlace(ops, first, key, i, firsts[key(ops[i])]);
      UniquePlace(ops, second, key, j, seconds[key(ops[j])]);
    }
  }

  /** The per-key predecessor check of both validators. */
  method CheckOwnOrder(ops: seq<Op>, first: Action, second: Action, key: Op -> string) returns (late: seq<string>)
    requires first != second
    ensures late == [] && Distinct(KeysOf(ops, first, key)) && Distinct(KeysOf(ops, second, key)) ==>
              OwnOrder(ops, first, second, key)
    ensures OwnOrder(ops, first, second, key) ==> late == []
  {
    var firsts := MapByIndex(ops, first, key);
    var seconds := MapByIndex(ops, second, key);
    late := [];
    var todo := seconds.Keys;
    while todo != {}
      invariant todo <= seconds.Keys
      invariant late == [] <==> forall k :: k in seconds && k !in todo && k in firsts ==> firsts[k] <= seconds[k]
    {
      var k :| k in todo;
      if k in firsts && seconds[k] < firsts[k] {
        late := late + [k];
      }
      todo := todo - {k};
    }
    if late == [] && Distinct(KeysOf(ops, first, key)) && Distinct(KeysOf(ops, second, key)) {
      OwnOrderByPlaces(ops, first, second, key, firsts, seconds);
    }
  }

  // The checks by index, each with what it means: one kind of operation comes before another.

  /** Some `b` lies before the first `one`. */
  predicate SomeBeforeFirst(ops: seq<Op>, b: Action, one: Action): (r: bool)
    ensures |ByAction(ops, one)| == 1 && one != b ==> (r <==> !Before(ops, one, b))
  {
    var at := IndexOfAction(ops, one);
    var r := at >= 0 && exists i :: i in IndicesOfAction(ops, b) && i < at;
    assert |ByAction(ops, one)| == 1 && one != b ==> (r <==> !Before(ops, one, b)) by {
      if |ByAction(ops, one)| == 1 && one != b {
        OnlyPlace(ops, one);
        SomeBefore(ops, b, one);
      }
    }
    r
  }

  /** Some `b` lies after the first `one`. */
  predicate SomeAfterFirst(ops: seq<Op>, b: Action, one: Action): (r: bool)
    ensures |ByAction(ops, one)| == 1 && one != b ==> (r <==> !Before(ops, b, one))
  {
    var at := IndexOfAction(ops, one);
    var r := at >= 0 && exists i :: i in IndicesOfAction(ops, b) && i > at;
    assert |ByAction(ops, one)| == 1 && one != b ==> (r <==> !Before(ops, b, one)) by {
      if |ByAction(ops, one)| == 1 && one != b {
        OnlyPlace(ops, one);
        SomeAfter(ops, b, one);
      }
    }
    r
  }

  /** The first `one` lies before the last `b`. */
  predicate FirstBeforeLast(ops: seq<Op>, one: Action, b: Action): (r: bool)
    ensures |ByAction(ops, one)| == 1 && one != b ==> (r <==> !Before(ops, b, one))
  {
    var at := IndexOfAction(ops, one);
    var last := MaxOf(IndicesOfAction(ops, b));
    assert at >= 0 && at < last ==> last in IndicesOfAction(ops, b);
    assert (at >= 0 && at < last) <==> SomeAfterFirst(ops, b, one);
    at >= 0 && at < last
  }

  /** Some `b` lies before the last `a`. */
  predicate SomeBeforeLast(ops: seq<Op>, b: Action, a: Action): (r: bool)
    ensures a != b ==> (r <==> !Before(ops, a, b))
  {
    var last := MaxOf(IndicesOfAction(ops, a));
    var r := exists j :: j in IndicesOfAction(ops, b) && j < last;
    assert a != b ==> (r <==> !Before(ops, a, b)) by {
      if !Before(ops, a, b) && a != b {
        var i, j :| 0 <= i < |ops| && 0 <= j < |ops| && ops[i].action == a && ops[j].action == b && j <= i;
        assert i in IndicesOfAction(ops, a) && j in IndicesOfAction(ops, b);
      }
      if j :| j in IndicesOfAction(ops, b) && j < last {
        assert last in IndicesOfAction(ops, a);
      }
    }
    r
  }

  /** The last `a` lies after the first `b`. */
  predicate LastAfterFirst(ops: seq<Op>, a: Action, b: Action): (r: bool)
    ensures a != b ==> (r <==> !Before(ops, a, b))
  {
    var last, first := MaxOf(IndicesOfAction(ops, a)), MinOf(IndicesOfAction(ops, b), |ops|);
    assert last > first ==> first in IndicesOfAction(ops, b);
    assert last > first <==> SomeBeforeLast(ops, b, a);
    last > first
  }

  /** The first `one` lies after the first `other`. */
  predicate FirstAfterFirst(ops: seq<Op>, one: Action, other: Action): (r: bool)
    ensures |ByAction(ops, one)| == 1 && |ByAction(ops, other)| == 1 && one != other ==> (r <==> !Before(ops, one, other))
  {
    var a, b := IndexOfAction(ops, one), IndexOfAction(ops, other);
    assert |ByAction(ops, one)| == 1 && |ByAction(ops, other)| == 1 && one != other ==>
        (a >= 0 && b >= 0 && a > b <==> !Before(ops, one, other)) by {
      if |ByAction(ops, one)| == 1 && |ByAction(ops, other)| == 1 {
        OnlyPlace(ops, one);
        OnlyPlace(ops, other);
      }
    }
    a >= 0 && b >= 0 && a > b
  }

  /** The first `one` lies after the first `b`, wherever the others are. */
  predicate FirstAfterMin(ops: seq<Op>, one: Action, b: Action): (r: bool)
    ensures |ByAction(ops, one)| == 1 && one != b ==> (r <==> !Before(ops, one, b))
  {
    var at, first := IndexOfAction(ops, one), MinOf(IndicesOfAction(ops, b), |ops|);
    assert at >= 0 && at > first ==> first in IndicesOfAction(ops, b);
    assert (at >= 0 && at > first) <==> SomeBeforeFirst(ops, b, one);
    at >= 0 && at > first
  }

  lemma {:induction false} OnlyPlace(ops: seq<Op>, one: Action)
    requires |ByAction(ops, one)| == 1
    ensures IndexOfAction(ops, one) >= 0
    ensures forall j :: 0 <= j < |ops| && ops[j].action == one ==> j == IndexOfAction(ops, one)
  {
    var i := PlaceOf(ops, one);
    if IndexOfAction(ops, one) >= 0 {
      forall j | 0 <= j < |ops| && ops[j].action == one ensures j == IndexOfAction(ops, one) {
        ExactlyOne(ops, one, IndexOfAction(ops, one), j);
      }
    }
  }

  lemma {:induction false} SomeBefore(ops: seq<Op>, b: Action, one: Action)
    requires one != b && IndexOfAction(ops, one) >= 0
    requires forall j :: 0 <= j < |ops| && ops[j].action == one ==> j == IndexOfAction(ops, one)
    ensures (exists i :: i in IndicesOfAction(ops, b) && i < IndexOfAction(ops, one)) <==> !Before(ops, one, b)
  {
    if !Before(ops, one, b) {
      var i, j :| 0 <= i < |ops| && 0 <= j < |ops| && ops[i].action == one && ops[j].action == b && j <= i;
      assert j in IndicesOfAction(ops, b);
    }
  }

  lemma {:induction false} SomeAfter(ops: seq<Op>, b: Action, one: Action)
    requires one != b && IndexOfAction(ops, one) >= 0
    requires forall j :: 0 <= j < |ops| && ops[j].action == one ==> j == IndexOfAction(ops, one)
    ensures (exists i :: i in IndicesOfAction(ops, b) && i > IndexOfAction(ops, one)) <==> !Before(ops, b, one)
  {
    if !Before(ops, b, one) {
      var i, j :| 0 <= i < |ops| && 0 <= j < |ops| && ops[i].action == b && ops[j].action == one && j <= i;
      assert i in IndicesOfAction(ops, b);
    }
  }

  lemma {:induction false} ByActionMember(ops: seq<Op>, action: Action, i: nat)
    requires i < |ByAction(ops, action)|
    ensures ByAction(ops, action)[i].action == action && ByAction(ops, action)[i] in ops
  {
    InByAction(ops, action, ByAction(ops, action)[i]);
  }

  lemma {:induction false} ByRankMember(ops: seq<Op>, rank: Action -> nat, k: nat, op: Op)
    ensures op in ByRank(ops, rank, k) ==> op in ops && rank(op.action) == k
  {
    if ops != [] {
      ByRankMember(ops[1..], rank, k, op);
    }
  }

  lemma PlaceOf(ops: seq<Op>, action: Action) returns (i: nat)
    requires ByAction(ops, action) != []
    ensures i < |ops| && ops[i].action == action
  {
    var op := ByAction(ops, action)[0];
    InByAction(ops, action, op);
    i :| i < |ops| && ops[i] == op;
  }

  predicate Once(ops: seq<Op>, actions: seq<Action>) {
    forall a :: a in actions ==> |ByAction(ops, a)| == 1
  }

  predicate AtLeastOnce(ops: seq<Op>, actions: seq<Action>) {
    forall a :: a in actions ==> ByAction(ops, a) != []
  }

  method CheckOnce(ops: seq<Op>, actions: seq<Action>) returns (violations: seq<string>)
    ensures violations == [] <==> Once(ops, actions)
  {
    violations := [];
    for i := 0 to |actions|
      invariant violations == [] <==> forall j :: 0 <= j < i ==> |ByAction(ops, actions[j])| == 1
    {
      if |ByAction(ops, actions[i])| != 1 {
        violations := violations + ["expected exactly one operation of this action"];
      }
    }
  }

  method CheckSome(ops: seq<Op>, actions: seq<Action>) returns (violations: seq<string>)
    ensures violations == [] <==> AtLeastOnce(ops, actions)
  {
    violations := [];
    for i := 0 to |actions|
      invariant violations == [] <==> forall j :: 0 <= j < i ==> ByAction(ops, actions[j]) != []
    {
      if |ByAction(ops, actions[i])| == 0 {
        violations := violations + ["expected at least one operation of this action"];
      }
    }
  }

  lemma {:induction false} FirstIsOnly(ops: seq<Op>, one: Action, a: Action)
    requires |ByAction(ops, one)| == 1 && ops != [] && ops[0].action == one && a != one
    ensures Before(ops, one, a)
  {
    forall i | 0 <= i < |ops| && ops[i].action == one ensures i == 0 {
      ExactlyOne(ops, one, 0, i);
    }
  }

  lemma {:induction false} LastIsOnly(ops: seq<Op>, one: Action, a: Action)
    requires |ByAction(ops, one)| == 1 && ops != [] && ops[|ops| - 1].action == one && a != one
    ensures Before(ops, a, one)
  {
    forall i | 0 <= i < |ops| && ops[i].action == one ensures i == |ops| - 1 {
      ExactlyOne(ops, one, |ops| - 1, i);
    }
  }

}
