/** What the checks of backup and restore flows ask for, said of places in the list of operations. */
module FlowLaws {
  import opened Sequences
  import opened FlowOps

  /** There is one operation of this action, and no other. */
  ghost predicate OnlyOne(ops: seq<Op>, action: Action) {
    exists i :: OnlyAt(ops, action, i)
  }

  ghost predicate OnlyAt(ops: seq<Op>, action: Action, i: int) {
    && 0 <= i < |ops| && ops[i].action == action
    && forall j :: 0 <= j < |ops| && ops[j].action == action ==> j == i
  }

  lemma {:induction false} OnlyOneExactly(ops: seq<Op>, action: Action)
    ensures |ByAction(ops, action)| == 1 <==> OnlyOne(ops, action)
  {
    if |ByAction(ops, action)| == 1 {
      var i := PlaceOf(ops, action);
      forall j: nat | j < |ops| && ops[j].action == action ensures j == i {
        ExactlyOne(ops, action, i, j);
      }
      assert OnlyAt(ops, action, i);
    }
    if i :| OnlyAt(ops, action, i) {
      OneOfOne(ops, action, i);
    }
  }

  lemma {:induction false} OneOfOne(ops: seq<Op>, action: Action, i: nat)
    requires OnlyAt(ops, action, i)
    ensures |ByAction(ops, action)| == 1
  {
    assert forall j :: 1 <= j < |ops| ==> ops[1..][j - 1] == ops[j];
    if i == 0 {
      NoneOf(ops[1..], action);
    } else {
      OneOfOne(ops[1..], action, i - 1);
    }
  }

  lemma {:induction false} NoneOf(ops: seq<Op>, action: Action)
    ensures ByAction(ops, action) == [] <==> !Has(ops, action)
  {
    if ops != [] {
      NoneOf(ops[1..], action);
      assert forall j :: 1 <= j < |ops| ==> ops[1..][j - 1] == ops[j];
      if Has(ops[1..], action) {
        var j :| 0 <= j < |ops[1..]| && ops[1..][j].action == action;
        assert ops[j + 1].action == action;
      }
    }
  }

  /** No two operations of this action have the same resource. */
  ghost predicate ResourcesDiffer(ops: seq<Op>, action: Action) {
    forall i, j | 0 <= i < |ops| && 0 <= j < |ops| && ops[i].action == action && ops[j].action == action ::
      ops[i].resource == ops[j].resource ==> i == j
  }

  /** One operation of this action for each of these resources, and none for any other. */
  ghost predicate EachResourceOnce(ops: seq<Op>, action: Action, names: seq<string>) {
    && ResourcesDiffer(ops, action)
    && (forall i :: 0 <= i < |ops| && ops[i].action == action ==> ops[i].resource in names)
    && (forall n :: n in names ==> exists i :: 0 <= i < |ops| && ops[i].action == action && ops[i].resource == n)
  }

  ghost predicate DestinationsDiffer(ops: seq<Op>, action: Action) {
    forall i, j | 0 <= i < |ops| && 0 <= j < |ops| && ops[i].action == action && ops[j].action == action ::
      ops[i].destination == ops[j].destination ==> i == j
  }

  /** One operation of this action for each of these destinations, and none for any other. */
  ghost predicate EachDestinationOnce(ops: seq<Op>, action: Action, names: seq<string>) {
    && DestinationsDiffer(ops, action)
    && (forall i :: 0 <= i < |ops| && ops[i].action == action ==> ops[i].destination in names)
    && (forall n :: n in names ==> exists i :: 0 <= i < |ops| && ops[i].action == action && ops[i].destination == n)
  }

  ghost predicate KeysDiffer(ops: seq<Op>, action: Action, key: Op -> string) {
    forall i, j | 0 <= i < |ops| && 0 <= j < |ops| && ops[i].action == action && ops[j].action == action ::
      key(ops[i]) == key(ops[j]) ==> i == j
  }

  lemma {:induction false} DistinctKeysOf(ops: seq<Op>, action: Action, key: Op -> string)
    requires KeysDiffer(ops, action, key)
    ensures Distinct(KeysOf(ops, action, key))
  {
    if ops != [] {
      var rest := ops[1..];
      assert forall j :: 1 <= j < |ops| ==> rest[j - 1] == ops[j];
      DistinctKeysOf(rest, action, key);
      if ops[0].action == action && key(ops[0]) in KeysOf(rest, action, key) {
        KeysOfMembers(rest, action, key, key(ops[0]));
      }
      KeysOfCons(ops, action, key);
    }
  }

  lemma KeysOfCons(ops: seq<Op>, action: Action, key: Op -> string)
    requires ops != []
    ensures KeysOf(ops, action, key) == (if ops[0].action == action then [key(ops[0])] else []) + KeysOf(ops[1..], action, key)
  {
  }

  lemma KeysDifferExactly(ops: seq<Op>, action: Action, key: Op -> string)
    ensures Distinct(KeysOf(ops, action, key)) <==> KeysDiffer(ops, action, key)
  {
    if Distinct(KeysOf(ops, action, key)) {
      forall i: nat, j: nat | i < |ops| && j < |ops| && ops[i].action == action && ops[j].action == action
                              && key(ops[i]) == key(ops[j])
        ensures i == j
      {
        UniquePlace(ops, action, key, i, j);
      }
    } else if KeysDiffer(ops, action, key) {
      DistinctKeysOf(ops, action, key);
    }
  }

  lemma {:induction false} SameMembersSameKeys(a: seq<string>, b: seq<string>)
    requires Distinct(a) && Distinct(b) && forall k :: k in a <==> k in b
    ensures SameKeys(a, b)
  {
    forall k ensures multiset(a)[k] == multiset(b)[k] {
      OnceCounts(a, k);
      OnceCounts(b, k);
      assert (k in multiset(a) <==> k in a) && (k in multiset(b) <==> k in b);
    }
  }

  lemma {:induction false} OnceCounts(s: seq<string>, key: string)
    requires Distinct(s)
    ensures multiset(s)[key] <= 1
  {
    if s != [] {
      OnceCounts(s[1..], key);
      assert s == [s[0]] + s[1..];
      if s[0] == key {
        assert key !in s[1..];
        assert key !in multiset(s[1..]);
      }
    }
  }

  lemma DistinctOfSameKeys(a: seq<string>, b: seq<string>)
    requires SameKeys(a, b) && Distinct(a)
    ensures Distinct(b)
  {
    forall i, j | 0 <= i < j < |b| ensures b[i] != b[j] {
      if b[i] == b[j] {
        TwiceCounts(b, i, j);
        OnceCounts(a, b[i]);
        assert false;
      }
    }
  }

  lemma TwiceCounts(s: seq<string>, i: nat, j: nat)
    requires i < j < |s| && s[i] == s[j]
    ensures multiset(s)[s[i]] >= 2
  {
    assert s == s[..j] + [s[j]] + s[j + 1..];
    assert s[..j][i] in multiset(s[..j]);
  }

  ghost predicate EachKeyOnce(ops: seq<Op>, action: Action, key: Op -> string, names: seq<string>) {
    && KeysDiffer(ops, action, key)
    && (forall i :: 0 <= i < |ops| && ops[i].action == action ==> key(ops[i]) in names)
    && (forall n :: n in names ==> exists i :: 0 <= i < |ops| && ops[i].action == action && key(ops[i]) == n)
  }

  lemma NamesAreKeys(ops: seq<Op>, action: Action, key: Op -> string, names: seq<string>)
    ensures (forall n :: n in KeysOf(ops, action, key) <==> n in names) <==>
            && (forall i :: 0 <= i < |ops| && ops[i].action == action ==> key(ops[i]) in names)
            && (forall n :: n in names ==> exists i :: 0 <= i < |ops| && ops[i].action == action && key(ops[i]) == n)
  {
    forall n ensures n in KeysOf(ops, action, key) <==> exists i :: 0 <= i < |ops| && ops[i].action == action && key(ops[i]) == n {
      KeysOfMembers(ops, action, key, n);
    }
  }

  /** The keys are those names, each as often, exactly when each name is the key of one operation. */
  lemma EachKeyOnceExactly(ops: seq<Op>, action: Action, key: Op -> string, names: seq<string>)
    ensures Distinct(KeysOf(ops, action, key)) && SameKeys(KeysOf(ops, action, key), names) <==>
            EachKeyOnce(ops, action, key, names) && Distinct(names)
  {
    var keys := KeysOf(ops, action, key);
    KeysDifferExactly(ops, action, key);
    NamesAreKeys(ops, action, key, names);
    if Distinct(keys) && SameKeys(keys, names) {
      SameKeysMembers(keys, names);
      DistinctOfSameKeys(keys, names);
    }
    if EachKeyOnce(ops, action, key, names) && Distinct(names) {
      SameMembersSameKeys(keys, names);
    }
  }

  lemma EachResourceOnceExactly(ops: seq<Op>, action: Action, names: seq<string>)
    ensures Distinct(KeysOf(ops, action, ResourceOf)) && SameKeys(KeysOf(ops, action, ResourceOf), names) <==>
            EachResourceOnce(ops, action, names) && Distinct(names)
  {
    EachKeyOnceExactly(ops, action, ResourceOf, names);
  }

  lemma EachDestinationOnceExactly(ops: seq<Op>, action: Action, names: seq<string>)
    ensures Distinct(KeysOf(ops, action, DestinationOf)) && SameKeys(KeysOf(ops, action, DestinationOf), names) <==>
            EachDestinationOnce(ops, action, names) && Distinct(names)
  {
    EachKeyOnceExactly(ops, action, DestinationOf, names);
  }

  ghost predicate IdsDiffer(ops: seq<Op>) {
    forall i, j :: 0 <= i < j < |ops| ==> ops[i].id != ops[j].id
  }

  lemma IdsDifferExactly(ops: seq<Op>)
    ensures Distinct(Keys(ops, IdOf)) <==> IdsDiffer(ops)
  {
    forall i | 0 <= i < |ops| ensures Keys(ops, IdOf)[i] == ops[i].id {
      assert IdOf(ops[i]) == ops[i].id;
    }
  }
}
