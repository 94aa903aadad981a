/** What the recorded events of one step say about it (scripts/operation-journal.mjs). */
module StepHistory {
  import opened Sequences

  datatype Phase = Started | Succeeded | Failed

  datatype Event = Event(operation: string, step: string, attempt: int, phase: Phase)

  datatype Resumption = Run | Skip | Blocked | FailedBefore | Corrupted

  /** The event history of attempt `a`, when it ended with the phases `phases`. */
  ghost predicate Attempt(events: seq<Event>, a: int, phases: seq<Phase>) {
    |events| == |phases| && forall i :: 0 <= i < |events| ==> events[i].attempt == a && events[i].phase == phases[i]
  }

  /** How the last attempt can end, and what that means. */
  predicate LastPhases(phases: seq<Phase>, r: Resumption) {
    || (phases == [Started] && r == Blocked)
    || (phases == [Started, Succeeded] && r == Skip)
    || (phases == [Started, Failed] && r == FailedBefore)
  }

  /** The same decision read off the events from front to back: they begin with attempt `a`. */
  function Resume(events: seq<Event>, a: int): Resumption {
    if events == [] || events[0].attempt != a || events[0].phase != Started then Corrupted
    else if |events| == 1 then Blocked
    else if events[1].attempt != a then Corrupted
    else if |events| == 2 then
      match events[1].phase
      case Started => Corrupted
      case Succeeded => Skip
      case Failed => FailedBefore
    else if events[1].phase == Failed then Resume(events[2..], a + 1)
    else Corrupted
  }

  function Decide(events: seq<Event>): Resumption {
    if events == [] then Run else Resume(events, 1)
  }

  /** The test the last loop makes of one attempt. */
  predicate AttemptRefused(phases: seq<Phase>, isFinal: bool)
    requires phases != []
  {
    || |phases| > 2
    || phases[0] != Started
    || (|phases| == 2 && phases[1] != Succeeded && phases[1] != Failed)
    || (!isFinal && !(|phases| == 2 && phases[1] == Failed))
  }

  function Judge(phases: seq<Phase>): Resumption {
    if |phases| == 2 && phases[1] == Succeeded then Skip
    else if |phases| == 2 && phases[1] == Failed then FailedBefore
    else Blocked
  }

  /** What one attempt means for the events that it begins. */
  lemma {:induction false} ResumeOfBlock(block: seq<Event>, rest: seq<Event>, a: int, phases: seq<Phase>)
    requires Attempt(block, a, phases) && phases != []
    requires rest != [] ==> rest[0].attempt != a
    ensures Resume(block + rest, a) ==
            if AttemptRefused(phases, rest == []) then Corrupted
            else if rest == [] then Judge(phases)
            else Resume(rest, a + 1)
  {
    var events := block + rest;
    assert events[0] == block[0];
    if |phases| == 1 {
      assert rest != [] ==> events[1] == rest[0];
    } else if |phases| == 2 {
      assert events[1] == block[1] && events[2..] == rest;
    } else {
      assert events[1] == block[1] && events[2..][0] == block[2];
    }
  }

  /** `blocks[k]` are the events of attempt `a + k`; all but the last one failed. */
  ghost predicate CleanFrom(blocks: seq<seq<Event>>, a: int, r: Resumption) {
    && blocks != []
    && (forall k :: 0 <= k < |blocks| - 1 ==> Attempt(blocks[k], a + k, [Started, Failed]))
    && exists phases :: LastPhases(phases, r) && Attempt(blocks[|blocks| - 1], a + |blocks| - 1, phases)
  }

  lemma CleanRest(blocks: seq<seq<Event>>, a: int, r: Resumption)
    requires CleanFrom(blocks, a, r) && |blocks| > 1
    ensures CleanFrom(blocks[1..], a + 1, r)
    ensures Concat(blocks[1..]) != [] && Concat(blocks[1..])[0].attempt == a + 1
  {
    var rest := blocks[1..];
    var phases :| LastPhases(phases, r) && Attempt(blocks[|blocks| - 1], a + |blocks| - 1, phases);
    assert rest[|rest| - 1] == blocks[|blocks| - 1];
    assert forall k :: 0 <= k < |rest| ==> rest[k] == blocks[k + 1];
    assert Concat(rest) == rest[0] + Concat(rest[1..]);
  }

  lemma {:induction false} ResumeOfClean(blocks: seq<seq<Event>>, a: int, r: Resumption)
    requires CleanFrom(blocks, a, r)
    ensures Resume(Concat(blocks), a) == r && r != Corrupted
    decreases |blocks|
  {
    assert Concat(blocks) == blocks[0] + Concat(blocks[1..]);
    if |blocks| == 1 {
      var phases :| LastPhases(phases, r) && Attempt(blocks[0], a, phases);
      ResumeOfBlock(blocks[0], [], a, phases);
    } else {
      CleanRest(blocks, a, r);
      ResumeOfClean(blocks[1..], a + 1, r);
      ResumeOfBlock(blocks[0], Concat(blocks[1..]), a, [Started, Failed]);
    }
  }

  lemma {:induction false} CleanPrefixed(first: seq<Event>, rest: seq<seq<Event>>, a: int, r: Resumption)
    requires CleanFrom(rest, a + 1, r) && Attempt(first, a, [Started, Failed])
    ensures CleanFrom([first] + rest, a, r) && Concat([first] + rest) == first + Concat(rest)
  {
    var blocks := [first] + rest;
    var phases :| LastPhases(phases, r) && Attempt(rest[|rest| - 1], a + 1 + |rest| - 1, phases);
    assert blocks[|blocks| - 1] == rest[|rest| - 1] && blocks[1..] == rest;
    forall k | 0 <= k < |blocks| - 1 ensures Attempt(blocks[k], a + k, [Started, Failed]) {
      if k > 0 {
        assert Attempt(rest[k - 1], a + 1 + (k - 1), [Started, Failed]);
      }
    }
  }

  lemma {:induction false} CleanOfResume(events: seq<Event>, a: int) returns (blocks: seq<seq<Event>>)
    requires Resume(events, a) != Corrupted
    ensures CleanFrom(blocks, a, Resume(events, a)) && events == Concat(blocks)
    decreases |events|
  {
    if |events| <= 2 {
      blocks := [events];
      assert Concat(blocks) == events + [];
      var phases := if |events| == 1 then [Started] else [Started, events[1].phase];
      assert LastPhases(phases, Resume(events, a)) && Attempt(events, a, phases);
    } else {
      var rest := CleanOfResume(events[2..], a + 1);
      CleanPrefixed(events[..2], rest, a, Resume(events, a));
      assert events == events[..2] + events[2..];
      blocks := [events[..2]] + rest;
    }
  }

  /** Exactness: a history is trusted exactly when it is empty or made of failed attempts
      1, 2, ... followed by one last attempt, and that last attempt decides. */
  lemma DecideExact(events: seq<Event>, r: Resumption)
    requires r != Corrupted
    ensures Decide(events) == r <==>
            (events == [] && r == Run) || exists blocks :: CleanFrom(blocks, 1, r) && events == Concat(blocks)
  {
    if events != [] && Resume(events, 1) == r {
      var blocks := CleanOfResume(events, 1);
    }
    if blocks :| CleanFrom(blocks, 1, r) && events == Concat(blocks) {
      ResumeOfClean(blocks, 1, r);
    }
  }

  lemma {:induction false} TrustedAttemptsAscend(events: seq<Event>, a: int)
    requires Resume(events, a) != Corrupted
    ensures forall i :: 0 <= i < |events| ==> a <= events[i].attempt
    ensures forall i, j :: 0 <= i < j < |events| ==> events[i].attempt <= events[j].attempt
    decreases |events|
  {
    if |events| > 2 {
      TrustedAttemptsAscend(events[2..], a + 1);
      assert forall i :: 2 <= i < |events| ==> events[i] == events[2..][i - 2];
    }
  }

  /** The grouping `byAttempt`: `blocks[k]` are the events of attempt `attempts[k]`. */
  ghost predicate Grouped(blocks: seq<seq<Event>>, attempts: seq<int>, byAttempt: map<int, seq<Phase>>) {
    && |blocks| == |attempts|
    && (forall a :: a in byAttempt <==> a in attempts)
    && (forall j, k :: 0 <= j < k < |attempts| ==> attempts[j] < attempts[k])
    && forall k :: 0 <= k < |blocks| ==> blocks[k] != [] && Attempt(blocks[k], attempts[k], byAttempt[attempts[k]])
  }

  lemma {:induction false} GapCorrupts(blocks: seq<seq<Event>>, attempts: seq<int>, byAttempt: map<int, seq<Phase>>, k: nat)
    requires Grouped(blocks, attempts, byAttempt) && k < |blocks|
    requires k < |attempts| && attempts[k] != k + 1
    requires forall j :: 0 <= j < k ==> attempts[j] == j + 1
    ensures Resume(Concat(blocks), 1) == Corrupted
  {
    CorruptFrom(blocks, attempts, byAttempt, 0, k);
    assert blocks[0..] == blocks;
  }

  /** The i-th attempt and what follows it. */
  lemma GroupedRest(blocks: seq<seq<Event>>, attempts: seq<int>, byAttempt: map<int, seq<Phase>>, i: nat)
    requires Grouped(blocks, attempts, byAttempt) && i < |blocks|
    ensures Attempt(blocks[i], attempts[i], byAttempt[attempts[i]]) && byAttempt[attempts[i]] != []
    ensures Concat(blocks[i..]) == blocks[i] + Concat(blocks[i + 1..]) && Concat(blocks[i..])[0].attempt == attempts[i]
    ensures if i + 1 < |blocks|
            then Concat(blocks[i + 1..]) != [] && Concat(blocks[i + 1..])[0].attempt == attempts[i + 1] > attempts[i]
            else Concat(blocks[i + 1..]) == []
  {
    assert blocks[i..][1..] == blocks[i + 1..];
    if i + 1 < |blocks| {
      assert blocks[i + 1..][0] == blocks[i + 1];
      assert attempts[i] < attempts[i + 1];
    }
  }

  lemma {:induction false} CorruptFrom(blocks: seq<seq<Event>>, attempts: seq<int>, byAttempt: map<int, seq<Phase>>, i: nat, k: nat)
    requires Grouped(blocks, attempts, byAttempt) && i <= k < |blocks|
    requires attempts[k] != k + 1
    requires forall j :: 0 <= j < k ==> attempts[j] == j + 1
    ensures Resume(Concat(blocks[i..]), i + 1) == Corrupted
    decreases k - i
  {
    GroupedRest(blocks, attempts, byAttempt, i);
    if i < k {
      CorruptFrom(blocks, attempts, byAttempt, i + 1, k);
      ResumeOfBlock(blocks[i], Concat(blocks[i + 1..]), i + 1, byAttempt[attempts[i]]);
    }
  }

  lemma GroupExtended(blocks: seq<seq<Event>>, attempts: seq<int>, byAttempt: map<int, seq<Phase>>, event: Event)
    requires Grouped(blocks, attempts, byAttempt) && attempts != []
    requires attempts[|attempts| - 1] == event.attempt
    ensures var last := |blocks| - 1;
            var blocks' := blocks[..last] + [blocks[last] + [event]];
            && Concat(blocks') == Concat(blocks) + [event]
            && Grouped(blocks', attempts, byAttempt[event.attempt := byAttempt[event.attempt] + [event.phase]])
  {
    var last := |blocks| - 1;
    ConcatSnoc(blocks[..last], blocks[last] + [event]);
    ConcatSnoc(blocks[..last], blocks[last]);
    assert blocks[..last] + [blocks[last]] == blocks;
    assert forall k :: 0 <= k < last ==> attempts[k] < attempts[last];
  }

  lemma {:induction false} GroupAdded(blocks: seq<seq<Event>>, attempts: seq<int>, byAttempt: map<int, seq<Phase>>, event: Event)
    requires Grouped(blocks, attempts, byAttempt)
    requires attempts != [] ==> attempts[|attempts| - 1] < event.attempt
    ensures Concat(blocks + [[event]]) == Concat(blocks) + [event]
    ensures Grouped(blocks + [[event]], attempts + [event.attempt], byAttempt[event.attempt := [event.phase]])
  {
    ConcatSnoc(blocks, [event]);
    assert forall k :: 0 <= k < |attempts| ==> attempts[k] != event.attempt;
  }

  ghost predicate Ascending(events: seq<Event>) {
    forall j, k :: 0 <= j < k < |events| ==> events[j].attempt <= events[k].attempt
  }

  method AttemptsAscend(events: seq<Event>) returns (ok: bool)
    ensures ok <==> Ascending(events) && (events != [] ==> 0 <= events[0].attempt)
  {
    var lastSeenAttempt := 0;
    for i := 0 to |events|
      invariant Ascending(events[..i])
      invariant lastSeenAttempt == if i == 0 then 0 else events[i - 1].attempt
      invariant i > 0 ==> 0 <= events[0].attempt
    {
      if events[i].attempt < lastSeenAttempt {
        return false;
      }
      lastSeenAttempt := events[i].attempt;
    }
    assert events[..|events|] == events;
    return true;
  }

  /** `byAttempt` and its keys in the order in which they were met. */
  method GroupByAttempt(events: seq<Event>)
    returns (attempts: seq<int>, byAttempt: map<int, seq<Phase>>, ghost blocks: seq<seq<Event>>)
    requires Ascending(events)
    ensures Grouped(blocks, attempts, byAttempt) && Concat(blocks) == events
    ensures attempts == [] <==> events == []
  {
    byAttempt, attempts, blocks := map[], [], [];
    for i := 0 to |events|
      invariant Grouped(blocks, attempts, byAttempt) && Concat(blocks) == events[..i]
      invariant attempts == [] <==> i == 0
      invariant i > 0 ==> attempts[|attempts| - 1] == events[i - 1].attempt
    {
      var event := events[i];
      assert events[..i + 1] == events[..i] + [event];
      if event.attempt !in byAttempt {
        GroupAdded(blocks, attempts, byAttempt, event);
        attempts := attempts + [event.attempt];
        byAttempt := byAttempt[event.attempt := [event.phase]];
        blocks := blocks + [[event]];
      } else {
        GroupExtended(blocks, attempts, byAttempt, event);
        byAttempt := byAttempt[event.attempt := byAttempt[event.attempt] + [event.phase]];
        blocks := blocks[..|blocks| - 1] + [blocks[|blocks| - 1] + [event]];
      }
    }
    assert events[..|events|] == events;
  }

  predicate GapFree(attempts: seq<int>) {
    forall k :: 0 <= k < |attempts| ==> attempts[k] == k + 1
  }

  method FindGap(attempts: seq<int>) returns (at: int)
    ensures at < 0 ==> GapFree(attempts)
    ensures at >= 0 ==> at < |attempts| && attempts[at] != at + 1 && forall j :: 0 <= j < at ==> attempts[j] == j + 1
  {
    for i := 0 to |attempts|
      invariant forall j :: 0 <= j < i ==> attempts[j] == j + 1
    {
      if attempts[i] != i + 1 {
        return i;
      }
    }
    return -1;
  }

  lemma JudgeAttempt(blocks: seq<seq<Event>>, attempts: seq<int>, byAttempt: map<int, seq<Phase>>, i: nat)
    requires Grouped(blocks, attempts, byAttempt) && GapFree(attempts) && i < |attempts|
    ensures var phases := byAttempt[attempts[i]];
            && phases != []
            && var here := Resume(Concat(blocks[i..]), i + 1);
               if AttemptRefused(phases, i == |attempts| - 1) then here == Corrupted
               else if i == |attempts| - 1 then here == Judge(phases)
               else here == Resume(Concat(blocks[i + 1..]), i + 2)
  {
    GroupedRest(blocks, attempts, byAttempt, i);
    ResumeOfBlock(blocks[i], Concat(blocks[i + 1..]), i + 1, byAttempt[attempts[i]]);
  }

  /** The decision, computed as the source does. Its sort of the attempt numbers is left out: by
      then every list in which they are not in ascending order has been refused. */
  method DecideStepResumption(events: seq<Event>) returns (r: Resumption)
    ensures r == Decide(events)
  {
    if |events| == 0 {
      return Run;
    }
    var ascend := AttemptsAscend(events);
    if !ascend {
      assert Decide(events) == Corrupted by {
        if Decide(events) != Corrupted {
          TrustedAttemptsAscend(events, 1);
        }
      }
      return Corrupted;
    }
    var attempts, byAttempt;
    ghost var blocks;
    attempts, byAttempt, blocks := GroupByAttempt(events);
    var gap := FindGap(attempts);
    if gap >= 0 {
      GapCorrupts(blocks, attempts, byAttempt, gap);
      return Corrupted;
    }
    assert blocks[0..] == blocks;
    for i := 0 to |attempts|
      invariant i < |attempts| ==> Decide(events) == Resume(Concat(blocks[i..]), i + 1)
      invariant i == |attempts| ==> Decide(events) == Judge(byAttempt[attempts[i - 1]])
    {
      JudgeAttempt(blocks, attempts, byAttempt, i);
      if AttemptRefused(byAttempt[attempts[i]], i == |attempts| - 1) {
        return Corrupted;
      }
    }
    return Judge(byAttempt[attempts[|attempts| - 1]]);
  }
}
