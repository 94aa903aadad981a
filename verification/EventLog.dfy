/** The streaming check of an operation's whole event log (scripts/apply.mjs, readAndValidateEvents
    and groupByStep). */
module EventLog {
  import opened Sequences
  import opened StepHistory

  /** `new Map(plan.operations.map((operation, index) => [operation.id, index])).get(step)`. */
  function StepIndex(ids: seq<string>, step: string): (r: int)
    ensures r >= 0 <==> step in ids
    ensures r >= 0 ==> r < |ids| && ids[r] == step
  {
    if ids == [] then -1
    else if ids[|ids| - 1] == step then |ids| - 1
    else
      assert ids == ids[..|ids| - 1] + [ids[|ids| - 1]];
      StepIndex(ids[..|ids| - 1], step)
  }

  /** Of several operations with one id the last one counts, as in a Map. */
  lemma {:induction false} StepIndexIsLast(ids: seq<string>, step: string, j: nat)
    requires StepIndex(ids, step) < j < |ids|
    ensures ids[j] != step
  {
    if j < |ids| - 1 {
      StepIndexIsLast(ids[..|ids| - 1], step, j);
    }
  }

  ghost predicate AllOfStep(ids: seq<string>, block: seq<Event>, k: int) {
    forall i :: 0 <= i < |block| ==> StepIndex(ids, block[i].step) == k
  }

  /** `events` is one block of events per step, in plan order from the first step on, and every
      block but the last one records a success. */
  ghost predicate Blocks(ids: seq<string>, events: seq<Event>, blocks: seq<seq<Event>>) {
    && Concat(blocks) == events
    && (forall k :: 0 <= k < |blocks| ==> blocks[k] != [] && AllOfStep(ids, blocks[k], k))
    && (forall k :: 0 <= k < |blocks| - 1 ==> Decide(blocks[k]) == Skip)
  }

  ghost predicate InPlanOrder(ids: seq<string>, events: seq<Event>) {
    exists blocks :: Blocks(ids, events, blocks)
  }

  function ExtendLast(blocks: seq<seq<Event>>, event: Event): seq<seq<Event>>
    requires blocks != []
  {
    blocks[..|blocks| - 1] + [blocks[|blocks| - 1] + [event]]
  }

  lemma {:induction false} ConcatExtendLast(blocks: seq<seq<Event>>, event: Event)
    requires blocks != []
    ensures Concat(ExtendLast(blocks, event)) == Concat(blocks) + [event]
  {
    var last := |blocks| - 1;
    ConcatSnoc(blocks[..last], blocks[last]);
    ConcatSnoc(blocks[..last], blocks[last] + [event]);
    assert blocks == blocks[..last] + [blocks[last]];
  }

  lemma LastOfConcat(blocks: seq<seq<Event>>, events: seq<Event>, event: Event)
    requires blocks != [] && blocks[|blocks| - 1] != [] && Concat(blocks) == events + [event]
    ensures var n := |blocks| - 1;
            var last := blocks[n];
            last[|last| - 1] == event && Concat(blocks[..n]) + last[..|last| - 1] == events
  {
    var n := |blocks| - 1;
    var last := blocks[n];
    ConcatSnoc(blocks[..n], last);
    assert blocks == blocks[..n] + [last];
    assert (events + [event])[|events|] == event && (events + [event])[..|events|] == events;
    assert (Concat(blocks[..n]) + last)[..|events|] == Concat(blocks[..n]) + last[..|last| - 1];
  }

  lemma BlocksPrefix(ids: seq<string>, events: seq<Event>, blocks: seq<seq<Event>>, n: nat)
    requires Blocks(ids, events, blocks) && n <= |blocks|
    ensures Blocks(ids, Concat(blocks[..n]), blocks[..n])
  {
  }

  lemma ShortenLast(ids: seq<string>, events: seq<Event>, event: Event, blocks: seq<seq<Event>>)
    requires Blocks(ids, events + [event], blocks) && blocks != [] && |blocks[|blocks| - 1]| > 1
    ensures var n := |blocks| - 1;
            var before := blocks[..n] + [blocks[n][..|blocks[n]| - 1]];
            Blocks(ids, events, before) && blocks == ExtendLast(before, event)
  {
    var n := |blocks| - 1;
    var last := blocks[n];
    LastOfConcat(blocks, events, event);
    ConcatSnoc(blocks[..n], last[..|last| - 1]);
    assert last == last[..|last| - 1] + [event];
    assert forall i :: 0 <= i < |last| - 1 ==> last[..|last| - 1][i] == last[i];
  }

  /** Taking the last event away leaves the blocks of the rest. */
  lemma DropLastEvent(ids: seq<string>, events: seq<Event>, event: Event, blocks: seq<seq<Event>>)
    returns (before: seq<seq<Event>>)
    requires Blocks(ids, events + [event], blocks)
    ensures Blocks(ids, events, before)
    ensures (before != [] && blocks == ExtendLast(before, event)) || blocks == before + [[event]]
  {
    var n := |blocks| - 1;
    var last := blocks[n];
    if |last| == 1 {
      LastOfConcat(blocks, events, event);
      BlocksPrefix(ids, events + [event], blocks, n);
      before := blocks[..n];
      assert Concat(before) + [] == Concat(before);
      assert last == [event] && blocks == before + [last];
    } else {
      ShortenLast(ids, events, event, blocks);
      before := blocks[..n] + [last[..|last| - 1]];
    }
  }

  lemma {:induction false} BlocksUnique(ids: seq<string>, events: seq<Event>, a: seq<seq<Event>>, b: seq<seq<Event>>)
    requires Blocks(ids, events, a) && Blocks(ids, events, b)
    ensures a == b
    decreases |events|
  {
    if events != [] {
      var n := |events| - 1;
      assert events == events[..n] + [events[n]];
      var a' := DropLastEvent(ids, events[..n], events[n], a);
      var b' := DropLastEvent(ids, events[..n], events[n], b);
      BlocksUnique(ids, events[..n], a', b');
      LastBlockIndex(ids, events, a);
      LastBlockIndex(ids, events, b);
    }
  }

  lemma {:induction false} LastBlockIndex(ids: seq<string>, events: seq<Event>, blocks: seq<seq<Event>>)
    requires Blocks(ids, events, blocks) && events != []
    ensures blocks != [] && StepIndex(ids, events[|events| - 1].step) == |blocks| - 1
  {
    var n := |blocks| - 1;
    assert blocks == blocks[..n] + [blocks[n]];
    ConcatSnoc(blocks[..n], blocks[n]);
    assert events[|events| - 1] == blocks[n][|blocks[n]| - 1];
  }

  lemma {:induction false} PrefixInPlanOrder(ids: seq<string>, events: seq<Event>, i: nat)
    requires InPlanOrder(ids, events) && i <= |events|
    ensures InPlanOrder(ids, events[..i])
    decreases |events| - i
  {
    if i == |events| {
      assert events[..i] == events;
    } else {
      PrefixInPlanOrder(ids, events, i + 1);
      var blocks :| Blocks(ids, events[..i + 1], blocks);
      assert events[..i + 1] == events[..i] + [events[i]];
      var before := DropLastEvent(ids, events[..i], events[i], blocks);
    }
  }

  /** One more event keeps the log in plan order only if it belongs to the open step, or to the
      next one once the open step has succeeded. */
  predicate MayFollow(ids: seq<string>, blocks: seq<seq<Event>>, event: Event) {
    var index := StepIndex(ids, event.step);
    || (index == |blocks| - 1 && index >= 0)
    || (index == |blocks| && (blocks == [] || Decide(blocks[|blocks| - 1]) == Skip))
  }

  /** The event opens the next block. */
  lemma {:induction false} NextBlock(ids: seq<string>, events: seq<Event>, event: Event, blocks: seq<seq<Event>>)
    requires Blocks(ids, events, blocks) && StepIndex(ids, event.step) == |blocks|
    requires blocks == [] || Decide(blocks[|blocks| - 1]) == Skip
    ensures Blocks(ids, events + [event], blocks + [[event]])
  {
    ConcatSnoc(blocks, [event]);
  }

  lemma {:induction false} AllOfStepSnoc(ids: seq<string>, block: seq<Event>, event: Event, k: int)
    requires AllOfStep(ids, block, k) && StepIndex(ids, event.step) == k
    ensures AllOfStep(ids, block + [event], k)
  {
  }

  /** The event continues the last block. */
  lemma {:induction false} LongerBlock(ids: seq<string>, events: seq<Event>, event: Event, blocks: seq<seq<Event>>)
    requires Blocks(ids, events, blocks) && blocks != [] && StepIndex(ids, event.step) == |blocks| - 1
    ensures Blocks(ids, events + [event], ExtendLast(blocks, event))
  {
    var n := |blocks| - 1;
    var after := ExtendLast(blocks, event);
    ConcatExtendLast(blocks, event);
    AllOfStepSnoc(ids, blocks[n], event, n);
    forall k | 0 <= k < |after| ensures after[k] != [] && AllOfStep(ids, after[k], k) {
      assert after[k] == if k < n then blocks[k] else blocks[n] + [event];
    }
  }

  lemma {:induction false} FollowExtends(ids: seq<string>, events: seq<Event>, event: Event, blocks: seq<seq<Event>>)
    requires Blocks(ids, events, blocks) && MayFollow(ids, blocks, event)
    ensures Blocks(ids, events + [event],
                   if StepIndex(ids, event.step) == |blocks| then blocks + [[event]] else ExtendLast(blocks, event))
  {
    if StepIndex(ids, event.step) == |blocks| {
      NextBlock(ids, events, event, blocks);
    } else {
      LongerBlock(ids, events, event, blocks);
    }
  }

  lemma ExtendedFollows(ids: seq<string>, events: seq<Event>, event: Event, blocks: seq<seq<Event>>, after: seq<seq<Event>>)
    requires Blocks(ids, events, blocks) && Blocks(ids, events + [event], after)
    ensures MayFollow(ids, blocks, event)
  {
    var before := DropLastEvent(ids, events, event, after);
    BlocksUnique(ids, events, before, blocks);
    LastBlockIndex(ids, events + [event], after);
    if after == blocks + [[event]] && blocks != [] {
      assert after[|blocks| - 1] == blocks[|blocks| - 1];
    }
  }

  lemma {:induction false} FollowExact(ids: seq<string>, events: seq<Event>, event: Event, blocks: seq<seq<Event>>)
    requires Blocks(ids, events, blocks)
    ensures InPlanOrder(ids, events + [event]) <==> MayFollow(ids, blocks, event)
    ensures MayFollow(ids, blocks, event) ==>
              Blocks(ids, events + [event],
                     if StepIndex(ids, event.step) == |blocks| then blocks + [[event]] else ExtendLast(blocks, event))
  {
    if MayFollow(ids, blocks, event) {
      FollowExtends(ids, events, event, blocks);
    }
    if after :| Blocks(ids, events + [event], after) {
      ExtendedFollows(ids, events, event, blocks, after);
    }
  }

  /** `events.filter((event) => event.step === step)`. */
  function OfStep(events: seq<Event>, step: string): seq<Event> {
    if events == [] then []
    else
      var n := |events| - 1;
      OfStep(events[..n], step) + if events[n].step == step then [events[n]] else []
  }

  lemma {:induction false} OfStepIsBlock(ids: seq<string>, events: seq<Event>, blocks: seq<seq<Event>>, step: string)
    requires Blocks(ids, events, blocks)
    ensures OfStep(events, step) ==
            var k := StepIndex(ids, step); if 0 <= k < |blocks| then blocks[k] else []
    decreases |events|
  {
    if events == [] {
    } else {
      var n := |events| - 1;
      assert events == events[..n] + [events[n]];
      var before := DropLastEvent(ids, events[..n], events[n], blocks);
      OfStepIsBlock(ids, events[..n], before, step);
      LastBlockIndex(ids, events, blocks);
      BlockAfter(ids, before, blocks, events[n], step);
    }
  }

  ghost function BlockAt(blocks: seq<seq<Event>>, k: int): seq<Event> {
    if 0 <= k < |blocks| then blocks[k] else []
  }

  /** The last event has gone to the block of its step. */
  lemma BlockAfter(ids: seq<string>, before: seq<seq<Event>>, blocks: seq<seq<Event>>, event: Event, step: string)
    requires (before != [] && blocks == ExtendLast(before, event)) || blocks == before + [[event]]
    requires StepIndex(ids, event.step) == |blocks| - 1
    ensures BlockAt(blocks, StepIndex(ids, step)) ==
            BlockAt(before, StepIndex(ids, step)) + if event.step == step then [event] else []
  {
    assert StepIndex(ids, step) == |blocks| - 1 ==> event.step == step;
  }

  method GroupByStep(events: seq<Event>) returns (byStep: map<string, seq<Event>>)
    ensures forall step :: (step in byStep <==> OfStep(events, step) != [])
                           && (step in byStep ==> byStep[step] == OfStep(events, step))
  {
    byStep := map[];
    for i := 0 to |events|
      invariant forall step :: (step in byStep <==> OfStep(events[..i], step) != [])
                               && (step in byStep ==> byStep[step] == OfStep(events[..i], step))
    {
      assert events[..i + 1][..i] == events[..i];
      var step := events[i].step;
      if step !in byStep {
        byStep := byStep[step := []];
      }
      byStep := byStep[step := byStep[step] + [events[i]]];
    }
    assert events[..|events|] == events;
  }

  /** `byStep` holds exactly the blocks of the log, each under the id of its step. */
  ghost predicate GroupsAre(ids: seq<string>, blocks: seq<seq<Event>>, byStep: map<string, seq<Event>>) {
    forall step ::
      var k := StepIndex(ids, step);
      (step in byStep <==> 0 <= k < |blocks|) && (step in byStep ==> byStep[step] == blocks[k])
  }

  lemma PrefixRefused(ids: seq<string>, events: seq<Event>, n: nat)
    requires n <= |events| && !InPlanOrder(ids, events[..n])
    ensures !InPlanOrder(ids, events)
  {
    if InPlanOrder(ids, events) {
      PrefixInPlanOrder(ids, events, n);
    }
  }

  /** The i-th event continues the blocks before it, or the log is not in plan order. */
  lemma FollowedBy(ids: seq<string>, events: seq<Event>, i: nat, blocks: seq<seq<Event>>)
    requires i < |events| && Blocks(ids, events[..i], blocks)
    ensures if MayFollow(ids, blocks, events[i])
            then Blocks(ids, events[..i + 1],
                        if StepIndex(ids, events[i].step) == |blocks| then blocks + [[events[i]]] else ExtendLast(blocks, events[i]))
            else !InPlanOrder(ids, events)
  {
    assert events[..i + 1] == events[..i] + [events[i]];
    FollowExact(ids, events[..i], events[i], blocks);
    if !MayFollow(ids, blocks, events[i]) {
      PrefixRefused(ids, events, i + 1);
    }
  }

  method CheckMembership(operation: string, ids: seq<string>, events: seq<Event>) returns (ok: bool)
    ensures ok <==> forall e :: e in events ==> e.operation == operation && e.step in ids
  {
    for i := 0 to |events|
      invariant forall j :: 0 <= j < i ==> events[j].operation == operation && events[j].step in ids
    {
      if events[i].operation != operation || StepIndex(ids, events[i].step) < 0 {
        return false;
      }
    }
    return true;
  }

  /** The next step may begin: it is the next one of the plan, and the open one has succeeded. */
  method MayOpen(openIndex: int, index: int, openStepEvents: seq<Event>) returns (ok: bool)
    ensures ok <==> index == openIndex + 1 && (openIndex >= 0 ==> Decide(openStepEvents) == Skip)
  {
    ok := index == openIndex + 1;
    if ok && openIndex >= 0 {
      var decision := DecideStepResumption(openStepEvents);
      ok := decision == Skip;
    }
  }

  /** The streaming check: one open block, closed when it decides "skip" and the next step begins. */
  method CheckPlanOrder(ids: seq<string>, events: seq<Event>) returns (ok: bool)
    requires forall e :: e in events ==> e.step in ids
    ensures ok <==> InPlanOrder(ids, events)
  {
    var openIndex := -1;
    var openStepEvents: seq<Event> := [];
    ghost var blocks: seq<seq<Event>> := [];
    for i := 0 to |events|
      invariant Blocks(ids, events[..i], blocks) && openIndex == |blocks| - 1
      invariant openStepEvents == if blocks == [] then [] else blocks[|blocks| - 1]
    {
      var event := events[i];
      var index := StepIndex(ids, event.step);
      FollowedBy(ids, events, i, blocks);
      if index == openIndex {
        openStepEvents := openStepEvents + [event];
        blocks := ExtendLast(blocks, event);
      } else {
        var opens := MayOpen(openIndex, index, openStepEvents);
        if !opens {
          return false;
        }
        openIndex := index;
        openStepEvents := [event];
        blocks := blocks + [[event]];
      }
    }
    assert events[..|events|] == events;
    return true;
  }

  /** The log is accepted exactly when it is in plan order, and then grouping returns its blocks. */
  method ReadAndValidateEvents(operation: string, ids: seq<string>, events: seq<Event>)
    returns (r: Option<map<string, seq<Event>>>)
    ensures r.Some? <==>
            && (forall e :: e in events ==> e.operation == operation && e.step in ids)
            && InPlanOrder(ids, events)
    ensures r.Some? ==> forall blocks :: Blocks(ids, events, blocks) ==> GroupsAre(ids, blocks, r.value)
  {
    var ok := CheckMembership(operation, ids, events);
    if ok {
      ok := CheckPlanOrder(ids, events);
    }
    if !ok {
      return None;
    }
    var byStep := GroupByStep(events);
    forall any | Blocks(ids, events, any) ensures GroupsAre(ids, any, byStep) {
      forall step
        ensures var k := StepIndex(ids, step);
                (step in byStep <==> 0 <= k < |any|) && (step in byStep ==> byStep[step] == any[k])
      {
        OfStepIsBlock(ids, events, any, step);
      }
    }
    return Some(byStep);
  }
}
