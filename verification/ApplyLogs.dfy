/** Every event log a run of the apply protocol can leave behind. */
module ApplyLogs {
  import opened Sequences
  import opened StepHistory
  import opened EventLog
  import opened ApplyProtocol

  function Ids(steps: seq<Step>): seq<string> {
    seq(|steps|, i requires 0 <= i < |steps| => steps[i].id)
  }

  /** Two events a step, in plan order; only the very last one may be a failure. */
  ghost predicate LogOk(op: OpId, steps: seq<Step>, log: seq<Event>) {
    && |log| <= 2 * |steps|
    && forall j :: 0 <= j < |log| ==>
         && log[j].operation == op && log[j].step == steps[j / 2].id && log[j].attempt == 1
         && (j % 2 == 0 ==> log[j].phase == Started)
         && (j % 2 == 1 ==> log[j].phase == Succeeded || (log[j].phase == Failed && j == |log| - 1))
  }

  function Block(log: seq<Event>, k: nat): seq<Event>
    requires 2 * k <= |log|
  {
    log[2 * k..if 2 * k + 2 <= |log| then 2 * k + 2 else |log|]
  }

  function BlocksOf(log: seq<Event>, k: nat): seq<seq<Event>>
    requires 2 * k <= |log| + 1
  {
    if k == 0 then [] else BlocksOf(log, k - 1) + [Block(log, k - 1)]
  }

  lemma {:induction false} BlocksOfJoined(log: seq<Event>, k: nat)
    requires 2 * k <= |log| + 1
    ensures |BlocksOf(log, k)| == k
    ensures Concat(BlocksOf(log, k)) == log[..if 2 * k <= |log| then 2 * k else |log|]
    ensures forall j :: 0 <= j < k ==> BlocksOf(log, k)[j] == Block(log, j)
  {
    if k > 0 {
      BlocksOfJoined(log, k - 1);
      ConcatSnoc(BlocksOf(log, k - 1), Block(log, k - 1));
    }
  }

  lemma StepIndexOfId(steps: seq<Step>, k: nat)
    requires DistinctIds(steps) && k < |steps|
    ensures StepIndex(Ids(steps), steps[k].id) == k
  {
    assert Ids(steps)[k] == steps[k].id;
    var i := StepIndex(Ids(steps), steps[k].id);
    assert Ids(steps)[i] == steps[i].id;
  }

  function BlockCount(log: seq<Event>): nat {
    (|log| + 1) / 2
  }

  lemma BlockDecides(op: OpId, steps: seq<Step>, log: seq<Event>, k: nat)
    requires LogOk(op, steps, log) && 2 * k < |log|
    ensures Block(log, k) != []
    ensures Decide(Block(log, k)) ==
            if |log| == 2 * k + 1 then Blocked
            else if log[2 * k + 1].phase == Succeeded then Skip
            else FailedBefore
  {
    assert log[2 * k].phase == Started;
    if |log| == 2 * k + 1 {
      assert Block(log, k) == [log[2 * k]];
    } else {
      assert log[2 * k + 1].attempt == 1 && log[2 * k + 1].phase != Started;
      assert Block(log, k) == [log[2 * k], log[2 * k + 1]];
    }
  }

  lemma BlockOfStep(op: OpId, steps: seq<Step>, log: seq<Event>, k: nat)
    requires LogOk(op, steps, log) && DistinctIds(steps) && 2 * k < |log|
    ensures AllOfStep(Ids(steps), Block(log, k), k)
  {
    StepIndexOfId(steps, k);
    var block := Block(log, k);
    forall i | 0 <= i < |block| ensures block[i].step == steps[k].id {
      assert block[i] == log[2 * k + i] && (2 * k + i) / 2 == k;
    }
  }

  /** Such a log always passes the check that a resume makes. */
  lemma {:induction false} LogAccepted(op: OpId, steps: seq<Step>, log: seq<Event>)
    requires LogOk(op, steps, log) && DistinctIds(steps)
    ensures Blocks(Ids(steps), log, BlocksOf(log, BlockCount(log)))
  {
    var n := BlockCount(log);
    var blocks := BlocksOf(log, n);
    BlocksOfJoined(log, n);
    assert Concat(blocks) == log;
    forall k | 0 <= k < n
      ensures blocks[k] != [] && AllOfStep(Ids(steps), blocks[k], k)
      ensures k < n - 1 ==> Decide(blocks[k]) == Skip
    {
      BlockDecides(op, steps, log, k);
      BlockOfStep(op, steps, log, k);
    }
  }

  /** What a resume decides about step `i`, read off the length of the log. */
  lemma OutcomeByLength(op: OpId, steps: seq<Step>, log: seq<Event>, i: nat)
    requires LogOk(op, steps, log) && DistinctIds(steps) && i < |steps|
    ensures Outcome(log, steps[i].id) ==
            if |log| <= 2 * i then Run
            else if |log| == 2 * i + 1 then Blocked
            else if log[2 * i + 1].phase == Succeeded then Skip
            else FailedBefore
  {
    var n := BlockCount(log);
    LogAccepted(op, steps, log);
    StepIndexOfId(steps, i);
    OfStepIsBlock(Ids(steps), log, BlocksOf(log, n), steps[i].id);
    BlocksOfJoined(log, n);
    if i < n {
      BlockDecides(op, steps, log, i);
    }
  }

}
