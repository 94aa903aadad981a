/** A journal that says "succeeded" is true and stays true. */
module ApplyDurability {
  import opened Sequences
  import opened StepHistory
  import opened ApplyProtocol
  import opened ApplyLogs
  import opened ApplySafety
  import opened ApplyChain

  /** The operation's snapshot is published and the pointers have reached its generation. */
  ghost predicate Committed(t: Target, op: OpId) {
    SnapshotMatches(t, op, PlanOf(t, op)) && G(t) >= CommitGeneration(PlanOf(t, op))
  }

  predicate StepSucceeded(t: Target, op: OpId, i: nat) {
    2 * i + 1 < |LogOf(t, op)| && LogOf(t, op)[2 * i + 1].phase == Succeeded
  }

  ghost predicate CommitsRecorded(t: Target) {
    forall op, i: nat :: op in t.journals && CommitStep(t, op, i) && StepSucceeded(t, op, i) ==> Committed(t, op)
  }

  ghost predicate SuccessComplete(t: Target) {
    forall op :: op in t.journals && t.journals[op].status == JournalSucceeded ==>
      && t.journals[op].committed == Some(CommitGeneration(PlanOf(t, op)))
      && |LogOf(t, op)| == 2 * |StepsOf(t, op)|
      && (|StepsOf(t, op)| > 0 ==> StepSucceeded(t, op, |StepsOf(t, op)| - 1))
  }

  ghost predicate DispatchedCommit(t: Target, pc: Pc) {
    pc.Dispatched? && CommitStep(t, pc.op, pc.i) ==> Committed(t, pc.op)
  }

  ghost predicate CommitInv(s: State) {
    && CommitsRecorded(s.target) && SuccessComplete(s.target)
    && forall c :: c in s.clients ==> DispatchedCommit(s.target, s.clients[c])
  }

  lemma ClientsStayCommitted(s: State, c: Client, s': State)
    requires LogInv(s) && CommitInv(s) && OnlyMoves(s, c, s')
    requires ChainGrows(s.target, s'.target) && PlansStay(s.target, s'.target)
    requires DispatchedCommit(s'.target, s'.clients[c])
    ensures forall d :: d in s'.clients ==> DispatchedCommit(s'.target, s'.clients[d])
  {
    forall d | d in s'.clients ensures DispatchedCommit(s'.target, s'.clients[d]) {
      if d != c && s.clients[d].Dispatched? && CommitStep(s'.target, s.clients[d].op, s.clients[d].i) {
        assert ClientRecord(s, s.clients[d]);
      }
    }
  }

  /** Steps that write no event; at most a journal with an empty log is new. */
  lemma RecordsStayCommitted(t: Target, t': Target)
    requires CommitsRecorded(t) && SuccessComplete(t) && ChainGrows(t, t') && PlansStay(t, t')
    requires forall op :: op in t'.journals ==>
               if op in t.journals then t'.journals[op] == t.journals[op] && LogOf(t', op) == LogOf(t, op)
               else t'.journals[op].status == InProgress && LogOf(t', op) == []
    ensures CommitsRecorded(t') && SuccessComplete(t')
  {
    forall op, i: nat | op in t'.journals && CommitStep(t', op, i) && StepSucceeded(t', op, i)
      ensures Committed(t', op)
    {
      assert CommitStep(t, op, i) && StepSucceeded(t, op, i);
    }
  }

  predicate OnHost(a: Action) {
    a.EffectApplied? || a.SnapshotPublished? || a.TopologyWritten? || a.CommitFailed?
  }

  lemma HostLeavesRecords(s: State, a: Action, s': State)
    requires Moves(s, a, s') && OnHost(a)
    ensures OnlyMoves(s, a.c, s') && s'.target.journals == s.target.journals && s'.target.events == s.target.events
    ensures DispatchedCommit(s'.target, s'.clients[a.c])
  {
  }

  lemma HostKeepsCommits(s: State, a: Action, s': State)
    requires LogInv(s) && CommitInv(s) && Moves(s, a, s') && ChainGrows(s.target, s'.target) && OnHost(a)
    ensures CommitInv(s')
  {
    HostLeavesRecords(s, a, s');
    RecordsStayCommitted(s.target, s'.target);
    ClientsStayCommitted(s, a.c, s');
  }

  lemma QuietLeavesRecords(s: State, a: Action, s': State)
    requires Moves(s, a, s') && !OnHost(a) && !WritesRecord(a) && !a.LockTaken? && !a.CurrentWritten?
    ensures s'.target.journals == s.target.journals && s'.target.events == s.target.events
    ensures !a.LeaseLost? ==> OnlyMoves(s, a.c, s') && !s'.clients[a.c].Dispatched?
  {
  }

  lemma QuietKeepsCommits(s: State, a: Action, s': State)
    requires LogInv(s) && CommitInv(s) && Moves(s, a, s') && ChainGrows(s.target, s'.target)
    requires !OnHost(a) && !WritesRecord(a) && !a.LockTaken? && !a.CurrentWritten?
    ensures CommitInv(s')
  {
    QuietLeavesRecords(s, a, s');
    RecordsStayCommitted(s.target, s'.target);
    if !a.LeaseLost? {
      ClientsStayCommitted(s, a.c, s');
    }
  }

  lemma CurrentKeepsCommits(s: State, c: Client, at: nat, s': State)
    requires LogInv(s) && ChainInv(s) && CommitInv(s) && WriteCurrent(s, c, at, s')
    requires ChainGrows(s.target, s'.target)
    ensures CommitInv(s')
  {
    assert ClientChain(s.target, s.clients[c]);
    RecordsStayCommitted(s.target, s'.target);
    ClientsStayCommitted(s, c, s');
  }

  lemma LockKeepsCommits(s: State, c: Client, s': State)
    requires LogInv(s) && CommitInv(s) && TakeLock(s, c, s')
    requires ChainGrows(s.target, s'.target)
    ensures CommitInv(s')
  {
    assert ClientRecord(s, s.clients[c]);
    RecordsStayCommitted(s.target, s'.target);
    ClientsStayCommitted(s, c, s');
  }

  /** One event is added to the log of `op`; a success of its commit step has been committed. */
  lemma AppendStaysCommitted(t: Target, t': Target, op: OpId, i: nat, phase: Phase)
    requires CommitsRecorded(t) && SuccessComplete(t) && t' == Append(t, op, i, phase)
    requires op in t.journals && t.journals[op].status == InProgress
    requires |LogOf(t, op)| == if phase == Started then 2 * i else 2 * i + 1
    requires phase == Succeeded && CommitStep(t, op, i) ==> Committed(t, op)
    ensures CommitsRecorded(t') && SuccessComplete(t')
  {
    forall o, k: nat | o in t'.journals && CommitStep(t', o, k) && StepSucceeded(t', o, k)
      ensures Committed(t', o)
    {
      if o != op || 2 * k + 1 < |LogOf(t, op)| {
        assert CommitStep(t, o, k) && StepSucceeded(t, o, k);
      }
    }
    forall o | o in t'.journals && t'.journals[o].status == JournalSucceeded
      ensures |LogOf(t', o)| == 2 * |StepsOf(t', o)|
      ensures |StepsOf(t', o)| > 0 ==> StepSucceeded(t', o, |StepsOf(t', o)| - 1)
    {
      assert o != op;
      assert LogOf(t', o) == LogOf(t, o);
    }
  }

  lemma AppendKeepsCommits(s: State, c: Client, s': State, op: OpId, i: nat, phase: Phase)
    requires LogInv(s) && CommitInv(s) && OnlyMoves(s, c, s') && !s'.clients[c].Dispatched?
    requires s'.target == Append(s.target, op, i, phase) && op in s.target.journals
    requires s.target.journals[op].status == InProgress
    requires |LogOf(s.target, op)| == if phase == Started then 2 * i else 2 * i + 1
    requires phase == Succeeded && CommitStep(s.target, op, i) ==> Committed(s.target, op)
    ensures CommitInv(s')
  {
    AppendStaysCommitted(s.target, s'.target, op, i, phase);
    ClientsStayCommitted(s, c, s');
  }

  lemma EventKeepsCommits(s: State, a: Action, s': State)
    requires LogInv(s) && CommitInv(s) && Moves(s, a, s')
    requires a.StepStarted? || a.CommitRecovered? || a.SuccessRecorded? || a.FailureRecorded?
    ensures CommitInv(s')
  {
    var pc := s.clients[a.c];
    assert ClientRecord(s, pc) && DispatchedCommit(s.target, pc);
    if a.StepStarted? || a.CommitRecovered? {
      OutcomeByLength(pc.op, StepsOf(s.target, pc.op), pc.view, pc.i);
    }
    AppendKeepsCommits(s, a.c, s', pc.op, pc.i,
      if a.StepStarted? then Started else if a.FailureRecorded? then Failed else Succeeded);
  }

  lemma StatusStaysCommitted(t: Target, t': Target, op: OpId, status: Status, committed: Option<nat>)
    requires CommitsRecorded(t) && SuccessComplete(t) && op in t.journals
    requires t' == SetStatus(t, op, status, committed)
    requires status == JournalSucceeded ==>
               && committed == Some(CommitGeneration(PlanOf(t, op)))
               && |LogOf(t, op)| == 2 * |StepsOf(t, op)|
               && (|StepsOf(t, op)| > 0 ==> StepSucceeded(t, op, |StepsOf(t, op)| - 1))
    ensures CommitsRecorded(t') && SuccessComplete(t') && ChainGrows(t, t') && PlansStay(t, t')
  {
    forall o, i: nat | o in t'.journals && CommitStep(t', o, i) && StepSucceeded(t', o, i)
      ensures Committed(t', o)
    {
      assert CommitStep(t, o, i) && StepSucceeded(t, o, i);
    }
  }

  lemma StatusKeepsCommits(s: State, a: Action, s': State)
    requires LogInv(s) && CommitInv(s) && Moves(s, a, s') && (a.JournalMarkedFailed? || a.JournalFinished?)
    ensures CommitInv(s')
  {
    var t := s.target;
    var pc := s.clients[a.c];
    assert ClientRecord(s, pc);
    assert |LogOf(t, pc.op)| <= 2 * |StepsOf(t, pc.op)| by {
      assert LogOk(pc.op, StepsOf(t, pc.op), LogOf(t, pc.op));
    }
    StatusStaysCommitted(t, s'.target, pc.op, if a.JournalFinished? then JournalSucceeded else JournalFailed,
      if a.JournalFinished? then Some(CommitGeneration(PlanOf(t, pc.op))) else None);
    ClientsStayCommitted(s, a.c, s');
  }

  lemma StepKeepsCommits(s: State, a: Action, s': State)
    requires LogInv(s) && ChainInv(s) && CommitInv(s) && Moves(s, a, s') && ChainGrows(s.target, s'.target)
    ensures CommitInv(s')
  {
    if a.LockTaken? {
      LockKeepsCommits(s, a.c, s');
    } else if a.CurrentWritten? {
      CurrentKeepsCommits(s, a.c, a.at, s');
    } else if a.JournalMarkedFailed? || a.JournalFinished? {
      StatusKeepsCommits(s, a, s');
    } else if WritesRecord(a) {
      EventKeepsCommits(s, a, s');
    } else if OnHost(a) {
      HostKeepsCommits(s, a, s');
    } else {
      QuietKeepsCommits(s, a, s');
    }
  }

  /** Only a client whose journal is in progress writes events or the journal. */
  lemma WriterIsInProgress(s: State, a: Action, s': State)
    requires LogInv(s) && Moves(s, a, s') && WritesRecord(a)
    ensures a.c in s.clients && WithJournal(s.clients[a.c])
    ensures s.clients[a.c].op in s.target.journals && s.target.journals[s.clients[a.c].op].status == InProgress
  {
    assert OwnerKnows(s.target, PcOf(s, a.c));
  }

  /** A journal that has ended is never rewritten, and nothing is added to its log. */
  lemma EndedStays(s: State, a: Action, s': State, op: OpId)
    requires LogInv(s) && Moves(s, a, s')
    requires op in s.target.journals && s.target.journals[op].status != InProgress
    ensures op in s'.target.journals && s'.target.journals[op] == s.target.journals[op]
    ensures LogOf(s'.target, op) == LogOf(s.target, op)
  {
    if a.LockTaken? {
      assert ClientRecord(s, s.clients[a.c]);
    } else if WritesRecord(a) {
      WriterIsInProgress(s, a, s');
    } else {
    }
  }
}
