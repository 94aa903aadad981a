/** What every run of the apply protocol keeps, for any number of clients, crashes and lost leases. */
module ApplySafety {
  import opened Sequences
  import opened StepHistory
  import opened ApplyProtocol
  import opened ApplyLogs

  predicate WithJournal(pc: Pc) {
    pc.Locked? || pc.Loop? || pc.Dispatching? || pc.Dispatched? || pc.DispatchFailed? || pc.FailureLogged? || pc.Closing?
  }

  predicate WithView(pc: Pc) {
    pc.Loop? || pc.Dispatching? || pc.Dispatched? || pc.DispatchFailed?
  }

  /** Operations and their logs. */
  ghost predicate Records(s: State) {
    var t := s.target;
    && (forall op :: op in t.journals ==>
          && op in s.used && op in t.events && DistinctIds(t.journals[op].plan.steps)
          && LogOk(op, t.journals[op].plan.steps, t.events[op]))
    && (t.lock.Some? ==> t.lock.value in t.journals)
    && (t.latest.Some? ==> t.latest.value in t.journals)
    && (t.owner.Some? ==> t.owner.value in s.clients)
  }

  ghost predicate ClientRecord(s: State, pc: Pc) {
    && (WithJournal(pc) ==> pc.op in s.target.journals)
    && (pc.Planned? ==> pc.op in s.used && pc.op !in s.target.journals && DistinctIds(pc.plan.steps))
    && (WithView(pc) ==> LogOk(pc.op, StepsOf(s.target, pc.op), pc.view) && pc.view <= LogOf(s.target, pc.op))
  }

  ghost predicate ClientRecords(s: State) {
    && (forall c :: c in s.clients ==> ClientRecord(s, s.clients[c]))
    && (forall c, d :: c in s.clients && d in s.clients && c != d && s.clients[c].Planned? && s.clients[d].Planned? ==>
          s.clients[c].op != s.clients[d].op)
  }

  /** The client that holds the lease knows its operation's log exactly. */
  ghost predicate OwnerKnows(t: Target, pc: Pc) {
    && (WithView(pc) || pc.Locked? || pc.FailureLogged? ==>
          pc.op in t.journals && t.journals[pc.op].status == InProgress)
    && (pc.Locked? ==> LogOf(t, pc.op) == [])
    && (pc.Loop? ==>
          && pc.i <= |StepsOf(t, pc.op)|
          && |LogOf(t, pc.op)| >= 2 * pc.i
          && (pc.i > 0 ==> LogOf(t, pc.op)[2 * pc.i - 1].phase == Succeeded)
          && if 2 * pc.i <= |pc.view| then LogOf(t, pc.op) == pc.view else |LogOf(t, pc.op)| == 2 * pc.i)
    && (pc.Dispatching? || pc.Dispatched? || pc.DispatchFailed? ==>
          pc.i < |StepsOf(t, pc.op)| && |LogOf(t, pc.op)| == 2 * pc.i + 1)
  }

  ghost predicate OwnerView(s: State) {
    s.target.owner.Some? ==> OwnerKnows(s.target, PcOf(s, s.target.owner.value))
  }

  ghost predicate LogInv(s: State) {
    Records(s) && ClientRecords(s) && OwnerView(s)
  }

  /** Only client `c` moved. */
  ghost predicate OnlyMoves(s: State, c: Client, s': State) {
    s.used <= s'.used && c in s'.clients && s'.clients == s.clients[c := s'.clients[c]]
  }

  ghost predicate LogsGrow(t: Target, t': Target) {
    forall op :: op in t.journals ==>
      op in t'.journals && t'.journals[op].plan == t.journals[op].plan && LogOf(t, op) <= LogOf(t', op)
  }

  /** Nothing that the logs and journals record changed. */
  ghost predicate SameRecords(t: Target, t': Target) {
    && t'.journals == t.journals && t'.events == t.events
    && t'.owner == t.owner && t'.lock == t.lock && t'.latest == t.latest
  }

  lemma MoveKeepsLogs(s: State, c: Client, s': State)
    requires LogInv(s) && OnlyMoves(s, c, s') && SameRecords(s.target, s'.target)
    requires ClientRecord(s', s'.clients[c])
    requires s'.clients[c].Planned? ==> s'.clients[c].op !in s.used
    requires s.target.owner == Some(c) ==> OwnerKnows(s'.target, s'.clients[c])
    ensures LogInv(s')
  {
    if s.target.owner.Some? && s.target.owner.value != c {
      assert PcOf(s', s.target.owner.value) == PcOf(s, s.target.owner.value);
      assert OwnerKnows(s'.target, PcOf(s, s.target.owner.value));
    }
  }

  lemma RecordsAfterAppend(s: State, s': State, op: OpId, i: nat, phase: Phase)
    requires Records(s) && s.used == s'.used && op in s.target.journals
    requires s'.target == Append(s.target, op, i, phase) && s.clients.Keys <= s'.clients.Keys
    requires LogOk(op, StepsOf(s.target, op), LogOf(s'.target, op))
    ensures Records(s') && LogsGrow(s.target, s'.target)
  {
    var t, t' := s.target, s'.target;
    forall o | o in t'.journals ensures o in t'.events && LogOk(o, t'.journals[o].plan.steps, t'.events[o]) {
      if o != op {
        assert t'.events[o] == t.events[o];
      }
    }
  }

  /** A longer log changes nothing for a client that has read a part of it. */
  lemma ClientAfterAppend(s: State, s': State, op: OpId, i: nat, phase: Phase, pc: Pc)
    requires ClientRecord(s, pc) && s'.target == Append(s.target, op, i, phase) && s'.used == s.used
    ensures ClientRecord(s', pc)
  {
  }

  lemma ClientsAfterAppend(s: State, c: Client, s': State, op: OpId, i: nat, phase: Phase)
    requires ClientRecords(s) && OnlyMoves(s, c, s') && s.used == s'.used
    requires s'.target == Append(s.target, op, i, phase)
    requires ClientRecord(s, s'.clients[c]) && !s'.clients[c].Planned?
    ensures ClientRecords(s')
  {
    forall d | d in s'.clients ensures ClientRecord(s', s'.clients[d]) {
      ClientAfterAppend(s, s', op, i, phase, s'.clients[d]);
    }
  }

  lemma LogAfterAppend(t: Target, op: OpId, i: nat, phase: Phase)
    requires op in t.journals && op in t.events && LogOk(op, StepsOf(t, op), LogOf(t, op))
    requires i == |LogOf(t, op)| / 2 < |StepsOf(t, op)|
    requires LogOf(t, op) != [] ==> LogOf(t, op)[|LogOf(t, op)| - 1].phase != Failed
    requires phase == Started <==> |LogOf(t, op)| % 2 == 0
    ensures LogOk(op, StepsOf(t, op), LogOf(Append(t, op, i, phase), op))
  {
  }

  /** The owner appends one event that belongs at the end of the log. */
  lemma AppendKeepsLogs(s: State, c: Client, s': State, op: OpId, i: nat, phase: Phase)
    requires LogInv(s) && OnlyMoves(s, c, s') && s.used == s'.used && op in s.target.journals
    requires s'.target == Append(s.target, op, i, phase) && s.target.owner == Some(c)
    requires i == |LogOf(s.target, op)| / 2 < |StepsOf(s.target, op)|
    requires LogOf(s.target, op) != [] ==> LogOf(s.target, op)[|LogOf(s.target, op)| - 1].phase != Failed
    requires phase == Started <==> |LogOf(s.target, op)| % 2 == 0
    requires ClientRecord(s, s'.clients[c]) && !s'.clients[c].Planned?
    requires OwnerKnows(s'.target, s'.clients[c])
    ensures LogInv(s')
  {
    LogAfterAppend(s.target, op, i, phase);
    RecordsAfterAppend(s, s', op, i, phase);
    ClientsAfterAppend(s, c, s', op, i, phase);
  }

  lemma InspectionKeepsLogs(s: State, c: Client, s': State)
    requires LogInv(s) && InspectTarget(s, c, s')
    ensures LogInv(s')
  {
    MoveKeepsLogs(s, c, s');
  }

  lemma LeaseKeepsLogs(s: State, c: Client, s': State)
    requires LogInv(s) && (AcquireLease(s, c, s') || LoseLease(s, s'))
    ensures LogInv(s')
  {
  }

  lemma ReleaseLeavesRecords(s: State, c: Client, s': State)
    requires Release(s, c, s')
    ensures OnlyMoves(s, c, s') && s'.clients[c].Stopped? && c in s.clients
    ensures s'.target == s.target || s'.target == s.target.(lock := None)
  {
  }

  lemma ReleaseKeepsLogs(s: State, c: Client, s': State)
    requires LogInv(s) && Release(s, c, s')
    ensures LogInv(s')
  {
    ReleaseLeavesRecords(s, c, s');
  }

  lemma StopKeepsLogs(s: State, c: Client, s': State)
    requires LogInv(s) && (Stop(s, c, s') || Release(s, c, s'))
    ensures LogInv(s')
  {
    if Stop(s, c, s') {
      MoveKeepsLogs(s, c, s');
    } else {
      ReleaseKeepsLogs(s, c, s');
    }
  }

  lemma PlanKeepsLogs(s: State, c: Client, op: OpId, plan: Plan, s': State)
    requires LogInv(s) && ComputePlan(s, c, op, plan, s')
    ensures LogInv(s')
  {
    MoveKeepsLogs(s, c, s');
  }

  lemma LockKeepsLogs(s: State, c: Client, s': State)
    requires LogInv(s) && TakeLock(s, c, s')
    ensures LogInv(s')
  {
    var op := s.clients[c].op;
    assert ClientRecord(s, s.clients[c]);
  }

  lemma EnterKeepsLogs(s: State, c: Client, ok: bool, s': State)
    requires LogInv(s) && (Recheck(s, c, ok, s') || ResumeRead(s, c, s') || ResumeSucceeded(s, c, s'))
    ensures LogInv(s')
  {
    assert ClientRecord(s, s.clients[c]);
    MoveKeepsLogs(s, c, s');
  }

  lemma SkipKeepsLogs(s: State, c: Client, s': State)
    requires LogInv(s) && SkipStep(s, c, s')
    ensures LogInv(s')
  {
    var pc := s.clients[c];
    assert ClientRecord(s, pc);
    OutcomeByLength(pc.op, StepsOf(s.target, pc.op), pc.view, pc.i);
    MoveKeepsLogs(s, c, s');
  }

  lemma AgainKeepsLogs(s: State, c: Client, s': State)
    requires LogInv(s) && DispatchAgain(s, c, s')
    ensures LogInv(s')
  {
    var pc := s.clients[c];
    assert ClientRecord(s, pc);
    OutcomeByLength(pc.op, StepsOf(s.target, pc.op), pc.view, pc.i);
    MoveKeepsLogs(s, c, s');
  }

  lemma StartKeepsLogs(s: State, c: Client, s': State)
    requires LogInv(s) && StartStep(s, c, s')
    ensures LogInv(s') && |LogOf(s.target, s.clients[c].op)| == 2 * s.clients[c].i
  {
    var pc := s.clients[c];
    assert ClientRecord(s, pc);
    OutcomeByLength(pc.op, StepsOf(s.target, pc.op), pc.view, pc.i);
    AppendKeepsLogs(s, c, s', pc.op, pc.i, Started);
  }

  lemma RecoverKeepsLogs(s: State, c: Client, s': State)
    requires LogInv(s) && RecoverCommit(s, c, s')
    ensures LogInv(s')
  {
    var pc := s.clients[c];
    assert ClientRecord(s, pc);
    OutcomeByLength(pc.op, StepsOf(s.target, pc.op), pc.view, pc.i);
    AppendKeepsLogs(s, c, s', pc.op, pc.i, Succeeded);
  }

  lemma EffectKeepsLogs(s: State, c: Client, applied: bool, ok: bool, s': State)
    requires LogInv(s) && Effect(s, c, applied, ok, s')
    ensures LogInv(s')
  {
    assert ClientRecord(s, s.clients[c]);
    MoveKeepsLogs(s, c, s');
  }

  /** Client `c` only moves on within a step that it is in the middle of. */
  ghost predicate StaysInStep(s: State, c: Client, s': State) {
    && OnlyMoves(s, c, s') && SameRecords(s.target, s'.target) && c in s.clients
    && var pc, pc' := s.clients[c], s'.clients[c];
       && (pc.Dispatching? || pc.Dispatched?)
       && (pc'.Stopped? || ((pc'.Dispatching? || pc'.Dispatched? || pc'.DispatchFailed?)
                            && pc'.op == pc.op && pc'.view == pc.view && pc'.i == pc.i))
  }

  lemma CommitStaysInStep(s: State, a: Action, s': State)
    requires Moves(s, a, s')
    requires a.SnapshotPublished? || a.TopologyWritten? || a.CurrentWritten? || a.CommitFailed?
    ensures StaysInStep(s, a.c, s')
  {
  }

  lemma StepKeepsRecord(s: State, c: Client, s': State)
    requires LogInv(s) && StaysInStep(s, c, s')
    ensures LogInv(s')
  {
    assert ClientRecord(s, s.clients[c]);
    MoveKeepsLogs(s, c, s');
  }

  lemma CommitKeepsLogs(s: State, a: Action, s': State)
    requires LogInv(s) && Moves(s, a, s')
    requires a.SnapshotPublished? || a.TopologyWritten? || a.CurrentWritten? || a.CommitFailed?
    ensures LogInv(s')
  {
    CommitStaysInStep(s, a, s');
    StepKeepsRecord(s, a.c, s');
  }

  lemma HostKeepsLogs(s: State, a: Action, s': State)
    requires LogInv(s) && Moves(s, a, s')
    requires a.EffectApplied? || a.SnapshotPublished? || a.TopologyWritten? || a.CurrentWritten? || a.CommitFailed?
    ensures LogInv(s')
  {
    if a.EffectApplied? {
      EffectKeepsLogs(s, a.c, a.applied, a.ok, s');
    } else {
      CommitKeepsLogs(s, a, s');
    }
  }

  lemma RecordKeepsLogs(s: State, c: Client, s': State)
    requires LogInv(s) && (RecordSuccess(s, c, s') || RecordFailure(s, c, s'))
    ensures LogInv(s')
  {
    var pc := s.clients[c];
    assert ClientRecord(s, pc);
    AppendKeepsLogs(s, c, s', pc.op, pc.i, if RecordSuccess(s, c, s') then Succeeded else Failed);
  }

  lemma JournalKeepsLogs(s: State, c: Client, s': State)
    requires LogInv(s) && (FailJournal(s, c, s') || Finish(s, c, s'))
    ensures LogInv(s')
  {
    assert ClientRecord(s, s.clients[c]);
  }

  lemma StepKeepsLogs(s: State, a: Action, s': State)
    requires LogInv(s) && Moves(s, a, s')
    ensures LogInv(s')
  {
    match a
    case TargetInspected(c) => InspectionKeepsLogs(s, c, s');
    case LeaseAcquired(c) => LeaseKeepsLogs(s, c, s');
    case LeaseLost => LeaseKeepsLogs(s, 0, s');
    case ClientStopped(c) => StopKeepsLogs(s, c, s');
    case LockReleased(c) => StopKeepsLogs(s, c, s');
    case PlanComputed(c, op, plan) => PlanKeepsLogs(s, c, op, plan, s');
    case LockTaken(c) => LockKeepsLogs(s, c, s');
    case Rechecked(c, ok) => EnterKeepsLogs(s, c, ok, s');
    case EventsRead(c) => EnterKeepsLogs(s, c, true, s');
    case SuccessSeen(c) => EnterKeepsLogs(s, c, true, s');
    case StepSkipped(c) => SkipKeepsLogs(s, c, s');
    case CommitDispatchedAgain(c) => AgainKeepsLogs(s, c, s');
    case StepStarted(c) => StartKeepsLogs(s, c, s');
    case CommitRecovered(c) => RecoverKeepsLogs(s, c, s');
    case SuccessRecorded(c) => RecordKeepsLogs(s, c, s');
    case FailureRecorded(c) => RecordKeepsLogs(s, c, s');
    case JournalMarkedFailed(c) => JournalKeepsLogs(s, c, s');
    case JournalFinished(c) => JournalKeepsLogs(s, c, s');
    case _ => HostKeepsLogs(s, a, s');
  }
}
