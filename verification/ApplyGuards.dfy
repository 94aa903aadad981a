/** What a plan is made from, and who may write what: over every run of the apply protocol. */
module ApplyGuards {
  import opened Sequences
  import opened PlanTypes
  import opened ApplyProtocol
  import opened ApplySafety
  import opened ApplyChain
  import opened ApplyTheorems

  /** current.json and topology.json are both missing, or tell of one commit. */
  predicate OneCommit(t: Target) {
    match t.current
    case None => t.topology.None?
    case Some(doc) => t.topology == Some(Topology(doc.installation, doc.generation, doc.content))
  }

  /** The client inspected the target before step `k` and saw this. */
  ghost predicate SawAt(states: seq<State>, actions: seq<Action>, k: nat, c: Client, seen: Seen, j: nat)
    requires IsRun(states, actions) && k < |states|
  {
    j < k && actions[j] == TargetInspected(c) && seen == SeenOf(states[j].target)
  }

  lemma {:induction false} SeenIsFromInspection(states: seq<State>, actions: seq<Action>, k: nat, c: Client) returns (j: nat)
    requires IsRun(states, actions) && k < |states|
    requires PcOf(states[k], c).Inspected? || PcOf(states[k], c).Starting?
    ensures SawAt(states, actions, k, c, PcOf(states[k], c).seen, j)
  {
    assert k > 0;
    assert Moves(states[k - 1], actions[k - 1], states[k]);
    if actions[k - 1] == TargetInspected(c) {
      j := k - 1;
    } else {
      j := SeenIsFromInspection(states, actions, k - 1, c);
    }
  }

  /** Every plan is made from an inspection that its client made before it acquired the lease, and that found
      one commit: for the generation and the installation that were there then, and a first one only where
      nothing was. */
  lemma PlanIsFromInspection(states: seq<State>, actions: seq<Action>, k: nat) returns (j: nat)
    requires IsRun(states, actions) && k < |actions| && actions[k].PlanComputed?
    ensures j < k && actions[j] == TargetInspected(actions[k].c) && OneCommit(states[j].target)
    ensures match states[j].target.current
            case None => actions[k].plan.mode == Bootstrap && actions[k].plan.baselineGeneration == 0
            case Some(doc) =>
              && actions[k].plan.mode == Applied && actions[k].plan.baselineGeneration == doc.generation
              && actions[k].plan.installation == doc.installation
  {
    assert Moves(states[k], actions[k], states[k + 1]);
    j := SeenIsFromInspection(states, actions, k, actions[k].c);
  }

  /** The client whose step it is; the loss of a lease is nobody's. */
  function Actor(a: Action): Option<Client> {
    if a.LeaseLost? then None else Some(a.c)
  }

  /** Nobody takes the lock, creates or changes a journal, or adds to a log, without holding the lease at
      that moment. */
  lemma RecordsUnderLease(states: seq<State>, actions: seq<Action>, k: nat)
    requires IsRun(states, actions) && k < |actions|
    requires var t, t' := states[k].target, states[k + 1].target;
             t'.journals != t.journals || t'.events != t.events || (t'.lock != t.lock && t'.lock.Some?)
    ensures states[k].target.owner.Some? && Actor(actions[k]) == states[k].target.owner
  {
    assert Moves(states[k], actions[k], states[k + 1]);
  }

  /** The lease passes from nobody to a client that has acquired it, and from a client to nobody. */
  lemma LeaseMoves(states: seq<State>, actions: seq<Action>, k: nat)
    requires IsRun(states, actions) && k < |actions| && states[k + 1].target.owner != states[k].target.owner
    ensures states[k].target.owner.Some? ==> states[k + 1].target.owner.None?
    ensures states[k + 1].target.owner.Some? ==>
              actions[k] == LeaseAcquired(states[k + 1].target.owner.value) && PcOf(states[k], actions[k].c).Inspected?
  {
    assert Moves(states[k], actions[k], states[k + 1]);
  }

  /** Nothing is locked for a later apply that has nothing to do. */
  lemma {:induction false} NoEmptyApply(states: seq<State>, actions: seq<Action>, k: nat)
    requires IsRun(states, actions) && k < |states|
    ensures forall op :: op in states[k].target.journals ==> !NothingToDo(states[k].target.journals[op].plan)
    ensures forall c :: c in states[k].clients && states[k].clients[c].Planned? ==> !NothingToDo(states[k].clients[c].plan)
  {
    if k > 0 {
      NoEmptyApply(states, actions, k - 1);
      assert Moves(states[k - 1], actions[k - 1], states[k]);
    }
  }

  predicate NothingToDo(plan: Plan) {
    plan.mode == Applied && plan.steps == []
  }

  /** The lock is taken only when nobody has it, together with a new journal in progress and an empty log; it
      goes only by the hand of a client that is closing that very operation. */
  lemma LockMoves(states: seq<State>, actions: seq<Action>, k: nat)
    requires IsRun(states, actions) && k < |actions| && states[k + 1].target.lock != states[k].target.lock
    ensures match states[k].target.lock
            case None =>
              var t := states[k + 1].target;
              && actions[k].LockTaken? && t.lock.Some? && t.latest == t.lock
              && t.lock.value !in states[k].target.journals && t.lock.value in t.journals && t.lock.value in t.events
              && t.journals[t.lock.value].status == InProgress && t.events[t.lock.value] == []
            case Some(op) =>
              actions[k].LockReleased? && states[k + 1].target.lock.None? && PcOf(states[k], actions[k].c) == Closing(op)
  {
    assert Moves(states[k], actions[k], states[k + 1]);
    RunKeepsInv(states, actions, k);
  }

  predicate Over(t: Target, op: OpId, failed: bool) {
    op in t.journals && (t.journals[op].status == JournalSucceeded || (failed && t.journals[op].status == JournalFailed))
  }

  lemma ClosesOver(s: State, a: Action, s': State, c: Client)
    requires Moves(s, a, s') && !a.Rechecked? && PcOf(s', c).Closing? && PcOf(s, c) != PcOf(s', c)
    ensures Over(s'.target, PcOf(s', c).op, PcOf(s, c) == FailureLogged(PcOf(s', c).op))
  {
    assert a.JournalFinished? || a.JournalMarkedFailed? || a.SuccessSeen?;
  }

  /** A client comes to give the lock back either from the check under the lock, before it has started anything,
      or because the journal has ended: it has ended it itself, or found that it has succeeded. */
  lemma ClosedIsOver(states: seq<State>, actions: seq<Action>, k: nat, c: Client)
    requires IsRun(states, actions) && k < |actions| && PcOf(states[k + 1], c).Closing? && PcOf(states[k], c) != PcOf(states[k + 1], c)
    ensures var op := PcOf(states[k + 1], c).op;
            || PcOf(states[k], c) == Locked(op)
            || Over(states[k + 1].target, op, PcOf(states[k], c) == FailureLogged(op))
  {
    assert Moves(states[k], actions[k], states[k + 1]);
    if !actions[k].Rechecked? {
      ClosesOver(states[k], actions[k], states[k + 1], c);
    }
  }

  lemma OnlyCommitsWriteState(s: State, a: Action, s': State)
    requires Moves(s, a, s') && !WritesState(a)
    ensures s'.target.current == s.target.current && s'.target.topology == s.target.topology
    ensures s'.target.snapshots == s.target.snapshots
  {
  }

  /** What the latest operation is to commit is written, and nothing else. */
  ghost predicate CommitsOwn(t: Target, t': Target) {
    && t.latest.Some? && t.latest.value in t.journals && t'.latest == t.latest && t'.journals == t.journals
    && var plan := t.journals[t.latest.value].plan;
       && (t'.current != t.current ==> t'.current.Some? && IsCommitOf(t'.current.value, t.latest.value, plan))
       && forall n :: n in t'.snapshots && n !in t.snapshots ==> IsCommitOf(t'.snapshots[n], t.latest.value, plan)
  }

  lemma CommitsWriteOwn(s: State, a: Action, s': State)
    requires LogInv(s) && Moves(s, a, s') && WritesState(a)
    ensures CommitsOwn(s.target, s'.target)
  {
    assert s.clients[a.c].op in s.target.journals;
  }

  /** Nobody but the operation that was the last to take the lock writes current.json, topology.json or a
      snapshot, and it writes what it is to commit. */
  lemma StateIsWrittenByLatest(states: seq<State>, actions: seq<Action>, k: nat)
    requires IsRun(states, actions) && k < |actions|
    requires var t, t' := states[k].target, states[k + 1].target;
             t'.current != t.current || t'.topology != t.topology || t'.snapshots != t.snapshots
    ensures CommitsOwn(states[k].target, states[k + 1].target)
  {
    RunKeepsInv(states, actions, k);
    if WritesState(actions[k]) {
      CommitsWriteOwn(states[k], actions[k], states[k + 1]);
    } else {
      OnlyCommitsWriteState(states[k], actions[k], states[k + 1]);
    }
  }

  /** What a checked plan rests on: the generation it was made for, or its own commit. */
  ghost predicate StillCurrent(t: Target, op: OpId) {
    && op in t.journals
    && match t.current
       case None => t.journals[op].plan.mode == Bootstrap
       case Some(doc) =>
         || IsCommitOf(doc, op, t.journals[op].plan)
         || (t.journals[op].plan.mode == Applied && doc.generation == t.journals[op].plan.baselineGeneration
             && doc.installation == t.journals[op].plan.installation)
  }

  lemma CheckedIsCurrent(s: State, c: Client, ok: bool, s': State, op: OpId)
    requires LogInv(s) && Recheck(s, c, ok, s') && PcOf(s, c) == Locked(op) && PcOf(s', c).Loop?
    ensures StillCurrent(s'.target, op)
  {
    assert op in s.target.journals;
  }

  lemma StepStaysCurrent(s: State, a: Action, s': State, op: OpId)
    requires Inv(s) && Moves(s, a, s') && s.target.latest == Some(op) && StillCurrent(s.target, op)
    ensures StillCurrent(s'.target, op)
  {
    StepKeepsPlans(s, a, s');
    if WritesState(a) {
      CommitsWriteOwn(s, a, s');
    } else {
      OnlyCommitsWriteState(s, a, s');
    }
  }

  lemma StepKeepsPlans(s: State, a: Action, s': State)
    requires LogInv(s) && Moves(s, a, s')
    ensures PlansStay(s.target, s'.target)
  {
    if WritesRecord(a) {
      WriteLeavesChain(s, a, s');
    } else if a.LockTaken? {
      LockKeepsPlans(s, a.c, s');
    } else {
      OthersKeepPlans(s, a, s');
    }
  }

  lemma LockKeepsPlans(s: State, c: Client, s': State)
    requires LogInv(s) && TakeLock(s, c, s')
    ensures PlansStay(s.target, s'.target)
  {
    assert ClientRecord(s, s.clients[c]);
  }

  lemma OthersKeepPlans(s: State, a: Action, s': State)
    requires Moves(s, a, s') && !WritesRecord(a) && !a.LockTaken?
    ensures s'.target.journals == s.target.journals
  {
  }

  lemma CheckPasses(states: seq<State>, actions: seq<Action>, k: nat, op: OpId)
    requires IsRun(states, actions) && k < |actions|
    requires actions[k].Rechecked? && PcOf(states[k], actions[k].c) == Locked(op) && PcOf(states[k + 1], actions[k].c).Loop?
    ensures StillCurrent(states[k + 1].target, op)
  {
    RunKeepsInv(states, actions, k);
    assert Moves(states[k], actions[k], states[k + 1]);
    CheckedIsCurrent(states[k], actions[k].c, actions[k].ok, states[k + 1], op);
  }

  lemma RunStepStaysCurrent(states: seq<State>, actions: seq<Action>, k: nat, op: OpId)
    requires IsRun(states, actions) && k < |actions| && states[k].target.latest == Some(op) && StillCurrent(states[k].target, op)
    ensures StillCurrent(states[k + 1].target, op)
  {
    RunKeepsInv(states, actions, k);
    assert Moves(states[k], actions[k], states[k + 1]);
    StepStaysCurrent(states[k], actions[k], states[k + 1], op);
  }

  /** A plan that passed the check under the lock stays current until another operation takes the lock: the
      generation and the installation that it was made for, and then its own commit. */
  lemma {:induction false} CheckedPlanStaysCurrent(states: seq<State>, actions: seq<Action>, k: nat, m: nat, op: OpId)
    requires IsRun(states, actions) && k < m < |states|
    requires actions[k].Rechecked? && PcOf(states[k], actions[k].c) == Locked(op) && PcOf(states[k + 1], actions[k].c).Loop?
    requires forall i :: k <= i < m ==> states[i].target.latest == Some(op)
    ensures StillCurrent(states[m].target, op)
    decreases m
  {
    if m - 1 == k {
      CheckPasses(states, actions, k, op);
    } else {
      CheckedPlanStaysCurrent(states, actions, k, m - 1, op);
      RunStepStaysCurrent(states, actions, m - 1, op);
    }
  }

  // Interrupted commits, failures and what may go wrong at any time.

  /** The snapshot of the operation's generation is there, and says what the operation is to commit. */
  ghost predicate Published(t: Target, op: OpId) {
    && op in t.journals
    && exists n :: n in t.snapshots && t.snapshots[n].generation == n && IsCommitOf(t.snapshots[n], op, t.journals[op].plan)
  }

  /** And so do both pointers. */
  predicate Pointed(t: Target, op: OpId) {
    && op in t.journals && t.current.Some? && IsCommitOf(t.current.value, op, t.journals[op].plan) && OneCommit(t)
  }

  /** An interrupted commit is dispatched again only while its snapshot is there and a pointer is not. */
  lemma CommitIsDispatchedAgain(states: seq<State>, actions: seq<Action>, k: nat)
    requires IsRun(states, actions) && k < |actions| && actions[k].CommitDispatchedAgain?
    ensures PcOf(states[k], actions[k].c).Loop?
    ensures var t, op := states[k].target, PcOf(states[k], actions[k].c).op;
            Published(t, op) && !Pointed(t, op)
  {
    assert Moves(states[k], actions[k], states[k + 1]);
    RunKeepsInv(states, actions, k);
    MatchMeansPublished(states[k].target, PcOf(states[k], actions[k].c).op);
  }

  /** Its success is recorded, without a dispatch or behind a second one, only when everything is there. */
  lemma CommitIsRecovered(states: seq<State>, actions: seq<Action>, k: nat)
    requires IsRun(states, actions) && k < |actions|
    requires || actions[k].CommitRecovered?
             || (actions[k].SuccessRecorded? && PcOf(states[k], actions[k].c).Dispatched? && PcOf(states[k], actions[k].c).again)
    ensures PcOf(states[k], actions[k].c).Loop? || PcOf(states[k], actions[k].c).Dispatched?
    ensures var t, op := states[k].target, PcOf(states[k], actions[k].c).op;
            Published(t, op) && Pointed(t, op)
  {
    assert Moves(states[k], actions[k], states[k + 1]);
    RunKeepsInv(states, actions, k);
    MatchMeansPublished(states[k].target, PcOf(states[k], actions[k].c).op);
  }

  lemma MatchMeansPublished(t: Target, op: OpId)
    requires op in t.journals
    ensures SnapshotMatches(t, op, PlanOf(t, op)) ==> Published(t, op)
    ensures PointersMatch(t, op, PlanOf(t, op)) <==> Pointed(t, op)
  {
    if SnapshotMatches(t, op, PlanOf(t, op)) {
      assert t.snapshots[CommitGeneration(PlanOf(t, op))].generation == CommitGeneration(PlanOf(t, op));
    }
  }

  /** In the middle of a step that it has started itself. */
  predicate OwnStep(pc: Pc) {
    pc.DispatchFailed? || (pc.Dispatching? && !pc.again) || (pc.Dispatched? && !pc.again)
  }

  /** Only a commit is dispatched a second time. */
  ghost predicate AgainIsCommit(s: State) {
    forall c :: c in s.clients && s.clients[c].Dispatching? && s.clients[c].again ==>
      s.clients[c].op in s.target.journals && CommitStep(s.target, s.clients[c].op, s.clients[c].i)
  }

  lemma DispatchedTwice(s: State, a: Action, s': State, c: Client)
    requires Moves(s, a, s') && !a.CommitDispatchedAgain? && PcOf(s', c).Dispatching? && PcOf(s', c).again
    ensures PcOf(s, c).Dispatching? && PcOf(s, c).again && PcOf(s, c).op == PcOf(s', c).op && PcOf(s, c).i == PcOf(s', c).i
  {
  }

  lemma CommitStays(t: Target, t': Target, op: OpId, i: nat)
    requires PlansStay(t, t') && op in t.journals && CommitStep(t, op, i)
    ensures op in t'.journals && CommitStep(t', op, i)
  {
  }

  lemma AgainComesFromCommit(s: State, c: Client, s': State, d: Client)
    requires LogInv(s) && DispatchAgain(s, c, s') && AgainIsCommit(s)
    requires d in s'.clients && s'.clients[d].Dispatching? && s'.clients[d].again
    ensures s'.clients[d].op in s.target.journals && CommitStep(s.target, s'.clients[d].op, s'.clients[d].i)
  {
    assert s.clients[c].op in s.target.journals;
  }

  lemma StepKeepsAgain(s: State, a: Action, s': State)
    requires LogInv(s) && Moves(s, a, s') && AgainIsCommit(s)
    ensures AgainIsCommit(s')
  {
    StepKeepsPlans(s, a, s');
    forall c | c in s'.clients && s'.clients[c].Dispatching? && s'.clients[c].again
      ensures s'.clients[c].op in s'.target.journals && CommitStep(s'.target, s'.clients[c].op, s'.clients[c].i)
    {
      if a.CommitDispatchedAgain? {
        AgainComesFromCommit(s, a.c, s', c);
      } else {
        DispatchedTwice(s, a, s', c);
      }
      CommitStays(s.target, s'.target, s'.clients[c].op, s'.clients[c].i);
    }
  }

  lemma {:induction false} RunKeepsAgain(states: seq<State>, actions: seq<Action>, k: nat)
    requires IsRun(states, actions) && k < |states|
    ensures AgainIsCommit(states[k])
  {
    if k > 0 {
      RunKeepsAgain(states, actions, k - 1);
      RunKeepsInv(states, actions, k - 1);
      assert Moves(states[k - 1], actions[k - 1], states[k]);
      StepKeepsAgain(states[k - 1], actions[k - 1], states[k]);
    }
  }

  predicate AtWork(a: Action) {
    a.EffectApplied? || a.SnapshotPublished? || a.TopologyWritten? || a.CurrentWritten? || a.CommitFailed?
  }

  lemma WorkGoesOn(s: State, a: Action, s': State)
    requires Moves(s, a, s') && AgainIsCommit(s) && AtWork(a) && OwnStep(PcOf(s', a.c))
    ensures OwnStep(PcOf(s, a.c)) && PcOf(s, a.c).op == PcOf(s', a.c).op && PcOf(s, a.c).i == PcOf(s', a.c).i
  {
  }

  lemma NoOtherWork(s: State, a: Action, s': State)
    requires Moves(s, a, s') && !AtWork(a) && !a.StepStarted? && !a.LeaseLost?
    ensures !OwnStep(PcOf(s', a.c))
  {
  }

  lemma OthersStand(s: State, a: Action, s': State, c: Client)
    requires Moves(s, a, s') && Actor(a) != Some(c)
    ensures PcOf(s', c) == PcOf(s, c)
  {
  }

  lemma OwnStepGoesOn(s: State, a: Action, s': State, c: Client)
    requires Moves(s, a, s') && AgainIsCommit(s) && OwnStep(PcOf(s', c)) && a != StepStarted(c)
    ensures OwnStep(PcOf(s, c)) && PcOf(s, c).op == PcOf(s', c).op && PcOf(s, c).i == PcOf(s', c).i
  {
    if Actor(a) != Some(c) {
      OthersStand(s, a, s', c);
    } else if AtWork(a) {
      WorkGoesOn(s, a, s');
    } else {
      NoOtherWork(s, a, s');
    }
  }

  /** Whoever is in the middle of a first dispatch, or has seen it fail, has written its started event. */
  lemma {:induction false} OwnStepWasStarted(states: seq<State>, actions: seq<Action>, k: nat, c: Client) returns (j: nat)
    requires IsRun(states, actions) && k < |states| && OwnStep(PcOf(states[k], c))
    ensures j < k && actions[j] == StepStarted(c) && PcOf(states[j], c).Loop?
    ensures PcOf(states[j], c).op == PcOf(states[k], c).op && PcOf(states[j], c).i == PcOf(states[k], c).i
  {
    assert k > 0;
    assert Moves(states[k - 1], actions[k - 1], states[k]);
    if actions[k - 1] == StepStarted(c) {
      j := k - 1;
    } else {
      RunKeepsAgain(states, actions, k - 1);
      OwnStepGoesOn(states[k - 1], actions[k - 1], states[k], c);
      j := OwnStepWasStarted(states, actions, k - 1, c);
    }
  }

  /** A failure is recorded by the client that has started the step, for its own dispatch: a resume that fails
      to finish an interrupted commit records nothing, and a first dispatch that fails is still to be recorded. */
  lemma FailureIsOfOwnStep(states: seq<State>, actions: seq<Action>, k: nat) returns (j: nat)
    requires IsRun(states, actions) && k < |actions| && actions[k].FailureRecorded?
    ensures j < k && actions[j] == StepStarted(actions[k].c)
    ensures PcOf(states[j], actions[k].c).Loop? && PcOf(states[k], actions[k].c).DispatchFailed?
    ensures PcOf(states[j], actions[k].c).op == PcOf(states[k], actions[k].c).op
    ensures PcOf(states[j], actions[k].c).i == PcOf(states[k], actions[k].c).i
  {
    assert Moves(states[k], actions[k], states[k + 1]);
    j := OwnStepWasStarted(states, actions, k, actions[k].c);
  }

  /** What may befall a run at any time is in the model: the lease is lost; a client stops; a dispatch of an
      ordinary step fails with or without its effect; one of state.commit fails wherever it is, also when
      everything has been written, and then a first one is still to be recorded as failed. */
  lemma TroubleIsPossible(s: State, c: Client)
    requires c in s.clients
    ensures Moves(s, LeaseLost, s.(target := s.target.(owner := None)))
    ensures Moves(s, ClientStopped(c), s.(clients := s.clients[c := Stopped]))
    ensures var pc := s.clients[c];
            pc.Dispatching? && !CommitStep(s.target, pc.op, pc.i) ==>
              var failed := s.clients[c := DispatchFailed(pc.op, pc.view, pc.i)];
              && Moves(s, EffectApplied(c, false, false), s.(clients := failed))
              && Moves(s, EffectApplied(c, true, false),
                       s.(clients := failed, target := s.target.(effects := s.target.effects + [(pc.op, pc.i)])))
    ensures var pc := s.clients[c];
            (pc.Dispatching? || pc.Dispatched?) && CommitStep(s.target, pc.op, pc.i) ==>
              Moves(s, CommitFailed(c),
                    s.(clients := s.clients[c := if pc.again then Stopped else DispatchFailed(pc.op, pc.view, pc.i)]))
  {
  }
}
