/** The chain of generations that the committed state of a target goes through. */
module ApplyChain {
  import opened Sequences
  import opened PlanTypes
  import opened ApplyProtocol
  import opened ApplySafety

  function G(t: Target): nat {
    Generation(t)
  }

  /** The snapshots are those of the generations up to the current one, and possibly of the one
      being committed; each is its own operation's. */
  ghost predicate Snapshots(t: Target) {
    && (forall n :: n in t.snapshots ==>
          && 1 <= n <= G(t) + 1
          && t.snapshots[n].operation in t.journals
          && CommitGeneration(PlanOf(t, t.snapshots[n].operation)) == n
          && Matches(t.snapshots[n], t.snapshots[n].operation, PlanOf(t, t.snapshots[n].operation)))
    && (forall n :: 1 <= n <= G(t) ==> n in t.snapshots)
  }

  ghost predicate Pointers(t: Target) {
    && (t.current.Some? ==>
          G(t) >= 1 && G(t) in t.snapshots && WithoutVolatile(t.current.value) == WithoutVolatile(t.snapshots[G(t)]))
    && (t.topology.None? ==> t.current.None?)
    && (t.topology.Some? ==>
          || (G(t) in t.snapshots && t.topology.value == TopologyOf(t.snapshots[G(t)]))
          || (G(t) + 1 in t.snapshots && t.topology.value == TopologyOf(t.snapshots[G(t) + 1])))
  }

  /** The plan was made for the installation that is there, and for one that is being installed. */
  predicate PlanBound(t: Target, plan: Plan) {
    plan.mode == Applied ==> t.current.Some? && plan.installation == t.current.value.installation
  }

  /** The latest operation may have planned from an inspection that was out of date when it took the
      lock; but once its own snapshot is there, nothing has gone beyond its generation. */
  ghost predicate LatestBound(t: Target, op: OpId) {
    var generation := CommitGeneration(PlanOf(t, op));
    && op in t.journals && generation <= G(t) + 1
    && (SnapshotMatches(t, op, PlanOf(t, op)) ==> G(t) <= generation && generation + 1 !in t.snapshots)
  }

  ghost predicate JournalsBound(t: Target) {
    && (forall op :: op in t.journals ==> PlanBound(t, t.journals[op].plan))
    && (t.latest.Some? ==> LatestBound(t, t.latest.value))
  }

  ghost predicate TargetChain(t: Target) {
    Snapshots(t) && Pointers(t) && JournalsBound(t)
  }

  /** What was seen some time ago. */
  ghost predicate SeenBefore(t: Target, seen: Seen) {
    && seen.generation <= G(t)
    && (seen.installation.Some? ==> t.current.Some? && t.current.value.installation == seen.installation.value)
  }

  ghost predicate ClientChain(t: Target, pc: Pc) {
    && (pc.Inspected? || pc.Starting? ==> SeenBefore(t, pc.seen))
    && (pc.Planned? ==> PlanBound(t, pc.plan) && CommitGeneration(pc.plan) <= G(t) + 1)
    && (pc.Dispatching? && (pc.again || pc.stage != Publishing) ==> SnapshotMatches(t, pc.op, PlanOf(t, pc.op)))
    && (pc.Dispatching? && pc.stage == WritingCurrent && t.latest == Some(pc.op) ==>
          t.topology == Some(TopologyOf(Expected(pc.op, PlanOf(t, pc.op), 0))))
  }

  ghost predicate ChainInv(s: State) {
    && TargetChain(s.target)
    && (forall c :: c in s.clients ==> ClientChain(s.target, s.clients[c]))
  }

  /** What no step ever does to the committed state. */
  ghost predicate ChainGrows(t: Target, t': Target) {
    && G(t) <= G(t') <= G(t) + 1
    && (forall n :: n in t.snapshots ==> n in t'.snapshots && t'.snapshots[n] == t.snapshots[n])
    && (t.current.Some? ==> t'.current.Some? && t'.current.value.installation == t.current.value.installation)
  }

  ghost predicate PlansStay(t: Target, t': Target) {
    forall op :: op in t.journals ==> op in t'.journals && t'.journals[op].plan == t.journals[op].plan
  }

  /** Steps that leave snapshots, pointers, plans and the latest lock as they are. */
  ghost predicate SameChain(t: Target, t': Target) {
    && t'.snapshots == t.snapshots && t'.topology == t.topology && t'.current == t.current
    && t'.latest == t.latest && t'.journals.Keys == t.journals.Keys && PlansStay(t, t')
  }

  lemma SameTargetChain(t: Target, t': Target)
    requires TargetChain(t) && SameChain(t, t')
    ensures TargetChain(t') && ChainGrows(t, t')
  {
  }

  lemma QuietKeepsChain(s: State, c: Client, s': State)
    requires LogInv(s) && ChainInv(s) && OnlyMoves(s, c, s') && SameChain(s.target, s'.target)
    requires ClientChain(s'.target, s'.clients[c])
    ensures ChainInv(s')
  {
    SameTargetChain(s.target, s'.target);
    forall d | d in s'.clients ensures ClientChain(s'.target, s'.clients[d]) {
      if d != c {
        assert ClientRecord(s, s.clients[d]);
      }
    }
  }

  predicate InLoop(a: Action) {
    a.StepSkipped? || a.CommitDispatchedAgain? || a.EffectApplied? || a.CommitFailed?
  }

  predicate WritesRecord(a: Action) {
    || a.StepStarted? || a.CommitRecovered? || a.SuccessRecorded? || a.FailureRecorded?
    || a.JournalMarkedFailed? || a.JournalFinished?
  }

  lemma PlanKeepsChain(s: State, c: Client, op: OpId, plan: Plan, s': State)
    requires LogInv(s) && ChainInv(s) && ComputePlan(s, c, op, plan, s')
    ensures ChainInv(s') && ChainGrows(s.target, s'.target)
  {
    QuietKeepsChain(s, c, s');
  }

  lemma LoopKeepsChain(s: State, a: Action, s': State)
    requires LogInv(s) && ChainInv(s) && Moves(s, a, s') && InLoop(a)
    ensures ChainInv(s') && ChainGrows(s.target, s'.target)
  {
    QuietKeepsChain(s, a.c, s');
  }

  lemma MoveKeepsChain(s: State, a: Action, s': State)
    requires LogInv(s) && ChainInv(s) && Moves(s, a, s')
    requires || a.TargetInspected? || a.LeaseAcquired? || a.ClientStopped? || a.Rechecked? || a.EventsRead? || a.SuccessSeen?
             || a.LockReleased?
    ensures ChainInv(s') && ChainGrows(s.target, s'.target)
  {
    QuietKeepsChain(s, a.c, s');
  }

  lemma WriteLeavesChain(s: State, a: Action, s': State)
    requires LogInv(s) && Moves(s, a, s') && WritesRecord(a)
    ensures OnlyMoves(s, a.c, s') && SameChain(s.target, s'.target)
    ensures ClientChain(s'.target, s'.clients[a.c])
  {
    assert ClientRecord(s, s.clients[a.c]);
  }

  lemma WriteKeepsChain(s: State, a: Action, s': State)
    requires LogInv(s) && ChainInv(s) && Moves(s, a, s') && WritesRecord(a)
    ensures ChainInv(s') && ChainGrows(s.target, s'.target)
  {
    WriteLeavesChain(s, a, s');
    SameTargetChain(s.target, s'.target);
    QuietKeepsChain(s, a.c, s');
  }

  lemma OthersKeepChain(s: State, c: Client, s': State)
    requires LogInv(s) && ChainInv(s) && OnlyMoves(s, c, s') && ChainGrows(s.target, s'.target)
    requires PlansStay(s.target, s'.target)
    requires s'.target.latest == s.target.latest
    requires s'.target.topology == s.target.topology ||
             forall d :: d in s.clients && d != c && s.clients[d].Dispatching? && s.target.latest == Some(s.clients[d].op) ==>
               ClientChain(s'.target, s.clients[d])
    ensures forall d :: d in s'.clients && d != c ==> ClientChain(s'.target, s'.clients[d])
  {
    forall d | d in s'.clients && d != c ensures ClientChain(s'.target, s'.clients[d]) {
      assert ClientRecord(s, s.clients[d]);
    }
  }

  lemma LockKeepsTarget(t: Target, op: OpId, plan: Plan, t': Target)
    requires TargetChain(t) && op !in t.journals && PlanBound(t, plan)
    requires CommitGeneration(plan) <= G(t) + 1
    requires t' == t.(lock := Some(op), latest := Some(op), journals := t.journals[op := Journal(plan, InProgress, None)],
                      events := t.events[op := []])
    ensures TargetChain(t') && ChainGrows(t, t') && PlansStay(t, t')
  {
  }

  lemma LockKeepsChain(s: State, c: Client, s': State)
    requires LogInv(s) && ChainInv(s) && TakeLock(s, c, s')
    ensures ChainInv(s') && ChainGrows(s.target, s'.target)
  {
    var t, t' := s.target, s'.target;
    var pc := s.clients[c];
    assert ClientRecord(s, pc) && ClientChain(t, pc);
    LockKeepsTarget(t, pc.op, pc.plan, t');
    forall d | d in s'.clients ensures ClientChain(t', s'.clients[d]) {
      if d != c {
        assert ClientRecord(s, s.clients[d]) && ClientChain(t, s.clients[d]);
      }
    }
  }

  lemma TopologyKeepsTarget(t: Target, op: OpId, t': Target)
    requires TargetChain(t) && t.latest == Some(op) && SnapshotMatches(t, op, PlanOf(t, op))
    requires t' == t.(topology := Some(TopologyOf(Expected(op, PlanOf(t, op), 0))))
    ensures TargetChain(t') && ChainGrows(t, t') && PlansStay(t, t')
  {
    assert TopologyOf(t.snapshots[CommitGeneration(PlanOf(t, op))]) == TopologyOf(Expected(op, PlanOf(t, op), 0));
  }

  lemma TopologyKeepsChain(s: State, c: Client, s': State)
    requires LogInv(s) && ChainInv(s) && WriteTopology(s, c, s')
    ensures ChainInv(s') && ChainGrows(s.target, s'.target)
  {
    var pc := s.clients[c];
    assert ClientRecord(s, pc) && ClientChain(s.target, pc);
    TopologyKeepsTarget(s.target, pc.op, s'.target);
    OthersKeepChain(s, c, s');
  }

  /** A snapshot that was not there yet is the one of the generation after the current one. */
  lemma NewSnapshot(t: Target, op: OpId, doc: Doc)
    requires TargetChain(t) && t.latest == Some(op) && op in t.journals
    requires WithoutVolatile(doc) == Expected(op, PlanOf(t, op), 0) && doc.generation !in t.snapshots
    ensures doc.generation == G(t) + 1
    ensures TargetChain(t.(snapshots := t.snapshots[doc.generation := doc]))
  {
    var t' := t.(snapshots := t.snapshots[doc.generation := doc]);
    assert Snapshots(t');
    assert Pointers(t');
  }

  /** The snapshot is new. */
  lemma PublishNew(s: State, c: Client, at: nat, s': State)
    requires LogInv(s) && ChainInv(s) && Publish(s, c, at, s')
    requires CommitGeneration(PlanOf(s.target, s.clients[c].op)) !in s.target.snapshots
    ensures TargetChain(s'.target) && ChainGrows(s.target, s'.target) && PlansStay(s.target, s'.target)
    ensures OnlyMoves(s, c, s') && ClientChain(s'.target, s'.clients[c])
    ensures s'.target.latest == s.target.latest && s'.target.topology == s.target.topology
  {
    var pc := s.clients[c];
    assert ClientRecord(s, pc);
    NewSnapshot(s.target, pc.op, Expected(pc.op, PlanOf(s.target, pc.op), at));
  }

  /** It was there already. */
  lemma PublishNothing(s: State, c: Client, at: nat, s': State)
    requires Publish(s, c, at, s') && CommitGeneration(PlanOf(s.target, s.clients[c].op)) in s.target.snapshots
    ensures OnlyMoves(s, c, s') && SameChain(s.target, s'.target) && ClientChain(s'.target, s'.clients[c])
  {
  }

  lemma PublishKeepsChain(s: State, c: Client, at: nat, s': State)
    requires LogInv(s) && ChainInv(s) && Publish(s, c, at, s')
    ensures ChainInv(s') && ChainGrows(s.target, s'.target)
  {
    if CommitGeneration(PlanOf(s.target, s.clients[c].op)) !in s.target.snapshots {
      PublishNew(s, c, at, s');
      OthersKeepChain(s, c, s');
    } else {
      PublishNothing(s, c, at, s');
      SameTargetChain(s.target, s'.target);
      QuietKeepsChain(s, c, s');
    }
  }

  lemma CurrentKeepsTarget(t: Target, op: OpId, at: nat, t': Target)
    requires TargetChain(t) && t.latest == Some(op) && SnapshotMatches(t, op, PlanOf(t, op))
    requires t.topology == Some(TopologyOf(Expected(op, PlanOf(t, op), 0)))
    requires t' == t.(current := Some(Expected(op, PlanOf(t, op), at)))
    ensures TargetChain(t') && ChainGrows(t, t') && PlansStay(t, t')
  {
    assert PlanBound(t, PlanOf(t, op));
    assert Snapshots(t') && Pointers(t') && JournalsBound(t');
  }

  lemma CurrentKeepsChain(s: State, c: Client, at: nat, s': State)
    requires LogInv(s) && ChainInv(s) && WriteCurrent(s, c, at, s')
    ensures ChainInv(s') && ChainGrows(s.target, s'.target)
  {
    var pc := s.clients[c];
    assert ClientRecord(s, pc) && ClientChain(s.target, pc);
    CurrentKeepsTarget(s.target, pc.op, at, s'.target);
    OthersKeepChain(s, c, s');
  }

  predicate WritesState(a: Action) {
    a.SnapshotPublished? || a.TopologyWritten? || a.CurrentWritten?
  }

  lemma CommitKeepsChain(s: State, a: Action, s': State)
    requires LogInv(s) && ChainInv(s) && Moves(s, a, s') && WritesState(a)
    ensures ChainInv(s') && ChainGrows(s.target, s'.target)
  {
    if a.SnapshotPublished? {
      PublishKeepsChain(s, a.c, a.at, s');
    } else if a.TopologyWritten? {
      TopologyKeepsChain(s, a.c, s');
    } else {
      CurrentKeepsChain(s, a.c, a.at, s');
    }
  }

  lemma LeaseLostKeepsChain(s: State, s': State)
    requires ChainInv(s) && LoseLease(s, s')
    ensures ChainInv(s') && ChainGrows(s.target, s'.target)
  {
    SameTargetChain(s.target, s'.target);
  }

  lemma ClientKeepsChain(s: State, a: Action, s': State)
    requires LogInv(s) && ChainInv(s) && Moves(s, a, s')
    requires !WritesState(a) && !InLoop(a) && !WritesRecord(a)
    ensures ChainInv(s') && ChainGrows(s.target, s'.target)
  {
    if a.LeaseLost? {
      LeaseLostKeepsChain(s, s');
    } else if a.PlanComputed? {
      PlanKeepsChain(s, a.c, a.op, a.plan, s');
    } else if a.LockTaken? {
      LockKeepsChain(s, a.c, s');
    } else {
      MoveKeepsChain(s, a, s');
    }
  }

  lemma StepKeepsChain(s: State, a: Action, s': State)
    requires LogInv(s) && ChainInv(s) && Moves(s, a, s')
    ensures ChainInv(s') && ChainGrows(s.target, s'.target)
  {
    if WritesState(a) {
      CommitKeepsChain(s, a, s');
    } else if InLoop(a) {
      LoopKeepsChain(s, a, s');
    } else if WritesRecord(a) {
      WriteKeepsChain(s, a, s');
    } else {
      ClientKeepsChain(s, a, s');
    }
  }
}
