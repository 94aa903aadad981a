/** What a completed operation has done: every ordinary step once and in order, whatever crashes,
    resumes and lost leases lie behind it. */
module ApplyCompletion {
  import opened Sequences
  import opened StepHistory
  import opened PlanTypes
  import opened ApplyProtocol
  import opened ApplyLogs
  import opened ApplySafety
  import opened ApplyEffects
  import opened ApplyChain
  import opened ApplyDurability
  import opened ApplyTheorems

  /** In the middle of a step that is not state.commit. */
  predicate Works(t: Target, pc: Pc) {
    (pc.Dispatching? || pc.Dispatched? || pc.DispatchFailed?) && !CommitStep(t, pc.op, pc.i)
  }

  predicate SameWork(p: Pc, q: Pc) {
    && (p.Dispatching? || p.Dispatched? || p.DispatchFailed?) && (q.Dispatching? || q.Dispatched? || q.DispatchFailed?)
    && p.op == q.op && p.i == q.i
  }

  /** The step a client is in the middle of is the last one in the log; when it is over it has had its effect. */
  ghost predicate WorkRecorded(t: Target, pc: Pc) {
    Works(t, pc) ==>
      && pc.op in t.journals && pc.i < |StepsOf(t, pc.op)| && |LogOf(t, pc.op)| == 2 * pc.i + 1
      && (pc.Dispatched? ==> (pc.op, pc.i) in t.effects)
  }

  /** Every ordinary step that has succeeded has had its effect. */
  ghost predicate SuccessHasEffect(t: Target) {
    forall op, i: nat :: op in t.journals && i < |StepsOf(t, op)| && !CommitStep(t, op, i) && StepSucceeded(t, op, i) ==>
      (op, i) in t.effects
  }

  ghost predicate EffectsInOrder(t: Target) {
    forall x, y :: 0 <= x < y < |t.effects| && t.effects[x].0 == t.effects[y].0 ==> t.effects[x].1 < t.effects[y].1
  }

  ghost predicate WorkInv(s: State) {
    && SuccessHasEffect(s.target) && EffectsInOrder(s.target)
    && (forall c :: c in s.clients ==> WorkRecorded(s.target, s.clients[c]))
    && forall c, d :: c in s.clients && d in s.clients && c != d && SameWork(s.clients[c], s.clients[d]) ==>
         !Works(s.target, s.clients[c])
  }

  /** Steps that leave logs, effects and everybody's work as they are, or end the client's own work. */
  lemma WorkStays(s: State, c: Client, s': State)
    requires LogInv(s) && WorkInv(s) && OnlyMoves(s, c, s') && PlansStay(s.target, s'.target)
    requires s'.target.effects == s.target.effects
    requires forall op :: op in s.target.journals ==> LogOf(s'.target, op) == LogOf(s.target, op)
    requires forall op :: op in s'.target.journals && op !in s.target.journals ==> LogOf(s'.target, op) == []
    requires Works(s'.target, s'.clients[c]) ==>
               c in s.clients && SameWork(s.clients[c], s'.clients[c]) && WorkRecorded(s'.target, s'.clients[c])
    ensures WorkInv(s')
  {
    forall d | d in s'.clients ensures WorkRecorded(s'.target, s'.clients[d]) {
      if d != c {
        assert WorkRecorded(s.target, s.clients[d]) && ClientRecord(s, s.clients[d]);
      }
    }
    forall d, e | d in s'.clients && e in s'.clients && d != e && SameWork(s'.clients[d], s'.clients[e])
      ensures !Works(s'.target, s'.clients[d])
    {
      if d != c {
        assert ClientRecord(s, s.clients[d]);
      }
      if e != c {
        assert ClientRecord(s, s.clients[e]);
      }
    }
    forall op, i: nat | op in s'.target.journals && i < |StepsOf(s'.target, op)| && !CommitStep(s'.target, op, i)
                        && StepSucceeded(s'.target, op, i)
      ensures (op, i) in s'.target.effects
    {
      assert StepSucceeded(s.target, op, i) && !CommitStep(s.target, op, i);
    }
  }

  lemma SuccessAfterAppend(t: Target, op: OpId, i: nat, phase: Phase, t': Target)
    requires SuccessHasEffect(t) && op in t.journals && t' == Append(t, op, i, phase)
    requires |LogOf(t, op)| == if phase == Started then 2 * i else 2 * i + 1
    requires phase == Succeeded && i < |StepsOf(t, op)| && !CommitStep(t, op, i) ==> (op, i) in t.effects
    ensures SuccessHasEffect(t')
  {
    forall o, k: nat | o in t'.journals && k < |StepsOf(t', o)| && !CommitStep(t', o, k) && StepSucceeded(t', o, k)
      ensures (o, k) in t'.effects
    {
      if o != op || 2 * k + 1 < |LogOf(t, op)| {
        assert StepSucceeded(t, o, k) && !CommitStep(t, o, k);
      }
    }
  }

  /** The other clients, none of which works on `op`. */
  lemma OthersAfterAppend(s: State, c: Client, s': State, op: OpId, i: nat, phase: Phase, d: Client)
    requires LogInv(s) && WorkInv(s) && OnlyMoves(s, c, s') && op in s.target.journals
    requires s'.target == Append(s.target, op, i, phase) && d in s.clients && d != c
    requires Works(s.target, s.clients[d]) ==> s.clients[d].op != op
    ensures WorkRecorded(s'.target, s'.clients[d])
    ensures Works(s'.target, s'.clients[d]) ==> Works(s.target, s.clients[d])
  {
    assert WorkRecorded(s.target, s.clients[d]);
  }

  /** One event is added to the log of `op`, on whose steps nobody else works. */
  lemma WorkAfterAppend(s: State, c: Client, s': State, op: OpId, i: nat, phase: Phase)
    requires LogInv(s) && WorkInv(s) && OnlyMoves(s, c, s') && op in s.target.journals
    requires s'.target == Append(s.target, op, i, phase)
    requires |LogOf(s.target, op)| == if phase == Started then 2 * i else 2 * i + 1
    requires forall d :: d in s.clients && d != c && Works(s.target, s.clients[d]) ==> s.clients[d].op != op
    requires phase == Succeeded && i < |StepsOf(s.target, op)| && !CommitStep(s.target, op, i) ==> (op, i) in s.target.effects
    requires Works(s'.target, s'.clients[c]) ==>
               && s'.clients[c].Dispatching? && s'.clients[c].op == op && s'.clients[c].i == i && phase == Started
               && i < |StepsOf(s.target, op)|
    ensures WorkInv(s')
  {
    SuccessAfterAppend(s.target, op, i, phase, s'.target);
    forall d | d in s'.clients && d != c
      ensures WorkRecorded(s'.target, s'.clients[d]) && (Works(s'.target, s'.clients[d]) ==> Works(s.target, s.clients[d]))
    {
      OthersAfterAppend(s, c, s', op, i, phase, d);
    }
    assert WorkRecorded(s'.target, s'.clients[c]);
  }

  lemma StartKeepsWork(s: State, c: Client, s': State)
    requires LogInv(s) && WorkInv(s) && StartStep(s, c, s')
    ensures WorkInv(s')
  {
    var pc := s.clients[c];
    assert ClientRecord(s, pc);
    StartKeepsLogs(s, c, s');
    forall d | d in s.clients && d != c && Works(s.target, s.clients[d]) ensures s.clients[d].op != pc.op {
      assert WorkRecorded(s.target, s.clients[d]);
    }
    WorkAfterAppend(s, c, s', pc.op, pc.i, Started);
  }

  lemma RecoverKeepsWork(s: State, c: Client, s': State)
    requires LogInv(s) && WorkInv(s) && RecoverCommit(s, c, s')
    ensures WorkInv(s')
  {
    var pc := s.clients[c];
    assert ClientRecord(s, pc);
    OutcomeByLength(pc.op, StepsOf(s.target, pc.op), pc.view, pc.i);
    forall d | d in s.clients && d != c && Works(s.target, s.clients[d]) ensures s.clients[d].op != pc.op {
      assert WorkRecorded(s.target, s.clients[d]);
    }
    WorkAfterAppend(s, c, s', pc.op, pc.i, Succeeded);
  }

  lemma RecordKeepsWork(s: State, c: Client, s': State)
    requires LogInv(s) && WorkInv(s) && (RecordSuccess(s, c, s') || RecordFailure(s, c, s'))
    ensures WorkInv(s')
  {
    var pc := s.clients[c];
    assert ClientRecord(s, pc) && OwnerKnows(s.target, pc) && WorkRecorded(s.target, pc);
    forall d | d in s.clients && d != c && Works(s.target, s.clients[d]) ensures s.clients[d].op != pc.op {
      assert WorkRecorded(s.target, s.clients[d]);
      assert s.clients[d].op == pc.op ==> SameWork(s.clients[d], pc);
    }
    WorkAfterAppend(s, c, s', pc.op, pc.i, if RecordSuccess(s, c, s') then Succeeded else Failed);
  }

  lemma OrderAfterEffect(t: Target, op: OpId, i: nat)
    requires RecordedEffects(t) && EffectsInOrder(t) && |LogOf(t, op)| == 2 * i + 1 && (op, i) !in t.effects
    ensures EffectsInOrder(t.(effects := t.effects + [(op, i)]))
  {
    forall x | 0 <= x < |t.effects| && t.effects[x].0 == op ensures t.effects[x].1 < i {
      assert t.effects[x] in t.effects;
    }
  }

  lemma SuccessAfterEffect(t: Target, t': Target)
    requires SuccessHasEffect(t) && t'.journals == t.journals && t'.events == t.events && t.effects <= t'.effects
    ensures SuccessHasEffect(t')
  {
    forall o, k: nat | o in t'.journals && k < |StepsOf(t', o)| && !CommitStep(t', o, k) && StepSucceeded(t', o, k)
      ensures (o, k) in t'.effects
    {
      assert StepSucceeded(t, o, k) && !CommitStep(t, o, k);
    }
  }

  lemma EffectKeepsWork(s: State, c: Client, applied: bool, ok: bool, s': State)
    requires LogInv(s) && EffectInv(s) && WorkInv(s) && Effect(s, c, applied, ok, s')
    ensures WorkInv(s')
  {
    var pc := s.clients[c];
    assert WorkRecorded(s.target, pc) && PendingDispatch(s.target, pc);
    OrderAfterEffect(s.target, pc.op, pc.i);
    SuccessAfterEffect(s.target, s'.target);
    forall d | d in s'.clients ensures WorkRecorded(s'.target, s'.clients[d]) {
      if d != c {
        assert WorkRecorded(s.target, s.clients[d]);
      }
    }
  }

  lemma HostLeavesWork(s: State, a: Action, s': State)
    requires Moves(s, a, s') && Commits(a)
    ensures OnlyMoves(s, a.c, s') && s'.target.effects == s.target.effects && s'.target.events == s.target.events
    ensures s'.target.journals == s.target.journals && !Works(s'.target, s'.clients[a.c])
  {
  }

  lemma HostKeepsWork(s: State, a: Action, s': State)
    requires LogInv(s) && WorkInv(s) && Moves(s, a, s') && Commits(a)
    ensures WorkInv(s')
  {
    HostLeavesWork(s, a, s');
    WorkStays(s, a.c, s');
  }

  lemma JournalKeepsWork(s: State, a: Action, s': State)
    requires LogInv(s) && WorkInv(s) && Moves(s, a, s') && (a.JournalMarkedFailed? || a.JournalFinished?)
    ensures WorkInv(s')
  {
    assert ClientRecord(s, s.clients[a.c]);
    WorkStays(s, a.c, s');
  }

  lemma LockKeepsWork(s: State, c: Client, s': State)
    requires LogInv(s) && WorkInv(s) && TakeLock(s, c, s')
    ensures WorkInv(s')
  {
    assert ClientRecord(s, s.clients[c]);
    WorkStays(s, c, s');
  }

  lemma QuietLeavesTarget(s: State, a: Action, s': State)
    requires Moves(s, a, s') && !a.LeaseLost?
    requires !Writes(a) && !Commits(a) && !a.StepStarted? && !a.EffectApplied? && !a.LockTaken?
    ensures OnlyMoves(s, a.c, s') && PlansStay(s.target, s'.target)
    ensures s'.target.effects == s.target.effects && s'.target.events == s.target.events
    ensures s'.target.journals == s.target.journals
    ensures !Works(s'.target, s'.clients[a.c])
  {
  }

  lemma QuietKeepsWork(s: State, a: Action, s': State)
    requires LogInv(s) && WorkInv(s) && Moves(s, a, s')
    requires !Writes(a) && !Commits(a) && !a.StepStarted? && !a.EffectApplied? && !a.LockTaken?
    ensures WorkInv(s')
  {
    if a.LeaseLost? {
      LossKeepsWork(s, s');
    } else {
      QuietLeavesTarget(s, a, s');
      WorkStays(s, a.c, s');
    }
  }

  lemma LossKeepsWork(s: State, s': State)
    requires WorkInv(s) && LoseLease(s, s')
    ensures WorkInv(s')
  {
  }

  lemma WriteKeepsWork(s: State, a: Action, s': State)
    requires LogInv(s) && WorkInv(s) && Moves(s, a, s') && Writes(a)
    ensures WorkInv(s')
  {
    if a.CommitRecovered? {
      RecoverKeepsWork(s, a.c, s');
    } else if a.SuccessRecorded? || a.FailureRecorded? {
      RecordKeepsWork(s, a.c, s');
    } else {
      JournalKeepsWork(s, a, s');
    }
  }

  lemma StepKeepsWork(s: State, a: Action, s': State)
    requires LogInv(s) && EffectInv(s) && WorkInv(s) && Moves(s, a, s')
    ensures WorkInv(s')
  {
    if Writes(a) {
      WriteKeepsWork(s, a, s');
    } else if Commits(a) {
      HostKeepsWork(s, a, s');
    } else if a.StepStarted? {
      StartKeepsWork(s, a.c, s');
    } else if a.EffectApplied? {
      EffectKeepsWork(s, a.c, a.applied, a.ok, s');
    } else if a.LockTaken? {
      LockKeepsWork(s, a.c, s');
    } else {
      QuietKeepsWork(s, a, s');
    }
  }

  lemma {:induction false} RunKeepsWork(states: seq<State>, actions: seq<Action>, k: nat)
    requires IsRun(states, actions) && k < |states|
    ensures WorkInv(states[k])
  {
    if k > 0 {
      RunKeepsWork(states, actions, k - 1);
      RunKeepsInv(states, actions, k - 1);
      StepKeepsWork(states[k - 1], actions[k - 1], states[k]);
    }
  }

  // Completed operations.

  /** The effects that an operation has had, in order. */
  function EffectsOf(effects: seq<(OpId, nat)>, op: OpId): seq<nat> {
    if effects == [] then []
    else
      var last := effects[|effects| - 1];
      EffectsOf(effects[..|effects| - 1], op) + if last.0 == op then [last.1] else []
  }

  /** The places of the ordinary steps among the first `k`. */
  function Ordinary(steps: seq<Step>, k: nat): seq<nat>
    requires k <= |steps|
  {
    if k == 0 then [] else Ordinary(steps, k - 1) + if steps[k - 1].commit then [] else [k - 1]
  }

  ghost predicate Rising(s: seq<nat>) {
    forall x, y :: 0 <= x < y < |s| ==> s[x] < s[y]
  }

  lemma {:induction false} EffectsOfMembers(effects: seq<(OpId, nat)>, op: OpId, i: nat)
    ensures i in EffectsOf(effects, op) <==> (op, i) in effects
  {
    if effects != [] {
      var n := |effects| - 1;
      EffectsOfMembers(effects[..n], op, i);
      assert effects == effects[..n] + [effects[n]];
    }
  }

  lemma {:induction false} EffectsOfRise(effects: seq<(OpId, nat)>, op: OpId)
    requires forall x, y :: 0 <= x < y < |effects| && effects[x].0 == effects[y].0 ==> effects[x].1 < effects[y].1
    ensures Rising(EffectsOf(effects, op))
  {
    if effects != [] {
      var n := |effects| - 1;
      EffectsOfRise(effects[..n], op);
      if effects[n].0 == op {
        forall x | 0 <= x < |EffectsOf(effects[..n], op)| ensures EffectsOf(effects[..n], op)[x] < effects[n].1 {
          EffectsOfMembers(effects[..n], op, EffectsOf(effects[..n], op)[x]);
        }
      }
    }
  }

  lemma {:induction false} OrdinaryIs(steps: seq<Step>, k: nat)
    requires k <= |steps|
    ensures Rising(Ordinary(steps, k)) && forall i: nat :: i in Ordinary(steps, k) <==> i < k && !steps[i].commit
  {
    if k > 0 {
      OrdinaryIs(steps, k - 1);
      var before := Ordinary(steps, k - 1);
      forall x | 0 <= x < |before| ensures before[x] < k - 1 {
        assert before[x] in before;
      }
    }
  }

  lemma WithoutLast(a: seq<nat>)
    requires Rising(a) && a != []
    ensures Rising(a[..|a| - 1]) && forall i: nat :: i in a[..|a| - 1] <==> i in a && i != a[|a| - 1]
    ensures forall i: nat :: i in a ==> i <= a[|a| - 1]
  {
    assert a == a[..|a| - 1] + [a[|a| - 1]];
  }

  lemma {:induction false} SameRising(a: seq<nat>, b: seq<nat>)
    requires Rising(a) && Rising(b) && forall i: nat :: i in a <==> i in b
    ensures a == b
  {
    EmptyWithoutMembers(a);
    EmptyWithoutMembers(b);
    if a != [] {
      WithoutLast(a);
      WithoutLast(b);
      assert a[|a| - 1] in b && b[|b| - 1] in a;
      var a', b' := a[..|a| - 1], b[..|b| - 1];
      forall i: nat ensures i in a' <==> i in b' {
        assert i in a <==> i in b;
      }
      SameRising(a[..|a| - 1], b[..|b| - 1]);
    }
  }

  /** A journal that says "succeeded" belongs to an operation whose ordinary steps have all had their
      effect, each once and in the order of the plan. */
  lemma {:induction false} SucceededHasRun(states: seq<State>, actions: seq<Action>, k: nat, op: OpId)
    requires IsRun(states, actions) && k < |states| && op in states[k].target.journals
    requires states[k].target.journals[op].status == JournalSucceeded
    ensures var t := states[k].target; EffectsOf(t.effects, op) == Ordinary(StepsOf(t, op), |StepsOf(t, op)|)
  {
    var t := states[k].target;
    var steps := StepsOf(t, op);
    RunKeepsInv(states, actions, k);
    RunKeepsWork(states, actions, k);
    EffectsOfRise(t.effects, op);
    OrdinaryIs(steps, |steps|);
    forall i: nat ensures i in EffectsOf(t.effects, op) <==> i in Ordinary(steps, |steps|) {
      EffectsOfMembers(t.effects, op, i);
      if i < |steps| && !steps[i].commit {
        SucceededIsTrue(states, actions, k, op, i);
      }
    }
    SameRising(EffectsOf(t.effects, op), Ordinary(steps, |steps|));
  }

  /** Its log is that of a run without any trouble. */
  function CleanLog(op: OpId, steps: seq<Step>): seq<Event> {
    seq(2 * |steps|, j requires 0 <= j < 2 * |steps| =>
      Event(op, steps[j / 2].id, 1, if j % 2 == 0 then Started else Succeeded))
  }

  lemma FullLogIsClean(op: OpId, steps: seq<Step>, log: seq<Event>)
    requires LogOk(op, steps, log) && |log| == 2 * |steps|
    requires steps != [] ==> log[|log| - 1].phase == Succeeded
    ensures log == CleanLog(op, steps)
  {
  }

  lemma SucceededLog(states: seq<State>, actions: seq<Action>, k: nat, op: OpId)
    requires IsRun(states, actions) && k < |states| && op in states[k].target.journals
    requires states[k].target.journals[op].status == JournalSucceeded
    ensures LogOf(states[k].target, op) == CleanLog(op, StepsOf(states[k].target, op))
  {
    RunKeepsInv(states, actions, k);
    FullLogIsClean(op, StepsOf(states[k].target, op), LogOf(states[k].target, op));
  }

  // The pointers, as long as no later operation has taken the lock.

  lemma LandedWhileLatest(t: Target, op: OpId)
    requires TargetChain(t) && op in t.journals && t.latest == Some(op) && Committed(t, op)
    requires t.topology.Some? && t.current.Some?
    ensures CommitLanded(t, op)
  {
    assert G(t) == CommitGeneration(PlanOf(t, op)) && G(t) + 1 !in t.snapshots;
    assert t.topology.value == TopologyOf(t.snapshots[G(t)]);
    assert TopologyOf(t.snapshots[G(t)]) == TopologyOf(WithoutVolatile(t.snapshots[G(t)]));
  }

  lemma SucceededIsCommitted(states: seq<State>, actions: seq<Action>, k: nat, op: OpId, i: nat)
    requires IsRun(states, actions) && k < |states| && op in states[k].target.journals
    requires states[k].target.journals[op].status == JournalSucceeded && CommitStep(states[k].target, op, i)
    ensures Committed(states[k].target, op)
    ensures states[k].target.latest == Some(op) ==> CommitLanded(states[k].target, op)
  {
    RunKeepsInv(states, actions, k);
    SucceededIsTrue(states, actions, k, op, i);
    if states[k].target.latest == Some(op) {
      LandedWhileLatest(states[k].target, op);
    }
  }

  /** What a succeeded operation with a state.commit has committed: the snapshot of its generation, for
      good, and until another operation takes the lock current.json and topology.json, with the plan's
      content, the plan's generation and the installation that was there, or that it has founded. */
  lemma SucceededHasLanded(states: seq<State>, actions: seq<Action>, k: nat, op: OpId, i: nat)
    requires IsRun(states, actions) && k < |states| && op in states[k].target.journals
    requires states[k].target.journals[op].status == JournalSucceeded
    requires i < |states[k].target.journals[op].plan.steps| && states[k].target.journals[op].plan.steps[i].commit
    ensures var t := states[k].target;
            var plan := t.journals[op].plan;
            var generation := if plan.mode == Bootstrap then 1 else plan.baselineGeneration + 1;
            var installation := if plan.mode == Bootstrap then op else plan.installation;
            && t.journals[op].committed == Some(generation) && generation in t.snapshots
            && t.snapshots[generation] ==
               Doc(installation, generation, op, plan.content, t.snapshots[generation].appliedAt)
            && (t.latest == Some(op) ==>
                  && t.current.Some?
                  && t.current.value == Doc(installation, generation, op, plan.content, t.current.value.appliedAt)
                  && t.topology == Some(Topology(installation, generation, plan.content)))
  {
    SucceededIsTrue(states, actions, k, op, i);
    SucceededIsCommitted(states, actions, k, op, i);
  }

  /** The same documents up to appliedAt. */
  predicate SameUpToTime(a: Doc, b: Doc) {
    a.installation == b.installation && a.generation == b.generation && a.operation == b.operation && a.content == b.content
  }

  /** What two completed runs of one operation have in common. */
  ghost predicate Agree(t: Target, t': Target, op: OpId)
    requires op in t.journals && op in t'.journals
  {
    && EffectsOf(t.effects, op) == EffectsOf(t'.effects, op) == Ordinary(StepsOf(t, op), |StepsOf(t, op)|)
    && LogOf(t, op) == LogOf(t', op) == CleanLog(op, StepsOf(t, op))
    && t.journals[op] == t'.journals[op]
  }

  /** And, if they have committed: the same snapshot of the generation that their journal names, and the
      same pointers until another operation takes the lock. */
  ghost predicate CommitsAgree(t: Target, t': Target, op: OpId)
    requires op in t.journals && op in t'.journals
  {
    var committed := t.journals[op].committed;
    && committed.Some? && committed.value in t.snapshots && committed.value in t'.snapshots
    && IsCommitOf(t.snapshots[committed.value], op, t.journals[op].plan)
    && SameUpToTime(t.snapshots[committed.value], t'.snapshots[committed.value])
    && (t.latest == t'.latest == Some(op) ==>
          && t.current.Some? && t'.current.Some? && SameUpToTime(t.current.value, t'.current.value)
          && SameUpToTime(t.current.value, t.snapshots[committed.value])
          && t.topology == t'.topology)
  }

  lemma CompletedCommitsAgree(states: seq<State>, actions: seq<Action>, k: nat,
                              states': seq<State>, actions': seq<Action>, k': nat, op: OpId, i: nat)
    requires IsRun(states, actions) && k < |states| && op in states[k].target.journals
    requires IsRun(states', actions') && k' < |states'| && op in states'[k'].target.journals
    requires states[k].target.journals[op].status == JournalSucceeded
    requires states'[k'].target.journals[op].status == JournalSucceeded
    requires PlanOf(states[k].target, op) == PlanOf(states'[k'].target, op) && CommitStep(states[k].target, op, i)
    ensures CommitsAgree(states[k].target, states'[k'].target, op)
  {
    SucceededHasLanded(states, actions, k, op, i);
    SucceededHasLanded(states', actions', k', op, i);
  }

  /** Crash transparency: whatever crashes, resumes, lost leases and other operations lie behind them, two
      succeeded operations with the same plan have had the same effects in the same order, and have left
      the same log, the same journal and the same snapshot up to appliedAt: those of a run without any
      trouble. The pointers agree as well until another operation takes the lock. */
  lemma CompletedRunsAgree(states: seq<State>, actions: seq<Action>, k: nat,
                           states': seq<State>, actions': seq<Action>, k': nat, op: OpId)
    requires IsRun(states, actions) && k < |states| && op in states[k].target.journals
    requires IsRun(states', actions') && k' < |states'| && op in states'[k'].target.journals
    requires states[k].target.journals[op].status == JournalSucceeded
    requires states'[k'].target.journals[op].status == JournalSucceeded
    requires PlanOf(states[k].target, op) == PlanOf(states'[k'].target, op)
    ensures Agree(states[k].target, states'[k'].target, op)
    ensures (exists i :: CommitStep(states[k].target, op, i)) ==> CommitsAgree(states[k].target, states'[k'].target, op)
  {
    SucceededHasRun(states, actions, k, op);
    SucceededHasRun(states', actions', k', op);
    SucceededLog(states, actions, k, op);
    SucceededLog(states', actions', k', op);
    RunKeepsInv(states, actions, k);
    RunKeepsInv(states', actions', k');
    if i :| CommitStep(states[k].target, op, i) {
      CompletedCommitsAgree(states, actions, k, states', actions', k', op, i);
    }
  }
}
