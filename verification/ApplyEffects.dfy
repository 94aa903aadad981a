/** No operation of a plan takes effect twice, other than state.commit. */
module ApplyEffects {
  import opened Sequences
  import opened ApplyProtocol
  import opened ApplyLogs
  import opened ApplySafety

  ghost predicate RecordedEffects(t: Target) {
    && Distinct(t.effects)
    && forall e :: e in t.effects ==>
         && e.0 in t.journals && e.1 < |StepsOf(t, e.0)| && !CommitStep(t, e.0, e.1)
         && 2 * e.1 < |LogOf(t, e.0)|
  }

  /** A step being dispatched has been started in the log, and has had no effect yet. */
  ghost predicate PendingDispatch(t: Target, pc: Pc) {
    pc.Dispatching? ==>
      && pc.op in t.journals && pc.i < |StepsOf(t, pc.op)| && 2 * pc.i < |LogOf(t, pc.op)|
      && (!CommitStep(t, pc.op, pc.i) ==> (pc.op, pc.i) !in t.effects)
  }

  predicate SameDispatch(p: Pc, q: Pc) {
    p.Dispatching? && q.Dispatching? && p.op == q.op && p.i == q.i
  }

  ghost predicate EffectInv(s: State) {
    && RecordedEffects(s.target)
    && (forall c :: c in s.clients ==> PendingDispatch(s.target, s.clients[c]))
    && forall c, d :: c in s.clients && d in s.clients && c != d && SameDispatch(s.clients[c], s.clients[d]) ==>
         CommitStep(s.target, s.clients[c].op, s.clients[c].i)
  }

  /** A step that adds no effect and starts no dispatch of an ordinary operation. */
  lemma EffectsStay(s: State, c: Client, s': State)
    requires EffectInv(s) && OnlyMoves(s, c, s') && LogsGrow(s.target, s'.target)
    requires s'.target.effects == s.target.effects
    requires PendingDispatch(s'.target, s'.clients[c])
    requires s'.clients[c].Dispatching? ==>
               || CommitStep(s'.target, s'.clients[c].op, s'.clients[c].i)
               || (c in s.clients && SameDispatch(s.clients[c], s'.clients[c]))
    ensures EffectInv(s')
  {
    forall d | d in s'.clients ensures PendingDispatch(s'.target, s'.clients[d]) {
    }
  }

  predicate Writes(a: Action) {
    a.CommitRecovered? || a.SuccessRecorded? || a.FailureRecorded? || a.JournalMarkedFailed? || a.JournalFinished?
  }

  predicate Commits(a: Action) {
    a.SnapshotPublished? || a.TopologyWritten? || a.CurrentWritten? || a.CommitFailed?
  }

  lemma WritesLeaveEffects(s: State, a: Action, s': State)
    requires Moves(s, a, s') && Writes(a)
    ensures OnlyMoves(s, a.c, s') && LogsGrow(s.target, s'.target) && s'.target.effects == s.target.effects
    ensures !s'.clients[a.c].Dispatching?
  {
  }

  lemma WritesKeepEffects(s: State, a: Action, s': State)
    requires LogInv(s) && EffectInv(s) && Moves(s, a, s') && Writes(a)
    ensures EffectInv(s')
  {
    WritesLeaveEffects(s, a, s');
    EffectsStay(s, a.c, s');
  }

  lemma CommitsLeaveEffects(s: State, a: Action, s': State)
    requires Moves(s, a, s') && Commits(a)
    ensures StaysInStep(s, a.c, s') && s'.target.effects == s.target.effects
    ensures s'.clients[a.c].Dispatching? ==> s.clients[a.c].Dispatching?
  {
  }

  lemma CommitsKeepEffects(s: State, a: Action, s': State)
    requires LogInv(s) && EffectInv(s) && Moves(s, a, s') && Commits(a)
    ensures EffectInv(s')
  {
    CommitsLeaveEffects(s, a, s');
    EffectsStay(s, a.c, s');
  }

  lemma QuietKeepsEffects(s: State, a: Action, s': State)
    requires LogInv(s) && EffectInv(s) && Moves(s, a, s') && !Writes(a) && !Commits(a)
    requires !a.StepStarted? && !a.EffectApplied? && !a.CommitDispatchedAgain? && !a.LockTaken?
    ensures EffectInv(s')
  {
    if !a.LeaseLost? {
      EffectsStay(s, a.c, s');
    }
  }

  lemma AgainKeepsEffects(s: State, c: Client, s': State)
    requires LogInv(s) && EffectInv(s) && DispatchAgain(s, c, s')
    ensures EffectInv(s')
  {
    var pc := s.clients[c];
    assert ClientRecord(s, pc);
    OutcomeByLength(pc.op, StepsOf(s.target, pc.op), pc.view, pc.i);
    EffectsStay(s, c, s');
  }

  lemma StartKeepsEffects(s: State, c: Client, s': State)
    requires LogInv(s) && EffectInv(s) && StartStep(s, c, s')
    ensures EffectInv(s')
  {
    var pc := s.clients[c];
    StartKeepsLogs(s, c, s');
    forall d | d in s'.clients
      ensures PendingDispatch(s'.target, s'.clients[d])
      ensures d != c ==> !SameDispatch(s'.clients[d], s'.clients[c])
    {
      if d != c {
        assert PendingDispatch(s.target, s.clients[d]);
      }
    }
  }

  lemma EffectKeepsEffects(s: State, c: Client, applied: bool, ok: bool, s': State)
    requires LogInv(s) && EffectInv(s) && Effect(s, c, applied, ok, s')
    ensures EffectInv(s')
  {
    var pc := s.clients[c];
    assert PendingDispatch(s.target, pc);
    forall d | d in s'.clients ensures PendingDispatch(s'.target, s'.clients[d]) {
      if d != c {
        assert !SameDispatch(s.clients[d], pc);
      }
    }
  }

  lemma DispatchKeepsEffects(s: State, a: Action, s': State)
    requires LogInv(s) && EffectInv(s) && Moves(s, a, s')
    requires a.StepStarted? || a.EffectApplied? || a.CommitDispatchedAgain? || a.LockTaken?
    ensures EffectInv(s')
  {
    if a.LockTaken? {
    } else if a.CommitDispatchedAgain? {
      AgainKeepsEffects(s, a.c, s');
    } else if a.StepStarted? {
      StartKeepsEffects(s, a.c, s');
    } else {
      EffectKeepsEffects(s, a.c, a.applied, a.ok, s');
    }
  }

  lemma StepKeepsEffects(s: State, a: Action, s': State)
    requires LogInv(s) && EffectInv(s) && Moves(s, a, s')
    ensures EffectInv(s')
  {
    if Writes(a) {
      WritesKeepEffects(s, a, s');
    } else if Commits(a) {
      CommitsKeepEffects(s, a, s');
    } else if a.StepStarted? || a.EffectApplied? || a.CommitDispatchedAgain? || a.LockTaken? {
      DispatchKeepsEffects(s, a, s');
    } else {
      QuietKeepsEffects(s, a, s');
    }
  }
}
