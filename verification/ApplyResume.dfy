/** Exactly which interrupted operations a resume can still complete. */
module ApplyResume {
  import opened Sequences
  import opened StepHistory
  import opened PlanTypes
  import opened ApplyProtocol
  import opened ApplyLogs
  import opened ApplySafety
  import opened ApplyEffects
  import opened ApplyChain
  import opened ApplyDurability
  import opened ApplyTheorems
  import opened ApplyCompletion

  ghost predicate Path(states: seq<State>, actions: seq<Action>) {
    && |states| == |actions| + 1
    && forall k :: 0 <= k < |actions| ==> Moves(states[k], actions[k], states[k + 1])
  }

  /** Some sequence of steps goes from `s` to `s'`. */
  ghost predicate Leads(s: State, s': State) {
    exists states, actions :: Path(states, actions) && states[0] == s && states[|actions|] == s'
  }

  lemma LeadsNowhere(s: State)
    ensures Leads(s, s)
  {
    assert Path([s], []);
  }

  lemma OneMore(states: seq<State>, actions: seq<Action>, a: Action, s': State)
    requires Path(states, actions) && Moves(states[|actions|], a, s')
    ensures Path(states + [s'], actions + [a])
  {
    forall k | 0 <= k < |actions| + 1 ensures Moves((states + [s'])[k], (actions + [a])[k], (states + [s'])[k + 1]) {
      if k < |actions| {
        assert Moves(states[k], actions[k], states[k + 1]);
      }
    }
  }

  lemma LeadsStep(s: State, s': State, a: Action, s'': State)
    requires Leads(s, s') && Moves(s', a, s'')
    ensures Leads(s, s'')
  {
    var states, actions :| Path(states, actions) && states[0] == s && states[|actions|] == s';
    OneMore(states, actions, a, s'');
    assert (states + [s''])[0] == s && (states + [s''])[|actions + [a]|] == s'';
  }

  lemma LeadsFurther(s: State, s': State, s'': State)
    requires Leads(s, s') && Leads(s', s'')
    ensures Leads(s, s'')
  {
    var states, actions :| Path(states, actions) && states[0] == s && states[|actions|] == s';
    var more, steps :| Path(more, steps) && more[0] == s' && more[|steps|] == s'';
    PathsJoin(states, actions, more, steps);
  }

  lemma PathsJoin(states: seq<State>, actions: seq<Action>, more: seq<State>, steps: seq<Action>)
    requires Path(states, actions) && Path(more, steps) && states[|actions|] == more[0]
    ensures Path(states + more[1..], actions + steps)
    ensures (states + more[1..])[0] == states[0] && (states + more[1..])[|actions + steps|] == more[|steps|]
  {
    var all, taken := states + more[1..], actions + steps;
    forall k | 0 <= k < |taken| ensures Moves(all[k], taken[k], all[k + 1]) {
      if k >= |actions| {
        assert Moves(more[k - |actions|], steps[k - |actions|], more[k - |actions| + 1]);
      }
    }
  }

  /** The second run goes on from the first. */
  ghost predicate Extends(states: seq<State>, actions: seq<Action>, states': seq<State>, actions': seq<Action>) {
    IsRun(states', actions') && states <= states' && actions <= actions'
  }

  lemma RunGoesOn(states: seq<State>, actions: seq<Action>, s': State) returns (states': seq<State>, actions': seq<Action>)
    requires IsRun(states, actions) && Leads(states[|actions|], s')
    ensures Extends(states, actions, states', actions') && states'[|actions'|] == s'
  {
    var more, steps :| Path(more, steps) && more[0] == states[|actions|] && more[|steps|] == s';
    states', actions' := states + more[1..], actions + steps;
    PathsJoin(states, actions, more, steps);
  }

  predicate LockIsLatest(t: Target) {
    t.lock.Some? ==> t.latest == t.lock
  }

  lemma {:induction false} RunKeepsLatest(states: seq<State>, actions: seq<Action>, k: nat)
    requires IsRun(states, actions) && k < |states|
    ensures LockIsLatest(states[k].target)
  {
    if k > 0 {
      RunKeepsLatest(states, actions, k - 1);
      assert Moves(states[k - 1], actions[k - 1], states[k]);
    }
  }

  predicate NoFailure(log: seq<Event>) {
    forall j :: 0 <= j < |log| ==> log[j].phase != Failed
  }

  predicate HasCommit(steps: seq<Step>) {
    exists i :: 0 <= i < |steps| && steps[i].commit
  }

  /** No other operation has published the generation that this one is to commit. */
  predicate GenerationFree(t: Target, op: OpId) {
    CommitGeneration(PlanOf(t, op)) !in t.snapshots || SnapshotMatches(t, op, PlanOf(t, op))
  }

  /** Nothing has failed, a step that was left started is state.commit with its snapshot published, and
      the generation is not taken. */
  predicate CanFinish(t: Target, op: OpId) {
    var log := LogOf(t, op);
    && NoFailure(log)
    && (|log| % 2 == 1 ==> CommitStep(t, op, |log| / 2) && SnapshotMatches(t, op, PlanOf(t, op)))
    && (HasCommit(StepsOf(t, op)) ==> GenerationFree(t, op))
  }

  /** Client `c` holds the lease and is at the head of the loop, with everything before step `i` done. */
  ghost predicate AtHead(s: State, c: Client, op: OpId, view: seq<Event>, i: nat) {
    var t := s.target;
    && t.owner == Some(c) && c in s.clients && PcOf(s, c) == Loop(op, view, i) && op in t.journals
    && t.lock == Some(op) && t.latest == Some(op) && i <= |StepsOf(t, op)|
    && NoFailure(LogOf(t, op)) && (HasCommit(StepsOf(t, op)) ==> GenerationFree(t, op))
    && (if 2 * i <= |view|
        then LogOf(t, op) == view
             && (|view| % 2 == 1 ==> CommitStep(t, op, |view| / 2) && SnapshotMatches(t, op, PlanOf(t, op)))
        else |LogOf(t, op)| == 2 * i)
  }

  lemma PrefixHasNoFailure(log: seq<Event>, log': seq<Event>)
    requires log <= log' && NoFailure(log')
    ensures NoFailure(log)
  {
    forall j | 0 <= j < |log| ensures log[j].phase != Failed {
      assert log'[j] == log[j];
    }
  }

  lemma OutcomeOfView(op: OpId, steps: seq<Step>, log: seq<Event>, view: seq<Event>, i: nat)
    requires LogOk(op, steps, view) && DistinctIds(steps) && view <= log && NoFailure(log) && i < |steps|
    ensures Outcome(view, steps[i].id) == if |view| <= 2 * i then Run else if |view| == 2 * i + 1 then Blocked else Skip
  {
    PrefixHasNoFailure(view, log);
    OutcomeByLength(op, steps, view, i);
  }

  lemma OutcomeAtHead(s: State, c: Client, op: OpId, view: seq<Event>, i: nat)
    requires LogInv(s) && AtHead(s, c, op, view, i) && i < |StepsOf(s.target, op)|
    ensures OutcomeAt(s, c) == if |view| <= 2 * i then Run else if |view| == 2 * i + 1 then Blocked else Skip
    ensures s.target.journals[op].status == InProgress
  {
    assert ClientRecord(s, s.clients[c]) && OwnerKnows(s.target, s.clients[c]);
    OutcomeOfView(op, StepsOf(s.target, op), LogOf(s.target, op), view, i);
  }

  lemma Skipped(s: State, c: Client, op: OpId, view: seq<Event>, i: nat) returns (s': State)
    requires AtHead(s, c, op, view, i) && i < |StepsOf(s.target, op)| && |view| >= 2 * i + 2
    requires OutcomeAt(s, c) == Skip
    ensures Moves(s, StepSkipped(c), s')
    ensures AtHead(s', c, op, view, i + 1) && s'.target == s.target
  {
    s' := Goto(s, c, Loop(op, view, i + 1));
  }

  /** Client `c` holds the lease and is in the middle of step `i`, which is the last one in the log. */
  ghost predicate InStep(s: State, c: Client, op: OpId, i: nat) {
    var t := s.target;
    && t.owner == Some(c) && c in s.clients && op in t.journals
    && t.lock == Some(op) && t.latest == Some(op) && i < |StepsOf(t, op)| && |LogOf(t, op)| == 2 * i + 1
    && NoFailure(LogOf(t, op)) && (HasCommit(StepsOf(t, op)) ==> GenerationFree(t, op))
  }

  lemma Begun(s: State, c: Client, op: OpId, view: seq<Event>, i: nat) returns (s': State)
    requires AtHead(s, c, op, view, i) && i < |StepsOf(s.target, op)| && |view| <= 2 * i
    requires OutcomeAt(s, c) == Run
    ensures Moves(s, StepStarted(c), s')
    ensures InStep(s', c, op, i) && PcOf(s', c) == Dispatching(op, view, i, Publishing, false)
    ensures PlanOf(s'.target, op) == PlanOf(s.target, op)
  {
    s' := Goto(s.(target := Append(s.target, op, i, Started)), c, Dispatching(op, view, i, Publishing, false));
  }

  lemma BegunAgain(s: State, c: Client, op: OpId, view: seq<Event>, i: nat) returns (s': State)
    requires AtHead(s, c, op, view, i) && i < |StepsOf(s.target, op)| && |view| == 2 * i + 1
    requires OutcomeAt(s, c) == Blocked && !CommitLanded(s.target, op)
    ensures Moves(s, CommitDispatchedAgain(c), s')
    ensures InStep(s', c, op, i) && PcOf(s', c) == Dispatching(op, view, i, Publishing, true)
    ensures CommitStep(s'.target, op, i) && PlanOf(s'.target, op) == PlanOf(s.target, op)
  {
    s' := Goto(s, c, Dispatching(op, view, i, Publishing, true));
  }

  lemma Recovered(s: State, c: Client, op: OpId, view: seq<Event>, i: nat) returns (s': State)
    requires AtHead(s, c, op, view, i) && i < |StepsOf(s.target, op)| && |view| == 2 * i + 1
    requires OutcomeAt(s, c) == Blocked && CommitLanded(s.target, op)
    ensures Moves(s, CommitRecovered(c), s')
    ensures AtHead(s', c, op, view, i + 1)
    ensures PlanOf(s'.target, op) == PlanOf(s.target, op)
  {
    s' := Goto(s.(target := Append(s.target, op, i, Succeeded)), c, Loop(op, view, i + 1));
  }

  lemma Affected(s: State, c: Client, op: OpId, view: seq<Event>, i: nat) returns (s': State)
    requires InStep(s, c, op, i) && PcOf(s, c) == Dispatching(op, view, i, Publishing, false)
    requires !CommitStep(s.target, op, i)
    ensures Moves(s, EffectApplied(c, true, true), s')
    ensures InStep(s', c, op, i) && PcOf(s', c) == Dispatched(op, view, i, false)
    ensures PlanOf(s'.target, op) == PlanOf(s.target, op)
  {
    s' := Goto(s.(target := s.target.(effects := s.target.effects + [(op, i)])), c, Dispatched(op, view, i, false));
  }

  lemma Published(s: State, c: Client, op: OpId, view: seq<Event>, i: nat, again: bool) returns (s': State)
    requires InStep(s, c, op, i) && PcOf(s, c) == Dispatching(op, view, i, Publishing, again)
    requires CommitStep(s.target, op, i)
    ensures Moves(s, SnapshotPublished(c, 0), s')
    ensures InStep(s', c, op, i) && PcOf(s', c) == Dispatching(op, view, i, WritingTopology, again)
    ensures CommitStep(s'.target, op, i) && PlanOf(s'.target, op) == PlanOf(s.target, op)
    ensures SnapshotMatches(s'.target, op, PlanOf(s'.target, op))
  {
    assert StepsOf(s.target, op)[i].commit && HasCommit(StepsOf(s.target, op));
    var doc := Expected(op, PlanOf(s.target, op), 0);
    var next := Dispatching(op, view, i, WritingTopology, again);
    s' := if doc.generation !in s.target.snapshots
          then Goto(s.(target := s.target.(snapshots := s.target.snapshots[doc.generation := doc])), c, next)
          else Goto(s, c, next);
  }

  lemma Pointed(s: State, c: Client, op: OpId, view: seq<Event>, i: nat, again: bool) returns (s': State)
    requires InStep(s, c, op, i) && PcOf(s, c) == Dispatching(op, view, i, WritingTopology, again)
    requires CommitStep(s.target, op, i) && SnapshotMatches(s.target, op, PlanOf(s.target, op))
    ensures Moves(s, TopologyWritten(c), s')
    ensures InStep(s', c, op, i) && PcOf(s', c) == Dispatching(op, view, i, WritingCurrent, again)
    ensures CommitStep(s'.target, op, i) && PlanOf(s'.target, op) == PlanOf(s.target, op)
    ensures SnapshotMatches(s'.target, op, PlanOf(s'.target, op))
    ensures s'.target.topology == Some(TopologyOf(Expected(op, PlanOf(s'.target, op), 0)))
  {
    var topology := TopologyOf(Expected(op, PlanOf(s.target, op), 0));
    s' := Goto(s.(target := s.target.(topology := Some(topology))), c, Dispatching(op, view, i, WritingCurrent, again));
  }

  lemma Landed(s: State, c: Client, op: OpId, view: seq<Event>, i: nat, again: bool) returns (s': State)
    requires InStep(s, c, op, i) && PcOf(s, c) == Dispatching(op, view, i, WritingCurrent, again)
    requires CommitStep(s.target, op, i) && SnapshotMatches(s.target, op, PlanOf(s.target, op))
    requires s.target.topology == Some(TopologyOf(Expected(op, PlanOf(s.target, op), 0)))
    ensures Moves(s, CurrentWritten(c, 0), s')
    ensures InStep(s', c, op, i) && PcOf(s', c) == Dispatched(op, view, i, again)
    ensures CommitLanded(s'.target, op) && PlanOf(s'.target, op) == PlanOf(s.target, op)
  {
    var doc := Expected(op, PlanOf(s.target, op), 0);
    s' := Goto(s.(target := s.target.(current := Some(doc))), c, Dispatched(op, view, i, again));
  }

  lemma Recorded(s: State, c: Client, op: OpId, view: seq<Event>, i: nat, again: bool) returns (s': State)
    requires InStep(s, c, op, i) && PcOf(s, c) == Dispatched(op, view, i, again) && |view| <= 2 * i + 1
    requires again ==> CommitLanded(s.target, op)
    ensures Moves(s, SuccessRecorded(c), s')
    ensures AtHead(s', c, op, view, i + 1)
    ensures PlanOf(s'.target, op) == PlanOf(s.target, op)
  {
    s' := Goto(s.(target := Append(s.target, op, i, Succeeded)), c, Loop(op, view, i + 1));
  }

  /** One stretch of a run that keeps the invariants. */
  ghost predicate Stretch(s: State, s': State) {
    Leads(s, s') && Inv(s')
  }

  lemma Onwards(s: State, s': State, a: Action, s'': State)
    requires Stretch(s, s') && Moves(s', a, s'')
    ensures Stretch(s, s'')
  {
    LeadsStep(s, s', a, s'');
    StepKeepsInv(s', a, s'');
  }

  lemma Join(s: State, s': State, s'': State)
    requires Stretch(s, s') && Stretch(s', s'')
    ensures Stretch(s, s'')
  {
    LeadsFurther(s, s', s'');
  }

  lemma Stay(s: State)
    requires Inv(s)
    ensures Stretch(s, s)
  {
    LeadsNowhere(s);
  }

  /** A step that has not been tried. */
  lemma OrdinaryDone(s0: State, s: State, c: Client, op: OpId, view: seq<Event>, i: nat) returns (s': State)
    requires Stretch(s0, s) && InStep(s, c, op, i) && PcOf(s, c) == Dispatching(op, view, i, Publishing, false)
    requires !CommitStep(s.target, op, i) && |view| <= 2 * i + 1
    ensures Stretch(s0, s') && AtHead(s', c, op, view, i + 1) && PlanOf(s'.target, op) == PlanOf(s.target, op)
  {
    var s1 := Affected(s, c, op, view, i);
    Onwards(s0, s, EffectApplied(c, true, true), s1);
    s' := Recorded(s1, c, op, view, i, false);
    Onwards(s0, s1, SuccessRecorded(c), s');
  }

  lemma CommitDone(s0: State, s: State, c: Client, op: OpId, view: seq<Event>, i: nat, again: bool) returns (s': State)
    requires Stretch(s0, s) && InStep(s, c, op, i) && PcOf(s, c) == Dispatching(op, view, i, Publishing, again)
    requires CommitStep(s.target, op, i) && |view| <= 2 * i + 1
    ensures Stretch(s0, s') && AtHead(s', c, op, view, i + 1) && PlanOf(s'.target, op) == PlanOf(s.target, op)
  {
    var s1 := Published(s, c, op, view, i, again);
    Onwards(s0, s, SnapshotPublished(c, 0), s1);
    var s2 := Pointed(s1, c, op, view, i, again);
    Onwards(s0, s1, TopologyWritten(c), s2);
    var s3 := Landed(s2, c, op, view, i, again);
    Onwards(s0, s2, CurrentWritten(c, 0), s3);
    s' := Recorded(s3, c, op, view, i, again);
    Onwards(s0, s3, SuccessRecorded(c), s');
  }

  lemma FreshDone(s: State, c: Client, op: OpId, view: seq<Event>, i: nat) returns (s': State)
    requires Inv(s) && AtHead(s, c, op, view, i) && i < |StepsOf(s.target, op)| && |view| <= 2 * i
    requires OutcomeAt(s, c) == Run
    ensures Stretch(s, s') && AtHead(s', c, op, view, i + 1) && PlanOf(s'.target, op) == PlanOf(s.target, op)
  {
    var s1 := Begun(s, c, op, view, i);
    Stay(s);
    Onwards(s, s, StepStarted(c), s1);
    if CommitStep(s1.target, op, i) {
      s' := CommitDone(s, s1, c, op, view, i, false);
    } else {
      s' := OrdinaryDone(s, s1, c, op, view, i);
    }
  }

  lemma InterruptedDone(s: State, c: Client, op: OpId, view: seq<Event>, i: nat) returns (s': State)
    requires Inv(s) && AtHead(s, c, op, view, i) && i < |StepsOf(s.target, op)| && |view| == 2 * i + 1
    requires OutcomeAt(s, c) == Blocked
    ensures Stretch(s, s') && AtHead(s', c, op, view, i + 1) && PlanOf(s'.target, op) == PlanOf(s.target, op)
  {
    Stay(s);
    if CommitLanded(s.target, op) {
      s' := Recovered(s, c, op, view, i);
      Onwards(s, s, CommitRecovered(c), s');
    } else {
      var s1 := BegunAgain(s, c, op, view, i);
      Onwards(s, s, CommitDispatchedAgain(c), s1);
      s' := CommitDone(s, s1, c, op, view, i, true);
    }
  }

  lemma StepDone(s: State, c: Client, op: OpId, view: seq<Event>, i: nat) returns (s': State)
    requires Inv(s) && AtHead(s, c, op, view, i) && i < |StepsOf(s.target, op)|
    ensures Stretch(s, s') && AtHead(s', c, op, view, i + 1) && PlanOf(s'.target, op) == PlanOf(s.target, op)
  {
    OutcomeAtHead(s, c, op, view, i);
    if |view| <= 2 * i {
      s' := FreshDone(s, c, op, view, i);
    } else if |view| == 2 * i + 1 {
      s' := InterruptedDone(s, c, op, view, i);
    } else {
      s' := Skipped(s, c, op, view, i);
      Stay(s);
      Onwards(s, s, StepSkipped(c), s');
    }
  }

  lemma {:induction false} LoopDone(s: State, c: Client, op: OpId, view: seq<Event>, i: nat) returns (s': State)
    requires Inv(s) && AtHead(s, c, op, view, i)
    ensures Stretch(s, s') && AtHead(s', c, op, view, |StepsOf(s.target, op)|) && PlanOf(s'.target, op) == PlanOf(s.target, op)
    decreases |StepsOf(s.target, op)| - i
  {
    if i == |StepsOf(s.target, op)| {
      s' := s;
      Stay(s);
    } else {
      var s1 := StepDone(s, c, op, view, i);
      s' := LoopDone(s1, c, op, view, i + 1);
      Join(s, s1, s');
    }
  }

  ghost predicate Completed(t: Target, op: OpId) {
    op in t.journals && t.journals[op].status == JournalSucceeded && t.lock.None?
  }

  lemma Closed(s: State, c: Client, op: OpId, view: seq<Event>) returns (s': State)
    requires Inv(s) && AtHead(s, c, op, view, |StepsOf(s.target, op)|)
    ensures Stretch(s, s') && Completed(s'.target, op) && PlanOf(s'.target, op) == PlanOf(s.target, op)
  {
    var t := SetStatus(s.target, op, JournalSucceeded, Some(CommitGeneration(PlanOf(s.target, op))));
    var s1 := Goto(s.(target := t), c, Closing(op));
    Stay(s);
    Onwards(s, s, JournalFinished(c), s1);
    s' := Goto(s1.(target := t.(lock := None)), c, Stopped);
    Onwards(s, s1, LockReleased(c), s');
  }

  lemma {:induction false} SomeOther(clients: set<Client>) returns (c: Client)
    ensures forall d :: d in clients ==> d < c
    decreases |clients|
  {
    if clients == {} {
      c := 0;
    } else {
      var d :| d in clients;
      var rest := SomeOther(clients - {d});
      c := if rest <= d then d + 1 else rest;
      forall e | e in clients ensures e < c {
        assert e == d || e in clients - {d};
      }
    }
  }

  /** A new client inspects the target and acquires the lease, which nobody else can hold for ever. */
  lemma Arrived(s: State) returns (s': State, c: Client)
    requires Inv(s)
    ensures Stretch(s, s') && c in s'.clients && PcOf(s', c) == Starting(SeenOf(s.target)) && s'.used == s.used
    ensures s'.target == s.target.(owner := Some(c))
  {
    c := SomeOther(s.clients.Keys);
    Stay(s);
    var s1 := s.(target := s.target.(owner := None));
    Onwards(s, s, LeaseLost, s1);
    var s2 := Goto(s1, c, Inspected(SeenOf(s1.target)));
    Onwards(s, s1, TargetInspected(c), s2);
    s' := Goto(s2.(target := s2.target.(owner := Some(c))), c, Starting(SeenOf(s1.target)));
    Onwards(s, s2, LeaseAcquired(c), s');
  }

  lemma Entered(s: State, op: OpId) returns (s': State, c: Client)
    requires Inv(s) && op in s.target.journals && s.target.journals[op].status == InProgress
    requires s.target.lock == Some(op) && s.target.latest == Some(op) && CanFinish(s.target, op)
    ensures Stretch(s, s') && AtHead(s', c, op, LogOf(s.target, op), 0)
  {
    var s1;
    s1, c := Arrived(s);
    s' := Goto(s1, c, Loop(op, LogOf(s1.target, op), 0));
    Onwards(s, s1, EventsRead(c), s');
  }

  /** The lock of the operation is held, and nobody is left who could go on with it: nobody in the middle
      of the last step in its log, or nobody at all once its journal says that it has succeeded. */
  ghost predicate Interrupted(s: State, op: OpId) {
    && op in s.target.journals && s.target.lock == Some(op)
    && forall c :: c in s.clients ==>
         if s.target.journals[op].status == JournalSucceeded then !Holds(s.clients[c], op)
         else !Amid(s.clients[c], op, |LogOf(s.target, op)| / 2)
  }

  predicate Holds(pc: Pc, op: OpId) {
    WithJournal(pc) && pc.op == op
  }

  predicate Amid(pc: Pc, op: OpId, i: nat) {
    (pc.Dispatching? || pc.Dispatched? || pc.DispatchFailed?) && pc.op == op && pc.i == i
  }

  /** A resume can complete the operation. */
  lemma ResumeCompletes(states: seq<State>, actions: seq<Action>, op: OpId)
    returns (states': seq<State>, actions': seq<Action>)
    requires IsRun(states, actions) && CanFinish(states[|actions|].target, op) && op in states[|actions|].target.journals
    requires states[|actions|].target.journals[op].status == InProgress && states[|actions|].target.lock == Some(op)
    ensures Extends(states, actions, states', actions') && Completed(states'[|actions'|].target, op)
  {
    var s := states[|actions|];
    RunKeepsInv(states, actions, |actions|);
    RunKeepsLatest(states, actions, |actions|);
    var s1, c := Entered(s, op);
    var s2 := LoopDone(s1, c, op, LogOf(s.target, op), 0);
    Join(s, s1, s2);
    var s3 := Closed(s2, c, op, LogOf(s.target, op));
    Join(s, s2, s3);
    states', actions' := RunGoesOn(states, actions, s3);
  }

  // A journal that says "succeeded", while the lock is still held.

  lemma AllSkipped(op: OpId, steps: seq<Step>, log: seq<Event>, i: nat)
    requires DistinctIds(steps) && log == CleanLog(op, steps) && LogOk(op, steps, log) && i < |steps|
    ensures Outcome(log, steps[i].id) == Skip
  {
    OutcomeByLength(op, steps, log, i);
  }

  /** Only the release of the lock was missing, and one more client makes up for it. */
  lemma ReleaseCompletes(states: seq<State>, actions: seq<Action>, op: OpId)
    returns (states': seq<State>, actions': seq<Action>)
    requires IsRun(states, actions) && op in states[|actions|].target.journals
    requires states[|actions|].target.journals[op].status == JournalSucceeded && states[|actions|].target.lock == Some(op)
    requires CommitLanded(states[|actions|].target, op)
    ensures Extends(states, actions, states', actions') && Completed(states'[|actions'|].target, op)
  {
    var s := states[|actions|];
    RunKeepsInv(states, actions, |actions|);
    SucceededLog(states, actions, |actions|, op);
    var s1, c := Arrived(s);
    forall i | 0 <= i < |StepsOf(s1.target, op)|
      ensures Outcome(LogOf(s1.target, op), StepsOf(s1.target, op)[i].id) == Skip
    {
      AllSkipped(op, StepsOf(s.target, op), LogOf(s.target, op), i);
    }
    var s2 := Goto(s1, c, Closing(op));
    Onwards(s, s1, SuccessSeen(c), s2);
    var s3 := Goto(s2.(target := s2.target.(lock := None)), c, Stopped);
    Onwards(s, s2, LockReleased(c), s3);
    states', actions' := RunGoesOn(states, actions, s3);
  }

  /** An operation with a commit whose journal says "succeeded" can always be closed by one more client. */
  lemma SucceededCanBeClosed(states: seq<State>, actions: seq<Action>, op: OpId)
    returns (states': seq<State>, actions': seq<Action>)
    requires IsRun(states, actions) && op in states[|actions|].target.journals
    requires states[|actions|].target.journals[op].status == JournalSucceeded && states[|actions|].target.lock == Some(op)
    requires HasCommit(StepsOf(states[|actions|].target, op))
    ensures Extends(states, actions, states', actions') && Completed(states'[|actions'|].target, op)
  {
    var t := states[|actions|].target;
    var i :| 0 <= i < |StepsOf(t, op)| && StepsOf(t, op)[i].commit;
    RunKeepsLatest(states, actions, |actions|);
    SucceededIsCommitted(states, actions, |actions|, op, i);
    states', actions' := ReleaseCompletes(states, actions, op);
  }

  /** Nobody holds the operation, and nobody who looks at it finds its commit. */
  ghost predicate Barred(s: State, op: OpId) {
    var t := s.target;
    && op in t.journals && t.journals[op].status == JournalSucceeded && t.lock == Some(op) && LockIsLatest(t)
    && !CommitLanded(t, op)
    && forall c :: c in s.clients ==> !Holds(s.clients[c], op)
  }

  lemma BarredWrites(s: State, a: Action, s': State, op: OpId)
    requires LogInv(s) && Moves(s, a, s') && Barred(s, op) && WritesRecord(a)
    ensures Barred(s', op)
  {
    WriterIsInProgress(s, a, s');
  }

  lemma BarredStays(s: State, a: Action, s': State, op: OpId)
    requires LogInv(s) && Moves(s, a, s') && Barred(s, op)
    ensures Barred(s', op)
  {
    if WritesRecord(a) {
      BarredWrites(s, a, s', op);
    }
  }

  lemma RunStepKeepsBarred(states: seq<State>, actions: seq<Action>, k: nat, op: OpId)
    requires IsRun(states, actions) && k < |actions| && Barred(states[k], op)
    ensures Barred(states[k + 1], op)
  {
    RunKeepsInv(states, actions, k);
    BarredStays(states[k], actions[k], states[k + 1], op);
  }

  lemma {:induction false} BarredForever(states: seq<State>, actions: seq<Action>, k: nat, m: nat, op: OpId)
    requires IsRun(states, actions) && k <= m < |states| && Barred(states[k], op)
    ensures Barred(states[m], op)
    decreases m
  {
    if k < m {
      BarredForever(states, actions, k, m - 1, op);
      RunStepKeepsBarred(states, actions, m - 1, op);
    }
  }

  // What a resume cannot complete.

  /** Step `i` was left started, nobody is in the middle of it, and it is no published commit. */
  ghost predicate Abandoned(s: State, op: OpId, i: nat) {
    var t := s.target;
    && op in t.journals && t.journals[op].status != JournalSucceeded && |LogOf(t, op)| == 2 * i + 1
    && !(CommitStep(t, op, i) && SnapshotMatches(t, op, PlanOf(t, op)))
    && forall c :: c in s.clients ==> !Amid(s.clients[c], op, i)
  }

  /** Its snapshot is not published later either: nobody dispatches this commit, and an earlier commit
      of the same plan would have published it already. */
  lemma EarlierSucceeded(t: Target, op: OpId, at: nat, i: nat)
    requires LogOk(op, StepsOf(t, op), LogOf(t, op)) && |LogOf(t, op)| == 2 * i + 1 && at < i
    ensures StepSucceeded(t, op, at)
  {
    assert LogOf(t, op)[2 * at + 1].phase == Succeeded;
  }

  /** Nobody is dispatching another commit of the same plan, either. */
  lemma NobodyCommits(s: State, pc: Pc, op: OpId, i: nat)
    requires LogOk(op, StepsOf(s.target, op), LogOf(s.target, op)) && CommitsRecorded(s.target)
    requires PendingDispatch(s.target, pc) && pc.Dispatching? && CommitStep(s.target, pc.op, pc.i)
    requires Abandoned(s, op, i) && CommitStep(s.target, op, i) && !Amid(pc, op, i)
    ensures pc.op != op
  {
    var at := pc.i;
    if at < i {
      EarlierSucceeded(s.target, op, at, i);
      assert CommitStep(s.target, op, at) ==> Committed(s.target, op);
    }
  }

  lemma OthersPublish(s: State, c: Client, time: nat, s': State, op: OpId)
    requires Publish(s, c, time, s') && s.clients[c].op != op && !SnapshotMatches(s.target, op, PlanOf(s.target, op))
    ensures !SnapshotMatches(s'.target, op, PlanOf(s.target, op))
  {
  }

  lemma NotPublishedBy(s: State, c: Client, time: nat, s': State, op: OpId, i: nat)
    requires LogInv(s) && EffectInv(s) && CommitInv(s) && Publish(s, c, time, s')
    requires Abandoned(s, op, i) && CommitStep(s.target, op, i)
    ensures !SnapshotMatches(s'.target, op, PlanOf(s.target, op))
  {
    NobodyCommits(s, s.clients[c], op, i);
    OthersPublish(s, c, time, s', op);
  }

  lemma OnlyPublishPublishes(s: State, a: Action, s': State)
    requires Moves(s, a, s') && !a.SnapshotPublished?
    ensures s'.target.snapshots == s.target.snapshots
  {
  }

  /** Nobody can write the log of an abandoned step. */
  lemma AbandonedIsNotRecovered(s: State, c: Client, s': State, op: OpId, i: nat)
    requires LogInv(s) && RecoverCommit(s, c, s') && Abandoned(s, op, i)
    ensures s.clients[c].op != op
  {
    var pc := s.clients[c];
    assert ClientRecord(s, pc) && OwnerKnows(s.target, pc);
    OutcomeByLength(pc.op, StepsOf(s.target, pc.op), pc.view, pc.i);
  }

  lemma AbandonedIsNotFinished(s: State, c: Client, s': State, op: OpId, i: nat)
    requires LogInv(s) && Finish(s, c, s') && Abandoned(s, op, i)
    ensures s.clients[c].op != op
  {
    assert OwnerKnows(s.target, s.clients[c]);
    assert LogOk(op, StepsOf(s.target, op), LogOf(s.target, op));
  }

  lemma AbandonedIsNotWritten(s: State, a: Action, s': State, op: OpId, i: nat)
    requires LogInv(s) && Moves(s, a, s') && Abandoned(s, op, i)
    requires a.StepStarted? || a.CommitRecovered? || a.SuccessRecorded? || a.FailureRecorded? || a.JournalFinished?
    ensures s.clients[a.c].op != op
  {
    if a.StepStarted? {
      StartKeepsLogs(s, a.c, s');
    } else if a.CommitRecovered? {
      AbandonedIsNotRecovered(s, a.c, s', op, i);
    } else if a.JournalFinished? {
      AbandonedIsNotFinished(s, a.c, s', op, i);
    } else {
      assert OwnerKnows(s.target, s.clients[a.c]);
    }
  }

  /** The rest of what happens to the target leaves journal and log as they are, but for a failure. */
  ghost predicate RecordStays(t: Target, t': Target, op: OpId)
    requires op in t.journals
  {
    && op in t'.journals && t'.journals[op].plan == t.journals[op].plan && LogOf(t', op) == LogOf(t, op)
    && (t'.journals[op].status == t.journals[op].status || t'.journals[op].status == JournalFailed)
  }

  lemma OtherRecordsStay(s: State, a: Action, s': State, op: OpId)
    requires Moves(s, a, s') && WritesRecord(a) && !a.JournalMarkedFailed? && op in s.target.journals
    requires s.clients[a.c].op != op
    ensures RecordStays(s.target, s'.target, op)
  {
  }

  lemma LockRecordsStay(s: State, c: Client, s': State, op: OpId)
    requires TakeLock(s, c, s') && op in s.target.journals && s.clients[c].op != op
    ensures RecordStays(s.target, s'.target, op)
  {
  }

  lemma FailedRecordsStay(s: State, c: Client, s': State, op: OpId)
    requires FailJournal(s, c, s') && op in s.target.journals
    ensures RecordStays(s.target, s'.target, op)
  {
  }

  lemma QuietRecordsStay(s: State, a: Action, s': State, op: OpId)
    requires Moves(s, a, s') && !WritesRecord(a) && !a.LockTaken? && op in s.target.journals
    ensures RecordStays(s.target, s'.target, op)
  {
  }

  lemma AbandonedRecordStays(s: State, a: Action, s': State, op: OpId, i: nat)
    requires LogInv(s) && Moves(s, a, s') && Abandoned(s, op, i)
    ensures RecordStays(s.target, s'.target, op)
  {
    if WritesRecord(a) && !a.JournalMarkedFailed? {
      AbandonedIsNotWritten(s, a, s', op, i);
      OtherRecordsStay(s, a, s', op);
    } else if a.LockTaken? {
      assert ClientRecord(s, s.clients[a.c]);
      LockRecordsStay(s, a.c, s', op);
    } else if a.JournalMarkedFailed? {
      FailedRecordsStay(s, a.c, s', op);
    } else {
      QuietRecordsStay(s, a, s', op);
    }
  }

  lemma NobodyComesAmid(s: State, a: Action, s': State, op: OpId, i: nat, c: Client)
    requires LogInv(s) && Moves(s, a, s') && Abandoned(s, op, i) && c in s'.clients
    ensures !Amid(s'.clients[c], op, i)
  {
    if a.StepStarted? {
      AbandonedIsNotWritten(s, a, s', op, i);
    } else if a.CommitDispatchedAgain? {
      NotDispatchedAgain(s, a.c, s', op, i);
    } else {
      StillNotAmid(s, a, s', op, i, c);
    }
  }

  lemma NotDispatchedAgain(s: State, c: Client, s': State, op: OpId, i: nat)
    requires LogInv(s) && DispatchAgain(s, c, s') && Abandoned(s, op, i)
    ensures !Amid(s'.clients[c], op, i)
  {
    var pc := s.clients[c];
    assert ClientRecord(s, pc);
    OutcomeByLength(pc.op, StepsOf(s.target, pc.op), pc.view, pc.i);
  }

  lemma StillNotAmid(s: State, a: Action, s': State, op: OpId, i: nat, c: Client)
    requires Moves(s, a, s') && !a.StepStarted? && !a.CommitDispatchedAgain? && c in s'.clients
    requires forall d :: d in s.clients ==> !Amid(s.clients[d], op, i)
    ensures !Amid(s'.clients[c], op, i)
  {
  }

  lemma AbandonedStays(s: State, a: Action, s': State, op: OpId, i: nat)
    requires LogInv(s) && EffectInv(s) && CommitInv(s) && Moves(s, a, s') && Abandoned(s, op, i)
    ensures Abandoned(s', op, i)
  {
    AbandonedRecordStays(s, a, s', op, i);
    if a.SnapshotPublished? && CommitStep(s.target, op, i) {
      NotPublishedBy(s, a.c, a.at, s', op, i);
    } else if !a.SnapshotPublished? {
      OnlyPublishPublishes(s, a, s');
    }
    forall c | c in s'.clients ensures !Amid(s'.clients[c], op, i) {
      NobodyComesAmid(s, a, s', op, i, c);
    }
  }

  lemma RunStepKeepsAbandoned(states: seq<State>, actions: seq<Action>, k: nat, op: OpId, i: nat)
    requires IsRun(states, actions) && k < |actions| && Abandoned(states[k], op, i)
    ensures Abandoned(states[k + 1], op, i)
  {
    RunKeepsInv(states, actions, k);
    AbandonedStays(states[k], actions[k], states[k + 1], op, i);
  }

  lemma {:induction false} AbandonedForever(states: seq<State>, actions: seq<Action>, k: nat, m: nat, op: OpId, i: nat)
    requires IsRun(states, actions) && k <= m < |states| && Abandoned(states[k], op, i)
    ensures Abandoned(states[m], op, i)
    decreases m
  {
    if k < m {
      AbandonedForever(states, actions, k, m - 1, op, i);
      RunStepKeepsAbandoned(states, actions, m - 1, op, i);
    }
  }

  lemma WriteGrowsLogs(s: State, a: Action, s': State)
    requires Moves(s, a, s') && WritesRecord(a)
    ensures LogsGrow(s.target, s'.target)
  {
  }

  lemma QuietGrowsLogs(s: State, a: Action, s': State)
    requires Moves(s, a, s') && !WritesRecord(a) && !a.LockTaken?
    ensures LogsGrow(s.target, s'.target)
  {
  }

  lemma StepGrowsLogs(s: State, a: Action, s': State)
    requires LogInv(s) && Moves(s, a, s')
    ensures LogsGrow(s.target, s'.target)
  {
    if WritesRecord(a) {
      WriteGrowsLogs(s, a, s');
    } else if a.LockTaken? {
      assert ClientRecord(s, s.clients[a.c]);
    } else {
      QuietGrowsLogs(s, a, s');
    }
  }

  lemma RunStepGrowsLogs(states: seq<State>, actions: seq<Action>, k: nat)
    requires IsRun(states, actions) && k < |actions|
    ensures LogsGrow(states[k].target, states[k + 1].target)
  {
    RunKeepsInv(states, actions, k);
    StepGrowsLogs(states[k], actions[k], states[k + 1]);
  }

  lemma LogsGrowTransitive(t: Target, t': Target, t'': Target)
    requires LogsGrow(t, t') && LogsGrow(t', t'')
    ensures LogsGrow(t, t'')
  {
  }

  lemma {:induction false} RunGrowsLogs(states: seq<State>, actions: seq<Action>, k: nat, m: nat)
    requires IsRun(states, actions) && k <= m < |states|
    ensures LogsGrow(states[k].target, states[m].target)
    decreases m
  {
    if k < m {
      RunGrowsLogs(states, actions, k, m - 1);
      RunStepGrowsLogs(states, actions, m - 1);
      LogsGrowTransitive(states[k].target, states[m - 1].target, states[m].target);
    }
  }

  lemma SucceededHadNoFailure(states: seq<State>, actions: seq<Action>, k: nat, m: nat, op: OpId)
    requires IsRun(states, actions) && k <= m < |states| && op in states[k].target.journals
    requires op in states[m].target.journals && states[m].target.journals[op].status == JournalSucceeded
    ensures NoFailure(LogOf(states[k].target, op))
  {
    RunGrowsLogs(states, actions, k, m);
    SucceededLog(states, actions, m, op);
    PrefixHasNoFailure(LogOf(states[k].target, op), LogOf(states[m].target, op));
  }

  lemma SucceededWasFree(states: seq<State>, actions: seq<Action>, k: nat, m: nat, op: OpId)
    requires IsRun(states, actions) && k <= m < |states| && op in states[k].target.journals
    requires op in states[m].target.journals && states[m].target.journals[op].status == JournalSucceeded
    ensures HasCommit(StepsOf(states[k].target, op)) ==> GenerationFree(states[k].target, op)
  {
    RunGrowsLogs(states, actions, k, m);
    GenerationChain(states, actions, k, m);
    if i :| 0 <= i < |StepsOf(states[k].target, op)| && StepsOf(states[k].target, op)[i].commit {
      SucceededIsCommitted(states, actions, m, op, i);
    }
  }

  /** Whether one more client can complete the operation: what a resume finds. */
  predicate CanComplete(t: Target, op: OpId)
    requires op in t.journals
  {
    match t.journals[op].status
    case InProgress => CanFinish(t, op)
    case JournalSucceeded => CommitLanded(t, op)
    case JournalFailed => false
  }

  lemma CompletedMeansCanFinish(states: seq<State>, actions: seq<Action>, k: nat, m: nat, op: OpId)
    requires IsRun(states, actions) && k <= m < |states| && Interrupted(states[k], op)
    requires states[k].target.journals[op].status == InProgress && Completed(states[m].target, op)
    ensures CanFinish(states[k].target, op)
  {
    var t := states[k].target;
    SucceededHadNoFailure(states, actions, k, m, op);
    SucceededWasFree(states, actions, k, m, op);
    if |LogOf(t, op)| % 2 == 1 && !(CommitStep(t, op, |LogOf(t, op)| / 2) && SnapshotMatches(t, op, PlanOf(t, op))) {
      AbandonedForever(states, actions, k, m, op, |LogOf(t, op)| / 2);
    }
  }

  lemma CompletedMeansCanComplete(states: seq<State>, actions: seq<Action>, k: nat, m: nat, op: OpId)
    requires IsRun(states, actions) && k <= m < |states| && Interrupted(states[k], op) && Completed(states[m].target, op)
    ensures CanComplete(states[k].target, op)
  {
    var t := states[k].target;
    match t.journals[op].status
    case InProgress => CompletedMeansCanFinish(states, actions, k, m, op);
    case JournalSucceeded =>
      RunKeepsLatest(states, actions, k);
      if !CommitLanded(t, op) {
        BarredForever(states, actions, k, m, op);
      }
    case JournalFailed => GenerationChain(states, actions, k, m);
  }

  /** Whatever has happened: an interrupted operation can still be completed if and only if none of its
      steps has failed, a step that was left started is state.commit with its snapshot published, and its
      generation has not been taken; or its journal says that it has succeeded and its commit is there.
      Otherwise no continuation, by any number of clients, ever completes it. */
  lemma ResumableExactly(states: seq<State>, actions: seq<Action>, op: OpId)
    requires IsRun(states, actions) && Interrupted(states[|actions|], op)
    ensures CanComplete(states[|actions|].target, op) <==>
            exists states': seq<State>, actions': seq<Action> ::
              Extends(states, actions, states', actions') && Completed(states'[|actions'|].target, op)
  {
    var k, t := |actions|, states[|actions|].target;
    if CanComplete(t, op) {
      if t.journals[op].status == InProgress {
        var states', actions' := ResumeCompletes(states, actions, op);
      } else {
        var states', actions' := ReleaseCompletes(states, actions, op);
      }
    }
    if states': seq<State>, actions': seq<Action> :|
         Extends(states, actions, states', actions') && Completed(states'[|actions'|].target, op) {
      assert states'[k] == states[k];
      CompletedMeansCanComplete(states', actions', k, |actions'|, op);
    }
  }

  /** A generation has one owner: once an operation has published its snapshot, no other operation that
      is to commit the same generation ever completes, even if the first one has failed since. */
  lemma TakenGenerationBlocks(states: seq<State>, actions: seq<Action>, k: nat, m: nat, n: nat, op: OpId)
    requires IsRun(states, actions) && k <= m < |states|
    requires n in states[k].target.snapshots && states[k].target.snapshots[n].operation != op
    requires op in states[m].target.journals && HasCommit(states[m].target.journals[op].plan.steps)
    requires n == match states[m].target.journals[op].plan.mode
                  case Bootstrap => 1
                  case Applied => states[m].target.journals[op].plan.baselineGeneration + 1
    ensures states[m].target.journals[op].status != JournalSucceeded
  {
    GenerationChain(states, actions, k, m);
    var i :| 0 <= i < |StepsOf(states[m].target, op)| && StepsOf(states[m].target, op)[i].commit;
    if states[m].target.journals[op].status == JournalSucceeded {
      SucceededIsCommitted(states, actions, m, op, i);
    }
  }

  /** A plan made from an inspection that was out of date: its generation is not beyond the current one, and
      the snapshot of that generation is another operation's. Whether or not the check under the lock was
      skipped by a resume, it publishes nothing, and it never completes. */
  lemma StalePlanIsRefused(states: seq<State>, actions: seq<Action>, k: nat, m: nat, op: OpId)
    requires IsRun(states, actions) && k <= m < |states| && op in states[k].target.journals
    requires var t := states[k].target;
             var generation := if t.journals[op].plan.mode == Bootstrap then 1 else t.journals[op].plan.baselineGeneration + 1;
             generation <= Generation(t) && (generation in t.snapshots ==> t.snapshots[generation].operation != op)
    ensures op in states[m].target.journals
    ensures forall n :: n in states[m].target.snapshots ==> states[m].target.snapshots[n].operation != op
    ensures HasCommit(states[m].target.journals[op].plan.steps) ==> states[m].target.journals[op].status != JournalSucceeded
  {
    RunGrowsLogs(states, actions, k, m);
    GenerationChain(states, actions, k, m);
    var generation := CommitGeneration(PlanOf(states[k].target, op));
    RunKeepsInv(states, actions, m);
    SnapshotsAreTheChain(states, actions, k, generation);
    if HasCommit(StepsOf(states[m].target, op)) {
      TakenGenerationBlocks(states, actions, k, m, generation, op);
    }
  }
}
