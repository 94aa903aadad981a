/** Every plan that is made for the state as it is can be run to its end. */
module ApplyFresh {
  import opened Sequences
  import opened PlanTypes
  import opened ApplyProtocol
  import opened ApplyTheorems
  import opened ApplyGuards
  import opened ApplyResume

  /** The plan fits what is committed, and there is something to do. */
  predicate Fits(t: Target, plan: Plan) {
    && OneCommit(t) && DistinctIds(plan.steps) && !NothingToDo(plan)
    && match t.current
       case None => plan.mode == Bootstrap && plan.baselineGeneration == 0
       case Some(doc) =>
         plan.mode == Applied && plan.baselineGeneration == doc.generation && plan.installation == doc.installation
  }

  /** Nobody has published the generation that the plan is to commit, if it is to commit one. */
  predicate Unpublished(t: Target, plan: Plan) {
    HasCommit(plan.steps) ==> (if plan.mode == Bootstrap then 1 else plan.baselineGeneration + 1) !in t.snapshots
  }

  lemma Locks(s: State, c: Client, op: OpId, plan: Plan) returns (s': State)
    requires Inv(s) && c in s.clients && PcOf(s, c) == Starting(SeenOf(s.target)) && s.target.owner == Some(c)
    requires s.target.lock.None? && op !in s.used && Fits(s.target, plan)
    ensures Stretch(s, s') && c in s'.clients && PcOf(s', c) == Locked(op) && op in s'.target.journals
    ensures s'.target == s.target.(lock := Some(op), latest := Some(op),
                                   journals := s.target.journals[op := Journal(plan, InProgress, None)],
                                   events := s.target.events[op := []])
  {
    Stay(s);
    var s1 := Goto(s.(used := s.used + {op}), c, Planned(op, plan));
    Onwards(s, s, PlanComputed(c, op, plan), s1);
    s' := Goto(s1.(target := s1.target.(
      lock := Some(op), latest := Some(op), journals := s1.target.journals[op := Journal(plan, InProgress, None)],
      events := s1.target.events[op := []])), c, Locked(op));
    Onwards(s, s1, LockTaken(c), s');
  }

  lemma Begins(s: State, c: Client, op: OpId, plan: Plan) returns (s': State)
    requires Inv(s) && c in s.clients && PcOf(s, c) == Locked(op) && s.target.owner == Some(c)
    requires s.target.lock == Some(op) && s.target.latest == Some(op)
    requires op in s.target.journals && s.target.journals[op] == Journal(plan, InProgress, None) && LogOf(s.target, op) == []
    requires Fits(s.target, plan) && Unpublished(s.target, plan)
    ensures Stretch(s, s') && AtHead(s', c, op, [], 0) && PlanOf(s'.target, op) == plan
  {
    Stay(s);
    s' := Goto(s, c, Loop(op, [], 0));
    Onwards(s, s, Rechecked(c, true), s');
  }

  lemma Runs(s: State, c: Client, op: OpId, plan: Plan) returns (s': State)
    requires Inv(s) && AtHead(s, c, op, [], 0) && PlanOf(s.target, op) == plan
    ensures Stretch(s, s') && Completed(s'.target, op) && PlanOf(s'.target, op) == plan
  {
    var s1 := LoopDone(s, c, op, [], 0);
    s' := Closed(s1, c, op, []);
    Join(s, s1, s');
  }

  lemma Takes(s: State, op: OpId, plan: Plan) returns (s': State, c: Client)
    requires Inv(s) && s.target.lock.None? && op !in s.used && Fits(s.target, plan) && Unpublished(s.target, plan)
    ensures Stretch(s, s') && AtHead(s', c, op, [], 0) && PlanOf(s'.target, op) == plan
  {
    var s1, s2;
    s1, c := Arrived(s);
    s2 := Locks(s1, c, op, plan);
    Join(s, s1, s2);
    s' := Begins(s2, c, op, plan);
    Join(s, s2, s');
  }

  /** Whatever has happened before: while the lock is free, a plan that fits the committed state, and whose
      generation nobody has published, can be run to its end under any operation id that is new. */
  lemma FreshCompletes(states: seq<State>, actions: seq<Action>, op: OpId, plan: Plan)
    returns (states': seq<State>, actions': seq<Action>)
    requires IsRun(states, actions) && op !in states[|actions|].used
    requires var t := states[|actions|].target; t.lock.None? && Fits(t, plan) && Unpublished(t, plan)
    ensures Extends(states, actions, states', actions')
    ensures var t := states'[|actions'|].target;
            && t.lock.None? && op in t.journals && t.journals[op].plan == plan && t.journals[op].status == JournalSucceeded
  {
    var s := states[|actions|];
    RunKeepsInv(states, actions, |actions|);
    var s1, c := Takes(s, op, plan);
    var s2 := Runs(s1, c, op, plan);
    Join(s, s1, s2);
    states', actions' := RunGoesOn(states, actions, s2);
  }
}
