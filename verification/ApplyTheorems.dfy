/** The main results about the apply protocol, over every run: any number of clients, any
    interleaving, crashes between any two steps, and leases lost at any time. */
module ApplyTheorems {
  import opened Sequences
  import opened StepHistory
  import opened EventLog
  import opened PlanTypes
  import opened ApplyProtocol
  import opened ApplyLogs
  import opened ApplySafety
  import opened ApplyEffects
  import opened ApplyChain
  import opened ApplyDurability

  ghost predicate Inv(s: State) {
    LogInv(s) && EffectInv(s) && ChainInv(s) && CommitInv(s)
  }

  lemma StepKeepsInv(s: State, a: Action, s': State)
    requires Inv(s) && Moves(s, a, s')
    ensures Inv(s')
  {
    StepKeepsLogs(s, a, s');
    StepKeepsEffects(s, a, s');
    StepKeepsChain(s, a, s');
    StepKeepsCommits(s, a, s');
  }

  lemma {:induction false} RunKeepsInv(states: seq<State>, actions: seq<Action>, k: nat)
    requires IsRun(states, actions) && k < |states|
    ensures Inv(states[k])
  {
    if k > 0 {
      RunKeepsInv(states, actions, k - 1);
      StepKeepsInv(states[k - 1], actions[k - 1], states[k]);
    }
  }

  /** At-most-once dispatch: no operation of any plan takes effect twice, other than state.commit. */
  lemma AtMostOnce(states: seq<State>, actions: seq<Action>, k: nat)
    requires IsRun(states, actions) && k < |states|
    ensures Distinct(states[k].target.effects)
    ensures forall e :: e in states[k].target.effects ==>
              !CommitStep(states[k].target, e.0, e.1) && 2 * e.1 < |LogOf(states[k].target, e.0)|
  {
    RunKeepsInv(states, actions, k);
  }

  /** A client dispatches state.commit a second time, or writes a pointer, only while its own
      generation's snapshot is published and is its own. */
  lemma CommitDispatchedAgainOnlyAfterPublish(states: seq<State>, actions: seq<Action>, k: nat, c: Client)
    requires IsRun(states, actions) && k < |states| && c in states[k].clients
    requires states[k].clients[c].Dispatching?
    requires states[k].clients[c].again || states[k].clients[c].stage != Publishing
    ensures var t, op := states[k].target, states[k].clients[c].op;
            && op in t.journals
            && exists n :: n in t.snapshots && t.snapshots[n].generation == n
                           && IsCommitOf(t.snapshots[n], op, t.journals[op].plan)
  {
    RunKeepsInv(states, actions, k);
    assert ClientChain(states[k].target, states[k].clients[c]);
  }

  lemma CurrentOnlyByCommit(s: State, a: Action, s': State)
    requires Moves(s, a, s') && !a.CurrentWritten?
    ensures s'.target.current == s.target.current
  {
  }

  /** The generation only ever moves by one, and only when a state.commit writes current.json. */
  lemma GenerationStep(states: seq<State>, actions: seq<Action>, k: nat)
    requires IsRun(states, actions) && k < |actions|
    ensures var t, t' := states[k].target, states[k + 1].target;
            && Generation(t) <= Generation(t') <= Generation(t) + 1
            && (!actions[k].CurrentWritten? ==> t'.current == t.current)
  {
    RunKeepsInv(states, actions, k);
    StepKeepsChain(states[k], actions[k], states[k + 1]);
    if !actions[k].CurrentWritten? {
      CurrentOnlyByCommit(states[k], actions[k], states[k + 1]);
    }
  }

  /** What a later target keeps of an earlier one. */
  ghost predicate PastKept(t: Target, t': Target) {
    && Generation(t) <= Generation(t')
    && (forall n :: n in t.snapshots ==> n in t'.snapshots && t'.snapshots[n] == t.snapshots[n])
    && (t.current.Some? ==>
          t'.current.Some? && t'.current.value.installation == t.current.value.installation)
    && forall op :: op in t.journals && t.journals[op].status != InProgress ==>
         op in t'.journals && t'.journals[op] == t.journals[op] && LogOf(t', op) == LogOf(t, op)
  }

  lemma StepKeepsPast(s: State, a: Action, s': State)
    requires Inv(s) && Moves(s, a, s')
    ensures PastKept(s.target, s'.target)
  {
    StepKeepsChain(s, a, s');
    forall op | op in s.target.journals && s.target.journals[op].status != InProgress
      ensures op in s'.target.journals && s'.target.journals[op] == s.target.journals[op]
      ensures LogOf(s'.target, op) == LogOf(s.target, op)
    {
      EndedStays(s, a, s', op);
    }
  }

  lemma RunStepKeepsPast(states: seq<State>, actions: seq<Action>, k: nat)
    requires IsRun(states, actions) && k < |actions|
    ensures PastKept(states[k].target, states[k + 1].target)
  {
    RunKeepsInv(states, actions, k);
    StepKeepsPast(states[k], actions[k], states[k + 1]);
  }

  lemma PastKeptTransitive(t: Target, t': Target, t'': Target)
    requires PastKept(t, t') && PastKept(t', t'')
    ensures PastKept(t, t'')
  {
  }

  /** The committed past is never changed: no generation goes back, no published snapshot is
      altered, the installation keeps its id from the first commit on, and an operation that has
      ended stays exactly as it ended. */
  lemma {:induction false} GenerationChain(states: seq<State>, actions: seq<Action>, i: nat, j: nat)
    requires IsRun(states, actions) && i <= j < |states|
    ensures PastKept(states[i].target, states[j].target)
    decreases j - i
  {
    if i < j {
      GenerationChain(states, actions, i, j - 1);
      RunStepKeepsPast(states, actions, j - 1);
      PastKeptTransitive(states[i].target, states[j - 1].target, states[j].target);
    }
  }

  /** The snapshots are one for each generation up to the current one, and at most the next one. */
  lemma SnapshotsAreTheChain(states: seq<State>, actions: seq<Action>, k: nat, n: int)
    requires IsRun(states, actions) && k < |states|
    ensures var t := states[k].target;
            && (1 <= n <= Generation(t) ==> n in t.snapshots)
            && (n in t.snapshots ==> 1 <= n <= Generation(t) + 1 && t.snapshots[n].generation == n)
            && (t.current.Some? ==>
                  && Generation(t) in t.snapshots
                  && WithoutVolatile(t.current.value) == WithoutVolatile(t.snapshots[Generation(t)]))
  {
    RunKeepsInv(states, actions, k);
  }

  /** Whatever has happened, a resume accepts the recorded events. */
  lemma EveryLogAccepted(states: seq<State>, actions: seq<Action>, k: nat, op: OpId)
    requires IsRun(states, actions) && k < |states| && op in states[k].target.journals
    ensures var t := states[k].target;
            && InPlanOrder(Ids(StepsOf(t, op)), LogOf(t, op))
            && forall e :: e in LogOf(t, op) ==> e.operation == op && e.step in Ids(StepsOf(t, op))
  {
    RunKeepsInv(states, actions, k);
    var t := states[k].target;
    LogAccepted(op, StepsOf(t, op), LogOf(t, op));
    forall e | e in LogOf(t, op) ensures e.operation == op && e.step in Ids(StepsOf(t, op)) {
      var j :| 0 <= j < |LogOf(t, op)| && LogOf(t, op)[j] == e;
      assert Ids(StepsOf(t, op))[j / 2] == e.step;
    }
  }

  /** A journal says "succeeded" only if every step has succeeded; if one of them is state.commit, the
      snapshot of the generation that the journal names is published and says what the plan is to commit,
      and current.json has reached that generation. */
  lemma SucceededIsTrue(states: seq<State>, actions: seq<Action>, k: nat, op: OpId, i: nat)
    requires IsRun(states, actions) && k < |states| && op in states[k].target.journals
    requires states[k].target.journals[op].status == JournalSucceeded
    requires i < |states[k].target.journals[op].plan.steps|
    ensures var t := states[k].target;
            var plan, committed := t.journals[op].plan, t.journals[op].committed;
            && op in t.events && |t.events[op]| == 2 * |plan.steps|
            && t.events[op][2 * i] == Event(op, plan.steps[i].id, 1, Started)
            && t.events[op][2 * i + 1] == Event(op, plan.steps[i].id, 1, Succeeded)
            && committed == Some(if plan.mode == Bootstrap then 1 else plan.baselineGeneration + 1)
            && (plan.steps[i].commit ==>
                  && committed.value in t.snapshots && IsCommitOf(t.snapshots[committed.value], op, plan)
                  && t.current.Some? && committed.value <= t.current.value.generation)
  {
    RunKeepsInv(states, actions, k);
    var t := states[k].target;
    assert LogOk(op, StepsOf(t, op), LogOf(t, op));
    assert StepSucceeded(t, op, i);
    assert (2 * i) / 2 == i && (2 * i + 1) / 2 == i;
    if CommitStep(t, op, i) {
      assert Committed(t, op);
    }
  }
}
