/** The apply protocol of scripts/apply.mjs as steps that any number of clients take in any order.
    A client may stop between any two steps, and the execution lease may be lost at any time. */
module ApplyProtocol {
  import opened Sequences
  import opened StepHistory
  import opened EventLog
  import opened PlanTypes

  type OpId = string
  type Client = nat

  /** A plan's operation, as far as the protocol tells operations apart. */
  datatype Step = Step(id: string, commit: bool)

  datatype Plan = Plan(mode: Mode, steps: seq<Step>, baselineGeneration: nat, installation: string, content: nat)

  /** current.json, and state.json of a generation snapshot. `content` stands for every field that
      is computed from the plan and the deployment. */
  datatype Doc = Doc(installation: string, generation: nat, operation: OpId, content: nat, appliedAt: nat)

  datatype Topology = Topology(installation: string, generation: nat, content: nat)

  /** Field by field, what an operation of this plan is to commit, whenever it does. */
  predicate IsCommitOf(doc: Doc, op: OpId, plan: Plan) {
    && doc.operation == op && doc.content == plan.content
    && match plan.mode
       case Bootstrap => doc.generation == 1 && doc.installation == op
       case Applied => doc.generation == plan.baselineGeneration + 1 && doc.installation == plan.installation
  }

  datatype Status = InProgress | JournalSucceeded | JournalFailed

  datatype Journal = Journal(plan: Plan, status: Status, committed: Option<nat>)

  datatype Target = Target(
    owner: Option<Client>,
    lock: Option<OpId>,
    /** The operation that was the last one to take the lock. */
    latest: Option<OpId>,
    journals: map<OpId, Journal>,
    events: map<OpId, seq<Event>>,
    snapshots: map<nat, Doc>,
    topology: Option<Topology>,
    current: Option<Doc>,
    /** Every dispatch that took effect, other than those of state.commit. */
    effects: seq<(OpId, nat)>)

  /** The parts of the state role: publish the snapshot, write topology.json, write current.json. */
  datatype Stage = Publishing | WritingTopology | WritingCurrent

  /** What an inspection finds of the committed state; `agree` if its pointers do. */
  datatype Seen = Seen(agree: bool, generation: nat, installation: Option<string>)

  datatype Pc =
    /** The target has been inspected; whatever is planned is planned from this. */
    | Inspected(seen: Seen)
    /** And the lease has been acquired since. */
    | Starting(seen: Seen)
    | Planned(op: OpId, plan: Plan)
    | Locked(op: OpId)
    /** At the head of the dispatch loop; `view` are the events a resume has read. */
    | Loop(op: OpId, view: seq<Event>, i: nat)
    | Dispatching(op: OpId, view: seq<Event>, i: nat, stage: Stage, again: bool)
    | Dispatched(op: OpId, view: seq<Event>, i: nat, again: bool)
    | DispatchFailed(op: OpId, view: seq<Event>, i: nat)
    | FailureLogged(op: OpId)
    | Closing(op: OpId)
    | Stopped

  datatype State = State(target: Target, clients: map<Client, Pc>, used: set<OpId>)

  /** commitGenerationFor. */
  function CommitGeneration(plan: Plan): nat {
    if plan.mode == Bootstrap then 1 else plan.baselineGeneration + 1
  }

  /** computeExpectedCommittedState. */
  function Expected(op: OpId, plan: Plan, appliedAt: nat): Doc {
    Doc(if plan.mode == Bootstrap then op else plan.installation, CommitGeneration(plan), op, plan.content, appliedAt)
  }

  function TopologyOf(doc: Doc): Topology {
    Topology(doc.installation, doc.generation, doc.content)
  }

  /** withoutVolatileStateFields. */
  function WithoutVolatile(doc: Doc): Doc {
    doc.(appliedAt := 0)
  }

  predicate Matches(doc: Doc, op: OpId, plan: Plan) {
    WithoutVolatile(doc) == Expected(op, plan, 0)
  }

  /** readGenerationSnapshotArtifacts: the snapshot is there and is this operation's own. */
  predicate SnapshotMatches(t: Target, op: OpId, plan: Plan) {
    CommitGeneration(plan) in t.snapshots && Matches(t.snapshots[CommitGeneration(plan)], op, plan)
  }

  predicate PointersMatch(t: Target, op: OpId, plan: Plan) {
    && t.current.Some? && Matches(t.current.value, op, plan)
    && t.topology == Some(TopologyOf(Expected(op, plan, 0)))
  }

  function Generation(t: Target): nat {
    if t.current.Some? then t.current.value.generation else 0
  }

  /** resolveBaseline refuses pointers that disagree. */
  predicate PointersAgree(t: Target) {
    if t.current.None? then t.topology.None? else t.topology == Some(TopologyOf(t.current.value))
  }

  function SeenOf(t: Target): Seen {
    Seen(PointersAgree(t), Generation(t), if t.current.Some? then Some(t.current.value.installation) else None)
  }

  /** The plan was computed against the committed state that was seen. */
  predicate PlanFor(seen: Seen, plan: Plan) {
    && seen.agree && plan.baselineGeneration == seen.generation
    && if seen.installation.None? then plan.mode == Bootstrap
       else plan.mode == Applied && plan.installation == seen.installation.value
  }

  predicate DistinctIds(steps: seq<Step>) {
    forall i, j :: 0 <= i < j < |steps| ==> steps[i].id != steps[j].id
  }

  /** `decideStepResumption(eventsByStep.get(operation.id) ?? [])`. */
  function Outcome(view: seq<Event>, step: string): Resumption {
    Decide(OfStep(view, step))
  }

  datatype Action =
    | TargetInspected(c: Client)
    | LeaseAcquired(c: Client)
    | LeaseLost
    | ClientStopped(c: Client)
    | PlanComputed(c: Client, op: OpId, plan: Plan)
    | LockTaken(c: Client)
    | Rechecked(c: Client, ok: bool)
    | EventsRead(c: Client)
    | SuccessSeen(c: Client)
    | StepSkipped(c: Client)
    | StepStarted(c: Client)
    | CommitRecovered(c: Client)
    | CommitDispatchedAgain(c: Client)
    | EffectApplied(c: Client, applied: bool, ok: bool)
    | SnapshotPublished(c: Client, at: nat)
    | TopologyWritten(c: Client)
    | CurrentWritten(c: Client, at: nat)
    | CommitFailed(c: Client)
    | SuccessRecorded(c: Client)
    | FailureRecorded(c: Client)
    | JournalMarkedFailed(c: Client)
    | JournalFinished(c: Client)
    | LockReleased(c: Client)

  function PcOf(s: State, c: Client): Pc {
    if c in s.clients then s.clients[c] else Stopped
  }

  function PlanOf(t: Target, op: OpId): Plan {
    if op in t.journals then t.journals[op].plan else Plan(Applied, [], 0, "", 0)
  }

  function StepsOf(t: Target, op: OpId): seq<Step> {
    PlanOf(t, op).steps
  }

  /** A target-side write checks the lease token at the moment it happens. */
  predicate Fenced(s: State, c: Client) {
    s.target.owner == Some(c)
  }

  predicate AtStep(s: State, c: Client) {
    PcOf(s, c).Loop? && PcOf(s, c).i < |StepsOf(s.target, PcOf(s, c).op)|
  }

  function OutcomeAt(s: State, c: Client): Resumption
    requires AtStep(s, c)
  {
    var pc := PcOf(s, c);
    Outcome(pc.view, StepsOf(s.target, pc.op)[pc.i].id)
  }

  predicate CommitStep(t: Target, op: OpId, i: nat) {
    i < |StepsOf(t, op)| && StepsOf(t, op)[i].commit
  }

  predicate CommitLanded(t: Target, op: OpId) {
    SnapshotMatches(t, op, PlanOf(t, op)) && PointersMatch(t, op, PlanOf(t, op))
  }

  /** A dispatch of state.commit still belongs to its own operation: it does not outlive the moment
      at which a later operation takes the lock. */
  predicate InCommit(s: State, c: Client, stage: Stage) {
    var pc := PcOf(s, c);
    && pc.Dispatching? && pc.stage == stage
    && CommitStep(s.target, pc.op, pc.i)
    && s.target.latest == Some(pc.op)
  }

  function Goto(s: State, c: Client, pc: Pc): State {
    s.(clients := s.clients[c := pc])
  }

  function StepEvent(t: Target, op: OpId, i: nat, phase: Phase): Event {
    Event(op, if i < |StepsOf(t, op)| then StepsOf(t, op)[i].id else "", 1, phase)
  }

  function LogOf(t: Target, op: OpId): seq<Event> {
    if op in t.events then t.events[op] else []
  }

  function Append(t: Target, op: OpId, i: nat, phase: Phase): Target {
    t.(events := t.events[op := LogOf(t, op) + [StepEvent(t, op, i, phase)]])
  }

  function SetStatus(t: Target, op: OpId, status: Status, committed: Option<nat>): Target
    requires op in t.journals
  {
    t.(journals := t.journals[op := t.journals[op].(status := status, committed := committed)])
  }

  /** A new process inspects the target before it holds anything. */
  predicate InspectTarget(s: State, c: Client, s': State) {
    c !in s.clients && s' == Goto(s, c, Inspected(SeenOf(s.target)))
  }

  /** Then it waits until nobody holds the execution lease; the target may have moved on by then. */
  predicate AcquireLease(s: State, c: Client, s': State) {
    && s.target.owner.None? && PcOf(s, c).Inspected?
    && s' == Goto(s.(target := s.target.(owner := Some(c))), c, Starting(PcOf(s, c).seen))
  }

  predicate LoseLease(s: State, s': State) {
    s' == s.(target := s.target.(owner := None))
  }

  /** A crash, or a refusal that leaves the target as it is. */
  predicate Stop(s: State, c: Client, s': State) {
    c in s.clients && s' == Goto(s, c, Stopped)
  }

  /** The fresh path up to the lock, from what was inspected before the lease was acquired. An applied
      plan without operations ends here. */
  predicate ComputePlan(s: State, c: Client, op: OpId, plan: Plan, s': State) {
    && PcOf(s, c).Starting? && op !in s.used && PlanFor(PcOf(s, c).seen, plan) && DistinctIds(plan.steps)
    && s' == if plan.mode == Applied && plan.steps == [] then Goto(s, c, Stopped)
             else Goto(s.(used := s.used + {op}), c, Planned(op, plan))
  }

  /** acquireLockAndJournal: both at once, fenced. */
  predicate TakeLock(s: State, c: Client, s': State) {
    var pc := PcOf(s, c);
    && pc.Planned? && Fenced(s, c) && s.target.lock.None?
    && s' == Goto(s.(target := s.target.(
          lock := Some(pc.op), latest := Some(pc.op),
          journals := s.target.journals[pc.op := Journal(pc.plan, InProgress, None)],
          events := s.target.events[pc.op := []])), c, Locked(pc.op))
  }

  /** The target is inspected and the plan computed again under the lock; any failure up to the loop gives the lock back. */
  predicate Recheck(s: State, c: Client, ok: bool, s': State) {
    var pc := PcOf(s, c);
    && pc.Locked? && (ok ==> PlanFor(SeenOf(s.target), PlanOf(s.target, pc.op)))
    && s' == Goto(s, c, if ok then Loop(pc.op, [], 0) else Closing(pc.op))
  }

  predicate ResumeRead(s: State, c: Client, s': State) {
    && PcOf(s, c).Starting? && s.target.lock.Some?
    && var op := s.target.lock.value;
       && op in s.target.journals && s.target.journals[op].status == InProgress
       && s' == Goto(s, c, Loop(op, LogOf(s.target, op), 0))
  }

  /** Only the release of the lock was still missing. */
  predicate ResumeSucceeded(s: State, c: Client, s': State) {
    && PcOf(s, c).Starting? && s.target.lock.Some?
    && var op := s.target.lock.value;
       && op in s.target.journals && s.target.journals[op].status == JournalSucceeded
       && (forall i :: 0 <= i < |StepsOf(s.target, op)| ==>
             Outcome(LogOf(s.target, op), StepsOf(s.target, op)[i].id) == Skip)
       && CommitLanded(s.target, op)
       && s' == Goto(s, c, Closing(op))
  }

  predicate SkipStep(s: State, c: Client, s': State) {
    var pc := PcOf(s, c);
    && AtStep(s, c) && OutcomeAt(s, c) == Skip
    && s' == Goto(s, c, Loop(pc.op, pc.view, pc.i + 1))
  }

  /** The fenced started event comes before the dispatch. */
  predicate StartStep(s: State, c: Client, s': State) {
    var pc := PcOf(s, c);
    && AtStep(s, c) && OutcomeAt(s, c) == Run && Fenced(s, c)
    && s' == Goto(s.(target := Append(s.target, pc.op, pc.i, Started)), c,
                  Dispatching(pc.op, pc.view, pc.i, Publishing, false))
  }

  /** A lone started event of state.commit: the whole commit is there, only its event was lost. */
  predicate RecoverCommit(s: State, c: Client, s': State) {
    var pc := PcOf(s, c);
    && AtStep(s, c) && OutcomeAt(s, c) == Blocked && CommitStep(s.target, pc.op, pc.i)
    && CommitLanded(s.target, pc.op) && Fenced(s, c)
    && s' == Goto(s.(target := Append(s.target, pc.op, pc.i, Succeeded)), c, Loop(pc.op, pc.view, pc.i + 1))
  }

  /** A lone started event of state.commit: the snapshot is there, the pointers are not. */
  predicate DispatchAgain(s: State, c: Client, s': State) {
    var pc := PcOf(s, c);
    && AtStep(s, c) && OutcomeAt(s, c) == Blocked && CommitStep(s.target, pc.op, pc.i)
    && SnapshotMatches(s.target, pc.op, PlanOf(s.target, pc.op))
    && !PointersMatch(s.target, pc.op, PlanOf(s.target, pc.op))
    && s' == Goto(s, c, Dispatching(pc.op, pc.view, pc.i, Publishing, true))
  }

  /** A dispatch other than state.commit: it may fail before or after it took effect. */
  predicate Effect(s: State, c: Client, applied: bool, ok: bool, s': State) {
    var pc := PcOf(s, c);
    && pc.Dispatching? && !CommitStep(s.target, pc.op, pc.i) && (ok ==> applied)
    && s' == Goto(s.(target := if applied then s.target.(effects := s.target.effects + [(pc.op, pc.i)]) else s.target),
                  c, if ok then Dispatched(pc.op, pc.view, pc.i, false) else DispatchFailed(pc.op, pc.view, pc.i))
  }

  /** A first dispatch that fails is recorded as failed; one made to finish an interrupted commit
      ends the run without a record. */
  function AfterFailedCommit(pc: Pc): Pc
    requires pc.Dispatching? || pc.Dispatched?
  {
    if pc.again then Stopped else DispatchFailed(pc.op, pc.view, pc.i)
  }

  /** The check and the atomic rename of the state role: an equal snapshot is kept as it is, a
      different one is never replaced. */
  predicate Publish(s: State, c: Client, at: nat, s': State) {
    && InCommit(s, c, Publishing)
    && var pc := PcOf(s, c);
       var doc := Expected(pc.op, PlanOf(s.target, pc.op), at);
       s' == if doc.generation !in s.target.snapshots
             then Goto(s.(target := s.target.(snapshots := s.target.snapshots[doc.generation := doc])), c,
                       pc.(stage := WritingTopology))
             else if WithoutVolatile(s.target.snapshots[doc.generation]) == WithoutVolatile(doc)
             then Goto(s, c, pc.(stage := WritingTopology))
             else Goto(s, c, AfterFailedCommit(pc))
  }

  predicate WriteTopology(s: State, c: Client, s': State) {
    && InCommit(s, c, WritingTopology)
    && var pc := PcOf(s, c);
       var topology := TopologyOf(Expected(pc.op, PlanOf(s.target, pc.op), 0));
       s' == Goto(s.(target := s.target.(topology := Some(topology))), c, pc.(stage := WritingCurrent))
  }

  predicate WriteCurrent(s: State, c: Client, at: nat, s': State) {
    && InCommit(s, c, WritingCurrent)
    && var pc := PcOf(s, c);
       var doc := Expected(pc.op, PlanOf(s.target, pc.op), at);
       s' == Goto(s.(target := s.target.(current := Some(doc))), c, Dispatched(pc.op, pc.view, pc.i, pc.again))
  }

  /** A dispatch of state.commit may fail at any point, and may also report a failure when everything
      has been written. */
  predicate CommitFails(s: State, c: Client, s': State) {
    var pc := PcOf(s, c);
    && (pc.Dispatching? || pc.Dispatched?) && CommitStep(s.target, pc.op, pc.i)
    && s' == Goto(s, c, AfterFailedCommit(pc))
  }

  predicate RecordSuccess(s: State, c: Client, s': State) {
    var pc := PcOf(s, c);
    && pc.Dispatched? && Fenced(s, c) && (pc.again ==> CommitLanded(s.target, pc.op))
    && s' == Goto(s.(target := Append(s.target, pc.op, pc.i, Succeeded)), c, Loop(pc.op, pc.view, pc.i + 1))
  }

  predicate RecordFailure(s: State, c: Client, s': State) {
    var pc := PcOf(s, c);
    && pc.DispatchFailed? && Fenced(s, c)
    && s' == Goto(s.(target := Append(s.target, pc.op, pc.i, Failed)), c, FailureLogged(pc.op))
  }

  predicate FailJournal(s: State, c: Client, s': State) {
    var pc := PcOf(s, c);
    && pc.FailureLogged? && Fenced(s, c) && pc.op in s.target.journals
    && s' == Goto(s.(target := SetStatus(s.target, pc.op, JournalFailed, None)), c, Closing(pc.op))
  }

  predicate Finish(s: State, c: Client, s': State) {
    var pc := PcOf(s, c);
    && pc.Loop? && pc.op in s.target.journals && pc.i == |StepsOf(s.target, pc.op)| && Fenced(s, c)
    && s' == Goto(s.(target := SetStatus(s.target, pc.op, JournalSucceeded,
                                         Some(CommitGeneration(PlanOf(s.target, pc.op))))), c, Closing(pc.op))
  }

  /** releaseLock is not fenced; it only checks whose lock it is. */
  predicate Release(s: State, c: Client, s': State) {
    var pc := PcOf(s, c);
    && pc.Closing?
    && s' == Goto(if s.target.lock == Some(pc.op) then s.(target := s.target.(lock := None)) else s, c, Stopped)
  }

  predicate Moves(s: State, a: Action, s': State) {
    match a
    case TargetInspected(c) => InspectTarget(s, c, s')
    case LeaseAcquired(c) => AcquireLease(s, c, s')
    case LeaseLost => LoseLease(s, s')
    case ClientStopped(c) => Stop(s, c, s')
    case PlanComputed(c, op, plan) => ComputePlan(s, c, op, plan, s')
    case LockTaken(c) => TakeLock(s, c, s')
    case Rechecked(c, ok) => Recheck(s, c, ok, s')
    case EventsRead(c) => ResumeRead(s, c, s')
    case SuccessSeen(c) => ResumeSucceeded(s, c, s')
    case StepSkipped(c) => SkipStep(s, c, s')
    case StepStarted(c) => StartStep(s, c, s')
    case CommitRecovered(c) => RecoverCommit(s, c, s')
    case CommitDispatchedAgain(c) => DispatchAgain(s, c, s')
    case EffectApplied(c, applied, ok) => Effect(s, c, applied, ok, s')
    case SnapshotPublished(c, at) => Publish(s, c, at, s')
    case TopologyWritten(c) => WriteTopology(s, c, s')
    case CurrentWritten(c, at) => WriteCurrent(s, c, at, s')
    case CommitFailed(c) => CommitFails(s, c, s')
    case SuccessRecorded(c) => RecordSuccess(s, c, s')
    case FailureRecorded(c) => RecordFailure(s, c, s')
    case JournalMarkedFailed(c) => FailJournal(s, c, s')
    case JournalFinished(c) => Finish(s, c, s')
    case LockReleased(c) => Release(s, c, s')
  }

  const EMPTY: Target := Target(None, None, None, map[], map[], map[], None, None, [])

  const START: State := State(EMPTY, map[], {})

  /** A run: the states one after the other, and the action that led from each to the next. */
  ghost predicate IsRun(states: seq<State>, actions: seq<Action>) {
    && |states| == |actions| + 1 && states[0] == START
    && forall k :: 0 <= k < |actions| ==> Moves(states[k], actions[k], states[k + 1])
  }
}
