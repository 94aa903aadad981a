/** One operation, run and resumed again after crashes (scripts/apply.mjs, the dispatch loop of
    runUnderLease). The loop works on the target in place; a crash may come before any write, and any
    dispatch may fail, before or after it took effect. */
module CrashRecovery {
  import opened Sequences
  import opened StepHistory
  import opened EventLog
  import opened ApplyProtocol
  import opened ApplyLogs

  /** The operation, and what its target held before it. */
  datatype Setup = Setup(op: OpId, plan: Plan, snapshotBefore: Option<Doc>, topologyBefore: Option<Topology>,
                         currentBefore: Option<Doc>)

  datatype OpState = OpState(
    locked: bool, status: Status, committed: Option<nat>, log: seq<Event>,
    snapshot: Option<Doc>, topology: Option<Topology>, current: Option<Doc>, effects: seq<nat>)

  /** The plan of an operation ends with its only state.commit, and nothing is its own before it starts. */
  ghost predicate WellFormed(x: Setup) {
    var steps := x.plan.steps;
    && DistinctIds(steps) && steps != []
    && (forall i :: 0 <= i < |steps| ==> (steps[i].commit <==> i == |steps| - 1))
    && (x.snapshotBefore.Some? ==> !Matches(x.snapshotBefore.value, x.op, x.plan))
    && (x.currentBefore.Some? ==> !Matches(x.currentBefore.value, x.op, x.plan))
  }

  function N(x: Setup): nat {
    |x.plan.steps|
  }

  function UpTo(k: nat): seq<nat> {
    seq(k, i => i)
  }

  /** Every ordinary operation once and in order, then only state.commit, at least once. */
  ghost predicate EffectsOfRun(x: Setup, effects: seq<nat>) {
    && |effects| >= N(x) >= 1
    && effects[..N(x) - 1] == UpTo(N(x) - 1)
    && forall j :: N(x) - 1 <= j < |effects| ==> effects[j] == N(x) - 1
  }

  ghost predicate CleanLog(x: Setup, log: seq<Event>) {
    && LogOk(x.op, x.plan.steps, log)
    && forall j :: 0 <= j < |log| ==> log[j].phase != Failed
  }

  /** The last step in the log has failed, all before it have succeeded. */
  ghost predicate FailedLog(x: Setup, log: seq<Event>) {
    && LogOk(x.op, x.plan.steps, log)
    && log != [] && log[|log| - 1].phase == Failed
  }

  predicate Untouched(x: Setup, st: OpState) {
    st.snapshot == x.snapshotBefore && st.topology == x.topologyBefore && st.current == x.currentBefore
  }

  ghost predicate Running(x: Setup, st: OpState) {
    st.locked && st.status == InProgress && CleanLog(x, st.log)
  }

  /** `k` steps have been done and recorded, and nothing else has happened. */
  ghost predicate DoneSteps(x: Setup, st: OpState, k: nat) {
    && Running(x, st) && Untouched(x, st)
    && k < N(x) && |st.log| == 2 * k && st.effects == UpTo(k)
  }

  /** Between a step's started event and its resolution. For state.commit only until its snapshot has
      been published. */
  ghost predicate Open(x: Setup, st: OpState) {
    && Running(x, st) && Untouched(x, st)
    && |st.log| % 2 == 1
    && var k := |st.log| / 2;
       && k < N(x)
       && (st.effects == UpTo(k) || (k < N(x) - 1 && st.effects == UpTo(k + 1)))
  }

  predicate SnapshotOwn(x: Setup, st: OpState) {
    st.snapshot.Some? && Matches(st.snapshot.value, x.op, x.plan)
  }

  predicate TopologyOwn(x: Setup, st: OpState) {
    st.topology == Some(TopologyOf(Expected(x.op, x.plan, 0)))
  }

  predicate CurrentOwn(x: Setup, st: OpState) {
    st.current.Some? && Matches(st.current.value, x.op, x.plan)
  }

  /** The snapshot is published; the pointers may not have been written yet. */
  ghost predicate InsideCommit(x: Setup, st: OpState) {
    && Running(x, st) && |st.log| == 2 * N(x) - 1
    && EffectsOfRun(x, st.effects) && SnapshotOwn(x, st)
    && (TopologyOwn(x, st) || st.topology == x.topologyBefore)
    && (CurrentOwn(x, st) || st.current == x.currentBefore)
  }

  ghost predicate Landed(x: Setup, st: OpState) {
    && CleanLog(x, st.log) && |st.log| == 2 * N(x) && EffectsOfRun(x, st.effects)
    && SnapshotOwn(x, st) && TopologyOwn(x, st) && CurrentOwn(x, st)
  }

  /** Every step is recorded; the journal, or only the lock, is still to be closed. */
  ghost predicate Closeable(x: Setup, st: OpState) {
    && Landed(x, st) && st.locked
    && (st.status == InProgress ||
        (st.status == JournalSucceeded && st.committed == Some(CommitGeneration(x.plan))))
  }

  /** The end of an uninterrupted run, up to how often state.commit was dispatched. */
  ghost predicate Completed(x: Setup, st: OpState) {
    && Landed(x, st) && !st.locked && st.status == JournalSucceeded
    && st.committed == Some(CommitGeneration(x.plan))
  }

  /** No ordinary operation has had its effect twice. */
  ghost predicate EffectsOnce(x: Setup, effects: seq<nat>) {
    EffectsOfRun(x, effects) || exists k :: 0 <= k < N(x) && effects == UpTo(k)
  }

  /** A dispatch has failed, and its failure is recorded. */
  ghost predicate Broken(x: Setup, st: OpState) {
    FailedLog(x, st.log) && EffectsOnce(x, st.effects) && st.status != JournalSucceeded
  }

  /** The end of a run in which a dispatch failed. */
  ghost predicate EndedFailed(x: Setup, st: OpState) {
    Broken(x, st) && st.status == JournalFailed && !st.locked
  }

  /** Where a crash can leave the target so that a resume can go on. */
  ghost predicate Resumable(x: Setup, st: OpState) {
    (exists k :: DoneSteps(x, st, k)) || InsideCommit(x, st) || Closeable(x, st)
  }

  /** Where a crash can leave it so that none can: between a step's started event and its resolution,
      or between a recorded failure and the release of the lock. */
  ghost predicate Stuck(x: Setup, st: OpState) {
    Open(x, st) || (Broken(x, st) && st.locked)
  }

  function StepEventOf(x: Setup, i: nat, phase: Phase): Event
    requires i < N(x)
  {
    Event(x.op, x.plan.steps[i].id, 1, phase)
  }

  function WithEvent(x: Setup, st: OpState, i: nat, phase: Phase): OpState
    requires i < N(x)
  {
    st.(log := st.log + [StepEventOf(x, i, phase)])
  }

  lemma CleanAppend(x: Setup, log: seq<Event>, phase: Phase)
    requires CleanLog(x, log) && |log| / 2 < N(x)
    requires if |log| % 2 == 0 then phase == Started else phase != Started
    ensures phase != Failed ==> CleanLog(x, log + [StepEventOf(x, |log| / 2, phase)])
    ensures phase == Failed ==> FailedLog(x, log + [StepEventOf(x, |log| / 2, phase)])
  {
  }

  lemma StartedIsOpen(x: Setup, st: OpState, i: nat)
    requires DoneSteps(x, st, i)
    ensures Open(x, WithEvent(x, st, i, Started))
  {
    CleanAppend(x, st.log, Started);
  }

  lemma StepDone(x: Setup, st: OpState, i: nat)
    requires Open(x, st) && |st.log| == 2 * i + 1 && i + 1 < N(x) && st.effects == UpTo(i + 1)
    ensures DoneSteps(x, WithEvent(x, st, i, Succeeded), i + 1)
  {
    CleanAppend(x, st.log, Succeeded);
  }

  lemma CommitDone(x: Setup, st: OpState)
    requires InsideCommit(x, st) && TopologyOwn(x, st) && CurrentOwn(x, st) && N(x) >= 1
    ensures Closeable(x, WithEvent(x, st, N(x) - 1, Succeeded))
  {
    CleanAppend(x, st.log, Succeeded);
  }

  lemma StepFailed(x: Setup, st: OpState, i: nat)
    requires WellFormed(x) && i < N(x) && |st.log| == 2 * i + 1
    requires Open(x, st) || InsideCommit(x, st)
    ensures Broken(x, WithEvent(x, st, i, Failed))
  {
    CleanAppend(x, st.log, Failed);
    if Open(x, st) && st.effects == UpTo(i + 1) {
      assert i + 1 < N(x);
    }
  }

  /** How long the log is decides what kind of state this is. */
  lemma KindByLength(x: Setup, st: OpState, i: nat)
    requires WellFormed(x) && i < N(x)
    requires (Resumable(x, st) && st.status == InProgress) || Open(x, st)
    ensures |st.log| == 2 * i ==> DoneSteps(x, st, i)
    ensures |st.log| == 2 * i + 1 ==> Open(x, st) || (InsideCommit(x, st) && i == N(x) - 1)
    ensures Open(x, st) ==> !Resumable(x, st)
    ensures |st.log| >= 2 * N(x) ==> Closeable(x, st)
    ensures CleanLog(x, st.log)
  {
  }

  ghost predicate ReachedStep(x: Setup, st: OpState, i: nat) {
    if i < N(x) then DoneSteps(x, st, i) else Closeable(x, st) && st.status == InProgress
  }

  lemma OutcomeOfView(x: Setup, log: seq<Event>, i: nat)
    requires WellFormed(x) && (CleanLog(x, log) || FailedLog(x, log)) && i < N(x)
    ensures Outcome(log, x.plan.steps[i].id) ==
            if |log| <= 2 * i then Run
            else if |log| == 2 * i + 1 then Blocked
            else if |log| == 2 * i + 2 && FailedLog(x, log) then FailedBefore
            else Skip
  {
    OutcomeByLength(x.op, x.plan.steps, log, i);
  }

  /** Crash transparency: two completed runs of one operation differ at most in when they wrote
      their documents and in how often the last one had to dispatch state.commit. */
  lemma CompletedAgree(x: Setup, a: OpState, b: OpState)
    requires Completed(x, a) && Completed(x, b)
    ensures a.log == b.log && a.topology == b.topology && a.committed == b.committed
    ensures forall doc :: doc in {a.snapshot, b.snapshot, a.current, b.current} ==>
              doc.Some? && IsCommitOf(doc.value, x.op, x.plan)
    ensures var doc := a.snapshot.value;
            a.topology == Some(Topology(doc.installation, doc.generation, x.plan.content)) && a.committed == Some(doc.generation)
    ensures a.effects[..N(x)] == b.effects[..N(x)] == UpTo(N(x))
    ensures forall e :: e in a.effects[N(x)..] + b.effects[N(x)..] ==> e == N(x) - 1
  {
    forall j | 0 <= j < |a.log| ensures a.log[j] == b.log[j] {
    }
    forall st | st == a || st == b ensures st.effects[..N(x)] == UpTo(N(x)) {
      assert st.effects[..N(x)] == st.effects[..N(x) - 1] + [st.effects[N(x) - 1]];
      assert UpTo(N(x)) == UpTo(N(x) - 1) + [N(x) - 1];
    }
  }

  /** How a dispatch, a step or a round ends. A resume that fails to finish an interrupted commit ends
      like a crash: nothing is recorded. */
  datatype End = Finished | Crashed | Refused | Failure

  /** What befalls one round. */
  datatype Trouble = Trouble(writes: Option<nat>, dispatches: Option<nat>, applied: bool, failsAt: Stage)
  {
    predicate Nothing() { writes.None? && dispatches.None? }
  }

  class Operation {
    const x: Setup
    var locked: bool
    var status: Status
    var committed: Option<nat>
    var log: seq<Event>
    var snapshot: Option<Doc>
    var topology: Option<Topology>
    var current: Option<Doc>
    var effects: seq<nat>
    /** How many more writes the running process makes before it crashes; `None` if it does not. */
    var writesLeft: Option<nat>
    /** How many more dispatches work before one fails; `None` if all do. */
    var dispatchesLeft: Option<nat>

    ghost function State(): OpState
      reads this
    {
      OpState(locked, status, committed, log, snapshot, topology, current, effects)
    }

    ghost predicate Undisturbed()
      reads this
    {
      writesLeft.None? && dispatchesLeft.None?
    }

    /** acquireLockAndJournal has just created both. */
    constructor (x: Setup)
      requires WellFormed(x)
      ensures this.x == x && DoneSteps(x, State(), 0)
    {
      this.x := x;
      locked, status, committed, log := true, InProgress, None, [];
      snapshot, topology, current, effects := x.snapshotBefore, x.topologyBefore, x.currentBefore, [];
      writesLeft, dispatchesLeft := None, None;
    }

    /** Whether the process lives on to make the next write. */
    method NextWrite() returns (alive: bool)
      modifies this`writesLeft
      ensures old(writesLeft).None? ==> alive && writesLeft.None?
    {
      if writesLeft.None? {
        return true;
      }
      alive := writesLeft.value > 0;
      if alive {
        writesLeft := Some(writesLeft.value - 1);
      }
    }

    /** Whether the next dispatch works. */
    method NextDispatch() returns (works: bool)
      modifies this`dispatchesLeft
      ensures old(dispatchesLeft).None? ==> works && dispatchesLeft.None?
    {
      if dispatchesLeft.None? {
        return true;
      }
      works := dispatchesLeft.value > 0;
      if works {
        dispatchesLeft := Some(dispatchesLeft.value - 1);
      }
    }

    method AppendEvent(i: nat, phase: Phase) returns (alive: bool)
      requires i < N(x)
      modifies this`writesLeft, this`log
      ensures State() == if alive then WithEvent(x, old(State()), i, phase) else old(State())
      ensures old(writesLeft).None? ==> alive && writesLeft.None?
    {
      alive := NextWrite();
      if alive {
        log := log + [StepEventOf(x, i, phase)];
      }
    }

    /** A dispatch other than state.commit; one that fails may have had its effect all the same. */
    method DispatchOrdinary(i: nat, applied: bool) returns (end: End)
      modifies this`writesLeft, this`dispatchesLeft, this`effects
      ensures end == Finished || end == Crashed || end == Failure
      ensures end == Finished ==> State() == old(State()).(effects := old(effects) + [i])
      ensures end == Crashed ==> State() == old(State())
      ensures end == Failure ==> State() == old(State()).(effects := if applied then old(effects) + [i] else old(effects))
      ensures old(dispatchesLeft).None? ==> end != Failure && dispatchesLeft.None?
      ensures old(writesLeft).None? ==> end != Crashed && writesLeft.None?
    {
      var works := NextDispatch();
      var alive := NextWrite();
      if !alive {
        return Crashed;
      }
      if works || applied {
        effects := effects + [i];
      }
      return if works then Finished else Failure;
    }

    /** The second half of the state role: topology.json, then current.json. */
    method WritePointers(doc: Doc, works: bool, failsAt: Stage) returns (end: End)
      requires WellFormed(x) && InsideCommit(x, State()) && WithoutVolatile(doc) == Expected(x.op, x.plan, 0)
      modifies this`writesLeft, this`topology, this`current
      ensures end == Finished || end == Crashed || end == Failure
      ensures InsideCommit(x, State())
      ensures end == Finished ==> works && TopologyOwn(x, State()) && CurrentOwn(x, State())
      ensures end == Failure ==> !works
      ensures old(writesLeft).None? ==> end != Crashed && writesLeft.None?
    {
      var alive := NextWrite();
      if !alive {
        return Crashed;
      }
      topology := Some(TopologyOf(doc));
      if !works && failsAt == WritingTopology {
        return Failure;
      }
      alive := NextWrite();
      if !alive {
        return Crashed;
      }
      current := Some(doc);
      return if works then Finished else Failure;
    }

    /** The state role: publish the snapshot unless an equal one is there, refuse to replace another one,
        then write the pointers. It may fail behind any of these. */
    method DispatchCommit(at: nat, failsAt: Stage) returns (end: End)
      requires WellFormed(x)
      requires InsideCommit(x, State()) || (Open(x, State()) && |log| == 2 * N(x) - 1)
      modifies this`writesLeft, this`dispatchesLeft, this`snapshot, this`topology, this`current, this`effects
      ensures end == Finished || end == Crashed || end == Failure
      ensures InsideCommit(x, State()) || (State() == old(State()) && end != Finished)
      ensures end == Finished ==> TopologyOwn(x, State()) && CurrentOwn(x, State())
      ensures end == Finished ==> old(snapshot).None? || old(SnapshotOwn(x, State()))
      ensures old(dispatchesLeft).None? ==> dispatchesLeft.None?
      ensures old(dispatchesLeft).None? && (old(snapshot).None? || old(SnapshotOwn(x, State()))) ==> end != Failure
      ensures old(writesLeft).None? ==> end != Crashed && writesLeft.None?
    {
      var doc := Expected(x.op, x.plan, at);
      var works := NextDispatch();
      var alive := NextWrite();
      if !alive {
        return Crashed;
      }
      if snapshot.Some? && WithoutVolatile(snapshot.value) != WithoutVolatile(doc) {
        return Failure;
      }
      if snapshot.None? {
        snapshot := Some(doc);
      }
      effects := effects + [N(x) - 1];
      if !works && failsAt == Publishing {
        return Failure;
      }
      end := WritePointers(doc, works, failsAt);
    }

    /** A dispatch has failed: the failed event, the journal, the lock. */
    method RecordFailure(i: nat) returns (alive: bool)
      requires WellFormed(x) && i < N(x) && |log| == 2 * i + 1
      requires Open(x, State()) || InsideCommit(x, State())
      modifies this
      ensures alive ==> EndedFailed(x, State())
      ensures !alive ==> Resumable(x, State()) || Stuck(x, State())
      ensures old(writesLeft).None? ==> alive && writesLeft.None?
      ensures dispatchesLeft == old(dispatchesLeft)
    {
      StepFailed(x, State(), i);
      alive := AppendEvent(i, Failed);
      if !alive {
        return;
      }
      alive := NextWrite();
      if !alive {
        return;
      }
      status := JournalFailed;
      alive := NextWrite();
      if alive {
        locked := false;
      }
    }

    /** A step that has not been tried yet: started event, dispatch, succeeded or failed event. */
    method RunStep(i: nat, at: nat, applied: bool, failsAt: Stage) returns (end: End)
      requires WellFormed(x) && DoneSteps(x, State(), i)
      modifies this
      ensures end == Finished ==> if i + 1 < N(x) then DoneSteps(x, State(), i + 1) else Closeable(x, State())
      ensures end == Finished ==> status == InProgress
      ensures end == Crashed ==> Resumable(x, State()) || Stuck(x, State())
      ensures end == Failure ==> EndedFailed(x, State())
      ensures end != Refused
      ensures old(writesLeft).None? ==> end != Crashed && writesLeft.None?
      ensures old(dispatchesLeft).None? ==> dispatchesLeft.None? && (x.snapshotBefore.None? ==> end != Failure)
    {
      StartedIsOpen(x, State(), i);
      var alive := AppendEvent(i, Started);
      if !alive {
        return Crashed;
      }
      if x.plan.steps[i].commit {
        end := DispatchCommit(at, failsAt);
        if end == Finished {
          CommitDone(x, State());
        }
      } else {
        assert UpTo(i) + [i] == UpTo(i + 1);
        end := DispatchOrdinary(i, applied);
        if end == Finished {
          StepDone(x, State(), i);
        }
      }
      if end == Finished {
        alive := AppendEvent(i, Succeeded);
      } else if end == Failure {
        alive := RecordFailure(i);
      }
      if !alive {
        end := Crashed;
      }
    }

    /** A lone started event of state.commit, and the snapshot that is there is its own. */
    method RecoverCommit(at: nat, failsAt: Stage) returns (alive: bool)
      requires WellFormed(x) && InsideCommit(x, State())
      modifies this
      ensures alive ==> Closeable(x, State()) && status == InProgress
      ensures !alive ==> InsideCommit(x, State())
      ensures old(writesLeft).None? ==> writesLeft.None?
      ensures old(dispatchesLeft).None? ==> dispatchesLeft.None?
      ensures old(Undisturbed()) ==> alive
    {
      var now := OpState(locked, status, committed, log, snapshot, topology, current, effects);
      if !(CurrentOwn(x, now) && TopologyOwn(x, now)) {
        var end := DispatchCommit(at, failsAt);
        if end != Finished {
          return false;
        }
      }
      CommitDone(x, State());
      alive := AppendEvent(N(x) - 1, Succeeded);
    }

    /** The dispatch loop. It refuses exactly the stuck states, without touching anything. */
    method DispatchLoop(view: seq<Event>, at: nat, applied: bool, failsAt: Stage) returns (end: End)
      requires WellFormed(x) && view == log && status == InProgress
      requires Resumable(x, State()) || Stuck(x, State())
      modifies this
      ensures end == Refused <==> old(Stuck(x, State()))
      ensures end == Refused ==> State() == old(State())
      ensures end == Finished ==> Closeable(x, State()) && status == InProgress
      ensures end == Crashed ==> Resumable(x, State()) || Stuck(x, State())
      ensures end == Failure ==> EndedFailed(x, State())
      ensures old(writesLeft).None? ==> writesLeft.None?
      ensures old(dispatchesLeft).None? ==> dispatchesLeft.None? && (x.snapshotBefore.None? ==> end != Failure)
      ensures old(Undisturbed()) ==> end != Crashed
    {
      ghost var broken := Broken(x, State());
      if !broken {
        KindByLength(x, State(), 0);
      }
      for i := 0 to N(x)
        invariant (State() == old(State()) && 2 * i <= |view|)
                  || (!broken && ReachedStep(x, State(), i) && |view| <= 2 * i)
        invariant old(Stuck(x, State())) ==> State() == old(State()) && 2 * i <= |view|
        invariant broken ==> 2 * i < |view|
        invariant old(writesLeft).None? ==> writesLeft.None?
        invariant old(dispatchesLeft).None? ==> dispatchesLeft.None?
      {
        OutcomeOfView(x, view, i);
        if !broken && State() == old(State()) {
          KindByLength(x, State(), i);
        }
        var outcome := DecideStepResumption(OfStep(view, x.plan.steps[i].id));
        if outcome == Skip {
          continue;
        }
        if outcome == Run {
          end := RunStep(i, at, applied, failsAt);
          if end != Finished {
            return;
          }
        } else {
          var now := OpState(locked, status, committed, log, snapshot, topology, current, effects);
          if outcome != Blocked || !x.plan.steps[i].commit || !SnapshotOwn(x, now) {
            return Refused;
          }
          var alive := RecoverCommit(at, failsAt);
          if !alive {
            return Crashed;
          }
        }
      }
      return Finished;
    }

    /** One run or resume: the loop, then the journal, then the lock. A journal that has failed is not resumed. */
    method Round(at: nat, applied: bool, failsAt: Stage) returns (end: End)
      requires WellFormed(x) && (Resumable(x, State()) || Stuck(x, State()))
      modifies this
      ensures end == Refused <==> old(Stuck(x, State()))
      ensures end == Refused ==> State() == old(State())
      ensures end == Finished ==> Completed(x, State())
      ensures end == Crashed ==> Resumable(x, State()) || Stuck(x, State())
      ensures end == Failure ==> EndedFailed(x, State())
      ensures old(dispatchesLeft).None? && x.snapshotBefore.None? ==> end != Failure
      ensures old(Undisturbed()) ==> end != Crashed
    {
      if status == JournalFailed {
        return Refused;
      }
      end := Finished;
      if status == InProgress {
        end := DispatchLoop(log, at, applied, failsAt);
        if end != Finished {
          return;
        }
        var alive := NextWrite();
        if !alive {
          return Crashed;
        }
        status, committed := JournalSucceeded, Some(CommitGeneration(x.plan));
      }
      var alive := NextWrite();
      if !alive {
        return Crashed;
      }
      locked := false;
    }

    /** Rounds that may crash and whose dispatches may fail, and then one that is left in peace. The
        operation completes, unless a dispatch has failed or a crash has left it stuck. */
    method CrashAndResume(troubles: seq<Trouble>, at: nat) returns (end: End)
      requires WellFormed(x) && DoneSteps(x, State(), 0)
      modifies this
      ensures end != Crashed
      ensures end == Finished ==> Completed(x, State())
      ensures end == Failure ==> EndedFailed(x, State())
      ensures end == Refused ==> Stuck(x, State())
      ensures end == Failure && x.snapshotBefore.None? ==> exists j :: 0 <= j < |troubles| && troubles[j].dispatches.Some?
      ensures end == Refused ==> exists j :: 0 <= j < |troubles| && !troubles[j].Nothing()
    {
      for j := 0 to |troubles|
        invariant Resumable(x, State()) || Stuck(x, State())
        invariant Stuck(x, State()) ==> exists i :: 0 <= i < j && !troubles[i].Nothing()
      {
        var trouble := troubles[j];
        writesLeft, dispatchesLeft := trouble.writes, trouble.dispatches;
        end := Round(at, trouble.applied, trouble.failsAt);
        if end != Crashed {
          return;
        }
      }
      writesLeft, dispatchesLeft := None, None;
      end := Round(at, true, Publishing);
    }
  }
}
