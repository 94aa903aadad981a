/** The lock, journals and event logs of backup and restore operations on the target, and the fenced
    writes that change them (scripts/target-mutate.mjs, scripts/operation-v2.mjs). */
module JournalStore {
  import opened Sequences

  type OpId = string
  type Token = string

  datatype PlanStep = PlanStep(id: string, destination: Option<string>)

  /** Everything a journal carries except its state and the committed generation. */
  datatype Fields = Fields(apiVersion: string, kind: string, operationId: OpId, approvedPlanId: string, target: string,
                           plan: seq<PlanStep>, inputDigests: string, startedAt: string)

  datatype JournalState = InProgress | Succeeded | Failed

  datatype Journal = Journal(fields: Fields, state: JournalState, committedGeneration: Option<nat>)

  datatype Event = Event(kind: string, operationId: OpId, step: string, attempt: nat, phase: string, destination: Option<string>)

  /** `creating` is the operation whose lock and journal a script, holding the guard, is in the middle of
      creating; no other write happens meanwhile, but anybody may read. */
  datatype Store = Store(lease: Option<Token>, lock: Option<OpId>, creating: Option<OpId>,
                         journals: map<OpId, Journal>, events: map<OpId, seq<Event>>)

  function LogOf(s: Store, op: OpId): seq<Event> {
    if op in s.events then s.events[op] else []
  }

  /** The event is one of this journal's operation, for a step of its embedded plan. */
  predicate Binds(j: Journal, e: Event) {
    && e.operationId == j.fields.operationId && e.kind == j.fields.kind
    && exists i :: 0 <= i < |j.fields.plan| && j.fields.plan[i].id == e.step
                   && (e.destination.Some? ==> e.destination == j.fields.plan[i].destination)
  }

  /** The first step of this id, if there is one. */
  function StepNamed(plan: seq<PlanStep>, id: string): Option<PlanStep> {
    if plan == [] then None
    else if plan[0].id == id then Some(plan[0])
    else StepNamed(plan[1..], id)
  }

  lemma {:induction false} StepNamedIsFirst(plan: seq<PlanStep>, id: string, i: nat)
    requires i <= |plan| && forall j :: 0 <= j < i ==> plan[j].id != id
    ensures StepNamed(plan, id) == if i < |plan| && plan[i].id == id then Some(plan[i]) else StepNamed(plan[i..], id)
  {
    if i > 0 {
      StepNamedIsFirst(plan[1..], id, i - 1);
      assert plan[1..][i - 1..] == plan[i..];
    }
  }

  /** `plan.operations.find((operation) => operation.id === event.step)`. */
  method FindStep(plan: seq<PlanStep>, id: string) returns (step: Option<PlanStep>)
    ensures step == StepNamed(plan, id)
    ensures step.Some? ==> exists i :: 0 <= i < |plan| && plan[i] == step.value && plan[i].id == id
    ensures step.None? ==> forall i :: 0 <= i < |plan| ==> plan[i].id != id
  {
    for i := 0 to |plan|
      invariant forall j :: 0 <= j < i ==> plan[j].id != id
    {
      if plan[i].id == id {
        StepNamedIsFirst(plan, id, i);
        return Some(plan[i]);
      }
    }
    StepNamedIsFirst(plan, id, |plan|);
    return None;
  }

  lemma {:induction false} StepNamedIsThere(plan: seq<PlanStep>, id: string)
    requires StepNamed(plan, id).Some?
    ensures exists i :: 0 <= i < |plan| && plan[i].id == id && plan[i] == StepNamed(plan, id).value
  {
    if plan[0].id != id {
      StepNamedIsThere(plan[1..], id);
      var i :| 0 <= i < |plan[1..]| && plan[1..][i].id == id && plan[1..][i] == StepNamed(plan[1..], id).value;
      assert plan[i + 1] == StepNamed(plan, id).value;
    }
  }

  /** What writeJournalStatus demands of a journal and of what it has read. */
  predicate MayUpdate(candidate: Journal, persisted: Journal) {
    persisted.state == InProgress && candidate.fields == persisted.fields
  }

  /** What writeEvent demands of an event and of the journal it has read. */
  predicate MayAppend(op: OpId, e: Event, persisted: Journal) {
    && persisted.state == InProgress && e.operationId == op && e.kind == persisted.fields.kind
    && var step := StepNamed(persisted.fields.plan, e.step);
       step.Some? && (e.destination.Some? ==> e.destination == step.value.destination)
  }

  lemma MayAppendBinds(op: OpId, e: Event, persisted: Journal)
    requires MayAppend(op, e, persisted) && persisted.fields.operationId == op
    ensures Binds(persisted, e)
    ensures persisted.state == InProgress && e.operationId == op && e.kind == persisted.fields.kind
    ensures exists i :: 0 <= i < |persisted.fields.plan| && persisted.fields.plan[i].id == e.step
                        && (e.destination.Some? ==> e.destination == persisted.fields.plan[i].destination)
  {
    StepNamedIsThere(persisted.fields.plan, e.step);
  }

  /** The lease is still the writer's and the journal is still exactly what it has seen. */
  predicate Unmoved(s: Store, op: OpId, token: Token, seen: Journal) {
    s.lease == Some(token) && op in s.journals && s.journals[op] == seen
  }

  /** What Target.UpdateJournalStatus leaves. */
  function Updated(s: Store, candidate: Journal, token: Token, seen: Journal): Store {
    var op := candidate.fields.operationId;
    if Unmoved(s, op, token, seen) then s.(journals := s.journals[op := candidate]) else s
  }

  /** What Target.AppendEvent leaves. */
  function Appended(s: Store, op: OpId, e: Event, token: Token, seen: Journal): Store {
    if Unmoved(s, op, token, seen) && seen.state == InProgress then s.(events := s.events[op := LogOf(s, op) + [e]]) else s
  }

  datatype Tag = LeaseMismatch | CasConflict | JournalTerminal | JournalConflict | LockExists | Written

  /** The checks that see into the documents: their schemas, and how the bundle of one operation hangs
      together. What they answer is given. */
  datatype Checks = Checks(schema: Journal -> bool, bundle: Journal -> bool, event: Event -> bool)

  /** The files on the target. */
  class Target {
    var lease: Option<Token>
    var lock: Option<OpId>
    var creating: Option<OpId>
    var journals: map<OpId, Journal>
    var events: map<OpId, seq<Event>>

    ghost function Contents(): Store
      reads this
    {
      Store(lease, lock, creating, journals, events)
    }

    constructor ()
      ensures Contents() == Store(None, None, None, map[], map[])
    {
      lease, lock, creating, journals, events := None, None, None, map[], map[];
    }

    /** The journal first, then the lock; when the lock is taken the journal is removed again. */
    method AcquireLockAndJournal(journal: Journal, token: Token) returns (tag: Tag)
      modifies this
      ensures tag == LeaseMismatch <==> old(lease) != Some(token)
      ensures tag == JournalConflict <==> old(lease) == Some(token) && journal.fields.operationId in old(journals)
      ensures tag == Written <==>
              old(lease) == Some(token) && journal.fields.operationId !in old(journals) && old(lock).None?
      ensures Contents() ==
              if tag == Written
              then old(Contents()).(lock := Some(journal.fields.operationId),
                                    journals := old(journals)[journal.fields.operationId := journal])
              else old(Contents())
    {
      if lease != Some(token) {
        return LeaseMismatch;
      }
      var op := journal.fields.operationId;
      if op in journals {
        return JournalConflict;
      }
      ghost var before := journals;
      journals := journals[op := journal];
      if lock.Some? {
        journals := journals - {op};
        assert journals == before;
        return LockExists;
      }
      lock := Some(op);
      return Written;
    }

    /** Only the operation's own lock is removed; no lease is asked for. */
    method ReleaseLock(op: OpId) returns (released: bool)
      modifies this
      ensures released <==> old(lock) == Some(op)
      ensures Contents() == if released then old(Contents()).(lock := None) else old(Contents())
    {
      released := lock == Some(op);
      if released {
        lock := None;
      }
    }

    method UpdateJournalStatus(candidate: Journal, token: Token, expected: Journal) returns (tag: Tag)
      modifies this
      ensures tag == Written <==>
              && old(lease) == Some(token)
              && candidate.fields.operationId in old(journals)
              && old(journals)[candidate.fields.operationId] == expected
      ensures tag == LeaseMismatch <==> old(lease) != Some(token)
      ensures tag != JournalTerminal
      ensures Contents() ==
              if tag == Written then old(Contents()).(journals := old(journals)[candidate.fields.operationId := candidate])
              else old(Contents())
      ensures Contents() == Updated(old(Contents()), candidate, token, expected)
    {
      if lease != Some(token) {
        return LeaseMismatch;
      }
      var op := candidate.fields.operationId;
      if op !in journals || journals[op] != expected {
        return CasConflict;
      }
      journals := journals[op := candidate];
      return Written;
    }

    method AppendEvent(op: OpId, event: Event, token: Token, expected: Journal) returns (tag: Tag)
      modifies this
      ensures tag == Written <==>
              && old(lease) == Some(token)
              && op in old(journals) && old(journals)[op] == expected && expected.state == InProgress
      ensures tag == LeaseMismatch <==> old(lease) != Some(token)
      ensures tag == JournalTerminal <==>
              old(lease) == Some(token) && op in old(journals) && old(journals)[op].state in {Succeeded, Failed}
      ensures Contents() ==
              if tag == Written then old(Contents()).(events := old(events)[op := LogOf(old(Contents()), op) + [event]])
              else old(Contents())
      ensures Contents() == Appended(old(Contents()), op, event, token, expected)
    {
      if lease != Some(token) {
        return LeaseMismatch;
      }
      if op !in journals {
        return CasConflict;
      }
      if journals[op].state == Succeeded || journals[op].state == Failed {
        return JournalTerminal;
      }
      if journals[op] != expected {
        return CasConflict;
      }
      if op !in events {
        events := events[op := []];
      }
      events := events[op := events[op] + [event]];
      return Written;
    }

    /** Read, validate and swap, when nobody comes in between. */
    method WriteJournalStatus(candidate: Journal, token: Token, checks: Checks) returns (written: bool)
      modifies this
      ensures written <==>
              && old(lease) == Some(token)
              && checks.schema(candidate) && checks.bundle(candidate)
              && candidate.fields.operationId in old(journals)
              && var persisted := old(journals)[candidate.fields.operationId];
                 checks.schema(persisted) && persisted.state == InProgress && candidate.fields == persisted.fields
      ensures Contents() ==
              if written then old(Contents()).(journals := old(journals)[candidate.fields.operationId := candidate])
              else old(Contents())
    {
      if lease != Some(token) || !checks.schema(candidate) || candidate.fields.operationId !in journals {
        return false;
      }
      var persisted := journals[candidate.fields.operationId];
      if !checks.schema(persisted) || persisted.state == Succeeded || persisted.state == Failed
         || candidate.fields != persisted.fields {
        return false;
      }
      if !checks.bundle(candidate) {
        return false;
      }
      var tag := UpdateJournalStatus(candidate, token, persisted);
      return tag == Written;
    }

    method WriteEvent(kind: string, op: OpId, event: Event, token: Token, checks: Checks) returns (written: bool)
      modifies this
      ensures written <==>
              && old(lease) == Some(token)
              && checks.event(event) && event.kind == kind
              && op in old(journals)
              && var persisted := old(journals)[op];
                 checks.schema(persisted) && checks.bundle(persisted) && MayAppend(op, event, persisted)
      ensures Contents() ==
              if written then old(Contents()).(events := old(events)[op := LogOf(old(Contents()), op) + [event]])
              else old(Contents())
    {
      if lease != Some(token) || !checks.event(event) || op !in journals {
        return false;
      }
      var persisted := journals[op];
      if !checks.schema(persisted) || persisted.fields.kind != kind || persisted.state != InProgress {
        return false;
      }
      if !checks.bundle(persisted) || event.operationId != op || event.kind != kind {
        return false;
      }
      var step := FindStep(persisted.fields.plan, event.step);
      if step.None? || (event.destination.Some? && event.destination != step.value.destination) {
        return false;
      }
      var tag := AppendEvent(op, event, token, persisted);
      return tag == Written;
    }
  }
}
