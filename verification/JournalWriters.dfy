/** Any number of writers that read, validate and swap in any interleaving, with the lease changing
    hands and writers stopping at any time (scripts/operation-v2.mjs, 353-483). */
module JournalWriters {
  import opened Sequences
  import opened JournalStore

  /** What a writer is in the middle of: `seen` is the journal it has read and validated against. */
  datatype Writer =
    | Idle
    | Creating(op: OpId)
    | Updating(candidate: Journal, seen: Journal, token: Token)
    | Appending(op: OpId, event: Event, seen: Journal, token: Token)

  datatype World = World(store: Store, writers: map<nat, Writer>)

  function WriterOf(w: World, c: nat): Writer {
    if c in w.writers then w.writers[c] else Idle
  }

  function Set(w: World, c: nat, writer: Writer): World {
    w.(writers := w.writers[c := writer])
  }

  datatype Action =
    | LeaseChanged(lease: Option<Token>)
    | WriterStopped(c: nat)
    | JournalCreated(c: nat, journal: Journal, token: Token)
    | LockCreated(c: nat)
    | CandidateValidated(c: nat, candidate: Journal, token: Token)
    | StatusSwapped(c: nat)
    | EventValidated(c: nat, op: OpId, event: Event, token: Token)
    | EventAppended(c: nat)
    | LockReleased(op: OpId)

  /** A stopped writer lets go of the guard; what its script has created stays. */
  function AfterStop(s: Store, writer: Writer): Store {
    if writer.Creating? && s.creating == Some(writer.op) then s.(creating := None) else s
  }

  /** The journal comes first, exclusively and under the guard. */
  predicate CreateJournal(w: World, c: nat, journal: Journal, token: Token, w': World) {
    var op := journal.fields.operationId;
    && WriterOf(w, c).Idle? && w.store.creating.None? && w.store.lease == Some(token) && op !in w.store.journals
    && w' == Set(w.(store := w.store.(journals := w.store.journals[op := journal], creating := Some(op))), c, Creating(op))
  }

  /** Then the lock; when it is taken the journal is removed again. */
  predicate CreateLock(w: World, c: nat, w': World) {
    && WriterOf(w, c).Creating? && w.store.creating == Some(WriterOf(w, c).op)
    && var op := WriterOf(w, c).op;
       var done := w.store.(creating := None);
       w' == Set(w.(store := if w.store.lock.None? then done.(lock := Some(op)) else done.(journals := done.journals - {op})),
                 c, Idle)
  }

  predicate ValidateCandidate(w: World, c: nat, candidate: Journal, token: Token, w': World) {
    var op := candidate.fields.operationId;
    && WriterOf(w, c).Idle? && op in w.store.journals && MayUpdate(candidate, w.store.journals[op])
    && w' == Set(w, c, Updating(candidate, w.store.journals[op], token))
  }

  predicate SwapStatus(w: World, c: nat, w': World) {
    var writer := WriterOf(w, c);
    && writer.Updating? && w.store.creating.None?
    && w' == Set(w.(store := Updated(w.store, writer.candidate, writer.token, writer.seen)), c, Idle)
  }

  predicate ValidateEvent(w: World, c: nat, op: OpId, event: Event, token: Token, w': World) {
    && WriterOf(w, c).Idle? && op in w.store.journals && MayAppend(op, event, w.store.journals[op])
    && w' == Set(w, c, Appending(op, event, w.store.journals[op], token))
  }

  predicate AppendValidated(w: World, c: nat, w': World) {
    var writer := WriterOf(w, c);
    && writer.Appending? && w.store.creating.None?
    && w' == Set(w.(store := Appended(w.store, writer.op, writer.event, writer.token, writer.seen)), c, Idle)
  }

  predicate Moves(w: World, a: Action, w': World) {
    match a
    case LeaseChanged(lease) => w' == w.(store := w.store.(lease := lease))
    case WriterStopped(c) => w' == Set(w.(store := AfterStop(w.store, WriterOf(w, c))), c, Idle)
    case JournalCreated(c, journal, token) => CreateJournal(w, c, journal, token, w')
    case LockCreated(c) => CreateLock(w, c, w')
    case CandidateValidated(c, candidate, token) => ValidateCandidate(w, c, candidate, token, w')
    case StatusSwapped(c) => SwapStatus(w, c, w')
    case EventValidated(c, op, event, token) => ValidateEvent(w, c, op, event, token, w')
    case EventAppended(c) => AppendValidated(w, c, w')
    case LockReleased(op) =>
      w.store.lock == Some(op) && w.store.creating.None? && w' == w.(store := w.store.(lock := None))
  }

  const EMPTY: World := World(Store(None, None, None, map[], map[]), map[])

  ghost predicate IsRun(worlds: seq<World>, actions: seq<Action>) {
    && |worlds| == |actions| + 1 && worlds[0] == EMPTY
    && forall k :: 0 <= k < |actions| ==> Moves(worlds[k], actions[k], worlds[k + 1])
  }

  /** A journal that is there for good: the script that created it is done, or was stopped. */
  predicate Established(s: Store, op: OpId) {
    op in s.journals && s.creating != Some(op)
  }

  /** A journal is filed under its own id, and its log holds only events of its own plan. */
  ghost predicate Filed(s: Store, op: OpId) {
    && (op in s.journals ==> s.journals[op].fields.operationId == op)
    && (!Established(s, op) ==> LogOf(s, op) == [])
    && (op in s.journals ==> AllBind(s.journals[op], LogOf(s, op)))
  }

  ghost predicate AllBind(j: Journal, log: seq<Event>) {
    forall i :: 0 <= i < |log| ==> Binds(j, log[i])
  }

  lemma BindSame(j: Journal, j': Journal, log: seq<Event>)
    requires AllBind(j, log) && j'.fields == j.fields
    ensures AllBind(j', log)
  {
    forall i | 0 <= i < |log| ensures Binds(j', log[i]) {
      assert Binds(j, log[i]);
    }
  }

  lemma BindSnoc(j: Journal, log: seq<Event>, e: Event)
    requires AllBind(j, log) && Binds(j, e)
    ensures AllBind(j, log + [e])
  {
  }

  ghost predicate StoreInv(s: Store) {
    forall op :: Filed(s, op)
  }

  ghost predicate WriterInv(writer: Writer) {
    && (writer.Updating? ==> MayUpdate(writer.candidate, writer.seen))
    && (writer.Appending? ==> MayAppend(writer.op, writer.event, writer.seen))
  }

  ghost predicate Inv(w: World) {
    StoreInv(w.store) && forall c :: c in w.writers ==> WriterInv(w.writers[c])
  }

  lemma UpdateKeepsStore(s: Store, candidate: Journal, token: Token, seen: Journal)
    requires StoreInv(s) && MayUpdate(candidate, seen) && s.creating.None?
    ensures StoreInv(Updated(s, candidate, token, seen))
  {
    forall op ensures Filed(Updated(s, candidate, token, seen), op) {
      assert Filed(s, op);
      if op in s.journals && s.journals[op].fields == candidate.fields {
        BindSame(s.journals[op], candidate, LogOf(s, op));
      }
    }
  }

  lemma AppendKeepsStore(s: Store, op: OpId, event: Event, token: Token, seen: Journal)
    requires StoreInv(s) && MayAppend(op, event, seen) && s.creating.None?
    ensures StoreInv(Appended(s, op, event, token, seen))
  {
    assert Filed(s, op);
    if Unmoved(s, op, token, seen) {
      MayAppendBinds(op, event, seen);
      BindSnoc(seen, LogOf(s, op), event);
    }
    forall o ensures Filed(Appended(s, op, event, token, seen), o) {
      assert Filed(s, o);
    }
  }

  lemma CreateKeepsStore(w: World, c: nat, journal: Journal, token: Token, w': World)
    requires Inv(w) && CreateJournal(w, c, journal, token, w')
    ensures StoreInv(w'.store)
  {
    forall o ensures Filed(w'.store, o) {
      assert Filed(w.store, o);
    }
  }

  lemma LockKeepsStore(w: World, c: nat, w': World)
    requires Inv(w) && CreateLock(w, c, w')
    ensures StoreInv(w'.store)
  {
    forall o ensures Filed(w'.store, o) {
      assert Filed(w.store, o);
    }
  }

  lemma QuietKeepsStore(s: Store, s': Store)
    requires StoreInv(s) && s'.journals == s.journals && s'.events == s.events
    requires s'.creating == s.creating || s'.creating == None
    ensures StoreInv(s')
  {
    forall o ensures Filed(s', o) {
      assert Filed(s, o);
    }
  }

  lemma StepKeepsInv(w: World, a: Action, w': World)
    requires Inv(w) && Moves(w, a, w')
    ensures Inv(w')
  {
    match a
    case JournalCreated(c, journal, token) => CreateKeepsStore(w, c, journal, token, w');
    case LockCreated(c) => LockKeepsStore(w, c, w');
    case StatusSwapped(c) =>
      assert WriterInv(WriterOf(w, c));
      UpdateKeepsStore(w.store, WriterOf(w, c).candidate, WriterOf(w, c).token, WriterOf(w, c).seen);
    case EventAppended(c) =>
      assert WriterInv(WriterOf(w, c));
      AppendKeepsStore(w.store, WriterOf(w, c).op, WriterOf(w, c).event, WriterOf(w, c).token, WriterOf(w, c).seen);
    case _ => QuietKeepsStore(w.store, w'.store);
  }

  lemma {:induction false} RunKeepsInv(worlds: seq<World>, actions: seq<Action>, k: nat)
    requires IsRun(worlds, actions) && k < |worlds|
    ensures Inv(worlds[k])
  {
    if k > 0 {
      RunKeepsInv(worlds, actions, k - 1);
      StepKeepsInv(worlds[k - 1], actions[k - 1], worlds[k]);
    }
  }

  /** What an established journal and its log may become. */
  ghost predicate Evolves(s: Store, s': Store, op: OpId)
    requires op in s.journals
  {
    && Established(s', op) && s'.journals[op].fields == s.journals[op].fields
    && LogOf(s, op) <= LogOf(s', op)
    && (s.journals[op].state != InProgress ==> s'.journals[op] == s.journals[op] && LogOf(s', op) == LogOf(s, op))
  }

  lemma StepEvolves(w: World, a: Action, w': World, op: OpId)
    requires Inv(w) && Moves(w, a, w') && Established(w.store, op)
    ensures Evolves(w.store, w'.store, op)
  {
    assert Filed(w.store, op);
    if a.StatusSwapped? || a.EventAppended? {
      assert WriterInv(WriterOf(w, a.c));
    }
  }

  /** Once a journal is established its immutable fields never change, its log only grows, and once it is
      terminal neither it nor its log ever changes again: a terminal state is written at most once. */
  lemma {:induction false} JournalsEvolve(worlds: seq<World>, actions: seq<Action>, i: nat, k: nat, op: OpId)
    requires IsRun(worlds, actions) && i <= k < |worlds| && Established(worlds[i].store, op)
    ensures Evolves(worlds[i].store, worlds[k].store, op)
  {
    if i < k {
      JournalsEvolve(worlds, actions, i, k - 1, op);
      RunKeepsInv(worlds, actions, k - 1);
      StepEvolves(worlds[k - 1], actions[k - 1], worlds[k], op);
    }
  }

  /** Every event of every reachable log is for a step of its own journal's embedded plan. */
  lemma EventsAreBound(worlds: seq<World>, actions: seq<Action>, k: nat, op: OpId, i: nat)
    requires IsRun(worlds, actions) && k < |worlds| && i < |LogOf(worlds[k].store, op)|
    ensures op in worlds[k].store.journals
    ensures var fields, e := worlds[k].store.journals[op].fields, LogOf(worlds[k].store, op)[i];
            && fields.operationId == op && e.operationId == op && e.kind == fields.kind
            && exists j :: 0 <= j < |fields.plan| && fields.plan[j].id == e.step
                           && (e.destination.Some? ==> e.destination == fields.plan[j].destination)
  {
    RunKeepsInv(worlds, actions, k);
    assert Filed(worlds[k].store, op);
  }

  /** A journal ends only by a swap against the very journal, still in progress, that was validated. */
  lemma EndedBySwap(worlds: seq<World>, actions: seq<Action>, k: nat, op: OpId)
    requires IsRun(worlds, actions) && k < |actions| && Established(worlds[k].store, op)
    requires worlds[k].store.journals[op].state == InProgress
    requires op in worlds[k + 1].store.journals && worlds[k + 1].store.journals[op].state != InProgress
    ensures actions[k].StatusSwapped?
    ensures var writer := WriterOf(worlds[k], actions[k].c);
            && writer.Updating? && writer.seen == worlds[k].store.journals[op]
            && worlds[k].store.lease == Some(writer.token)
  {
    RunKeepsInv(worlds, actions, k);
    assert Moves(worlds[k], actions[k], worlds[k + 1]) && Filed(worlds[k].store, op);
    if actions[k].StatusSwapped? {
      assert WriterInv(WriterOf(worlds[k], actions[k].c));
    }
  }

  // The lock, and who changes what.

  ghost predicate LockEstablished(s: Store) {
    && (s.lock.Some? ==> Established(s, s.lock.value))
    && (s.creating.Some? ==> s.creating.value in s.journals)
  }

  lemma StepKeepsLock(w: World, a: Action, w': World)
    requires Inv(w) && Moves(w, a, w') && LockEstablished(w.store)
    ensures LockEstablished(w'.store)
  {
  }

  /** Whenever a lock is there, so is the journal that it names, for good. */
  lemma {:induction false} LockHasJournal(worlds: seq<World>, actions: seq<Action>, k: nat)
    requires IsRun(worlds, actions) && k < |worlds|
    ensures LockEstablished(worlds[k].store)
    ensures var s := worlds[k].store;
            s.lock.Some? ==> s.lock.value in s.journals && s.creating != s.lock
  {
    if k > 0 {
      LockHasJournal(worlds, actions, k - 1);
      RunKeepsInv(worlds, actions, k - 1);
      StepKeepsLock(worlds[k - 1], actions[k - 1], worlds[k]);
    }
  }

  /** A lock is taken only when there is none, by whoever is creating the journal it names, and it goes
      only by the release of that operation. */
  lemma LockMoves(worlds: seq<World>, actions: seq<Action>, k: nat)
    requires IsRun(worlds, actions) && k < |actions| && worlds[k + 1].store.lock != worlds[k].store.lock
    ensures match worlds[k].store.lock
            case None =>
              actions[k].LockCreated? && worlds[k + 1].store.lock == worlds[k].store.creating
              && WriterOf(worlds[k], actions[k].c) == Creating(worlds[k + 1].store.lock.value)
            case Some(op) => actions[k] == LockReleased(op) && worlds[k + 1].store.lock.None?
  {
    assert Moves(worlds[k], actions[k], worlds[k + 1]);
  }

  /** The token with which the writer of a step writes. */
  function TokenOf(w: World, a: Action): Option<Token> {
    match a
    case JournalCreated(_, _, token) => Some(token)
    case StatusSwapped(c) => if WriterOf(w, c).Updating? then Some(WriterOf(w, c).token) else None
    case EventAppended(c) => if WriterOf(w, c).Appending? then Some(WriterOf(w, c).token) else None
    case _ => None
  }

  /** Nobody creates a journal, changes one or adds to a log without holding the lease at that moment, and
      nothing is added to the log of a journal that is not in progress. */
  lemma WrittenUnderLease(worlds: seq<World>, actions: seq<Action>, k: nat, op: OpId)
    requires IsRun(worlds, actions) && k < |actions| && op in worlds[k + 1].store.journals
    requires var s, s' := worlds[k].store, worlds[k + 1].store;
             op !in s.journals || s'.journals[op] != s.journals[op] || LogOf(s', op) != LogOf(s, op)
    ensures worlds[k].store.lease.Some? && TokenOf(worlds[k], actions[k]) == worlds[k].store.lease
    ensures LogOf(worlds[k + 1].store, op) != LogOf(worlds[k].store, op) ==>
              op in worlds[k].store.journals && worlds[k].store.journals[op].state == InProgress
  {
    assert Moves(worlds[k], actions[k], worlds[k + 1]);
  }

  /** A writer begins nothing before it has finished or given up what it was doing. */
  lemma OneThingAtATime(worlds: seq<World>, actions: seq<Action>, k: nat)
    requires IsRun(worlds, actions) && k < |actions|
    requires actions[k].JournalCreated? || actions[k].CandidateValidated? || actions[k].EventValidated?
    ensures WriterOf(worlds[k], actions[k].c).Idle?
  {
    assert Moves(worlds[k], actions[k], worlds[k + 1]);
  }

  /** While a journal is being created nobody else writes anything. */
  lemma {:induction false} GuardKeepsOthersOut(worlds: seq<World>, actions: seq<Action>, i: nat, k: nat, op: OpId)
    requires IsRun(worlds, actions) && i <= k < |worlds|
    requires forall m :: i <= m <= k ==> worlds[m].store.creating == Some(op)
    ensures worlds[k].store == worlds[i].store.(lease := worlds[k].store.lease)
  {
    if i < k {
      GuardKeepsOthersOut(worlds, actions, i, k - 1, op);
      assert Moves(worlds[k - 1], actions[k - 1], worlds[k]);
    }
  }

  /** A creation that finds the lock taken leaves nothing behind. */
  lemma RefusedCreationLeavesNothing(worlds: seq<World>, actions: seq<Action>, i: nat, k: nat)
    requires IsRun(worlds, actions) && i < k < |actions|
    requires actions[i].JournalCreated? && actions[k].LockCreated? && worlds[i].store.lock.Some?
    requires forall m :: i < m <= k ==> worlds[m].store.creating == Some(actions[i].journal.fields.operationId)
    ensures worlds[k + 1].store == worlds[i].store.(lease := worlds[k + 1].store.lease)
  {
    var op := actions[i].journal.fields.operationId;
    assert Moves(worlds[i], actions[i], worlds[i + 1]) && Moves(worlds[k], actions[k], worlds[k + 1]);
    GuardKeepsOthersOut(worlds, actions, i + 1, k, op);
    assert worlds[i].store.journals[op := actions[i].journal] - {op} == worlds[i].store.journals;
  }

  /** The guard is held by exactly the one writer that is creating. */
  ghost predicate GuardHeld(w: World) {
    && (w.store.creating.Some? ==> exists c :: c in w.writers && w.writers[c] == Creating(w.store.creating.value))
    && (forall c :: c in w.writers && w.writers[c].Creating? ==> w.store.creating == Some(w.writers[c].op))
    && forall c, d :: c in w.writers && d in w.writers && w.writers[c].Creating? && w.writers[d].Creating? ==> c == d
  }

  lemma StepKeepsGuard(w: World, a: Action, w': World)
    requires GuardHeld(w) && Moves(w, a, w')
    ensures GuardHeld(w')
  {
    if a.JournalCreated? {
      assert w'.writers[a.c] == Creating(a.journal.fields.operationId);
    } else if w'.store.creating.Some? {
      var c :| c in w.writers && w.writers[c] == Creating(w.store.creating.value);
      assert c in w'.writers && w'.writers[c] == w.writers[c];
    }
  }

  lemma {:induction false} RunKeepsGuard(worlds: seq<World>, actions: seq<Action>, k: nat)
    requires IsRun(worlds, actions) && k < |worlds|
    ensures GuardHeld(worlds[k])
  {
    if k > 0 {
      RunKeepsGuard(worlds, actions, k - 1);
      StepKeepsGuard(worlds[k - 1], actions[k - 1], worlds[k]);
    }
  }

  /** Whoever holds the guard can be stopped at any time, and lets go of it: what it has created stays. */
  lemma GuardIsLetGo(worlds: seq<World>, actions: seq<Action>, op: OpId) returns (c: nat, w': World)
    requires IsRun(worlds, actions) && worlds[|actions|].store.creating == Some(op)
    ensures Moves(worlds[|actions|], WriterStopped(c), w')
    ensures w'.store == worlds[|actions|].store.(creating := None)
  {
    var w := worlds[|actions|];
    RunKeepsGuard(worlds, actions, |actions|);
    c :| c in w.writers && w.writers[c] == Creating(op);
    w' := Set(w.(store := AfterStop(w.store, w.writers[c])), c, Idle);
  }

  // That writers can do their work.

  /** The second run goes on from the first. */
  ghost predicate Extends(worlds: seq<World>, actions: seq<Action>, worlds': seq<World>, actions': seq<Action>) {
    IsRun(worlds', actions') && worlds <= worlds' && actions <= actions'
  }

  lemma Onwards(worlds: seq<World>, actions: seq<Action>, more: seq<World>, steps: seq<Action>, a: Action, w': World)
    requires Extends(worlds, actions, more, steps) && Moves(more[|steps|], a, w')
    ensures Extends(worlds, actions, more + [w'], steps + [a])
  {
  }

  /** Wherever a run has come, while nobody is creating and no lock is held, a writer with the lease and nothing
      else to do can create a new journal and its lock. */
  lemma CanCreate(worlds: seq<World>, actions: seq<Action>, c: nat, journal: Journal, token: Token)
    returns (worlds': seq<World>, actions': seq<Action>)
    requires IsRun(worlds, actions)
    requires var w := worlds[|actions|];
             && WriterOf(w, c).Idle? && w.store.creating.None? && w.store.lock.None? && w.store.lease == Some(token)
             && journal.fields.operationId !in w.store.journals
    ensures Extends(worlds, actions, worlds', actions') && WriterOf(worlds'[|actions'|], c).Idle?
    ensures var s, op := worlds[|actions|].store, journal.fields.operationId;
            worlds'[|actions'|].store == s.(lock := Some(op), journals := s.journals[op := journal])
  {
    var w, op := worlds[|actions|], journal.fields.operationId;
    var w1 := Set(w.(store := w.store.(journals := w.store.journals[op := journal], creating := Some(op))), c, Creating(op));
    Onwards(worlds, actions, worlds, actions, JournalCreated(c, journal, token), w1);
    var w2 := Set(w1.(store := w1.store.(creating := None, lock := Some(op))), c, Idle);
    Onwards(worlds, actions, worlds + [w1], actions + [JournalCreated(c, journal, token)], LockCreated(c), w2);
    worlds', actions' := worlds + [w1] + [w2], actions + [JournalCreated(c, journal, token)] + [LockCreated(c)];
  }

  /** While its journal is in progress it can add an event for any step of the plan. */
  lemma CanAppend(worlds: seq<World>, actions: seq<Action>, c: nat, op: OpId, e: Event, token: Token)
    returns (worlds': seq<World>, actions': seq<Action>)
    requires IsRun(worlds, actions)
    requires var w := worlds[|actions|];
             && WriterOf(w, c).Idle? && w.store.creating.None? && w.store.lease == Some(token)
             && op in w.store.journals && MayAppend(op, e, w.store.journals[op])
    ensures Extends(worlds, actions, worlds', actions') && WriterOf(worlds'[|actions'|], c).Idle?
    ensures var s := worlds[|actions|].store;
            worlds'[|actions'|].store == s.(events := s.events[op := LogOf(s, op) + [e]])
  {
    var w := worlds[|actions|];
    var w1 := Set(w, c, Appending(op, e, w.store.journals[op], token));
    Onwards(worlds, actions, worlds, actions, EventValidated(c, op, e, token), w1);
    var w2 := Set(w1.(store := w1.store.(events := w1.store.events[op := LogOf(w1.store, op) + [e]])), c, Idle);
    Onwards(worlds, actions, worlds + [w1], actions + [EventValidated(c, op, e, token)], EventAppended(c), w2);
    worlds', actions' := worlds + [w1] + [w2], actions + [EventValidated(c, op, e, token)] + [EventAppended(c)];
  }

  /** And it can end the journal, or change its status otherwise. */
  lemma CanUpdate(worlds: seq<World>, actions: seq<Action>, c: nat, candidate: Journal, token: Token)
    returns (worlds': seq<World>, actions': seq<Action>)
    requires IsRun(worlds, actions)
    requires var w, op := worlds[|actions|], candidate.fields.operationId;
             && WriterOf(w, c).Idle? && w.store.creating.None? && w.store.lease == Some(token)
             && op in w.store.journals && w.store.journals[op].state == InProgress
             && candidate.fields == w.store.journals[op].fields
    ensures Extends(worlds, actions, worlds', actions') && WriterOf(worlds'[|actions'|], c).Idle?
    ensures var s := worlds[|actions|].store;
            worlds'[|actions'|].store == s.(journals := s.journals[candidate.fields.operationId := candidate])
  {
    var w, op := worlds[|actions|], candidate.fields.operationId;
    var w1 := Set(w, c, Updating(candidate, w.store.journals[op], token));
    Onwards(worlds, actions, worlds, actions, CandidateValidated(c, candidate, token), w1);
    var w2 := Set(w1.(store := w1.store.(journals := w1.store.journals[op := candidate])), c, Idle);
    Onwards(worlds, actions, worlds + [w1], actions + [CandidateValidated(c, candidate, token)], StatusSwapped(c), w2);
    worlds', actions' := worlds + [w1] + [w2], actions + [CandidateValidated(c, candidate, token)] + [StatusSwapped(c)];
  }
}
