/** The backup flow validator of scripts/backup-flow.mjs, and the one shape it pins down. */
module BackupFlow {
  import opened Sequences
  import opened FlowOps

  datatype BackupPlan = BackupPlan(
    executable: bool,
    destinations: seq<string>,
    consistencySet: seq<SetEntry>,
    operations: seq<Op>)

  predicate BackupAction(a: Action) {
    a in {MaintenanceEnter, MaintenanceExit, ServiceStop, StagingBuild, SnapshotCreate, RetentionApply,
          ServiceStart, ReadinessWait, EvidenceWrite}
  }

  /** What schemas/backup-plan-v1.schema.json has already checked. */
  predicate SchemaValid(plan: BackupPlan) {
    && plan.destinations != []
    && (plan.executable ==> plan.operations != [])
    && (forall e :: e in plan.consistencySet ==> ValidEntry(e))
    && (forall op :: op in plan.operations ==> BackupAction(op.action))
  }

  function Rank(a: Action): nat {
    match a
    case MaintenanceEnter => 0
    case ServiceStop => 1
    case StagingBuild => 2
    case SnapshotCreate => 3
    case RetentionApply => 3
    case ServiceStart => 4
    case ReadinessWait => 5
    case MaintenanceExit => 6
    case EvidenceWrite => 7
    case _ => 8
  }

  function EntryKeys(entries: seq<SetEntry>): seq<string> {
    seq(|entries|, i requires 0 <= i < |entries| => ConsistencySetEntryKey(entries[i]))
  }

  /** The parts of a flow, in their order. */
  datatype Flow = Flow(enter: Op, stops: seq<Op>, staging: Op, transfers: seq<Op>, starts: seq<Op>,
                       waits: seq<Op>, exit: Op, evidence: Op)
  {
    function Parts(): seq<seq<Op>> {
      [[enter], stops, [staging], transfers, starts, waits, [exit], [evidence]]
    }

    function Operations(): seq<Op> {
      Concat(Parts())
    }

    ghost predicate Typed() {
      && enter.action == MaintenanceEnter && AllOf(stops, ServiceStop) && staging.action == StagingBuild
      && (forall op :: op in transfers ==> op.action == SnapshotCreate || op.action == RetentionApply)
      && AllOf(starts, ServiceStart) && AllOf(waits, ReadinessWait)
      && exit.action == MaintenanceExit && evidence.action == EvidenceWrite
    }

    /** One snapshot and, later, one retention for each destination; starts of exactly the units
        that were stopped. */
    ghost predicate Valid(destinations: seq<string>) {
      && Typed()
      && stops != [] && starts != [] && waits != []
      && Distinct(Keys(stops, ResourceOf)) && Distinct(Keys(starts, ResourceOf))
      && SameKeys(Keys(stops, ResourceOf), Keys(starts, ResourceOf))
      && Distinct(KeysOf(transfers, SnapshotCreate, DestinationOf))
      && Distinct(KeysOf(transfers, RetentionApply, DestinationOf))
      && SameKeys(KeysOf(transfers, SnapshotCreate, DestinationOf), destinations)
      && SameKeys(KeysOf(transfers, RetentionApply, DestinationOf), destinations)
      && OwnOrder(transfers, SnapshotCreate, RetentionApply, DestinationOf)
    }
  }

  ghost predicate IsBackupFlow(plan: BackupPlan) {
    && Distinct(plan.destinations) && Distinct(EntryKeys(plan.consistencySet)) && Distinct(Keys(plan.operations, IdOf))
    && exists flow: Flow :: flow.Valid(plan.destinations) && flow.Operations() == plan.operations
  }

  // The conditions as the source groups them.

  ghost const ONCE: seq<Action> := [MaintenanceEnter, MaintenanceExit, StagingBuild, EvidenceWrite]
  ghost const AT_LEAST_ONCE: seq<Action> := [ServiceStop, ServiceStart, ReadinessWait]

  ghost predicate CountsOk(ops: seq<Op>) {
    Once(ops, ONCE) && AtLeastOnce(ops, AT_LEAST_ONCE)
  }

  ghost predicate TransfersOk(ops: seq<Op>, destinations: seq<string>) {
    && Distinct(KeysOf(ops, SnapshotCreate, DestinationOf)) && Distinct(KeysOf(ops, RetentionApply, DestinationOf))
    && SameKeys(KeysOf(ops, SnapshotCreate, DestinationOf), destinations)
    && SameKeys(KeysOf(ops, RetentionApply, DestinationOf), destinations)
    && OwnOrder(ops, SnapshotCreate, RetentionApply, DestinationOf)
  }

  ghost predicate UnitsOk(ops: seq<Op>) {
    && Distinct(KeysOf(ops, ServiceStop, ResourceOf)) && Distinct(KeysOf(ops, ServiceStart, ResourceOf))
    && SameKeys(KeysOf(ops, ServiceStop, ResourceOf), KeysOf(ops, ServiceStart, ResourceOf))
  }

  predicate EndsOk(ops: seq<Op>) {
    ops != [] ==> ops[0].action == MaintenanceEnter && ops[|ops| - 1].action == EvidenceWrite
  }

  ghost predicate StopsFirst(ops: seq<Op>) {
    && Before(ops, MaintenanceEnter, StagingBuild)
    && Before(ops, ServiceStop, StagingBuild)
    && Before(ops, StagingBuild, SnapshotCreate)
  }

  ghost predicate StartsLast(ops: seq<Op>) {
    && Before(ops, SnapshotCreate, ServiceStart) && Before(ops, RetentionApply, ServiceStart)
    && Before(ops, ServiceStart, ReadinessWait)
  }

  ghost predicate ExitLast(ops: seq<Op>) {
    && Before(ops, ReadinessWait, MaintenanceExit)
    && Before(ops, SnapshotCreate, MaintenanceExit) && Before(ops, RetentionApply, MaintenanceExit)
  }

  ghost predicate OrderOk(ops: seq<Op>) {
    EndsOk(ops) && StopsFirst(ops) && StartsLast(ops) && ExitLast(ops)
  }

  method CheckCounts(ops: seq<Op>) returns (violations: seq<string>)
    ensures violations == [] <==> CountsOk(ops)
  {
    violations := CheckOnce(ops, [MaintenanceEnter, MaintenanceExit, StagingBuild, EvidenceWrite]);
    var missing := CheckSome(ops, [ServiceStop, ServiceStart, ReadinessWait]);
    violations := violations + missing;
  }

  method CheckTransfers(ops: seq<Op>, destinations: seq<string>) returns (violations: seq<string>)
    ensures violations == [] <==> TransfersOk(ops, destinations)
  {
    violations := [];
    var snapshotKeys := KeysOf(ops, SnapshotCreate, DestinationOf);
    var retentionKeys := KeysOf(ops, RetentionApply, DestinationOf);
    var twice := HasDuplicates(snapshotKeys);
    if twice {
      violations := violations + ["more than one snapshot.create targets the same destination"];
    }
    twice := HasDuplicates(retentionKeys);
    if twice {
      violations := violations + ["more than one retention.apply targets the same destination"];
    }
    if !SameKeys(snapshotKeys, destinations) {
      violations := violations + ["snapshot.create must cover exactly the destinations"];
    }
    if !SameKeys(retentionKeys, destinations) {
      violations := violations + ["retention.apply must cover exactly the destinations"];
    }
    var late := CheckOwnOrder(ops, SnapshotCreate, RetentionApply, DestinationOf);
    violations := violations + late;
  }

  method CheckUnits(ops: seq<Op>) returns (violations: seq<string>)
    ensures violations == [] <==> UnitsOk(ops)
  {
    violations := [];
    var stopUnits := KeysOf(ops, ServiceStop, ResourceOf);
    var startUnits := KeysOf(ops, ServiceStart, ResourceOf);
    var twice := HasDuplicates(stopUnits);
    if twice {
      violations := violations + ["more than one service.stop targets the same unit"];
    }
    twice := HasDuplicates(startUnits);
    if twice {
      violations := violations + ["more than one service.start targets the same unit"];
    }
    if !SameKeys(stopUnits, startUnits) {
      violations := violations + ["service.stop and service.start must name the same units"];
    }
  }

  method CheckEnds(ops: seq<Op>) returns (violations: seq<string>)
    ensures violations == [] <==> EndsOk(ops)
  {
    violations := [];
    if |ops| > 0 {
      if ops[0].action != MaintenanceEnter {
        violations := violations + ["maintenance.enter must be the first operation"];
      }
      if ops[|ops| - 1].action != EvidenceWrite {
        violations := violations + ["evidence.write must be the last operation"];
      }
    }
  }

  lemma {:induction false} CountsOkOnce(ops: seq<Op>)
    requires CountsOk(ops)
    ensures |ByAction(ops, MaintenanceEnter)| == 1 && |ByAction(ops, MaintenanceExit)| == 1
    ensures |ByAction(ops, StagingBuild)| == 1 && |ByAction(ops, EvidenceWrite)| == 1
    ensures ByAction(ops, ServiceStop) != [] && ByAction(ops, ServiceStart) != [] && ByAction(ops, ReadinessWait) != []
  {
    assert MaintenanceEnter in ONCE && MaintenanceExit in ONCE && StagingBuild in ONCE && EvidenceWrite in ONCE;
    assert ServiceStop in AT_LEAST_ONCE && ServiceStart in AT_LEAST_ONCE && ReadinessWait in AT_LEAST_ONCE;
  }

  method CheckStops(ops: seq<Op>) returns (violations: seq<string>)
    ensures CountsOk(ops) ==> (violations == [] <==> StopsFirst(ops))
  {
    violations := [];
    if CountsOk(ops) {
      CountsOkOnce(ops);
    }
    if SomeBeforeFirst(ops, StagingBuild, MaintenanceEnter) {
      violations := violations + ["staging.build must come after maintenance.enter"];
    }
    if SomeAfterFirst(ops, ServiceStop, StagingBuild) {
      violations := violations + ["every service.stop must precede staging.build"];
    }
    if SomeBeforeFirst(ops, SnapshotCreate, StagingBuild) {
      violations := violations + ["every snapshot.create must come after staging.build"];
    }
  }

  method CheckStarts(ops: seq<Op>) returns (violations: seq<string>)
    ensures violations == [] <==> StartsLast(ops)
  {
    violations := [];
    if SomeBeforeLast(ops, ServiceStart, SnapshotCreate) || SomeBeforeLast(ops, ServiceStart, RetentionApply) {
      violations := violations + ["service.start must come after every snapshot.create/retention.apply"];
    }
    if LastAfterFirst(ops, ServiceStart, ReadinessWait) {
      violations := violations + ["every service.start must come before every readiness.wait"];
    }
  }

  method CheckExitAfterTransfers(ops: seq<Op>) returns (violations: seq<string>)
    ensures CountsOk(ops) ==>
              (violations == [] <==>
               Before(ops, SnapshotCreate, MaintenanceExit) && Before(ops, RetentionApply, MaintenanceExit))
  {
    violations := [];
    if CountsOk(ops) {
      CountsOkOnce(ops);
    }
    if FirstBeforeLast(ops, MaintenanceExit, SnapshotCreate) || FirstBeforeLast(ops, MaintenanceExit, RetentionApply) {
      violations := violations + ["maintenance.exit must come after every snapshot.create/retention.apply"];
    }
  }

  method CheckExit(ops: seq<Op>) returns (violations: seq<string>)
    ensures CountsOk(ops) ==> (violations == [] <==> ExitLast(ops))
  {
    violations := CheckExitAfterTransfers(ops);
    if CountsOk(ops) {
      CountsOkOnce(ops);
    }
    if FirstBeforeLast(ops, MaintenanceExit, ReadinessWait) {
      violations := violations + ["maintenance.exit must come after every readiness.wait"];
    }
  }

  method CheckOrder(ops: seq<Op>) returns (violations: seq<string>)
    ensures CountsOk(ops) ==> (violations == [] <==> OrderOk(ops))
  {
    violations := CheckEnds(ops);
    var more := CheckStops(ops);
    violations := violations + more;
    more := CheckStarts(ops);
    violations := violations + more;
    more := CheckExit(ops);
    violations := violations + more;
  }

  // From the conditions to the shape.

  ghost predicate Accepted(plan: BackupPlan) {
    && Distinct(plan.destinations) && Distinct(EntryKeys(plan.consistencySet))
    && CountsOk(plan.operations) && TransfersOk(plan.operations, plan.destinations)
    && UnitsOk(plan.operations) && Distinct(Keys(plan.operations, IdOf)) && OrderOk(plan.operations)
  }

  /** A destination that has its retention applied has a snapshot made. */
  lemma SnapshotOf(plan: BackupPlan, j: nat) returns (k: nat)
    requires SchemaValid(plan) && TransfersOk(plan.operations, plan.destinations)
    requires j < |plan.operations| && plan.operations[j].action == RetentionApply
    ensures k < |plan.operations| && plan.operations[k].action == SnapshotCreate
    ensures DestinationOf(plan.operations[k]) == DestinationOf(plan.operations[j])
  {
    var ops := plan.operations;
    SameKeysMembers(KeysOf(ops, SnapshotCreate, DestinationOf), plan.destinations);
    SameKeysMembers(KeysOf(ops, RetentionApply, DestinationOf), plan.destinations);
    KeysOfMembers(ops, RetentionApply, DestinationOf, DestinationOf(ops[j]));
    KeysOfMembers(ops, SnapshotCreate, DestinationOf, DestinationOf(ops[j]));
    k :| k < |ops| && ops[k].action == SnapshotCreate && DestinationOf(ops[k]) == DestinationOf(ops[j]);
  }

  lemma SnapshotExists(plan: BackupPlan)
    requires SchemaValid(plan) && TransfersOk(plan.operations, plan.destinations)
    ensures Has(plan.operations, SnapshotCreate)
  {
    SameKeysMembers(KeysOf(plan.operations, SnapshotCreate, DestinationOf), plan.destinations);
    assert plan.destinations[0] in KeysOf(plan.operations, SnapshotCreate, DestinationOf);
    KeysOfMembers(plan.operations, SnapshotCreate, DestinationOf, plan.destinations[0]);
  }

  lemma TransfersExist(plan: BackupPlan)
    requires SchemaValid(plan) && TransfersOk(plan.operations, plan.destinations)
    ensures Has(plan.operations, SnapshotCreate)
    ensures Before(plan.operations, StagingBuild, SnapshotCreate) ==> Before(plan.operations, StagingBuild, RetentionApply)
  {
    SnapshotExists(plan);
    var ops := plan.operations;
    if Before(ops, StagingBuild, SnapshotCreate) {
      forall i, j | 0 <= i < |ops| && 0 <= j < |ops| && ops[i].action == StagingBuild && ops[j].action == RetentionApply
        ensures i < j
      {
        var k := SnapshotOf(plan, j);
        assert i < k && k < j;
      }
    }
  }

  lemma EdgeBefore(ops: seq<Op>, a: Action, b: Action)
    requires ops != [] && CountsOk(ops) && EndsOk(ops) && Rank(a) < Rank(b) && (Rank(a) == 0 || Rank(b) == 7)
    ensures Before(ops, a, b)
  {
    CountsOkOnce(ops);
    if Rank(a) == 0 {
      FirstIsOnly(ops, a, b);
    } else {
      LastIsOnly(ops, b, a);
    }
  }

  lemma MiddleBefore(ops: seq<Op>, a: Action, b: Action)
    requires StopsFirst(ops) && StartsLast(ops) && ExitLast(ops) && Before(ops, StagingBuild, RetentionApply)
    requires Rank(a) + 1 == Rank(b) && 1 <= Rank(a) <= 5
    ensures Before(ops, a, b)
  {
  }

  lemma NextBefore(plan: BackupPlan, a: Action, b: Action)
    requires SchemaValid(plan) && plan.operations != [] && Accepted(plan) && Rank(a) + 1 == Rank(b) < 8
    ensures Before(plan.operations, a, b)
  {
    if Rank(a) == 0 || Rank(b) == 7 {
      EdgeBefore(plan.operations, a, b);
    } else {
      TransfersExist(plan);
      MiddleBefore(plan.operations, a, b);
    }
  }

  lemma CountMet(ops: seq<Op>, a: Action)
    requires CountsOk(ops) && (a in ONCE || a in AT_LEAST_ONCE)
    ensures Met(ops, Rank, Rank(a))
  {
    assert ByAction(ops, a) != [];
    MetBy(ops, Rank, a);
  }

  lemma CountsMet(ops: seq<Op>)
    requires CountsOk(ops)
    ensures forall k :: 0 <= k < 8 && k != 3 ==> Met(ops, Rank, k)
  {
    forall k | 0 <= k < 8 && k != 3 ensures Met(ops, Rank, k) {
      var a := match k
        case 0 => MaintenanceEnter
        case 1 => ServiceStop
        case 2 => StagingBuild
        case 4 => ServiceStart
        case 5 => ReadinessWait
        case 6 => MaintenanceExit
        case _ => EvidenceWrite;
      CountMet(ops, a);
    }
  }

  lemma AllMet(plan: BackupPlan)
    requires SchemaValid(plan) && Accepted(plan)
    ensures forall k :: 0 <= k < 8 ==> Met(plan.operations, Rank, k)
  {
    SnapshotsMet(plan);
    CountsMet(plan.operations);
  }

  lemma SnapshotsMet(plan: BackupPlan)
    requires SchemaValid(plan) && TransfersOk(plan.operations, plan.destinations)
    ensures Met(plan.operations, Rank, 3)
  {
    TransfersExist(plan);
    assert Rank(SnapshotCreate) == 3;
  }

  lemma AcceptedChained(plan: BackupPlan)
    requires SchemaValid(plan) && plan.operations != [] && Accepted(plan)
    ensures Chained(plan.operations, Rank, 8)
  {
    AllMet(plan);
    forall a, b | Rank(a) + 1 == Rank(b) < 8 ensures Before(plan.operations, a, b) {
      NextBefore(plan, a, b);
    }
  }

  lemma AcceptedWithin(plan: BackupPlan)
    requires SchemaValid(plan) && plan.operations != [] && Accepted(plan)
    ensures RanksWithin(plan.operations, Rank, 0, 8)
  {
    var ops := plan.operations;
    assert forall i :: 0 <= i < |ops| ==> ops[i] in ops;
  }

  lemma AcceptedRanked(plan: BackupPlan)
    requires SchemaValid(plan) && plan.operations != [] && Accepted(plan)
    ensures Ranked(plan.operations, Rank) && RanksWithin(plan.operations, Rank, 0, 8)
  {
    AcceptedChained(plan);
    AcceptedWithin(plan);
    ChainedIsRanked(plan.operations, Rank, 8);
  }
}
