/** No violation is found exactly when the operations have the backup flow's shape, and what that
    shape means for the host while a snapshot is taken. */
module BackupShape {
  import opened Sequences
  import opened FlowOps
  import opened FlowLaws
  import opened BackupFlow

  lemma {:induction false} RankIsAction(ops: seq<Op>, action: Action)
    requires (forall op :: op in ops ==> BackupAction(op.action)) && BackupAction(action) && Rank(action) != 3
    ensures ByRank(ops, Rank, Rank(action)) == ByAction(ops, action)
  {
    if ops != [] {
      RankIsAction(ops[1..], action);
    }
  }

  /** The flow that accepted operations are. */
  ghost function FlowOf(ops: seq<Op>): Flow
    requires CountsOk(ops)
  {
    CountsOkOnce(ops);
    Flow(ByAction(ops, MaintenanceEnter)[0], ByAction(ops, ServiceStop), ByAction(ops, StagingBuild)[0],
         ByRank(ops, Rank, 3), ByAction(ops, ServiceStart), ByAction(ops, ReadinessWait),
         ByAction(ops, MaintenanceExit)[0], ByAction(ops, EvidenceWrite)[0])
  }

  lemma {:induction false} SinglePart(ops: seq<Op>, action: Action)
    requires CountsOk(ops) && action in ONCE && forall op :: op in ops ==> BackupAction(op.action)
    ensures |ByAction(ops, action)| == 1 && ByAction(ops, action)[0].action == action
    ensures ByRank(ops, Rank, Rank(action)) == [ByAction(ops, action)[0]]
  {
    RankIsAction(ops, action);
    ByActionMember(ops, action, 0);
  }

  lemma {:induction false} ManyPart(ops: seq<Op>, action: Action)
    requires action in AT_LEAST_ONCE && forall op :: op in ops ==> BackupAction(op.action)
    ensures ByRank(ops, Rank, Rank(action)) == ByAction(ops, action) && AllOf(ByAction(ops, action), action)
  {
    RankIsAction(ops, action);
    forall i | 0 <= i < |ByAction(ops, action)| ensures ByAction(ops, action)[i].action == action {
      ByActionMember(ops, action, i);
    }
  }

  lemma {:induction false} TransferPart(ops: seq<Op>)
    requires forall op :: op in ops ==> BackupAction(op.action)
    ensures forall op :: op in ByRank(ops, Rank, 3) ==> op.action == SnapshotCreate || op.action == RetentionApply
  {
    forall op | op in ByRank(ops, Rank, 3) ensures op.action == SnapshotCreate || op.action == RetentionApply {
      ByRankMember(ops, Rank, 3, op);
    }
  }

  lemma {:induction false} SinglesTyped(ops: seq<Op>)
    requires CountsOk(ops) && forall op :: op in ops ==> BackupAction(op.action)
    ensures var flow := FlowOf(ops);
            && flow.enter.action == MaintenanceEnter && flow.staging.action == StagingBuild
            && flow.exit.action == MaintenanceExit && flow.evidence.action == EvidenceWrite
            && ByRank(ops, Rank, 0) == [flow.enter] && ByRank(ops, Rank, 2) == [flow.staging]
            && ByRank(ops, Rank, 6) == [flow.exit] && ByRank(ops, Rank, 7) == [flow.evidence]
  {
    SinglePart(ops, MaintenanceEnter);
    SinglePart(ops, StagingBuild);
    SinglePart(ops, MaintenanceExit);
    SinglePart(ops, EvidenceWrite);
  }

  lemma FlowOfParts(ops: seq<Op>)
    requires CountsOk(ops) && forall op :: op in ops ==> BackupAction(op.action)
    ensures FlowOf(ops).Typed() && FlowOf(ops).Parts() == SegmentsFrom(ops, Rank, 0, 8)
  {
    SinglesTyped(ops);
    ManyPart(ops, ServiceStop);
    ManyPart(ops, ServiceStart);
    ManyPart(ops, ReadinessWait);
    TransferPart(ops);
  }

  lemma TypedHasRanks(flow: Flow)
    requires flow.Typed()
    ensures HasRanks(flow.Parts(), Rank, 0)
  {
  }

  lemma FlowOfTransfers(ops: seq<Op>, destinations: seq<string>)
    requires CountsOk(ops) && TransfersOk(ops, destinations) && FlowOf(ops).Typed() && FlowOf(ops).Operations() == ops
    ensures var transfers := FlowOf(ops).transfers;
            && KeysOf(transfers, SnapshotCreate, DestinationOf) == KeysOf(ops, SnapshotCreate, DestinationOf)
            && KeysOf(transfers, RetentionApply, DestinationOf) == KeysOf(ops, RetentionApply, DestinationOf)
            && OwnOrder(transfers, SnapshotCreate, RetentionApply, DestinationOf)
  {
    ByActionOfByRank(ops, Rank, 3, SnapshotCreate);
    ByActionOfByRank(ops, Rank, 3, RetentionApply);
    TypedHasRanks(FlowOf(ops));
    OwnOrderOfRank(FlowOf(ops).Parts(), Rank, 3, SnapshotCreate, RetentionApply, DestinationOf);
  }

  lemma AcceptedIsFlow(plan: BackupPlan)
    requires SchemaValid(plan) && plan.operations != [] && Accepted(plan)
    ensures IsBackupFlow(plan)
  {
    var ops := plan.operations;
    AcceptedRanked(plan);
    RankedIsConcat(ops, Rank, 0, 8);
    FlowOfParts(ops);
    FlowOfTransfers(ops, plan.destinations);
    assert FlowOf(ops).Valid(plan.destinations);
  }

  // From the shape to the conditions.

  lemma TypedIsBackup(flow: Flow)
    requires flow.Typed()
    ensures Ranked(flow.Operations(), Rank) && forall op :: op in flow.Operations() ==> BackupAction(op.action)
    ensures forall i :: 0 <= i < 8 ==> ByRank(flow.Operations(), Rank, i) == flow.Parts()[i]
  {
    TypedHasRanks(flow);
    ConcatOfRanks(flow.Parts(), Rank, 0);
    assert forall i :: 0 <= i < 8 ==> ByRank(flow.Operations(), Rank, 0 + i) == flow.Parts()[i];
  }

  lemma {:induction false} ByActionInFlow(flow: Flow, action: Action)
    requires flow.Typed() && BackupAction(action) && Rank(action) != 3
    ensures ByAction(flow.Operations(), action) == flow.Parts()[Rank(action)]
  {
    TypedIsBackup(flow);
    RankIsAction(flow.Operations(), action);
  }

  lemma FlowSingles(flow: Flow)
    requires flow.Typed()
    ensures Once(flow.Operations(), ONCE)
  {
    forall a | a in ONCE ensures |ByAction(flow.Operations(), a)| == 1 {
      ByActionInFlow(flow, a);
    }
  }

  lemma FlowRepeated(flow: Flow)
    requires flow.Typed() && flow.stops != [] && flow.starts != [] && flow.waits != []
    ensures AtLeastOnce(flow.Operations(), AT_LEAST_ONCE)
  {
    forall a | a in AT_LEAST_ONCE ensures ByAction(flow.Operations(), a) != [] {
      ByActionInFlow(flow, a);
    }
  }

  lemma FlowCounts(flow: Flow, destinations: seq<string>)
    requires flow.Valid(destinations)
    ensures CountsOk(flow.Operations())
  {
    FlowSingles(flow);
    FlowRepeated(flow);
  }

  lemma FlowTransfers(flow: Flow, destinations: seq<string>)
    requires flow.Valid(destinations)
    ensures TransfersOk(flow.Operations(), destinations)
  {
    TypedIsBackup(flow);
    assert ByRank(flow.Operations(), Rank, 3) == flow.Parts()[3];
    ByActionOfByRank(flow.Operations(), Rank, 3, SnapshotCreate);
    ByActionOfByRank(flow.Operations(), Rank, 3, RetentionApply);
    TypedHasRanks(flow);
    OwnOrderOfRank(flow.Parts(), Rank, 3, SnapshotCreate, RetentionApply, DestinationOf);
  }

  lemma FlowUnits(flow: Flow, destinations: seq<string>)
    requires flow.Valid(destinations)
    ensures UnitsOk(flow.Operations())
  {
    ByActionInFlow(flow, ServiceStop);
    ByActionInFlow(flow, ServiceStart);
  }

  lemma RankedInOrder(ops: seq<Op>)
    requires Ranked(ops, Rank)
    ensures StopsFirst(ops) && StartsLast(ops) && ExitLast(ops)
  {
    BeforeInRanked(ops, Rank, MaintenanceEnter, StagingBuild);
    BeforeInRanked(ops, Rank, ServiceStop, StagingBuild);
    BeforeInRanked(ops, Rank, StagingBuild, SnapshotCreate);
    BeforeInRanked(ops, Rank, SnapshotCreate, ServiceStart);
    BeforeInRanked(ops, Rank, RetentionApply, ServiceStart);
    BeforeInRanked(ops, Rank, ServiceStart, ReadinessWait);
    BeforeInRanked(ops, Rank, ReadinessWait, MaintenanceExit);
    BeforeInRanked(ops, Rank, SnapshotCreate, MaintenanceExit);
    BeforeInRanked(ops, Rank, RetentionApply, MaintenanceExit);
  }

  lemma FlowOrder(flow: Flow)
    requires flow.Typed()
    ensures OrderOk(flow.Operations())
  {
    TypedIsBackup(flow);
    FlowEnds(flow);
    RankedInOrder(flow.Operations());
  }

  lemma FlowEnds(flow: Flow)
    requires flow.Typed()
    ensures EndsOk(flow.Operations())
  {
    ConcatSplit(flow.Parts(), 0);
    ConcatSplit(flow.Parts(), 7);
    assert flow.Parts()[..0] == [] && flow.Parts()[8..] == [];
  }

  lemma FlowIsAccepted(plan: BackupPlan)
    requires IsBackupFlow(plan)
    ensures Accepted(plan)
  {
    var flow: Flow :| flow.Valid(plan.destinations) && flow.Operations() == plan.operations;
    FlowCounts(flow, plan.destinations);
    FlowTransfers(flow, plan.destinations);
    FlowUnits(flow, plan.destinations);
    FlowOrder(flow);
  }

  // The same, said of places in the list.

  predicate EntriesDiffer(entries: seq<SetEntry>) {
    forall i, j :: 0 <= i < j < |entries| ==>
      (entries[i].service, entries[i].unit, entries[i].volume) != (entries[j].service, entries[j].unit, entries[j].volume)
  }

  predicate OnUnit(ops: seq<Op>, action: Action, unit: string) {
    exists j :: 0 <= j < |ops| && ops[j].action == action && ops[j].resource == unit
  }

  /** The unit of every operation `a` has an operation `b`. */
  ghost predicate EachHas(ops: seq<Op>, a: Action, b: Action) {
    forall unit :: OnUnit(ops, a, unit) ==> OnUnit(ops, b, unit)
  }

  predicate SnapshotsFirst(ops: seq<Op>) {
    forall i, j | 0 <= i < |ops| && 0 <= j < |ops| && ops[i].action == SnapshotCreate && ops[j].action == RetentionApply ::
      ops[i].destination == ops[j].destination ==> i < j
  }

  ghost predicate TransfersLawful(ops: seq<Op>, destinations: seq<string>) {
    && Distinct(destinations)
    && EachDestinationOnce(ops, SnapshotCreate, destinations) && EachDestinationOnce(ops, RetentionApply, destinations)
    && SnapshotsFirst(ops)
  }

  ghost predicate UnitsLawful(ops: seq<Op>) {
    && ResourcesDiffer(ops, ServiceStop) && ResourcesDiffer(ops, ServiceStart)
    && EachHas(ops, ServiceStop, ServiceStart) && EachHas(ops, ServiceStart, ServiceStop)
  }

  ghost predicate CountsLawful(ops: seq<Op>) {
    && OnlyOne(ops, MaintenanceEnter) && OnlyOne(ops, MaintenanceExit)
    && OnlyOne(ops, StagingBuild) && OnlyOne(ops, EvidenceWrite)
    && Has(ops, ServiceStop) && Has(ops, ServiceStart) && Has(ops, ReadinessWait)
  }

  /** What the source asks of a backup plan's operations, one by one. */
  ghost predicate Lawful(plan: BackupPlan) {
    && EntriesDiffer(plan.consistencySet) && IdsDiffer(plan.operations) && CountsLawful(plan.operations)
    && TransfersLawful(plan.operations, plan.destinations) && UnitsLawful(plan.operations) && OrderOk(plan.operations)
  }

  lemma {:induction false} CountsSpelled(ops: seq<Op>)
    ensures CountsOk(ops) <==>
            && |ByAction(ops, MaintenanceEnter)| == 1 && |ByAction(ops, MaintenanceExit)| == 1
            && |ByAction(ops, StagingBuild)| == 1 && |ByAction(ops, EvidenceWrite)| == 1
            && ByAction(ops, ServiceStop) != [] && ByAction(ops, ServiceStart) != [] && ByAction(ops, ReadinessWait) != []
  {
    if CountsOk(ops) {
      CountsOkOnce(ops);
    }
  }

  lemma CountsLawfulExactly(ops: seq<Op>)
    ensures CountsOk(ops) <==> CountsLawful(ops)
  {
    CountsSpelled(ops);
    OnlyOneExactly(ops, MaintenanceEnter);
    OnlyOneExactly(ops, MaintenanceExit);
    OnlyOneExactly(ops, StagingBuild);
    OnlyOneExactly(ops, EvidenceWrite);
    NoneOf(ops, ServiceStop);
    NoneOf(ops, ServiceStart);
    NoneOf(ops, ReadinessWait);
  }

  lemma TransfersLawfulExactly(ops: seq<Op>, destinations: seq<string>)
    ensures TransfersOk(ops, destinations) <==> TransfersLawful(ops, destinations)
  {
    EachDestinationOnceExactly(ops, SnapshotCreate, destinations);
    EachDestinationOnceExactly(ops, RetentionApply, destinations);
  }

  lemma UnitsLawfulExactly(ops: seq<Op>)
    ensures UnitsOk(ops) <==> UnitsLawful(ops)
  {
    var stops, starts := KeysOf(ops, ServiceStop, ResourceOf), KeysOf(ops, ServiceStart, ResourceOf);
    KeysDifferExactly(ops, ServiceStop, ResourceOf);
    KeysDifferExactly(ops, ServiceStart, ResourceOf);
    forall unit
      ensures (unit in stops <==> OnUnit(ops, ServiceStop, unit)) && (unit in starts <==> OnUnit(ops, ServiceStart, unit))
    {
      KeysOfMembers(ops, ServiceStop, ResourceOf, unit);
      KeysOfMembers(ops, ServiceStart, ResourceOf, unit);
    }
    if UnitsOk(ops) {
      SameKeysMembers(stops, starts);
    } else if UnitsLawful(ops) {
      SameMembersSameKeys(stops, starts);
    }
  }

  lemma NamesDifferExactly(plan: BackupPlan)
    requires SchemaValid(plan)
    ensures Distinct(Keys(plan.operations, IdOf)) <==> IdsDiffer(plan.operations)
    ensures Distinct(EntryKeys(plan.consistencySet)) <==> EntriesDiffer(plan.consistencySet)
  {
    IdsDifferExactly(plan.operations);
    var entries := plan.consistencySet;
    forall i, j | 0 <= i < j < |entries|
      ensures EntryKeys(entries)[i] == EntryKeys(entries)[j] <==>
              (entries[i].service, entries[i].unit, entries[i].volume) == (entries[j].service, entries[j].unit, entries[j].volume)
    {
      EntryKeyInjective(entries[i], entries[j]);
    }
  }

  lemma LawfulExactly(plan: BackupPlan)
    requires SchemaValid(plan)
    ensures Accepted(plan) <==> Lawful(plan)
  {
    NamesDifferExactly(plan);
    CountsLawfulExactly(plan.operations);
    TransfersLawfulExactly(plan.operations, plan.destinations);
    UnitsLawfulExactly(plan.operations);
  }

  /** No violation is found exactly for a flow of the one shape; a blocked plan is not looked at. */
  method ValidateBackupPlanOperations(plan: BackupPlan) returns (violations: seq<string>)
    requires SchemaValid(plan)
    ensures violations == [] <==> !plan.executable || IsBackupFlow(plan)
    ensures violations == [] <==> !plan.executable || Lawful(plan)
  {
    if !plan.executable {
      return [];
    }
    violations := [];
    var ops := plan.operations;
    var twice := HasDuplicates(plan.destinations);
    if twice {
      violations := violations + ["duplicate destination name"];
    }
    twice := HasDuplicates(EntryKeys(plan.consistencySet));
    if twice {
      violations := violations + ["duplicate volume in the consistency set"];
    }
    var more := CheckCounts(ops);
    violations := violations + more;
    more := CheckTransfers(ops, plan.destinations);
    violations := violations + more;
    more := CheckUnits(ops);
    violations := violations + more;
    twice := HasDuplicates(Keys(ops, IdOf));
    if twice {
      violations := violations + ["duplicate operation id"];
    }
    more := CheckOrder(ops);
    violations := violations + more;
    assert violations == [] <==> Accepted(plan);
    LawfulExactly(plan);
    if violations == [] {
      AcceptedIsFlow(plan);
    } else if IsBackupFlow(plan) {
      FlowIsAccepted(plan);
    }
  }

  // What running a flow does to the host.

  datatype Host = Host(maintenance: bool, down: set<string>)

  function Perform(host: Host, op: Op): Host {
    match op.action
    case MaintenanceEnter => host.(maintenance := true)
    case MaintenanceExit => host.(maintenance := false)
    case ServiceStop => host.(down := host.down + {op.resource})
    case ServiceStart => host.(down := host.down - {op.resource})
    case _ => host
  }

  function PerformAll(host: Host, ops: seq<Op>): Host {
    if ops == [] then host else Perform(PerformAll(host, ops[..|ops| - 1]), ops[|ops| - 1])
  }

  lemma {:induction false} StaysDown(host: Host, ops: seq<Op>, i: nat)
    requires i < |ops| && ops[i].action == ServiceStop
    requires forall j :: i < j < |ops| ==> ops[j].action != ServiceStart
    ensures ops[i].resource in PerformAll(host, ops).down
  {
    if i < |ops| - 1 {
      StaysDown(host, ops[..|ops| - 1], i);
    }
  }

  lemma {:induction false} StaysUp(host: Host, ops: seq<Op>, i: nat)
    requires i < |ops| && ops[i].action == ServiceStart
    requires forall j :: i < j < |ops| ==> ops[j].action != ServiceStop
    ensures ops[i].resource !in PerformAll(host, ops).down
  {
    if i < |ops| - 1 {
      StaysUp(host, ops[..|ops| - 1], i);
    }
  }

  lemma {:induction false} MaintenanceStays(host: Host, ops: seq<Op>, i: nat, mode: Action, other: Action)
    requires (mode, other) in {(MaintenanceEnter, MaintenanceExit), (MaintenanceExit, MaintenanceEnter)}
    requires i < |ops| && ops[i].action == mode
    requires forall j :: i < j < |ops| ==> ops[j].action != other
    ensures PerformAll(host, ops).maintenance == (mode == MaintenanceEnter)
  {
    if i < |ops| - 1 {
      MaintenanceStays(host, ops[..|ops| - 1], i, mode, other);
    }
  }

  lemma AcceptedFacts(plan: BackupPlan)
    requires IsBackupFlow(plan)
    ensures Ranked(plan.operations, Rank) && CountsOk(plan.operations) && UnitsOk(plan.operations)
  {
    FlowIsAccepted(plan);
    var flow: Flow :| flow.Valid(plan.destinations) && flow.Operations() == plan.operations;
    TypedIsBackup(flow);
  }

  /** A unit that is started has been stopped, and the other way round. */
  lemma StopForStart(ops: seq<Op>, i: nat, from: Action, to: Action) returns (j: nat)
    requires UnitsOk(ops) && i < |ops| && ops[i].action == from
    requires (from, to) in {(ServiceStart, ServiceStop), (ServiceStop, ServiceStart)}
    ensures j < |ops| && ops[j].action == to && ops[j].resource == ops[i].resource
  {
    KeysOfMembers(ops, from, ResourceOf, ops[i].resource);
    SameKeysMembers(KeysOf(ops, ServiceStop, ResourceOf), KeysOf(ops, ServiceStart, ResourceOf));
    KeysOfMembers(ops, to, ResourceOf, ops[i].resource);
    assert ResourceOf(ops[i]) == ops[i].resource;
    assert ops[i].resource in KeysOf(ops, from, ResourceOf);
    var k :| 0 <= k < |ops| && ops[k].action == to && ResourceOf(ops[k]) == ops[i].resource;
    j := k;
  }

  lemma {:induction false} MaintenanceDuring(host: Host, ops: seq<Op>, k: nat)
    requires Ranked(ops, Rank) && CountsOk(ops) && k < |ops| && ops[k].action == SnapshotCreate
    ensures PerformAll(host, ops[..k]).maintenance
  {
    CountsOkOnce(ops);
    var enter := PlaceOf(ops, MaintenanceEnter);
    forall j | enter < j < k ensures ops[..k][j].action != MaintenanceExit {
      assert Rank(ops[j].action) <= Rank(ops[k].action);
    }
    MaintenanceStays(host, ops[..k], enter, MaintenanceEnter, MaintenanceExit);
  }

  lemma {:induction false} DownDuring(host: Host, ops: seq<Op>, k: nat, stop: nat)
    requires Ranked(ops, Rank) && k < |ops| && ops[k].action == SnapshotCreate
    requires stop < |ops| && ops[stop].action == ServiceStop
    ensures ops[stop].resource in PerformAll(host, ops[..k]).down
  {
    forall j | stop < j < k ensures ops[..k][j].action != ServiceStart {
      assert Rank(ops[j].action) <= Rank(ops[k].action);
    }
    StaysDown(host, ops[..k], stop);
  }

  predicate StopsOrStarts(op: Op) {
    op.action == ServiceStop || op.action == ServiceStart
  }

  /** While a snapshot is taken maintenance is on and every unit that the plan stops or starts is down. */
  lemma {:induction false} SnapshotsRunInMaintenance(plan: BackupPlan, host: Host, k: nat)
    requires IsBackupFlow(plan) && k < |plan.operations| && plan.operations[k].action == SnapshotCreate
    ensures PerformAll(host, plan.operations[..k]).maintenance
    ensures forall i :: 0 <= i < |plan.operations| && StopsOrStarts(plan.operations[i]) ==>
              plan.operations[i].resource in PerformAll(host, plan.operations[..k]).down
  {
    var ops := plan.operations;
    AcceptedFacts(plan);
    MaintenanceDuring(host, ops, k);
    forall i | 0 <= i < |ops| && StopsOrStarts(ops[i])
      ensures ops[i].resource in PerformAll(host, ops[..k]).down
    {
      var stop: nat := i;
      if ops[i].action == ServiceStart {
        stop := StopForStart(ops, i, ServiceStart, ServiceStop);
      }
      DownDuring(host, ops, k, stop);
    }
  }

  lemma {:induction false} UpAfter(host: Host, ops: seq<Op>, start: nat)
    requires Ranked(ops, Rank) && start < |ops| && ops[start].action == ServiceStart
    ensures ops[start].resource !in PerformAll(host, ops).down
  {
    forall j | start < j < |ops| ensures ops[j].action != ServiceStop {
      assert Rank(ops[start].action) <= Rank(ops[j].action);
    }
    StaysUp(host, ops, start);
  }

  /** Afterwards maintenance is off and no unit is left down. */
  lemma {:induction false} BackupLeavesServing(plan: BackupPlan, host: Host)
    requires IsBackupFlow(plan)
    ensures !PerformAll(host, plan.operations).maintenance
    ensures forall i :: 0 <= i < |plan.operations| && StopsOrStarts(plan.operations[i]) ==>
              plan.operations[i].resource !in PerformAll(host, plan.operations).down
  {
    var ops := plan.operations;
    AcceptedFacts(plan);
    CountsOkOnce(ops);
    var exit := PlaceOf(ops, MaintenanceExit);
    forall j | exit < j < |ops| ensures ops[j].action != MaintenanceEnter {
      assert Rank(ops[exit].action) <= Rank(ops[j].action);
    }
    MaintenanceStays(host, ops, exit, MaintenanceExit, MaintenanceEnter);
    forall i | 0 <= i < |ops| && StopsOrStarts(ops[i])
      ensures ops[i].resource !in PerformAll(host, ops).down
    {
      var start: nat := i;
      if ops[i].action == ServiceStop {
        start := StopForStart(ops, i, ServiceStop, ServiceStart);
      }
      UpAfter(host, ops, start);
    }
  }
}
