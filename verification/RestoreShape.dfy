/** No violation is found exactly when the operations have the restore flow's shape, and what follows
    from that shape about the data. */
module RestoreShape {
  import opened Sequences
  import opened FlowOps
  import opened FlowLaws
  import opened RestoreFlow

  predicate Alone(a: Action) {
    a in {RunnerInstall, TargetVerifyClean, SnapshotVerify, NetworkCreate, CheckpointDataRestored, ServiceStart,
          ReadinessWait, EvidenceWrite}
  }

  lemma {:induction false} RankIsAction(ops: seq<Op>, action: Action)
    requires Alone(action)
    ensures ByRank(ops, Rank, Rank(action)) == ByAction(ops, action)
  {
    if ops != [] {
      RankIsAction(ops[1..], action);
    }
  }

  /** The flow that accepted operations are. */
  ghost function FlowOf(ops: seq<Op>): Flow
    requires CountsOk(ops)
  {
    CountsOkOnce(ops, RunnerInstall);
    CountsOkOnce(ops, TargetVerifyClean);
    CountsOkOnce(ops, SnapshotVerify);
    CountsOkOnce(ops, CheckpointDataRestored);
    CountsOkOnce(ops, EvidenceWrite);
    Flow(ByAction(ops, RunnerInstall)[0], ByAction(ops, TargetVerifyClean)[0], ByAction(ops, SnapshotVerify)[0],
         ByAction(ops, NetworkCreate), ByRank(ops, Rank, 4), ByRank(ops, Rank, 5),
         ByAction(ops, CheckpointDataRestored)[0], ByRank(ops, Rank, 7),
         ByAction(ops, ServiceStart), ByAction(ops, ReadinessWait), ByAction(ops, EvidenceWrite)[0])
  }

  lemma {:induction false} SinglePart(ops: seq<Op>, action: Action)
    requires CountsOk(ops) && action in SINGLE
    ensures |ByAction(ops, action)| == 1 && ByAction(ops, action)[0].action == action
    ensures ByRank(ops, Rank, Rank(action)) == [ByAction(ops, action)[0]]
  {
    CountsOkOnce(ops, action);
    RankIsAction(ops, action);
    ByActionMember(ops, action, 0);
  }

  lemma {:induction false} ManyPart(ops: seq<Op>, action: Action)
    requires Alone(action)
    ensures ByRank(ops, Rank, Rank(action)) == ByAction(ops, action) && AllOf(ByAction(ops, action), action)
  {
    RankIsAction(ops, action);
    forall i | 0 <= i < |ByAction(ops, action)| ensures ByAction(ops, action)[i].action == action {
      ByActionMember(ops, action, i);
    }
  }

  lemma {:induction false} MixedPart(ops: seq<Op>, k: nat)
    ensures OfRank(ByRank(ops, Rank, k), Rank, k)
  {
    var part := ByRank(ops, Rank, k);
    forall i | 0 <= i < |part| ensures Rank(part[i].action) == k {
      ByRankMember(ops, Rank, k, part[i]);
    }
  }

  lemma {:induction false} FirstSingles(ops: seq<Op>)
    requires CountsOk(ops)
    ensures var flow := FlowOf(ops);
            && flow.install.action == RunnerInstall && flow.clean.action == TargetVerifyClean
            && flow.snapshot.action == SnapshotVerify
            && ByRank(ops, Rank, 0) == [flow.install] && ByRank(ops, Rank, 1) == [flow.clean]
            && ByRank(ops, Rank, 2) == [flow.snapshot]
  {
    SinglePart(ops, RunnerInstall);
    SinglePart(ops, TargetVerifyClean);
    SinglePart(ops, SnapshotVerify);
  }

  lemma {:induction false} LastSingles(ops: seq<Op>)
    requires CountsOk(ops)
    ensures var flow := FlowOf(ops);
            && flow.checkpoint.action == CheckpointDataRestored && flow.evidence.action == EvidenceWrite
            && ByRank(ops, Rank, 6) == [flow.checkpoint] && ByRank(ops, Rank, 10) == [flow.evidence]
  {
    SinglePart(ops, CheckpointDataRestored);
    SinglePart(ops, EvidenceWrite);
  }

  lemma FlowOfParts(ops: seq<Op>)
    requires CountsOk(ops)
    ensures FlowOf(ops).Typed() && FlowOf(ops).Parts() == SegmentsFrom(ops, Rank, 0, 11)
  {
    FirstSingles(ops);
    LastSingles(ops);
    ManyPart(ops, NetworkCreate);
    ManyPart(ops, ServiceStart);
    ManyPart(ops, ReadinessWait);
    MixedPart(ops, 4);
    MixedPart(ops, 5);
    MixedPart(ops, 7);
  }

  lemma OwnOrderOfPart(flow: Flow)
    requires flow.Typed()
    ensures OwnOrder(flow.Operations(), VolumeCreate, DataRestore, ResourceOf) <==>
            OwnOrder(flow.data, VolumeCreate, DataRestore, ResourceOf)
  {
    OwnOrderOfRank(flow.Parts(), Rank, 4, VolumeCreate, DataRestore, ResourceOf);
  }

  lemma {:induction false} KeysOfPart(ops: seq<Op>, k: nat, action: Action)
    requires Rank(action) == k
    ensures KeysOf(ByRank(ops, Rank, k), action, ResourceOf) == KeysOf(ops, action, ResourceOf)
  {
    ByActionOfByRank(ops, Rank, k, action);
  }

  lemma {:induction false} DataKeysOfPart(ops: seq<Op>, data: seq<Op>)
    requires data == ByRank(ops, Rank, 4)
    ensures KeysOf(data, VolumeCreate, ResourceOf) == KeysOf(ops, VolumeCreate, ResourceOf)
    ensures KeysOf(data, DataRestore, ResourceOf) == KeysOf(ops, DataRestore, ResourceOf)
  {
    KeysOfPart(ops, 4, VolumeCreate);
    KeysOfPart(ops, 4, DataRestore);
  }

  /** What is asked of the volumes can be asked of the data part alone. */
  lemma DataOfPart(flow: Flow, volumes: seq<string>)
    requires flow.Typed()
    requires ByRank(flow.Operations(), Rank, 4) == flow.data
    ensures DataOk(flow.Operations(), volumes) <==> DataOk(flow.data, volumes)
  {
    DataKeysOfPart(flow.Operations(), flow.data);
    OwnOrderOfPart(flow);
  }

  lemma {:induction false} OnceInPart(ops: seq<Op>, k: nat, actions: seq<Action>)
    requires forall a :: a in actions ==> Rank(a) == k
    ensures Once(ops, actions) <==> Once(ByRank(ops, Rank, k), actions)
  {
    forall a | a in actions ensures ByAction(ByRank(ops, Rank, k), a) == ByAction(ops, a) {
      ByActionOfByRank(ops, Rank, k, a);
    }
  }

  lemma AcceptedOperations(plan: RestorePlan)
    requires SchemaValid(plan) && plan.operations != [] && Accepted(plan)
    ensures FlowOf(plan.operations).Typed() && FlowOf(plan.operations).Operations() == plan.operations
  {
    AcceptedRanked(plan);
    RankedIsConcat(plan.operations, Rank, 0, 11);
    FlowOfParts(plan.operations);
  }

  lemma FlowOfValid(ops: seq<Op>, networks: seq<string>)
    requires CountsOk(ops) && NetworksOk(ops, networks)
    ensures var flow := FlowOf(ops);
            && Distinct(Keys(flow.networks, ResourceOf)) && SameKeys(Keys(flow.networks, ResourceOf), networks)
            && Once(flow.verifications, VERIFICATIONS) && Once(flow.provisioning, PROVISIONING)
            && flow.starts != [] && Distinct(Keys(flow.starts, ResourceOf)) && flow.waits != []
  {
    OnceInPart(ops, 5, VERIFICATIONS);
    OnceInPart(ops, 7, PROVISIONING);
    assert ServiceStart in REPEATED && ReadinessWait in REPEATED;
  }

  lemma AcceptedIsFlow(plan: RestorePlan)
    requires SchemaValid(plan) && plan.operations != [] && Accepted(plan)
    ensures IsRestoreFlow(plan)
  {
    AcceptedOperations(plan);
    DataOfPart(FlowOf(plan.operations), plan.Volumes());
    FlowOfValid(plan.operations, plan.networks);
    assert FlowOf(plan.operations).Valid(plan.networks, plan.Volumes());
  }

  // From the shape to the conditions.

  lemma TypedIsRanked(flow: Flow)
    requires flow.Typed()
    ensures Ranked(flow.Operations(), Rank)
    ensures forall i :: 0 <= i < 11 ==> ByRank(flow.Operations(), Rank, i) == flow.Parts()[i]
  {
    ConcatOfRanks(flow.Parts(), Rank, 0);
    assert forall i :: 0 <= i < 11 ==> ByRank(flow.Operations(), Rank, 0 + i) == flow.Parts()[i];
  }

  lemma {:induction false} ByActionInFlow(flow: Flow, action: Action)
    requires flow.Typed() && Alone(action)
    ensures ByAction(flow.Operations(), action) == flow.Parts()[Rank(action)]
  {
    TypedIsRanked(flow);
    RankIsAction(flow.Operations(), action);
  }

  lemma FlowSingles(flow: Flow)
    requires flow.Typed()
    ensures Once(flow.Operations(), SINGLE)
  {
    forall a | a in SINGLE ensures |ByAction(flow.Operations(), a)| == 1 {
      ByActionInFlow(flow, a);
    }
  }

  lemma FlowPartOnce(flow: Flow, k: nat, actions: seq<Action>)
    requires flow.Typed() && k < 11 && forall a :: a in actions ==> Rank(a) == k
    ensures Once(flow.Parts()[k], actions) <==> Once(flow.Operations(), actions)
  {
    TypedIsRanked(flow);
    OnceInPart(flow.Operations(), k, actions);
  }

  lemma {:induction false} StartsOf(flow: Flow, ops: seq<Op>)
    requires flow.Typed() && ops == flow.Operations()
    ensures ByAction(ops, ServiceStart) == flow.starts
  {
    ByActionInFlow(flow, ServiceStart);
  }

  lemma {:induction false} WaitsOf(flow: Flow, ops: seq<Op>)
    requires flow.Typed() && ops == flow.Operations()
    ensures ByAction(ops, ReadinessWait) == flow.waits
  {
    ByActionInFlow(flow, ReadinessWait);
  }

  lemma MixedOf(flow: Flow, ops: seq<Op>)
    requires flow.Typed() && ops == flow.Operations()
    requires Once(flow.verifications, VERIFICATIONS) && Once(flow.provisioning, PROVISIONING)
    ensures Once(ops, VERIFICATIONS) && Once(ops, PROVISIONING)
  {
    FlowPartOnce(flow, 5, VERIFICATIONS);
    FlowPartOnce(flow, 7, PROVISIONING);
  }

  lemma FlowCounts(flow: Flow, networks: seq<string>, volumes: seq<string>)
    requires flow.Valid(networks, volumes)
    ensures CountsOk(flow.Operations())
  {
    var ops := flow.Operations();
    FlowSingles(flow);
    StartsOf(flow, ops);
    WaitsOf(flow, ops);
    MixedOf(flow, ops);
  }

  lemma FlowNetworks(flow: Flow, networks: seq<string>)
    requires flow.Typed()
    requires Distinct(Keys(flow.networks, ResourceOf)) && SameKeys(Keys(flow.networks, ResourceOf), networks)
    ensures NetworksOk(flow.Operations(), networks)
  {
    ByActionInFlow(flow, NetworkCreate);
  }

  lemma FlowData(flow: Flow, volumes: seq<string>)
    requires flow.Typed() && DataOk(flow.data, volumes)
    ensures DataOk(flow.Operations(), volumes)
  {
    TypedIsRanked(flow);
    assert ByRank(flow.Operations(), Rank, 4) == flow.Parts()[4];
    DataOfPart(flow, volumes);
  }

  lemma FlowEnds(flow: Flow)
    requires flow.Typed()
    ensures EndsOk(flow.Operations())
  {
    ConcatSplit(flow.Parts(), 0);
    ConcatSplit(flow.Parts(), 10);
    assert flow.Parts()[..0] == [] && flow.Parts()[11..] == [];
  }

  lemma RankedUpToCheckpoint(ops: seq<Op>)
    requires Ranked(ops, Rank)
    ensures VerifiedFirst(ops) && DataVerified(ops)
  {
    BeforeInRanked(ops, Rank, TargetVerifyClean, SnapshotVerify);
    BeforeInRanked(ops, Rank, SnapshotVerify, NetworkCreate);
    BeforeInRanked(ops, Rank, NetworkCreate, VolumeCreate);
    BeforeInRanked(ops, Rank, DataRestore, ManifestVerify);
    BeforeInRanked(ops, Rank, DataRestore, IntegrityCheck);
    BeforeInRanked(ops, Rank, ManifestVerify, CheckpointDataRestored);
    BeforeInRanked(ops, Rank, IntegrityCheck, CheckpointDataRestored);
    BeforeInRanked(ops, Rank, DataRestore, CheckpointDataRestored);
  }

  lemma RankedFromCheckpoint(ops: seq<Op>)
    requires Ranked(ops, Rank)
    ensures Provisioned(ops) && StartedLast(ops)
  {
    BeforeInRanked(ops, Rank, CheckpointDataRestored, ConfigRestore);
    BeforeInRanked(ops, Rank, CheckpointDataRestored, SecretMaterialize);
    BeforeInRanked(ops, Rank, CheckpointDataRestored, StateRestore);
    BeforeInRanked(ops, Rank, ConfigRestore, ServiceStart);
    BeforeInRanked(ops, Rank, SecretMaterialize, ServiceStart);
    BeforeInRanked(ops, Rank, StateRestore, ServiceStart);
    BeforeInRanked(ops, Rank, ServiceStart, ReadinessWait);
  }

  lemma FlowIsAccepted(plan: RestorePlan)
    requires IsRestoreFlow(plan)
    ensures Accepted(plan) && Ranked(plan.operations, Rank)
  {
    var flow: Flow :| flow.Valid(plan.networks, plan.Volumes()) && flow.Operations() == plan.operations;
    FlowCounts(flow, plan.networks, plan.Volumes());
    FlowNetworks(flow, plan.networks);
    FlowData(flow, plan.Volumes());
    TypedIsRanked(flow);
    FlowEnds(flow);
    RankedUpToCheckpoint(plan.operations);
    RankedFromCheckpoint(plan.operations);
  }

  lemma FlowIsRanked(plan: RestorePlan)
    requires IsRestoreFlow(plan)
    ensures Ranked(plan.operations, Rank)
  {
    FlowIsAccepted(plan);
  }

  lemma FlowHasData(plan: RestorePlan)
    requires IsRestoreFlow(plan)
    ensures DataOk(plan.operations, plan.Volumes())
  {
    FlowIsAccepted(plan);
  }

  // The same, said of places in the list.

  ghost predicate CountsLawful(ops: seq<Op>) {
    && OnlyOne(ops, RunnerInstall) && OnlyOne(ops, TargetVerifyClean) && OnlyOne(ops, SnapshotVerify)
    && OnlyOne(ops, ManifestVerify) && OnlyOne(ops, IntegrityCheck) && OnlyOne(ops, CheckpointDataRestored)
    && OnlyOne(ops, ConfigRestore) && OnlyOne(ops, SecretMaterialize) && OnlyOne(ops, StateRestore)
    && OnlyOne(ops, EvidenceWrite)
    && Has(ops, ServiceStart) && ResourcesDiffer(ops, ServiceStart) && Has(ops, ReadinessWait)
  }

  /** Each volume is created once and restored once, later. */
  ghost predicate DataLawful(ops: seq<Op>, volumes: seq<string>) {
    && Distinct(volumes)
    && EachResourceOnce(ops, VolumeCreate, volumes) && EachResourceOnce(ops, DataRestore, volumes)
    && forall i, j | 0 <= i < |ops| && 0 <= j < |ops| && ops[i].action == VolumeCreate && ops[j].action == DataRestore ::
         ops[i].resource == ops[j].resource ==> i < j
  }

  ghost predicate NamesLawful(plan: RestorePlan) {
    && IdsDiffer(plan.operations)
    && (forall i, j :: 0 <= i < j < |plan.consistencySet| ==>
          ConsistencySetEntryKey(plan.consistencySet[i]) != ConsistencySetEntryKey(plan.consistencySet[j]))
  }

  /** What the source asks of a restore plan's operations, one by one. */
  ghost predicate Lawful(plan: RestorePlan) {
    && NamesLawful(plan) && CountsLawful(plan.operations)
    && Distinct(plan.networks) && EachResourceOnce(plan.operations, NetworkCreate, plan.networks)
    && DataLawful(plan.operations, plan.Volumes()) && OrderOk(plan.operations)
  }

  lemma {:induction false} SinglesSpelled(ops: seq<Op>)
    ensures Once(ops, SINGLE) <==>
            && |ByAction(ops, RunnerInstall)| == 1 && |ByAction(ops, TargetVerifyClean)| == 1
            && |ByAction(ops, SnapshotVerify)| == 1 && |ByAction(ops, CheckpointDataRestored)| == 1
            && |ByAction(ops, EvidenceWrite)| == 1
  {
    assert SINGLE[0] == RunnerInstall && SINGLE[1] == TargetVerifyClean && SINGLE[2] == SnapshotVerify
           && SINGLE[3] == CheckpointDataRestored && SINGLE[4] == EvidenceWrite;
  }

  lemma {:induction false} MixedSpelled(ops: seq<Op>)
    ensures Once(ops, VERIFICATIONS) <==> |ByAction(ops, ManifestVerify)| == 1 && |ByAction(ops, IntegrityCheck)| == 1
    ensures Once(ops, PROVISIONING) <==>
            && |ByAction(ops, ConfigRestore)| == 1 && |ByAction(ops, SecretMaterialize)| == 1
            && |ByAction(ops, StateRestore)| == 1
    ensures AtLeastOnce(ops, REPEATED) <==> ByAction(ops, ServiceStart) != [] && ByAction(ops, ReadinessWait) != []
  {
    assert VERIFICATIONS[0] == ManifestVerify && VERIFICATIONS[1] == IntegrityCheck;
    assert PROVISIONING[0] == ConfigRestore && PROVISIONING[1] == SecretMaterialize && PROVISIONING[2] == StateRestore;
    assert REPEATED[0] == ServiceStart && REPEATED[1] == ReadinessWait;
  }

  lemma CountsLawfulExactly(ops: seq<Op>)
    ensures CountsOk(ops) <==> CountsLawful(ops)
  {
    SinglesSpelled(ops);
    MixedSpelled(ops);
    OnlyOneExactly(ops, RunnerInstall);
    OnlyOneExactly(ops, TargetVerifyClean);
    OnlyOneExactly(ops, SnapshotVerify);
    OnlyOneExactly(ops, ManifestVerify);
    OnlyOneExactly(ops, IntegrityCheck);
    OnlyOneExactly(ops, CheckpointDataRestored);
    OnlyOneExactly(ops, ConfigRestore);
    OnlyOneExactly(ops, SecretMaterialize);
    OnlyOneExactly(ops, StateRestore);
    OnlyOneExactly(ops, EvidenceWrite);
    NoneOf(ops, ServiceStart);
    NoneOf(ops, ReadinessWait);
    KeysDifferExactly(ops, ServiceStart, ResourceOf);
  }

  lemma DataLawfulExactly(ops: seq<Op>, volumes: seq<string>)
    ensures DataOk(ops, volumes) <==> DataLawful(ops, volumes)
  {
    EachResourceOnceExactly(ops, VolumeCreate, volumes);
    EachResourceOnceExactly(ops, DataRestore, volumes);
  }

  lemma NamesLawfulExactly(plan: RestorePlan)
    ensures NamesLawful(plan) <==> Distinct(Keys(plan.operations, IdOf)) && Distinct(plan.EntryKeys())
  {
    var entries := plan.consistencySet;
    IdsDifferExactly(plan.operations);
    assert forall i :: 0 <= i < |entries| ==> plan.EntryKeys()[i] == ConsistencySetEntryKey(entries[i]);
  }

  lemma LawfulExactly(plan: RestorePlan)
    ensures Accepted(plan) <==> Lawful(plan)
  {
    NamesLawfulExactly(plan);
    CountsLawfulExactly(plan.operations);
    EachResourceOnceExactly(plan.operations, NetworkCreate, plan.networks);
    DataLawfulExactly(plan.operations, plan.Volumes());
  }

  /** No violation is found exactly for a flow of the one shape; a blocked plan is not looked at. */
  method ValidateRestorePlanOperations(plan: RestorePlan) returns (violations: seq<string>)
    requires SchemaValid(plan)
    ensures violations == [] <==> !plan.executable || IsRestoreFlow(plan)
    ensures violations == [] <==> !plan.executable || Lawful(plan)
  {
    if !plan.executable {
      return [];
    }
    violations := [];
    var ops := plan.operations;
    var twice := HasDuplicates(plan.EntryKeys());
    if twice {
      violations := violations + ["duplicate volume in the consistency set"];
    }
    twice := HasDuplicates(plan.networks);
    if twice {
      violations := violations + ["duplicate network name"];
    }
    var more := CheckCounts(ops);
    violations := violations + more;
    more := CheckNetworks(ops, plan.networks);
    violations := violations + more;
    more := CheckData(ops, plan.Volumes());
    violations := violations + more;
    twice := HasDuplicates(Keys(ops, IdOf));
    if twice {
      violations := violations + ["duplicate operation id"];
    }
    more := CheckOrder(ops);
    violations := violations + more;
    assert violations == [] <==> Accepted(plan);
    LawfulExactly(plan);
    if violations == [] {
      AcceptedIsFlow(plan);
    } else if IsRestoreFlow(plan) {
      FlowIsAccepted(plan);
    }
  }

  // What the shape means for the data.

  /** Nothing is created or restored once the checkpoint is reached. */
  lemma NoDataWriteAfterCheckpoint(plan: RestorePlan, k: nat, j: nat)
    requires IsRestoreFlow(plan) && k <= j < |plan.operations|
    requires plan.operations[k].action == CheckpointDataRestored
    ensures plan.operations[j].action !in {NetworkCreate, VolumeCreate, DataRestore}
  {
    FlowIsRanked(plan);
    RankAtLeast(plan.operations, k, j);
  }

  lemma RankAtLeast(ops: seq<Op>, k: nat, j: nat)
    requires Ranked(ops, Rank) && k <= j < |ops|
    ensures Rank(ops[k].action) <= Rank(ops[j].action)
  {
  }

  /** At the checkpoint every volume of the consistency set has been created and then restored. */
  lemma AllDataRestoredAtCheckpoint(plan: RestorePlan, k: nat, volume: string) returns (create: nat, restore: nat)
    requires IsRestoreFlow(plan) && volume in plan.Volumes()
    requires k < |plan.operations| && plan.operations[k].action == CheckpointDataRestored
    ensures create < restore < k
    ensures plan.operations[create].action == VolumeCreate && plan.operations[create].resource == volume
    ensures plan.operations[restore].action == DataRestore && plan.operations[restore].resource == volume
  {
    FlowHasData(plan);
    create, restore := RestoreOf(plan.operations, plan.Volumes(), volume);
    FlowIsRanked(plan);
    if restore >= k {
      RankAtLeast(plan.operations, k, restore);
    }
  }

  lemma RestoreOf(ops: seq<Op>, volumes: seq<string>, volume: string) returns (create: nat, restore: nat)
    requires DataOk(ops, volumes) && volume in volumes
    ensures create < restore < |ops|
    ensures ops[create].action == VolumeCreate && ops[create].resource == volume
    ensures ops[restore].action == DataRestore && ops[restore].resource == volume
  {
    SameKeysMembers(KeysOf(ops, VolumeCreate, ResourceOf), volumes);
    KeysOfMembers(ops, VolumeCreate, ResourceOf, volume);
    var i :| 0 <= i < |ops| && ops[i].action == VolumeCreate && ResourceOf(ops[i]) == volume;
    create := i;
    restore := Counterpart(ops, volumes, VolumeCreate, DataRestore, create);
  }

  /** Data is only restored after the target was found clean, the snapshot was verified and every
      network was created. */
  lemma DataRestoredLate(plan: RestorePlan, i: nat, k: nat)
    requires IsRestoreFlow(plan) && i < |plan.operations| && k < |plan.operations|
    requires plan.operations[k].action == DataRestore
    requires plan.operations[i].action in {TargetVerifyClean, SnapshotVerify, NetworkCreate}
    ensures i < k
  {
    FlowIsRanked(plan);
    BeforeInRanked(plan.operations, Rank, plan.operations[i].action, DataRestore);
  }

  lemma OnlyPlaceOf(plan: RestorePlan, action: Action) returns (i: nat)
    requires IsRestoreFlow(plan)
    requires action in {ManifestVerify, IntegrityCheck, CheckpointDataRestored, ConfigRestore, SecretMaterialize, StateRestore}
    ensures OnlyAt(plan.operations, action, i)
  {
    FlowIsAccepted(plan);
    CountsOkOnce(plan.operations, action);
    OnlyOneExactly(plan.operations, action);
    var at :| OnlyAt(plan.operations, action, at);
    i := at;
  }

  lemma InOrder(plan: RestorePlan, i: nat, j: nat)
    requires IsRestoreFlow(plan) && i < |plan.operations| && j < |plan.operations|
    requires Rank(plan.operations[i].action) < Rank(plan.operations[j].action)
    ensures i < j
  {
    FlowIsRanked(plan);
    BeforeInRanked(plan.operations, Rank, plan.operations[i].action, plan.operations[j].action);
  }

  /** The checkpoint is reached only behind the one manifest.verify and the one database.integrity-check,
      each of them behind every data.restore. */
  lemma VerifiedAtCheckpoint(plan: RestorePlan, k: nat) returns (manifest: nat, integrity: nat)
    requires IsRestoreFlow(plan) && k < |plan.operations| && plan.operations[k].action == CheckpointDataRestored
    ensures manifest < k && plan.operations[manifest].action == ManifestVerify
    ensures integrity < k && plan.operations[integrity].action == IntegrityCheck
    ensures forall j :: 0 <= j < |plan.operations| ==>
              && (plan.operations[j].action == ManifestVerify ==> j == manifest)
              && (plan.operations[j].action == IntegrityCheck ==> j == integrity)
              && (plan.operations[j].action == DataRestore ==> j < manifest && j < integrity)
  {
    manifest := OnlyPlaceOf(plan, ManifestVerify);
    integrity := OnlyPlaceOf(plan, IntegrityCheck);
    InOrder(plan, manifest, k);
    InOrder(plan, integrity, k);
    forall j: nat | j < |plan.operations| && plan.operations[j].action == DataRestore ensures j < manifest && j < integrity {
      InOrder(plan, j, manifest);
      InOrder(plan, j, integrity);
    }
  }

  /** A unit is started only behind the one config.restore, the one secret.materialize and the one
      state.restore, and these only behind the checkpoint. */
  lemma ProvisionedBeforeStart(plan: RestorePlan, k: nat) returns (config: nat, secrets: nat, state: nat)
    requires IsRestoreFlow(plan) && k < |plan.operations| && plan.operations[k].action == ServiceStart
    ensures config < k && plan.operations[config].action == ConfigRestore
    ensures secrets < k && plan.operations[secrets].action == SecretMaterialize
    ensures state < k && plan.operations[state].action == StateRestore
    ensures forall j :: 0 <= j < |plan.operations| ==>
              && (plan.operations[j].action == ConfigRestore ==> j == config)
              && (plan.operations[j].action == SecretMaterialize ==> j == secrets)
              && (plan.operations[j].action == StateRestore ==> j == state)
              && (plan.operations[j].action == CheckpointDataRestored ==> j < config && j < secrets && j < state)
  {
    config := OnlyPlaceOf(plan, ConfigRestore);
    secrets := OnlyPlaceOf(plan, SecretMaterialize);
    state := OnlyPlaceOf(plan, StateRestore);
    InOrder(plan, config, k);
    InOrder(plan, secrets, k);
    InOrder(plan, state, k);
    var checkpoint := OnlyPlaceOf(plan, CheckpointDataRestored);
    InOrder(plan, checkpoint, config);
    InOrder(plan, checkpoint, secrets);
    InOrder(plan, checkpoint, state);
  }

  /** No volume is restored twice. */
  lemma DataRestoredOnce(plan: RestorePlan, i: nat, k: nat)
    requires IsRestoreFlow(plan) && i < |plan.operations| && k < |plan.operations|
    requires plan.operations[i].action == DataRestore && plan.operations[k].action == DataRestore
    requires plan.operations[i].resource == plan.operations[k].resource
    ensures i == k
  {
    FlowHasData(plan);
    OneRestore(plan.operations, plan.Volumes(), i, k);
  }

  lemma OneRestore(ops: seq<Op>, volumes: seq<string>, i: nat, k: nat)
    requires DataOk(ops, volumes) && i < |ops| && k < |ops|
    requires ops[i].action == DataRestore && ops[k].action == DataRestore && ops[i].resource == ops[k].resource
    ensures i == k
  {
    UniquePlace(ops, DataRestore, ResourceOf, i, k);
  }

  /** The validator looks at service, unit and volume together; the volumes alone are distinct all the same. */
  lemma VolumesDistinct(plan: RestorePlan)
    requires IsRestoreFlow(plan)
    ensures Distinct(plan.Volumes())
  {
    FlowHasData(plan);
    DistinctOfSameKeys(KeysOf(plan.operations, VolumeCreate, ResourceOf), plan.Volumes());
  }

  // The generation that a restore's journal records.

  datatype StepEvent = StepEvent(step: string, succeeded: bool)

  /** The first operation of the plan that restores state, if there is one, is operation `i`. */
  ghost predicate FirstStateRestore(ops: seq<Op>, i: nat) {
    i < |ops| && ops[i].action == StateRestore && forall j :: 0 <= j < i ==> ops[j].action != StateRestore
  }

  /** It has succeeded; operations that only look like it by their id do not count. */
  ghost predicate StateRestored(plan: RestorePlan, events: seq<StepEvent>) {
    exists i: nat :: FirstStateRestore(plan.operations, i) && StepEvent(plan.operations[i].id, true) in events
  }

  lemma FirstStateRestoreDecides(plan: RestorePlan, events: seq<StepEvent>, at: int, succeeded: bool)
    requires at == IndexOfAction(plan.operations, StateRestore)
    requires succeeded <==> at >= 0 && exists e :: e in events && e.succeeded && e.step == plan.operations[at].id
    ensures succeeded <==> StateRestored(plan, events)
  {
    if succeeded {
      var e :| e in events && e.succeeded && e.step == plan.operations[at].id;
      assert FirstStateRestore(plan.operations, at) && e == StepEvent(plan.operations[at].id, true);
    }
    if i: nat :| FirstStateRestore(plan.operations, i) && StepEvent(plan.operations[i].id, true) in events {
      var e := StepEvent(plan.operations[i].id, true);
      assert i == at && e in events && e.succeeded;
    }
  }

  method ValidateRestoreCommittedGeneration(committed: Option<nat>, events: seq<StepEvent>, plan: RestorePlan, generation: nat)
    returns (violations: seq<string>)
    ensures violations == [] <==> committed == if StateRestored(plan, events) then Some(generation) else None
    ensures |violations| <= 1
  {
    violations := [];
    var at := IndexOfAction(plan.operations, StateRestore);
    var succeeded := at >= 0 && exists e :: e in events && e.succeeded && e.step == plan.operations[at].id;
    FirstStateRestoreDecides(plan, events, at, succeeded);
    if succeeded {
      if committed == None {
        violations := violations + ["committedGeneration must be set once state.restore has succeeded"];
      } else if committed != Some(generation) {
        violations := violations + ["committedGeneration does not match the source generation"];
      }
    } else if committed != None {
      violations := violations + ["committedGeneration must stay null until state.restore succeeds"];
    }
  }
}
