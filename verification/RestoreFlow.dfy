/** The restore flow validator of scripts/backup-flow.mjs, and the one shape it pins down. */
module RestoreFlow {
  import opened Sequences
  import opened FlowOps

  /** A restore plan; its volumes are those of the entries of its consistency set, in their order. */
  datatype RestorePlan = RestorePlan(
    executable: bool,
    consistencySet: seq<SetEntry>,
    networks: seq<string>,
    operations: seq<Op>)
  {
    function Volumes(): seq<string> {
      seq(|consistencySet|, i requires 0 <= i < |consistencySet| => consistencySet[i].volume)
    }

    function EntryKeys(): seq<string> {
      seq(|consistencySet|, i requires 0 <= i < |consistencySet| => ConsistencySetEntryKey(consistencySet[i]))
    }
  }

  predicate RestoreAction(a: Action) {
    Rank(a) < 11
  }

  function Rank(a: Action): nat {
    match a
    case RunnerInstall => 0
    case TargetVerifyClean => 1
    case SnapshotVerify => 2
    case NetworkCreate => 3
    case VolumeCreate => 4
    case DataRestore => 4
    case ManifestVerify => 5
    case IntegrityCheck => 5
    case CheckpointDataRestored => 6
    case ConfigRestore => 7
    case SecretMaterialize => 7
    case StateRestore => 7
    case ServiceStart => 8
    case ReadinessWait => 9
    case EvidenceWrite => 10
    case _ => 11
  }

  /** What schemas/restore-plan-v1.schema.json has already checked. */
  predicate SchemaValid(plan: RestorePlan) {
    && plan.consistencySet != [] && plan.networks != []
    && (plan.executable ==> plan.operations != [])
    && (forall i :: 0 <= i < |plan.operations| ==> RestoreAction(plan.operations[i].action))
  }

  ghost const VERIFICATIONS: seq<Action> := [ManifestVerify, IntegrityCheck]
  ghost const PROVISIONING: seq<Action> := [ConfigRestore, SecretMaterialize, StateRestore]

  /** The parts of a flow, in their order. */
  datatype Flow = Flow(install: Op, clean: Op, snapshot: Op, networks: seq<Op>, data: seq<Op>,
                       verifications: seq<Op>, checkpoint: Op, provisioning: seq<Op>,
                       starts: seq<Op>, waits: seq<Op>, evidence: Op)
  {
    function Parts(): seq<seq<Op>> {
      [[install], [clean], [snapshot], networks, data, verifications, [checkpoint], provisioning,
       starts, waits, [evidence]]
    }

    function Operations(): seq<Op> {
      Concat(Parts())
    }

    ghost predicate Typed() {
      && install.action == RunnerInstall && clean.action == TargetVerifyClean && snapshot.action == SnapshotVerify
      && AllOf(networks, NetworkCreate) && OfRank(data, Rank, 4) && OfRank(verifications, Rank, 5)
      && checkpoint.action == CheckpointDataRestored && OfRank(provisioning, Rank, 7)
      && AllOf(starts, ServiceStart) && AllOf(waits, ReadinessWait) && evidence.action == EvidenceWrite
    }

    /** One create per network; for each volume its create and, later, its restore; both
        verifications; configuration, secrets and state once each, in any order. */
    ghost predicate Valid(expectedNetworks: seq<string>, volumes: seq<string>) {
      && Typed()
      && Distinct(Keys(networks, ResourceOf)) && SameKeys(Keys(networks, ResourceOf), expectedNetworks)
      && DataOk(data, volumes)
      && Once(verifications, VERIFICATIONS) && Once(provisioning, PROVISIONING)
      && starts != [] && Distinct(Keys(starts, ResourceOf)) && waits != []
    }
  }

  ghost predicate DataOk(ops: seq<Op>, volumes: seq<string>) {
    && Distinct(KeysOf(ops, VolumeCreate, ResourceOf)) && Distinct(KeysOf(ops, DataRestore, ResourceOf))
    && SameKeys(KeysOf(ops, VolumeCreate, ResourceOf), volumes)
    && SameKeys(KeysOf(ops, DataRestore, ResourceOf), volumes)
    && OwnOrder(ops, VolumeCreate, DataRestore, ResourceOf)
  }

  ghost predicate IsRestoreFlow(plan: RestorePlan) {
    && Distinct(plan.EntryKeys()) && Distinct(plan.networks) && Distinct(Keys(plan.operations, IdOf))
    && exists flow: Flow :: flow.Valid(plan.networks, plan.Volumes()) && flow.Operations() == plan.operations
  }

  // The conditions as the source groups them.

  ghost const SINGLE: seq<Action> := [RunnerInstall, TargetVerifyClean, SnapshotVerify, CheckpointDataRestored, EvidenceWrite]
  ghost const REPEATED: seq<Action> := [ServiceStart, ReadinessWait]

  ghost predicate CountsOk(ops: seq<Op>) {
    && Once(ops, SINGLE) && Once(ops, VERIFICATIONS) && Once(ops, PROVISIONING)
    && AtLeastOnce(ops, REPEATED)
    && Distinct(KeysOf(ops, ServiceStart, ResourceOf))
  }

  ghost predicate NetworksOk(ops: seq<Op>, networks: seq<string>) {
    && Distinct(KeysOf(ops, NetworkCreate, ResourceOf))
    && SameKeys(KeysOf(ops, NetworkCreate, ResourceOf), networks)
  }

  predicate EndsOk(ops: seq<Op>) {
    ops != [] ==> ops[0].action == RunnerInstall && ops[|ops| - 1].action == EvidenceWrite
  }

  ghost predicate VerifiedFirst(ops: seq<Op>) {
    && Before(ops, TargetVerifyClean, SnapshotVerify)
    && Before(ops, SnapshotVerify, NetworkCreate)
    && Before(ops, NetworkCreate, VolumeCreate)
  }

  ghost predicate DataVerified(ops: seq<Op>) {
    && Before(ops, DataRestore, ManifestVerify) && Before(ops, DataRestore, IntegrityCheck)
    && Before(ops, ManifestVerify, CheckpointDataRestored) && Before(ops, IntegrityCheck, CheckpointDataRestored)
    && Before(ops, DataRestore, CheckpointDataRestored)
  }

  ghost predicate Provisioned(ops: seq<Op>) {
    && Before(ops, CheckpointDataRestored, ConfigRestore)
    && Before(ops, CheckpointDataRestored, SecretMaterialize)
    && Before(ops, CheckpointDataRestored, StateRestore)
  }

  ghost predicate StartedLast(ops: seq<Op>) {
    && Before(ops, ConfigRestore, ServiceStart) && Before(ops, SecretMaterialize, ServiceStart)
    && Before(ops, StateRestore, ServiceStart)
    && Before(ops, ServiceStart, ReadinessWait)
  }

  ghost predicate OrderOk(ops: seq<Op>) {
    EndsOk(ops) && VerifiedFirst(ops) && DataVerified(ops) && Provisioned(ops) && StartedLast(ops)
  }

  ghost predicate Accepted(plan: RestorePlan) {
    && Distinct(plan.EntryKeys()) && Distinct(plan.networks)
    && CountsOk(plan.operations) && NetworksOk(plan.operations, plan.networks)
    && DataOk(plan.operations, plan.Volumes())
    && Distinct(Keys(plan.operations, IdOf)) && OrderOk(plan.operations)
  }

  method CheckCounts(ops: seq<Op>) returns (violations: seq<string>)
    ensures violations == [] <==> CountsOk(ops)
  {
    violations := CheckOnce(ops, [RunnerInstall, TargetVerifyClean, SnapshotVerify, CheckpointDataRestored, EvidenceWrite]);
    var more := CheckOnce(ops, [ManifestVerify, IntegrityCheck]);
    violations := violations + more;
    more := CheckOnce(ops, [ConfigRestore, SecretMaterialize, StateRestore]);
    violations := violations + more;
    more := CheckSome(ops, [ServiceStart, ReadinessWait]);
    violations := violations + more;
    var twice := HasDuplicates(KeysOf(ops, ServiceStart, ResourceOf));
    if twice {
      violations := violations + ["more than one service.start targets the same unit"];
    }
  }

  method CheckNetworks(ops: seq<Op>, networks: seq<string>) returns (violations: seq<string>)
    ensures violations == [] <==> NetworksOk(ops, networks)
  {
    violations := [];
    var created := KeysOf(ops, NetworkCreate, ResourceOf);
    var twice := HasDuplicates(created);
    if twice {
      violations := violations + ["more than one network.create targets the same network"];
    }
    if !SameKeys(created, networks) {
      violations := violations + ["network.create must cover exactly the networks"];
    }
  }

  method CheckData(ops: seq<Op>, volumes: seq<string>) returns (violations: seq<string>)
    ensures violations == [] <==> DataOk(ops, volumes)
  {
    violations := [];
    var created, restored := KeysOf(ops, VolumeCreate, ResourceOf), KeysOf(ops, DataRestore, ResourceOf);
    var twice := HasDuplicates(created);
    if twice {
      violations := violations + ["more than one volume.create targets the same resource"];
    }
    twice := HasDuplicates(restored);
    if twice {
      violations := violations + ["more than one data.restore targets the same resource"];
    }
    if !SameKeys(created, volumes) {
      violations := violations + ["volume.create must cover exactly the volumes"];
    }
    if !SameKeys(restored, volumes) {
      violations := violations + ["data.restore must cover exactly the volumes"];
    }
    var late := CheckOwnOrder(ops, VolumeCreate, DataRestore, ResourceOf);
    violations := violations + late;
  }

  method CheckEnds(ops: seq<Op>) returns (violations: seq<string>)
    ensures violations == [] <==> EndsOk(ops)
  {
    violations := [];
    if |ops| > 0 {
      if ops[0].action != RunnerInstall {
        violations := violations + ["runner.install must be the first operation"];
      }
      if ops[|ops| - 1].action != EvidenceWrite {
        violations := violations + ["evidence.write must be the last operation"];
      }
    }
  }

  lemma {:induction false} CountsOkOnce(ops: seq<Op>, a: Action)
    requires CountsOk(ops) && (a in SINGLE || a in VERIFICATIONS || a in PROVISIONING)
    ensures |ByAction(ops, a)| == 1
  {
  }

  method CheckSnapshotFirst(ops: seq<Op>) returns (violations: seq<string>)
    ensures CountsOk(ops) ==>
              (violations == [] <==>
               Before(ops, TargetVerifyClean, SnapshotVerify) && Before(ops, SnapshotVerify, NetworkCreate))
  {
    violations := [];
    if CountsOk(ops) {
      CountsOkOnce(ops, TargetVerifyClean);
      CountsOkOnce(ops, SnapshotVerify);
    }
    if FirstAfterFirst(ops, TargetVerifyClean, SnapshotVerify) {
      violations := violations + ["target.verify-clean must come before snapshot.verify"];
    }
    if FirstAfterMin(ops, SnapshotVerify, NetworkCreate) {
      violations := violations + ["snapshot.verify must come before every network.create"];
    }
  }

  method CheckVerifiedFirst(ops: seq<Op>) returns (violations: seq<string>)
    ensures CountsOk(ops) ==> (violations == [] <==> VerifiedFirst(ops))
  {
    violations := CheckSnapshotFirst(ops);
    if SomeBeforeLast(ops, VolumeCreate, NetworkCreate) {
      violations := violations + ["every volume.create must come after every network.create"];
    }
  }

  method CheckCheckpoint(ops: seq<Op>) returns (violations: seq<string>)
    ensures CountsOk(ops) ==>
              (violations == [] <==>
               && Before(ops, ManifestVerify, CheckpointDataRestored)
               && Before(ops, IntegrityCheck, CheckpointDataRestored)
               && Before(ops, DataRestore, CheckpointDataRestored))
  {
    violations := [];
    if CountsOk(ops) {
      CountsOkOnce(ops, CheckpointDataRestored);
    }
    if FirstBeforeLast(ops, CheckpointDataRestored, ManifestVerify)
       || FirstBeforeLast(ops, CheckpointDataRestored, IntegrityCheck) {
      violations := violations + ["checkpoint.data-restored must come after the verifications"];
    }
    if SomeAfterFirst(ops, DataRestore, CheckpointDataRestored) {
      violations := violations + ["every data.restore must precede checkpoint.data-restored"];
    }
  }

  method CheckDataVerified(ops: seq<Op>) returns (violations: seq<string>)
    ensures CountsOk(ops) ==> (violations == [] <==> DataVerified(ops))
  {
    violations := CheckCheckpoint(ops);
    if SomeBeforeLast(ops, ManifestVerify, DataRestore) || SomeBeforeLast(ops, IntegrityCheck, DataRestore) {
      violations := violations + ["the verifications must come after every data.restore"];
    }
  }

  method CheckProvisioned(ops: seq<Op>) returns (violations: seq<string>)
    ensures CountsOk(ops) ==> (violations == [] <==> Provisioned(ops))
  {
    violations := [];
    if CountsOk(ops) {
      CountsOkOnce(ops, CheckpointDataRestored);
      CountsOkOnce(ops, ConfigRestore);
      CountsOkOnce(ops, SecretMaterialize);
      CountsOkOnce(ops, StateRestore);
    }
    if FirstAfterFirst(ops, CheckpointDataRestored, ConfigRestore) {
      violations := violations + ["config.restore must come after checkpoint.data-restored"];
    }
    if FirstAfterFirst(ops, CheckpointDataRestored, SecretMaterialize) {
      violations := violations + ["secret.materialize must come after checkpoint.data-restored"];
    }
    if FirstAfterFirst(ops, CheckpointDataRestored, StateRestore) {
      violations := violations + ["state.restore must come after checkpoint.data-restored"];
    }
  }

  method CheckStarts(ops: seq<Op>) returns (violations: seq<string>)
    ensures CountsOk(ops) ==>
              (violations == [] <==>
               && Before(ops, ConfigRestore, ServiceStart) && Before(ops, SecretMaterialize, ServiceStart)
               && Before(ops, StateRestore, ServiceStart))
  {
    violations := [];
    if CountsOk(ops) {
      CountsOkOnce(ops, ConfigRestore);
      CountsOkOnce(ops, SecretMaterialize);
      CountsOkOnce(ops, StateRestore);
    }
    if SomeBeforeFirst(ops, ServiceStart, ConfigRestore) || SomeBeforeFirst(ops, ServiceStart, SecretMaterialize)
       || SomeBeforeFirst(ops, ServiceStart, StateRestore) {
      violations := violations + ["service.start must come after config.restore/secret.materialize/state.restore"];
    }
  }

  method CheckStartedLast(ops: seq<Op>) returns (violations: seq<string>)
    ensures CountsOk(ops) ==> (violations == [] <==> StartedLast(ops))
  {
    violations := CheckStarts(ops);
    if SomeBeforeLast(ops, ReadinessWait, ServiceStart) {
      violations := violations + ["readiness.wait must come after every service.start"];
    }
  }

  method CheckOrder(ops: seq<Op>) returns (violations: seq<string>)
    ensures CountsOk(ops) ==> (violations == [] <==> OrderOk(ops))
  {
    violations := CheckEnds(ops);
    var more := CheckVerifiedFirst(ops);
    violations := violations + more;
    more := CheckDataVerified(ops);
    violations := violations + more;
    more := CheckProvisioned(ops);
    violations := violations + more;
    more := CheckStartedLast(ops);
    violations := violations + more;
  }

  // From the conditions to the order of the ranks.

  lemma VolumesExist(plan: RestorePlan)
    requires SchemaValid(plan) && DataOk(plan.operations, plan.Volumes())
    ensures Has(plan.operations, VolumeCreate)
  {
    var ops, volume := plan.operations, plan.Volumes()[0];
    SameKeysMembers(KeysOf(ops, VolumeCreate, ResourceOf), plan.Volumes());
    assert volume in plan.Volumes();
    KeysOfMembers(ops, VolumeCreate, ResourceOf, volume);
  }

  lemma NetworksExist(plan: RestorePlan)
    requires SchemaValid(plan) && NetworksOk(plan.operations, plan.networks)
    ensures Has(plan.operations, NetworkCreate)
  {
    var ops := plan.operations;
    SameKeysMembers(KeysOf(ops, NetworkCreate, ResourceOf), plan.networks);
    assert plan.networks[0] in plan.networks;
    KeysOfMembers(ops, NetworkCreate, ResourceOf, plan.networks[0]);
  }

  /** The restore of a volume and its creation, found from either of them. */
  lemma Counterpart(ops: seq<Op>, volumes: seq<string>, from: Action, to: Action, i: nat) returns (j: nat)
    requires DataOk(ops, volumes) && (from, to) in {(VolumeCreate, DataRestore), (DataRestore, VolumeCreate)}
    requires i < |ops| && ops[i].action == from
    ensures j < |ops| && ops[j].action == to && ops[j].resource == ops[i].resource
    ensures from == VolumeCreate ==> i < j
    ensures from == DataRestore ==> j < i
  {
    var volume := ResourceOf(ops[i]);
    KeysOfMembers(ops, from, ResourceOf, volume);
    SameKeysMembers(KeysOf(ops, from, ResourceOf), volumes);
    SameKeysMembers(KeysOf(ops, to, ResourceOf), volumes);
    KeysOfMembers(ops, to, ResourceOf, volume);
    var k :| 0 <= k < |ops| && ops[k].action == to && ResourceOf(ops[k]) == volume;
    j := k;
  }

  lemma DataAfterNetworks(ops: seq<Op>, volumes: seq<string>)
    requires DataOk(ops, volumes) && VerifiedFirst(ops)
    ensures Before(ops, NetworkCreate, DataRestore)
  {
    forall i: nat, j: nat | i < |ops| && j < |ops| && ops[i].action == NetworkCreate && ops[j].action == DataRestore
      ensures i < j
    {
      var k := Counterpart(ops, volumes, DataRestore, VolumeCreate, j);
    }
  }

  lemma VolumesBeforeVerification(ops: seq<Op>, volumes: seq<string>, a: Action)
    requires DataOk(ops, volumes) && DataVerified(ops) && (a == ManifestVerify || a == IntegrityCheck)
    ensures Before(ops, VolumeCreate, a)
  {
    forall i: nat, j: nat | i < |ops| && j < |ops| && ops[i].action == VolumeCreate && ops[j].action == a
      ensures i < j
    {
      var k := Counterpart(ops, volumes, VolumeCreate, DataRestore, i);
    }
  }

  lemma EdgeBefore(ops: seq<Op>, a: Action, b: Action)
    requires ops != [] && CountsOk(ops) && EndsOk(ops) && Rank(a) < Rank(b) && (Rank(a) == 0 || Rank(b) == 10)
    ensures Before(ops, a, b)
  {
    if Rank(a) == 0 {
      assert a == RunnerInstall;
      CountsOkOnce(ops, a);
      FirstIsOnly(ops, a, b);
    } else {
      assert b == EvidenceWrite;
      CountsOkOnce(ops, b);
      LastIsOnly(ops, b, a);
    }
  }

  lemma MiddleBefore(ops: seq<Op>, a: Action, b: Action)
    requires VerifiedFirst(ops) && DataVerified(ops) && Before(ops, NetworkCreate, DataRestore)
    requires Before(ops, VolumeCreate, ManifestVerify) && Before(ops, VolumeCreate, IntegrityCheck)
    requires Rank(a) + 1 == Rank(b) && 1 <= Rank(a) <= 5
    ensures Before(ops, a, b)
  {
  }

  lemma LateBefore(ops: seq<Op>, a: Action, b: Action)
    requires Provisioned(ops) && StartedLast(ops) && Rank(a) + 1 == Rank(b) && 6 <= Rank(a) <= 8
    ensures Before(ops, a, b)
  {
  }

  lemma NextBefore(plan: RestorePlan, a: Action, b: Action)
    requires SchemaValid(plan) && plan.operations != [] && Accepted(plan) && Rank(a) + 1 == Rank(b) < 11
    ensures Before(plan.operations, a, b)
  {
    var ops := plan.operations;
    if Rank(a) == 0 || Rank(b) == 10 {
      EdgeBefore(ops, a, b);
    } else if Rank(a) <= 5 {
      DataAfterNetworks(ops, plan.Volumes());
      VolumesBeforeVerification(ops, plan.Volumes(), ManifestVerify);
      VolumesBeforeVerification(ops, plan.Volumes(), IntegrityCheck);
      MiddleBefore(ops, a, b);
    } else {
      LateBefore(ops, a, b);
    }
  }

  lemma CountMet(ops: seq<Op>, a: Action)
    requires CountsOk(ops) && (a in SINGLE || a in VERIFICATIONS || a in PROVISIONING || a in REPEATED)
    ensures Met(ops, Rank, Rank(a))
  {
    assert ByAction(ops, a) != [];
    MetBy(ops, Rank, a);
  }

  lemma AllMet(plan: RestorePlan)
    requires SchemaValid(plan) && Accepted(plan)
    ensures forall k :: 0 <= k < 11 ==> Met(plan.operations, Rank, k)
  {
    NetworksMet(plan);
    VolumesMet(plan);
    CountsMet(plan.operations);
  }

  lemma CountsMet(ops: seq<Op>)
    requires CountsOk(ops)
    ensures forall k :: 0 <= k < 11 && k != 3 && k != 4 ==> Met(ops, Rank, k)
  {
    forall k | 0 <= k < 11 && k != 3 && k != 4 ensures Met(ops, Rank, k) {
      var a := match k
        case 0 => RunnerInstall
        case 1 => TargetVerifyClean
        case 2 => SnapshotVerify
        case 5 => ManifestVerify
        case 6 => CheckpointDataRestored
        case 7 => ConfigRestore
        case 8 => ServiceStart
        case 9 => ReadinessWait
        case _ => EvidenceWrite;
      CountMet(ops, a);
    }
  }

  lemma NetworksMet(plan: RestorePlan)
    requires SchemaValid(plan) && NetworksOk(plan.operations, plan.networks)
    ensures Met(plan.operations, Rank, 3)
  {
    NetworksExist(plan);
    assert Rank(NetworkCreate) == 3;
  }

  lemma VolumesMet(plan: RestorePlan)
    requires SchemaValid(plan) && DataOk(plan.operations, plan.Volumes())
    ensures Met(plan.operations, Rank, 4)
  {
    VolumesExist(plan);
    assert Rank(VolumeCreate) == 4;
  }

  lemma AcceptedRanked(plan: RestorePlan)
    requires SchemaValid(plan) && plan.operations != [] && Accepted(plan)
    ensures Ranked(plan.operations, Rank) && RanksWithin(plan.operations, Rank, 0, 11)
  {
    var ops := plan.operations;
    AllMet(plan);
    forall a, b | Rank(a) + 1 == Rank(b) < 11 ensures Before(ops, a, b) {
      NextBefore(plan, a, b);
    }
    ChainedIsRanked(ops, Rank, 11);
  }
}
