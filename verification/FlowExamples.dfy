/** A backup plan and a restore plan that the validators accept: what they ask for can be met. */
module FlowExamples {
  import opened FlowOps
  import opened FlowLaws
  import BackupFlow
  import BackupShape
  import RestoreFlow
  import RestoreShape

  const ENTRY := SetEntry("schlussel", "schlussel", "data", false)

  function Named(i: nat): string
    requires i < 26
  {
    ['a' + i as char]
  }

  function BackupAction(i: nat): Action {
    match i
    case 0 => MaintenanceEnter
    case 1 => ServiceStop
    case 2 => StagingBuild
    case 3 => SnapshotCreate
    case 4 => RetentionApply
    case 5 => ServiceStart
    case 6 => ReadinessWait
    case 7 => MaintenanceExit
    case _ => EvidenceWrite
  }

  function BackupTurn(a: Action): nat {
    match a
    case MaintenanceEnter => 0
    case ServiceStop => 1
    case StagingBuild => 2
    case SnapshotCreate => 3
    case RetentionApply => 4
    case ServiceStart => 5
    case ReadinessWait => 6
    case MaintenanceExit => 7
    case EvidenceWrite => 8
    case _ => 9
  }

  const BACKUP := BackupFlow.BackupPlan(true, ["east"], [ENTRY],
    seq(9, i requires 0 <= i < 9 => Op(Named(i), BackupAction(i), "schlussel", "east")))

  function RestoreAction(i: nat): Action {
    match i
    case 0 => RunnerInstall
    case 1 => TargetVerifyClean
    case 2 => SnapshotVerify
    case 3 => NetworkCreate
    case 4 => VolumeCreate
    case 5 => DataRestore
    case 6 => IntegrityCheck
    case 7 => ManifestVerify
    case 8 => CheckpointDataRestored
    case 9 => StateRestore
    case 10 => SecretMaterialize
    case 11 => ConfigRestore
    case 12 => ServiceStart
    case 13 => ReadinessWait
    case _ => EvidenceWrite
  }

  function RestoreTurn(a: Action): nat {
    match a
    case RunnerInstall => 0
    case TargetVerifyClean => 1
    case SnapshotVerify => 2
    case NetworkCreate => 3
    case VolumeCreate => 4
    case DataRestore => 5
    case IntegrityCheck => 6
    case ManifestVerify => 7
    case CheckpointDataRestored => 8
    case StateRestore => 9
    case SecretMaterialize => 10
    case ConfigRestore => 11
    case ServiceStart => 12
    case ReadinessWait => 13
    case EvidenceWrite => 14
    case _ => 15
  }

  const RESTORE := RestoreFlow.RestorePlan(true, [ENTRY], ["net"],
    seq(15, i requires 0 <= i < 15 => Op(Named(i), RestoreAction(i), if i == 3 then "net" else "data", "")))

  /** In both plans every action has its turn, and only one. */
  ghost predicate TurnByTurn(ops: seq<Op>, turn: Action -> nat) {
    forall i :: 0 <= i < |ops| ==> turn(ops[i].action) == i && ops[i].id == Named(i % 26)
  }

  lemma OnlyAtTurn(ops: seq<Op>, turn: Action -> nat, a: Action)
    requires TurnByTurn(ops, turn) && turn(a) < |ops| && ops[turn(a)].action == a
    ensures OnlyAt(ops, a, turn(a)) && OnlyOne(ops, a) && Has(ops, a)
  {
    assert OnlyAt(ops, a, turn(a));
  }

  lemma IdsByTurn(ops: seq<Op>, turn: Action -> nat)
    requires TurnByTurn(ops, turn) && |ops| <= 26
    ensures IdsDiffer(ops)
  {
    forall i, j | 0 <= i < j < |ops| ensures ops[i].id != ops[j].id {
      assert Named(i)[0] != Named(j)[0];
    }
  }

  lemma RisingRanks(ops: seq<Op>, rank: Action -> nat)
    requires forall i :: 0 <= i < |ops| - 1 ==> rank(ops[i].action) <= rank(ops[i + 1].action)
    ensures Ranked(ops, rank)
  {
    forall i, j | 0 <= i < j < |ops| ensures rank(ops[i].action) <= rank(ops[j].action) {
      RisesTo(ops, rank, i, j);
    }
  }

  lemma {:induction false} RisesTo(ops: seq<Op>, rank: Action -> nat, i: nat, j: nat)
    requires forall i :: 0 <= i < |ops| - 1 ==> rank(ops[i].action) <= rank(ops[i + 1].action)
    requires i <= j < |ops|
    ensures rank(ops[i].action) <= rank(ops[j].action)
    decreases j
  {
    if i < j {
      RisesTo(ops, rank, i, j - 1);
    }
  }

  lemma BackupTurns()
    ensures TurnByTurn(BACKUP.operations, BackupTurn)
    ensures forall i :: 0 <= i < 9 ==> BACKUP.operations[i].action == BackupAction(i)
  {
  }

  lemma BackupCounts()
    ensures BackupShape.CountsLawful(BACKUP.operations)
  {
    var ops := BACKUP.operations;
    BackupTurns();
    OnlyAtTurn(ops, BackupTurn, MaintenanceEnter);
    OnlyAtTurn(ops, BackupTurn, MaintenanceExit);
    OnlyAtTurn(ops, BackupTurn, StagingBuild);
    OnlyAtTurn(ops, BackupTurn, EvidenceWrite);
    OnlyAtTurn(ops, BackupTurn, ServiceStop);
    OnlyAtTurn(ops, BackupTurn, ServiceStart);
    OnlyAtTurn(ops, BackupTurn, ReadinessWait);
  }

  lemma BackupTransfers()
    ensures BackupShape.TransfersLawful(BACKUP.operations, BACKUP.destinations)
    ensures BackupShape.UnitsLawful(BACKUP.operations)
  {
    var ops := BACKUP.operations;
    BackupTurns();
    OnlyAtTurn(ops, BackupTurn, SnapshotCreate);
    OnlyAtTurn(ops, BackupTurn, RetentionApply);
    OnlyAtTurn(ops, BackupTurn, ServiceStop);
    OnlyAtTurn(ops, BackupTurn, ServiceStart);
    assert ops[3].destination == ops[4].destination == "east" && ops[1].resource == ops[5].resource;
  }

  lemma BackupRanksRise()
    ensures forall i :: 0 <= i < 8 ==> BackupFlow.Rank(BackupAction(i)) <= BackupFlow.Rank(BackupAction(i + 1))
  {
  }

  lemma BackupOrder()
    ensures BackupFlow.OrderOk(BACKUP.operations)
  {
    BackupTurns();
    BackupRanksRise();
    RisingRanks(BACKUP.operations, BackupFlow.Rank);
    BackupShape.RankedInOrder(BACKUP.operations);
  }

  lemma BackupSchema()
    ensures BackupFlow.SchemaValid(BACKUP) && IdsDiffer(BACKUP.operations)
  {
    BackupTurns();
    IdsByTurn(BACKUP.operations, BackupTurn);
    forall op | op in BACKUP.operations ensures BackupFlow.BackupAction(op.action) {
      var i :| 0 <= i < 9 && BACKUP.operations[i] == op;
    }
  }

  /** The backup plan is accepted, and so the conditions can be met together. */
  lemma BackupIsAccepted()
    ensures BackupFlow.SchemaValid(BACKUP) && BackupFlow.IsBackupFlow(BACKUP)
  {
    BackupCounts();
    BackupTransfers();
    BackupOrder();
    BackupSchema();
    BackupShape.LawfulExactly(BACKUP);
    BackupShape.AcceptedIsFlow(BACKUP);
  }

  lemma RestoreTurns()
    ensures TurnByTurn(RESTORE.operations, RestoreTurn)
    ensures forall i :: 0 <= i < 15 ==> RESTORE.operations[i].action == RestoreAction(i)
  {
  }

  lemma RestoreCounts()
    ensures RestoreShape.CountsLawful(RESTORE.operations)
  {
    var ops := RESTORE.operations;
    RestoreTurns();
    OnlyAtTurn(ops, RestoreTurn, RunnerInstall);
    OnlyAtTurn(ops, RestoreTurn, TargetVerifyClean);
    OnlyAtTurn(ops, RestoreTurn, SnapshotVerify);
    OnlyAtTurn(ops, RestoreTurn, ManifestVerify);
    OnlyAtTurn(ops, RestoreTurn, IntegrityCheck);
    OnlyAtTurn(ops, RestoreTurn, CheckpointDataRestored);
    OnlyAtTurn(ops, RestoreTurn, ConfigRestore);
    OnlyAtTurn(ops, RestoreTurn, SecretMaterialize);
    OnlyAtTurn(ops, RestoreTurn, StateRestore);
    OnlyAtTurn(ops, RestoreTurn, EvidenceWrite);
    OnlyAtTurn(ops, RestoreTurn, ServiceStart);
    OnlyAtTurn(ops, RestoreTurn, ReadinessWait);
  }

  lemma RestoreData()
    ensures RestoreShape.DataLawful(RESTORE.operations, RESTORE.Volumes())
    ensures EachResourceOnce(RESTORE.operations, NetworkCreate, RESTORE.networks)
  {
    var ops := RESTORE.operations;
    RestoreTurns();
    OnlyAtTurn(ops, RestoreTurn, NetworkCreate);
    OnlyAtTurn(ops, RestoreTurn, VolumeCreate);
    OnlyAtTurn(ops, RestoreTurn, DataRestore);
    assert RESTORE.Volumes() == ["data"];
    assert ops[3].resource == "net" && ops[4].resource == ops[5].resource == "data";
  }

  lemma RestoreRanksRise()
    ensures forall i :: 0 <= i < 14 ==> RestoreFlow.Rank(RestoreAction(i)) <= RestoreFlow.Rank(RestoreAction(i + 1))
  {
  }

  lemma RestoreOrder()
    ensures RestoreFlow.OrderOk(RESTORE.operations)
  {
    RestoreTurns();
    RestoreRanksRise();
    RisingRanks(RESTORE.operations, RestoreFlow.Rank);
    RestoreShape.RankedUpToCheckpoint(RESTORE.operations);
    RestoreShape.RankedFromCheckpoint(RESTORE.operations);
  }

  lemma RestoreSchema()
    ensures RestoreFlow.SchemaValid(RESTORE) && IdsDiffer(RESTORE.operations)
  {
    RestoreTurns();
    IdsByTurn(RESTORE.operations, RestoreTurn);
    forall i | 0 <= i < 15 ensures RestoreFlow.RestoreAction(RESTORE.operations[i].action) {
    }
  }

  /** And so is the restore plan. */
  lemma RestoreIsAccepted()
    ensures RestoreFlow.SchemaValid(RESTORE) && RestoreFlow.IsRestoreFlow(RESTORE)
  {
    RestoreCounts();
    RestoreData();
    RestoreOrder();
    RestoreSchema();
    RestoreShape.LawfulExactly(RESTORE);
    RestoreShape.AcceptedIsFlow(RESTORE);
  }
}
