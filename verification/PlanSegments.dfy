/** Which operations each group of a plan holds, and where they stand. */
module PlanSegments {
  import opened Catalog
  import opened PlanTypes
  import opened PlanOperations

  lemma {:induction false} InVolumes(volumes: seq<string>, step: Step)
    ensures step in VolumeSteps(volumes) ==> step.VolumeEnsure?
  {
    if volumes != [] {
      InVolumes(volumes[..|volumes| - 1], step);
    }
  }

  lemma {:induction false} InNetworks(networks: seq<string>, step: Step)
    ensures step in NetworkSteps(networks) ==>
              step.NetworkEnsure? && (step.isolated <==> step.network == "hof-wachter-internal")
  {
    if networks != [] {
      InNetworks(networks[..|networks| - 1], step);
    }
  }

  lemma {:induction false} InImages(entries: seq<Entry>, step: Step)
    ensures step in ImageSteps(entries) ==>
              (step.ImageVerify? || step.ImagePull?) && exists e :: e in entries && e.unit == step.unit && e.imageChanged
  {
    if entries != [] {
      InImages(entries[..|entries| - 1], step);
    }
  }

  lemma {:induction false} InStops(entries: seq<Entry>, step: Step)
    ensures step in StopSteps(entries) ==> step.ServiceStop? && (step.service, step.unit) in KeysOf(entries)
  {
    if entries != [] {
      InStops(entries[..|entries| - 1], step);
      KeysOfLast(entries);
    }
  }

  lemma {:induction false} InRemoves(entries: seq<Entry>, step: Step)
    ensures step in RemoveSteps(entries) ==> step.ServiceRemove? && (step.service, step.unit) in KeysOf(entries)
  {
    if entries != [] {
      InRemoves(entries[..|entries| - 1], step);
      KeysOfLast(entries);
    }
  }

  lemma {:induction false} InMigrations(desired: Desired, services: seq<Service>, step: Step)
    requires Migratable(desired, services)
    ensures step in MigrateSteps(desired, services) ==>
              exists service :: service in services && step == MigrateStep(desired, service)
  {
    if services != [] {
      InMigrations(desired, services[..|services| - 1], step);
    }
  }

  lemma {:induction false} InStarts(entries: seq<Entry>, step: Step)
    ensures step in StartSteps(entries) ==>
              step.ServiceStart? ||
              (step.ReadinessWait? && step.condition == if step.unit == "gateway" then "running" else "healthy")
  {
    if entries != [] {
      InStarts(entries[..|entries| - 1], step);
    }
  }

  /** The places of the start and the readiness wait of the i-th started unit. */
  lemma {:induction false} StartAt(entries: seq<Entry>, i: nat)
    requires i < |entries|
    ensures |StartSteps(entries)| == 2 * |entries|
    ensures StartSteps(entries)[2 * i] == ServiceStart(entries[i].service, entries[i].unit, entries[i].image)
    ensures StartSteps(entries)[2 * i + 1] == ReadinessWait(entries[i].service, entries[i].unit, Condition(entries[i].unit))
    ensures StartSteps(entries)[..2 * i] == StartSteps(entries[..i])
  {
    var n := |entries| - 1;
    StartsLength(entries[..n]);
    if i < n {
      StartAt(entries[..n], i);
      assert entries[..n][..i] == entries[..i];
    }
  }

  lemma {:induction false} StartsLength(entries: seq<Entry>)
    ensures |StartSteps(entries)| == 2 * |entries|
  {
    if entries != [] {
      StartsLength(entries[..|entries| - 1]);
    }
  }

  /** What stands before the first write. */
  lemma InPreparation(input: Input, draft: Draft, step: Step)
    requires step in Preparation(input, draft)
    ensures step.SecretEnsure? || step.VolumeEnsure? || step.NetworkEnsure? || step.ImageVerify? || step.ImagePull?
            || (step.HostPrepare? && input.baseline.mode == Bootstrap)
            || (step.ServiceStop? && (step.service, step.unit) in KeysOf(draft.update) + KeysOf(draft.remove))
  {
    InVolumes(draft.newVolumes, step);
    InNetworks(draft.networks, step);
    InImages(draft.create + draft.update, step);
    InStops(draft.update, step);
    InStops(draft.remove, step);
  }

  /** What stands before the migrations. */
  ghost function BeforeMigrations(input: Input, draft: Draft): seq<Step> {
    Preparation(input, draft) + WhenChanged(input, draft, ConfigWrite) + RemoveSteps(draft.remove)
  }

  /** What stands before the first start. */
  ghost function BeforeStarts(input: Input, draft: Draft): seq<Step>
    requires Migratable(input.desired, draft.needing)
  {
    BeforeMigrations(input, draft) + MigrateSteps(input.desired, draft.needing)
  }

  lemma InBeforeMigrations(input: Input, draft: Draft, step: Step)
    requires step in BeforeMigrations(input, draft)
    ensures !step.DatabaseMigrate? && !step.ServiceStart? && !step.ReadinessWait? && !step.StateCommit?
  {
    if step in Preparation(input, draft) {
      InPreparation(input, draft, step);
    }
    InRemoves(draft.remove, step);
  }

  lemma InMigrationsOnly(input: Input, draft: Draft, step: Step)
    requires Migratable(input.desired, draft.needing) && step in MigrateSteps(input.desired, draft.needing)
    ensures step.DatabaseMigrate?
  {
    InMigrations(input.desired, draft.needing, step);
  }

  /** A readiness wait is that of some started unit, and stands right after its start. */
  lemma WaitPlace(input: Input, draft: Draft, k: nat) returns (i: nat)
    requires Migratable(input.desired, draft.needing) && k < |Steps(input, draft)| && Steps(input, draft)[k].ReadinessWait?
    ensures i < |draft.starts| && k == |BeforeStarts(input, draft)| + 2 * i + 1
    ensures Steps(input, draft)[k].service == draft.starts[i].service && Steps(input, draft)[k].unit == draft.starts[i].unit
    ensures Steps(input, draft)[..k] ==
            BeforeStarts(input, draft) + StartSteps(draft.starts[..i])
            + [ServiceStart(draft.starts[i].service, draft.starts[i].unit, draft.starts[i].image)]
  {
    var pre := BeforeStarts(input, draft);
    NotInBeforeStarts(input, draft, k);
    i := WaitAt(draft.starts, k - |pre|);
    Within(pre, StartSteps(draft.starts), WhenChanged(input, draft, StateCommit), k - |pre|);
  }

  /** Starts and waits take turns, one pair for each started unit. */
  lemma StartedPlace(input: Input, draft: Draft, k: nat) returns (i: nat)
    requires Migratable(input.desired, draft.needing) && k < |Steps(input, draft)|
    requires Steps(input, draft)[k].ReadinessWait? || Steps(input, draft)[k].ServiceStart?
    ensures i < |draft.starts|
    ensures k == |BeforeStarts(input, draft)| + 2 * i + if Steps(input, draft)[k].ServiceStart? then 0 else 1
    ensures Steps(input, draft)[k].service == draft.starts[i].service && Steps(input, draft)[k].unit == draft.starts[i].unit
  {
    NotInBeforeStarts(input, draft, k);
    i := TurnOf(draft.starts, k - |BeforeStarts(input, draft)|);
  }

  lemma TurnOf(entries: seq<Entry>, j: nat) returns (i: nat)
    requires j < |StartSteps(entries)|
    ensures i < |entries| && (StartSteps(entries)[j].ServiceStart? || StartSteps(entries)[j].ReadinessWait?)
    ensures j == 2 * i + if StartSteps(entries)[j].ServiceStart? then 0 else 1
    ensures StartSteps(entries)[j].service == entries[i].service && StartSteps(entries)[j].unit == entries[i].unit
  {
    StartsLength(entries);
    i := j / 2;
    StartAt(entries, i);
    assert j == 2 * i || j == 2 * i + 1;
  }

  /** The wait of the i-th started unit. */
  lemma WaitStands(input: Input, draft: Draft, i: nat)
    requires Migratable(input.desired, draft.needing) && i < |draft.starts|
    ensures |BeforeStarts(input, draft)| + 2 * i + 1 < |Steps(input, draft)|
    ensures Steps(input, draft)[|BeforeStarts(input, draft)| + 2 * i + 1] ==
            ReadinessWait(draft.starts[i].service, draft.starts[i].unit, Condition(draft.starts[i].unit))
  {
    StartAt(draft.starts, i);
    StartsLength(draft.starts);
    var pre, starts := BeforeStarts(input, draft), StartSteps(draft.starts);
    Within(pre, starts, WhenChanged(input, draft, StateCommit), 2 * i + 1);
  }

  lemma WaitAt(entries: seq<Entry>, j: nat) returns (i: nat)
    requires j < |StartSteps(entries)| && StartSteps(entries)[j].ReadinessWait?
    ensures i < |entries| && j == 2 * i + 1
    ensures StartSteps(entries)[j].service == entries[i].service && StartSteps(entries)[j].unit == entries[i].unit
    ensures StartSteps(entries)[..j] ==
            StartSteps(entries[..i]) + [ServiceStart(entries[i].service, entries[i].unit, entries[i].image)]
  {
    StartsLength(entries);
    i := j / 2;
    StartAt(entries, i);
    assert j == 2 * i || j == 2 * i + 1;
    assert StartSteps(entries)[..2 * i + 1] == StartSteps(entries)[..2 * i] + [StartSteps(entries)[2 * i]];
  }

  lemma NotInBeforeStarts(input: Input, draft: Draft, k: nat)
    requires Migratable(input.desired, draft.needing) && k < |Steps(input, draft)|
    requires Steps(input, draft)[k].ReadinessWait? || Steps(input, draft)[k].ServiceStart?
    ensures |BeforeStarts(input, draft)| <= k < |BeforeStarts(input, draft)| + |StartSteps(draft.starts)|
    ensures Steps(input, draft)[k] == StartSteps(draft.starts)[k - |BeforeStarts(input, draft)|]
  {
    var step := Steps(input, draft)[k];
    if k < |BeforeStarts(input, draft)| {
      assert step in BeforeStarts(input, draft);
      if step in BeforeMigrations(input, draft) {
        InBeforeMigrations(input, draft, step);
      } else {
        InMigrationsOnly(input, draft, step);
      }
    }
  }

  /** A migration stands between the removals and the starts. */
  lemma MigrationPlace(input: Input, draft: Draft, k: nat) returns (i: nat)
    requires Migratable(input.desired, draft.needing) && k < |Steps(input, draft)| && Steps(input, draft)[k].DatabaseMigrate?
    ensures i < |draft.needing| && k == |BeforeMigrations(input, draft)| + i
    ensures Steps(input, draft)[k] == MigrateStep(input.desired, draft.needing[i])
    ensures Steps(input, draft)[..k] == BeforeMigrations(input, draft) + MigrateSteps(input.desired, draft.needing[..i])
  {
    MigrationsLength(input.desired, draft.needing);
    MigrationInMiddle(input, draft, k);
    i := k - |BeforeMigrations(input, draft)|;
    MigrationStands(input, draft, i);
  }

  lemma MigrationStands(input: Input, draft: Draft, i: nat)
    requires Migratable(input.desired, draft.needing) && i < |draft.needing|
    ensures |BeforeMigrations(input, draft)| + i < |Steps(input, draft)|
    ensures Steps(input, draft)[|BeforeMigrations(input, draft)| + i] == MigrateStep(input.desired, draft.needing[i])
    ensures Steps(input, draft)[..|BeforeMigrations(input, draft)| + i] ==
            BeforeMigrations(input, draft) + MigrateSteps(input.desired, draft.needing[..i])
  {
    var pre, migrations := BeforeMigrations(input, draft), MigrateSteps(input.desired, draft.needing);
    MigrationAt(input.desired, draft.needing, i);
    Within(pre, migrations, StartSteps(draft.starts) + WhenChanged(input, draft, StateCommit), i);
    StepsFromMigrations(input, draft);
  }

  lemma StepsFromMigrations(input: Input, draft: Draft)
    requires Migratable(input.desired, draft.needing)
    ensures Steps(input, draft) ==
            BeforeMigrations(input, draft) + MigrateSteps(input.desired, draft.needing)
            + (StartSteps(draft.starts) + WhenChanged(input, draft, StateCommit))
  {
  }

  lemma Within(a: seq<Step>, b: seq<Step>, c: seq<Step>, j: nat)
    requires j < |b|
    ensures (a + b + c)[..|a| + j] == a + b[..j] && (a + b + c)[|a| + j] == b[j]
  {
  }

  lemma MigrationInMiddle(input: Input, draft: Draft, k: nat)
    requires Migratable(input.desired, draft.needing) && k < |Steps(input, draft)| && Steps(input, draft)[k].DatabaseMigrate?
    ensures |BeforeMigrations(input, draft)| <= k < |BeforeMigrations(input, draft)| + |MigrateSteps(input.desired, draft.needing)|
  {
    var step := Steps(input, draft)[k];
    if k < |BeforeMigrations(input, draft)| {
      assert step in BeforeMigrations(input, draft);
      InBeforeMigrations(input, draft, step);
    } else if k >= |BeforeStarts(input, draft)| {
      assert step in StartSteps(draft.starts) || step == StateCommit;
      InStarts(draft.starts, step);
    }
  }

  lemma {:induction false} MigrationsLength(desired: Desired, services: seq<Service>)
    requires Migratable(desired, services)
    ensures |MigrateSteps(desired, services)| == |services|
  {
    if services != [] {
      MigrationsLength(desired, services[..|services| - 1]);
    }
  }

  lemma {:induction false} MigrationAt(desired: Desired, services: seq<Service>, i: nat)
    requires Migratable(desired, services) && i < |services|
    ensures |MigrateSteps(desired, services)| == |services|
    ensures MigrateSteps(desired, services)[i] == MigrateStep(desired, services[i])
    ensures MigrateSteps(desired, services)[..i] == MigrateSteps(desired, services[..i])
  {
    var n := |services| - 1;
    MigrationsLength(desired, services);
    MigrationsLength(desired, services[..n]);
    if i < n {
      MigrationAt(desired, services[..n], i);
      assert services[..n][..i] == services[..i];
    }
  }
}
