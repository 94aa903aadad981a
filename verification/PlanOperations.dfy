/** The operations a plan is made of, in the order buildOperations emits them (scripts/plan.mjs). */
module PlanOperations {
  import opened Sequences
  import opened Catalog
  import opened PlanTypes
  import opened PlanDrift
  import opened StepIds

  /** `BackupCreate` is part of the plan's vocabulary, but this planner never emits it. */
  datatype Step =
    | HostPrepare
    | SecretEnsure(secrets: set<string>)
    | VolumeEnsure(volume: string)
    | NetworkEnsure(network: string, isolated: bool)
    | ImageVerify(service: string, unit: string, image: string)
    | ImagePull(service: string, unit: string, image: string)
    | ServiceStop(service: string, unit: string)
    | ConfigWrite
    | ServiceRemove(service: string, unit: string)
    | DatabaseMigrate(service: string, component: string, volume: string, from: int, to: int)
    | ServiceStart(service: string, unit: string, image: string)
    | ReadinessWait(service: string, unit: string, condition: string)
    | StateCommit
    | BackupCreate(volume: string)

  datatype Operation = Operation(id: string, step: Step)

  const WACHTER_INTERNAL := "hof-wachter-internal"

  ghost function Name(step: Step): string {
    match step
    case HostPrepare => "host.prepare"
    case SecretEnsure(_) => "secret.ensure"
    case VolumeEnsure(volume) => "volume.ensure." + volume
    case NetworkEnsure(network, _) => "network.ensure." + network
    case ImageVerify(service, unit, _) => "image.verify." + service + "." + unit
    case ImagePull(service, unit, _) => "image.pull." + service + "." + unit
    case ServiceStop(service, unit) => "service.stop." + service + "." + unit
    case ConfigWrite => "config.write"
    case ServiceRemove(service, unit) => "service.remove." + service + "." + unit
    case DatabaseMigrate(service, _, _, _, _) => "database.migrate." + service
    case ServiceStart(service, unit, _) => "service.start." + service + "." + unit
    case ReadinessWait(service, unit, _) => "readiness.wait." + service + "." + unit
    case StateCommit => "state.commit"
    case BackupCreate(volume) => "backup.create." + volume
  }

  /** The operations with their running numbers, from 1. */
  ghost function Numbered(steps: seq<Step>): seq<Operation> {
    seq(|steps|, i requires 0 <= i < |steps| => Operation(Id(i + 1, Name(steps[i])), steps[i]))
  }

  // What each group of operations is.

  ghost function VolumeSteps(volumes: seq<string>): seq<Step> {
    if volumes == [] then []
    else VolumeSteps(volumes[..|volumes| - 1]) + [VolumeEnsure(volumes[|volumes| - 1])]
  }

  ghost function NetworkSteps(networks: seq<string>): seq<Step> {
    if networks == [] then []
    else
      var last := networks[|networks| - 1];
      NetworkSteps(networks[..|networks| - 1]) + [NetworkEnsure(last, last == "hof-wachter-internal")]
  }

  ghost function ImageSteps(entries: seq<Entry>): seq<Step> {
    if entries == [] then []
    else
      var e := entries[|entries| - 1];
      ImageSteps(entries[..|entries| - 1])
      + if e.imageChanged then [ImageVerify(e.service, e.unit, e.image), ImagePull(e.service, e.unit, e.image)] else []
  }

  ghost function StopSteps(entries: seq<Entry>): seq<Step> {
    if entries == [] then []
    else
      var e := entries[|entries| - 1];
      StopSteps(entries[..|entries| - 1]) + [ServiceStop(e.service, e.unit)]
  }

  ghost function RemoveSteps(entries: seq<Entry>): seq<Step> {
    if entries == [] then []
    else
      var e := entries[|entries| - 1];
      RemoveSteps(entries[..|entries| - 1]) + [ServiceRemove(e.service, e.unit)]
  }

  ghost function MigrateStep(desired: Desired, service: Service): Step
    requires service.database.Some? && service.id in desired.schemas
  {
    var schema := desired.schemas[service.id];
    DatabaseMigrate(service.id, service.database.value.component, service.database.value.volume, schema.from, schema.to)
  }

  ghost predicate Migratable(desired: Desired, services: seq<Service>) {
    forall service :: service in services ==> service.database.Some? && service.id in desired.schemas
  }

  ghost function MigrateSteps(desired: Desired, services: seq<Service>): seq<Step>
    requires Migratable(desired, services)
  {
    if services == [] then []
    else MigrateSteps(desired, services[..|services| - 1]) + [MigrateStep(desired, services[|services| - 1])]
  }

  /** The gateway has no health check, so it can only be waited for to run. */
  ghost function Condition(unit: string): string {
    if unit == "gateway" then "running" else "healthy"
  }

  ghost function StartSteps(entries: seq<Entry>): seq<Step> {
    if entries == [] then []
    else
      var e := entries[|entries| - 1];
      StartSteps(entries[..|entries| - 1])
      + [ServiceStart(e.service, e.unit, e.image), ReadinessWait(e.service, e.unit, Condition(e.unit))]
  }

  lemma StartStepsSnoc(entries: seq<Entry>, i: nat)
    requires i < |entries|
    ensures var e := entries[i];
            StartSteps(entries[..i + 1]) ==
            StartSteps(entries[..i]) + [ServiceStart(e.service, e.unit, e.image)]
            + [ReadinessWait(e.service, e.unit, Condition(e.unit))]
  {
    assert entries[..i + 1][..i] == entries[..i];
  }

  /** What the planner has collected when it emits the operations. */
  datatype Draft = Draft(
    create: seq<Entry>,
    update: seq<Entry>,
    remove: seq<Entry>,
    needing: seq<Service>,
    repairs: seq<FileDrift>,
    missingNetworks: seq<string>,
    newVolumes: seq<string>,
    networks: seq<string>,
    starts: seq<Entry>)

  ghost predicate AnyChange(input: Input, draft: Draft) {
    || draft.create != [] || draft.update != [] || draft.remove != [] || draft.needing != [] || draft.repairs != []
    || input.baseline.topologyDigest != Some(input.desired.topologyDigest) || draft.missingNetworks != []
  }

  /** The secrets that the units of these lines use. */
  ghost function SecretsUsed(input: Input, entries: seq<Entry>): set<string> {
    set e, name | e in entries && e.unit in input.secretsByUnit && name in input.secretsByUnit[e.unit] :: name
  }

  /** A first apply delivers every secret; a later one those of the units it starts or restarts. */
  ghost function ScopedSecrets(input: Input, draft: Draft): set<string> {
    if input.baseline.mode == Bootstrap then input.allSecrets else SecretsUsed(input, draft.create + draft.update)
  }

  ghost function Prologue(input: Input, draft: Draft): seq<Step> {
    if !AnyChange(input, draft) then []
    else (if input.baseline.mode == Bootstrap then [HostPrepare] else []) + [SecretEnsure(ScopedSecrets(input, draft))]
  }

  ghost function WhenChanged(input: Input, draft: Draft, step: Step): seq<Step> {
    if AnyChange(input, draft) then [step] else []
  }

  /** Up to and including the stops: nothing has been written yet. */
  ghost function Preparation(input: Input, draft: Draft): seq<Step> {
    Prologue(input, draft) + VolumeSteps(draft.newVolumes) + NetworkSteps(draft.networks)
    + ImageSteps(draft.create + draft.update) + StopSteps(draft.update) + StopSteps(draft.remove)
  }

  ghost function Steps(input: Input, draft: Draft): seq<Step>
    requires Migratable(input.desired, draft.needing)
  {
    Preparation(input, draft) + WhenChanged(input, draft, ConfigWrite) + RemoveSteps(draft.remove)
    + MigrateSteps(input.desired, draft.needing) + StartSteps(draft.starts) + WhenChanged(input, draft, StateCommit)
  }

  /** The list under construction, with the running number of its last operation. */
  class OperationList {
    var sequence: nat
    var operations: seq<Operation>
    ghost var steps: seq<Step>

    ghost predicate Valid()
      reads this
    {
      sequence == |operations| && operations == Numbered(steps)
    }

    constructor ()
      ensures Valid() && steps == []
    {
      sequence, operations, steps := 0, [], [];
    }

    method Next(id: string, step: Step)
      requires Valid() && id == Name(step)
      modifies this
      ensures Valid() && steps == old(steps) + [step]
    {
      sequence := sequence + 1;
      operations := operations + [Operation(Id(sequence, id), step)];
      steps := steps + [step];
    }

    method EnsureVolumes(volumes: seq<string>)
      requires Valid()
      modifies this
      ensures Valid() && steps == old(steps) + VolumeSteps(volumes)
    {
      for i := 0 to |volumes|
        invariant Valid() && steps == old(steps) + VolumeSteps(volumes[..i])
      {
        assert volumes[..i + 1][..i] == volumes[..i];
        Next("volume.ensure." + volumes[i], VolumeEnsure(volumes[i]));
      }
      assert volumes[..|volumes|] == volumes;
    }

    method EnsureNetworks(networks: seq<string>)
      requires Valid()
      modifies this
      ensures Valid() && steps == old(steps) + NetworkSteps(networks)
    {
      for i := 0 to |networks|
        invariant Valid() && steps == old(steps) + NetworkSteps(networks[..i])
      {
        assert networks[..i + 1][..i] == networks[..i];
        Next("network.ensure." + networks[i], NetworkEnsure(networks[i], networks[i] == WACHTER_INTERNAL));
      }
      assert networks[..|networks|] == networks;
    }

    method BringImages(entries: seq<Entry>)
      requires Valid()
      modifies this
      ensures Valid() && steps == old(steps) + ImageSteps(entries)
    {
      for i := 0 to |entries|
        invariant Valid() && steps == old(steps) + ImageSteps(entries[..i])
      {
        assert entries[..i + 1][..i] == entries[..i];
        if entries[i].imageChanged {
          var e := entries[i];
          Next("image.verify." + e.service + "." + e.unit, ImageVerify(e.service, e.unit, e.image));
          Next("image.pull." + e.service + "." + e.unit, ImagePull(e.service, e.unit, e.image));
        }
      }
      assert entries[..|entries|] == entries;
    }

    method StopUnits(entries: seq<Entry>)
      requires Valid()
      modifies this
      ensures Valid() && steps == old(steps) + StopSteps(entries)
    {
      for i := 0 to |entries|
        invariant Valid() && steps == old(steps) + StopSteps(entries[..i])
      {
        assert entries[..i + 1][..i] == entries[..i];
        var e := entries[i];
        Next("service.stop." + e.service + "." + e.unit, ServiceStop(e.service, e.unit));
      }
      assert entries[..|entries|] == entries;
    }

    method RemoveUnits(entries: seq<Entry>)
      requires Valid()
      modifies this
      ensures Valid() && steps == old(steps) + RemoveSteps(entries)
    {
      for i := 0 to |entries|
        invariant Valid() && steps == old(steps) + RemoveSteps(entries[..i])
      {
        assert entries[..i + 1][..i] == entries[..i];
        var e := entries[i];
        Next("service.remove." + e.service + "." + e.unit, ServiceRemove(e.service, e.unit));
      }
      assert entries[..|entries|] == entries;
    }

    method MigrateDatabases(desired: Desired, services: seq<Service>)
      requires Valid() && Migratable(desired, services)
      modifies this
      ensures Valid() && steps == old(steps) + MigrateSteps(desired, services)
    {
      for i := 0 to |services|
        invariant Valid() && steps == old(steps) + MigrateSteps(desired, services[..i])
      {
        assert services[..i + 1][..i] == services[..i];
        var database, schema := services[i].database.value, desired.schemas[services[i].id];
        Next("database.migrate." + services[i].id,
             DatabaseMigrate(services[i].id, database.component, database.volume, schema.from, schema.to));
      }
      assert services[..|services|] == services;
    }

    method StartUnits(entries: seq<Entry>)
      requires Valid()
      modifies this
      ensures Valid() && steps == old(steps) + StartSteps(entries)
    {
      for i := 0 to |entries|
        invariant Valid() && steps == old(steps) + StartSteps(entries[..i])
      {
        StartStepsSnoc(entries, i);
        var e := entries[i];
        Next("service.start." + e.service + "." + e.unit, ServiceStart(e.service, e.unit, e.image));
        var condition := if e.unit == "gateway" then "running" else "healthy";
        Next("readiness.wait." + e.service + "." + e.unit, ReadinessWait(e.service, e.unit, condition));
      }
      assert entries[..|entries|] == entries;
    }
  }

  method CollectSecrets(input: Input, entries: seq<Entry>) returns (secrets: set<string>)
    ensures secrets == SecretsUsed(input, entries)
  {
    secrets := {};
    for i := 0 to |entries|
      invariant secrets == SecretsUsed(input, entries[..i])
    {
      assert entries[..i + 1] == entries[..i] + [entries[i]];
      if entries[i].unit in input.secretsByUnit {
        secrets := secrets + input.secretsByUnit[entries[i].unit];
      }
    }
    assert entries[..|entries|] == entries;
  }

  method EmitPreparation(list: OperationList, input: Input, draft: Draft, anyChange: bool)
    requires list.Valid() && list.steps == [] && anyChange == AnyChange(input, draft)
    modifies list
    ensures list.Valid() && list.steps == Preparation(input, draft)
  {
    var secrets := input.allSecrets;
    if input.baseline.mode != Bootstrap {
      secrets := CollectSecrets(input, draft.create + draft.update);
    }
    if anyChange {
      if input.baseline.mode == Bootstrap {
        list.Next("host.prepare", HostPrepare);
      }
      list.Next("secret.ensure", SecretEnsure(secrets));
    }
    assert list.steps == Prologue(input, draft);
    list.EnsureVolumes(draft.newVolumes);
    list.EnsureNetworks(draft.networks);
    list.BringImages(draft.create + draft.update);
    list.StopUnits(draft.update);
    list.StopUnits(draft.remove);
  }

  method EmitWhenChanged(list: OperationList, input: Input, draft: Draft, anyChange: bool, id: string, step: Step)
    requires list.Valid() && anyChange == AnyChange(input, draft) && id == Name(step)
    modifies list
    ensures list.Valid() && list.steps == old(list.steps) + WhenChanged(input, draft, step)
  {
    if anyChange {
      list.Next(id, step);
    }
  }

  method BuildOperations(input: Input, draft: Draft) returns (operations: seq<Operation>)
    requires Migratable(input.desired, draft.needing)
    ensures operations == Numbered(Steps(input, draft))
  {
    var list := new OperationList();
    var topologyChanged := input.baseline.topologyDigest != Some(input.desired.topologyDigest);
    var anyChange := |draft.create| + |draft.update| + |draft.remove| + |draft.needing| + |draft.repairs| > 0
                     || topologyChanged || |draft.missingNetworks| > 0;
    EmitPreparation(list, input, draft, anyChange);
    EmitWhenChanged(list, input, draft, anyChange, "config.write", ConfigWrite);
    list.RemoveUnits(draft.remove);
    list.MigrateDatabases(input.desired, draft.needing);
    list.StartUnits(draft.starts);
    EmitWhenChanged(list, input, draft, anyChange, "state.commit", StateCommit);
    return list.operations;
  }
}
