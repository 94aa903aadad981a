/** What holds of the operations of every plan, read off the operations themselves. */
module PlanLaws {
  import opened Catalog
  import opened PlanTypes
  import opened PlanDrift
  import opened PlanDiff
  import opened PlanFolds
  import opened PlanBlockers
  import opened PlanOperations
  import opened PlanSegments
  import opened Planner
  import opened PlanHost
  import opened PlanConvergence
  import opened PlanReadiness
  import opened PlanImages
  import opened DependencySort

  // Secrets.

  /** From place `n` on no secret is delivered. */
  ghost predicate SecretsBefore(steps: seq<Step>, n: nat) {
    forall k :: n <= k < |steps| ==> !steps[k].SecretEnsure?
  }

  lemma SecretsAppend(a: seq<Step>, b: seq<Step>, n: nat)
    requires SecretsBefore(a, n) && n <= |a| && forall step :: step in b ==> !step.SecretEnsure?
    ensures SecretsBefore(a + b, n)
  {
    forall k | n <= k < |a + b| ensures !(a + b)[k].SecretEnsure? {
      assert k >= |a| ==> (a + b)[k] in b;
    }
  }

  lemma NoSecretsIn(input: Input, draft: Draft, step: Step)
    requires Migratable(input.desired, draft.needing)
    requires || step in VolumeSteps(draft.newVolumes) || step in NetworkSteps(draft.networks)
             || step in ImageSteps(draft.create + draft.update) || step in StopSteps(draft.update) || step in StopSteps(draft.remove)
             || step in RemoveSteps(draft.remove) || step in MigrateSteps(input.desired, draft.needing)
             || step in StartSteps(draft.starts)
    ensures !step.SecretEnsure?
  {
    InVolumes(draft.newVolumes, step);
    InNetworks(draft.networks, step);
    InImages(draft.create + draft.update, step);
    InStops(draft.update, step);
    InStops(draft.remove, step);
    InRemoves(draft.remove, step);
    InMigrations(input.desired, draft.needing, step);
    InStarts(draft.starts, step);
  }

  lemma NoSecretsInAny(input: Input, draft: Draft)
    requires Migratable(input.desired, draft.needing)
    ensures forall step :: step in VolumeSteps(draft.newVolumes) ==> !step.SecretEnsure?
    ensures forall step :: step in NetworkSteps(draft.networks) ==> !step.SecretEnsure?
    ensures forall step :: step in ImageSteps(draft.create + draft.update) ==> !step.SecretEnsure?
    ensures forall step :: step in StopSteps(draft.update) ==> !step.SecretEnsure?
    ensures forall step :: step in StopSteps(draft.remove) ==> !step.SecretEnsure?
    ensures forall step :: step in RemoveSteps(draft.remove) ==> !step.SecretEnsure?
    ensures forall step :: step in MigrateSteps(input.desired, draft.needing) ==> !step.SecretEnsure?
    ensures forall step :: step in StartSteps(draft.starts) ==> !step.SecretEnsure?
  {
    forall step
      ensures step in VolumeSteps(draft.newVolumes) ==> !step.SecretEnsure?
      ensures step in NetworkSteps(draft.networks) ==> !step.SecretEnsure?
      ensures step in ImageSteps(draft.create + draft.update) ==> !step.SecretEnsure?
      ensures step in StopSteps(draft.update) ==> !step.SecretEnsure?
      ensures step in StopSteps(draft.remove) ==> !step.SecretEnsure?
      ensures step in RemoveSteps(draft.remove) ==> !step.SecretEnsure?
      ensures step in MigrateSteps(input.desired, draft.needing) ==> !step.SecretEnsure?
      ensures step in StartSteps(draft.starts) ==> !step.SecretEnsure?
    {
      if !(step in VolumeSteps(draft.newVolumes) || step in NetworkSteps(draft.networks)
           || step in ImageSteps(draft.create + draft.update) || step in StopSteps(draft.update)
           || step in StopSteps(draft.remove) || step in RemoveSteps(draft.remove)
           || step in MigrateSteps(input.desired, draft.needing) || step in StartSteps(draft.starts)) {
      } else {
        NoSecretsIn(input, draft, step);
      }
    }
  }

  /** Secrets are delivered once, at the head of the plan. */
  lemma SecretsFirst(input: Input, draft: Draft)
    requires Migratable(input.desired, draft.needing)
    ensures SecretsBefore(Steps(input, draft), |Prologue(input, draft)|)
    ensures Prologue(input, draft) <= Steps(input, draft)
  {
    var n := |Prologue(input, draft)|;
    NoSecretsInAny(input, draft);
    var a := Prologue(input, draft);
    SecretsAppend(a, VolumeSteps(draft.newVolumes), n);
    a := a + VolumeSteps(draft.newVolumes);
    SecretsAppend(a, NetworkSteps(draft.networks), n);
    a := a + NetworkSteps(draft.networks);
    SecretsAppend(a, ImageSteps(draft.create + draft.update), n);
    a := a + ImageSteps(draft.create + draft.update);
    SecretsAppend(a, StopSteps(draft.update), n);
    a := a + StopSteps(draft.update);
    SecretsAppend(a, StopSteps(draft.remove), n);
    assert SecretsBefore(Preparation(input, draft), n) && Prologue(input, draft) <= Preparation(input, draft);
    SecretsRest(input, draft, n);
  }

  lemma SecretsRest(input: Input, draft: Draft, n: nat)
    requires Migratable(input.desired, draft.needing)
    requires SecretsBefore(Preparation(input, draft), n) && n <= |Preparation(input, draft)|
    ensures SecretsBefore(Steps(input, draft), n) && Preparation(input, draft) <= Steps(input, draft)
  {
    NoSecretsInAny(input, draft);
    var a := Preparation(input, draft);
    SecretsAppend(a, WhenChanged(input, draft, ConfigWrite), n);
    a := a + WhenChanged(input, draft, ConfigWrite);
    SecretsAppend(a, RemoveSteps(draft.remove), n);
    a := a + RemoveSteps(draft.remove);
    SecretsAppend(a, MigrateSteps(input.desired, draft.needing), n);
    a := a + MigrateSteps(input.desired, draft.needing);
    SecretsAppend(a, StartSteps(draft.starts), n);
    a := a + StartSteps(draft.starts);
    SecretsAppend(a, WhenChanged(input, draft, StateCommit), n);
  }

  /** The unit of some start in the plan uses the secret. */
  ghost predicate StartsUser(input: Input, operations: seq<Operation>, name: string) {
    exists j :: 0 <= j < |operations| && UserStart(input, operations[j].step, name)
  }

  predicate UserStart(input: Input, step: Step, name: string) {
    step.ServiceStart? && step.unit in input.secretsByUnit && name in input.secretsByUnit[step.unit]
  }

  lemma EntryFor(entries: seq<Entry>, k: Key) returns (e: Entry)
    requires k in KeysOf(entries)
    ensures e in entries && KeyOf(e) == k
  {
    e :| e in entries && KeyOf(e) == k;
  }

  lemma KeysJoined(a: seq<Entry>, b: seq<Entry>)
    ensures KeysOf(a + b) == KeysOf(a) + KeysOf(b)
  {
  }

  lemma UsedStarts(input: Input, draft: Draft, name: string) returns (k: nat)
    requires IsDraft(input, draft) && Migratable(input.desired, draft.needing)
    requires name in SecretsUsed(input, draft.create + draft.update)
    ensures k < |Steps(input, draft)| && UserStart(input, Steps(input, draft)[k], name)
  {
    var e :| e in draft.create + draft.update && e.unit in input.secretsByUnit && name in input.secretsByUnit[e.unit];
    KeysJoined(draft.create, draft.update);
    assert KeyOf(e) in KeysOf(draft.create + draft.update);
    k := TouchedIsUser(input, draft, KeyOf(e));
  }

  lemma StartIsUsed(input: Input, draft: Draft, step: Step, name: string)
    requires IsDraft(input, draft) && Migratable(input.desired, draft.needing)
    requires step in Steps(input, draft) && UserStart(input, step, name)
    ensures name in SecretsUsed(input, draft.create + draft.update)
  {
    StartInStarts(input, draft, step);
    var e :| e in draft.starts && step == StartOf(e);
    StartLine(input, draft, e);
    KeysJoined(draft.create, draft.update);
    var other := EntryFor(draft.create + draft.update, KeyOf(e));
  }

  lemma UsedIsStarted(input: Input, plan: Plan, name: string)
    requires IsPlan(input, plan)
    ensures name in SecretsUsed(input, plan.draft.create + plan.draft.update) <==> StartsUser(input, plan.operations, name)
  {
    if name in SecretsUsed(input, plan.draft.create + plan.draft.update) {
      var k := UsedStarts(input, plan.draft, name);
      assert plan.operations[k].step == Steps(input, plan.draft)[k];
    }
    if j :| 0 <= j < |plan.operations| && UserStart(input, plan.operations[j].step, name) {
      StartIsUsed(input, plan.draft, plan.operations[j].step, name);
    }
  }

  lemma StepAt(input: Input, plan: Plan, k: nat)
    requires IsPlan(input, plan) && k < |plan.operations|
    ensures k < |Steps(input, plan.draft)| && plan.operations[k].step == Steps(input, plan.draft)[k]
  {
  }

  lemma SecretPlace(input: Input, draft: Draft, k: nat)
    requires Migratable(input.desired, draft.needing) && k < |Steps(input, draft)| && Steps(input, draft)[k].SecretEnsure?
    ensures k == |Prologue(input, draft)| - 1 && Steps(input, draft)[k].secrets == ScopedSecrets(input, draft)
  {
    SecretsFirst(input, draft);
    assert Steps(input, draft)[k] == Prologue(input, draft)[k];
  }

  lemma StartBehindSecrets(input: Input, draft: Draft, k: nat, j: nat)
    requires Migratable(input.desired, draft.needing) && k < |Steps(input, draft)| && Steps(input, draft)[k].SecretEnsure?
    requires j < |Steps(input, draft)| && Steps(input, draft)[j].ServiceStart?
    ensures k < j
  {
    SecretsFirst(input, draft);
    SecretPlace(input, draft, k);
    assert forall i :: 0 <= i < |Prologue(input, draft)| ==> Steps(input, draft)[i] == Prologue(input, draft)[i];
  }

  lemma UsedAreStarted(input: Input, plan: Plan)
    requires IsPlan(input, plan)
    ensures forall name ::
              name in SecretsUsed(input, plan.draft.create + plan.draft.update) <==> StartsUser(input, plan.operations, name)
  {
    forall name
      ensures name in SecretsUsed(input, plan.draft.create + plan.draft.update) <==> StartsUser(input, plan.operations, name)
    {
      UsedIsStarted(input, plan, name);
    }
  }

  /** A first apply delivers all secrets, a later one exactly those that the units it starts use. Either way
      it delivers once, and before any start. */
  lemma SecretsDelivered(input: Input, plan: Plan, k: nat, j: nat)
    requires IsPlan(input, plan) && k < |plan.operations| && plan.operations[k].step.SecretEnsure?
    requires j < |plan.operations| && j != k
    ensures input.baseline.mode == Bootstrap ==> plan.operations[k].step.secrets == input.allSecrets
    ensures input.baseline.mode == Applied ==>
              forall name :: name in plan.operations[k].step.secrets <==> StartsUser(input, plan.operations, name)
    ensures !plan.operations[j].step.SecretEnsure?
    ensures plan.operations[j].step.ServiceStart? ==> k < j
  {
    StepAt(input, plan, k);
    StepAt(input, plan, j);
    SecretPlace(input, plan.draft, k);
    if plan.operations[j].step.SecretEnsure? {
      SecretPlace(input, plan.draft, j);
    }
    if plan.operations[j].step.ServiceStart? {
      StartBehindSecrets(input, plan.draft, k, j);
    }
    UsedAreStarted(input, plan);
  }

  lemma StartMeansChange(input: Input, draft: Draft, step: Step)
    requires IsDraft(input, draft) && Migratable(input.desired, draft.needing)
    requires step in Steps(input, draft) && step.ServiceStart?
    ensures AnyChange(input, draft)
  {
    StartInStarts(input, draft, step);
    var e :| e in draft.starts && step == StartOf(e);
    StartLine(input, draft, e);
    NoEntries(draft.create);
    NoEntries(draft.update);
  }

  lemma ChangeDelivers(input: Input, draft: Draft) returns (k: nat)
    requires Migratable(input.desired, draft.needing) && AnyChange(input, draft)
    ensures k < |Steps(input, draft)| && Steps(input, draft)[k].SecretEnsure?
  {
    SecretsFirst(input, draft);
    k := |Prologue(input, draft)| - 1;
    assert Steps(input, draft)[k] == Prologue(input, draft)[k];
  }

  /** Every unit that is started has had all its secrets delivered by the same plan. */
  lemma StartedUnitsHaveSecrets(input: Input, plan: Plan, j: nat) returns (k: nat)
    requires IsPlan(input, plan) && j < |plan.operations| && plan.operations[j].step.ServiceStart?
    ensures k < j && plan.operations[k].step.SecretEnsure?
    ensures input.baseline.mode == Bootstrap ==> plan.operations[k].step.secrets == input.allSecrets
    ensures input.baseline.mode == Applied && plan.operations[j].step.unit in input.secretsByUnit ==>
              input.secretsByUnit[plan.operations[j].step.unit] <= plan.operations[k].step.secrets
  {
    StartMeansChange(input, plan.draft, plan.operations[j].step);
    k := ChangeDelivers(input, plan.draft);
    SecretsDelivered(input, plan, k, j);
    if input.baseline.mode == Applied && plan.operations[j].step.unit in input.secretsByUnit {
      forall name | name in input.secretsByUnit[plan.operations[j].step.unit] ensures name in plan.operations[k].step.secrets {
        assert UserStart(input, plan.operations[j].step, name);
      }
    }
  }

  // Waits, networks and the order of starts.

  lemma NetworkInNetworks(input: Input, draft: Draft, step: Step)
    requires Migratable(input.desired, draft.needing) && step in Steps(input, draft) && step.NetworkEnsure?
    ensures step in NetworkSteps(draft.networks)
  {
    InVolumes(draft.newVolumes, step);
    InImages(draft.create + draft.update, step);
    InStops(draft.update, step);
    InStops(draft.remove, step);
    InRemoves(draft.remove, step);
    InMigrations(input.desired, draft.needing, step);
    InStarts(draft.starts, step);
  }

  /** The one network without a way out is Wachter's. */
  lemma OnlyWachterIsIsolated(input: Input, plan: Plan, k: nat)
    requires IsPlan(input, plan) && k < |plan.operations| && plan.operations[k].step.NetworkEnsure?
    ensures plan.operations[k].step.isolated <==> plan.operations[k].step.network == "hof-wachter-internal"
  {
    NetworkInNetworks(input, plan.draft, plan.operations[k].step);
    InNetworks(plan.draft.networks, plan.operations[k].step);
  }

  lemma StartThenWait(input: Input, draft: Draft, k: nat)
    requires Migratable(input.desired, draft.needing) && k < |Steps(input, draft)| && Steps(input, draft)[k].ServiceStart?
    ensures k + 1 < |Steps(input, draft)| && Steps(input, draft)[k + 1].ReadinessWait?
    ensures Steps(input, draft)[k + 1].service == Steps(input, draft)[k].service
    ensures Steps(input, draft)[k + 1].unit == Steps(input, draft)[k].unit
  {
    var i := StartedPlace(input, draft, k);
    WaitStands(input, draft, i);
  }

  lemma WaitCondition(input: Input, draft: Draft, k: nat)
    requires Migratable(input.desired, draft.needing) && k < |Steps(input, draft)| && Steps(input, draft)[k].ReadinessWait?
    ensures Steps(input, draft)[k].condition == if Steps(input, draft)[k].unit == "gateway" then "running" else "healthy"
  {
    NotInBeforeStarts(input, draft, k);
    InStarts(draft.starts, Steps(input, draft)[k]);
  }

  lemma WaitBehindStart(input: Input, draft: Draft, k: nat)
    requires Migratable(input.desired, draft.needing) && k < |Steps(input, draft)| && Steps(input, draft)[k].ReadinessWait?
    ensures k > 0 && Steps(input, draft)[k - 1].ServiceStart?
    ensures Steps(input, draft)[k - 1].service == Steps(input, draft)[k].service
    ensures Steps(input, draft)[k - 1].unit == Steps(input, draft)[k].unit
  {
    var i := StartedPlace(input, draft, k);
    assert k - 1 == |BeforeStarts(input, draft)| + 2 * i;
    StartPlace(input, draft, i);
  }

  /** Every start is followed at once by the wait for its own unit. */
  lemma StartsAreWaitedFor(input: Input, plan: Plan, k: nat)
    requires IsPlan(input, plan) && k < |plan.operations| && plan.operations[k].step.ServiceStart?
    ensures k + 1 < |plan.operations| && plan.operations[k + 1].step.ReadinessWait?
    ensures plan.operations[k + 1].step.service == plan.operations[k].step.service
    ensures plan.operations[k + 1].step.unit == plan.operations[k].step.unit
  {
    StartThenWait(input, plan.draft, k);
  }

  /** A unit is waited for right after its start: to be healthy, or to run if it is the gateway, which has no
      health check. */
  lemma WaitsCanEnd(input: Input, plan: Plan, k: nat)
    requires IsPlan(input, plan) && k < |plan.operations| && plan.operations[k].step.ReadinessWait?
    ensures k > 0 && plan.operations[k - 1].step.ServiceStart?
    ensures plan.operations[k - 1].step.service == plan.operations[k].step.service
    ensures plan.operations[k - 1].step.unit == plan.operations[k].step.unit
    ensures plan.operations[k].step.condition == if plan.operations[k].step.unit == "gateway" then "running" else "healthy"
  {
    StepAt(input, plan, k);
    WaitCondition(input, plan.draft, k);
    WaitBehindStart(input, plan.draft, k);
    StepAt(input, plan, k - 1);
  }

  /** A unit is started only when every unit of every service its own service depends on that the plan
      starts, too, has been started and waited for. */
  lemma DependenciesStartFirst(input: Input, plan: Plan, k: nat, j: nat)
    requires WellFormed(input) && IsPlan(input, plan) && k < |plan.operations| && j < |plan.operations|
    requires plan.operations[k].step.ServiceStart?
    requires plan.operations[j].step.ServiceStart? || plan.operations[j].step.ReadinessWait?
    requires exists service :: service in input.catalog && service.id == plan.operations[k].step.service
                               && plan.operations[j].step.service in service.dependsOn
    ensures j < k
  {
    var draft := plan.draft;
    var a := StartedPlace(input, draft, k);
    var b := StartedPlace(input, draft, j);
    EdgeIsListed(input.catalog, plan.operations[k].step.service, plan.operations[j].step.service);
    DependencyComesFirst(DependsOn(input.catalog), draft.create + draft.update, draft.starts, a, b);
  }

  // Files, images and migrations.

  /** The Caddyfile is to be written again: it is missing, or modified and may be repaired. */
  predicate CaddyfileDue(input: Input) {
    && input.observation.generatedStatus == Available
    && "Caddyfile" in input.baseline.generated && "Caddyfile" in input.observation.generated
    && match input.observation.generated["Caddyfile"]
       case NoFile => true
       case Present(digest) => digest != input.baseline.generated["Caddyfile"] && input.repairDrift
       case Unreadable => false
  }

  lemma DueIsRepaired(input: Input, draft: Draft)
    requires IsDraft(input, draft) && CaddyfileDue(input)
    requires ("tor", "gateway") in input.Was() && ("tor", "gateway") in input.Wanted()
    ensures draft.repairs != [] && ("tor", "gateway") in KeysOf(draft.create) + KeysOf(draft.update)
  {
    var file := if input.observation.generated["Caddyfile"] == NoFile then FileMissing("Caddyfile") else FileModified("Caddyfile");
    assert ToRepair(input, file) && file.file == CADDYFILE;
    assert file in draft.repairs;
    assert Touched(input, GATEWAY, 4);
  }

  lemma WriteBeforeStart(input: Input, draft: Draft, i: nat) returns (j: nat, k: nat)
    requires Migratable(input.desired, draft.needing) && draft.repairs != [] && i < |draft.starts|
    ensures j < k < |Steps(input, draft)| && Steps(input, draft)[j] == ConfigWrite
    ensures Steps(input, draft)[k] == StartOf(draft.starts[i])
  {
    StartPlace(input, draft, i);
    j, k := |Preparation(input, draft)|, |BeforeStarts(input, draft)| + 2 * i;
    assert BeforeStarts(input, draft)[j] == ConfigWrite;
  }

  lemma GatewayStarts(input: Input, draft: Draft) returns (j: nat, k: nat)
    requires IsDraft(input, draft) && CaddyfileDue(input) && Migratable(input.desired, draft.needing)
    requires ("tor", "gateway") in input.Was() && ("tor", "gateway") in input.Wanted()
    ensures j < k < |Steps(input, draft)| && Steps(input, draft)[j] == ConfigWrite
    ensures Steps(input, draft)[k] == ServiceStart("tor", "gateway", input.Wanted()[("tor", "gateway")].image)
  {
    DueIsRepaired(input, draft);
    var i := TouchedStarts(input, draft, ("tor", "gateway"));
    j, k := WriteBeforeStart(input, draft, i);
  }

  /** A Caddyfile that is written again reaches the gateway: it is started behind the write. */
  lemma CaddyfileReachesGateway(input: Input, plan: Plan) returns (j: nat, k: nat)
    requires IsPlan(input, plan) && CaddyfileDue(input)
    requires ("tor", "gateway") in input.Was() && ("tor", "gateway") in input.Wanted()
    ensures j < k < |plan.operations| && plan.operations[j].step == ConfigWrite
    ensures plan.operations[k].step == ServiceStart("tor", "gateway", input.Wanted()[("tor", "gateway")].image)
  {
    j, k := GatewayStarts(input, plan.draft);
    StepAt(input, plan, j);
    StepAt(input, plan, k);
  }

  lemma {:induction false} ImageLine(entries: seq<Entry>, step: Step)
    requires step in ImageSteps(entries)
    ensures step.ImageVerify? || step.ImagePull?
    ensures exists e :: e in entries && e.imageChanged && step.service == e.service && step.unit == e.unit && step.image == e.image
    decreases |entries|
  {
    var e := entries[|entries| - 1];
    if step in ImageSteps(entries[..|entries| - 1]) {
      ImageLine(entries[..|entries| - 1], step);
    } else {
      assert e in entries;
    }
  }

  lemma VerifyOrPull(input: Input, draft: Draft, step: Step)
    requires Migratable(input.desired, draft.needing) && step in Steps(input, draft) && (step.ImageVerify? || step.ImagePull?)
    ensures step in ImageSteps(draft.create + draft.update)
  {
    InVolumes(draft.newVolumes, step);
    InNetworks(draft.networks, step);
    InStops(draft.update, step);
    InStops(draft.remove, step);
    InRemoves(draft.remove, step);
    InMigrations(input.desired, draft.needing, step);
    InStarts(draft.starts, step);
  }

  /** Whatever is verified, pulled or started is the desired image of a desired unit. */
  lemma ImagesAreDesired(input: Input, plan: Plan, k: nat)
    requires IsPlan(input, plan) && k < |plan.operations|
    requires plan.operations[k].step.ImageVerify? || plan.operations[k].step.ImagePull? || plan.operations[k].step.ServiceStart?
    ensures var unit := (plan.operations[k].step.service, plan.operations[k].step.unit);
            unit in input.Wanted() && plan.operations[k].step.image == input.Wanted()[unit].image
  {
    var draft, step := plan.draft, plan.operations[k].step;
    if step.ServiceStart? {
      StartInStarts(input, draft, step);
      var e :| e in draft.starts && step == StartOf(e);
      StartLine(input, draft, e);
    } else {
      VerifyOrPull(input, draft, step);
      ImageLine(draft.create + draft.update, step);
    }
  }

  lemma {:induction false} NeedingIsOrdered(input: Input, services: seq<Service>, i: nat)
    requires i < |Needing(input, services)|
    requires forall a, b :: 0 <= a < b < |services| ==> services[a].id != services[b].id
    ensures forall other :: other in Needing(input, services)[..i] ==>
              other in services && other.id != Needing(input, services)[i].id
    ensures Needing(input, services)[i] in services
  {
    var n := |services| - 1;
    if i < |Needing(input, services[..n])| {
      NeedingIsOrdered(input, services[..n], i);
      assert Needing(input, services)[..i] == Needing(input, services[..n])[..i];
    } else {
      forall other | other in Needing(input, services)[..i] ensures other in services && other.id != services[n].id {
        NeedingMembers(input, services[..n], other);
      }
    }
  }

  lemma BeforeOwnMigration(input: Input, draft: Draft, host: Host, i: nat)
    requires WellFormed(input) && IsDraft(input, draft) && i < |draft.needing| && Migratable(input.desired, draft.needing)
    requires VolumesDistinct(input.catalog) && SchemasRecorded(input, host)
    requires Migratable(input.desired, draft.needing[..i]) && Executable(input)
    ensures var service := draft.needing[i];
            var schemas := Migrated(input.desired, host.schemas, draft.needing[..i]);
            && service.database.Some? && service.id in input.desired.schemas
            && (Enabled(input.baseline.services, service.id) && SchemaOf(input.baseline.services, service.id).Some? ==>
                  && service.database.value.volume in schemas
                  && schemas[service.database.value.volume] == input.desired.schemas[service.id].from)
  {
    var service := draft.needing[i];
    NeedingIsOrdered(input, input.catalog, i);
    NeedingMembers(input, input.catalog, service);
    assert service !in draft.needing[..i];
    MigratedAt(input.desired, host.schemas, draft.needing[..i], service);
    assert MigrationFits(input, service) && SchemaRecorded(input, host, service);
  }

  lemma {:induction false} RunUntilMigrations(d: Delivery, host: Host, input: Input, draft: Draft, i: nat)
    requires i < |draft.needing| && Migratable(input.desired, draft.needing) && Migratable(input.desired, draft.needing[..i])
    ensures Run(d, host, BeforeMigrations(input, draft) + MigrateSteps(input.desired, draft.needing[..i])).schemas
            == Migrated(input.desired, host.schemas, draft.needing[..i])
  {
    RunBeforeMigrations(d, host, input, draft);
    RunAppend(d, host, BeforeMigrations(input, draft), MigrateSteps(input.desired, draft.needing[..i]));
    RunMigrations(d, Cleared(d, host, input, draft), input.desired, draft.needing[..i]);
  }

  lemma MigratesFromData(d: Delivery, input: Input, host: Host, draft: Draft, i: nat, service: Service)
    requires Setting(d, input, host) && IsDraft(input, draft) && Executable(input) && i < |draft.needing|
    requires Migratable(input.desired, draft.needing) && VolumesDistinct(input.catalog) && SchemasRecorded(input, host)
    requires service in input.catalog && service.id == draft.needing[i].id
    ensures service == draft.needing[i] && service.database.Some? && service.id in input.desired.schemas
    ensures Enabled(input.baseline.services, service.id) && SchemaOf(input.baseline.services, service.id).Some? ==>
              var during := Run(d, host, BeforeMigrations(input, draft) + MigrateSteps(input.desired, draft.needing[..i])).schemas;
              && service.database.value.volume in during
              && during[service.database.value.volume] == input.desired.schemas[service.id].from
  {
    NeedingMembers(input, input.catalog, draft.needing[i]);
    BeforeOwnMigration(input, draft, host, i);
    RunUntilMigrations(d, host, input, draft, i);
  }

  /** A migration of a service whose schema was recorded starts from the schema that its data is at. */
  lemma MigrationFromData(d: Delivery, input: Input, host: Host, plan: Plan, k: nat, service: Service)
    requires Setting(d, input, host) && IsPlan(input, plan) && plan.blockers == []
    requires VolumesDistinct(input.catalog) && SchemasRecorded(input, host)
    requires k < |plan.operations| && plan.operations[k].step.DatabaseMigrate?
    requires service in input.catalog && service.id == plan.operations[k].step.service
    ensures service.database.Some?
    ensures plan.operations[k].step.volume == service.database.value.volume
    ensures plan.operations[k].step.component == service.database.value.component
    ensures Enabled(input.baseline.services, service.id) && SchemaOf(input.baseline.services, service.id).Some? ==>
              var during := Run(d, host, StepsOf(plan.operations[..k])).schemas;
              service.database.value.volume in during && during[service.database.value.volume] == plan.operations[k].step.from
  {
    StepsBefore(Steps(input, plan.draft), k);
    var i := MigrationPlace(input, plan.draft, k);
    MigratesFromData(d, input, host, plan.draft, i, service);
  }
}
