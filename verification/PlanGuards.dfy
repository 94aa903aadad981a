/** What an executable plan has made sure of, and what no plan ever touches. */
module PlanGuards {
  import opened Sequences
  import opened Catalog
  import opened PlanTypes
  import opened PlanDrift
  import opened PlanBlockers
  import opened PlanOperations
  import opened PlanSegments
  import opened Planner
  import opened PlanHost
  import opened PlanConvergence
  import opened PlanReadiness
  import opened PlanImages

  predicate EnabledIn(services: map<string, ServiceState>, id: string) {
    id in services && services[id].enabled
  }

  lemma ImageStays(input: Input, k: Key)
    requires !ImageUpgrade(input, k)
    requires k in input.Was() && k in input.Wanted() && input.Was()[k].fingerprint != input.Wanted()[k].fingerprint
    ensures input.Was()[k].image == input.Wanted()[k].image
  {
  }

  /** The schema of an enabled database is that of its data: what it was, or what was retained. */
  predicate SchemaAgrees(input: Input, id: string)
    requires id in input.desired.services
  {
    match input.desired.services[id].schema
    case None => true
    case Some(after) =>
      if EnabledIn(input.baseline.services, id) then input.baseline.services[id].schema in {None, Some(after)}
      else id in input.baseline.retained ==> input.baseline.retained[id].schema == after
  }

  lemma KeptSchemaAgrees(input: Input, service: Service)
    requires SchemaKept(input, service) && service.database.Some? && EnabledIn(input.desired.services, service.id)
    ensures SchemaAgrees(input, service.id)
  {
  }

  /** An executable plan stays with the release, with the image of every unit that it changes, and with the
      schema of every database that stays enabled; a database that comes back has the schema of its data. */
  lemma VersionsStay(input: Input, plan: Plan)
    requires IsPlan(input, plan) && plan.blockers == []
    ensures input.baseline.release.Some? ==> input.baseline.release.value == input.desired.release
    ensures forall k :: k in input.Was() && k in input.Wanted() && input.Was()[k].fingerprint != input.Wanted()[k].fingerprint ==>
              input.Was()[k].image == input.Wanted()[k].image
    ensures forall service :: service in input.catalog && service.database.Some? && EnabledIn(input.desired.services, service.id) ==>
              SchemaAgrees(input, service.id)
  {
    UpgradesAreNone(input);
  }

  lemma UpgradesAreNone(input: Input)
    requires NoUpgrade(input)
    ensures forall k :: k in input.Was() && k in input.Wanted() && input.Was()[k].fingerprint != input.Wanted()[k].fingerprint ==>
              input.Was()[k].image == input.Wanted()[k].image
    ensures forall service :: service in input.catalog && service.database.Some? && EnabledIn(input.desired.services, service.id) ==>
              SchemaAgrees(input, service.id)
  {
    forall k | k in input.Was() && k in input.Wanted() && input.Was()[k].fingerprint != input.Wanted()[k].fingerprint
      ensures input.Was()[k].image == input.Wanted()[k].image
    {
      ImageStays(input, k);
    }
    forall service | service in input.catalog && service.database.Some? && EnabledIn(input.desired.services, service.id)
      ensures SchemaAgrees(input, service.id)
    {
      KeptSchemaAgrees(input, service);
    }
  }

  predicate Ours(input: Input, managed: bool, installationId: Option<string>) {
    managed && installationId.Some? && installationId == input.baseline.installationId
  }

  lemma NothingForeignRuns(input: Input, r: Resource)
    requires DriftAllowed(input) && input.observation.containersStatus == Available && r in input.observation.resources
    ensures Ours(input, r.managed, r.installationId) && (r.service, r.unit) in input.Was()
  {
    assert !IsUnmanaged(input, ResourceKey(r)) by {
      assert IsDrift(input, Unmanaged(ResourceKey(r))) ==> DriftTolerated(input, Unmanaged(ResourceKey(r)));
    }
    assert !Unaccounted(input, r);
  }

  lemma {:induction false} UnitAsRecorded(input: Input, k: Key, r: Resource)
    requires DriftAllowed(input) && input.observation.containersStatus == Available && !input.repairDrift
    requires k in input.Was() && OwnAt(input, input.observation.resources, k) == Some(r)
    ensures r.running && r.image == input.Was()[k].image
  {
    assert IsDrift(input, ManualChange(k)) ==> DriftTolerated(input, ManualChange(k));
  }

  /** An executable plan for an existing installation was made in sight of its containers: each of them is the
      installation's own and recorded, and without `repairDrift` a recorded unit runs with the recorded
      image, if it is there at all. */
  lemma ContainersWereSeen(input: Input, plan: Plan)
    requires IsPlan(input, plan) && plan.blockers == [] && input.baseline.mode == Applied
    ensures input.observation.containersStatus == Available
    ensures forall r :: r in input.observation.resources ==>
              Ours(input, r.managed, r.installationId) && (r.service, r.unit) in input.Was()
    ensures !input.repairDrift ==> forall k :: k in input.Was() ==>
              || (forall r :: r in input.observation.resources ==> (r.service, r.unit) != k)
              || exists r :: r in input.observation.resources && (r.service, r.unit) == k
                             && r.running && r.image == input.Was()[k].image
  {
    forall r | r in input.observation.resources
      ensures Ours(input, r.managed, r.installationId) && (r.service, r.unit) in input.Was()
    {
      NothingForeignRuns(input, r);
    }
    if !input.repairDrift {
      forall k | k in input.Was()
        ensures (forall r :: r in input.observation.resources ==> (r.service, r.unit) != k)
                || exists r :: r in input.observation.resources && (r.service, r.unit) == k
                               && r.running && r.image == input.Was()[k].image
      {
        var own := OwnAt(input, input.observation.resources, k);
        if own.Some? {
          UnitAsRecorded(input, k, own.value);
        } else {
          forall r | r in input.observation.resources ensures (r.service, r.unit) != k {
            assert ResourceKey(r) != k || !IsOwn(input, r);
          }
        }
      }
    }
  }

  /** No generated file is written over that an executable plan has not seen as recorded, or missing, or
      modified with leave to repair it; one that could not be read is never taken for missing. */
  lemma FilesWereSeen(input: Input, plan: Plan, f: string)
    requires IsPlan(input, plan) && plan.blockers == [] && input.observation.generatedStatus == Available
    requires f in input.baseline.generated
    ensures f in input.observation.generated
    ensures match input.observation.generated[f]
            case NoFile => true
            case Present(digest) => digest == input.baseline.generated[f] || input.repairDrift
            case Unreadable => false
  {
    assert IsFileDrift(input, FileUnreadable(f)) ==> FileTolerated(input, FileUnreadable(f));
    assert IsFileDrift(input, FileModified(f)) ==> FileTolerated(input, FileModified(f));
  }

  /** No recorded volume is missing, and no persistent service is disabled without leave to keep its data. */
  lemma DataIsSafe(input: Input, plan: Plan)
    requires IsPlan(input, plan) && plan.blockers == []
    ensures input.observation.volumesStatus == Available ==>
              forall v :: v in input.baseline.volumes ==>
                exists e :: e in input.observation.volumes && e.resource == v && Ours(input, e.managed, e.installationId)
    ensures forall k, service :: k in input.Was() && k !in input.Wanted() && service in input.catalog && service.id == k.0
                                 && service.database.Some? && WellFormed(input) ==>
              k.0 in input.retainAuthorised
  {
    if input.observation.volumesStatus == Available {
      forall v | v in input.baseline.volumes
        ensures exists e :: e in input.observation.volumes && e.resource == v && Ours(input, e.managed, e.installationId)
      {
        assert !VolumeMissing(input, v);
        var e :| e in input.observation.volumes && e.resource == v && input.Own(e.managed, e.installationId);
      }
    }
    forall k, service | k in input.Was() && k !in input.Wanted() && service in input.catalog && service.id == k.0
                        && service.database.Some? && WellFormed(input)
      ensures k.0 in input.retainAuthorised
    {
      DatabaseOfListed(input.catalog, service);
      assert Removed(input, k.0);
    }
  }

  lemma {:induction false} DatabaseOfListed(services: seq<Service>, service: Service)
    requires service in services && forall i, j :: 0 <= i < j < |services| ==> services[i].id != services[j].id
    ensures DatabaseOf(services, service.id) == service.database
  {
    if services[0] != service {
      DatabaseOfListed(services[1..], service);
      var i :| 0 <= i < |services| && services[i] == service;
    }
  }

  // While the Compose file is written.

  /** What stands behind the write. */
  ghost function AfterWrite(input: Input, draft: Draft): seq<Step>
    requires Migratable(input.desired, draft.needing)
  {
    RemoveSteps(draft.remove) + MigrateSteps(input.desired, draft.needing) + StartSteps(draft.starts)
    + WhenChanged(input, draft, StateCommit)
  }

  lemma NoWriteAfter(input: Input, draft: Draft, step: Step)
    requires Migratable(input.desired, draft.needing) && step in AfterWrite(input, draft)
    ensures step != ConfigWrite
  {
    InRemoves(draft.remove, step);
    InMigrations(input.desired, draft.needing, step);
    InStarts(draft.starts, step);
  }

  lemma StepsAroundWrite(input: Input, draft: Draft)
    requires Migratable(input.desired, draft.needing)
    ensures Steps(input, draft) == Preparation(input, draft) + WhenChanged(input, draft, ConfigWrite) + AfterWrite(input, draft)
  {
  }

  lemma WriteAt(input: Input, draft: Draft, k: nat)
    requires Migratable(input.desired, draft.needing) && k < |Steps(input, draft)| && Steps(input, draft)[k] == ConfigWrite
    ensures Steps(input, draft)[..k] == Preparation(input, draft)
  {
    var pre, middle := Preparation(input, draft), WhenChanged(input, draft, ConfigWrite);
    StepsAroundWrite(input, draft);
    if k < |pre| {
      assert pre[k] == ConfigWrite;
      InPreparation(input, draft, pre[k]);
    } else if k >= |pre + middle| {
      assert AfterWrite(input, draft)[k - |pre + middle|] == ConfigWrite;
      NoWriteAfter(input, draft, ConfigWrite);
    }
    assert (pre + middle + AfterWrite(input, draft))[..|pre|] == pre;
  }

  lemma RemoveInRemoves(input: Input, draft: Draft, step: Step)
    requires Migratable(input.desired, draft.needing) && step in Steps(input, draft) && step.ServiceRemove?
    ensures (step.service, step.unit) in KeysOf(draft.remove)
  {
    if step in Preparation(input, draft) {
      InPreparation(input, draft, step);
    }
    InRemoves(draft.remove, step);
    InMigrations(input.desired, draft.needing, step);
    InStarts(draft.starts, step);
  }

  lemma StartInTouched(input: Input, draft: Draft, step: Step)
    requires IsDraft(input, draft) && Migratable(input.desired, draft.needing) && step in Steps(input, draft) && step.ServiceStart?
    ensures (step.service, step.unit) in KeysOf(draft.create) + KeysOf(draft.update)
  {
    StartInStarts(input, draft, step);
    var e :| e in draft.starts && step == StartOf(e);
    StartLine(input, draft, e);
  }

  lemma StoppedIsDown(d: Delivery, containers: map<Key, Container>, update: set<Key>, remove: set<Key>, u: Key)
    requires u in containers ==> containers[u].owner == d.Us() && u in update + remove
    ensures var stopped := Stopped(d, Stopped(d, containers, update), remove);
            u in stopped ==> !stopped[u].running
  {
  }

  lemma DownWhenPrepared(d: Delivery, input: Input, host: Host, draft: Draft, u: Key)
    requires Setting(d, input, host) && Executable(input) && IsDraft(input, draft)
    requires u in KeysOf(draft.create) + KeysOf(draft.update) || u in KeysOf(draft.remove)
    ensures u in Prepared(d, host, draft).containers ==> !Prepared(d, host, draft).containers[u].running
  {
    if u in host.containers {
      HostContainersAreOurs(d, input, host, u);
      assert u !in KeysOf(draft.create);
    }
    StoppedIsDown(d, host.containers, KeysOf(draft.update), KeysOf(draft.remove), u);
  }

  /** The new Compose file is written only while every unit that the plan starts or removes is down. */
  lemma {:induction false} WrittenWhileDown(d: Delivery, input: Input, host: Host, plan: Plan, k: nat, j: nat)
    requires Setting(d, input, host) && IsPlan(input, plan) && plan.blockers == []
    requires k < |plan.operations| && plan.operations[k].step == ConfigWrite && j < |plan.operations|
    requires plan.operations[j].step.ServiceStart? || plan.operations[j].step.ServiceRemove?
    ensures var during := Run(d, host, StepsOf(plan.operations[..k])).containers;
            var unit := (plan.operations[j].step.service, plan.operations[j].step.unit);
            unit in during ==> !during[unit].running
  {
    var draft, step := plan.draft, plan.operations[j].step;
    StepsBefore(Steps(input, draft), k);
    WriteAt(input, draft, k);
    RunPreparation(d, host, input, draft);
    if step.ServiceStart? {
      StartInTouched(input, draft, step);
    } else {
      RemoveInRemoves(input, draft, step);
    }
    DownWhenPrepared(d, input, host, draft, (step.service, step.unit));
  }

  // What no operation touches, in any plan or part of one.

  lemma OthersUnmoved(d: Delivery, host: Host, step: Step, k: Key)
    requires k in host.containers && host.containers[k].owner != Owner(true, Some(d.installationId))
    requires step.ServiceStart? ==> (step.service, step.unit) != k
    ensures k in Perform(d, host, step).containers && Perform(d, host, step).containers[k] == host.containers[k]
  {
  }

  /** A container of somebody else is neither stopped nor removed. */
  lemma {:induction false} OthersAreLeftAlone(d: Delivery, host: Host, steps: seq<Step>, k: Key)
    requires k in host.containers && host.containers[k].owner != Owner(true, Some(d.installationId))
    requires forall i :: 0 <= i < |steps| && steps[i].ServiceStart? ==> (steps[i].service, steps[i].unit) != k
    ensures k in Run(d, host, steps).containers && Run(d, host, steps).containers[k] == host.containers[k]
  {
    if steps != [] {
      var n := |steps| - 1;
      OthersAreLeftAlone(d, host, steps[..n], k);
      OthersUnmoved(d, Run(d, host, steps[..n]), steps[n], k);
    }
  }

  lemma VolumeUnmoved(d: Delivery, host: Host, step: Step, v: string)
    ensures v in host.volumes ==> v in Perform(d, host, step).volumes && Perform(d, host, step).volumes[v] == host.volumes[v]
    ensures v in host.schemas && (step.DatabaseMigrate? ==> step.volume != v) ==>
              v in Perform(d, host, step).schemas && Perform(d, host, step).schemas[v] == host.schemas[v]
  {
  }

  /** No volume is ever lost or given other labels. */
  lemma {:induction false} VolumesStay(d: Delivery, host: Host, steps: seq<Step>, v: string)
    requires v in host.volumes
    ensures v in Run(d, host, steps).volumes && Run(d, host, steps).volumes[v] == host.volumes[v]
  {
    if steps != [] {
      var n := |steps| - 1;
      VolumesStay(d, host, steps[..n], v);
      VolumeUnmoved(d, Run(d, host, steps[..n]), steps[n], v);
    }
  }

  /** The schema of the data in a volume moves only by a migration of that volume. */
  lemma {:induction false} SchemaStays(d: Delivery, host: Host, steps: seq<Step>, v: string)
    requires v in host.schemas && forall i :: 0 <= i < |steps| && steps[i].DatabaseMigrate? ==> steps[i].volume != v
    ensures v in Run(d, host, steps).schemas && Run(d, host, steps).schemas[v] == host.schemas[v]
  {
    if steps != [] {
      var n := |steps| - 1;
      SchemaStays(d, host, steps[..n], v);
      VolumeUnmoved(d, Run(d, host, steps[..n]), steps[n], v);
    }
  }

  /** Before the Compose file is written, files and definitions are as they were. */
  lemma {:induction false} FilesStay(d: Delivery, host: Host, steps: seq<Step>)
    requires forall i :: 0 <= i < |steps| ==> steps[i] != ConfigWrite
    ensures Run(d, host, steps).files == host.files && Run(d, host, steps).compose == host.compose
  {
    if steps != [] {
      FilesStay(d, host, steps[..|steps| - 1]);
    }
  }

  predicate Moved(step: Step, k: Key) {
    (step.ServiceStop? || step.ServiceRemove? || step.ServiceStart?) && (step.service, step.unit) == k
  }

  lemma UnitUnmoved(d: Delivery, host: Host, step: Step, k: Key)
    requires !Moved(step, k)
    ensures k in Perform(d, host, step).containers <==> k in host.containers
    ensures k in host.containers ==> Perform(d, host, step).containers[k] == host.containers[k]
  {
  }

  /** A unit that is neither stopped nor removed nor started is as it was. */
  lemma {:induction false} UnitStays(d: Delivery, host: Host, steps: seq<Step>, k: Key)
    requires forall i :: 0 <= i < |steps| ==> !Moved(steps[i], k)
    ensures k in Run(d, host, steps).containers <==> k in host.containers
    ensures k in host.containers ==> Run(d, host, steps).containers[k] == host.containers[k]
  {
    if steps != [] {
      var n := |steps| - 1;
      UnitStays(d, host, steps[..n], k);
      UnitUnmoved(d, Run(d, host, steps[..n]), steps[n], k);
    }
  }
}
