/** Planning again right after an apply: nothing is left to do. */
module PlanIdempotence {
  import opened Sequences
  import opened Catalog
  import opened PlanTypes
  import opened PlanDrift
  import opened PlanDiff
  import opened PlanFolds
  import opened PlanBlockers
  import opened PlanOperations
  import opened Planner
  import opened PlanHost
  import opened PlanConvergence

  /** The retained record as committed: the same services, volumes and schemas, with a time. */
  ghost predicate SameRetained(planned: map<string, Retained>, committed: map<string, Retained>) {
    && planned.Keys == committed.Keys
    && forall id :: id in planned ==> committed[id].volume == planned[id].volume && committed[id].schema == planned[id].schema
  }

  predicate RetainedVolume(retained: map<string, Retained>, v: string) {
    exists id :: id in retained && retained[id].volume == v
  }

  /** The baseline that scripts/state.mjs resolves from what this plan committed. */
  ghost predicate Resolved(d: Delivery, input: Input, plan: Plan, next: Baseline) {
    && next.mode == Applied && next.installationId == Some(d.installationId)
    && next.release == Some(input.desired.release) && next.topologyDigest == Some(input.desired.topologyDigest)
    && next.services == input.desired.services
    && SameRetained(plan.retained, next.retained)
    && (forall v :: v in next.volumes <==> v in input.desired.volumes || RetainedVolume(next.retained, v))
    && (forall n :: n in next.networks <==> n in input.desired.networks)
    && next.generated == d.files
  }

  ghost predicate Readable(input: Input) {
    forall f :: f in input.baseline.generated ==>
      f in input.observation.generated && input.observation.generated[f] != Unreadable
  }

  /** The same desired topology, planned again from the committed baseline and the host as it is now. */
  ghost predicate Replanned(d: Delivery, input: Input, plan: Plan, after: Host, again: Input) {
    && again.desired == input.desired && again.catalog == input.catalog
    && Resolved(d, input, plan, again.baseline)
    && StatusesKnown(again) && Mirrors(again, after) && Readable(again)
  }

  /** Every enabled database's volume is recorded, and so is every retained one. */
  ghost predicate VolumesRecorded(catalog: seq<Service>, services: map<string, ServiceState>, volumes: seq<string>) {
    forall id :: Enabled(services, id) && DatabaseOf(catalog, id).Some? ==> DatabaseOf(catalog, id).value.volume in volumes
  }

  ghost predicate DataRecorded(input: Input) {
    && VolumesRecorded(input.catalog, input.baseline.services, input.baseline.volumes)
    && (forall v :: RetainedVolume(input.baseline.retained, v) ==> v in input.baseline.volumes)
  }

  /** A desired volume that exists under someone else's labels. */
  predicate ForeignVolume(d: Delivery, input: Input, host: Host, v: string) {
    v in input.desired.volumes && v in host.volumes && host.volumes[v] != d.Us()
  }

  ghost predicate NothingForeign(d: Delivery, input: Input, host: Host) {
    forall v :: !ForeignVolume(d, input, host, v)
  }

  // The host looks exactly as the new baseline records it.

  /** Exactly these units run, each with its image. */
  ghost predicate UnitsRun(d: Delivery, wanted: map<Key, Unit>, containers: map<Key, Container>) {
    forall k :: RunsAt(d, wanted, containers, k)
  }

  predicate RunsAt(d: Delivery, wanted: map<Key, Unit>, containers: map<Key, Container>, k: Key) {
    if k in wanted then k in containers && RunsImage(d, wanted[k], containers[k]) else k !in containers
  }

  ghost predicate Settled(d: Delivery, again: Input, after: Host) {
    && again.baseline.mode == Applied && again.baseline.installationId == Some(d.installationId)
    && again.baseline.services == again.desired.services
    && again.baseline.release == Some(again.desired.release)
    && again.baseline.topologyDigest == Some(again.desired.topologyDigest)
    && (forall v :: v in again.desired.volumes ==> v in again.baseline.volumes)
    && (forall n :: n in again.baseline.networks <==> n in again.desired.networks)
    && UnitsRun(d, again.Wanted(), after.containers) && after.files == again.baseline.generated
    && (forall n :: n in again.desired.networks ==> n in after.networks && after.networks[n] == d.Us())
    && StatusesKnown(again) && Mirrors(again, after) && Readable(again)
  }

  lemma {:induction false} SettledOwns(d: Delivery, again: Input, after: Host, k: Key)
    requires Settled(d, again, after) && k in again.Wanted()
    ensures k in after.containers && RunsImage(d, again.Wanted()[k], after.containers[k])
    ensures OwnAt(again, again.observation.resources, k) == Some(Seen(k, after.containers[k]))
  {
    assert RunsAt(d, again.Wanted(), after.containers, k);
    assert Seen(k, after.containers[k]) in again.observation.resources;
  }

  lemma NamedMissing(d: Delivery, again: Input, status: Availability, list: seq<Labelled>, there: map<string, Owner>, name: string)
    requires NamedSeen(status, list, there) && status == Available && again.baseline.installationId == Some(d.installationId)
    ensures OwnNamed(again, list, name) <==> name in there && there[name] == d.Us()
  {
    if name in there && there[name] == d.Us() {
      assert Labelled(name, true, Some(d.installationId)) in list;
    }
  }

  /** Every network is there under the installation's labels. */
  lemma SettledNetworks(d: Delivery, again: Input, after: Host, n: string)
    requires Settled(d, again, after)
    ensures !NetworkMissing(again, n)
  {
    NamedMissing(d, again, again.observation.networksStatus, again.observation.networks, after.networks, n);
  }

  /** No drift of any kind. */
  lemma SettledHasNoDrift(d: Delivery, again: Input, after: Host, drift: Drift)
    requires Settled(d, again, after)
    ensures !IsDrift(again, drift)
  {
    var k := drift.key;
    if k in again.Wanted() {
      SettledOwns(d, again, after, k);
    }
    forall r | r in again.observation.resources ensures !Unaccounted(again, r) {
      assert RunsAt(d, again.Wanted(), after.containers, ResourceKey(r));
      assert ResourceKey(r) in after.containers;
    }
  }

  lemma SettledIsUntouched(d: Delivery, again: Input, after: Host, k: Key, stage: nat)
    requires Settled(d, again, after) && stage <= 3
    ensures !Touched(again, k, stage) && !ImageTouched(again, k)
  {
    SettledHasNoDrift(d, again, after, Missing(k));
    SettledHasNoDrift(d, again, after, ManualChange(k));
  }

  lemma SettledMigratesNothing(d: Delivery, again: Input, after: Host, service: Service)
    requires Settled(d, again, after)
    ensures !NeedsMigration(again, service)
  {
    if service.database.Some? {
      SettledIsUntouched(d, again, after, (service.id, service.database.value.component), 3);
    }
  }

  lemma SettledTouchesNothing(d: Delivery, again: Input, after: Host, k: Key)
    requires Settled(d, again, after)
    ensures !Touched(again, k, 4)
  {
    SettledIsUntouched(d, again, after, k, 3);
    forall service ensures !NeedsMigration(again, service) {
      SettledMigratesNothing(d, again, after, service);
    }
  }

  lemma SettledDraft(d: Delivery, again: Input, after: Host, draft: Draft)
    requires Settled(d, again, after) && IsDraft(again, draft)
    ensures draft.create == [] && draft.update == [] && draft.remove == [] && draft.needing == []
    ensures draft.repairs == [] && draft.newVolumes == [] && draft.starts == []
  {
    NoEntries(draft.create);
    NoEntries(draft.remove);
    SettledUpdate(d, again, after, draft);
    SettledNeeding(d, again, after, draft);
    SettledRepairs(d, again, after, draft);
    EmptyWithoutMembers(draft.newVolumes);
    StartsAreTouched(again, draft);
    NoEntries(draft.starts);
  }

  lemma SettledUpdate(d: Delivery, again: Input, after: Host, draft: Draft)
    requires Settled(d, again, after) && IsUpdate(again, draft.update, 4)
    ensures draft.update == []
  {
    forall k ensures k !in KeysOf(draft.update) {
      SettledTouchesNothing(d, again, after, k);
    }
    NoEntries(draft.update);
  }

  lemma {:induction false} SettledNeeding(d: Delivery, again: Input, after: Host, draft: Draft)
    requires Settled(d, again, after) && draft.needing == Needing(again, again.catalog)
    ensures draft.needing == []
  {
    forall service ensures service !in draft.needing {
      NeedingMembers(again, again.catalog, service);
      SettledMigratesNothing(d, again, after, service);
    }
    EmptyWithoutMembers(draft.needing);
  }

  lemma SettledRepairs(d: Delivery, again: Input, after: Host, draft: Draft)
    requires Settled(d, again, after) && ExactRepairs(again, draft.repairs)
    ensures draft.repairs == []
  {
    forall drift ensures drift !in draft.repairs {
    }
    EmptyWithoutMembers(draft.repairs);
  }

  lemma SettledOperations(d: Delivery, again: Input, after: Host, plan: Plan)
    requires Settled(d, again, after) && IsPlan(again, plan)
    ensures plan.operations == []
  {
    var draft := plan.draft;
    SettledDraft(d, again, after, draft);
    forall n ensures n !in draft.missingNetworks && n !in draft.networks {
      SettledNetworks(d, again, after, n);
    }
    EmptyWithoutMembers(draft.missingNetworks);
    EmptyWithoutMembers(draft.networks);
    assert Preparation(again, draft) == [];
    assert Steps(again, draft) == [];
  }

  lemma SettledSchemas(d: Delivery, again: Input, after: Host)
    requires Settled(d, again, after)
    ensures MigrationsFit(again) && NoUpgrade(again)
  {
    forall service ensures !NeedsMigration(again, service) {
      SettledMigratesNothing(d, again, after, service);
    }
    forall k ensures !ImageUpgrade(again, k) {
      SettledIsUntouched(d, again, after, k, 3);
    }
    forall service | service in again.catalog ensures SchemaKept(again, service) {
    }
  }

  /** Nothing blocks exactly when no volume is missing. */
  lemma SettledBlockers(d: Delivery, again: Input, after: Host)
    requires Settled(d, again, after)
    ensures Executable(again) <==> VolumesThere(again)
  {
    SettledSchemas(d, again, after);
    forall drift ensures !IsDrift(again, drift) {
      SettledHasNoDrift(d, again, after, drift);
    }
    forall drift ensures !IsFileDrift(again, drift) {
    }
  }

  // The host after the first apply.

  lemma RetainedAreOurs(d: Delivery, input: Input, host: Host, plan: Plan, v: string)
    requires Setting(d, input, host) && IsPlan(input, plan) && Executable(input) && DataRecorded(input)
    requires RetainedVolume(plan.retained, v)
    ensures v in host.volumes && host.volumes[v] == d.Us()
  {
    var id :| id in plan.retained && plan.retained[id].volume == v;
    assert RetainedRight(input, plan.retained, id);
    assert v in input.baseline.volumes by {
      if RetainsNow(input, id) && !Created(input, id) {
        assert Enabled(input.baseline.services, id);
      } else {
        assert RetainedVolume(input.baseline.retained, v);
      }
    }
    BaselineVolumesAreThere(d, input, host, v);
  }

  /** A volume's owner after the run: it stays what it was, and is ours when it was not there. */
  lemma VolumeAfter(d: Delivery, input: Input, host: Host, draft: Draft, v: string)
    requires Setting(d, input, host) && Executable(input) && IsVolumes(input, draft.newVolumes)
    requires v in input.desired.volumes
    ensures var there := Ensured(d, host.volumes, Elements(draft.newVolumes));
            v in there && there[v] == if v in host.volumes then host.volumes[v] else d.Us()
  {
    VolumesConverge(d, input, host, draft, v);
  }

  lemma ReplannedIsSettled(d: Delivery, input: Input, plan: Plan, after: Host, again: Input)
    requires Replanned(d, input, plan, after, again)
    requires UnitsRun(d, input.Wanted(), after.containers) && after.files == d.files
    requires forall n :: n in input.desired.networks ==> n in after.networks && after.networks[n] == d.Us()
    ensures Settled(d, again, after)
  {
  }

  lemma SettledUnitsRun(d: Delivery, input: Input, host: Host, containers: map<Key, Container>)
    requires UnitsSettled(d, input, host, containers)
    ensures UnitsRun(d, input.Wanted(), containers)
  {
    forall k ensures RunsAt(d, input.Wanted(), containers, k) {
      assert SettledAt(d, input, host, containers, k);
    }
  }

  lemma AfterIsSettled(d: Delivery, input: Input, host: Host, plan: Plan, again: Input)
    requires Setting(d, input, host) && IsPlan(input, plan) && plan.blockers == [] && AnyChange(input, plan.draft)
    requires Replanned(d, input, plan, Finished(d, host, input, plan.draft), again)
    ensures Settled(d, again, Finished(d, host, input, plan.draft))
  {
    ContainersSettle(d, input, host, plan.draft);
    SettledUnitsRun(d, input, host, Finished(d, host, input, plan.draft).containers);
    NetworksConverge(d, input, host, plan.draft);
    ReplannedIsSettled(d, input, plan, Finished(d, host, input, plan.draft), again);
  }

  lemma RetainedAgain(d: Delivery, input: Input, host: Host, plan: Plan, again: Input, v: string)
    requires Setting(d, input, host) && IsPlan(input, plan) && Executable(input) && DataRecorded(input)
    requires SameRetained(plan.retained, again.baseline.retained) && RetainedVolume(again.baseline.retained, v)
    ensures v in host.volumes && host.volumes[v] == d.Us()
  {
    var id :| id in again.baseline.retained && again.baseline.retained[id].volume == v;
    assert RetainedVolume(plan.retained, v);
    RetainedAreOurs(d, input, host, plan, v);
  }

  lemma VolumeSettled(d: Delivery, input: Input, host: Host, plan: Plan, after: Host, again: Input, v: string)
    requires Setting(d, input, host) && IsPlan(input, plan) && Executable(input) && DataRecorded(input)
    requires after.volumes == Ensured(d, host.volumes, Elements(plan.draft.newVolumes))
    requires Replanned(d, input, plan, after, again)
    ensures VolumeMissing(again, v) <==> ForeignVolume(d, input, host, v)
  {
    NamedMissing(d, again, again.observation.volumesStatus, again.observation.volumes, after.volumes, v);
    if v in input.desired.volumes {
      VolumeAfter(d, input, host, plan.draft, v);
    } else if RetainedVolume(again.baseline.retained, v) {
      RetainedAgain(d, input, host, plan, again, v);
    }
  }

  lemma VolumesSettled(d: Delivery, input: Input, host: Host, plan: Plan, after: Host, again: Input)
    requires Setting(d, input, host) && IsPlan(input, plan) && Executable(input) && DataRecorded(input)
    requires after.volumes == Ensured(d, host.volumes, Elements(plan.draft.newVolumes))
    requires Replanned(d, input, plan, after, again)
    ensures VolumesThere(again) <==> NothingForeign(d, input, host)
  {
    forall v ensures VolumeMissing(again, v) <==> ForeignVolume(d, input, host, v) {
      VolumeSettled(d, input, host, plan, after, again, v);
    }
  }

  lemma NoDriftLeft(d: Delivery, again: Input, after: Host)
    requires Settled(d, again, after)
    ensures (forall drift :: !IsDrift(again, drift)) && forall drift :: !IsFileDrift(again, drift)
  {
    forall drift ensures !IsDrift(again, drift) {
      SettledHasNoDrift(d, again, after, drift);
    }
    forall drift ensures !IsFileDrift(again, drift) {
    }
  }

  /** Planning the same topology again, on the host an executable plan has left and from the baseline
      it has committed, finds no drift and nothing to do, whether or not the apply has left a stale unit:
      the next plan does not see it either. Nothing is in the way, unless the host
      had a desired volume under other labels: an apply leaves it as it is, and the next plan is blocked. */
  lemma {:induction false} Idempotence(d: Delivery, input: Input, host: Host, plan: Plan, again: Input, second: Plan)
    requires Setting(d, input, host) && IsPlan(input, plan) && plan.blockers == []
    requires AnyChange(input, plan.draft) && DataRecorded(input)
    requires Replanned(d, input, plan, Run(d, host, StepsOf(plan.operations)), again) && IsPlan(again, second)
    ensures second.operations == []
    ensures second.blockers == [] <==> NothingForeign(d, input, host)
    ensures forall drift :: !IsDrift(again, drift)
    ensures forall drift :: !IsFileDrift(again, drift)
  {
    StepsOfNumbered(Steps(input, plan.draft));
    RunPlan(d, host, input, plan.draft);
    var after := Finished(d, host, input, plan.draft);
    AfterIsSettled(d, input, host, plan, again);
    SettledOperations(d, again, after, second);
    SettledBlockers(d, again, after);
    VolumesSettled(d, input, host, plan, after, again);
    NoDriftLeft(d, again, after);
  }
}
