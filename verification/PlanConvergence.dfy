/** Running an executable plan on the host it was made for ends with exactly the desired topology. */
module PlanConvergence {
  import opened Sequences
  import opened Catalog
  import opened PlanTypes
  import opened PlanDrift
  import opened PlanDiff
  import opened PlanFolds
  import opened PlanBlockers
  import opened PlanOperations
  import opened Planner
  import opened PlanHost
  import opened DependencySort

  function StepsOf(operations: seq<Operation>): seq<Step> {
    seq(|operations|, i requires 0 <= i < |operations| => operations[i].step)
  }

  lemma StepsOfNumbered(steps: seq<Step>)
    ensures StepsOf(Numbered(steps)) == steps
  {
  }

  // The effect of a whole plan, group by group.

  lemma {:induction false} RunPrologue(d: Delivery, host: Host, input: Input, draft: Draft)
    ensures Run(d, host, Prologue(input, draft)) == host
  {
    var secrets := SecretEnsure(ScopedSecrets(input, draft));
    RunAppend(d, host, [HostPrepare], [secrets]);
    RunAppend(d, host, [], [secrets]);
  }

  /** The host when volumes, networks and images are there. */
  ghost function Supplied(d: Delivery, host: Host, draft: Draft): Host {
    host.(volumes := Ensured(d, host.volumes, Elements(draft.newVolumes)),
          networks := Relabelled(d, host.networks, Elements(draft.networks)),
          images := host.images + Pulled(draft.create + draft.update))
  }

  /** And when the units that change have been stopped, too. */
  ghost function Prepared(d: Delivery, host: Host, draft: Draft): Host {
    var supplied := Supplied(d, host, draft);
    supplied.(containers := Stopped(d, Stopped(d, host.containers, KeysOf(draft.update)), KeysOf(draft.remove)))
  }

  lemma {:induction false} RunSupplies(d: Delivery, host: Host, input: Input, draft: Draft)
    ensures Run(d, host, Prologue(input, draft) + VolumeSteps(draft.newVolumes) + NetworkSteps(draft.networks)
                         + ImageSteps(draft.create + draft.update)) == Supplied(d, host, draft)
  {
    var prologue, volumes, networks := Prologue(input, draft), VolumeSteps(draft.newVolumes), NetworkSteps(draft.networks);
    RunPrologue(d, host, input, draft);
    RunAppend(d, host, prologue, volumes);
    RunVolumes(d, host, draft.newVolumes);
    var h1 := Run(d, host, prologue + volumes);
    RunAppend(d, host, prologue + volumes, networks);
    RunNetworks(d, h1, draft.networks);
    RunAppend(d, host, prologue + volumes + networks, ImageSteps(draft.create + draft.update));
    RunImages(d, Run(d, h1, networks), draft.create + draft.update);
  }

  lemma {:induction false} RunPreparation(d: Delivery, host: Host, input: Input, draft: Draft)
    ensures Run(d, host, Preparation(input, draft)) == Prepared(d, host, draft)
  {
    var supplies := Prologue(input, draft) + VolumeSteps(draft.newVolumes) + NetworkSteps(draft.networks)
                    + ImageSteps(draft.create + draft.update);
    var updates, removes := StopSteps(draft.update), StopSteps(draft.remove);
    RunSupplies(d, host, input, draft);
    RunAppend(d, host, supplies, updates);
    RunStops(d, Run(d, host, supplies), draft.update);
    RunAppend(d, host, supplies + updates, removes);
    RunStops(d, Run(d, host, supplies + updates), draft.remove);
  }

  ghost function Written(d: Delivery, host: Host, changed: bool): Host {
    if changed then host.(compose := d.compose, files := d.files) else host
  }

  lemma {:induction false} RunWhenChanged(d: Delivery, host: Host, input: Input, draft: Draft)
    ensures Run(d, host, WhenChanged(input, draft, ConfigWrite)) == Written(d, host, AnyChange(input, draft))
    ensures Run(d, host, WhenChanged(input, draft, StateCommit)) == host
  {
  }

  ghost function Finished(d: Delivery, host: Host, input: Input, draft: Draft): Host
    requires Migratable(input.desired, draft.needing)
  {
    var written := Written(d, Prepared(d, host, draft), AnyChange(input, draft));
    written.(containers := Started(d, Dropped(d, written.containers, KeysOf(draft.remove)), written.compose, KeysOf(draft.starts)),
             schemas := Migrated(input.desired, written.schemas, draft.needing))
  }

  lemma {:induction false} RunPlan(d: Delivery, host: Host, input: Input, draft: Draft)
    requires Migratable(input.desired, draft.needing)
    ensures Run(d, host, Steps(input, draft)) == Finished(d, host, input, draft)
  {
    var start, write := Preparation(input, draft), WhenChanged(input, draft, ConfigWrite);
    var removes, migrates := RemoveSteps(draft.remove), MigrateSteps(input.desired, draft.needing);
    var starts, commit := StartSteps(draft.starts), WhenChanged(input, draft, StateCommit);
    RunPreparation(d, host, input, draft);
    var h1 := Prepared(d, host, draft);
    RunAppend(d, host, start, write);
    RunWhenChanged(d, h1, input, draft);
    var h2 := Run(d, h1, write);
    RunAppend(d, host, start + write, removes);
    RunRemoves(d, h2, draft.remove);
    var h3 := Run(d, h2, removes);
    RunAppend(d, host, start + write + removes, migrates);
    RunMigrations(d, h3, input.desired, draft.needing);
    var h4 := Run(d, h3, migrates);
    RunAppend(d, host, start + write + removes + migrates, starts);
    RunStarts(d, h4, draft.starts);
    var h5 := Run(d, h4, starts);
    RunAppend(d, host, start + write + removes + migrates + starts, commit);
    RunWhenChanged(d, h5, input, draft);
  }

  // The host the plan was made for.

  function Seen(k: Key, c: Container): Resource {
    Resource(k.0, k.1, c.image, c.running, c.owner.managed, c.owner.installationId)
  }

  ghost predicate ContainersSeen(o: Observation, host: Host) {
    if o.containersStatus == Available
    then forall r :: r in o.resources <==> ResourceKey(r) in host.containers && r == Seen(ResourceKey(r), host.containers[ResourceKey(r)])
    else host.containers == map[]
  }

  ghost predicate NamedSeen(status: Availability, list: seq<Labelled>, there: map<string, Owner>) {
    if status == Available
    then forall e :: e in list <==> e.resource in there && there[e.resource] == Owner(e.managed, e.installationId)
    else there == map[]
  }

  ghost predicate FilesSeen(input: Input, host: Host) {
    input.observation.generatedStatus == Available ==>
      forall f :: f in input.baseline.generated ==>
        match (if f in input.observation.generated then input.observation.generated[f] else Unreadable)
        case Present(digest) => f in host.files && host.files[f] == digest
        case NoFile => f !in host.files
        case Unreadable => true
  }

  /** The observation is what the host shows; where Docker was positively absent there is nothing. */
  ghost predicate Mirrors(input: Input, host: Host) {
    && ContainersSeen(input.observation, host)
    && NamedSeen(input.observation.volumesStatus, input.observation.volumes, host.volumes)
    && NamedSeen(input.observation.networksStatus, input.observation.networks, host.networks)
    && FilesSeen(input, host)
  }

  /** An applied baseline needs everything to be inspected; a first apply may find Docker absent. */
  predicate StatusesKnown(input: Input) {
    var o := input.observation;
    if input.baseline.mode == Applied
    then o.containersStatus == Available && o.volumesStatus == Available && o.networksStatus == Available
         && o.generatedStatus == Available
    else o.containersStatus != Unavailable && o.volumesStatus != Unavailable && o.networksStatus != Unavailable
  }

  /** The synthetic baseline of a first apply, or one of this installation. */
  predicate BaselineOf(baseline: Baseline, installationId: string) {
    if baseline.mode == Bootstrap
    then baseline == Baseline(Bootstrap, None, None, None, map[], [], [], map[], map[])
    else baseline.installationId == Some(installationId)
  }

  /** Equal configuration fingerprints mean equal images. */
  ghost predicate FingerprintsCoverImages(input: Input) {
    forall k :: k in input.Was() && k in input.Wanted() && input.Was()[k].fingerprint == input.Wanted()[k].fingerprint ==>
      input.Was()[k].image == input.Wanted()[k].image
  }

  ghost predicate Delivers(d: Delivery, input: Input) {
    d.compose == input.Wanted() && BaselineOf(input.baseline, d.installationId)
  }

  ghost predicate Setting(d: Delivery, input: Input, host: Host) {
    && WellFormed(input) && StatusesKnown(input) && Mirrors(input, host) && FingerprintsCoverImages(input)
    && Delivers(d, input)
  }

  // What an executable plan knows about the containers.

  lemma NoUnmanaged(input: Input, r: Resource)
    requires DriftAllowed(input)
    ensures !IsUnmanaged(input, ResourceKey(r))
  {
    assert !DriftTolerated(input, Unmanaged(ResourceKey(r)));
    assert IsDrift(input, Unmanaged(ResourceKey(r))) <==> IsUnmanaged(input, ResourceKey(r));
  }

  lemma HostContainersAreOurs(d: Delivery, input: Input, host: Host, k: Key)
    requires Setting(d, input, host) && Executable(input) && k in host.containers
    ensures k in input.Was() && host.containers[k].owner == d.Us()
  {
    NoUnmanaged(input, Seen(k, host.containers[k]));
  }

  /** The container runs as the installation's own with the unit's image; an inspection shows no more. */
  predicate RunsImage(d: Delivery, u: Unit, c: Container) {
    c.running && c.owner == d.Us() && c.image == u.image
  }

  /** A unit that the plan leaves alone although its container was created from another configuration
      of the same image: neither the observation nor the diff shows it. */
  ghost predicate Stale(input: Input, host: Host, k: Key) {
    && k in input.Was() && k in input.Wanted() && !Touched(input, k, 4)
    && k in host.containers && host.containers[k].fingerprint != input.Wanted()[k].fingerprint
  }

  ghost predicate NothingStale(input: Input, host: Host) {
    forall k :: !Stale(input, host, k)
  }

  lemma UntouchedRunsImage(d: Delivery, input: Input, host: Host, k: Key)
    requires Setting(d, input, host) && Executable(input)
    requires k in input.Was() && k in input.Wanted() && !Touched(input, k, 4)
    ensures k in host.containers && RunsImage(d, input.Wanted()[k], host.containers[k])
    ensures !Stale(input, host, k) <==> host.containers[k] == d.Created(input.Wanted()[k])
  {
    HostContainersAreOurs(d, input, host, k);
    assert IsDrift(input, ManualChange(k)) ==> DriftTolerated(input, ManualChange(k));
  }

  lemma StartsAreTouched(input: Input, draft: Draft)
    requires IsDraft(input, draft)
    ensures KeysOf(draft.starts) == KeysOf(draft.create) + KeysOf(draft.update)
  {
    var entries := draft.create + draft.update;
    var order :| LeastValidOrder(DependsOn(input.catalog), entries, order) && Greedy(DependsOn(input.catalog), entries, order)
                 && Placed(entries, order, draft.starts);
    SameMembers(entries, order, draft.starts);
  }

  lemma SameMembers(entries: seq<Entry>, order: seq<nat>, sorted: seq<Entry>)
    requires Permutation(order, |entries|) && Placed(entries, order, sorted)
    ensures forall e :: e in sorted <==> e in entries
  {
    forall e ensures e in sorted <==> e in entries {
      if e in entries {
        var i: nat :| i < |entries| && entries[i] == e;
        assert i in order;
        var k :| 0 <= k < |order| && order[k] == i;
        assert sorted[k] == e;
      }
    }
  }

  /** A unit after the stops, the removals and the starts. */
  lemma UnitAfter(d: Delivery, before: map<Key, Container>, compose: map<Key, Unit>,
                  update: set<Key>, remove: set<Key>, starts: set<Key>, k: Key)
    ensures var after := Started(d, Dropped(d, Stopped(d, Stopped(d, before, update), remove), remove), compose, starts);
            && (k in starts && k in compose ==> k in after && after[k] == d.Created(compose[k]))
            && (k !in starts && k !in update && k !in remove ==>
                  (k in after <==> k in before) && (k in after ==> after[k] == before[k]))
            && (k !in starts && k in remove && (k in before ==> before[k].owner == d.Us()) ==> k !in after)
  {
  }

  lemma StartedAreComposed(d: Delivery, input: Input, host: Host, draft: Draft, k: Key)
    requires IsDraft(input, draft) && d.compose == input.Wanted() && k in KeysOf(draft.create) + KeysOf(draft.update)
    ensures k in input.Wanted()
    ensures Written(d, host, AnyChange(input, draft)).compose == input.Wanted()
  {
    assert draft.create != [] || draft.update != [];
  }

  /** What becomes of a unit: one that is wanted runs with its image, as it was created from the Compose
      file unless it is stale, and then it is as it was; one that is not wanted is not there. */
  ghost predicate SettledAt(d: Delivery, input: Input, host: Host, containers: map<Key, Container>, k: Key) {
    if k !in input.Wanted() then k !in containers
    else
      && k in containers && RunsImage(d, input.Wanted()[k], containers[k])
      && (!Stale(input, host, k) <==> containers[k] == d.Created(input.Wanted()[k]))
      && (Stale(input, host, k) ==> containers[k] == host.containers[k])
  }

  lemma StartedIsNotStale(input: Input, host: Host, draft: Draft, k: Key)
    requires IsDraft(input, draft) && k in KeysOf(draft.create) + KeysOf(draft.update)
    ensures !Stale(input, host, k)
  {
  }

  lemma ContainerAt(d: Delivery, input: Input, host: Host, draft: Draft, k: Key)
    requires Setting(d, input, host) && Executable(input) && IsDraft(input, draft)
    requires Migratable(input.desired, draft.needing)
    requires KeysOf(draft.starts) == KeysOf(draft.create) + KeysOf(draft.update)
    ensures SettledAt(d, input, host, Finished(d, host, input, draft).containers, k)
  {
    var written := Written(d, Prepared(d, host, draft), AnyChange(input, draft));
    UnitAfter(d, host.containers, written.compose, KeysOf(draft.update), KeysOf(draft.remove), KeysOf(draft.starts), k);
    if k in KeysOf(draft.starts) {
      StartedAreComposed(d, input, Prepared(d, host, draft), draft, k);
      StartedIsNotStale(input, host, draft, k);
    } else {
      if k in host.containers {
        HostContainersAreOurs(d, input, host, k);
      }
      if k in input.Wanted() {
        UntouchedRunsImage(d, input, host, k);
      }
    }
  }

  /** Exactly the desired units run, with the desired image; the stale ones keep their configuration. */
  ghost predicate UnitsSettled(d: Delivery, input: Input, host: Host, containers: map<Key, Container>) {
    forall k :: SettledAt(d, input, host, containers, k)
  }

  lemma ContainersSettle(d: Delivery, input: Input, host: Host, draft: Draft)
    requires Setting(d, input, host) && Executable(input) && IsDraft(input, draft)
    requires Migratable(input.desired, draft.needing)
    ensures UnitsSettled(d, input, host, Finished(d, host, input, draft).containers)
  {
    StartsAreTouched(input, draft);
    forall k ensures SettledAt(d, input, host, Finished(d, host, input, draft).containers, k) {
      ContainerAt(d, input, host, draft, k);
    }
  }

  function AllRunning(d: Delivery, wanted: map<Key, Unit>): map<Key, Container> {
    map k | k in wanted :: d.Created(wanted[k])
  }

  lemma SettledExactly(d: Delivery, input: Input, host: Host, containers: map<Key, Container>)
    requires UnitsSettled(d, input, host, containers)
    ensures containers == AllRunning(d, input.Wanted()) <==> NothingStale(input, host)
  {
    assert forall k :: SettledAt(d, input, host, containers, k) ==> (k in containers <==> k in input.Wanted());
    if NothingStale(input, host) {
      forall k | k in containers ensures containers[k] == AllRunning(d, input.Wanted())[k] {
        assert SettledAt(d, input, host, containers, k) && !Stale(input, host, k);
      }
    }
    if containers == AllRunning(d, input.Wanted()) {
      forall k ensures !Stale(input, host, k) {
        assert SettledAt(d, input, host, containers, k);
      }
    }
  }

  // Volumes, networks, files and schemas.

  lemma OwnNamedIsThere(d: Delivery, input: Input, status: Availability, list: seq<Labelled>, there: map<string, Owner>, name: string)
    requires NamedSeen(status, list, there) && status == Available && Delivers(d, input) && input.baseline.mode == Applied
    ensures OwnNamed(input, list, name) <==> name in there && there[name] == d.Us()
  {
    if name in there && there[name] == d.Us() {
      assert Labelled(name, true, Some(d.installationId)) in list;
    }
  }

  lemma BaselineVolumesAreThere(d: Delivery, input: Input, host: Host, v: string)
    requires Setting(d, input, host) && Executable(input) && v in input.baseline.volumes
    ensures v in host.volumes && host.volumes[v] == d.Us()
  {
    OwnNamedIsThere(d, input, input.observation.volumesStatus, input.observation.volumes, host.volumes, v);
    assert !VolumeMissing(input, v);
  }

  /** Every desired volume is there; one that the baseline had is still the installation's own. */
  lemma VolumesConverge(d: Delivery, input: Input, host: Host, draft: Draft, v: string)
    requires Setting(d, input, host) && Executable(input) && IsVolumes(input, draft.newVolumes)
    requires v in input.desired.volumes
    ensures v in Ensured(d, host.volumes, Elements(draft.newVolumes))
  {
    if v in input.baseline.volumes {
      BaselineVolumesAreThere(d, input, host, v);
    } else {
      assert v in draft.newVolumes;
    }
  }

  /** Every desired network is there and the installation's own. */
  lemma NetworksConverge(d: Delivery, input: Input, host: Host, draft: Draft)
    requires Setting(d, input, host) && IsDraft(input, draft)
    ensures var there := Relabelled(d, host.networks, Elements(draft.networks));
            forall n :: n in input.desired.networks ==> n in there && there[n] == d.Us()
  {
    forall n | n in input.desired.networks && n !in draft.networks ensures n in host.networks && host.networks[n] == d.Us() {
      assert !NetworkDue(input, n);
      OwnNamedIsThere(d, input, input.observation.networksStatus, input.observation.networks, host.networks, n);
    }
  }

  predicate FilesMatch(expected: map<string, string>, files: map<string, string>) {
    forall f :: f in expected ==> f in files && files[f] == expected[f]
  }

  lemma FilesStand(d: Delivery, input: Input, host: Host, draft: Draft)
    requires Setting(d, input, host) && Executable(input) && IsDraft(input, draft) && !AnyChange(input, draft)
    ensures FilesMatch(input.baseline.generated, host.files)
  {
    forall f | f in input.baseline.generated ensures f in host.files && host.files[f] == input.baseline.generated[f] {
      FileStands(d, input, host, draft, f);
    }
  }

  lemma FileStands(d: Delivery, input: Input, host: Host, draft: Draft, f: string)
    requires Setting(d, input, host) && FilesAllowed(input) && ExactRepairs(input, draft.repairs)
    requires draft.repairs == [] && f in input.baseline.generated
    ensures f in host.files && host.files[f] == input.baseline.generated[f]
  {
    assert !ToRepair(input, FileMissing(f)) && !ToRepair(input, FileModified(f));
    assert IsFileDrift(input, FileModified(f)) ==> FileTolerated(input, FileModified(f));
    assert IsFileDrift(input, FileUnreadable(f)) ==> FileTolerated(input, FileUnreadable(f));
  }

  ghost predicate VolumesDistinct(services: seq<Service>) {
    forall a, b | a in services && b in services && a.database.Some? && b.database.Some? ::
      a.database.value.volume == b.database.value.volume ==> a == b
  }

  /** The data is at the schema that was recorded for it. */
  ghost predicate SchemasRecorded(input: Input, host: Host) {
    forall service :: service in input.catalog && service.database.Some? ==> SchemaRecorded(input, host, service)
  }

  predicate SchemaRecorded(input: Input, host: Host, service: Service)
    requires service.database.Some?
  {
    var before, volume := SchemaOf(input.baseline.services, service.id), service.database.value.volume;
    && (Enabled(input.baseline.services, service.id) && before.Some? ==>
          volume in host.schemas && host.schemas[volume] == before.value)
    && (!Enabled(input.baseline.services, service.id) && service.id in input.baseline.retained ==>
          volume in host.schemas && host.schemas[volume] == input.baseline.retained[service.id].schema)
  }

  lemma {:induction false} MigratedAt(desired: Desired, schemas: map<string, int>, services: seq<Service>, service: Service)
    requires Migratable(desired, services) && VolumesDistinct(services + [service]) && service.database.Some?
    ensures var volume := service.database.value.volume;
            if service in services
            then volume in Migrated(desired, schemas, services)
                 && Migrated(desired, schemas, services)[volume] == desired.schemas[service.id].to
            else (volume in Migrated(desired, schemas, services) <==> volume in schemas)
                 && (volume in schemas ==> Migrated(desired, schemas, services)[volume] == schemas[volume])
  {
    if services != [] {
      var n := |services| - 1;
      assert services == services[..n] + [services[n]];
      assert forall a :: a in services[..n] + [service] ==> a in services + [service];
      assert services[n] in services + [service] && service in services + [service];
      MigratedAt(desired, schemas, services[..n], service);
    }
  }

  predicate AtDesiredSchema(input: Input, schemas: map<string, int>, service: Service)
    requires service.database.Some?
  {
    var volume := service.database.value.volume;
    volume in schemas && Some(schemas[volume]) == SchemaOf(input.desired.services, service.id)
  }

  /** The data of every enabled service is at the desired schema, migrated or already there. */
  lemma {:induction false} SchemasConverge(input: Input, host: Host, needing: seq<Service>, service: Service)
    requires WellFormed(input) && needing == Needing(input, input.catalog) && Migratable(input.desired, needing)
    requires VolumesDistinct(input.catalog) && SchemasRecorded(input, host)
    requires service in input.catalog && service.database.Some? && Enabled(input.desired.services, service.id)
    ensures AtDesiredSchema(input, Migrated(input.desired, host.schemas, needing), service)
  {
    NeedingMembers(input, input.catalog, service);
    assert VolumesDistinct(needing + [service]) by {
      forall a | a in needing ensures a in input.catalog {
        NeedingMembers(input, input.catalog, a);
      }
    }
    MigratedAt(input.desired, host.schemas, needing, service);
    assert SchemaRecorded(input, host, service);
  }

  /** Every desired volume and network is there, no volume is lost, and the files are in place. */
  ghost predicate ResourcesThere(d: Delivery, input: Input, before: Host, after: Host) {
    && (forall v :: v in input.desired.volumes ==> v in after.volumes)
    && (forall v :: v in before.volumes ==> v in after.volumes && after.volumes[v] == before.volumes[v])
    && (forall n :: n in input.desired.networks ==> n in after.networks && after.networks[n] == d.Us())
    && (after.files == d.files || (after.files == before.files && FilesMatch(input.baseline.generated, after.files)))
  }

  /** What a successful apply leaves behind in any case. */
  ghost predicate Served(d: Delivery, input: Input, before: Host, after: Host) {
    UnitsSettled(d, input, before, after.containers) && ResourcesThere(d, input, before, after)
  }

  /** And when it has brought the host to the desired topology. */
  ghost predicate Converged(d: Delivery, input: Input, before: Host, after: Host) {
    after.containers == AllRunning(d, input.Wanted()) && ResourcesThere(d, input, before, after)
  }

  lemma AllVolumesConverge(d: Delivery, input: Input, host: Host, draft: Draft)
    requires Setting(d, input, host) && Executable(input) && IsVolumes(input, draft.newVolumes)
    ensures forall v :: v in input.desired.volumes ==> v in Ensured(d, host.volumes, Elements(draft.newVolumes))
  {
    forall v | v in input.desired.volumes ensures v in Ensured(d, host.volumes, Elements(draft.newVolumes)) {
      VolumesConverge(d, input, host, draft, v);
    }
  }

  lemma FilesConverge(d: Delivery, input: Input, host: Host, draft: Draft)
    requires Setting(d, input, host) && Executable(input) && IsDraft(input, draft)
    ensures var files := Written(d, Prepared(d, host, draft), AnyChange(input, draft)).files;
            files == d.files || (files == host.files && FilesMatch(input.baseline.generated, files))
  {
    if !AnyChange(input, draft) {
      FilesStand(d, input, host, draft);
    }
  }

  lemma ResourcesConverge(d: Delivery, input: Input, host: Host, draft: Draft)
    requires Setting(d, input, host) && Executable(input) && IsDraft(input, draft)
    requires Migratable(input.desired, draft.needing)
    ensures ResourcesThere(d, input, host, Finished(d, host, input, draft))
  {
    AllVolumesConverge(d, input, host, draft);
    NetworksConverge(d, input, host, draft);
    FilesConverge(d, input, host, draft);
  }

  lemma FinishedServes(d: Delivery, input: Input, host: Host, draft: Draft)
    requires Setting(d, input, host) && Executable(input) && IsDraft(input, draft)
    requires Migratable(input.desired, draft.needing)
    ensures Served(d, input, host, Finished(d, host, input, draft))
  {
    ContainersSettle(d, input, host, draft);
    ResourcesConverge(d, input, host, draft);
  }

  lemma ServedConverges(d: Delivery, input: Input, host: Host, after: Host)
    requires Served(d, input, host, after)
    ensures Converged(d, input, host, after) <==> NothingStale(input, host)
  {
    SettledExactly(d, input, host, after.containers);
  }

  /** Running the operations of an executable plan, in order, on the host it was made for ends with
      exactly the desired units running with the desired image, every desired volume present, every
      desired network there as the installation's own, and no volume lost. It ends with exactly the
      desired configuration, too, if and only if no unit that the plan leaves alone was created from
      another configuration of the same image. */
  lemma {:induction false} Convergence(d: Delivery, input: Input, host: Host, plan: Plan)
    requires Setting(d, input, host) && IsPlan(input, plan) && plan.blockers == []
    ensures Served(d, input, host, Run(d, host, StepsOf(plan.operations)))
    ensures Converged(d, input, host, Run(d, host, StepsOf(plan.operations))) <==> NothingStale(input, host)
  {
    StepsOfNumbered(Steps(input, plan.draft));
    RunPlan(d, host, input, plan.draft);
    FinishedServes(d, input, host, plan.draft);
    ServedConverges(d, input, host, Finished(d, host, input, plan.draft));
  }

  /** And the data of every enabled service is at the schema the release wants. */
  lemma {:induction false} SchemaConvergence(d: Delivery, input: Input, host: Host, plan: Plan, service: Service)
    requires Setting(d, input, host) && IsPlan(input, plan)
    requires VolumesDistinct(input.catalog) && SchemasRecorded(input, host)
    requires service in input.catalog && service.database.Some? && Enabled(input.desired.services, service.id)
    ensures AtDesiredSchema(input, Run(d, host, StepsOf(plan.operations)).schemas, service)
  {
    StepsOfNumbered(Steps(input, plan.draft));
    RunPlan(d, host, input, plan.draft);
    SchemasConverge(input, host, plan.draft.needing, service);
  }
}
