/** What keeps a plan from being executable, and what it carries forward as retained
    (scripts/plan.mjs, computeUpgradeBlockers, computeRetainedServices, migrationOperations, computeBlockers). */
module PlanBlockers {
  import opened Sequences
  import opened Catalog
  import opened PlanTypes
  import opened PlanDrift
  import opened PlanDiff
  import opened PlanFolds

  /** No release change, no image change and no schema change of a service that stays enabled, and no
      service enabled again at another schema than its retained data has. */
  ghost predicate NoUpgrade(input: Input) {
    && (input.baseline.release.Some? ==> input.baseline.release.value == input.desired.release)
    && (forall k :: !ImageUpgrade(input, k))
    && (forall service :: service in input.catalog ==> SchemaKept(input, service))
  }

  ghost predicate ImageUpgrade(input: Input, k: Key) {
    Touched(input, k, 3) && UpdateReason(input, k, 3) == Some(ImageChanged)
  }

  ghost predicate SchemaKept(input: Input, service: Service) {
    var id := service.id;
    var before, after := SchemaOf(input.baseline.services, id), SchemaOf(input.desired.services, id);
    service.database.None? || !Enabled(input.desired.services, id)
    || if Enabled(input.baseline.services, id)
       then before.None? || after.None? || before == after
       else id !in input.baseline.retained || after.None? || Some(input.baseline.retained[id].schema) == after
  }

  method ComputeUpgradeBlockers(input: Input, update: seq<Entry>) returns (blockers: seq<string>)
    requires IsUpdate(input, update, 3)
    ensures blockers == [] <==> NoUpgrade(input)
  {
    blockers := [];
    if input.baseline.release.Some? && input.baseline.release.value != input.desired.release {
      blockers := blockers + ["release change"];
    }
    var images := ImageUpgrades(input, update);
    var schemas := SchemaChanges(input);
    blockers := blockers + images + schemas;
  }

  ghost predicate BringsOtherImage(e: Entry) {
    e.imageChanged && e.fromImage != Some(e.image)
  }

  method ImageUpgrades(input: Input, update: seq<Entry>) returns (blockers: seq<string>)
    requires IsUpdate(input, update, 3)
    ensures blockers == [] <==> forall k :: !ImageUpgrade(input, k)
  {
    blockers := OtherImages(update);
    UpgradesAreListed(input, update);
  }

  method OtherImages(update: seq<Entry>) returns (blockers: seq<string>)
    ensures blockers == [] <==> forall e :: e in update ==> !BringsOtherImage(e)
  {
    blockers := [];
    for i := 0 to |update|
      invariant blockers == [] <==> forall j :: 0 <= j < i ==> !BringsOtherImage(update[j])
    {
      if update[i].imageChanged && update[i].fromImage != Some(update[i].image) {
        blockers := blockers + ["image change on an already-enabled unit"];
      }
    }
  }

  lemma UpgradeLine(input: Input, e: Entry)
    requires UpdateLine(input, e, 3)
    ensures ImageUpgrade(input, KeyOf(e)) <==> BringsOtherImage(e)
  {
  }

  lemma UpgradesAreListed(input: Input, update: seq<Entry>)
    requires IsUpdate(input, update, 3)
    ensures (forall k :: !ImageUpgrade(input, k)) <==> forall e :: e in update ==> !BringsOtherImage(e)
  {
    forall k | ImageUpgrade(input, k) ensures exists e :: e in update && BringsOtherImage(e) {
      assert k in KeysOf(update);
      var e :| e in update && KeyOf(e) == k;
      UpgradeLine(input, e);
    }
    forall e | e in update ensures BringsOtherImage(e) ==> ImageUpgrade(input, KeyOf(e)) {
      UpgradeLine(input, e);
    }
  }

  method SchemaChanges(input: Input) returns (blockers: seq<string>)
    ensures blockers == [] <==> forall service :: service in input.catalog ==> SchemaKept(input, service)
  {
    blockers := [];
    for i := 0 to |input.catalog|
      invariant blockers == [] <==> forall j :: 0 <= j < i ==> SchemaKept(input, input.catalog[j])
    {
      var service := input.catalog[i];
      if service.database.None? {
        continue;
      }
      var id := service.id;
      var wasEnabled, stillEnabled := Enabled(input.baseline.services, id), Enabled(input.desired.services, id);
      var desiredSchema := SchemaOf(input.desired.services, id);
      if wasEnabled && stillEnabled {
        var baselineSchema := SchemaOf(input.baseline.services, id);
        if baselineSchema.Some? && desiredSchema.Some? && baselineSchema != desiredSchema {
          blockers := blockers + ["schema version change on an already-enabled service"];
        }
        continue;
      }
      if !wasEnabled && stillEnabled {
        if id in input.baseline.retained && desiredSchema.Some?
           && input.baseline.retained[id].schema != desiredSchema.value {
          blockers := blockers + ["re-enabling a retained service at another schema version"];
        }
      }
    }
  }

  // Retained data.

  /** The database of the first service with this id. */
  ghost function DatabaseOf(services: seq<Service>, id: string): Option<Database> {
    if services == [] then None
    else if services[0].id == id then services[0].database
    else DatabaseOf(services[1..], id)
  }

  lemma {:induction false} DatabaseOfFirst(services: seq<Service>, id: string, i: nat)
    requires i <= |services| && forall j :: 0 <= j < i ==> services[j].id != id
    ensures i < |services| && services[i].id == id ==> DatabaseOf(services, id) == services[i].database
    ensures i == |services| ==> DatabaseOf(services, id) == None
  {
    if i > 0 {
      DatabaseOfFirst(services[1..], id, i - 1);
    }
  }

  /** `catalog.services.find((candidate) => candidate.id === id)?.database`. */
  method FindDatabase(services: seq<Service>, id: string) returns (database: Option<Database>)
    ensures database == DatabaseOf(services, id)
  {
    for i := 0 to |services|
      invariant forall j :: 0 <= j < i ==> services[j].id != id
    {
      if services[i].id == id {
        DatabaseOfFirst(services, id, i);
        return services[i].database;
      }
    }
    DatabaseOfFirst(services, id, |services|);
    return None;
  }

  ghost predicate Removed(input: Input, id: string) {
    exists k :: k in input.Was() && k !in input.Wanted() && k.0 == id
  }

  ghost predicate Created(input: Input, id: string) {
    exists k :: k in input.Wanted() && k !in input.Was() && k.0 == id
  }

  /** A persistent service that loses a unit is authorised to keep its data. */
  ghost predicate RetentionAuthorised(input: Input) {
    forall id :: Removed(input, id) && DatabaseOf(input.catalog, id).Some? ==> id in input.retainAuthorised
  }

  ghost function SchemaOrZero(input: Input, id: string): int {
    var schema := SchemaOf(input.baseline.services, id);
    if schema.Some? then schema.value else 0
  }

  ghost function NewlyRetained(input: Input, id: string): Retained
    requires DatabaseOf(input.catalog, id).Some?
  {
    Retained(DatabaseOf(input.catalog, id).value.volume, SchemaOrZero(input, id), None)
  }

  ghost predicate RetainsNow(input: Input, id: string) {
    Removed(input, id) && DatabaseOf(input.catalog, id).Some? && id in input.retainAuthorised
  }

  /** What the desired state carries as retained: the baseline's record, without the services that come
      back, and with those that are disabled now. */
  ghost predicate IsRetained(input: Input, retained: map<string, Retained>) {
    forall id :: RetainedRight(input, retained, id)
  }

  ghost predicate RetainedRight(input: Input, retained: map<string, Retained>, id: string) {
    if Created(input, id) then id !in retained
    else if RetainsNow(input, id) then id in retained && retained[id] == NewlyRetained(input, id)
    else SameAt(input.baseline.retained, retained, id)
  }

  predicate SameAt<K, V(==)>(a: map<K, V>, b: map<K, V>, id: K) {
    if id in a then id in b && b[id] == a[id] else id !in b
  }

  /** The record once these services have been looked at among the removed ones. */
  ghost predicate AfterRemoved(input: Input, retained: map<string, Retained>, seen: set<string>) {
    forall id :: RetainedSoFar(input, retained, seen, id)
  }

  ghost predicate RetainedSoFar(input: Input, retained: map<string, Retained>, seen: set<string>, id: string) {
    if id in seen && Retainable(input, id) then id in retained && retained[id] == NewlyRetained(input, id)
    else SameAt(input.baseline.retained, retained, id)
  }

  ghost predicate Retainable(input: Input, id: string) {
    DatabaseOf(input.catalog, id).Some? && id in input.retainAuthorised
  }

  lemma RetainOther(input: Input, retained: map<string, Retained>, next: map<string, Retained>,
                    seen: set<string>, id: string, other: string)
    requires RetainedSoFar(input, retained, seen, other)
    requires next == if Retainable(input, id) then retained[id := NewlyRetained(input, id)] else retained
    ensures RetainedSoFar(input, next, seen + {id}, other)
  {
  }

  lemma RetainOne(input: Input, retained: map<string, Retained>, next: map<string, Retained>, seen: set<string>, id: string)
    requires AfterRemoved(input, retained, seen)
    requires next == if Retainable(input, id) then retained[id := NewlyRetained(input, id)] else retained
    ensures AfterRemoved(input, next, seen + {id})
  {
    forall other ensures RetainedSoFar(input, next, seen + {id}, other) {
      assert RetainedSoFar(input, retained, seen, other);
      RetainOther(input, retained, next, seen, id, other);
    }
  }

  ghost predicate AuthorisedAmong(input: Input, seen: set<string>) {
    forall id :: id in seen ==> Unopposed(input, id)
  }

  ghost predicate Unopposed(input: Input, id: string) {
    DatabaseOf(input.catalog, id).None? || id in input.retainAuthorised
  }

  ghost function ServicesSeen(entries: seq<Entry>): set<string> {
    set e | e in entries :: e.service
  }

  lemma ServicesSeenSnoc(entries: seq<Entry>, i: nat)
    requires i < |entries|
    ensures ServicesSeen(entries[..i + 1]) == ServicesSeen(entries[..i]) + {entries[i].service}
  {
    assert entries[..i + 1] == entries[..i] + [entries[i]];
  }

  lemma RemovedSeen(input: Input, remove: seq<Entry>, id: string)
    requires IsRemove(input, remove)
    ensures id in ServicesSeen(remove) <==> Removed(input, id)
  {
    if id in ServicesSeen(remove) {
      var e :| e in remove && e.service == id;
      assert KeyOf(e) in KeysOf(remove);
    }
    if Removed(input, id) {
      var k :| k in input.Was() && k !in input.Wanted() && k.0 == id;
      assert k in KeysOf(remove);
    }
  }

  lemma CreatedSeen(input: Input, create: seq<Entry>, id: string)
    requires IsCreate(input, create)
    ensures id in ServicesSeen(create) <==> Created(input, id)
  {
    if id in ServicesSeen(create) {
      var e :| e in create && e.service == id;
      assert KeyOf(e) in KeysOf(create);
    }
    if Created(input, id) {
      var k :| k in input.Wanted() && k !in input.Was() && k.0 == id;
      assert k in KeysOf(create);
    }
  }

  method RetainRemoved(input: Input, remove: seq<Entry>)
    returns (blockers: seq<string>, retained: map<string, Retained>)
    ensures blockers == [] <==> AuthorisedAmong(input, ServicesSeen(remove))
    ensures AfterRemoved(input, retained, ServicesSeen(remove))
  {
    blockers, retained := [], input.baseline.retained;
    for i := 0 to |remove|
      invariant blockers == [] <==> AuthorisedAmong(input, ServicesSeen(remove[..i]))
      invariant AfterRemoved(input, retained, ServicesSeen(remove[..i]))
    {
      var id := remove[i].service;
      ServicesSeenSnoc(remove, i);
      RetainOne(input, retained, if Retainable(input, id) then retained[id := NewlyRetained(input, id)] else retained,
                ServicesSeen(remove[..i]), id);
      var database := FindDatabase(input.catalog, id);
      if database.None? {
        continue;
      }
      if id !in input.retainAuthorised {
        blockers := blockers + ["disabling a persistent service requires dataRetention: retain"];
        continue;
      }
      var schema := SchemaOf(input.baseline.services, id);
      retained := retained[id := Retained(database.value.volume, if schema.Some? then schema.value else 0, None)];
    }
    assert remove[..|remove|] == remove;
  }

  /** `all` without these services. */
  ghost predicate Without(all: map<string, Retained>, retained: map<string, Retained>, seen: set<string>) {
    forall id :: if id in seen then id !in retained else SameAt(all, retained, id)
  }

  method DropCreated(all: map<string, Retained>, create: seq<Entry>) returns (retained: map<string, Retained>)
    ensures Without(all, retained, ServicesSeen(create))
  {
    retained := all;
    for i := 0 to |create|
      invariant Without(all, retained, ServicesSeen(create[..i]))
    {
      ServicesSeenSnoc(create, i);
      retained := retained - {create[i].service};
    }
    assert create[..|create|] == create;
  }

  lemma RetainedIsRight(input: Input, create: seq<Entry>, remove: seq<Entry>,
                        all: map<string, Retained>, retained: map<string, Retained>, id: string)
    requires IsCreate(input, create) && IsRemove(input, remove)
    requires AfterRemoved(input, all, ServicesSeen(remove)) && Without(all, retained, ServicesSeen(create))
    ensures RetainedRight(input, retained, id)
  {
    CreatedSeen(input, create, id);
    RemovedSeen(input, remove, id);
    assert RetainedSoFar(input, all, ServicesSeen(remove), id);
  }

  lemma AuthorisedIsRight(input: Input, remove: seq<Entry>)
    requires IsRemove(input, remove)
    ensures AuthorisedAmong(input, ServicesSeen(remove)) <==> RetentionAuthorised(input)
  {
    forall id ensures id in ServicesSeen(remove) <==> Removed(input, id) {
      RemovedSeen(input, remove, id);
    }
  }

  method ComputeRetainedServices(input: Input, create: seq<Entry>, remove: seq<Entry>)
    returns (blockers: seq<string>, retained: map<string, Retained>)
    requires IsCreate(input, create) && IsRemove(input, remove)
    ensures blockers == [] <==> RetentionAuthorised(input)
    ensures IsRetained(input, retained)
  {
    var all;
    blockers, all := RetainRemoved(input, remove);
    AuthorisedIsRight(input, remove);
    retained := DropCreated(all, create);
    forall id ensures RetainedRight(input, retained, id) {
      RetainedIsRight(input, create, remove, all, retained, id);
    }
  }

  // Migrations and drift.

  /** No migration starts from another schema than the release expects. */
  ghost predicate MigrationsFit(input: Input) {
    forall service :: service in input.catalog && NeedsMigration(input, service) ==> MigrationFits(input, service)
  }

  ghost predicate MigrationFits(input: Input, service: Service) {
    var before := SchemaOf(input.baseline.services, service.id);
    Enabled(input.baseline.services, service.id) && before.Some? ==>
      service.id in input.desired.schemas && before.value == input.desired.schemas[service.id].from
  }

  /** The release declares a schema step for every enabled database. */
  ghost predicate SchemasDeclared(input: Input) {
    forall service :: service in input.catalog && service.database.Some? && Enabled(input.desired.services, service.id) ==>
      && service.id in input.desired.schemas
      && SchemaOf(input.desired.services, service.id) == Some(input.desired.schemas[service.id].to)
  }

  method MigrationBlockers(input: Input, needing: seq<Service>) returns (blockers: seq<string>)
    requires needing == Needing(input, input.catalog) && SchemasDeclared(input)
    ensures blockers == [] <==> MigrationsFit(input)
  {
    blockers := [];
    forall service ensures service in needing <==> service in input.catalog && NeedsMigration(input, service) {
      NeedingMembers(input, input.catalog, service);
    }
    for i := 0 to |needing|
      invariant blockers == [] <==> forall j :: 0 <= j < i ==> MigrationFits(input, needing[j])
    {
      var id := needing[i].id;
      assert needing[i] in needing;
      var before := SchemaOf(input.baseline.services, id);
      if Enabled(input.baseline.services, id) && before.Some? && before.value != input.desired.schemas[id].from {
        blockers := blockers + ["the migration would skip schema versions"];
      }
    }
  }

  ghost predicate DriftAllowed(input: Input) {
    forall d :: IsDrift(input, d) ==> DriftTolerated(input, d)
  }

  ghost predicate DriftTolerated(input: Input, d: Drift) {
    d.Missing? || (d.ManualChange? && input.repairDrift)
  }

  ghost predicate FilesAllowed(input: Input) {
    forall d :: IsFileDrift(input, d) ==> FileTolerated(input, d)
  }

  ghost predicate FileTolerated(input: Input, d: FileDrift) {
    d.FileMissing? || (d.FileModified? && input.repairDrift)
  }

  ghost predicate VolumesThere(input: Input) {
    forall name :: !VolumeMissing(input, name)
  }

  /** Nothing stands in the way of running the plan. */
  ghost predicate Executable(input: Input) {
    && MigrationsFit(input) && NoUpgrade(input) && RetentionAuthorised(input)
    && (input.baseline.mode == Applied ==> Inspected(input))
    && DriftAllowed(input) && FilesAllowed(input) && VolumesThere(input)
  }

  method ComputeBlockers(input: Input, before: seq<string>, drift: seq<Drift>, files: seq<FileDrift>, missingVolumes: seq<string>)
    returns (blockers: seq<string>)
    requires before == [] <==> MigrationsFit(input) && NoUpgrade(input) && RetentionAuthorised(input)
    requires forall d :: d in drift <==> IsDrift(input, d)
    requires forall d :: d in files <==> IsFileDrift(input, d)
    requires forall name :: name in missingVolumes <==> VolumeMissing(input, name)
    ensures blockers == [] <==> Executable(input)
  {
    blockers := before;
    if input.baseline.mode == Applied && input.observation.containersStatus != Available {
      blockers := blockers + ["observation unavailable"];
    }
    var more := DriftBlockers(input, drift);
    blockers := blockers + more;
    more := FileBlockers(input, files);
    blockers := blockers + more + missingVolumes;
    assert missingVolumes == [] <==> VolumesThere(input) by {
      assert missingVolumes != [] ==> missingVolumes[0] in missingVolumes;
    }
  }

  method DriftBlockers(input: Input, drift: seq<Drift>) returns (blockers: seq<string>)
    requires forall d :: d in drift <==> IsDrift(input, d)
    ensures blockers == [] <==> DriftAllowed(input)
  {
    blockers := [];
    if !input.repairDrift {
      for i := 0 to |drift|
        invariant blockers == [] <==> forall j :: 0 <= j < i ==> DriftTolerated(input, drift[j])
      {
        if drift[i].ManualChange? || drift[i].Unmanaged? {
          blockers := blockers + ["drift must be resolved, or an explicit repair authorized"];
        }
      }
    } else {
      for i := 0 to |drift|
        invariant blockers == [] <==> forall j :: 0 <= j < i ==> DriftTolerated(input, drift[j])
      {
        if drift[i].Unmanaged? {
          blockers := blockers + ["unmanaged resources are never adopted"];
        }
      }
    }
  }

  method FileBlockers(input: Input, files: seq<FileDrift>) returns (blockers: seq<string>)
    requires forall d :: d in files <==> IsFileDrift(input, d)
    ensures blockers == [] <==> FilesAllowed(input)
  {
    blockers := [];
    for i := 0 to |files|
      invariant blockers == [] <==> forall j :: 0 <= j < i ==> FileTolerated(input, files[j])
    {
      if files[i].FileModified? && !input.repairDrift {
        blockers := blockers + ["a modified generated file is never overwritten"];
      }
      if files[i].FileUnreadable? {
        blockers := blockers + ["a generated file could not be read"];
      }
    }
  }
}
