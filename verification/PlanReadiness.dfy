/** No readiness wait depends on a unit that is down, and no migration runs beside its unit. */
module PlanReadiness {
  import opened Graph
  import opened Catalog
  import opened PlanTypes
  import opened PlanDrift
  import opened PlanDiff
  import opened PlanFolds
  import opened PlanBlockers
  import opened PlanOperations
  import opened PlanSegments
  import opened Planner
  import opened PlanHost
  import opened PlanConvergence

  /** The host when the stops, the first write and the removals are done. */
  ghost function Cleared(d: Delivery, host: Host, input: Input, draft: Draft): Host {
    var written := Written(d, Prepared(d, host, draft), AnyChange(input, draft));
    written.(containers := Dropped(d, written.containers, KeysOf(draft.remove)))
  }

  lemma {:induction false} RunBeforeMigrations(d: Delivery, host: Host, input: Input, draft: Draft)
    ensures Run(d, host, BeforeMigrations(input, draft)) == Cleared(d, host, input, draft)
  {
    var start, write, removes := Preparation(input, draft), WhenChanged(input, draft, ConfigWrite), RemoveSteps(draft.remove);
    RunPreparation(d, host, input, draft);
    RunAppend(d, host, start, write);
    RunWhenChanged(d, Prepared(d, host, draft), input, draft);
    RunAppend(d, host, start + write, removes);
    RunRemoves(d, Run(d, host, start + write), draft.remove);
  }

  /** The host while the i-th started unit is waited for. */
  ghost function Waiting(d: Delivery, host: Host, input: Input, draft: Draft, i: nat): map<Key, Container>
    requires i < |draft.starts|
  {
    var cleared := Cleared(d, host, input, draft);
    Started(d, cleared.containers, cleared.compose, KeysOf(draft.starts[..i + 1]))
  }

  lemma {:induction false} RunBeforeStarts(d: Delivery, host: Host, input: Input, draft: Draft)
    requires Migratable(input.desired, draft.needing)
    ensures var cleared := Cleared(d, host, input, draft);
            Run(d, host, BeforeStarts(input, draft)) ==
            cleared.(schemas := Migrated(input.desired, cleared.schemas, draft.needing))
  {
    RunBeforeMigrations(d, host, input, draft);
    RunAppend(d, host, BeforeMigrations(input, draft), MigrateSteps(input.desired, draft.needing));
    RunMigrations(d, Cleared(d, host, input, draft), input.desired, draft.needing);
  }

  function StartOf(e: Entry): Step { ServiceStart(e.service, e.unit, e.image) }

  lemma {:induction false} RunStartsAndOne(d: Delivery, host: Host, starts: seq<Entry>, i: nat)
    requires i < |starts|
    ensures Run(d, host, StartSteps(starts[..i]) + [StartOf(starts[i])]) ==
            host.(containers := Started(d, host.containers, host.compose, KeysOf(starts[..i + 1])))
  {
    RunStarts(d, host, starts[..i]);
    RunAppend(d, host, StartSteps(starts[..i]), [StartOf(starts[i])]);
    StartedTwice(d, host.containers, host.compose, KeysOf(starts[..i]), {KeyOf(starts[i])});
    KeysOfLast(starts[..i + 1]);
    assert starts[..i + 1][..i] == starts[..i];
  }

  lemma {:induction false} RunUntilWait(d: Delivery, host: Host, input: Input, draft: Draft, i: nat)
    requires Migratable(input.desired, draft.needing) && i < |draft.starts|
    ensures var cleared := Cleared(d, host, input, draft);
            Run(d, host, BeforeStarts(input, draft) + StartSteps(draft.starts[..i]) + [StartOf(draft.starts[i])]) ==
            cleared.(schemas := Migrated(input.desired, cleared.schemas, draft.needing),
                     containers := Waiting(d, host, input, draft, i))
  {
    var before, rest := BeforeStarts(input, draft), StartSteps(draft.starts[..i]) + [StartOf(draft.starts[i])];
    RunBeforeStarts(d, host, input, draft);
    RunStartsAndOne(d, Run(d, host, before), draft.starts, i);
    RunAppend(d, host, before, rest);
    assert before + StartSteps(draft.starts[..i]) + [StartOf(draft.starts[i])] == before + rest;
  }

  // Dependencies of a started unit are started before it.

  /** The unit runs with its image; as it was created from the Compose file, unless it is stale. */
  ghost predicate Serves(d: Delivery, input: Input, host: Host, containers: map<Key, Container>, v: Key)
    requires v in input.Wanted()
  {
    && v in containers && RunsImage(d, input.Wanted()[v], containers[v])
    && (containers[v] == d.Created(input.Wanted()[v]) <==> !Stale(input, host, v))
  }

  lemma StartedRuns(d: Delivery, input: Input, host: Host, draft: Draft, i: nat, v: Key)
    requires IsDraft(input, draft) && d.compose == input.Wanted() && i < |draft.starts|
    requires v in KeysOf(draft.starts[..i + 1])
    ensures v in input.Wanted() && Serves(d, input, host, Waiting(d, host, input, draft, i), v)
    ensures !Stale(input, host, v)
  {
    StartsAreTouched(input, draft);
    StartedAreComposed(d, input, Prepared(d, host, draft), draft, v);
    StartedIsNotStale(input, host, draft, v);
  }

  lemma UntouchedRuns(d: Delivery, input: Input, host: Host, draft: Draft, i: nat, v: Key)
    requires Setting(d, input, host) && Executable(input) && IsDraft(input, draft) && i < |draft.starts|
    requires v in input.Wanted() && v !in KeysOf(draft.create) + KeysOf(draft.update)
    ensures Serves(d, input, host, Waiting(d, host, input, draft, i), v)
  {
    UntouchedRunsImage(d, input, host, v);
    StartsAreTouched(input, draft);
    var cleared := Cleared(d, host, input, draft);
    UnitAfter(d, host.containers, cleared.compose, KeysOf(draft.update), KeysOf(draft.remove), KeysOf(draft.starts[..i + 1]), v);
  }

  lemma RunsWhileWaiting(d: Delivery, input: Input, host: Host, draft: Draft, i: nat, v: Key)
    requires Setting(d, input, host) && Executable(input) && IsDraft(input, draft) && i < |draft.starts|
    requires v in input.Wanted()
    requires v == KeyOf(draft.starts[i]) || Edge(DependsOn(input.catalog), draft.starts[i].service, v.0)
    ensures Serves(d, input, host, Waiting(d, host, input, draft, i), v)
    ensures v == KeyOf(draft.starts[i]) ==> !Stale(input, host, v)
  {
    if v == KeyOf(draft.starts[i]) {
      StartedRuns(d, input, host, draft, i, v);
    } else if v in KeysOf(draft.create + draft.update) {
      StartedRuns(d, input, host, draft, i, v);
    } else {
      UntouchedRuns(d, input, host, draft, i, v);
    }
  }

  lemma StepsBefore(steps: seq<Step>, k: nat)
    requires k <= |steps|
    ensures StepsOf(Numbered(steps)[..k]) == steps[..k]
  {
  }

  /** When a unit's readiness is waited for, it runs as desired, and every unit of every service its own
      service depends on runs with its desired image: started earlier by this plan, or running all along
      and never stopped by it. */
  lemma {:induction false} NoReadinessDeadlock(d: Delivery, input: Input, host: Host, plan: Plan, k: nat, v: Key)
    requires Setting(d, input, host) && IsPlan(input, plan) && plan.blockers == []
    requires k < |plan.operations| && plan.operations[k].step.ReadinessWait?
    requires v in input.Wanted()
    requires v == (plan.operations[k].step.service, plan.operations[k].step.unit)
             || exists service :: service in input.catalog && service.id == plan.operations[k].step.service
                                  && v.0 in service.dependsOn
    ensures var during := Run(d, host, StepsOf(plan.operations[..k])).containers;
            && Serves(d, input, host, during, v)
            && (v == (plan.operations[k].step.service, plan.operations[k].step.unit) ==>
                  during[v] == d.Created(input.Wanted()[v]))
  {
    StepsBefore(Steps(input, plan.draft), k);
    var i := WaitPlace(input, plan.draft, k);
    RunUntilWait(d, host, input, plan.draft, i);
    EdgeIsListed(input.catalog, plan.operations[k].step.service, v.0);
    RunsWhileWaiting(d, input, host, plan.draft, i, v);
  }

  // Migrations.

  function DatabaseKey(service: Service): Key
    requires service.database.Some?
  {
    (service.id, service.database.value.component)
  }

  lemma {:induction false} MigratedIsWanted(input: Input, service: Service)
    requires DatabaseUnitsNamed(input) && service in Needing(input, input.catalog)
    ensures service in input.catalog && NeedsMigration(input, service) && DatabaseKey(service) in input.Wanted()
    ensures MigratedUnit(input, DatabaseKey(service))
  {
    NeedingMembers(input, input.catalog, service);
    assert DatabaseUnitNamed(input, service);
    assert RunsDatabase(input, service, service.database.value.component);
  }

  /** A service that is migrated has its database unit stopped or created by the same plan. */
  lemma MigratedIsTouched(input: Input, draft: Draft, service: Service)
    requires WellFormed(input) && IsDraft(input, draft) && service in draft.needing
    ensures service in input.catalog && NeedsMigration(input, service)
    ensures DatabaseKey(service) in KeysOf(draft.create) + KeysOf(draft.update)
  {
    MigratedIsWanted(input, service);
    MigrationStage(input, DatabaseKey(service));
  }

  lemma TouchedOnHost(d: Delivery, input: Input, host: Host, draft: Draft, k: Key)
    requires Setting(d, input, host) && Executable(input) && IsDraft(input, draft)
    requires k in KeysOf(draft.create) + KeysOf(draft.update) && k in host.containers
    ensures k in KeysOf(draft.update) && host.containers[k].owner == d.Us()
  {
    HostContainersAreOurs(d, input, host, k);
  }

  lemma StartExists(draft: Draft, k: Key) returns (i: nat)
    requires k in KeysOf(draft.starts)
    ensures i < |draft.starts| && KeyOf(draft.starts[i]) == k
  {
    var e :| e in draft.starts && KeyOf(e) == k;
    i :| i < |draft.starts| && draft.starts[i] == e;
  }

  lemma {:induction false} RunUntilMigration(d: Delivery, host: Host, input: Input, draft: Draft, i: nat)
    requires Migratable(input.desired, draft.needing) && i < |draft.needing|
    ensures Run(d, host, BeforeMigrations(input, draft) + MigrateSteps(input.desired, draft.needing[..i])).containers
            == Cleared(d, host, input, draft).containers
  {
    RunBeforeMigrations(d, host, input, draft);
    RunAppend(d, host, BeforeMigrations(input, draft), MigrateSteps(input.desired, draft.needing[..i]));
    RunMigrations(d, Cleared(d, host, input, draft), input.desired, draft.needing[..i]);
  }

  /** A migration only runs while its unit is down. */
  lemma {:induction false} MigrationsRunAlone(d: Delivery, input: Input, host: Host, plan: Plan, k: nat)
    requires Setting(d, input, host) && IsPlan(input, plan) && plan.blockers == []
    requires k < |plan.operations| && plan.operations[k].step.DatabaseMigrate?
    ensures var during := Run(d, host, StepsOf(plan.operations[..k])).containers;
            var unit := (plan.operations[k].step.service, plan.operations[k].step.component);
            unit in during ==> !during[unit].running
  {
    var draft := plan.draft;
    StepsBefore(Steps(input, draft), k);
    var i := MigrationPlace(input, draft, k);
    assert draft.needing[i] in draft.needing;
    MigratedIsTouched(input, draft, draft.needing[i]);
    RunUntilMigration(d, host, input, draft, i);
    if DatabaseKey(draft.needing[i]) in host.containers {
      TouchedOnHost(d, input, host, draft, DatabaseKey(draft.needing[i]));
    }
  }

  lemma StartPlace(input: Input, draft: Draft, i: nat)
    requires Migratable(input.desired, draft.needing) && i < |draft.starts|
    ensures |BeforeStarts(input, draft)| + 2 * i < |Steps(input, draft)|
    ensures Steps(input, draft)[|BeforeStarts(input, draft)| + 2 * i] == StartOf(draft.starts[i])
  {
    StartAt(draft.starts, i);
  }

  lemma NeedingStarts(input: Input, draft: Draft, service: Service) returns (i: nat)
    requires WellFormed(input) && IsDraft(input, draft) && service in draft.needing
    ensures service.database.Some? && i < |draft.starts| && KeyOf(draft.starts[i]) == DatabaseKey(service)
  {
    MigratedIsTouched(input, draft, service);
    StartsAreTouched(input, draft);
    i := StartExists(draft, DatabaseKey(service));
  }

  /** Every start stands behind every migration. */
  lemma StartBehindMigration(input: Input, draft: Draft, k: nat, i: nat) returns (j: nat)
    requires Migratable(input.desired, draft.needing) && i < |draft.starts|
    requires k < |Steps(input, draft)| && Steps(input, draft)[k].DatabaseMigrate?
    ensures k < j < |Steps(input, draft)| && Steps(input, draft)[j] == StartOf(draft.starts[i])
  {
    var m := MigrationPlace(input, draft, k);
    MigrationsLength(input.desired, draft.needing);
    StartPlace(input, draft, i);
    j := |BeforeStarts(input, draft)| + 2 * i;
  }

  lemma MigratedStart(input: Input, draft: Draft, k: nat) returns (j: nat)
    requires WellFormed(input) && IsDraft(input, draft) && Migratable(input.desired, draft.needing)
    requires k < |Steps(input, draft)| && Steps(input, draft)[k].DatabaseMigrate?
    ensures k < j < |Steps(input, draft)| && Steps(input, draft)[j].ServiceStart?
    ensures Steps(input, draft)[j].service == Steps(input, draft)[k].service
    ensures Steps(input, draft)[j].unit == Steps(input, draft)[k].component
  {
    var m := MigrationPlace(input, draft, k);
    var i := NeedingStarts(input, draft, draft.needing[m]);
    j := StartBehindMigration(input, draft, k, i);
  }

  /** And that unit is started later in the same plan. */
  lemma MigratedUnitsStart(input: Input, plan: Plan, k: nat) returns (j: nat)
    requires WellFormed(input) && IsPlan(input, plan)
    requires k < |plan.operations| && plan.operations[k].step.DatabaseMigrate?
    ensures k < j < |plan.operations| && plan.operations[j].step.ServiceStart?
    ensures plan.operations[j].step.service == plan.operations[k].step.service
    ensures plan.operations[j].step.unit == plan.operations[k].step.component
  {
    j := MigratedStart(input, plan.draft, k);
  }

  /** No retained service that comes back is migrated. */
  lemma RetainedIsNotMigrated(input: Input, service: Service)
    requires WellFormed(input) && Executable(input) && service in input.catalog
    requires !Enabled(input.baseline.services, service.id) && service.id in input.baseline.retained
    ensures !NeedsMigration(input, service)
  {
    assert SchemaKept(input, service);
  }

  /** A service that stays enabled is migrated only at an unknown or an unchanged schema. */
  lemma MigratedAtSameSchema(input: Input, service: Service)
    requires WellFormed(input) && Executable(input) && service in input.catalog && NeedsMigration(input, service)
    requires Enabled(input.baseline.services, service.id)
    ensures var before := SchemaOf(input.baseline.services, service.id);
            before.None? || before == SchemaOf(input.desired.services, service.id)
  {
    assert SchemaKept(input, service);
  }

  lemma DatabaseIsWanted(input: Input, service: Service)
    requires WellFormed(input) && service in input.catalog && service.database.Some?
    requires Enabled(input.desired.services, service.id)
    ensures DatabaseKey(service) in input.Wanted() && SchemaOf(input.desired.services, service.id).Some?
  {
    assert DatabaseUnitNamed(input, service);
    assert RunsDatabase(input, service, service.database.value.component);
  }

  /** The image of an executable plan's unit that stays is touched by repairs only. */
  lemma TouchedByRepair(input: Input, k: Key)
    requires NoUpgrade(input) && k in input.Wanted()
    ensures ImageTouched(input, k) <==>
            || k !in input.Was()
            || (SameConfiguration(input, k) && (IsMissing(input, k) || (input.repairDrift && IsManualChange(input, k))))
  {
    assert !ImageUpgrade(input, k);
  }

  /** Exactly when an executable plan migrates a service that stays enabled: no schema was recorded for
      it, or the container of its database is created, has gone missing, or is a manual change being
      reverted. */
  lemma MigratedWhileEnabled(input: Input, service: Service)
    requires WellFormed(input) && Executable(input) && service in input.catalog && service.database.Some?
    requires Enabled(input.baseline.services, service.id) && Enabled(input.desired.services, service.id)
    ensures NeedsMigration(input, service) <==>
            || SchemaOf(input.baseline.services, service.id).None?
            || DatabaseKey(service) !in input.Was()
            || (SameConfiguration(input, DatabaseKey(service))
                && (IsMissing(input, DatabaseKey(service))
                    || (input.repairDrift && IsManualChange(input, DatabaseKey(service)))))
  {
    DatabaseIsWanted(input, service);
    TouchedByRepair(input, DatabaseKey(service));
    assert SchemaKept(input, service);
  }

  predicate SameConfiguration(input: Input, k: Key) {
    k in input.Was() && k in input.Wanted() && input.Was()[k].fingerprint == input.Wanted()[k].fingerprint
  }
}
