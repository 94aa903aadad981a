/** `buildPlan` as a whole (scripts/plan.mjs, 661-746): what a plan is, and that the planner makes one. */
module Planner {
  import opened Sequences
  import opened Graph
  import opened Catalog
  import opened CatalogCheck
  import opened PlanTypes
  import opened PlanDrift
  import opened PlanDiff
  import opened PlanFolds
  import opened PlanBlockers
  import opened PlanOperations
  import opened DependencySort

  datatype Plan = Plan(draft: Draft, retained: map<string, Retained>, operations: seq<Operation>, blockers: seq<string>)

  /** What a rendered topology and a checked catalog promise the planner. */
  ghost predicate WellFormed(input: Input) {
    && Coherent(input.catalog) && DisabledHasNoUnits(input) && DatabaseUnitsNamed(input) && SchemasDeclared(input)
  }

  /** An order of the started units that puts dependencies first; the least such order. */
  ghost predicate IsStartOrder(input: Input, entries: seq<Entry>, starts: seq<Entry>) {
    IsSorted(DependsOn(input.catalog), entries, starts)
  }

  ghost predicate IsVolumes(input: Input, volumes: seq<string>) {
    forall v :: v in volumes <==> v in input.desired.volumes && v !in input.baseline.volumes
  }

  /** A network to make sure of: one that went missing, or one that is new. */
  ghost predicate NetworkDue(input: Input, n: string) {
    NetworkMissing(input, n) || (n in input.desired.networks && n !in input.baseline.networks)
  }

  ghost predicate IsDraft(input: Input, draft: Draft) {
    && IsCreate(input, draft.create) && IsUpdate(input, draft.update, 4) && IsRemove(input, draft.remove)
    && draft.needing == Needing(input, input.catalog)
    && ExactRepairs(input, draft.repairs)
    && (forall n :: n in draft.missingNetworks <==> NetworkMissing(input, n))
    && IsVolumes(input, draft.newVolumes)
    && (forall n :: n in draft.networks <==> NetworkDue(input, n)) && Distinct(draft.networks)
    && IsStartOrder(input, draft.create + draft.update, draft.starts)
  }

  ghost predicate IsPlan(input: Input, plan: Plan) {
    && IsDraft(input, plan.draft)
    && IsRetained(input, plan.retained)
    && Migratable(input.desired, plan.draft.needing)
    && plan.operations == Numbered(Steps(input, plan.draft))
    && (plan.blockers == [] <==> Executable(input))
  }

  method NewVolumes(input: Input) returns (volumes: seq<string>)
    ensures IsVolumes(input, volumes)
  {
    volumes := [];
    var all := input.desired.volumes;
    for i := 0 to |all|
      invariant forall v :: v in volumes <==> v in all[..i] && v !in input.baseline.volumes
    {
      assert all[..i + 1] == all[..i] + [all[i]];
      if all[i] !in input.baseline.volumes {
        volumes := volumes + [all[i]];
      }
    }
    assert all[..|all|] == all;
  }

  /** `[...new Set([...missingNetworks, ...newNetworks])]`. */
  method NetworksToEnsure(input: Input, missing: seq<string>) returns (networks: seq<string>)
    requires forall n :: n in missing <==> NetworkMissing(input, n)
    ensures (forall n :: n in networks <==> NetworkDue(input, n)) && Distinct(networks)
  {
    networks := [];
    var all := missing + input.desired.networks;
    for i := 0 to |all|
      invariant forall n :: n in networks <==> n in all[..i] && NetworkDue(input, n)
      invariant Distinct(networks)
    {
      assert all[..i + 1] == all[..i] + [all[i]];
      assert NetworkDue(input, all[i]) <==> all[i] in missing || all[i] !in input.baseline.networks;
      if (all[i] in missing || all[i] !in input.baseline.networks) && all[i] !in networks {
        networks := networks + [all[i]];
      }
    }
    assert all[..|all|] == all;
  }

  method RepairsAmong(input: Input, drift: seq<FileDrift>) returns (repairs: seq<FileDrift>)
    requires forall d :: d in drift <==> IsFileDrift(input, d)
    ensures ExactRepairs(input, repairs)
  {
    repairs := [];
    for i := 0 to |drift|
      invariant forall d :: d in repairs <==> d in drift[..i] && ToRepair(input, d)
    {
      assert drift[..i + 1] == drift[..i] + [drift[i]];
      assert IsFileDrift(input, drift[i]);
      if drift[i].FileMissing? || (drift[i].FileModified? && input.repairDrift) {
        repairs := repairs + [drift[i]];
      }
    }
    assert drift[..|drift|] == drift;
  }

  lemma {:induction false} NeedingMigratable(input: Input)
    requires SchemasDeclared(input)
    ensures Migratable(input.desired, Needing(input, input.catalog))
  {
    forall service | service in Needing(input, input.catalog)
      ensures service.database.Some? && service.id in input.desired.schemas
    {
      NeedingMembers(input, input.catalog, service);
    }
  }

  /** The diff with every repair folded in, before migrations. */
  method DiffAndRepairs(input: Input, drift: seq<Drift>, repairs: seq<FileDrift>)
    returns (create: seq<Entry>, update: seq<Entry>, remove: seq<Entry>)
    requires WellFormed(input) && ExactDrift(input, drift) && ExactRepairs(input, repairs)
    ensures IsCreate(input, create) && IsUpdate(input, update, 3) && IsRemove(input, remove)
  {
    create, update, remove := DiffUnits(input);
    update := FoldMissingIntoRepairs(input, drift, create, update);
    if input.repairDrift {
      update := FoldManualChangeIntoRepairs(input, drift, create, update);
    } else {
      NoManualFold(input, update);
    }
    update := FoldGatewayRestartForCaddyfile(input, repairs, create, update);
  }

  /** A coherent catalog always lets the started units be ordered. */
  method StartOrder(input: Input, entries: seq<Entry>) returns (starts: seq<Entry>)
    requires Coherent(input.catalog)
    ensures IsStartOrder(input, entries, starts)
  {
    var g := Dependencies(input.catalog);
    forall s, d | Edge(g, s, d) ensures ListsDependency(input.catalog, s, d) {
      EdgeIsListed(input.catalog, s, d);
    }
    CoherentCatalogNeverStuck(input.catalog, entries, g);
    var sorted := TopologicallySortByDependency(entries, g);
    starts := sorted.entries;
  }

  /** The diff, the repairs and the migrations: everything the operations are made from. */
  method CollectDraft(input: Input, drift: seq<Drift>, files: seq<FileDrift>, missingNetworks: seq<string>)
    returns (draft: Draft, blockers: seq<string>, retained: map<string, Retained>)
    requires WellFormed(input) && ExactDrift(input, drift)
    requires forall d :: d in files <==> IsFileDrift(input, d)
    requires forall n :: n in missingNetworks <==> NetworkMissing(input, n)
    ensures IsDraft(input, draft) && IsRetained(input, retained)
    ensures blockers == [] <==> MigrationsFit(input) && NoUpgrade(input) && RetentionAuthorised(input)
  {
    var repairs := RepairsAmong(input, files);
    var create, update, remove := DiffAndRepairs(input, drift, repairs);
    var upgradeBlockers := ComputeUpgradeBlockers(input, update);
    var retainBlockers;
    retainBlockers, retained := ComputeRetainedServices(input, create, remove);
    ImageKeysExact(input, create, update);
    var needing := ServicesNeedingMigration(input, ImageKeys(create + update));
    update := FoldMigrationOnlyIntoUpdates(input, needing, create, update);
    var migrationBlockers := MigrationBlockers(input, needing);
    blockers := migrationBlockers + upgradeBlockers + retainBlockers;
    var newVolumes := NewVolumes(input);
    var networks := NetworksToEnsure(input, missingNetworks);
    var starts := StartOrder(input, create + update);
    draft := Draft(create, update, remove, needing, repairs, missingNetworks, newVolumes, networks, starts);
  }

  method BuildPlan(input: Input) returns (plan: Plan)
    requires WellFormed(input)
    ensures IsPlan(input, plan)
  {
    var drift := ComputeDrift(input);
    var files := ComputeGeneratedDrift(input);
    var missingVolumes := ComputeMissing(input, input.observation.volumesStatus, input.observation.volumes, input.baseline.volumes);
    var missingNetworks :=
      ComputeMissing(input, input.observation.networksStatus, input.observation.networks, input.baseline.networks);
    var draft, before, retained := CollectDraft(input, drift, files, missingNetworks);
    NeedingMigratable(input);
    var operations := BuildOperations(input, draft);
    var blockers := ComputeBlockers(input, before, drift, files, missingVolumes);
    plan := Plan(draft, retained, operations, blockers);
  }
}
