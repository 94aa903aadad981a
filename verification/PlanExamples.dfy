/** Concrete inputs: that the hypotheses of the planner's results hold together, and where the code does
    less than its comments say. */
module PlanExamples {
  import opened Sequences
  import opened Graph
  import opened Catalog
  import opened CatalogCheck
  import opened PlanTypes
  import opened PlanDrift
  import opened PlanDiff
  import opened PlanBlockers
  import opened PlanOperations
  import opened Planner
  import opened PlanHost
  import opened PlanConvergence
  import opened PlanIdempotence
  import opened PlanImages

  const TOR := Service("tor", true, ["gateway"], [], "gateway", None)
  const SCHLUSSEL :=
    Service("schlussel", true, ["schlussel"], ["tor"], "schlussel", Some(Database("schlussel", "schlussel-data")))
  const SCHLOSS := Service("schloss", true, ["schloss"], ["tor", "schlussel"], "schloss", None)

  /** The mandatory services of the catalog. */
  const CATALOG := [TOR, SCHLUSSEL, SCHLOSS]

  lemma CatalogById()
    ensures ById(CATALOG) == map["tor" := TOR, "schlussel" := SCHLUSSEL, "schloss" := SCHLOSS]
  {
    assert CATALOG[..2] == [TOR, SCHLUSSEL] && CATALOG[..2][..1] == [TOR] && CATALOG[..2][..1][..0] == [];
    assert ById([TOR]) == map["tor" := TOR];
    assert ById([TOR, SCHLUSSEL]) == map["tor" := TOR, "schlussel" := SCHLUSSEL];
  }

  lemma CatalogArtifacts()
    ensures AllArtifacts(CATALOG) == ["gateway", "schlussel", "schloss"]
  {
    assert CATALOG[..2] == [TOR, SCHLUSSEL] && CATALOG[..2][..1] == [TOR] && CATALOG[..2][..1][..0] == [];
    assert AllArtifacts([TOR]) == ["gateway"];
    assert AllArtifacts([TOR, SCHLUSSEL]) == ["gateway", "schlussel"];
  }

  lemma CatalogIsAcyclic()
    ensures Acyclic(CATALOG)
  {
    CatalogById();
    AcyclicExactly(CATALOG);
    var g, order := DependsOn(CATALOG), ["tor", "schlussel", "schloss"];
    assert DependenciesFirst(g, order) by {
      assert order[..1] == ["tor"] && order[..2] == ["tor", "schlussel"];
    }
    if p :| Cycle(g, p) {
      assert Edge(g, p[0], p[1]);
      assert p[0] == order[0] || p[0] == order[1] || p[0] == order[2];
      var i: nat :| 0 <= i < |order| && order[i] == p[0];
      OrderRefutesCycle(g, order, i, p);
    }
  }

  lemma CatalogIsCoherent()
    ensures Coherent(CATALOG)
  {
    CatalogArtifacts();
    CatalogIsAcyclic();
    assert CATALOG[0].id == "tor" && CATALOG[1].id == "schlussel" && CATALOG[2].id == "schloss";
  }

  const OLD := "configuration"
  const NEW := "other configuration"

  function UnitNamed(name: string): Unit { Unit(name, name, OLD) }

  function Services(schema: Option<int>, configuration: string): map<string, ServiceState> {
    map["tor" := ServiceState(true, map["gateway" := UnitNamed("gateway")], None),
        "schlussel" := ServiceState(true, map["schlussel" := UnitNamed("schlussel")], schema),
        "schloss" := ServiceState(true, map["schloss" := Unit("schloss", "schloss", configuration)], None)]
  }

  const DATABASE: Key := ("schlussel", "schlussel")

  function Running(service: string, unit: string): Resource {
    Resource(service, unit, unit, true, true, Some("here"))
  }

  const ALL_RUNNING := [Running("tor", "gateway"), Running("schlussel", "schlussel"), Running("schloss", "schloss")]
  const WITHOUT_DATABASE := [Running("tor", "gateway"), Running("schloss", "schloss")]

  /** An installation: the recorded schema of its database, the configuration that schloss is to get, the
      containers that are seen, and the recorded and seen generated files. */
  datatype Case = Case(schema: Option<int>, configuration: string, resources: seq<Resource>,
                       recorded: map<string, string>, found: map<string, FileState>, repairDrift: bool)

  function Plain(schema: Option<int>, configuration: string, resources: seq<Resource>): Case {
    Case(schema, configuration, resources, map[], map[], false)
  }

  function Installed(c: Case): Input {
    Input(
      Baseline(Applied, Some("here"), Some("r1"), Some("digest"), Services(c.schema, OLD), ["schlussel-data"], [],
               c.recorded, map[]),
      Desired("r1", "digest", Services(Some(1), c.configuration), ["schlussel-data"], [],
              map["schlussel" := SchemaStep(1, 1)]),
      CATALOG,
      Observation(Available, c.resources, Available, [Labelled("schlussel-data", true, Some("here"))],
                  Available, [], Available, c.found),
      c.repairDrift, {}, map[], {})
  }

  lemma LiveUnits(schema: Option<int>, configuration: string)
    ensures Live(Services(schema, configuration)) ==
            map[("tor", "gateway") := UnitNamed("gateway"), DATABASE := UnitNamed("schlussel"),
                ("schloss", "schloss") := Unit("schloss", "schloss", configuration)]
  {
  }

  /** No unit is stopped, changed or unknown to the baseline. */
  ghost predicate OnlyMissing(input: Input) {
    forall drift :: IsDrift(input, drift) ==> drift.Missing?
  }

  lemma InstalledIsWellFormed(c: Case)
    ensures WellFormed(Installed(c))
  {
    CatalogIsCoherent();
  }

  lemma SameImage(input: Input, k: Key)
    requires k in input.Was() && k in input.Wanted() ==> input.Was()[k].image == input.Wanted()[k].image
    ensures !ImageUpgrade(input, k)
  {
  }

  lemma InstalledKeepsImages(c: Case, k: Key)
    ensures !ImageUpgrade(Installed(c), k)
  {
    LiveUnits(c.schema, OLD);
    LiveUnits(Some(1), c.configuration);
    SameImage(Installed(c), k);
  }

  lemma InstalledIsNoUpgrade(c: Case)
    requires c.schema.Some? ==> c.schema.value == 1
    ensures NoUpgrade(Installed(c)) && MigrationsFit(Installed(c))
  {
    var input := Installed(c);
    forall k ensures !ImageUpgrade(input, k) {
      InstalledKeepsImages(c, k);
    }
  }

  /** Every recorded file is there, and what was modified may be repaired. */
  predicate FilesFine(c: Case) {
    forall f :: f in c.recorded ==>
      f in c.found && c.found[f].Present? && (c.found[f].digest == c.recorded[f] || c.repairDrift)
  }

  lemma InstalledIsExecutable(c: Case)
    requires c.schema.Some? ==> c.schema.value == 1
    requires OnlyMissing(Installed(c)) && FilesFine(c)
    ensures Executable(Installed(c))
  {
    var input := Installed(c);
    InstalledIsNoUpgrade(c);
    assert input.Was().Keys == input.Wanted().Keys by {
      LiveUnits(c.schema, OLD);
      LiveUnits(Some(1), c.configuration);
    }
    assert input.observation.volumes[0] in input.observation.volumes;
    assert DriftAllowed(input) && FilesAllowed(input) && RetentionAuthorised(input) && VolumesThere(input);
  }

  lemma RunningUnits(c: Case)
    requires forall r :: r in c.resources ==> r in ALL_RUNNING
    ensures OnlyMissing(Installed(c))
  {
    var input := Installed(c);
    LiveUnits(c.schema, OLD);
    forall drift | IsDrift(input, drift) ensures drift.Missing? {
      if drift.ManualChange? {
        var own := OwnAt(input, c.resources, drift.key);
      }
    }
  }

  const MISSING := Plain(Some(1), OLD, WITHOUT_DATABASE)
  const UNKNOWN := Plain(None, OLD, ALL_RUNNING)

  // The comment above migrationOperations says that a migration of an enabled service only ever
  // appears in a plan that is blocked.

  /** Nothing blocks this plan, and yet it migrates a service that was and stays enabled at its
      schema: its container has gone missing. */
  lemma MissingContainerMigrates()
    ensures var input := Installed(MISSING);
            && WellFormed(input) && Executable(input) && NeedsMigration(input, SCHLUSSEL)
            && Enabled(input.baseline.services, SCHLUSSEL.id) && !SchemaDiffers(input, SCHLUSSEL.id)
  {
    var input := Installed(MISSING);
    RunningUnits(MISSING);
    InstalledIsWellFormed(MISSING);
    InstalledIsExecutable(MISSING);
    LiveUnits(Some(1), OLD);
    assert IsMissing(input, DATABASE);
  }

  lemma AllAreThere()
    ensures forall k :: !IsMissing(Installed(UNKNOWN), k)
  {
    LiveUnits(None, OLD);
    assert ALL_RUNNING[0] in ALL_RUNNING && ALL_RUNNING[1] in ALL_RUNNING && ALL_RUNNING[2] in ALL_RUNNING;
  }

  lemma UnknownSchemaNeedsMigration(resources: seq<Resource>)
    ensures NeedsMigration(Installed(Plain(None, OLD, resources)), SCHLUSSEL)
  {
  }

  /** Nor this one, where every container runs as recorded, and only the schema was never recorded. */
  lemma UnknownSchemaMigrates()
    ensures var input := Installed(UNKNOWN);
            && WellFormed(input) && Executable(input) && NeedsMigration(input, SCHLUSSEL)
            && Enabled(input.baseline.services, SCHLUSSEL.id) && forall drift :: !IsDrift(input, drift)
  {
    RunningUnits(UNKNOWN);
    InstalledIsWellFormed(UNKNOWN);
    InstalledIsExecutable(UNKNOWN);
    UnknownSchemaNeedsMigration(ALL_RUNNING);
    AllAreThere();
  }

  // A first apply.

  const APPLY := Delivery("here", Live(Services(Some(1), OLD)), map[])

  const EMPTY_HOST := Host(map[], {}, map[], map[], map[], map[], map[])

  const FOREIGN := Owner(false, None)

  /** A first apply on a host with these volumes and nothing else. */
  function FirstApply(volumes: seq<Labelled>): Input {
    Input(
      Baseline(Bootstrap, None, None, None, map[], [], [], map[], map[]),
      Desired("r1", "digest", Services(Some(1), OLD), ["schlussel-data"], [], map["schlussel" := SchemaStep(1, 1)]),
      CATALOG,
      Observation(Available, [], Available, volumes, Available, [], Available, map[]),
      false, {}, map[], {})
  }

  lemma FirstApplyIsNoUpgrade(volumes: seq<Labelled>)
    ensures FirstApply(volumes).Was() == map[]
    ensures NoUpgrade(FirstApply(volumes)) && MigrationsFit(FirstApply(volumes))
  {
    var input := FirstApply(volumes);
    assert LiveKeys(input.baseline.services) == {};
    forall k ensures !ImageUpgrade(input, k) {
    }
  }

  lemma FirstApplyIsExecutable(volumes: seq<Labelled>)
    ensures Executable(FirstApply(volumes))
  {
    var input := FirstApply(volumes);
    FirstApplyIsNoUpgrade(volumes);
    assert DriftAllowed(input) && FilesAllowed(input) && RetentionAuthorised(input) && VolumesThere(input);
  }

  lemma FirstApplyIsWellFormed(volumes: seq<Labelled>)
    ensures WellFormed(FirstApply(volumes))
  {
    CatalogIsCoherent();
  }

  lemma FirstApplyMirrors(volumes: seq<Labelled>, there: map<string, Owner>)
    requires NamedSeen(Available, volumes, there)
    ensures Mirrors(FirstApply(volumes), EMPTY_HOST.(volumes := there))
    ensures StatusesKnown(FirstApply(volumes)) && Delivers(APPLY, FirstApply(volumes))
  {
  }

  lemma FirstApplySetting(volumes: seq<Labelled>, there: map<string, Owner>)
    requires NamedSeen(Available, volumes, there)
    ensures Setting(APPLY, FirstApply(volumes), EMPTY_HOST.(volumes := there))
  {
    FirstApplyMirrors(volumes, there);
    FirstApplyIsWellFormed(volumes);
    FirstApplyIsNoUpgrade(volumes);
  }

  /** The hypotheses of the convergence theorems hold together. */
  lemma FirstApplyIsPossible()
    ensures Setting(APPLY, FirstApply([]), EMPTY_HOST) && Executable(FirstApply([]))
  {
    FirstApplySetting([], map[]);
    FirstApplyIsExecutable([]);
  }

  // An apply leaves a volume under other labels as it is, and the next plan asks for the installation's own.

  const UNLABELLED := [Labelled("schlussel-data", false, None)]

  const FOREIGN_VOLUME := EMPTY_HOST.(volumes := map["schlussel-data" := FOREIGN])

  /** The same topology, planned again when everything runs. */
  function Again(): Input {
    var input := Installed(Plain(Some(1), OLD, ALL_RUNNING));
    input.(observation := input.observation.(volumes := UNLABELLED))
  }

  lemma UnlabelledStays(volumes: set<string>)
    requires volumes == {"schlussel-data"}
    ensures Ensured(APPLY, FOREIGN_VOLUME.volumes, volumes) == FOREIGN_VOLUME.volumes
  {
  }

  lemma NoNetworks(networks: seq<string>)
    requires networks == []
    ensures Relabelled(APPLY, map[], Elements(networks)) == map[]
  {
  }

  lemma UnlabelledIsSeen()
    ensures NamedSeen(Available, UNLABELLED, FOREIGN_VOLUME.volumes)
  {
    assert UNLABELLED[0] in UNLABELLED;
  }

  lemma FirstApplyVolumes(volumes: seq<Labelled>, draft: Draft)
    requires IsDraft(FirstApply(volumes), draft)
    ensures Elements(draft.newVolumes) == {"schlussel-data"} && draft.networks == [] && AnyChange(FirstApply(volumes), draft)
  {
    forall n ensures n !in draft.networks {
      assert !NetworkDue(FirstApply(volumes), n);
    }
    EmptyWithoutMembers(draft.networks);
  }

  lemma {:induction false} AfterPlan(d: Delivery, input: Input, host: Host, plan: Plan)
    requires Setting(d, input, host) && IsPlan(input, plan) && Executable(input) && NothingStale(input, host)
    ensures plan.blockers == []
    ensures var after := Run(d, host, StepsOf(plan.operations));
            && after.containers == AllRunning(d, d.compose)
            && after.volumes == Ensured(d, host.volumes, Elements(plan.draft.newVolumes))
            && after.networks == Relabelled(d, host.networks, Elements(plan.draft.networks))
  {
    StepsOfNumbered(Steps(input, plan.draft));
    RunPlan(d, host, input, plan.draft);
    ContainersSettle(d, input, host, plan.draft);
    SettledExactly(d, input, host, Finished(d, host, input, plan.draft).containers);
  }

  lemma AppliedOver(volumes: seq<Labelled>, there: map<string, Owner>, plan: Plan)
    requires IsPlan(FirstApply(volumes), plan) && NamedSeen(Available, volumes, there)
    ensures plan.blockers == []
    ensures var after := Run(APPLY, EMPTY_HOST.(volumes := there), StepsOf(plan.operations));
            && after.containers == AllRunning(APPLY, APPLY.compose)
            && after.volumes == Ensured(APPLY, there, Elements(plan.draft.newVolumes))
            && after.networks == Relabelled(APPLY, map[], Elements(plan.draft.networks))
  {
    FirstApplySetting(volumes, there);
    FirstApplyIsExecutable(volumes);
    FirstApplyIsNoUpgrade(volumes);
    AfterPlan(APPLY, FirstApply(volumes), EMPTY_HOST.(volumes := there), plan);
  }

  /** What the first apply leaves on that host. */
  lemma AppliedOverForeignVolume(plan: Plan)
    requires IsPlan(FirstApply(UNLABELLED), plan)
    ensures plan.blockers == []
    ensures var after := Run(APPLY, FOREIGN_VOLUME, StepsOf(plan.operations));
            && after.containers == AllRunning(APPLY, APPLY.compose)
            && after.volumes == FOREIGN_VOLUME.volumes && after.networks == map[]
  {
    UnlabelledIsSeen();
    FirstApplyVolumes(UNLABELLED, plan.draft);
    UnlabelledStays(Elements(plan.draft.newVolumes));
    NoNetworks(plan.draft.networks);
    AppliedOver(UNLABELLED, FOREIGN_VOLUME.volumes, plan);
  }

  lemma AgainSeesContainers(after: Host)
    requires after.containers == AllRunning(APPLY, APPLY.compose)
    ensures ContainersSeen(Again().observation, after)
  {
    LiveUnits(Some(1), OLD);
    assert ALL_RUNNING[0] in ALL_RUNNING && ALL_RUNNING[1] in ALL_RUNNING && ALL_RUNNING[2] in ALL_RUNNING;
  }

  lemma AgainMirrors(after: Host)
    requires after.containers == AllRunning(APPLY, APPLY.compose)
    requires after.volumes == FOREIGN_VOLUME.volumes && after.networks == map[]
    ensures Mirrors(Again(), after)
  {
    AgainSeesContainers(after);
    UnlabelledIsSeen();
  }

  lemma FirstApplyRetainsNothing(volumes: seq<Labelled>, retained: map<string, Retained>)
    requires IsRetained(FirstApply(volumes), retained)
    ensures retained == map[]
  {
    FirstApplyIsNoUpgrade(volumes);
    forall id ensures id !in retained {
      assert RetainedRight(FirstApply(volumes), retained, id);
    }
  }

  lemma AgainResolves(plan: Plan)
    requires plan.retained == map[]
    ensures Resolved(APPLY, FirstApply(UNLABELLED), plan, Again().baseline)
  {
  }

  lemma AgainIsBlocked()
    ensures WellFormed(Again()) && !Executable(Again())
  {
    CatalogIsCoherent();
    assert VolumeMissing(Again(), "schlussel-data");
  }

  /** Nothing blocks the first apply, and afterwards no plan of the same topology is executable. */
  lemma ForeignVolumeBlocksNextPlan(plan: Plan)
    requires IsPlan(FirstApply(UNLABELLED), plan)
    ensures plan.blockers == []
    ensures Replanned(APPLY, FirstApply(UNLABELLED), plan, Run(APPLY, FOREIGN_VOLUME, StepsOf(plan.operations)), Again())
    ensures WellFormed(Again()) && !Executable(Again())
  {
    AppliedOverForeignVolume(plan);
    FirstApplyRetainsNothing(UNLABELLED, plan.retained);
    AgainResolves(plan);
    AgainMirrors(Run(APPLY, FOREIGN_VOLUME, StepsOf(plan.operations)));
    AgainIsBlocked();
  }

  // A unit that is started although its image is not on the host.

  const WITHOUT_SCHLOSS := [Running("tor", "gateway"), Running("schlussel", "schlussel")]

  const PRUNED := Plain(Some(1), NEW, WITHOUT_SCHLOSS)

  const SCHLOSS_UNIT: Key := ("schloss", "schloss")

  /** The container of schloss and its image are gone. */
  function PrunedHost(): Host {
    var delivered := Delivery("here", Live(Services(Some(1), OLD)), map[]);
    Host(map[("tor", "gateway") := delivered.Created(UnitNamed("gateway")), DATABASE := delivered.Created(UnitNamed("schlussel"))],
         {"gateway", "schlussel"}, map["schlussel-data" := delivered.Us()], map[], map[], delivered.compose, map[])
  }

  const RECONFIGURE := Delivery("here", Live(Services(Some(1), NEW)), map[])

  lemma PrunedMirrors()
    ensures Mirrors(Installed(PRUNED), PrunedHost()) && ImagesKept(PrunedHost())
  {
    var input := Installed(PRUNED);
    assert WITHOUT_SCHLOSS[0] in WITHOUT_SCHLOSS && WITHOUT_SCHLOSS[1] in WITHOUT_SCHLOSS;
    assert input.observation.volumes[0] in input.observation.volumes;
  }

  lemma PrunedSetting()
    ensures Setting(RECONFIGURE, Installed(PRUNED), PrunedHost())
  {
    PrunedMirrors();
    InstalledIsWellFormed(PRUNED);
    LiveUnits(Some(1), OLD);
    LiveUnits(Some(1), NEW);
  }

  lemma SchlossIsUnpulled()
    ensures Unpulled(Installed(PRUNED), SCHLOSS_UNIT)
  {
    LiveUnits(Some(1), OLD);
    LiveUnits(Some(1), NEW);
    assert OwnAt(Installed(PRUNED), WITHOUT_SCHLOSS, SCHLOSS_UNIT).None?;
  }

  lemma OnlySchlossUsesImage(c: Case, k: Key)
    requires k in Installed(c).Wanted() && Installed(c).Wanted()[k].image == "schloss"
    ensures k == SCHLOSS_UNIT
  {
    LiveUnits(Some(1), c.configuration);
  }

  lemma SchlossIsUnsupplied()
    ensures Unpulled(Installed(PRUNED), SCHLOSS_UNIT)
    ensures !UnpulledSupplied(Installed(PRUNED), PrunedHost(), SCHLOSS_UNIT)
  {
    var input := Installed(PRUNED);
    SchlossIsUnpulled();
    LiveUnits(Some(1), NEW);
    forall k | ImageTouched(input, k) ensures input.Wanted()[k].image != "schloss" {
      if input.Wanted()[k].image == "schloss" {
        OnlySchlossUsesImage(PRUNED, k);
      }
    }
  }

  /** Nothing blocks this plan, and one of its starts does not find its image. */
  lemma PrunedImageIsMissed(plan: Plan)
    requires IsPlan(Installed(PRUNED), plan)
    ensures plan.blockers == []
    ensures var input, host := Installed(PRUNED), PrunedHost();
            exists k :: 0 <= k < |plan.operations| && !FindsImage(RECONFIGURE, input, host, StepsOf(plan.operations), k)
  {
    PrunedSetting();
    PrunedMirrors();
    RunningUnits(PRUNED);
    InstalledIsExecutable(PRUNED);
    SchlossIsUnsupplied();
    StepsFindImages(RECONFIGURE, Installed(PRUNED), PrunedHost(), plan);
  }
}
