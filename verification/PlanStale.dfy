/** A configuration that an apply does not bring back: an update fails while its unit is waited for, the
    operator reverts the manifest, and the plan that follows leaves the unit as it is. */
module PlanStale {
  import opened Sequences
  import opened Catalog
  import opened PlanTypes
  import opened PlanDrift
  import opened PlanDiff
  import opened PlanBlockers
  import opened PlanOperations
  import opened PlanSegments
  import opened Planner
  import opened PlanHost
  import opened PlanConvergence
  import opened PlanReadiness
  import opened PlanExamples

  const COMPOSE := "compose.yml"

  /** The update: schloss gets another configuration of the same image. */
  const UPDATE := Case(Some(1), NEW, ALL_RUNNING, map[COMPOSE := OLD], map[COMPOSE := Present(OLD)], false)
  const TO_NEW := Delivery("here", Live(Services(Some(1), NEW)), map[COMPOSE := NEW])

  /** And back: only the Compose file differs from the record, and it may be repaired. */
  const REVERT := Case(Some(1), OLD, ALL_RUNNING, map[COMPOSE := OLD], map[COMPOSE := Present(NEW)], true)
  const TO_OLD := Delivery("here", Live(Services(Some(1), OLD)), map[COMPOSE := OLD])

  const OWN_VOLUME: map<string, Owner> := map["schlussel-data" := TO_OLD.Us()]

  /** Everything runs as recorded. */
  const SERVING :=
    Host(AllRunning(TO_OLD, TO_OLD.compose), {}, OWN_VOLUME, map[], map["schlussel-data" := 1], TO_OLD.compose, TO_OLD.files)

  const SCHLOSS_NEW := TO_NEW.Created(Unit("schloss", "schloss", NEW))

  /** Three containers with the recorded images run, whatever configuration they were created from. */
  ghost predicate LooksAsRecorded(host: Host) {
    && host.containers.Keys == {("tor", "gateway"), DATABASE, SCHLOSS_UNIT}
    && (forall k :: k in host.containers ==> RunsImage(TO_OLD, Unit(k.1, k.1, OLD), host.containers[k]))
    && host.volumes == OWN_VOLUME && host.networks == map[]
  }

  lemma AllSeen(c: Case, host: Host)
    requires LooksAsRecorded(host) && c.resources == ALL_RUNNING
    ensures ContainersSeen(Installed(c).observation, host)
  {
    assert ALL_RUNNING[0] in ALL_RUNNING && ALL_RUNNING[1] in ALL_RUNNING && ALL_RUNNING[2] in ALL_RUNNING;
    forall r ensures r in ALL_RUNNING <==>
      ResourceKey(r) in host.containers && r == Seen(ResourceKey(r), host.containers[ResourceKey(r)])
    {
    }
  }

  lemma VolumeSeen(c: Case, host: Host)
    requires LooksAsRecorded(host)
    ensures NamedSeen(Available, Installed(c).observation.volumes, host.volumes)
    ensures NamedSeen(Available, Installed(c).observation.networks, host.networks)
  {
    assert Installed(c).observation.volumes[0] in Installed(c).observation.volumes;
  }

  lemma RecordedSetting(c: Case, d: Delivery, host: Host)
    requires c.resources == ALL_RUNNING && c.schema == Some(1) && d == Delivery("here", Live(Services(Some(1), c.configuration)), d.files)
    requires LooksAsRecorded(host) && FilesSeen(Installed(c), host)
    ensures Setting(d, Installed(c), host)
  {
    InstalledIsWellFormed(c);
    AllSeen(c, host);
    VolumeSeen(c, host);
    LiveUnits(Some(1), OLD);
    LiveUnits(Some(1), c.configuration);
  }

  lemma RecordedIsExecutable(c: Case)
    requires c.resources == ALL_RUNNING && c.schema == Some(1) && FilesFine(c)
    ensures Executable(Installed(c)) && forall drift :: !IsDrift(Installed(c), drift)
  {
    RunningUnits(c);
    InstalledIsExecutable(c);
    LiveUnits(Some(1), OLD);
    assert ALL_RUNNING[0] in ALL_RUNNING && ALL_RUNNING[1] in ALL_RUNNING && ALL_RUNNING[2] in ALL_RUNNING;
  }

  // What the two plans touch.

  /** Whatever stays the same is not touched before migrations are looked at. */
  lemma SameIsUntouched(c: Case, k: Key)
    requires c.resources == ALL_RUNNING && c.schema == Some(1) && FilesFine(c) && CADDYFILE !in c.recorded
    requires k == SCHLOSS_UNIT ==> c.configuration == OLD
    ensures !Touched(Installed(c), k, 3) && !ImageTouched(Installed(c), k)
  {
    var input := Installed(c);
    RecordedIsExecutable(c);
    LiveUnits(Some(1), OLD);
    LiveUnits(Some(1), c.configuration);
    assert !IsDrift(input, Missing(k)) && !IsDrift(input, ManualChange(k));
    assert !CaddyfileToRepair(input);
  }

  lemma NothingIsMigrated(c: Case, service: Service)
    requires c.resources == ALL_RUNNING && c.schema == Some(1) && FilesFine(c) && CADDYFILE !in c.recorded
    requires service in CATALOG
    ensures !NeedsMigration(Installed(c), service)
  {
    SameIsUntouched(c, DATABASE);
  }

  lemma OnlySchlossIsTouched(c: Case, k: Key)
    requires c.resources == ALL_RUNNING && c.schema == Some(1) && FilesFine(c) && CADDYFILE !in c.recorded
    ensures Touched(Installed(c), k, 4) <==> k == SCHLOSS_UNIT && c.configuration != OLD
  {
    var input := Installed(c);
    LiveUnits(Some(1), OLD);
    LiveUnits(Some(1), c.configuration);
    if k != SCHLOSS_UNIT || c.configuration == OLD {
      SameIsUntouched(c, k);
      forall service | service in input.catalog ensures !NeedsMigration(input, service) {
        NothingIsMigrated(c, service);
      }
    }
  }

  lemma UpdateLists(draft: Draft)
    requires IsDraft(Installed(UPDATE), draft)
    ensures KeysOf(draft.create) == {} && KeysOf(draft.remove) == {} && KeysOf(draft.update) == {SCHLOSS_UNIT}
    ensures KeysOf(draft.starts) == {SCHLOSS_UNIT}
  {
    LiveUnits(Some(1), OLD);
    LiveUnits(Some(1), NEW);
    forall k ensures k in KeysOf(draft.update) <==> k == SCHLOSS_UNIT {
      OnlySchlossIsTouched(UPDATE, k);
    }
    StartsAreTouched(Installed(UPDATE), draft);
  }

  // What the failed update leaves.

  lemma ServingLooksAsRecorded()
    ensures LooksAsRecorded(SERVING) && FilesSeen(Installed(UPDATE), SERVING)
  {
    LiveUnits(Some(1), OLD);
  }

  lemma UpdateSetting()
    ensures Setting(TO_NEW, Installed(UPDATE), SERVING) && Executable(Installed(UPDATE))
  {
    ServingLooksAsRecorded();
    RecordedSetting(UPDATE, TO_NEW, SERVING);
    RecordedIsExecutable(UPDATE);
  }

  /** Stopping one unit of ours and starting it again replaces its container. */
  lemma Restarted(d: Delivery, containers: map<Key, Container>, k: Key)
    requires k in containers && containers[k].owner == d.Us() && k in d.compose
    ensures var stopped := Stopped(d, Stopped(d, containers, {k}), {});
            Started(d, Dropped(d, stopped, {}), d.compose, {k}) == containers[k := d.Created(d.compose[k])]
  {
  }

  lemma SchlossIsServed()
    ensures SCHLOSS_UNIT in SERVING.containers && SERVING.containers[SCHLOSS_UNIT].owner == TO_NEW.Us()
    ensures SCHLOSS_UNIT in TO_NEW.compose && TO_NEW.Created(TO_NEW.compose[SCHLOSS_UNIT]) == SCHLOSS_NEW
  {
    LiveUnits(Some(1), OLD);
    LiveUnits(Some(1), NEW);
  }

  lemma StartedSoFar(draft: Draft, i: nat)
    requires KeysOf(draft.starts) == {SCHLOSS_UNIT} && i < |draft.starts|
    ensures KeysOf(draft.starts[..i + 1]) == {SCHLOSS_UNIT}
  {
    var part := draft.starts[..i + 1];
    assert part[i] in part && KeyOf(part[i]) in KeysOf(part);
    forall e | e in part ensures KeyOf(e) == SCHLOSS_UNIT {
      assert e in draft.starts && KeyOf(e) in KeysOf(draft.starts);
    }
  }

  lemma WaitingFor(draft: Draft, i: nat)
    requires KeysOf(draft.remove) == {} && KeysOf(draft.update) == {SCHLOSS_UNIT} && draft.update != []
    requires i < |draft.starts| && KeysOf(draft.starts[..i + 1]) == {SCHLOSS_UNIT}
    ensures Waiting(TO_NEW, SERVING, Installed(UPDATE), draft, i) == SERVING.containers[SCHLOSS_UNIT := SCHLOSS_NEW]
    ensures Cleared(TO_NEW, SERVING, Installed(UPDATE), draft).files == TO_NEW.files
  {
    SchlossIsServed();
    Restarted(TO_NEW, SERVING.containers, SCHLOSS_UNIT);
  }

  lemma NothingElse(draft: Draft)
    requires IsDraft(Installed(UPDATE), draft)
    ensures draft.newVolumes == [] && draft.networks == []
  {
    forall n ensures n !in draft.networks {
      assert !NetworkDue(Installed(UPDATE), n);
    }
    EmptyWithoutMembers(draft.newVolumes);
    EmptyWithoutMembers(draft.networks);
  }

  lemma NothingNew(d: Delivery, host: Host, input: Input, draft: Draft)
    requires draft.newVolumes == [] && draft.networks == []
    ensures var cleared := Cleared(d, host, input, draft);
            cleared.volumes == host.volumes && cleared.networks == host.networks
  {
    assert Ensured(d, host.volumes, Elements(draft.newVolumes)) == host.volumes;
    assert Relabelled(d, host.networks, Elements(draft.networks)) == host.networks;
  }

  /** The update has failed while schloss was waited for: it runs with the new configuration. */
  lemma FailedUpdate(plan: Plan, k: nat)
    requires IsPlan(Installed(UPDATE), plan) && k < |plan.operations| && plan.operations[k].step.ReadinessWait?
    ensures var after := Run(TO_NEW, SERVING, StepsOf(plan.operations[..k]));
            && after.containers == SERVING.containers[SCHLOSS_UNIT := SCHLOSS_NEW]
            && after.volumes == OWN_VOLUME && after.networks == map[] && after.files == TO_NEW.files
  {
    var draft := plan.draft;
    StepsBefore(Steps(Installed(UPDATE), draft), k);
    var i := WaitPlace(Installed(UPDATE), draft, k);
    RunUntilWait(TO_NEW, SERVING, Installed(UPDATE), draft, i);
    UpdateLists(draft);
    NoEntries(draft.update);
    StartedSoFar(draft, i);
    WaitingFor(draft, i);
    NothingElse(draft);
    NothingNew(TO_NEW, SERVING, Installed(UPDATE), draft);
  }

  // What the plan that goes back makes of it.

  lemma ReplacedLooksAsRecorded(after: Host)
    requires LooksAsRecorded(SERVING) && after.containers == SERVING.containers[SCHLOSS_UNIT := SCHLOSS_NEW]
    requires after.volumes == OWN_VOLUME && after.networks == map[]
    ensures LooksAsRecorded(after)
  {
  }

  lemma NewFilesSeen(after: Host)
    requires after.files == map[COMPOSE := NEW]
    ensures FilesSeen(Installed(REVERT), after)
  {
  }

  lemma RevertSetting(after: Host)
    requires LooksAsRecorded(after) && after.files == TO_NEW.files
    ensures Setting(TO_OLD, Installed(REVERT), after)
  {
    NewFilesSeen(after);
    RecordedSetting(REVERT, TO_OLD, after);
  }

  lemma SchlossWasOld(c: Case)
    requires c.schema == Some(1)
    ensures SCHLOSS_UNIT in Installed(c).Was() && SCHLOSS_UNIT in Installed(c).Wanted()
    ensures Installed(c).Wanted()[SCHLOSS_UNIT].fingerprint == c.configuration
  {
    LiveUnits(Some(1), OLD);
    LiveUnits(Some(1), c.configuration);
  }

  lemma SchlossIsStale(after: Host)
    requires SCHLOSS_UNIT in after.containers && after.containers[SCHLOSS_UNIT].fingerprint == NEW
    ensures Stale(Installed(REVERT), after, SCHLOSS_UNIT)
  {
    SchlossWasOld(REVERT);
    OnlySchlossIsTouched(REVERT, SCHLOSS_UNIT);
  }

  /** What a failed update looks like to the operator who goes back. */
  ghost predicate HalfUpdated(host: Host) {
    LooksAsRecorded(host) && host.files == TO_NEW.files && host.containers[SCHLOSS_UNIT] == SCHLOSS_NEW
  }

  lemma UpdateLeaves(plan: Plan, k: nat)
    requires IsPlan(Installed(UPDATE), plan) && k < |plan.operations| && plan.operations[k].step.ReadinessWait?
    ensures HalfUpdated(Run(TO_NEW, SERVING, StepsOf(plan.operations[..k])))
  {
    FailedUpdate(plan, k);
    ServingLooksAsRecorded();
    ReplacedLooksAsRecorded(Run(TO_NEW, SERVING, StepsOf(plan.operations[..k])));
  }

  /** A stale unit keeps an executable plan from converging, and stays as it was. */
  lemma {:induction false} StaleRemains(d: Delivery, input: Input, host: Host, plan: Plan, k: Key)
    requires Setting(d, input, host) && IsPlan(input, plan) && plan.blockers == [] && Stale(input, host, k)
    ensures var after := Run(d, host, StepsOf(plan.operations));
            && !Converged(d, input, host, after)
            && k in after.containers && after.containers[k] == host.containers[k]
  {
    Convergence(d, input, host, plan);
    StaleStays(d, input, host, Run(d, host, StepsOf(plan.operations)), k);
  }

  lemma RevertIsNotBlocked(second: Plan)
    requires IsPlan(Installed(REVERT), second)
    ensures second.blockers == []
  {
    RecordedIsExecutable(REVERT);
  }

  lemma {:induction false} RevertLeaves(between: Host, second: Plan)
    requires HalfUpdated(between) && IsPlan(Installed(REVERT), second)
    ensures Setting(TO_OLD, Installed(REVERT), between) && second.blockers == []
    ensures var after := Run(TO_OLD, between, StepsOf(second.operations));
            && !Converged(TO_OLD, Installed(REVERT), between, after)
            && SCHLOSS_UNIT in after.containers && after.containers[SCHLOSS_UNIT] == SCHLOSS_NEW
  {
    RevertSetting(between);
    RevertIsNotBlocked(second);
    SchlossIsStale(between);
    StaleRemains(TO_OLD, Installed(REVERT), between, second, SCHLOSS_UNIT);
  }

  lemma StaleStays(d: Delivery, input: Input, before: Host, after: Host, k: Key)
    requires Served(d, input, before, after) && Stale(input, before, k)
    ensures k in after.containers && after.containers[k] == before.containers[k]
  {
    assert SettledAt(d, input, before, after.containers, k);
  }

  /** Neither plan is blocked. The first fails while it waits for schloss; the second runs to its end, and
      schloss still runs with the configuration of the first. */
  lemma FailedUpdateStays(plan: Plan, k: nat, second: Plan)
    requires IsPlan(Installed(UPDATE), plan) && k < |plan.operations| && plan.operations[k].step.ReadinessWait?
    requires IsPlan(Installed(REVERT), second)
    ensures Setting(TO_NEW, Installed(UPDATE), SERVING) && plan.blockers == []
    ensures var between := Run(TO_NEW, SERVING, StepsOf(plan.operations[..k]));
            var after := Run(TO_OLD, between, StepsOf(second.operations));
            && Setting(TO_OLD, Installed(REVERT), between) && second.blockers == []
            && !Converged(TO_OLD, Installed(REVERT), between, after)
            && SCHLOSS_UNIT in after.containers && after.containers[SCHLOSS_UNIT] == SCHLOSS_NEW
  {
    UpdateSetting();
    UpdateLeaves(plan, k);
    RevertLeaves(Run(TO_NEW, SERVING, StepsOf(plan.operations[..k])), second);
  }
}
