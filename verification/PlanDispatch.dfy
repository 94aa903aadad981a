/** A plan can always be dispatched: its actions are on its mode's whitelist, every pull finds the trust
    its image was verified under, its step ids are distinct, and its commit comes last
    (scripts/plan-v2.mjs, scripts/bootstrap-actions.mjs, scripts/applied-actions.mjs, scripts/apply.mjs). */
module PlanDispatch {
  import opened Sequences
  import opened PlanTypes
  import opened PlanDiff
  import opened PlanOperations
  import opened PlanSegments
  import opened Planner
  import opened PlanConvergence
  import opened StepIds

  function ActionOf(step: Step): string {
    match step
    case HostPrepare => "host.prepare"
    case SecretEnsure(_) => "secret.ensure"
    case VolumeEnsure(_) => "volume.ensure"
    case NetworkEnsure(_, _) => "network.ensure"
    case ImageVerify(_, _, _) => "image.verify"
    case ImagePull(_, _, _) => "image.pull"
    case ServiceStop(_, _) => "service.stop"
    case ConfigWrite => "config.write"
    case ServiceRemove(_, _) => "service.remove"
    case DatabaseMigrate(_, _, _, _, _) => "database.migrate"
    case ServiceStart(_, _, _) => "service.start"
    case ReadinessWait(_, _, _) => "readiness.wait"
    case StateCommit => "state.commit"
    case BackupCreate(_) => "backup.create"
  }

  /** The actions that have a role: the keys of ACTION_TO_ROLE. */
  const WITH_ROLE: set<string> :=
    {"host.prepare", "secret.ensure", "volume.ensure", "network.ensure", "image.verify", "image.pull", "config.write",
     "database.migrate", "service.start", "service.stop", "service.remove", "readiness.wait", "state.commit"}

  const BOOTSTRAP_ALLOWED: set<string> :=
    {"host.prepare", "secret.ensure", "volume.ensure", "network.ensure", "image.verify", "image.pull",
     "config.write", "database.migrate", "service.start", "readiness.wait", "state.commit"}

  const APPLIED_ONLY: set<string> := {"backup.create", "service.stop", "service.remove"}

  const APPLIED_ALLOWED: set<string> :=
    {"secret.ensure", "volume.ensure", "network.ensure", "image.verify", "image.pull", "config.write",
     "database.migrate", "service.start", "service.stop", "service.remove", "readiness.wait", "state.commit"}

  const BOOTSTRAP_ONLY: set<string> := {"host.prepare"}
  const NEVER_ALLOWED: set<string> := {"backup.create"}

  /** A first apply has nothing to stop, remove or back up. */
  ghost predicate AllowedInBootstrap(operations: seq<Operation>) {
    forall i :: 0 <= i < |operations| ==>
      !operations[i].step.ServiceStop? && !operations[i].step.ServiceRemove? && !operations[i].step.BackupCreate?
  }

  /** A later one does not prepare the host again, and no apply makes backups. */
  ghost predicate AllowedWhenApplied(operations: seq<Operation>) {
    forall i :: 0 <= i < |operations| ==> !operations[i].step.HostPrepare? && !operations[i].step.BackupCreate?
  }

  method ValidateBootstrapActions(mode: Mode, operations: seq<Operation>) returns (errors: seq<string>)
    ensures errors == [] <==> mode == Bootstrap && AllowedInBootstrap(operations)
    ensures "only makes sense against an already-applied host" in errors <==> !AllowedInBootstrap(operations)
  {
    errors := [];
    if mode != Bootstrap {
      errors := errors + ["a bootstrap apply only ever runs a bootstrap plan"];
    }
    for i := 0 to |operations|
      invariant errors == [] <==> mode == Bootstrap && AllowedInBootstrap(operations[..i])
      invariant "only makes sense against an already-applied host" in errors <==> !AllowedInBootstrap(operations[..i])
    {
      var action := ActionOf(operations[i].step);
      if action in APPLIED_ONLY {
        errors := errors + ["only makes sense against an already-applied host"];
      } else if action !in BOOTSTRAP_ALLOWED {
        errors := errors + ["not in the bootstrap action whitelist"];
      }
    }
    assert operations[..|operations|] == operations;
  }

  method ValidateAppliedActions(mode: Mode, operations: seq<Operation>) returns (errors: seq<string>)
    ensures errors == [] <==> mode == Applied && AllowedWhenApplied(operations)
    ensures "outside the scope of an applied apply" in errors <==>
            exists i :: 0 <= i < |operations| && operations[i].step.BackupCreate?
    ensures "only makes sense on a clean bootstrap host" in errors <==>
            exists i :: 0 <= i < |operations| && operations[i].step.HostPrepare?
  {
    errors := [];
    if mode != Applied {
      errors := errors + ["an applied apply only ever runs an applied plan"];
    }
    for i := 0 to |operations|
      invariant errors == [] <==> mode == Applied && AllowedWhenApplied(operations[..i])
      invariant "outside the scope of an applied apply" in errors <==>
                exists j :: 0 <= j < i && operations[j].step.BackupCreate?
      invariant "only makes sense on a clean bootstrap host" in errors <==>
                exists j :: 0 <= j < i && operations[j].step.HostPrepare?
    {
      var action := ActionOf(operations[i].step);
      if action in NEVER_ALLOWED {
        errors := errors + ["outside the scope of an applied apply"];
      } else if action in BOOTSTRAP_ONLY {
        errors := errors + ["only makes sense on a clean bootstrap host"];
      } else if action !in APPLIED_ALLOWED {
        errors := errors + ["not in the applied action whitelist"];
      }
    }
    assert operations[..|operations|] == operations;
  }

  lemma InSteps(input: Input, draft: Draft, step: Step)
    requires Migratable(input.desired, draft.needing) && step in Steps(input, draft)
    ensures step.HostPrepare? ==> input.baseline.mode == Bootstrap
    ensures step.ServiceStop? ==> (step.service, step.unit) in KeysOf(draft.update) + KeysOf(draft.remove)
    ensures step.ServiceRemove? ==> (step.service, step.unit) in KeysOf(draft.remove)
    ensures !step.BackupCreate?
  {
    if step in Preparation(input, draft) {
      InPreparation(input, draft, step);
    }
    InRemoves(draft.remove, step);
    InMigrations(input.desired, draft.needing, step);
    InStarts(draft.starts, step);
  }

  lemma NothingWasThere(input: Input, installationId: string, k: Key)
    requires BaselineOf(input.baseline, installationId) && input.baseline.mode == Bootstrap
    ensures k !in input.Was()
  {
  }

  /** Every bootstrap plan passes the bootstrap whitelist. */
  lemma BootstrapPlanIsWhitelisted(input: Input, plan: Plan, installationId: string)
    requires IsPlan(input, plan) && BaselineOf(input.baseline, installationId) && input.baseline.mode == Bootstrap
    ensures AllowedInBootstrap(plan.operations)
  {
    forall step | step in Steps(input, plan.draft)
      ensures !step.ServiceStop? && !step.ServiceRemove? && !step.BackupCreate?
    {
      BootstrapStep(input, plan.draft, installationId, step);
    }
    forall i | 0 <= i < |plan.operations| ensures plan.operations[i].step in Steps(input, plan.draft) {
    }
  }

  lemma BootstrapStep(input: Input, draft: Draft, installationId: string, step: Step)
    requires IsDraft(input, draft) && BaselineOf(input.baseline, installationId) && input.baseline.mode == Bootstrap
    requires Migratable(input.desired, draft.needing) && step in Steps(input, draft)
    ensures !step.ServiceStop? && !step.ServiceRemove? && !step.BackupCreate?
  {
    InSteps(input, draft, step);
    if step.ServiceStop? || step.ServiceRemove? {
      NothingWasThere(input, installationId, (step.service, step.unit));
    }
  }

  /** Every applied plan passes the applied whitelist. */
  lemma AppliedPlanIsWhitelisted(input: Input, plan: Plan)
    requires IsPlan(input, plan) && input.baseline.mode == Applied
    ensures AllowedWhenApplied(plan.operations)
  {
    forall step | step in Steps(input, plan.draft) ensures !step.HostPrepare? && !step.BackupCreate? {
      InSteps(input, plan.draft, step);
    }
    forall i | 0 <= i < |plan.operations| ensures plan.operations[i].step in Steps(input, plan.draft) {
    }
  }

  // Image trust.

  datatype Trust = DigestOnly | Signed(identity: string, issuer: string)

  datatype Component = Component(thirdParty: bool, identity: string, issuer: string)

  ghost function ImageTrustFor(component: Component): Trust {
    if component.thirdParty then DigestOnly else Signed(component.identity, component.issuer)
  }

  /** An operation as it is dispatched; only an image.verify carries trust. */
  datatype Dispatch = Dispatch(operation: Operation, trust: Option<Trust>)

  ghost predicate ArtifactsByUnit(wanted: map<Key, Unit>, artifacts: map<string, string>) {
    && (forall u :: u in artifacts ==> exists k :: k in wanted && k.1 == u && artifacts[u] == wanted[k].artifact)
    && (forall k :: k in wanted ==> k.1 in artifacts)
  }

  method CollectArtifacts(wanted: map<Key, Unit>) returns (artifacts: map<string, string>)
    ensures ArtifactsByUnit(wanted, artifacts)
  {
    artifacts := map[];
    var todo := wanted.Keys;
    while todo != {}
      invariant todo <= wanted.Keys
      invariant forall u :: u in artifacts ==> exists k :: k in wanted && k.1 == u && artifacts[u] == wanted[k].artifact
      invariant forall k :: k in wanted && k !in todo ==> k.1 in artifacts
    {
      var k :| k in todo;
      artifacts := artifacts[k.1 := wanted[k].artifact];
      todo := todo - {k};
    }
  }

  /** What the release lock says of the image of a unit of this name. */
  ghost predicate TrustOfUnit(wanted: map<Key, Unit>, components: map<string, Component>, unit: string, trust: Option<Trust>) {
    exists k :: k in wanted && k.1 == unit
                && trust == if wanted[k].artifact in components then Some(ImageTrustFor(components[wanted[k].artifact])) else None
  }

  ghost predicate IsDispatch(wanted: map<Key, Unit>, components: map<string, Component>, operation: Operation, d: Dispatch) {
    && d.operation == operation
    && if operation.step.ImageVerify?
       then (exists k :: k in wanted && k.1 == operation.step.unit) ==> TrustOfUnit(wanted, components, operation.step.unit, d.trust)
       else d.trust == None
  }

  method AttachTrust(wanted: map<Key, Unit>, components: map<string, Component>, operations: seq<Operation>)
    returns (dispatches: seq<Dispatch>)
    ensures |dispatches| == |operations|
    ensures forall i :: 0 <= i < |operations| ==> IsDispatch(wanted, components, operations[i], dispatches[i])
  {
    var artifacts := CollectArtifacts(wanted);
    dispatches := [];
    for i := 0 to |operations|
      invariant |dispatches| == i
      invariant forall j :: 0 <= j < i ==> IsDispatch(wanted, components, operations[j], dispatches[j])
    {
      var step := operations[i].step;
      var trust := None;
      if step.ImageVerify? && step.unit in artifacts && artifacts[step.unit] in components {
        var component := components[artifacts[step.unit]];
        trust := Some(if component.thirdParty then DigestOnly else Signed(component.identity, component.issuer));
      }
      dispatches := dispatches + [Dispatch(operations[i], trust)];
    }
  }

  // The dispatch loop's own record of trust.

  /** What `imageTrustByUnit` holds for a unit before the i-th operation: what the last image.verify
      of that unit carried, whether it was dispatched or skipped. */
  ghost function TrustBefore(dispatches: seq<Dispatch>, i: nat, unit: string): Option<Trust>
    requires i <= |dispatches|
  {
    if i == 0 then None
    else
      var step := dispatches[i - 1].operation.step;
      if step.ImageVerify? && step.unit == unit then dispatches[i - 1].trust else TrustBefore(dispatches, i - 1, unit)
  }

  function Lookup(trusts: map<string, Option<Trust>>, unit: string): Option<Trust> {
    if unit in trusts then trusts[unit] else None
  }

  predicate IsPull(dispatches: seq<Dispatch>, i: nat) {
    i < |dispatches| && dispatches[i].operation.step.ImagePull?
  }

  /** Every pull from the first operation that is not skipped up to the n-th has its trust recorded. */
  ghost predicate Pullable(dispatches: seq<Dispatch>, skipped: nat, n: nat)
    requires n <= |dispatches|
  {
    forall i | skipped <= i < n && IsPull(dispatches, i) ::
      TrustBefore(dispatches, i, dispatches[i].operation.step.unit).Some?
  }

  /** Every operation from the first that is not skipped up to the n-th has a role: only a backup has none. */
  ghost predicate HaveRoles(dispatches: seq<Dispatch>, skipped: nat, n: nat)
    requires n <= |dispatches|
  {
    forall i :: skipped <= i < n ==> !dispatches[i].operation.step.BackupCreate?
  }

  /** An action without a role, or a pull whose unit has no recorded trust, is an internal error and ends the loop. */
  datatype Prepared = Vars(trusts: map<nat, Trust>) | InternalError(operation: string)

  /** Each pull is given the trust that was recorded for its unit. */
  ghost predicate TrustsGiven(dispatches: seq<Dispatch>, skipped: nat, n: nat, trusts: map<nat, Trust>)
    requires n <= |dispatches|
  {
    && (forall i :: i in trusts <==> skipped <= i < n && IsPull(dispatches, i))
    && (forall i | i in trusts && i < n && IsPull(dispatches, i) ::
          TrustBefore(dispatches, i, dispatches[i].operation.step.unit) == Some(trusts[i]))
  }

  /** The loop over the operations of a plan, resumed after any number of skipped ones. */
  method BuildExtraVars(dispatches: seq<Dispatch>, skipped: nat) returns (r: Prepared)
    ensures r.Vars? <==> HaveRoles(dispatches, skipped, |dispatches|) && Pullable(dispatches, skipped, |dispatches|)
    ensures r.Vars? ==> TrustsGiven(dispatches, skipped, |dispatches|, r.trusts)
  {
    var imageTrustByUnit: map<string, Option<Trust>> := map[];
    var trusts: map<nat, Trust> := map[];
    for i := 0 to |dispatches|
      invariant forall unit :: Lookup(imageTrustByUnit, unit) == TrustBefore(dispatches, i, unit)
      invariant HaveRoles(dispatches, skipped, i) && Pullable(dispatches, skipped, i)
      invariant TrustsGiven(dispatches, skipped, i, trusts)
    {
      var step := dispatches[i].operation.step;
      if i >= skipped && ActionOf(step) !in WITH_ROLE {
        return InternalError(dispatches[i].operation.id);
      }
      if step.ImageVerify? {
        imageTrustByUnit := imageTrustByUnit[step.unit := dispatches[i].trust];
      } else if i >= skipped && step.ImagePull? {
        var trust := Lookup(imageTrustByUnit, step.unit);
        if trust.None? {
          assert IsPull(dispatches, i);
          return InternalError(dispatches[i].operation.id);
        }
        trusts := trusts[i := trust.value];
      }
    }
    r := Vars(trusts);
  }

  // In a plan every pull directly follows the verification of the same image.

  ghost predicate PullsPaired(steps: seq<Step>) {
    forall i :: 0 <= i < |steps| && steps[i].ImagePull? ==>
      i > 0 && steps[i - 1] == ImageVerify(steps[i].service, steps[i].unit, steps[i].image)
  }

  lemma PairedAppend(a: seq<Step>, b: seq<Step>)
    requires PullsPaired(a) && PullsPaired(b)
    ensures PullsPaired(a + b)
  {
    forall i | 0 <= i < |a + b| && (a + b)[i].ImagePull?
      ensures i > 0 && (a + b)[i - 1] == ImageVerify((a + b)[i].service, (a + b)[i].unit, (a + b)[i].image)
    {
      if i >= |a| {
        assert b[i - |a|].ImagePull?;
      }
    }
  }

  lemma {:induction false} ImagesPaired(entries: seq<Entry>)
    ensures PullsPaired(ImageSteps(entries))
  {
    if entries != [] {
      var n, e := |entries| - 1, entries[|entries| - 1];
      ImagesPaired(entries[..n]);
      if e.imageChanged {
        PairedAppend(ImageSteps(entries[..n]), [ImageVerify(e.service, e.unit, e.image), ImagePull(e.service, e.unit, e.image)]);
      }
    }
  }

  lemma NoPullAfter(a: seq<Step>, b: seq<Step>)
    requires PullsPaired(a) && forall step :: step in b ==> !step.ImagePull?
    ensures PullsPaired(a + b)
  {
    forall i | 0 <= i < |b| ensures !b[i].ImagePull? {
      assert b[i] in b;
    }
    PairedAppend(a, b);
  }

  lemma PreparationPaired(input: Input, draft: Draft)
    ensures PullsPaired(Preparation(input, draft))
  {
    var p1 := Prologue(input, draft) + VolumeSteps(draft.newVolumes) + NetworkSteps(draft.networks);
    NoPullBefore(input, draft);
    var p2 := p1 + ImageSteps(draft.create + draft.update);
    ImagesPaired(draft.create + draft.update);
    PairedAppend(p1, ImageSteps(draft.create + draft.update));
    NoPullInStops(draft.update);
    NoPullAfter(p2, StopSteps(draft.update));
    NoPullInStops(draft.remove);
    NoPullAfter(p2 + StopSteps(draft.update), StopSteps(draft.remove));
  }

  lemma {:induction false} NoPullInStops(entries: seq<Entry>)
    ensures forall step :: step in StopSteps(entries) ==> !step.ImagePull?
  {
    forall step | step in StopSteps(entries) ensures !step.ImagePull? {
      InStops(entries, step);
    }
  }

  lemma NoPullBefore(input: Input, draft: Draft)
    ensures PullsPaired(Prologue(input, draft) + VolumeSteps(draft.newVolumes) + NetworkSteps(draft.networks))
  {
    var before := Prologue(input, draft) + VolumeSteps(draft.newVolumes) + NetworkSteps(draft.networks);
    forall step | step in before ensures !step.ImagePull? {
      InVolumes(draft.newVolumes, step);
      InNetworks(draft.networks, step);
    }
    NoPullAfter([], before);
    assert [] + before == before;
  }

  lemma {:induction false} NoPullInRemoves(entries: seq<Entry>)
    ensures forall step :: step in RemoveSteps(entries) ==> !step.ImagePull?
  {
    forall step | step in RemoveSteps(entries) ensures !step.ImagePull? {
      InRemoves(entries, step);
    }
  }

  lemma NoPullInRest(input: Input, draft: Draft)
    requires Migratable(input.desired, draft.needing)
    ensures forall step :: step in MigrateSteps(input.desired, draft.needing) ==> !step.ImagePull?
    ensures forall step :: step in StartSteps(draft.starts) ==> !step.ImagePull?
  {
    forall step | step in MigrateSteps(input.desired, draft.needing) ensures !step.ImagePull? {
      InMigrations(input.desired, draft.needing, step);
    }
    forall step | step in StartSteps(draft.starts) ensures !step.ImagePull? {
      InStarts(draft.starts, step);
    }
  }

  lemma PlanPullsPaired(input: Input, draft: Draft)
    requires Migratable(input.desired, draft.needing)
    ensures PullsPaired(Steps(input, draft))
  {
    var p1, write := Preparation(input, draft), WhenChanged(input, draft, ConfigWrite);
    PreparationPaired(input, draft);
    NoPullAfter(p1, write);
    NoPullInRemoves(draft.remove);
    var p2 := p1 + write + RemoveSteps(draft.remove);
    NoPullAfter(p1 + write, RemoveSteps(draft.remove));
    NoPullInRest(input, draft);
    NoPullAfter(p2, MigrateSteps(input.desired, draft.needing));
    var p3 := p2 + MigrateSteps(input.desired, draft.needing);
    NoPullAfter(p3, StartSteps(draft.starts));
    NoPullAfter(p3 + StartSteps(draft.starts), WhenChanged(input, draft, StateCommit));
  }

  lemma VerifiedIsWanted(input: Input, draft: Draft, step: Step)
    requires IsDraft(input, draft) && Migratable(input.desired, draft.needing) && step in Steps(input, draft)
    requires step.ImageVerify?
    ensures exists k :: k in input.Wanted() && k.1 == step.unit
  {
    assert step in ImageSteps(draft.create + draft.update) by {
      VerifyInImages(input, draft, step);
    }
    InImages(draft.create + draft.update, step);
    var e :| e in draft.create + draft.update && e.unit == step.unit;
    EntryIsWanted(input, draft, e);
    assert KeyOf(e).1 == step.unit;
  }

  lemma EntryIsWanted(input: Input, draft: Draft, e: Entry)
    requires IsDraft(input, draft) && e in draft.create + draft.update
    ensures KeyOf(e) in input.Wanted()
  {
    if e in draft.create {
      assert CreateLine(input, e);
    } else {
      assert UpdateLine(input, e, 4);
    }
  }

  lemma VerifyInImages(input: Input, draft: Draft, step: Step)
    requires Migratable(input.desired, draft.needing) && step in Steps(input, draft) && step.ImageVerify?
    ensures step in ImageSteps(draft.create + draft.update)
  {
    InVolumes(draft.newVolumes, step);
    InNetworks(draft.networks, step);
    InStops(draft.update, step);
    InStops(draft.remove, step);
    InRemoves(draft.remove, step);
    InMigrations(input.desired, draft.needing, step);
    InStarts(draft.starts, step);
  }

  ghost predicate LockCovers(input: Input, components: map<string, Component>) {
    forall k :: k in input.Wanted() ==> input.Wanted()[k].artifact in components
  }

  ghost predicate AreDispatches(input: Input, components: map<string, Component>, plan: Plan, dispatches: seq<Dispatch>) {
    && |dispatches| == |plan.operations|
    && forall i :: 0 <= i < |dispatches| ==> IsDispatch(input.Wanted(), components, plan.operations[i], dispatches[i])
  }

  /** Each pull is given the trust of the verification right before it, of the same image: for one of our own
      images its signer, for a third party's its digest alone, as the lock has it for a unit of this name. */
  lemma PullHasTrust(input: Input, components: map<string, Component>, plan: Plan, dispatches: seq<Dispatch>, i: nat)
    requires IsPlan(input, plan) && LockCovers(input, components) && AreDispatches(input, components, plan, dispatches)
    requires IsPull(dispatches, i)
    ensures i > 0 && dispatches[i - 1].trust.Some?
    ensures dispatches[i - 1].operation.step ==
            ImageVerify(dispatches[i].operation.step.service, dispatches[i].operation.step.unit, dispatches[i].operation.step.image)
    ensures TrustBefore(dispatches, i, dispatches[i].operation.step.unit) == dispatches[i - 1].trust
    ensures exists k :: k in input.Wanted() && k.1 == dispatches[i].operation.step.unit
                        && var component := components[input.Wanted()[k].artifact];
                           dispatches[i - 1].trust ==
                           Some(if component.thirdParty then DigestOnly else Signed(component.identity, component.issuer))
  {
    var steps := Steps(input, plan.draft);
    PlanPullsPaired(input, plan.draft);
    assert dispatches[i].operation.step == steps[i];
    assert dispatches[i - 1].operation.step == steps[i - 1];
    VerifiedIsWanted(input, plan.draft, steps[i - 1]);
    assert IsDispatch(input.Wanted(), components, plan.operations[i - 1], dispatches[i - 1]);
  }

  lemma HasRole(input: Input, components: map<string, Component>, plan: Plan, dispatches: seq<Dispatch>, i: nat)
    requires IsPlan(input, plan) && AreDispatches(input, components, plan, dispatches) && i < |dispatches|
    ensures !dispatches[i].operation.step.BackupCreate?
  {
    assert dispatches[i].operation == plan.operations[i];
    InSteps(input, plan.draft, Steps(input, plan.draft)[i]);
  }

  /** From any resume point the extra variables of every remaining operation can be built. */
  lemma PlanIsDispatchable(input: Input, components: map<string, Component>, plan: Plan, dispatches: seq<Dispatch>, skipped: nat)
    requires IsPlan(input, plan) && LockCovers(input, components) && AreDispatches(input, components, plan, dispatches)
    ensures HaveRoles(dispatches, skipped, |dispatches|) && Pullable(dispatches, skipped, |dispatches|)
  {
    forall i | skipped <= i < |dispatches| ensures !dispatches[i].operation.step.BackupCreate? {
      HasRole(input, components, plan, dispatches, i);
    }
    forall i | skipped <= i < |dispatches| && IsPull(dispatches, i)
      ensures TrustBefore(dispatches, i, dispatches[i].operation.step.unit).Some?
    {
      PullHasTrust(input, components, plan, dispatches, i);
    }
  }

  // The commit.

  /** A change of the volumes or networks shows in the topology digest. */
  predicate ChangesShow(input: Input) {
    input.baseline.topologyDigest == Some(input.desired.topologyDigest) ==>
      && (forall v :: v in input.desired.volumes ==> v in input.baseline.volumes)
      && (forall n :: n in input.desired.networks ==> n in input.baseline.networks)
  }

  lemma NoChangeNoSteps(input: Input, draft: Draft)
    requires IsDraft(input, draft) && ChangesShow(input) && !AnyChange(input, draft)
    requires Migratable(input.desired, draft.needing)
    ensures Steps(input, draft) == []
  {
    EmptyWithoutMembers(draft.newVolumes);
    EmptyWithoutMembers(draft.networks);
    StartsAreTouched(input, draft);
    NoEntries(draft.starts);
  }

  lemma CommitOnlyLast(input: Input, draft: Draft, i: nat)
    requires Migratable(input.desired, draft.needing) && AnyChange(input, draft) && i < |Steps(input, draft)| - 1
    ensures !Steps(input, draft)[i].StateCommit?
  {
    var step := Steps(input, draft)[i];
    assert step in BeforeStarts(input, draft) || step in StartSteps(draft.starts);
    if step in BeforeMigrations(input, draft) {
      InBeforeMigrations(input, draft, step);
    }
    InMigrations(input.desired, draft.needing, step);
    InStarts(draft.starts, step);
  }

  /** A plan that does anything ends with its one commit. */
  lemma CommitIsLast(input: Input, plan: Plan, i: nat)
    requires IsPlan(input, plan) && ChangesShow(input) && i < |plan.operations|
    ensures plan.operations[i].step.StateCommit? <==> i == |plan.operations| - 1
  {
    if AnyChange(input, plan.draft) {
      if i < |plan.operations| - 1 {
        CommitOnlyLast(input, plan.draft, i);
      }
    } else {
      NoChangeNoSteps(input, plan.draft);
      assert false;
    }
  }

  lemma ActionInName(step: Step)
    ensures ActionOf(step) <= Name(step)
  {
  }

  /** The id of a step is its running number, its action and what it acts on. */
  lemma StepIdNamesAction(input: Input, plan: Plan, k: nat)
    requires IsPlan(input, plan) && k < |plan.operations|
    ensures Padded(k + 1) + "." + ActionOf(plan.operations[k].step) <= plan.operations[k].id
  {
    ActionInName(plan.operations[k].step);
  }

  /** No two steps of a plan share an id, so the events of a journal name their steps unambiguously. */
  lemma StepIdsAreDistinct(input: Input, plan: Plan, i: nat, j: nat)
    requires IsPlan(input, plan) && i < j < |plan.operations|
    ensures plan.operations[i].id != plan.operations[j].id
  {
    var steps := Steps(input, plan.draft);
    IdsDiffer(i + 1, Name(steps[i]), j + 1, Name(steps[j]));
  }
}
