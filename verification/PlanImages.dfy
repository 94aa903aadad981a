/** Whether the image of a unit is on the host when the unit is started: `docker compose up` runs with
    `--pull never` (ansible/roles/service/tasks/main.yml). */
module PlanImages {
  import opened Sequences
  import opened Catalog
  import opened PlanTypes
  import opened PlanDrift
  import opened PlanDiff
  import opened PlanBlockers
  import opened PlanOperations
  import opened PlanSegments
  import opened Planner
  import opened PlanHost
  import opened PlanConvergence
  import opened PlanReadiness
  import opened DependencySort

  function PulledBy(steps: seq<Step>): set<string> {
    set step | step in steps && step.ImagePull? :: step.image
  }

  lemma PerformPull(d: Delivery, host: Host, step: Step)
    ensures Perform(d, host, step).images == host.images + if step.ImagePull? then {step.image} else {}
  {
  }

  /** Only pulls bring images. */
  lemma {:induction false} RunPulls(d: Delivery, host: Host, steps: seq<Step>)
    ensures Run(d, host, steps).images == host.images + PulledBy(steps)
  {
    if steps != [] {
      var n := |steps| - 1;
      RunPulls(d, host, steps[..n]);
      PerformPull(d, Run(d, host, steps[..n]), steps[n]);
      assert steps == steps[..n] + [steps[n]];
    }
  }

  lemma {:induction false} ImageStepsPull(entries: seq<Entry>)
    ensures PulledBy(ImageSteps(entries)) == Pulled(entries)
  {
    if entries != [] {
      ImageStepsPull(entries[..|entries| - 1]);
      PulledLast(entries);
    }
  }

  /** Behind the preparation everything has been pulled that the plan pulls at all. */
  lemma PulledBefore(input: Input, draft: Draft, k: nat)
    requires Migratable(input.desired, draft.needing)
    requires k < |Steps(input, draft)| && (Steps(input, draft)[k].ServiceStart? || Steps(input, draft)[k].DatabaseMigrate?)
    ensures PulledBy(Steps(input, draft)[..k]) == Pulled(draft.create + draft.update)
  {
    var steps, images := Steps(input, draft), ImageSteps(draft.create + draft.update);
    ImageStepsPull(draft.create + draft.update);
    assert k >= |Preparation(input, draft)| by {
      if k < |Preparation(input, draft)| {
        assert steps[k] in Preparation(input, draft);
        InPreparation(input, draft, steps[k]);
      }
    }
    forall step | step in images ensures step in steps[..k] {
      assert step in Preparation(input, draft);
      assert Preparation(input, draft) <= steps[..k];
    }
    forall step | step in steps[..k] && step.ImagePull? ensures step in images {
      PullInImages(input, draft, step);
    }
  }

  lemma PullInImages(input: Input, draft: Draft, step: Step)
    requires Migratable(input.desired, draft.needing) && step in Steps(input, draft) && step.ImagePull?
    ensures step in ImageSteps(draft.create + draft.update)
  {
    InVolumes(draft.newVolumes, step);
    InNetworks(draft.networks, step);
    InStops(draft.update, step);
    InStops(draft.remove, step);
    InRemoves(draft.remove, step);
    InMigrations(input.desired, draft.needing, step);
    InStarts(draft.starts, step);
  }

  /** The image is on the host, or pulled for some unit of this plan. */
  ghost predicate ImageSupplied(input: Input, host: Host, image: string) {
    image in host.images || exists k :: ImageTouched(input, k) && input.Wanted()[k].image == image
  }

  lemma ReasonBringsImage(input: Input, k: Key, reason: Option<Reason>)
    requires k in input.Was() && k in input.Wanted() && reason == RepairReason(input, k, 3)
    ensures ImageTouched(input, k) <==> reason.Some? && BringsImage(reason.value)
    ensures UpdateReason(input, k, 4) == reason || (reason.None? && UpdateReason(input, k, 4) == Some(SchemaChanged))
  {
    assert RepairReason(input, k, 4) == reason;
  }

  lemma LineBringsImage(input: Input, e: Entry)
    requires UpdateLine(input, e, 4)
    ensures KeyOf(e) in input.Wanted() && e.image == input.Wanted()[KeyOf(e)].image
    ensures e.imageChanged <==> ImageTouched(input, KeyOf(e))
  {
    var k := KeyOf(e);
    ReasonBringsImage(input, k, RepairReason(input, k, 3));
  }

  lemma PulledIsTouched(input: Input, create: seq<Entry>, update: seq<Entry>, e: Entry)
    requires IsCreate(input, create) && IsUpdate(input, update, 4) && e in create + update && e.imageChanged
    ensures ImageTouched(input, KeyOf(e)) && input.Wanted()[KeyOf(e)].image == e.image
  {
    if e in create {
      assert CreateLine(input, e) && KeyOf(e) in KeysOf(create);
    } else {
      LineBringsImage(input, e);
    }
  }

  lemma TouchedIsPulled(input: Input, create: seq<Entry>, update: seq<Entry>, k: Key) returns (e: Entry)
    requires IsCreate(input, create) && IsUpdate(input, update, 4) && ImageTouched(input, k)
    ensures e in create + update && e.imageChanged && e.image == input.Wanted()[k].image
  {
    if k in input.Was() {
      assert Touched(input, k, 4);
      assert k in KeysOf(update);
      e :| e in update && KeyOf(e) == k;
      LineBringsImage(input, e);
    } else {
      assert k in KeysOf(create);
      e :| e in create && KeyOf(e) == k;
      assert CreateLine(input, e);
    }
  }

  lemma PulledExactly(input: Input, create: seq<Entry>, update: seq<Entry>, image: string)
    requires IsCreate(input, create) && IsUpdate(input, update, 4)
    ensures image in Pulled(create + update) <==>
            exists k :: ImageTouched(input, k) && input.Wanted()[k].image == image
  {
    if image in Pulled(create + update) {
      var e :| e in create + update && e.imageChanged && e.image == image;
      PulledIsTouched(input, create, update, e);
    }
    if k :| ImageTouched(input, k) && input.Wanted()[k].image == image {
      var e := TouchedIsPulled(input, create, update, k);
    }
  }

  // Units that are started or migrated.

  /** The image a step runs without pulling it. */
  function ImageUsed(input: Input, step: Step): Option<string> {
    match step
    case ServiceStart(_, _, image) => Some(image)
    case DatabaseMigrate(s, c, _, _, _) => if (s, c) in input.Wanted() then Some(input.Wanted()[(s, c)].image) else None
    case _ => None
  }

  /** An image in use is on the host. */
  ghost predicate ImagesKept(host: Host) {
    forall k :: k in host.containers ==> host.containers[k].image in host.images
  }

  /** Only the configuration of this unit changes, so its image is not pulled; but no container of it
      shows that the image is there. */
  ghost predicate Unpulled(input: Input, k: Key) {
    && k in input.Was() && k in input.Wanted()
    && input.Was()[k].fingerprint != input.Wanted()[k].fingerprint && input.Was()[k].image == input.Wanted()[k].image
    && var own := OwnAt(input, input.observation.resources, k);
       own.None? || own.value.image != input.Was()[k].image
  }

  lemma {:induction false} OwnContainer(d: Delivery, input: Input, host: Host, k: Key)
    requires Setting(d, input, host) && Executable(input) && k in input.Was() && ImagesKept(host)
    ensures Inspected(input)
    ensures var own := OwnAt(input, input.observation.resources, k);
            own.Some? ==> own.value.image in host.images
  {
    var own := OwnAt(input, input.observation.resources, k);
    if own.Some? {
      assert ResourceKey(own.value) in host.containers;
    }
  }

  /** A unit that is touched without a pull has a container with its image, or is one of the exceptions. */
  lemma KeptImage(d: Delivery, input: Input, host: Host, k: Key)
    requires Setting(d, input, host) && Executable(input) && ImagesKept(host)
    requires Touched(input, k, 4) && !ImageTouched(input, k) && !Unpulled(input, k)
    ensures input.Wanted()[k].image in host.images
  {
    OwnContainer(d, input, host, k);
    assert IsDrift(input, ManualChange(k)) ==> DriftTolerated(input, ManualChange(k));
    var reason := RepairReason(input, k, 3);
  }

  lemma TouchedHasImage(d: Delivery, input: Input, host: Host, draft: Draft, k: Key)
    requires Setting(d, input, host) && Executable(input) && ImagesKept(host) && IsDraft(input, draft)
    requires k in KeysOf(draft.create) + KeysOf(draft.update)
    requires Unpulled(input, k) ==> ImageSupplied(input, host, input.Wanted()[k].image)
    ensures k in input.Wanted() && ImageSupplied(input, host, input.Wanted()[k].image)
  {
    if k in KeysOf(draft.update) && !ImageTouched(input, k) && !Unpulled(input, k) {
      KeptImage(d, input, host, k);
    }
  }

  /** What is there when a step uses an image: what was there, and what the plan pulls. */
  lemma {:induction false} ImagesAt(d: Delivery, input: Input, host: Host, draft: Draft, k: nat, image: string)
    requires IsDraft(input, draft) && Migratable(input.desired, draft.needing)
    requires k < |Steps(input, draft)| && (Steps(input, draft)[k].ServiceStart? || Steps(input, draft)[k].DatabaseMigrate?)
    ensures image in Run(d, host, Steps(input, draft)[..k]).images <==> ImageSupplied(input, host, image)
  {
    RunPulls(d, host, Steps(input, draft)[..k]);
    PulledBefore(input, draft, k);
    PulledExactly(input, draft.create, draft.update, image);
  }

  lemma {:induction false} StartIsOf(entries: seq<Entry>, step: Step)
    requires step in StartSteps(entries) && step.ServiceStart?
    ensures exists e :: e in entries && step == StartOf(e)
  {
    var n := |entries| - 1;
    if step in StartSteps(entries[..n]) {
      StartIsOf(entries[..n], step);
    } else {
      assert step == StartOf(entries[n]);
    }
  }

  lemma StartInStarts(input: Input, draft: Draft, step: Step)
    requires Migratable(input.desired, draft.needing) && step in Steps(input, draft) && step.ServiceStart?
    ensures exists e :: e in draft.starts && step == StartOf(e)
  {
    if step in BeforeMigrations(input, draft) {
      InBeforeMigrations(input, draft, step);
    }
    InMigrations(input.desired, draft.needing, step);
    StartIsOf(draft.starts, step);
  }

  lemma StartLine(input: Input, draft: Draft, e: Entry)
    requires IsDraft(input, draft) && e in draft.starts
    ensures KeyOf(e) in KeysOf(draft.create) + KeysOf(draft.update)
    ensures KeyOf(e) in input.Wanted() && e.image == input.Wanted()[KeyOf(e)].image
  {
    StartsAreTouched(input, draft);
    var order :| Permutation(order, |draft.create + draft.update|) && Placed(draft.create + draft.update, order, draft.starts);
    SameMembers(draft.create + draft.update, order, draft.starts);
    if e in draft.create {
      assert CreateLine(input, e);
    } else {
      LineBringsImage(input, e);
    }
  }

  lemma MigrationInNeeding(input: Input, draft: Draft, k: nat) returns (service: Service)
    requires Migratable(input.desired, draft.needing) && k < |Steps(input, draft)| && Steps(input, draft)[k].DatabaseMigrate?
    ensures service in draft.needing && Steps(input, draft)[k] == MigrateStep(input.desired, service)
  {
    var i := MigrationPlace(input, draft, k);
    service := draft.needing[i];
  }

  /** A unit whose image a step uses is one that the plan touches. */
  lemma UserIsTouched(input: Input, draft: Draft, k: nat) returns (unit: Key)
    requires WellFormed(input) && IsDraft(input, draft) && Migratable(input.desired, draft.needing)
    requires k < |Steps(input, draft)| && ImageUsed(input, Steps(input, draft)[k]).Some?
    ensures unit in KeysOf(draft.create) + KeysOf(draft.update) && unit in input.Wanted()
    ensures ImageUsed(input, Steps(input, draft)[k]) == Some(input.Wanted()[unit].image)
  {
    var step := Steps(input, draft)[k];
    if step.ServiceStart? {
      StartInStarts(input, draft, step);
      var e :| e in draft.starts && step == StartOf(e);
      StartLine(input, draft, e);
      unit := KeyOf(e);
    } else {
      var service := MigrationInNeeding(input, draft, k);
      MigratedIsTouched(input, draft, service);
      unit := DatabaseKey(service);
    }
  }

  lemma TouchedStarts(input: Input, draft: Draft, u: Key) returns (i: nat)
    requires IsDraft(input, draft) && u in KeysOf(draft.create) + KeysOf(draft.update)
    ensures i < |draft.starts| && KeyOf(draft.starts[i]) == u
    ensures u in input.Wanted() && draft.starts[i].image == input.Wanted()[u].image
  {
    StartsAreTouched(input, draft);
    i := StartExists(draft, u);
    StartLine(input, draft, draft.starts[i]);
  }

  lemma StartStep(input: Input, draft: Draft, i: nat, step: Step) returns (k: nat)
    requires Migratable(input.desired, draft.needing) && i < |draft.starts| && step == StartOf(draft.starts[i])
    ensures k < |Steps(input, draft)| && Steps(input, draft)[k] == step
  {
    StartPlace(input, draft, i);
    k := |BeforeStarts(input, draft)| + 2 * i;
  }

  /** Every touched unit is started, so its image is used. */
  lemma TouchedIsUser(input: Input, draft: Draft, u: Key) returns (k: nat)
    requires IsDraft(input, draft) && Migratable(input.desired, draft.needing)
    requires u in KeysOf(draft.create) + KeysOf(draft.update)
    ensures k < |Steps(input, draft)| && u in input.Wanted()
    ensures Steps(input, draft)[k] == ServiceStart(u.0, u.1, input.Wanted()[u].image)
  {
    var i := TouchedStarts(input, draft, u);
    k := StartStep(input, draft, i, ServiceStart(u.0, u.1, input.Wanted()[u].image));
  }

  ghost predicate FindsImage(d: Delivery, input: Input, host: Host, steps: seq<Step>, k: nat)
    requires k < |steps|
  {
    ImageUsed(input, steps[k]).Some? ==> ImageUsed(input, steps[k]).value in Run(d, host, steps[..k]).images
  }

  /** The image of a unit whose image is not pulled is there all the same. */
  ghost predicate UnpulledSupplied(input: Input, host: Host, u: Key) {
    Unpulled(input, u) ==> ImageSupplied(input, host, input.Wanted()[u].image)
  }

  lemma UserFindsImage(d: Delivery, input: Input, host: Host, draft: Draft, k: nat)
    requires Setting(d, input, host) && Executable(input) && ImagesKept(host)
    requires IsDraft(input, draft) && Migratable(input.desired, draft.needing)
    requires forall u :: UnpulledSupplied(input, host, u)
    requires k < |Steps(input, draft)|
    ensures FindsImage(d, input, host, Steps(input, draft), k)
  {
    if ImageUsed(input, Steps(input, draft)[k]).Some? {
      var unit := UserIsTouched(input, draft, k);
      assert UnpulledSupplied(input, host, unit);
      TouchedHasImage(d, input, host, draft, unit);
      ImagesAt(d, input, host, draft, k, input.Wanted()[unit].image);
    }
  }

  lemma {:induction false} Missed(d: Delivery, input: Input, host: Host, steps: seq<Step>, k: nat, u: Key, image: string)
    requires k < |steps| && steps[k] == ServiceStart(u.0, u.1, image) && image !in Run(d, host, steps[..k]).images
    ensures !FindsImage(d, input, host, steps, k)
  {
  }

  lemma UnsuppliedIsMissed(d: Delivery, input: Input, host: Host, draft: Draft, u: Key) returns (k: nat)
    requires IsDraft(input, draft) && Migratable(input.desired, draft.needing)
    requires !UnpulledSupplied(input, host, u)
    ensures k < |Steps(input, draft)| && !FindsImage(d, input, host, Steps(input, draft), k)
  {
    UnpulledIsTouched(input, u);
    k := TouchedIsUser(input, draft, u);
    ImagesAt(d, input, host, draft, k, input.Wanted()[u].image);
    Missed(d, input, host, Steps(input, draft), k, u, input.Wanted()[u].image);
  }

  lemma UnpulledIsTouched(input: Input, k: Key)
    requires Unpulled(input, k)
    ensures Touched(input, k, 4)
  {
  }

  /** Every start and every migration of an executable plan finds its image on the host, if and only if
      the images of those units are there whose configuration alone changes while their container is
      gone or runs another image: the plan pulls nothing for them. */
  lemma StepsFindImages(d: Delivery, input: Input, host: Host, plan: Plan)
    requires Setting(d, input, host) && IsPlan(input, plan) && plan.blockers == [] && ImagesKept(host)
    ensures (forall k :: 0 <= k < |plan.operations| ==> FindsImage(d, input, host, StepsOf(plan.operations), k)) <==>
            forall u :: UnpulledSupplied(input, host, u)
  {
    StepsOfNumbered(Steps(input, plan.draft));
    if forall u :: UnpulledSupplied(input, host, u) {
      forall k | 0 <= k < |plan.operations| ensures FindsImage(d, input, host, StepsOf(plan.operations), k) {
        UserFindsImage(d, input, host, plan.draft, k);
      }
    }
    if u :| !UnpulledSupplied(input, host, u) {
      var k := UnsuppliedIsMissed(d, input, host, plan.draft, u);
      assert !FindsImage(d, input, host, StepsOf(plan.operations), k);
    }
  }
}
