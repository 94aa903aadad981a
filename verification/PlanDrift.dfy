/** Drift between the last applied state and the host (scripts/plan.mjs, computeDrift,
    computeMissingResources, computeGeneratedDrift). */
module PlanDrift {
  import opened Sequences
  import opened PlanTypes

  function ResourceKey(r: Resource): Key { (r.service, r.unit) }

  ghost predicate IsOwn(input: Input, r: Resource) {
    input.Own(r.managed, r.installationId)
  }

  /** `ownByKey.get(key)`: the last own container with this key. */
  ghost function OwnAt(input: Input, resources: seq<Resource>, k: Key): (r: Option<Resource>)
    ensures r.Some? ==> r.value in resources && IsOwn(input, r.value) && ResourceKey(r.value) == k
    ensures r.None? ==> forall other :: other in resources ==> !IsOwn(input, other) || ResourceKey(other) != k
  {
    if resources == [] then None
    else
      var last := resources[|resources| - 1];
      assert resources == resources[..|resources| - 1] + [last];
      if IsOwn(input, last) && ResourceKey(last) == k then Some(last)
      else OwnAt(input, resources[..|resources| - 1], k)
  }

  ghost predicate Inspected(input: Input) {
    input.observation.containersStatus == Available
  }

  ghost predicate IsMissing(input: Input, k: Key) {
    Inspected(input) && k in input.Was() && OwnAt(input, input.observation.resources, k).None?
  }

  ghost predicate IsManualChange(input: Input, k: Key) {
    && Inspected(input) && k in input.Was()
    && var own := OwnAt(input, input.observation.resources, k);
       own.Some? && (own.value.image != input.Was()[k].image || !own.value.running)
  }

  ghost predicate Unaccounted(input: Input, r: Resource) {
    !IsOwn(input, r) || ResourceKey(r) !in input.Was()
  }

  ghost predicate IsUnmanaged(input: Input, k: Key) {
    && Inspected(input)
    && exists r :: r in input.observation.resources && ResourceKey(r) == k && Unaccounted(input, r)
  }

  datatype Drift = Missing(key: Key) | ManualChange(key: Key) | Unmanaged(key: Key)

  ghost predicate IsDrift(input: Input, d: Drift) {
    match d
    case Missing(k) => IsMissing(input, k)
    case ManualChange(k) => IsManualChange(input, k)
    case Unmanaged(k) => IsUnmanaged(input, k)
  }

  /** The drift that the units of the baseline show. */
  ghost predicate OfBaseline(input: Input, keys: set<Key>, d: Drift) {
    d.key in keys && !d.Unmanaged? && IsDrift(input, d)
  }

  /** `new Map(resources.filter(isOwn).map(...))`: of several with one key the last one counts. */
  method OwnByKey(input: Input) returns (ownByKey: map<Key, Resource>)
    ensures forall k :: OwnAt(input, input.observation.resources, k) == if k in ownByKey then Some(ownByKey[k]) else None
  {
    ownByKey := map[];
    var resources, id := input.observation.resources, input.baseline.installationId;
    for i := 0 to |resources|
      invariant forall k :: OwnAt(input, resources[..i], k) == if k in ownByKey then Some(ownByKey[k]) else None
    {
      assert resources[..i + 1][..i] == resources[..i];
      var resource := resources[i];
      if resource.managed && id.Some? && resource.installationId == id {
        ownByKey := ownByKey[(resource.service, resource.unit) := resource];
      }
    }
    assert resources[..|resources|] == resources;
  }

  method DriftOfBaseline(input: Input) returns (drift: seq<Drift>)
    requires Inspected(input)
    ensures forall d :: d in drift <==> !d.Unmanaged? && IsDrift(input, d)
  {
    drift := [];
    var ownByKey := OwnByKey(input);
    var todo := input.Was().Keys;
    while todo != {}
      invariant todo <= input.Was().Keys
      invariant forall d :: d in drift <==> OfBaseline(input, input.Was().Keys - todo, d)
    {
      var k :| k in todo;
      if k !in ownByKey {
        drift := drift + [Missing(k)];
      } else if ownByKey[k].image != input.Was()[k].image || !ownByKey[k].running {
        drift := drift + [ManualChange(k)];
      }
      todo := todo - {k};
    }
  }

  /** Exactly the three kinds of drift; none at all when the containers could not be listed. */
  method ComputeDrift(input: Input) returns (drift: seq<Drift>)
    ensures forall d :: d in drift <==> IsDrift(input, d)
  {
    if input.observation.containersStatus != Available {
      return [];
    }
    drift := DriftOfBaseline(input);
    var resources, id := input.observation.resources, input.baseline.installationId;
    for i := 0 to |resources|
      invariant forall d :: d in drift <==>
                            if d.Unmanaged?
                            then exists r :: r in resources[..i] && ResourceKey(r) == d.key && Unaccounted(input, r)
                            else IsDrift(input, d)
    {
      assert resources[..i + 1] == resources[..i] + [resources[i]];
      var key := (resources[i].service, resources[i].unit);
      var isOwn := resources[i].managed && id.Some? && resources[i].installationId == id;
      assert key == ResourceKey(resources[i]) && (Unaccounted(input, resources[i]) <==> !(isOwn && key in input.Was()));
      if !(isOwn && key in input.Was()) {
        drift := drift + [Unmanaged(key)];
      }
    }
    assert resources[..|resources|] == resources;
  }

  // Volumes and networks.

  ghost predicate OwnNamed(input: Input, list: seq<Labelled>, name: string) {
    exists e :: e in list && e.resource == name && input.Own(e.managed, e.installationId)
  }

  ghost predicate VolumeMissing(input: Input, name: string) {
    && input.observation.volumesStatus == Available && name in input.baseline.volumes
    && !OwnNamed(input, input.observation.volumes, name)
  }

  ghost predicate NetworkMissing(input: Input, name: string) {
    && input.observation.networksStatus == Available && name in input.baseline.networks
    && !OwnNamed(input, input.observation.networks, name)
  }

  method OwnNames(input: Input, list: seq<Labelled>) returns (names: set<string>)
    ensures forall name :: name in names <==> OwnNamed(input, list, name)
  {
    names := {};
    var id := input.baseline.installationId;
    for i := 0 to |list|
      invariant forall name :: name in names <==> OwnNamed(input, list[..i], name)
    {
      assert list[..i + 1] == list[..i] + [list[i]];
      if list[i].managed && id.Some? && list[i].installationId == id {
        names := names + {list[i].resource};
      }
    }
    assert list[..|list|] == list;
  }

  method ComputeMissing(input: Input, status: Availability, list: seq<Labelled>, expected: seq<string>)
    returns (missing: seq<string>)
    ensures forall name :: name in missing <==> status == Available && name in expected && !OwnNamed(input, list, name)
  {
    missing := [];
    if status != Available {
      return;
    }
    var ownNames := OwnNames(input, list);
    for i := 0 to |expected|
      invariant forall name :: name in missing <==> name in expected[..i] && !OwnNamed(input, list, name)
    {
      assert expected[..i + 1] == expected[..i] + [expected[i]];
      if expected[i] !in ownNames {
        missing := missing + [expected[i]];
      }
    }
    assert expected[..|expected|] == expected;
  }

  // Generated files.

  datatype FileDrift = FileMissing(file: string) | FileModified(file: string) | FileUnreadable(file: string)

  ghost predicate IsFileDrift(input: Input, d: FileDrift) {
    && input.observation.generatedStatus == Available && d.file in input.baseline.generated
    && var found := input.observation.generated;
       match d
       case FileMissing(f) => f in found && found[f] == NoFile
       case FileModified(f) => f in found && found[f].Present? && found[f].digest != input.baseline.generated[f]
       case FileUnreadable(f) => f !in found || found[f] == Unreadable
  }

  method ComputeGeneratedDrift(input: Input) returns (drift: seq<FileDrift>)
    ensures forall d :: d in drift <==> IsFileDrift(input, d)
  {
    drift := [];
    if input.observation.generatedStatus != Available {
      return;
    }
    var found := input.observation.generated;
    var todo := input.baseline.generated.Keys;
    while todo != {}
      invariant todo <= input.baseline.generated.Keys
      invariant forall d :: d in drift <==> d.file !in todo && IsFileDrift(input, d)
    {
      var f :| f in todo;
      if f !in found || found[f] == Unreadable {
        drift := drift + [FileUnreadable(f)];
      } else if found[f] == NoFile {
        drift := drift + [FileMissing(f)];
      } else if found[f].digest != input.baseline.generated[f] {
        drift := drift + [FileModified(f)];
      }
      todo := todo - {f};
    }
  }

  /** The files that the plan writes again: a missing one always, a modified one only on request. */
  ghost predicate ToRepair(input: Input, d: FileDrift) {
    IsFileDrift(input, d) && (d.FileMissing? || (d.FileModified? && input.repairDrift))
  }
}
