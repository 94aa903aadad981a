/** The documents the planner reads, and the lines of the diff it collects. */
module PlanTypes {
  import opened Sequences
  import opened Catalog

  /** A service and one of its units. */
  type Key = (string, string)

  datatype Unit = Unit(artifact: string, image: string, fingerprint: string)

  datatype ServiceState = ServiceState(enabled: bool, units: map<string, Unit>, schema: Option<int>)

  datatype Retained = Retained(volume: string, schema: int, retainedAt: Option<string>)

  datatype Mode = Bootstrap | Applied

  /** What the last apply recorded; `generated` holds the files with a recorded digest. */
  datatype Baseline = Baseline(
    mode: Mode,
    installationId: Option<string>,
    release: Option<string>,
    topologyDigest: Option<string>,
    services: map<string, ServiceState>,
    volumes: seq<string>,
    networks: seq<string>,
    generated: map<string, string>,
    retained: map<string, Retained>)

  datatype SchemaStep = SchemaStep(from: int, to: int)

  /** The rendered topology; `schemas` are the release's own steps for its enabled databases. */
  datatype Desired = Desired(
    release: string,
    topologyDigest: string,
    services: map<string, ServiceState>,
    volumes: seq<string>,
    networks: seq<string>,
    schemas: map<string, SchemaStep>)

  datatype Availability = Available | Absent | Unavailable

  datatype Resource = Resource(service: string, unit: string, image: string, running: bool,
                               managed: bool, installationId: Option<string>)

  datatype Labelled = Labelled(resource: string, managed: bool, installationId: Option<string>)

  datatype FileState = Present(digest: string) | NoFile | Unreadable

  datatype Observation = Observation(
    containersStatus: Availability, resources: seq<Resource>,
    volumesStatus: Availability, volumes: seq<Labelled>,
    networksStatus: Availability, networks: seq<Labelled>,
    generatedStatus: Availability, generated: map<string, FileState>)

  datatype Reason =
    | NewUnit
    | ImageChanged
    | ConfigurationChanged
    | ContainerMissing
    | RevertManualChange
    | CaddyfileRegenerated
    | SchemaChanged
    | Disabled

  /** One line of the diff. A created or removed unit has no `fromImage`. */
  datatype Entry = Entry(
    service: string,
    unit: string,
    artifact: string,
    fromImage: Option<string>,
    image: string,
    imageChanged: bool,
    reason: Reason)

  function KeyOf(e: Entry): Key { (e.service, e.unit) }

  function KeysOf(entries: seq<Entry>): set<Key> {
    set e | e in entries :: KeyOf(e)
  }

  lemma KeysOfLast(entries: seq<Entry>)
    requires entries != []
    ensures KeysOf(entries) == KeysOf(entries[..|entries| - 1]) + {KeyOf(entries[|entries| - 1])}
  {
    assert entries == entries[..|entries| - 1] + [entries[|entries| - 1]];
  }

  lemma NoEntries(entries: seq<Entry>)
    ensures KeysOf(entries) == {} <==> entries == []
  {
    if entries != [] {
      assert KeyOf(entries[0]) in KeysOf(entries);
    }
  }

  ghost predicate DistinctKeys(entries: seq<Entry>) {
    forall i, j :: 0 <= i < j < |entries| ==> KeyOf(entries[i]) != KeyOf(entries[j])
  }

  function LiveKeys(services: map<string, ServiceState>): (r: set<Key>)
    ensures forall k :: k in r <==> Enabled(services, k.0) && k.1 in services[k.0].units
  {
    set s, u | s in services && services[s].enabled && u in services[s].units :: (s, u)
  }

  /** The units of the enabled services. */
  function Live(services: map<string, ServiceState>): map<Key, Unit> {
    map k | k in LiveKeys(services) :: services[k.0].units[k.1]
  }

  predicate Enabled(services: map<string, ServiceState>, id: string) {
    id in services && services[id].enabled
  }

  function SchemaOf(services: map<string, ServiceState>, id: string): Option<int> {
    if id in services then services[id].schema else None
  }

  /** What `buildPlan` is given. `retainAuthorised` are the services whose manifest says
      `dataRetention: retain`; `secretsByUnit` and `allSecrets` come from the rendered Compose file. */
  datatype Input = Input(
    baseline: Baseline,
    desired: Desired,
    catalog: seq<Service>,
    observation: Observation,
    repairDrift: bool,
    retainAuthorised: set<string>,
    secretsByUnit: map<string, set<string>>,
    allSecrets: set<string>)
  {
    function Was(): map<Key, Unit> { Live(baseline.services) }

    function Wanted(): map<Key, Unit> { Live(desired.services) }

    /** Managed, and labelled with the installation this baseline belongs to. */
    predicate Own(managed: bool, installationId: Option<string>) {
      managed && baseline.installationId.Some? && installationId == baseline.installationId
    }
  }
}
