/** The service catalog, as scripts/contracts.mjs and scripts/plan.mjs read it. */
module Catalog {
  import opened Sequences
  import opened Graph

  datatype Database = Database(component: string, volume: string)

  datatype Service = Service(
    id: string,
    mandatory: bool,
    artifacts: seq<string>,
    dependsOn: seq<string>,
    health: string,
    database: Option<Database>)

  /** `new Map(services.map(...))`: a later entry for the same id replaces an earlier one. */
  function ById(services: seq<Service>): map<string, Service> {
    if services == [] then map[]
    else
      var last := services[|services| - 1];
      ById(services[..|services| - 1])[last.id := last]
  }

  lemma {:induction false} ByIdKeys(services: seq<Service>)
    ensures forall id :: id in ById(services) ==> ById(services)[id] in services && ById(services)[id].id == id
    ensures forall service :: service in services ==> service.id in ById(services)
  {
    if services != [] {
      var n := |services| - 1;
      ByIdKeys(services[..n]);
      assert services == services[..n] + [services[n]];
    }
  }

  /** The entry at this place is the last one for its id, which is the one that counts. */
  predicate Counts(services: seq<Service>, i: nat) {
    i < |services| && forall j :: i < j < |services| ==> services[j].id != services[i].id
  }

  lemma {:induction false} ByIdCounts(services: seq<Service>, id: string)
    ensures id in ById(services) <==> exists i: nat :: Counts(services, i) && services[i].id == id
    ensures forall i: nat :: Counts(services, i) && services[i].id == id ==> ById(services)[id] == services[i]
  {
    if services != [] {
      var n := |services| - 1;
      ByIdCounts(services[..n], id);
      assert Counts(services, n);
      if services[n].id != id {
        forall i: nat ensures Counts(services, i) && services[i].id == id <==> Counts(services[..n], i) && services[..n][i].id == id {
        }
      }
    }
  }

  /** The graph of the services' own lists. */
  ghost function DependsOn(services: seq<Service>): Graph {
    var byId := ById(services);
    map id | id in byId :: byId[id].dependsOn
  }

  /** It has an edge exactly where the list of a service names another one. */
  lemma DependsOnExactly(services: seq<Service>, s: string, d: string)
    ensures Edge(DependsOn(services), s, d) <==>
            exists i: nat :: Counts(services, i) && services[i].id == s && d in services[i].dependsOn
  {
    ByIdCounts(services, s);
  }

  /** A service of this id has `d` in its own list. */
  ghost predicate ListsDependency(services: seq<Service>, id: string, d: string) {
    exists service :: service in services && service.id == id && d in service.dependsOn
  }

  lemma EdgeIsListed(services: seq<Service>, s: string, d: string)
    ensures Edge(DependsOn(services), s, d) ==> ListsDependency(services, s, d)
    ensures (forall i, j :: 0 <= i < j < |services| ==> services[i].id != services[j].id) && ListsDependency(services, s, d) ==>
              Edge(DependsOn(services), s, d)
  {
    DependsOnExactly(services, s, d);
    if ListsDependency(services, s, d) && forall i, j :: 0 <= i < j < |services| ==> services[i].id != services[j].id {
      var i: nat :| i < |services| && services[i].id == s && d in services[i].dependsOn;
      assert Counts(services, i);
    }
  }

  /** `new Map(catalog.services.map((service) => [service.id, service.dependsOn]))`. */
  method Dependencies(services: seq<Service>) returns (g: Graph)
    ensures g == DependsOn(services)
  {
    g := map[];
    for i := 0 to |services|
      invariant g == DependsOn(services[..i])
    {
      assert services[..i + 1][..i] == services[..i];
      g := g[services[i].id := services[i].dependsOn];
    }
    assert services[..|services|] == services;
  }
}
