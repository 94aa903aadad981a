/** The catalog check of scripts/contracts.mjs: its dependency-cycle search in full. */
module CatalogCheck {
  import opened Sequences
  import opened Graph
  import opened Catalog

  datatype CatalogError =
    | DuplicateService(id: string)
    | DuplicateArtifact(artifact: string)
    | NotMandatory(id: string)
    | UnknownDependency(id: string, dependency: string)
    | SelfDependency(id: string)
    | HealthNotArtifact(id: string)
    | DependencyCycle(id: string)

  /** The closure `visit` with the three collections it updates. */
  class CycleSearch {
    const g: Graph
    var visiting: set<string>
    var visited: set<string>
    var errors: seq<CatalogError>
    ghost const nodes: set<string>
    /** The services being visited, outermost first. */
    ghost var path: seq<string>
    /** The visited services in the order in which their visits ended. */
    ghost var finished: seq<string>

    ghost predicate Closed()
    {
      forall s, d :: s in nodes && Edge(g, s, d) ==> d in nodes
    }

    ghost predicate Valid()
      reads this
    {
      && Closed()
      && (forall s :: s in visiting <==> s in path)
      && Walk(g, path)
      && visiting <= nodes
      && (errors != [] ==> HasCycle(g))
      && (errors == [] ==> forall s :: s in visited <==> s in finished)
      && (errors == [] ==> DependenciesFirst(g, finished))
      && (forall e :: e in errors ==> e.DependencyCycle?)
    }

    constructor (g: Graph)
      ensures Valid() && this.g == g && errors == [] && path == []
      ensures g.Keys <= nodes
    {
      this.g := g;
      visiting, visited, errors, path, finished := {}, {}, [], [], [];
      nodes := g.Keys + set s, d | s in g && d in g[s] :: d;
    }

    method Visit(id: string)
      requires Valid() && id in nodes
      requires path != [] ==> Edge(g, path[|path| - 1], id)
      modifies this
      ensures Valid() && path == old(path) && visiting == old(visiting)
      ensures old(visited) <= visited && old(errors) <= errors
      ensures errors == [] ==> id in visited
      decreases nodes - visiting, 0
    {
      if id in visiting {
        WalkBackClosesCycle(g, path, id);
        errors := errors + [DependencyCycle(id)];
        return;
      }
      if id in visited {
        return;
      }
      visiting := visiting + {id};
      path := path + [id];
      VisitAll(id, Out(g, id));
      Leave(id);
    }

    /** The last two lines of `visit`. */
    method Leave(id: string)
      requires Valid() && path != [] && path[|path| - 1] == id && id !in path[..|path| - 1]
      requires errors == [] ==> forall d :: d in Out(g, id) ==> d in visited
      modifies this
      ensures Valid() && path == old(path)[..|old(path)| - 1] && errors == old(errors)
      ensures visiting == old(visiting) - {id} && visited == old(visited) + {id}
    {
      if errors == [] {
        DependenciesFirstSnoc(g, finished, id);
      }
      assert path == path[..|path| - 1] + [id];
      visiting := visiting - {id};
      visited := visited + {id};
      path := path[..|path| - 1];
      finished := finished + [id];
    }

    /** The loop of `visit` over the dependencies of the service it has just entered. */
    method VisitAll(id: string, dependencies: seq<string>)
      requires Valid() && path != [] && path[|path| - 1] == id
      requires id in nodes && dependencies == Out(g, id)
      modifies this
      ensures Valid() && path == old(path) && visiting == old(visiting)
      ensures old(visited) <= visited && old(errors) <= errors
      ensures errors == [] ==> forall d :: d in dependencies ==> d in visited
      decreases nodes - visiting, |dependencies| + 1
    {
      for i := 0 to |dependencies|
        invariant Valid() && path == old(path) && visiting == old(visiting)
        invariant old(visited) <= visited && old(errors) <= errors
        invariant errors == [] ==> forall j :: 0 <= j < i ==> dependencies[j] in visited
      {
        assert Edge(g, id, dependencies[i]);
        Visit(dependencies[i]);
      }
    }
  }

  /** The search reports an error exactly when the catalog's graph has a cycle, whatever the
      catalog: unknown dependencies and services that depend on themselves included. */
  method FindCycles(g: Graph, ids: seq<string>) returns (errors: seq<CatalogError>)
    requires forall id :: id in g <==> id in ids
    ensures forall e :: e in errors ==> e.DependencyCycle?
    ensures errors != [] <==> HasCycle(g)
  {
    var search := new CycleSearch(g);
    for i := 0 to |ids|
      invariant search.Valid() && search.g == g && search.path == [] && g.Keys <= search.nodes
      invariant search.errors == [] ==> forall j :: 0 <= j < i ==> ids[j] in search.visited
    {
      search.Visit(ids[i]);
    }
    errors := search.errors;
    if errors == [] {
      if p :| Cycle(g, p) {
        assert Edge(g, p[0], p[1]);
        var i :| 0 <= i < |search.finished| && search.finished[i] == p[0];
        OrderRefutesCycle(g, search.finished, i, p);
      }
    }
  }

  ghost function AllArtifacts(services: seq<Service>): seq<string> {
    if services == [] then []
    else AllArtifacts(services[..|services| - 1]) + services[|services| - 1].artifacts
  }

  ghost predicate UniqueNames(services: seq<Service>) {
    && DistinctIds(services)
    && Distinct(AllArtifacts(services))
  }

  ghost predicate DistinctIds(services: seq<Service>) {
    forall i, j :: 0 <= i < j < |services| ==> services[i].id != services[j].id
  }

  ghost predicate Listed(services: seq<Service>, id: string) {
    exists i :: 0 <= i < |services| && services[i].id == id
  }

  ghost predicate Mandatory(services: seq<Service>, id: string) {
    exists i :: 0 <= i < |services| && services[i].id == id && services[i].mandatory
  }

  /** Its dependencies are listed and other than itself, and its health is that of an artifact of its own. */
  ghost predicate ServiceCoherent(services: seq<Service>, service: Service) {
    && (forall d :: d in service.dependsOn ==> Listed(services, d) && d != service.id)
    && service.health in service.artifacts
  }

  /** Places in the list: each service has the next one in its own list of dependencies, and the last
      one is the first. */
  ghost predicate ClosedWalk(services: seq<Service>, p: seq<nat>) {
    && |p| >= 2 && p[0] == p[|p| - 1]
    && (forall k :: 0 <= k < |p| ==> Counts(services, p[k]))
    && forall k :: 0 <= k < |p| - 1 ==> services[p[k + 1]].id in services[p[k]].dependsOn
  }

  ghost predicate Acyclic(services: seq<Service>) {
    forall p :: !ClosedWalk(services, p)
  }

  /** What a catalog without errors looks like. */
  ghost predicate Coherent(services: seq<Service>) {
    && UniqueNames(services)
    && Mandatory(services, "tor") && Mandatory(services, "schlussel") && Mandatory(services, "schloss")
    && (forall service :: service in services ==> ServiceCoherent(services, service))
    && Acyclic(services)
  }

  ghost function LastPlace(services: seq<Service>, id: string): (r: nat)
    requires id in ById(services)
    ensures Counts(services, r) && services[r].id == id
  {
    ByIdCounts(services, id);
    var i: nat :| Counts(services, i) && services[i].id == id;
    i
  }

  lemma {:induction false} EdgePlaces(services: seq<Service>, s: string, d: string)
    requires s in ById(services) && d in ById(services)
    ensures Edge(DependsOn(services), s, d) <==> d in services[LastPlace(services, s)].dependsOn
  {
    ByIdCounts(services, s);
  }

  lemma CycleIsClosedWalk(services: seq<Service>, p: seq<string>)
    requires Cycle(DependsOn(services), p)
    ensures !Acyclic(services)
  {
    var g := DependsOn(services);
    forall k | 0 <= k < |p| ensures p[k] in ById(services) {
      assert k < |p| - 1 ==> Edge(g, p[k], p[k + 1]);
      assert Edge(g, p[0], p[1]);
    }
    var q := seq(|p|, k requires 0 <= k < |p| && p[k] in ById(services) => LastPlace(services, p[k]));
    forall k | 0 <= k < |q| - 1 ensures services[q[k + 1]].id in services[q[k]].dependsOn {
      EdgePlaces(services, p[k], p[k + 1]);
    }
    assert ClosedWalk(services, q);
  }

  lemma ClosedWalkIsCycle(services: seq<Service>, q: seq<nat>)
    requires ClosedWalk(services, q)
    ensures HasCycle(DependsOn(services))
  {
    var p := seq(|q|, k requires 0 <= k < |q| && Counts(services, q[k]) => services[q[k]].id);
    forall k | 0 <= k < |p| - 1 ensures Edge(DependsOn(services), p[k], p[k + 1]) {
      DependsOnExactly(services, p[k], p[k + 1]);
    }
    assert Cycle(DependsOn(services), p);
  }

  /** A cycle of the graph is a closed walk along the services' own lists. */
  lemma AcyclicExactly(services: seq<Service>)
    ensures Acyclic(services) <==> !HasCycle(DependsOn(services))
  {
    if HasCycle(DependsOn(services)) {
      var p :| Cycle(DependsOn(services), p);
      CycleIsClosedWalk(services, p);
    }
    if !Acyclic(services) {
      var q :| ClosedWalk(services, q);
      ClosedWalkIsCycle(services, q);
    }
  }

  lemma {:induction false} ByIdWhenUnique(services: seq<Service>, service: Service)
    requires UniqueNames(services) && service in services
    ensures service.id in ById(services) && ById(services)[service.id] == service
  {
    ByIdKeys(services);
  }

  predicate NoCycleError(errors: seq<CatalogError>) {
    forall e :: e in errors ==> !e.DependencyCycle?
  }

  method CheckArtifacts(artifacts: seq<string>, seen: set<string>, ghost before: seq<string>)
    returns (seen': set<string>, errors: seq<CatalogError>)
    requires Elements(before) == seen
    ensures seen' == Elements(before + artifacts) && NoCycleError(errors)
    ensures Distinct(before) ==> (errors == [] <==> Distinct(before + artifacts))
  {
    seen', errors := seen, [];
    for i := 0 to |artifacts|
      invariant seen' == Elements(before + artifacts[..i]) && NoCycleError(errors)
      invariant Distinct(before) ==> (errors == [] <==> Distinct(before + artifacts[..i]))
    {
      ghost var sofar := before + artifacts[..i];
      assert before + artifacts[..i + 1] == sofar + [artifacts[i]];
      assert forall k :: 0 <= k < |sofar| ==> sofar[k] == (sofar + [artifacts[i]])[k];
      if artifacts[i] in seen' {
        errors := errors + [DuplicateArtifact(artifacts[i])];
        ghost var k :| 0 <= k < |sofar| && sofar[k] == artifacts[i];
        assert (sofar + [artifacts[i]])[|sofar|] == artifacts[i];
        assert !Distinct(sofar + [artifacts[i]]);
      }
      seen' := seen' + {artifacts[i]};
    }
    assert artifacts[..|artifacts|] == artifacts;
  }

  lemma {:induction false} DistinctIdsSnoc(services: seq<Service>, service: Service)
    ensures DistinctIds(services + [service]) <==> DistinctIds(services) && service.id !in ById(services)
  {
    var next := services + [service];
    var n := |services|;
    ByIdKeys(services);
    assert forall i :: 0 <= i < n ==> next[i] == services[i];
    if service.id in ById(services) {
      var k :| 0 <= k < n && services[k] == ById(services)[service.id];
      assert next[k].id == next[n].id;
    }
  }

  lemma {:induction false} UniqueNamesSnoc(services: seq<Service>, service: Service)
    ensures UniqueNames(services + [service]) <==>
            DistinctIds(services) && service.id !in ById(services)
            && Distinct(AllArtifacts(services) + service.artifacts)
    ensures Distinct(AllArtifacts(services) + service.artifacts) ==> Distinct(AllArtifacts(services))
  {
    assert (services + [service])[..|services|] == services;
    DistinctIdsSnoc(services, service);
    var a, b := AllArtifacts(services), service.artifacts;
    assert forall k :: 0 <= k < |a| ==> a[k] == (a + b)[k];
  }

  lemma PrefixSnoc(services: seq<Service>, i: nat)
    requires i < |services|
    ensures ById(services[..i + 1]) == ById(services[..i])[services[i].id := services[i]]
    ensures AllArtifacts(services[..i + 1]) == AllArtifacts(services[..i]) + services[i].artifacts
    ensures UniqueNames(services[..i + 1]) <==>
            UniqueNames(services[..i]) && services[i].id !in ById(services[..i])
            && Distinct(AllArtifacts(services[..i]) + services[i].artifacts)
  {
    assert services[..i + 1] == services[..i] + [services[i]];
    assert services[..i + 1][..i] == services[..i];
    UniqueNamesSnoc(services[..i], services[i]);
  }

  method CollectServices(services: seq<Service>)
    returns (byId: map<string, Service>, ids: seq<string>, errors: seq<CatalogError>)
    ensures byId == ById(services) && NoCycleError(errors)
    ensures forall id :: id in byId <==> id in ids
    ensures errors == [] <==> UniqueNames(services)
  {
    byId, ids, errors := map[], [], [];
    var artifacts := {};
    for i := 0 to |services|
      invariant byId == ById(services[..i]) && NoCycleError(errors)
      invariant forall id :: id in byId <==> id in ids
      invariant artifacts == Elements(AllArtifacts(services[..i]))
      invariant errors == [] <==> UniqueNames(services[..i])
    {
      var service := services[i];
      PrefixSnoc(services, i);
      if service.id in byId {
        errors := errors + [DuplicateService(service.id)];
      } else {
        ids := ids + [service.id];
      }
      byId := byId[service.id := service];
      var more;
      artifacts, more := CheckArtifacts(service.artifacts, artifacts, AllArtifacts(services[..i]));
      errors := errors + more;
    }
    assert services[..|services|] == services;
  }

  predicate ChecksOut(byId: map<string, Service>, service: Service) {
    && (forall d :: d in service.dependsOn ==> d in byId && d != service.id)
    && service.health in service.artifacts
  }

  method CheckService(byId: map<string, Service>, service: Service) returns (errors: seq<CatalogError>)
    ensures NoCycleError(errors)
    ensures errors == [] <==> ChecksOut(byId, service)
  {
    errors := [];
    for i := 0 to |service.dependsOn|
      invariant NoCycleError(errors)
      invariant errors == [] <==>
                forall j :: 0 <= j < i ==> service.dependsOn[j] in byId && service.dependsOn[j] != service.id
    {
      if service.dependsOn[i] !in byId {
        errors := errors + [UnknownDependency(service.id, service.dependsOn[i])];
      }
      if service.dependsOn[i] == service.id {
        errors := errors + [SelfDependency(service.id)];
      }
    }
    if service.health !in service.artifacts {
      errors := errors + [HealthNotArtifact(service.id)];
    }
  }

  lemma {:induction false} MandatoryById(services: seq<Service>, id: string)
    requires DistinctIds(services)
    ensures Mandatory(services, id) <==> id in ById(services) && ById(services)[id].mandatory
  {
    ByIdCounts(services, id);
    forall i: nat | i < |services| ensures Counts(services, i) {
    }
  }

  lemma {:induction false} SoundById(services: seq<Service>, service: Service)
    ensures ChecksOut(ById(services), service) <==> ServiceCoherent(services, service)
  {
    ByIdKeys(services);
    forall d ensures Listed(services, d) <==> d in ById(services) {
      if Listed(services, d) {
        var i :| 0 <= i < |services| && services[i].id == d;
        assert services[i] in services;
      }
    }
  }

  method CheckMandatory(byId: map<string, Service>) returns (errors: seq<CatalogError>)
    ensures NoCycleError(errors)
    ensures errors == [] <==>
            && ("tor" in byId && byId["tor"].mandatory) && ("schlussel" in byId && byId["schlussel"].mandatory)
            && ("schloss" in byId && byId["schloss"].mandatory)
  {
    errors := [];
    var mandatory := ["tor", "schlussel", "schloss"];
    for i := 0 to |mandatory|
      invariant NoCycleError(errors)
      invariant errors == [] <==> forall j :: 0 <= j < i ==> mandatory[j] in byId && byId[mandatory[j]].mandatory
    {
      if mandatory[i] !in byId || !byId[mandatory[i]].mandatory {
        errors := errors + [NotMandatory(mandatory[i])];
      }
    }
    assert mandatory[0] == "tor" && mandatory[1] == "schlussel" && mandatory[2] == "schloss";
  }

  method CheckServices(services: seq<Service>, byId: map<string, Service>, ids: seq<string>) returns (errors: seq<CatalogError>)
    requires byId == ById(services) && forall id :: id in byId <==> id in ids
    ensures NoCycleError(errors)
    ensures UniqueNames(services) ==>
              (errors == [] <==> forall service :: service in services ==> ServiceCoherent(services, service))
  {
    errors := [];
    for i := 0 to |ids|
      invariant NoCycleError(errors)
      invariant errors == [] <==> forall j :: 0 <= j < i ==> ChecksOut(byId, byId[ids[j]])
    {
      var more := CheckService(byId, byId[ids[i]]);
      errors := errors + more;
    }
    if UniqueNames(services) {
      ByIdKeys(services);
      forall service | service in services
        ensures service.id in byId && byId[service.id] == service
        ensures ChecksOut(byId, service) <==> ServiceCoherent(services, service)
      {
        ByIdWhenUnique(services, service);
        SoundById(services, service);
      }
    }
  }

  /** No error at all exactly on coherent catalogs, a cycle error exactly on those whose services' own
      lists lead back to where they began. */
  method ValidateCatalog(services: seq<Service>) returns (errors: seq<CatalogError>)
    ensures errors == [] <==> Coherent(services)
    ensures NoCycleError(errors) <==> Acyclic(services)
  {
    var byId, ids;
    byId, ids, errors := CollectServices(services);
    var more := CheckMandatory(byId);
    errors := errors + more;
    more := CheckServices(services, byId, ids);
    errors := errors + more;
    if UniqueNames(services) {
      MandatoryById(services, "tor");
      MandatoryById(services, "schlussel");
      MandatoryById(services, "schloss");
    }
    var g := Dependencies(services);
    more := FindCycles(g, ids);
    AcyclicExactly(services);
    assert more != [] ==> more[0] in errors + more;
    errors := errors + more;
  }
}
