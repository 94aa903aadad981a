/** What happens to the data of persistent services over any number of applies. */
module PlanRetention {
  import opened Sequences
  import opened Catalog
  import opened PlanTypes
  import opened PlanDiff
  import opened PlanFolds
  import opened PlanBlockers
  import opened Planner

  /** What commitGenerationFor writes for the retained services: a record keeps the time it has. */
  function CommitRetained(planned: map<string, Retained>, before: map<string, Retained>, startedAt: string): map<string, Retained> {
    map id | id in planned ::
      planned[id].(retainedAt :=
        if id in before && before[id].retainedAt.Some? then before[id].retainedAt else Some(startedAt))
  }

  /** One apply that reached its commit, and the baseline it leaves. */
  datatype Commit = Commit(input: Input, plan: Plan, startedAt: string, next: Baseline)

  /** The catalog fixes which units an enabled service has. */
  ghost predicate UnitSetsFixed(input: Input) {
    forall id :: Enabled(input.baseline.services, id) && Enabled(input.desired.services, id) ==>
      input.baseline.services[id].units.Keys == input.desired.services[id].units.Keys
  }

  ghost predicate IsCommit(c: Commit) {
    && WellFormed(c.input) && UnitSetsFixed(c.input)
    && IsPlan(c.input, c.plan) && c.plan.blockers == []
    && c.next.services == c.input.desired.services
    && c.next.retained == CommitRetained(c.plan.retained, c.input.baseline.retained, c.startedAt)
  }

  /** Any number of commits over one catalog, from a first apply on. */
  ghost predicate IsHistory(catalog: seq<Service>, h: seq<Commit>) {
    && (forall i :: 0 <= i < |h| ==> IsCommit(h[i]) && h[i].input.catalog == catalog)
    && (h != [] ==> h[0].input.baseline.services == map[] && h[0].input.baseline.retained == map[])
    && (forall i :: 0 < i < |h| ==> h[i].input.baseline == h[i - 1].next)
  }

  ghost predicate Persistent(catalog: seq<Service>, id: string) {
    DatabaseOf(catalog, id).Some?
  }

  lemma {:induction false} DatabaseOfService(catalog: seq<Service>, id: string) returns (service: Service)
    requires Persistent(catalog, id)
    ensures service in catalog && service.id == id && service.database == DatabaseOf(catalog, id)
  {
    if catalog[0].id == id {
      service := catalog[0];
    } else {
      service := DatabaseOfService(catalog[1..], id);
    }
  }

  /** An enabled persistent service has a unit, and its schema is known. */
  ghost predicate Sound(catalog: seq<Service>, services: map<string, ServiceState>) {
    forall id :: Persistent(catalog, id) && Enabled(services, id) ==>
      services[id].units != map[] && services[id].schema.Some?
  }

  lemma DesiredIsSound(input: Input)
    requires WellFormed(input)
    ensures Sound(input.catalog, input.desired.services)
  {
    forall id | Persistent(input.catalog, id) && Enabled(input.desired.services, id)
      ensures input.desired.services[id].units != map[] && input.desired.services[id].schema.Some?
    {
      var service := DatabaseOfService(input.catalog, id);
      assert DatabaseUnitNamed(input, service);
      assert RunsDatabase(input, service, service.database.value.component);
    }
  }

  lemma LiveUnit(services: map<string, ServiceState>, id: string) returns (k: Key)
    requires Enabled(services, id) && services[id].units != map[]
    ensures k in Live(services) && k.0 == id
  {
    var u :| u in services[id].units;
    k := (id, u);
  }

  /** A persistent service is created or removed exactly when it is enabled or disabled. */
  lemma SwitchedMeansTouched(input: Input, id: string)
    requires WellFormed(input) && UnitSetsFixed(input) && Sound(input.catalog, input.baseline.services)
    requires Persistent(input.catalog, id)
    ensures Created(input, id) <==> Enabled(input.desired.services, id) && !Enabled(input.baseline.services, id)
    ensures Removed(input, id) <==> Enabled(input.baseline.services, id) && !Enabled(input.desired.services, id)
  {
    DesiredIsSound(input);
    if Enabled(input.desired.services, id) && !Enabled(input.baseline.services, id) {
      var k := LiveUnit(input.desired.services, id);
    }
    if Enabled(input.baseline.services, id) && !Enabled(input.desired.services, id) {
      var k := LiveUnit(input.baseline.services, id);
    }
  }

  /** What one commit does to the record of a persistent service. */
  ghost predicate RetentionStep(catalog: seq<Service>, c: Commit, id: string)
    requires Persistent(catalog, id)
  {
    var before, after := Enabled(c.input.baseline.services, id), Enabled(c.next.services, id);
    && (id in c.next.retained ==>
          c.next.retained[id].retainedAt ==
          if id in c.input.baseline.retained && c.input.baseline.retained[id].retainedAt.Some?
          then c.input.baseline.retained[id].retainedAt else Some(c.startedAt))
    && (after && !before ==> id !in c.next.retained)
    && (before && !after ==>
          && id in c.next.retained
          && c.next.retained[id].volume == DatabaseOf(catalog, id).value.volume
          && Some(c.next.retained[id].schema) == c.input.baseline.services[id].schema
          && (id !in c.input.baseline.retained ==> c.next.retained[id].retainedAt == Some(c.startedAt)))
    && (before == after ==>
          && (id in c.next.retained <==> id in c.input.baseline.retained)
          && (id in c.next.retained && c.input.baseline.retained[id].retainedAt.Some? ==>
                c.next.retained[id] == c.input.baseline.retained[id]))
  }

  lemma CommitRetains(c: Commit, id: string)
    requires IsCommit(c) && Sound(c.input.catalog, c.input.baseline.services) && Persistent(c.input.catalog, id)
    ensures RetentionStep(c.input.catalog, c, id)
  {
    SwitchedMeansTouched(c.input, id);
    assert RetainedRight(c.input, c.plan.retained, id);
  }

  lemma {:induction false} HistoryIsSound(catalog: seq<Service>, h: seq<Commit>, j: nat)
    requires IsHistory(catalog, h) && j < |h|
    ensures Sound(catalog, h[j].input.baseline.services) && Sound(catalog, h[j].next.services)
  {
    DesiredIsSound(h[j].input);
    if j > 0 {
      HistoryIsSound(catalog, h, j - 1);
    }
  }

  ghost predicate EverEnabled(h: seq<Commit>, j: nat, id: string) {
    exists i :: 0 <= i <= j && i < |h| && Enabled(h[i].next.services, id)
  }

  /** The commit that disabled a service, after which it stayed disabled, and the record it left. */
  ghost predicate DisabledAt(catalog: seq<Service>, h: seq<Commit>, i: nat, j: nat, id: string)
    requires j < |h| && Persistent(catalog, id)
  {
    && i <= j && Enabled(h[i].input.baseline.services, id)
    && (forall m :: i <= m <= j ==> !Enabled(h[m].next.services, id))
    && id in h[j].next.retained
    && h[i].input.baseline.services[id].schema.Some?
    && h[j].next.retained[id] ==
       Retained(DatabaseOf(catalog, id).value.volume, h[i].input.baseline.services[id].schema.value, Some(h[i].startedAt))
  }

  /** Enabled or retained and not both once it was ever enabled; and retained as it was when disabled. */
  ghost predicate Conserved(catalog: seq<Service>, h: seq<Commit>, j: nat, id: string)
    requires j < |h| && Persistent(catalog, id)
  {
    && (EverEnabled(h, j, id) ==> (Enabled(h[j].next.services, id) <==> id !in h[j].next.retained))
    && (!EverEnabled(h, j, id) ==> id !in h[j].next.retained)
    && (id in h[j].next.retained ==> exists i: nat :: DisabledAt(catalog, h, i, j, id))
  }

  lemma ConservedStep(catalog: seq<Service>, h: seq<Commit>, j: nat, id: string)
    requires 0 < j < |h| && Persistent(catalog, id) && RetentionStep(catalog, h[j], id)
    requires h[j].input.baseline == h[j - 1].next && Conserved(catalog, h, j - 1, id)
    ensures Conserved(catalog, h, j, id)
  {
    if Enabled(h[j].input.baseline.services, id) && !Enabled(h[j].next.services, id) {
      assert DisabledAt(catalog, h, j, j, id);
    } else if id in h[j].next.retained {
      var i: nat :| DisabledAt(catalog, h, i, j - 1, id);
      assert DisabledAt(catalog, h, i, j, id);
    }
  }

  lemma ConservedFirst(catalog: seq<Service>, h: seq<Commit>, id: string)
    requires h != [] && Persistent(catalog, id) && RetentionStep(catalog, h[0], id)
    requires h[0].input.baseline.services == map[] && h[0].input.baseline.retained == map[]
    ensures Conserved(catalog, h, 0, id)
  {
  }

  lemma HistoryStep(catalog: seq<Service>, h: seq<Commit>, j: nat, id: string)
    requires IsHistory(catalog, h) && j < |h| && Persistent(catalog, id)
    ensures RetentionStep(catalog, h[j], id)
    ensures j == 0 ==> h[0].input.baseline.services == map[] && h[0].input.baseline.retained == map[]
    ensures j > 0 ==> h[j].input.baseline == h[j - 1].next
  {
    HistoryIsSound(catalog, h, j);
    CommitRetains(h[j], id);
  }

  /** The commits of a history, as far as one service is concerned. */
  ghost predicate RetentionChain(catalog: seq<Service>, h: seq<Commit>, id: string)
    requires Persistent(catalog, id)
  {
    && (h != [] ==> h[0].input.baseline.services == map[] && h[0].input.baseline.retained == map[])
    && forall j :: 0 <= j < |h| ==>
         RetentionStep(catalog, h[j], id) && (j > 0 ==> h[j].input.baseline == h[j - 1].next)
  }

  lemma HistoryIsChain(catalog: seq<Service>, h: seq<Commit>, id: string)
    requires IsHistory(catalog, h) && Persistent(catalog, id)
    ensures RetentionChain(catalog, h, id)
  {
    forall j | 0 <= j < |h|
      ensures RetentionStep(catalog, h[j], id) && (j > 0 ==> h[j].input.baseline == h[j - 1].next)
    {
      HistoryStep(catalog, h, j, id);
    }
  }

  lemma {:induction false} ConservedAlong(catalog: seq<Service>, h: seq<Commit>, j: nat, id: string)
    requires j < |h| && Persistent(catalog, id) && RetentionChain(catalog, h, id)
    ensures Conserved(catalog, h, j, id)
  {
    if j > 0 {
      ConservedAlong(catalog, h, j - 1, id);
      ConservedStep(catalog, h, j, id);
    } else {
      ConservedFirst(catalog, h, id);
    }
  }

  /** After any commit of any history a persistent service that was ever enabled is either enabled or
      recorded as retained, and not both; and it is retained as it was when it was disabled, with the
      time of that commit. A service that was never enabled is not retained. */
  lemma DataIsConserved(catalog: seq<Service>, h: seq<Commit>, j: nat, id: string)
    requires IsHistory(catalog, h) && j < |h| && Persistent(catalog, id)
    ensures Conserved(catalog, h, j, id)
  {
    HistoryIsChain(catalog, h, id);
    ConservedAlong(catalog, h, j, id);
  }
}
