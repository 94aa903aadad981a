/** The repairs and restarts that the planner folds into its updates (scripts/plan.mjs). */
module PlanFolds {
  import opened Sequences
  import opened Catalog
  import opened PlanTypes
  import opened PlanDrift
  import opened PlanDiff

  /** Only the units of enabled services are rendered. */
  ghost predicate DisabledHasNoUnits(input: Input) {
    forall s :: s in input.desired.services && !input.desired.services[s].enabled ==>
      input.desired.services[s].units == map[]
  }

  /** `desired.services[service]?.units?.[unit]`. */
  ghost predicate Rendered(input: Input, k: Key) {
    k.0 in input.desired.services && k.1 in input.desired.services[k.0].units
  }

  ghost function MissingKeys(drift: seq<Drift>): set<Key> {
    set d | d in drift && d.Missing? :: d.key
  }

  ghost function ManualKeys(drift: seq<Drift>): set<Key> {
    set d | d in drift && d.ManualChange? :: d.key
  }

  lemma KeysOfDriftSnoc(drift: seq<Drift>, i: nat)
    requires i < |drift|
    ensures MissingKeys(drift[..i + 1]) ==
            MissingKeys(drift[..i]) + if drift[i].Missing? then {drift[i].key} else {}
    ensures ManualKeys(drift[..i + 1]) ==
            ManualKeys(drift[..i]) + if drift[i].ManualChange? then {drift[i].key} else {}
  {
    assert drift[..i + 1] == drift[..i] + [drift[i]];
  }

  ghost predicate ExactDrift(input: Input, drift: seq<Drift>) {
    forall d :: d in drift <==> IsDrift(input, d)
  }

  /** One repair, unless its unit is touched already or no longer rendered. */
  method FoldRepair(input: Input, k: Key, reason: Reason, ghost stage: nat, create: seq<Entry>, update: seq<Entry>,
                    touched: set<Key>, ghost seen: set<Key>)
    returns (folded: seq<Entry>, touched': set<Key>)
    requires DisabledHasNoUnits(input) && k in input.Was() && BringsImage(reason)
    requires reason != ImageChanged && reason != ConfigurationChanged
    requires k in input.Wanted() && !Touched(input, k, stage) ==> UpdateReason(input, k, stage + 1) == Some(reason)
    requires IsCreate(input, create) && Folded(input, update, stage, seen) && touched == KeysOf(create) + KeysOf(update)
    ensures Folded(input, folded, stage, seen + {k}) && touched' == KeysOf(create) + KeysOf(folded)
  {
    folded, touched' := update, touched;
    FoldOne(input, update, stage, seen, k);
    if k !in touched && k.0 in input.desired.services && k.1 in input.desired.services[k.0].units {
      KeysOfSnoc(update, UpdateEntry(input, k, reason));
      var unit := input.desired.services[k.0].units[k.1];
      folded := update + [Entry(k.0, k.1, unit.artifact, Some(unit.image), unit.image, true, reason)];
      touched' := touched + {k};
    }
  }

  lemma MissingReason(input: Input, drift: seq<Drift>, i: nat)
    requires ExactDrift(input, drift) && i < |drift| && drift[i].Missing?
    ensures var k := drift[i].key;
            && k in input.Was()
            && (k in input.Wanted() && !Touched(input, k, 0) ==> UpdateReason(input, k, 1) == Some(ContainerMissing))
  {
    assert IsDrift(input, drift[i]);
  }

  method FoldMissingIntoRepairs(input: Input, drift: seq<Drift>, create: seq<Entry>, update: seq<Entry>)
    returns (folded: seq<Entry>)
    requires ExactDrift(input, drift) && DisabledHasNoUnits(input)
    requires IsCreate(input, create) && IsUpdate(input, update, 0)
    ensures IsUpdate(input, folded, 1)
  {
    folded := update;
    StartFold(input, update, 0);
    var touched := KeysOf(create) + KeysOf(update);
    for i := 0 to |drift|
      invariant Folded(input, folded, 0, MissingKeys(drift[..i]))
      invariant touched == KeysOf(create) + KeysOf(folded)
    {
      KeysOfDriftSnoc(drift, i);
      if drift[i].Missing? {
        MissingReason(input, drift, i);
        folded, touched :=
          FoldRepair(input, drift[i].key, ContainerMissing, 0, create, folded, touched, MissingKeys(drift[..i]));
      }
    }
    assert drift[..|drift|] == drift;
    MissingSeen(input, drift);
    EndFold(input, folded, 0, MissingKeys(drift));
  }

  lemma MissingSeen(input: Input, drift: seq<Drift>)
    requires ExactDrift(input, drift)
    ensures forall k :: Touched(input, k, 1) ==> Touched(input, k, 0) || k in MissingKeys(drift)
  {
    forall k | Touched(input, k, 1) ensures Touched(input, k, 0) || k in MissingKeys(drift) {
      assert IsMissing(input, k) ==> Missing(k) in drift;
    }
  }

  lemma ManualReason(input: Input, drift: seq<Drift>, i: nat)
    requires ExactDrift(input, drift) && input.repairDrift && i < |drift| && drift[i].ManualChange?
    ensures var k := drift[i].key;
            && k in input.Was()
            && (k in input.Wanted() && !Touched(input, k, 1) ==> UpdateReason(input, k, 2) == Some(RevertManualChange))
  {
    assert IsDrift(input, drift[i]);
  }

  method FoldManualChangeIntoRepairs(input: Input, drift: seq<Drift>, create: seq<Entry>, update: seq<Entry>)
    returns (folded: seq<Entry>)
    requires ExactDrift(input, drift) && DisabledHasNoUnits(input) && input.repairDrift
    requires IsCreate(input, create) && IsUpdate(input, update, 1)
    ensures IsUpdate(input, folded, 2)
  {
    folded := update;
    StartFold(input, update, 1);
    var touched := KeysOf(create) + KeysOf(update);
    for i := 0 to |drift|
      invariant Folded(input, folded, 1, ManualKeys(drift[..i]))
      invariant touched == KeysOf(create) + KeysOf(folded)
    {
      KeysOfDriftSnoc(drift, i);
      if drift[i].ManualChange? {
        ManualReason(input, drift, i);
        folded, touched :=
          FoldRepair(input, drift[i].key, RevertManualChange, 1, create, folded, touched, ManualKeys(drift[..i]));
      }
    }
    assert drift[..|drift|] == drift;
    ManualSeen(input, drift);
    EndFold(input, folded, 1, ManualKeys(drift));
  }

  lemma ManualSeen(input: Input, drift: seq<Drift>)
    requires ExactDrift(input, drift)
    ensures forall k :: Touched(input, k, 2) ==> Touched(input, k, 1) || k in ManualKeys(drift)
  {
    forall k | Touched(input, k, 2) ensures Touched(input, k, 1) || k in ManualKeys(drift) {
      assert IsManualChange(input, k) ==> ManualChange(k) in drift;
    }
  }

  /** Without `repairDrift` no manual change is folded. */
  lemma NoManualFold(input: Input, update: seq<Entry>)
    requires IsUpdate(input, update, 1) && !input.repairDrift
    ensures IsUpdate(input, update, 2)
  {
    StartFold(input, update, 1);
    EndFold(input, update, 1, {});
  }

  ghost predicate ExactRepairs(input: Input, repairs: seq<FileDrift>) {
    forall d :: d in repairs <==> ToRepair(input, d)
  }

  method FoldGatewayRestartForCaddyfile(input: Input, repairs: seq<FileDrift>, create: seq<Entry>, update: seq<Entry>)
    returns (folded: seq<Entry>)
    requires ExactRepairs(input, repairs) && DisabledHasNoUnits(input)
    requires IsCreate(input, create) && IsUpdate(input, update, 2)
    ensures IsUpdate(input, folded, 3)
  {
    var caddyfile := exists d :: d in repairs && d.file == "Caddyfile";
    folded := FoldGateway(input, caddyfile, create, update);
  }

  lemma GatewayStage(input: Input, k: Key)
    ensures Touched(input, k, 3) <==>
            Touched(input, k, 2) || (k == GATEWAY && k in input.Was() && k in input.Wanted() && CaddyfileToRepair(input))
    ensures Touched(input, k, 3) && !Touched(input, k, 2) ==> UpdateReason(input, k, 3) == Some(CaddyfileRegenerated)
  {
  }

  method FoldGateway(input: Input, caddyfile: bool, create: seq<Entry>, update: seq<Entry>)
    returns (folded: seq<Entry>)
    requires caddyfile <==> CaddyfileToRepair(input)
    requires Rendered(input, GATEWAY) <==> GATEWAY in input.Wanted()
    requires IsCreate(input, create) && IsUpdate(input, update, 2)
    ensures IsUpdate(input, folded, 3)
  {
    folded := update;
    StartFold(input, update, 2);
    FoldOne(input, update, 2, {}, GATEWAY);
    GatewayStage(input, GATEWAY);
    var gateway := ("tor", "gateway");
    if caddyfile && gateway !in KeysOf(create) && gateway !in KeysOf(update)
       && "tor" in input.desired.services && "gateway" in input.desired.services["tor"].units {
      var unit := input.desired.services["tor"].units["gateway"];
      folded := update + [Entry("tor", "gateway", unit.artifact, Some(unit.image), unit.image, false, CaddyfileRegenerated)];
    }
    forall k | Touched(input, k, 3) ensures Touched(input, k, 2) || k in {} + {GATEWAY} {
      GatewayStage(input, k);
    }
    EndFold(input, folded, 2, {} + {GATEWAY});
  }

  // Migrations.

  /** A database unit is named after its component, and no other unit of the service runs it. */
  ghost predicate DatabaseUnitsNamed(input: Input) {
    forall service :: service in input.catalog && service.database.Some? && Enabled(input.desired.services, service.id) ==>
      DatabaseUnitNamed(input, service)
  }

  ghost predicate DatabaseUnitNamed(input: Input, service: Service)
    requires service.database.Some?
  {
    forall unit :: RunsDatabase(input, service, unit) <==> unit == service.database.value.component
  }

  /** `Object.entries(units).find(([, unit]) => unit.artifact === component)`. */
  method FindDatabaseUnit(input: Input, service: Service) returns (unit: Option<string>)
    requires service.database.Some? && Enabled(input.desired.services, service.id)
    ensures unit.Some? ==> RunsDatabase(input, service, unit.value)
    ensures unit.None? ==> forall u :: !RunsDatabase(input, service, u)
  {
    var todo := input.desired.services[service.id].units.Keys;
    while todo != {}
      invariant forall u :: RunsDatabase(input, service, u) ==> u in todo
      invariant todo <= input.desired.services[service.id].units.Keys
    {
      var u :| u in todo;
      if input.desired.services[service.id].units[u].artifact == service.database.value.component {
        return Some(u);
      }
      todo := todo - {u};
    }
    return None;
  }

  ghost function Needing(input: Input, services: seq<Service>): seq<Service> {
    if services == [] then []
    else
      var last := services[|services| - 1];
      Needing(input, services[..|services| - 1]) + if NeedsMigration(input, last) then [last] else []
  }

  lemma {:induction false} NeedingMembers(input: Input, services: seq<Service>, service: Service)
    ensures service in Needing(input, services) <==> service in services && NeedsMigration(input, service)
  {
    if services != [] {
      var n := |services| - 1;
      NeedingMembers(input, services[..n], service);
      assert services == services[..n] + [services[n]];
    }
  }

  function ImageKeys(entries: seq<Entry>): set<Key> {
    set e | e in entries && e.imageChanged :: KeyOf(e)
  }

  lemma LineImage(input: Input, e: Entry)
    requires UpdateLine(input, e, 3)
    ensures KeyOf(e) in input.Was() && (e.imageChanged <==> ImageTouched(input, KeyOf(e)))
  {
  }

  lemma ImageIsTouched(input: Input, k: Key)
    requires k in input.Was() && ImageTouched(input, k)
    ensures Touched(input, k, 3)
  {
  }

  lemma UpdateImage(input: Input, update: seq<Entry>, k: Key)
    requires IsUpdate(input, update, 3)
    ensures k in ImageKeys(update) <==> k in input.Was() && ImageTouched(input, k)
  {
    if k in ImageKeys(update) {
      var e :| e in update && e.imageChanged && KeyOf(e) == k;
      LineImage(input, e);
    }
    if k in input.Was() && ImageTouched(input, k) {
      ImageIsTouched(input, k);
      var e :| e in update && KeyOf(e) == k;
      LineImage(input, e);
    }
  }

  lemma ImageKeysAre(input: Input, create: seq<Entry>, update: seq<Entry>, k: Key)
    requires IsCreate(input, create) && IsUpdate(input, update, 3)
    ensures k in ImageKeys(create + update) <==> ImageTouched(input, k)
  {
    UpdateImage(input, update, k);
    assert forall e :: e in create + update <==> e in create || e in update;
  }

  /** Whichever unit `find` gave is the one named after the component. */
  lemma FoundIsComponent(input: Input, service: Service, unit: Option<string>)
    requires service.database.Some? && DatabaseUnitNamed(input, service)
    requires unit.Some? ==> RunsDatabase(input, service, unit.value)
    requires unit.None? ==> forall u :: !RunsDatabase(input, service, u)
    ensures unit == Some(service.database.value.component)
  {
    assert RunsDatabase(input, service, service.database.value.component);
  }

  lemma ImageKeysExact(input: Input, create: seq<Entry>, update: seq<Entry>)
    requires IsCreate(input, create) && IsUpdate(input, update, 3)
    ensures forall k :: k in ImageKeys(create + update) <==> ImageTouched(input, k)
  {
    forall k ensures k in ImageKeys(create + update) <==> ImageTouched(input, k) {
      ImageKeysAre(input, create, update, k);
    }
  }

  lemma {:induction false} NeedingSnoc(input: Input, services: seq<Service>, i: nat)
    requires i < |services|
    ensures Needing(input, services[..i + 1]) ==
            Needing(input, services[..i]) + if NeedsMigration(input, services[i]) then [services[i]] else []
  {
    assert services[..i + 1][..i] == services[..i];
  }

  method ServicesNeedingMigration(input: Input, imageChangedUnits: set<Key>) returns (needing: seq<Service>)
    requires DatabaseUnitsNamed(input)
    requires forall k :: k in imageChangedUnits <==> ImageTouched(input, k)
    ensures needing == Needing(input, input.catalog)
  {
    needing := [];
    for i := 0 to |input.catalog|
      invariant needing == Needing(input, input.catalog[..i])
    {
      NeedingSnoc(input, input.catalog, i);
      var needs := NeedsMigrating(input, input.catalog[i], imageChangedUnits);
      if needs {
        needing := needing + [input.catalog[i]];
      }
    }
    assert input.catalog[..|input.catalog|] == input.catalog;
  }

  method NeedsMigrating(input: Input, service: Service, imageChangedUnits: set<Key>) returns (needs: bool)
    requires service in input.catalog && DatabaseUnitsNamed(input)
    requires forall k :: k in imageChangedUnits <==> ImageTouched(input, k)
    ensures needs <==> NeedsMigration(input, service)
  {
    if service.database.None? || !Enabled(input.desired.services, service.id) {
      return false;
    }
    var wasEnabled := Enabled(input.baseline.services, service.id);
    var schema := SchemaOf(input.desired.services, service.id);
    if !wasEnabled && service.id in input.baseline.retained && Some(input.baseline.retained[service.id].schema) == schema {
      return false;
    }
    var unit := FindDatabaseUnit(input, service);
    FoundIsComponent(input, service, unit);
    return !wasEnabled || SchemaOf(input.baseline.services, service.id) != schema
           || (unit.Some? && (service.id, unit.value) in imageChangedUnits);
  }

  ghost function DatabaseKeys(services: seq<Service>): set<Key> {
    set service | service in services && service.database.Some? :: (service.id, service.database.value.component)
  }

  lemma DatabaseKeysSnoc(services: seq<Service>, i: nat)
    requires i < |services| && services[i].database.Some?
    ensures DatabaseKeys(services[..i + 1]) ==
            DatabaseKeys(services[..i]) + {(services[i].id, services[i].database.value.component)}
  {
    assert services[..i + 1] == services[..i] + [services[i]];
  }

  lemma {:induction false} NeedingAt(input: Input, i: nat)
    requires DatabaseUnitsNamed(input) && i < |Needing(input, input.catalog)|
    ensures var service := Needing(input, input.catalog)[i];
            && service in input.catalog && NeedsMigration(input, service)
            && RunsDatabase(input, service, service.database.value.component)
            && MigratedUnit(input, (service.id, service.database.value.component))
            && (service.id, service.database.value.component) in input.Wanted()
  {
    var service := Needing(input, input.catalog)[i];
    NeedingMembers(input, input.catalog, service);
    assert DatabaseUnitNamed(input, service);
    assert RunsDatabase(input, service, service.database.value.component);
  }

  lemma MigrationStage(input: Input, k: Key)
    ensures Touched(input, k, 4) <==>
            Touched(input, k, 3) || (k in input.Was() && k in input.Wanted() && MigratedUnit(input, k))
    ensures Touched(input, k, 4) && !Touched(input, k, 3) ==> UpdateReason(input, k, 4) == Some(SchemaChanged)
  {
  }

  lemma {:induction false} MigratedIsNeeding(input: Input, k: Key)
    ensures MigratedUnit(input, k) ==> k in DatabaseKeys(Needing(input, input.catalog))
  {
    if MigratedUnit(input, k) {
      var service :| service in input.catalog && NeedsMigration(input, service)
                     && k == (service.id, service.database.value.component);
      NeedingMembers(input, input.catalog, service);
    }
  }

  method FoldMigrationOnlyIntoUpdates(input: Input, needing: seq<Service>, create: seq<Entry>, update: seq<Entry>)
    returns (folded: seq<Entry>)
    requires needing == Needing(input, input.catalog) && DatabaseUnitsNamed(input)
    requires IsCreate(input, create) && IsUpdate(input, update, 3)
    ensures IsUpdate(input, folded, 4)
  {
    folded := update;
    StartFold(input, update, 3);
    var touched := KeysOf(create) + KeysOf(update);
    for i := 0 to |needing|
      invariant Folded(input, folded, 3, DatabaseKeys(needing[..i]))
      invariant touched == KeysOf(create) + KeysOf(folded)
    {
      NeedingAt(input, i);
      DatabaseKeysSnoc(needing, i);
      folded, touched := FoldMigration(input, needing[i], create, folded, touched, DatabaseKeys(needing[..i]));
    }
    assert needing[..|needing|] == needing;
    forall k | Touched(input, k, 4) ensures Touched(input, k, 3) || k in DatabaseKeys(needing) {
      MigrationStage(input, k);
      MigratedIsNeeding(input, k);
    }
    EndFold(input, folded, 3, DatabaseKeys(needing));
  }

  method FoldMigration(input: Input, service: Service, create: seq<Entry>, update: seq<Entry>, touched: set<Key>,
                       ghost seen: set<Key>)
    returns (folded: seq<Entry>, touched': set<Key>)
    requires service in input.catalog && NeedsMigration(input, service) && DatabaseUnitsNamed(input)
    requires (service.id, service.database.value.component) in input.Wanted()
    requires MigratedUnit(input, (service.id, service.database.value.component))
    requires IsCreate(input, create) && Folded(input, update, 3, seen) && touched == KeysOf(create) + KeysOf(update)
    ensures Folded(input, folded, 3, seen + {(service.id, service.database.value.component)})
    ensures touched' == KeysOf(create) + KeysOf(folded)
  {
    var k := (service.id, service.database.value.component);
    folded, touched' := update, touched;
    FoldOne(input, update, 3, seen, k);
    MigrationStage(input, k);
    if k !in touched {
      var unit := FindDatabaseUnit(input, service);
      FoundIsComponent(input, service, unit);
      if unit.Some? && (service.id, unit.value) !in touched {
        KeysOfSnoc(update, UpdateEntry(input, k, SchemaChanged));
        var info := input.desired.services[service.id].units[unit.value];
        folded := update + [Entry(service.id, unit.value, info.artifact, Some(info.image), info.image, false, SchemaChanged)];
        touched' := touched + {(service.id, unit.value)};
      }
    }
  }
}
