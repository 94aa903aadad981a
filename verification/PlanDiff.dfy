/** What a plan creates, updates and removes: the diff and the repairs folded into it
    (scripts/plan.mjs, diffUnits, the fold functions and servicesNeedingMigration). */
module PlanDiff {
  import opened Sequences
  import opened Catalog
  import opened PlanTypes
  import opened PlanDrift

  ghost const GATEWAY: Key := ("tor", "gateway")
  ghost const CADDYFILE := "Caddyfile"

  ghost predicate CaddyfileToRepair(input: Input) {
    exists d :: ToRepair(input, d) && d.file == CADDYFILE
  }

  /** Why a unit that stays is touched before migrations are looked at; earlier reasons win.
      Stage 0 is the diff alone, 1 adds missing containers, 2 manual changes, 3 the gateway. */
  ghost function RepairReason(input: Input, k: Key, stage: nat): Option<Reason>
    requires k in input.Was() && k in input.Wanted()
  {
    var from, to := input.Was()[k], input.Wanted()[k];
    if to.fingerprint != from.fingerprint then
      Some(if to.image != from.image then ImageChanged else ConfigurationChanged)
    else if stage >= 1 && IsMissing(input, k) then Some(ContainerMissing)
    else if stage >= 2 && input.repairDrift && IsManualChange(input, k) then Some(RevertManualChange)
    else if stage >= 3 && k == GATEWAY && CaddyfileToRepair(input) then Some(CaddyfileRegenerated)
    else None
  }

  ghost predicate BringsImage(reason: Reason) {
    reason == NewUnit || reason == ImageChanged || reason == ContainerMissing || reason == RevertManualChange
  }

  /** The units whose image is verified and pulled. */
  ghost predicate ImageTouched(input: Input, k: Key) {
    && k in input.Wanted()
    && (k in input.Was() ==>
          var reason := RepairReason(input, k, 3);
          reason.Some? && BringsImage(reason.value))
  }

  ghost predicate RetainedAtSchema(input: Input, id: string) {
    && !Enabled(input.baseline.services, id) && id in input.baseline.retained
    && Some(input.baseline.retained[id].schema) == SchemaOf(input.desired.services, id)
  }

  ghost predicate SchemaDiffers(input: Input, id: string) {
    SchemaOf(input.baseline.services, id) != SchemaOf(input.desired.services, id)
  }

  /** The unit that runs a service's database component. */
  ghost predicate RunsDatabase(input: Input, service: Service, unit: string) {
    && service.database.Some? && Enabled(input.desired.services, service.id)
    && unit in input.desired.services[service.id].units
    && input.desired.services[service.id].units[unit].artifact == service.database.value.component
  }

  ghost predicate NeedsMigration(input: Input, service: Service) {
    && service.database.Some? && Enabled(input.desired.services, service.id)
    && !RetainedAtSchema(input, service.id)
    && (|| !Enabled(input.baseline.services, service.id)
        || SchemaDiffers(input, service.id)
        || ImageTouched(input, (service.id, service.database.value.component)))
  }

  ghost predicate MigratedUnit(input: Input, k: Key) {
    exists service ::
      service in input.catalog && NeedsMigration(input, service) && k == (service.id, service.database.value.component)
  }

  /** Stage 4 adds the units that are only stopped and started around a migration. */
  ghost function UpdateReason(input: Input, k: Key, stage: nat): Option<Reason>
    requires k in input.Was() && k in input.Wanted()
  {
    var reason := RepairReason(input, k, stage);
    if reason.None? && stage >= 4 && MigratedUnit(input, k) then Some(SchemaChanged) else reason
  }

  ghost function CreateEntry(input: Input, k: Key): Entry
    requires k in input.Wanted()
  {
    var to := input.Wanted()[k];
    Entry(k.0, k.1, to.artifact, None, to.image, true, NewUnit)
  }

  ghost function RemoveEntry(input: Input, k: Key): Entry
    requires k in input.Was()
  {
    var from := input.Was()[k];
    Entry(k.0, k.1, from.artifact, None, from.image, false, Disabled)
  }

  ghost function UpdateEntry(input: Input, k: Key, reason: Reason): Entry
    requires k in input.Was() && k in input.Wanted()
  {
    var from, to := input.Was()[k], input.Wanted()[k];
    var before := if reason == ImageChanged || reason == ConfigurationChanged then from.image else to.image;
    Entry(k.0, k.1, to.artifact, Some(before), to.image, BringsImage(reason), reason)
  }

  /** One line for each of these units. */
  ghost predicate Lists(entries: seq<Entry>, keys: set<Key>) {
    DistinctKeys(entries) && KeysOf(entries) == keys
  }

  ghost predicate CreateLine(input: Input, e: Entry) {
    KeyOf(e) in input.Wanted() && e == CreateEntry(input, KeyOf(e))
  }

  ghost predicate RemoveLine(input: Input, e: Entry) {
    KeyOf(e) in input.Was() && e == RemoveEntry(input, KeyOf(e))
  }

  /** One line for every unit that is wanted and was not there. */
  ghost predicate IsCreate(input: Input, create: seq<Entry>) {
    && DistinctKeys(create)
    && (forall k :: k in KeysOf(create) <==> k in input.Wanted() && k !in input.Was())
    && (forall e :: e in create ==> CreateLine(input, e))
  }

  /** One line for every unit that was there and is not wanted. */
  ghost predicate IsRemove(input: Input, remove: seq<Entry>) {
    && DistinctKeys(remove)
    && (forall k :: k in KeysOf(remove) <==> k in input.Was() && k !in input.Wanted())
    && (forall e :: e in remove ==> RemoveLine(input, e))
  }

  ghost predicate Touched(input: Input, k: Key, stage: nat) {
    k in input.Was() && k in input.Wanted() && UpdateReason(input, k, stage).Some?
  }

  ghost predicate UpdateLine(input: Input, e: Entry, stage: nat) {
    && Touched(input, KeyOf(e), stage)
    && e == UpdateEntry(input, KeyOf(e), UpdateReason(input, KeyOf(e), stage).value)
  }

  /** One line for every unit that stays and has a reason to be touched. */
  ghost predicate IsUpdate(input: Input, update: seq<Entry>, stage: nat) {
    && DistinctKeys(update)
    && (forall k :: k in KeysOf(update) <==> Touched(input, k, stage))
    && (forall e :: e in update ==> UpdateLine(input, e, stage))
  }

  lemma KeysOfSnoc(entries: seq<Entry>, e: Entry)
    ensures KeysOf(entries + [e]) == KeysOf(entries) + {KeyOf(e)}
    ensures DistinctKeys(entries) && KeyOf(e) !in KeysOf(entries) ==> DistinctKeys(entries + [e])
  {
    assert forall x :: x in entries + [e] <==> x in entries || x == e;
    assert forall i :: 0 <= i < |entries| ==> entries[i] in entries && KeyOf(entries[i]) in KeysOf(entries);
  }

  /** The lines of those keys that are not left to do. */
  ghost predicate PartOfUpdate(input: Input, update: seq<Entry>, stage: nat, todo: set<Key>) {
    && DistinctKeys(update)
    && (forall k :: k in KeysOf(update) <==> k !in todo && Touched(input, k, stage))
    && (forall e :: e in update ==> UpdateLine(input, e, stage))
  }

  lemma AddLine(input: Input, update: seq<Entry>, stage: nat, todo: set<Key>, k: Key)
    requires PartOfUpdate(input, update, stage, todo) && k in todo
    ensures Touched(input, k, stage) ==>
              PartOfUpdate(input, update + [UpdateEntry(input, k, UpdateReason(input, k, stage).value)], stage, todo - {k})
    ensures !Touched(input, k, stage) ==> PartOfUpdate(input, update, stage, todo - {k})
  {
    if Touched(input, k, stage) {
      KeysOfSnoc(update, UpdateEntry(input, k, UpdateReason(input, k, stage).value));
    }
  }

  lemma ListOne(entries: seq<Entry>, keys: set<Key>, todo: set<Key>, e: Entry)
    requires Lists(entries, keys - todo) && KeyOf(e) in todo && KeyOf(e) in keys
    ensures Lists(entries + [e], keys - (todo - {KeyOf(e)}))
  {
    KeysOfSnoc(entries, e);
  }

  ghost predicate PartOfCreate(input: Input, create: seq<Entry>, keys: set<Key>, todo: set<Key>) {
    Lists(create, keys - todo) && forall e :: e in create ==> CreateLine(input, e)
  }

  ghost predicate PartOfRemove(input: Input, remove: seq<Entry>, keys: set<Key>, todo: set<Key>) {
    Lists(remove, keys - todo) && forall e :: e in remove ==> RemoveLine(input, e)
  }

  lemma AddCreate(input: Input, create: seq<Entry>, keys: set<Key>, todo: set<Key>, k: Key)
    requires PartOfCreate(input, create, keys, todo) && k in todo && keys <= input.Wanted().Keys
    ensures k in keys ==> PartOfCreate(input, create + [CreateEntry(input, k)], keys, todo - {k})
    ensures k !in keys ==> PartOfCreate(input, create, keys, todo - {k})
  {
    if k in keys {
      ListOne(create, keys, todo, CreateEntry(input, k));
    } else {
      assert keys - todo == keys - (todo - {k});
    }
  }

  lemma AddRemove(input: Input, remove: seq<Entry>, keys: set<Key>, todo: set<Key>, k: Key)
    requires PartOfRemove(input, remove, keys, todo) && k in todo && keys <= input.Was().Keys
    ensures k in keys ==> PartOfRemove(input, remove + [RemoveEntry(input, k)], keys, todo - {k})
    ensures k !in keys ==> PartOfRemove(input, remove, keys, todo - {k})
  {
    if k in keys {
      ListOne(remove, keys, todo, RemoveEntry(input, k));
    } else {
      assert keys - todo == keys - (todo - {k});
    }
  }

  /** The three lists, as far as the units that are not left to do. */
  ghost predicate DiffSoFar(input: Input, create: seq<Entry>, update: seq<Entry>, remove: seq<Entry>, todo: set<Key>) {
    && PartOfCreate(input, create, input.Wanted().Keys - input.Was().Keys, todo)
    && PartOfUpdate(input, update, 0, todo)
    && PartOfRemove(input, remove, input.Was().Keys - input.Wanted().Keys, todo)
  }

  lemma DiffStep(input: Input, create: seq<Entry>, update: seq<Entry>, remove: seq<Entry>, todo: set<Key>, k: Key)
    requires DiffSoFar(input, create, update, remove, todo) && k in todo
    ensures k in input.Wanted() && k !in input.Was() ==>
              DiffSoFar(input, create + [CreateEntry(input, k)], update, remove, todo - {k})
    ensures k !in input.Wanted() && k in input.Was() ==>
              DiffSoFar(input, create, update, remove + [RemoveEntry(input, k)], todo - {k})
    ensures Touched(input, k, 0) ==>
              DiffSoFar(input, create, update + [UpdateEntry(input, k, UpdateReason(input, k, 0).value)], remove, todo - {k})
    ensures (k in input.Wanted() <==> k in input.Was()) && !Touched(input, k, 0) ==>
              DiffSoFar(input, create, update, remove, todo - {k})
  {
    AddCreate(input, create, input.Wanted().Keys - input.Was().Keys, todo, k);
    AddLine(input, update, 0, todo, k);
    AddRemove(input, remove, input.Was().Keys - input.Wanted().Keys, todo, k);
  }

  lemma DiffDone(input: Input, create: seq<Entry>, update: seq<Entry>, remove: seq<Entry>)
    requires DiffSoFar(input, create, update, remove, {})
    ensures IsCreate(input, create) && IsUpdate(input, update, 0) && IsRemove(input, remove)
  {
    var was, wanted := input.Was(), input.Wanted();
    assert wanted.Keys - was.Keys - {} == wanted.Keys - was.Keys && was.Keys - wanted.Keys - {} == was.Keys - wanted.Keys;
  }

  lemma DiffStarts(input: Input)
    ensures DiffSoFar(input, [], [], [], input.Was().Keys + input.Wanted().Keys)
  {
  }

  lemma DiffReason(input: Input, k: Key)
    requires k in input.Was() && k in input.Wanted()
    ensures Touched(input, k, 0) <==> input.Wanted()[k].fingerprint != input.Was()[k].fingerprint
    ensures Touched(input, k, 0) ==>
              UpdateReason(input, k, 0) ==
              Some(if input.Wanted()[k].image != input.Was()[k].image then ImageChanged else ConfigurationChanged)
  {
  }

  method DiffUnits(input: Input) returns (create: seq<Entry>, update: seq<Entry>, remove: seq<Entry>)
    ensures IsCreate(input, create) && IsUpdate(input, update, 0) && IsRemove(input, remove)
  {
    create, update, remove := [], [], [];
    var was, wanted := input.Was(), input.Wanted();
    var todo := was.Keys + wanted.Keys;
    DiffStarts(input);
    while todo != {}
      invariant DiffSoFar(input, create, update, remove, todo)
      invariant todo <= was.Keys + wanted.Keys
    {
      var k :| k in todo;
      DiffStep(input, create, update, remove, todo, k);
      if k in wanted && k !in was {
        var e := Entry(k.0, k.1, wanted[k].artifact, None, wanted[k].image, true, NewUnit);
        assert e == CreateEntry(input, k);
        create := create + [e];
      } else if k in wanted && k in was {
        DiffReason(input, k);
        if wanted[k].fingerprint != was[k].fingerprint {
          var imageChanged := wanted[k].image != was[k].image;
          var reason := if imageChanged then ImageChanged else ConfigurationChanged;
          var e := Entry(k.0, k.1, wanted[k].artifact, Some(was[k].image), wanted[k].image, imageChanged, reason);
          assert e == UpdateEntry(input, k, reason);
          update := update + [e];
        }
      } else if k !in wanted && k in was {
        var e := Entry(k.0, k.1, was[k].artifact, None, was[k].image, false, Disabled);
        assert e == RemoveEntry(input, k);
        remove := remove + [e];
      }
      todo := todo - {k};
    }
    DiffDone(input, create, update, remove);
  }

  /** What one fold does: the lines of the next stage that are not there yet, in any order. */
  ghost predicate Folded(input: Input, update: seq<Entry>, stage: nat, seen: set<Key>) {
    && DistinctKeys(update)
    && (forall k :: k in KeysOf(update) <==> Touched(input, k, stage) || (k in seen && Touched(input, k, stage + 1)))
    && (forall e :: e in update ==> UpdateLine(input, e, stage + 1))
  }

  lemma ReasonsStay(input: Input, k: Key, stage: nat)
    ensures Touched(input, k, stage) ==>
              Touched(input, k, stage + 1) && UpdateReason(input, k, stage) == UpdateReason(input, k, stage + 1)
  {
  }

  lemma StartFold(input: Input, update: seq<Entry>, stage: nat)
    requires IsUpdate(input, update, stage)
    ensures Folded(input, update, stage, {})
  {
    forall e | e in update ensures UpdateLine(input, e, stage + 1) {
      ReasonsStay(input, KeyOf(e), stage);
    }
  }

  lemma FoldNone(input: Input, update: seq<Entry>, stage: nat, seen: set<Key>, k: Key)
    requires Folded(input, update, stage, seen)
    requires k in KeysOf(update) || !Touched(input, k, stage + 1)
    ensures Folded(input, update, stage, seen + {k})
  {
    ReasonsStay(input, k, stage);
  }

  lemma FoldNew(input: Input, update: seq<Entry>, stage: nat, seen: set<Key>, k: Key)
    requires Folded(input, update, stage, seen)
    requires k !in KeysOf(update) && Touched(input, k, stage + 1)
    ensures Folded(input, update + [UpdateEntry(input, k, UpdateReason(input, k, stage + 1).value)], stage, seen + {k})
  {
    KeysOfSnoc(update, UpdateEntry(input, k, UpdateReason(input, k, stage + 1).value));
  }

  lemma FoldOne(input: Input, update: seq<Entry>, stage: nat, seen: set<Key>, k: Key)
    requires Folded(input, update, stage, seen)
    ensures k in KeysOf(update) || !Touched(input, k, stage + 1) ==> Folded(input, update, stage, seen + {k})
    ensures k !in KeysOf(update) && Touched(input, k, stage + 1) ==>
              Folded(input, update + [UpdateEntry(input, k, UpdateReason(input, k, stage + 1).value)], stage, seen + {k})
  {
    if k in KeysOf(update) || !Touched(input, k, stage + 1) {
      FoldNone(input, update, stage, seen, k);
    } else {
      FoldNew(input, update, stage, seen, k);
    }
  }

  lemma EndFold(input: Input, update: seq<Entry>, stage: nat, seen: set<Key>)
    requires Folded(input, update, stage, seen)
    requires forall k :: Touched(input, k, stage + 1) ==> Touched(input, k, stage) || k in seen
    ensures IsUpdate(input, update, stage + 1)
  {
    forall k ensures k in KeysOf(update) <==> Touched(input, k, stage + 1) {
      ReasonsStay(input, k, stage);
    }
  }
}
