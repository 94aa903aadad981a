/** A small model of the host and of what each operation does to it, as the roles under ansible/roles do. */
module PlanHost {
  import opened Sequences
  import opened Catalog
  import opened PlanTypes
  import opened PlanOperations

  datatype Owner = Owner(managed: bool, installationId: Option<string>)

  /** A container with the definition it was created from. */
  datatype Container = Container(image: string, fingerprint: string, running: bool, owner: Owner)

  /** `images` are the images that have been pulled, `compose` is the Compose file on disk, `files` the
      digests of the generated files, and `schemas` the schema version of the data in each volume. */
  datatype Host = Host(
    containers: map<Key, Container>,
    images: set<string>,
    volumes: map<string, Owner>,
    networks: map<string, Owner>,
    schemas: map<string, int>,
    compose: map<Key, Unit>,
    files: map<string, string>)

  /** What one apply brings to the host. */
  datatype Delivery = Delivery(installationId: string, compose: map<Key, Unit>, files: map<string, string>)
  {
    function Us(): Owner { Owner(true, Some(installationId)) }

    function Created(u: Unit): Container { Container(u.image, u.fingerprint, true, Us()) }
  }

  function Perform(d: Delivery, host: Host, step: Step): Host {
    match step
    case VolumeEnsure(v) => host.(volumes := Ensured(d, host.volumes, {v}))
    case NetworkEnsure(n, _) => host.(networks := Relabelled(d, host.networks, {n}))
    case ImagePull(_, _, image) => host.(images := host.images + {image})
    case ServiceStop(s, u) => host.(containers := Stopped(d, host.containers, {(s, u)}))
    case ConfigWrite => host.(compose := d.compose, files := d.files)
    case ServiceRemove(s, u) => host.(containers := Dropped(d, host.containers, {(s, u)}))
    case DatabaseMigrate(_, _, volume, _, to) => host.(schemas := host.schemas[volume := to])
    case ServiceStart(s, u, _) => host.(containers := Started(d, host.containers, host.compose, {(s, u)}))
    case _ => host
  }

  /** A volume that already exists keeps its labels: its data is never thrown away for them. */
  function Ensured(d: Delivery, there: map<string, Owner>, names: set<string>): map<string, Owner> {
    map n | n in there.Keys + names :: if n in there then there[n] else d.Us()
  }

  /** A network holds no data: one with other labels is made anew with ours. */
  function Relabelled(d: Delivery, there: map<string, Owner>, names: set<string>): map<string, Owner> {
    map n | n in there.Keys + names :: if n in names then d.Us() else there[n]
  }

  /** Only the installation's own containers are stopped or removed. */
  function Stopped(d: Delivery, containers: map<Key, Container>, keys: set<Key>): map<Key, Container> {
    map k | k in containers ::
      if k in keys && containers[k].owner == d.Us() then containers[k].(running := false) else containers[k]
  }

  function Dropped(d: Delivery, containers: map<Key, Container>, keys: set<Key>): map<Key, Container> {
    map k | k in containers && !(k in keys && containers[k].owner == d.Us()) :: containers[k]
  }

  /** A container is created from the Compose file as it is on disk at that moment. */
  function Started(d: Delivery, containers: map<Key, Container>, compose: map<Key, Unit>, keys: set<Key>): map<Key, Container> {
    map k | k in containers.Keys + keys * compose.Keys ::
      if k in keys && k in compose then d.Created(compose[k]) else containers[k]
  }

  function Run(d: Delivery, host: Host, steps: seq<Step>): Host {
    if steps == [] then host
    else Perform(d, Run(d, host, steps[..|steps| - 1]), steps[|steps| - 1])
  }

  lemma {:induction false} RunAppend(d: Delivery, host: Host, a: seq<Step>, b: seq<Step>)
    ensures Run(d, host, a + b) == Run(d, Run(d, host, a), b)
  {
    if b == [] {
      assert a + b == a;
    } else {
      var n := |b| - 1;
      assert (a + b)[..|a + b| - 1] == a + b[..n] && (a + b)[|a + b| - 1] == b[n];
      RunAppend(d, host, a, b[..n]);
    }
  }

  lemma {:induction false} RunStops(d: Delivery, host: Host, entries: seq<Entry>)
    ensures Run(d, host, StopSteps(entries)) ==
            host.(containers := Stopped(d, host.containers, KeysOf(entries)))
  {
    if entries == [] {
      assert Stopped(d, host.containers, KeysOf(entries)) == host.containers;
    } else {
      var n := |entries| - 1;
      RunStops(d, host, entries[..n]);
      KeysOfLast(entries);
      StoppedTwice(d, host.containers, KeysOf(entries[..n]), {KeyOf(entries[n])});
    }
  }

  lemma StoppedTwice(d: Delivery, containers: map<Key, Container>, a: set<Key>, b: set<Key>)
    ensures Stopped(d, Stopped(d, containers, a), b) == Stopped(d, containers, a + b)
  {
  }

  lemma {:induction false} RunRemoves(d: Delivery, host: Host, entries: seq<Entry>)
    ensures Run(d, host, RemoveSteps(entries)) ==
            host.(containers := Dropped(d, host.containers, KeysOf(entries)))
  {
    if entries == [] {
      assert Dropped(d, host.containers, KeysOf(entries)) == host.containers;
    } else {
      var n := |entries| - 1;
      RunRemoves(d, host, entries[..n]);
      KeysOfLast(entries);
      DroppedTwice(d, host.containers, KeysOf(entries[..n]), {KeyOf(entries[n])});
    }
  }

  lemma DroppedTwice(d: Delivery, containers: map<Key, Container>, a: set<Key>, b: set<Key>)
    ensures Dropped(d, Dropped(d, containers, a), b) == Dropped(d, containers, a + b)
  {
  }

  lemma {:induction false} RunStarts(d: Delivery, host: Host, entries: seq<Entry>)
    ensures Run(d, host, StartSteps(entries)) ==
            host.(containers := Started(d, host.containers, host.compose, KeysOf(entries)))
  {
    if entries == [] {
      assert Started(d, host.containers, host.compose, KeysOf(entries)) == host.containers;
    } else {
      var n, e := |entries| - 1, entries[|entries| - 1];
      RunStarts(d, host, entries[..n]);
      KeysOfLast(entries);
      var before := Run(d, host, StartSteps(entries[..n]));
      var start, wait := ServiceStart(e.service, e.unit, e.image), ReadinessWait(e.service, e.unit, Condition(e.unit));
      assert [start, wait] == [start] + [wait];
      RunAppend(d, host, StartSteps(entries[..n]), [start, wait]);
      RunAppend(d, before, [start], [wait]);
      StartedTwice(d, host.containers, host.compose, KeysOf(entries[..n]), {KeyOf(e)});
    }
  }

  lemma StartedTwice(d: Delivery, containers: map<Key, Container>, compose: map<Key, Unit>, a: set<Key>, b: set<Key>)
    ensures Started(d, Started(d, containers, compose, a), compose, b) == Started(d, containers, compose, a + b)
  {
  }

  /** The images that are pulled for these units. */
  function Pulled(entries: seq<Entry>): set<string> {
    set e | e in entries && e.imageChanged :: e.image
  }

  lemma PulledLast(entries: seq<Entry>)
    requires entries != []
    ensures var e := entries[|entries| - 1];
            Pulled(entries) == Pulled(entries[..|entries| - 1]) + if e.imageChanged then {e.image} else {}
  {
    assert entries == entries[..|entries| - 1] + [entries[|entries| - 1]];
  }

  lemma {:induction false} RunImages(d: Delivery, host: Host, entries: seq<Entry>)
    ensures Run(d, host, ImageSteps(entries)) == host.(images := host.images + Pulled(entries))
  {
    if entries == [] {
      assert host.images + Pulled(entries) == host.images;
    } else {
      var n, e := |entries| - 1, entries[|entries| - 1];
      RunImages(d, host, entries[..n]);
      PulledLast(entries);
      if e.imageChanged {
        var verify, pull := ImageVerify(e.service, e.unit, e.image), ImagePull(e.service, e.unit, e.image);
        var before := Run(d, host, ImageSteps(entries[..n]));
        assert [verify, pull] == [verify] + [pull];
        RunAppend(d, host, ImageSteps(entries[..n]), [verify, pull]);
        RunAppend(d, before, [verify], [pull]);
        assert before.images + {e.image} == host.images + Pulled(entries);
      } else {
        assert ImageSteps(entries) == ImageSteps(entries[..n]);
        assert Pulled(entries) == Pulled(entries[..n]);
      }
    }
  }

  lemma ElementsLast(names: seq<string>)
    requires names != []
    ensures Elements(names) == Elements(names[..|names| - 1]) + {names[|names| - 1]}
  {
    assert names == names[..|names| - 1] + [names[|names| - 1]];
  }

  lemma EnsuredTwice(d: Delivery, there: map<string, Owner>, a: set<string>, b: set<string>)
    ensures Ensured(d, Ensured(d, there, a), b) == Ensured(d, there, a + b)
  {
  }

  lemma {:induction false} RunVolumes(d: Delivery, host: Host, volumes: seq<string>)
    ensures Run(d, host, VolumeSteps(volumes)) == host.(volumes := Ensured(d, host.volumes, Elements(volumes)))
  {
    if volumes == [] {
      assert Ensured(d, host.volumes, Elements(volumes)) == host.volumes;
    } else {
      var n := |volumes| - 1;
      RunVolumes(d, host, volumes[..n]);
      ElementsLast(volumes);
      EnsuredTwice(d, host.volumes, Elements(volumes[..n]), {volumes[n]});
    }
  }

  lemma RelabelledTwice(d: Delivery, there: map<string, Owner>, a: set<string>, b: set<string>)
    ensures Relabelled(d, Relabelled(d, there, a), b) == Relabelled(d, there, a + b)
  {
  }

  lemma {:induction false} RunNetworks(d: Delivery, host: Host, networks: seq<string>)
    ensures Run(d, host, NetworkSteps(networks)) == host.(networks := Relabelled(d, host.networks, Elements(networks)))
  {
    if networks == [] {
      assert Relabelled(d, host.networks, Elements(networks)) == host.networks;
    } else {
      var n := |networks| - 1;
      RunNetworks(d, host, networks[..n]);
      ElementsLast(networks);
      RelabelledTwice(d, host.networks, Elements(networks[..n]), {networks[n]});
    }
  }

  /** The schemas after the migrations of these services. */
  function Migrated(desired: Desired, schemas: map<string, int>, services: seq<Service>): map<string, int>
    requires Migratable(desired, services)
  {
    if services == [] then schemas
    else
      var last := services[|services| - 1];
      Migrated(desired, schemas, services[..|services| - 1])[last.database.value.volume := desired.schemas[last.id].to]
  }

  lemma {:induction false} RunMigrations(d: Delivery, host: Host, desired: Desired, services: seq<Service>)
    requires Migratable(desired, services)
    ensures Run(d, host, MigrateSteps(desired, services)) ==
            host.(schemas := Migrated(desired, host.schemas, services))
  {
    if services != [] {
      RunMigrations(d, host, desired, services[..|services| - 1]);
    }
  }
}
