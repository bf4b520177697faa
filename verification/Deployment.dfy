// In-place edits of a DeploymentConfig: pkg/occlient/templates.go, pkg/occlient/volumes.go and the
// editing part of pkg/occlient/occlient.go. Each edit is a function on values; the class performs
// the same edit step by step on the fields of an object and is proved against the function.

module Deployment {
  import opened EnvVars
  import opened GoSlice
  import opened Lists
  import opened Names
  import opened Objects
  import opened Ports
  import opened Results

  const COPY_FILES := "copy-files-to-volume"
  const COPY_SUPERVISORD := "copy-supervisord"
  const APP_ROOT_PATH := "/opt/app-root"
  const SUPERVISORD_PATH := "/var/lib/supervisord"

  const SUPERVISORD_MOUNT := Mount(SUPERVISORD_VOLUME, SUPERVISORD_PATH, "")

  function AppRootMount(dcName: string): Mount {
    Mount(AppRootVolumeName(dcName), APP_ROOT_PATH, "app-root")
  }

  function AppRootVolume(dcName: string): Volume {
    Volume(AppRootVolumeName(dcName), Claim(AppRootVolumeName(dcName)))
  }

  function CopyFilesContainer(dcName: string): Container {
    Container(COPY_FILES, NO_SPEC, [], [], [Mount(AppRootVolumeName(dcName), "/mnt", "")])
  }

  const COPY_SUPERVISORD_CONTAINER := Container(COPY_SUPERVISORD, NO_SPEC, [], [], [SUPERVISORD_MOUNT])

  function NamedVolume(name: string): Volume -> bool {
    (v: Volume) => v.name == name
  }

  function NamedMount(name: string): Mount -> bool {
    (m: Mount) => m.name == name
  }

  function NamedContainer(name: string): Container -> bool {
    (c: Container) => c.name == name
  }

  function MountedAt(paths: map<string, string>): Mount -> bool {
    (m: Mount) => m.path in paths
  }

  // ------------------------------------------------------------ generators (templates.go)

  /** generateGitDeploymentConfig. */
  function GitDeployment(meta: Meta, spec: ContainerSpec, env: seq<EnvVar>): DC {
    DC(meta, [Container(meta.name, spec, env, [], [])], [], [])
  }

  /** generateSupervisordDeploymentConfig. */
  function SupervisordDeployment(meta: Meta, spec: ContainerSpec, env: seq<EnvVar>,
                                 envFrom: seq<EnvFromSource>): DC {
    DC(meta, [Container(meta.name, spec, env, envFrom, [SUPERVISORD_MOUNT])], [],
       [Volume(SUPERVISORD_VOLUME, EmptyDir)])
  }

  function WithMount(c: Container, m: Mount): Container {
    c.(mounts := c.mounts + [m])
  }

  function MountInEach(containers: seq<Container>, m: Mount): (r: seq<Container>)
    ensures |r| == |containers|
  {
    if containers == [] then [] else [WithMount(containers[0], m)] + MountInEach(containers[1..], m)
  }

  /** The four addBootstrap* calls that follow generateSupervisordDeploymentConfig. */
  function Bootstrapped(dc: DC, dcName: string): DC {
    dc.(initContainers := dc.initContainers + [CopyFilesContainer(dcName)] + [COPY_SUPERVISORD_CONTAINER],
        volumes := dc.volumes + [AppRootVolume(dcName)],
        containers := MountInEach(dc.containers, AppRootMount(dcName)))
  }

  /** updateSupervisorDeploymentConfig. */
  function UpdatedSupervisor(existing: DC, meta: Meta, spec: ContainerSpec, env: seq<EnvVar>,
                             envFrom: seq<EnvFromSource>): DC {
    if existing.containers == [] then existing.(meta := meta)
    else existing.(meta := meta, containers := existing.containers[0 :=
      existing.containers[0].(name := meta.name, spec := spec, env := env, envFrom := envFrom)])
  }

  // ------------------------------------------------------------ copying (occlient.go)

  function MountNames(mounts: seq<Mount>): set<string> {
    set m | m in mounts :: m.name
  }

  function VolumeNames(volumes: seq<Volume>): set<string> {
    set v | v in volumes :: v.name
  }

  /** A mount that copying skips: supervisord's, or one whose volume name is already mounted. */
  function SkippedMount(present: set<string>): Mount -> bool {
    (m: Mount) => m.name == SUPERVISORD_VOLUME || m.name in present
  }

  function SkippedVolume(present: set<string>): Volume -> bool {
    (v: Volume) => v.name == SUPERVISORD_VOLUME || v.name in present
  }

  function CopyMounts(containers: seq<Container>, source: Container): (r: seq<Container>)
    ensures |r| == |containers|
  {
    if containers == [] then []
    else
      var c := containers[0];
      if c.name == source.name then
        [c.(mounts := c.mounts + Without(source.mounts, SkippedMount(MountNames(c.mounts))))] + containers[1..]
      else [c] + CopyMounts(containers[1..], source)
  }

  /** Only the first container of the source's name changes. */
  lemma {:induction false} CopyMountsAt(containers: seq<Container>, index: nat, source: Container)
    requires index <= |containers|
    requires forall k :: 0 <= k < index ==> containers[k].name != source.name
    requires index < |containers| ==> containers[index].name == source.name
    ensures CopyMounts(containers, source) ==
            if index == |containers| then containers
            else var c := containers[index];
                 containers[index := c.(mounts :=
                   c.mounts + Without(source.mounts, SkippedMount(MountNames(c.mounts))))]
  {
    if index > 0 {
      CopyMountsAt(containers[1..], index - 1, source);
      assert containers == [containers[0]] + containers[1..];
    }
  }

  /** copyVolumesAndVolumeMounts. */
  function WithCopies(dc: DC, current: DC, source: Container): DC {
    dc.(containers := CopyMounts(dc.containers, source),
        volumes := dc.volumes + Without(current.volumes, SkippedVolume(VolumeNames(dc.volumes))))
  }

  // ------------------------------------------------------------ removal

  /** The volumes after removeVolumeFromDC, and whether one was found. */
  function WithoutVolume(volumes: seq<Volume>, name: string): Result<(seq<Volume>, bool)> {
    match RangeRemove(volumes, NamedVolume(name))
    case Kept(items) => Ok((items, name in VolumeNames(volumes)))
    case Panic => Err(Failure.Panic)
  }

  /** The containers after removeVolumeMountFromDC, and whether one was found. */
  function WithoutVolumeMount(containers: seq<Container>, name: string): Result<(seq<Container>, bool)> {
    if containers == [] then Ok(([], false))
    else match RangeRemove(containers[0].mounts, NamedMount(name))
         case Panic => Err(Failure.Panic)
         case Kept(items) =>
           var rest :- WithoutVolumeMount(containers[1..], name);
           Ok(([containers[0].(mounts := items)] + rest.0,
               name in MountNames(containers[0].mounts) || rest.1))
  }

  /** The containers done so far, followed by what becomes of the rest. */
  function Onto(done: seq<Container>, found: bool,
                rest: Result<(seq<Container>, bool)>): Result<(seq<Container>, bool)> {
    match rest case Ok((left, more)) => Ok((done + left, found || more)) case Err(f) => Err(f)
  }

  lemma OntoNothing(rest: Result<(seq<Container>, bool)>)
    ensures Onto([], false, rest) == rest
  {
    if rest.Ok? {
      assert [] + rest.value.0 == rest.value.0;
    }
  }

  lemma OntoStep(done: seq<Container>, found: bool, containers: seq<Container>, name: string, items: seq<Mount>)
    requires containers != [] && RangeRemove(containers[0].mounts, NamedMount(name)) == Kept(items)
    ensures var c := containers[0];
            Onto(done, found, WithoutVolumeMount(containers, name))
            == Onto(done + [c.(mounts := items)], found || name in MountNames(c.mounts),
                    WithoutVolumeMount(containers[1..], name))
  {
    var rest := WithoutVolumeMount(containers[1..], name);
    if rest.Ok? {
      var c := containers[0].(mounts := items);
      assert done + ([c] + rest.value.0) == (done + [c]) + rest.value.0;
    }
  }

  const VOLUME_NOT_FOUND := Refused("unable to find volume in dc")
  const VOLUME_MOUNT_NOT_FOUND := Refused("unable to find volume mount in dc")

  /** removeTracesOfSupervisordFromDC. */
  function WithoutSupervisord(dc: DC): Result<DC> {
    var appRoot := AppRootVolumeName(dc.meta.name);
    var volumes :- WithoutVolume(dc.volumes, appRoot);
    if !volumes.1 then Err(VOLUME_NOT_FOUND)
    else
      var containers :- WithoutVolumeMount(dc.containers, appRoot);
      if !containers.1 then Err(VOLUME_MOUNT_NOT_FOUND)
      else match RangeRemove(dc.initContainers, NamedContainer(COPY_FILES))
           case Panic => Err(Failure.Panic)
           case Kept(inits) => Ok(dc.(volumes := volumes.0, containers := containers.0, initContainers := inits))
  }

  // ------------------------------------------------------------ mounting and unmounting (volumes.go)

  datatype Unmounted = Unmounted(mounts: seq<Mount>, volumes: seq<Volume>)

  /** The unmount loop of addOrRemoveVolumeAndVolumeMount from index `i`: `backing` is the array
      behind the mounts, `len` their current length, and each removed mount removes its volumes. */
  function UnmountFrom(backing: seq<Mount>, len: nat, i: nat, volumes: seq<Volume>,
                       paths: map<string, string>): Result<Unmounted>
    requires len <= |backing| && i <= |backing|
    decreases |backing| - i
  {
    if i == |backing| then Ok(Unmounted(backing[..len], volumes))
    else if backing[i].path !in paths then UnmountFrom(backing, len, i + 1, volumes, paths)
    else if i >= len then Err(Failure.Panic)
    else match RangeRemove(volumes, NamedVolume(backing[i].name))
         case Panic => Err(Failure.Panic)
         case Kept(left) => UnmountFrom(Shift(backing, len, i), len - 1, i + 1, left, paths)
  }

  const NO_CONTAINERS := Refused("DeploymentConfig doesn't have any Containers defined")
  const ONE_CONTAINER := Refused("more than one container found in dc")

  /** AddPVCToDeploymentConfig. */
  function AddPVC(dc: DC, request: MountRequest): Result<DC> {
    var volume := VolumeNameFromPVC(request.pvc.name, request.random);
    if dc.containers == [] then Err(NO_CONTAINERS)
    else Ok(dc.(volumes := dc.volumes + [Volume(volume, Claim(request.pvc.name))],
                containers := dc.containers[0 := WithMount(dc.containers[0], Mount(volume, request.path, ""))]))
  }

  function AddPVCs(dc: DC, requests: seq<MountRequest>): Result<DC>
    decreases requests
  {
    if requests == [] then Ok(dc)
    else
      var next :- AddPVC(dc, requests[0]);
      AddPVCs(next, requests[1..])
  }

  /** addOrRemoveVolumeAndVolumeMount. `requests` lists the map of storages to mount in the order in
      which Go ranges over it; `paths` is the map of paths to unmount. */
  function AddOrRemove(dc: DC, requests: seq<MountRequest>, paths: map<string, string>): Result<DC> {
    if |dc.containers| != 1 then Err(ONE_CONTAINER)
    else
      var c := dc.containers[0];
      var left :- UnmountFrom(c.mounts, |c.mounts|, 0, dc.volumes, paths);
      AddPVCs(dc.(containers := [c.(mounts := left.mounts)], volumes := left.volumes), requests)
  }

  // ------------------------------------------------------------ the object

  /** A DeploymentConfig under edit. */
  class DeploymentConfig {
    var meta: Meta
    var containers: seq<Container>
    var initContainers: seq<Container>
    var volumes: seq<Volume>

    function Value(): DC
      reads this
    {
      DC(meta, containers, initContainers, volumes)
    }

    constructor (dc: DC)
      ensures Value() == dc
    {
      meta, containers, initContainers, volumes := dc.meta, dc.containers, dc.initContainers, dc.volumes;
    }

    method AddBootstrap(dcName: string)
      modifies this
      ensures Value() == Bootstrapped(old(Value()), dcName)
    {
      initContainers := initContainers + [CopyFilesContainer(dcName)];
      initContainers := initContainers + [COPY_SUPERVISORD_CONTAINER];
      volumes := volumes + [AppRootVolume(dcName)];
      ghost var all := containers;
      for i := 0 to |containers|
        invariant |containers| == |all|
        invariant containers[..i] + MountInEach(all[i..], AppRootMount(dcName))
             == MountInEach(all, AppRootMount(dcName))
        invariant containers[i..] == all[i..]
        invariant meta == old(meta) && volumes == old(volumes) + [AppRootVolume(dcName)]
        invariant initContainers == old(initContainers) + [CopyFilesContainer(dcName)] + [COPY_SUPERVISORD_CONTAINER]
      {
        assert all[i..][1..] == all[i + 1..] && all[i..][0] == containers[i..][0];
        ghost var before := containers;
        containers := containers[i := WithMount(containers[i], AppRootMount(dcName))];
        assert containers[..i + 1] == before[..i] + [containers[i]];
      }
    }

    /** The container found by name gets the mounts it lacks; then the volumes it lacks. */
    method CopyVolumesAndVolumeMounts(current: DC, source: Container)
      modifies this
      ensures Value() == WithCopies(old(Value()), current, source)
    {
      CopyMountsInto(source);
      var present := VolumeNames(volumes);
      var i := 0;
      while i < |current.volumes|
        invariant i <= |current.volumes|
        invariant volumes == old(volumes) + Without(current.volumes[..i], SkippedVolume(present))
        invariant containers == CopyMounts(old(containers), source)
        invariant meta == old(meta) && initContainers == old(initContainers)
      {
        var v := current.volumes[i];
        assert current.volumes[..i + 1] == current.volumes[..i] + [v];
        WithoutConcat(current.volumes[..i], [v], SkippedVolume(present));
        if v.name != SUPERVISORD_VOLUME && v.name !in present {
          volumes := volumes + [v];
        }
        i := i + 1;
      }
      assert current.volumes[..i] == current.volumes;
    }

    method CopyMountsInto(source: Container)
      modifies this`containers
      ensures containers == CopyMounts(old(containers), source)
    {
      var all := containers;
      var index := 0;
      while index < |all| && all[index].name != source.name
        invariant index <= |all|
        invariant forall k :: 0 <= k < index ==> all[k].name != source.name
      {
        index := index + 1;
      }
      CopyMountsAt(all, index, source);
      if index == |all| {
        return;
      }
      var mounts := MissingMounts(all[index].mounts, source.mounts);
      containers := all[index := all[index].(mounts := all[index].mounts + mounts)];
    }

    /** The mounts of `from` that are not supervisord's and whose volume `present` does not mount. */
    static method MissingMounts(present: seq<Mount>, from: seq<Mount>) returns (mounts: seq<Mount>)
      ensures mounts == Without(from, SkippedMount(MountNames(present)))
    {
      var names := MountNames(present);
      mounts := [];
      for i := 0 to |from|
        invariant mounts == Without(from[..i], SkippedMount(names))
      {
        var m := from[i];
        assert from[..i + 1] == from[..i] + [m];
        WithoutConcat(from[..i], [m], SkippedMount(names));
        if m.name != SUPERVISORD_VOLUME && m.name !in names {
          mounts := mounts + [m];
        }
      }
      assert from[..|from|] == from;
    }

    method RemoveVolume(name: string) returns (r: Result<bool>)
      modifies this`volumes
      ensures match WithoutVolume(old(volumes), name)
              case Ok((left, found)) => r == Ok(found) && volumes == left
              case Err(f) => r == Err(f)
    {
      var found := false;
      for i := 0 to |volumes|
        invariant found <==> name in VolumeNames(volumes[..i])
      {
        assert volumes[..i + 1] == volumes[..i] + [volumes[i]];
        found := found || volumes[i].name == name;
      }
      assert volumes[..|volumes|] == volumes;
      var kept := RemoveFromSlice(volumes, NamedVolume(name));
      if kept.Panic? {
        return Err(Failure.Panic);
      }
      volumes := kept.items;
      r := Ok(found);
    }

    method RemoveVolumeMount(name: string) returns (r: Result<bool>)
      modifies this`containers
      ensures match WithoutVolumeMount(old(containers), name)
              case Ok((left, found)) => r == Ok(found) && containers == left
              case Err(f) => r == Err(f)
    {
      var found := false;
      ghost var all := containers;
      OntoNothing(WithoutVolumeMount(all, name));
      var i := 0;
      while i < |containers|
        invariant i <= |containers| == |all| && containers[i..] == all[i..]
        invariant WithoutVolumeMount(all, name) == Onto(containers[..i], found, WithoutVolumeMount(all[i..], name))
      {
        assert all[i..][1..] == all[i + 1..] && all[i..][0] == containers[i];
        var kept := RemoveFromSlice(containers[i].mounts, NamedMount(name));
        if kept.Panic? {
          return Err(Failure.Panic);
        }
        OntoStep(containers[..i], found, all[i..], name, kept.items);
        found := found || name in MountNames(containers[i].mounts);
        ghost var before := containers;
        containers := containers[i := containers[i].(mounts := kept.items)];
        assert containers[..i + 1] == before[..i] + [containers[i]];
        i := i + 1;
      }
      assert containers[..i] == containers && all[i..] == [] && containers + [] == containers;
      r := Ok(found);
    }

    method RemoveTracesOfSupervisord() returns (r: Result<()>)
      modifies this
      ensures match WithoutSupervisord(old(Value()))
              case Ok(dc) => r.Ok? && Value() == dc
              case Err(f) => r == Err(f)
    {
      var appRoot := AppRootVolumeName(meta.name);
      var found :- RemoveVolume(appRoot);
      if !found {
        return Err(VOLUME_NOT_FOUND);
      }
      found :- RemoveVolumeMount(appRoot);
      if !found {
        return Err(VOLUME_MOUNT_NOT_FOUND);
      }
      var kept := RemoveFromSlice(initContainers, NamedContainer(COPY_FILES));
      if kept.Panic? {
        return Err(Failure.Panic);
      }
      initContainers := kept.items;
      r := Ok(());
    }

    method AddPVCToDeploymentConfig(request: MountRequest) returns (r: Result<()>)
      modifies this
      ensures match AddPVC(old(Value()), request)
              case Ok(dc) => r.Ok? && Value() == dc
              case Err(f) => r == Err(f)
    {
      var volume := VolumeNameFromPVC(request.pvc.name, request.random);
      volumes := volumes + [Volume(volume, Claim(request.pvc.name))];
      if |containers| == 0 {
        return Err(NO_CONTAINERS);
      }
      containers := containers[0 := WithMount(containers[0], Mount(volume, request.path, ""))];
      r := Ok(());
    }

    method Unmount(paths: map<string, string>) returns (r: Result<()>)
      requires |containers| == 1
      modifies this`containers, this`volumes
      ensures match UnmountFrom(old(containers)[0].mounts, |old(containers)[0].mounts|, 0, old(volumes), paths)
              case Ok(left) => r.Ok? && containers == [old(containers)[0].(mounts := left.mounts)] &&
              volumes == left.volumes
              case Err(f) => r == Err(f)
    {
      var c := containers[0];
      var a := new Mount[|c.mounts|](i requires 0 <= i < |c.mounts| => c.mounts[i]);
      assert a[..] == c.mounts && a[..a.Length] == c.mounts;
      var len, i := a.Length, 0;
      while i < a.Length
        invariant 0 <= i <= a.Length && 0 <= len <= a.Length
        invariant containers == [c.(mounts := a[..len])]
        invariant UnmountFrom(c.mounts, |c.mounts|, 0, old(volumes), paths)
             == UnmountFrom(a[..], len, i, volumes, paths)
      {
        var volumeMount := a[i];
        assert a[..][i] == volumeMount;
        if volumeMount.path in paths {
          if i >= len {
            return Err(Failure.Panic);
          }
          ShiftLeft(a, len, i);
          len := len - 1;
          containers := [c.(mounts := a[..len])];
          var kept := RemoveFromSlice(volumes, NamedVolume(volumeMount.name));
          if kept.Panic? {
            return Err(Failure.Panic);
          }
          volumes := kept.items;
        }
        i := i + 1;
      }
      assert a[..][..len] == a[..len];
      r := Ok(());
    }

    method AddOrRemoveVolumeAndVolumeMount(requests: seq<MountRequest>, paths: map<string, string>)
      returns (r: Result<()>)
      modifies this
      ensures match AddOrRemove(old(Value()), requests, paths)
              case Ok(dc) => r.Ok? && Value() == dc
              case Err(f) => r == Err(f)
    {
      if |containers| == 0 || |containers| > 1 {
        return Err(ONE_CONTAINER);
      }
      var _ :- Unmount(paths);
      ghost var unmounted := Value();
      for i := 0 to |requests|
        invariant AddPVCs(unmounted, requests) == AddPVCs(Value(), requests[i..])
      {
        assert requests[i..][1..] == requests[i + 1..];
        var _ :- AddPVCToDeploymentConfig(requests[i]);
      }
      r := Ok(());
    }
  }
}
