// Storage reconciliation: pkg/storage/storage.go. List reads the cluster, Push creates and deletes
// claims so that the cluster follows the config and reports what to mount and unmount.

module StorageSync {
  import opened Cluster
  import opened Lists
  import opened Names
  import opened Objects
  import opened Results

  datatype Storage = Storage(name: string, size: string, path: string)

  // ------------------------------------------------------------ List

  function IsVolumeAnEmptyDir(volumes: seq<Volume>, name: string): bool {
    exists v :: v in volumes && v.name == name && v.source.EmptyDir?
  }

  /** GetPVCNameFromVolumeMountName: "" when no claim is found. */
  function PVCNameFromVolumeMountName(volumes: seq<Volume>, name: string): string {
    if volumes == [] then ""
    else if volumes[0].name == name && volumes[0].source.Claim? then volumes[0].source.pvc
    else PVCNameFromVolumeMountName(volumes[1..], name)
  }

  /** getStorageFromPVC. */
  function StorageOfPvc(p: PVC): string {
    if StorageName in p.labels then p.labels[StorageName] else ""
  }

  function ClaimMap(pvcs: seq<PVC>): map<string, PVC> {
    if pvcs == [] then map[] else ClaimMap(pvcs[..|pvcs| - 1])[pvcs[|pvcs| - 1].name := pvcs[|pvcs| - 1]]
  }

  /** The loop over the volume mounts: storage name to mount path. */
  function MountedPaths(mounts: seq<Mount>, volumes: seq<Volume>, claims: map<string, PVC>, dcName: string,
                        acc: map<string, string>): Result<map<string, string>>
    decreases mounts
  {
    if mounts == [] then Ok(acc)
    else
      var m := mounts[0];
      if IsVolumeAnEmptyDir(volumes, m.name) then MountedPaths(mounts[1..], volumes, claims, dcName, acc)
      else
        var claim := PVCNameFromVolumeMountName(volumes, m.name);
        if claim == "" then Err(Refused("no PVC associated with Volume Mount"))
        else if claim !in claims then
          if m.name == AppRootVolumeName(dcName) then MountedPaths(mounts[1..], volumes, claims, dcName, acc)
          else Err(Refused("unable to get PVC"))
        else MountedPaths(mounts[1..], volumes, claims, dcName, acc[StorageOfPvc(claims[claim]) := m.path])
  }

  /** A claim that List does not report for the component. */
  function Foreign(component: string, application: string): PVC -> bool {
    (p: PVC) =>
      !((ComponentName !in p.labels || p.labels[ComponentName] == component) &&
        ApplicationName in p.labels && p.labels[ApplicationName] == application)
  }

  function ToStorage(paths: map<string, string>): PVC -> Storage {
    (p: PVC) => Storage(StorageOfPvc(p), p.size, if StorageOfPvc(p) in paths then paths[StorageOfPvc(p)] else "")
  }

  function MountsOf(containers: seq<Container>): seq<Mount> {
    if containers == [] then [] else containers[0].mounts + MountsOf(containers[1..])
  }

  const ANY_STORAGE: Labels := map[StorageName := ""]

  ghost function ListStorage(st: ClusterState, component: string, application: string): Result<seq<Storage>> {
    var dc :- OneDC(st.dcs, ComponentLabels(component, application, false));
    var pvcs := SelectPvcs(st.pvcs, ANY_STORAGE);
    var paths :- MountedPaths(MountsOf(dc.containers), dc.volumes, ClaimMap(pvcs), dc.meta.name, map[]);
    Ok(Map(ToStorage(paths), Without(pvcs, Foreign(component, application))))
  }

  function WithoutPath(): Storage -> bool {
    (s: Storage) => s.path == ""
  }

  /** ListMounted. */
  ghost function MountedStorage(st: ClusterState, component: string, application: string): Result<seq<Storage>> {
    var items :- ListStorage(st, component, application);
    Ok(Without(items, WithoutPath()))
  }

  // ------------------------------------------------------------ Push

  /** storage.Delete: exactly one claim must carry the storage's label. */
  function DeleteStorage(pvcs: seq<PVC>, name: string): Result<seq<PVC>> {
    var found := SelectPvcs(pvcs, map[StorageName := name]);
    if |found| != 1 then Err(Refused("expected exactly one PVC attached to storage"))
    else PvcsAfterDelete(pvcs, found[0].name)
  }

  /** storage.Create. */
  function CreateStorage(pvcs: seq<PVC>, s: Storage, component: string, application: string,
                         canon: Canon): Result<PVC> {
    var namespaced :- NamespaceOpenShiftObject(s.name, application);
    PvcToCreate(pvcs, PVCNameFromStorageName(namespaced), s.size, StorageLabels(s.name, component, application), canon)
  }

  function ByName(items: seq<Storage>): map<string, Storage> {
    if items == [] then map[] else ByName(items[..|items| - 1])[items[|items| - 1].name := items[|items| - 1]]
  }

  datatype Deleted = Deleted(pvcs: seq<PVC>, unmount: map<string, string>)

  /** First loop of Push: storages of the cluster that the config no longer has. */
  function DeletePhase(pvcs: seq<PVC>, items: seq<Storage>, config: map<string, Storage>,
                       unmount: map<string, string>): Result<Deleted>
    decreases items
  {
    if items == [] then Ok(Deleted(pvcs, unmount))
    else
      var s := items[0];
      if s.name !in config then
        var left :- DeleteStorage(pvcs, s.name);
        DeletePhase(left, items[1..], config, unmount[s.path := s.name])
      else if config[s.name].size != s.size || config[s.name].path != s.path then
        Err(Refused("config mismatch for storage with the same name"))
      else DeletePhase(pvcs, items[1..], config, unmount)
  }

  datatype Created = Created(pvcs: seq<PVC>, mount: map<string, PVC>)

  /** Second loop of Push: storages of the config that the cluster does not have mounted. */
  function CreatePhase(pvcs: seq<PVC>, items: seq<Storage>, known: set<string>, component: string,
                       application: string, canon: Canon, mount: map<string, PVC>): Result<Created>
    decreases items
  {
    if items == [] then Ok(Created(pvcs, mount))
    else
      var s := items[0];
      if s.name in known then CreatePhase(pvcs, items[1..], known, component, application, canon, mount)
      else
        var pvc :- CreateStorage(pvcs, s, component, application, canon);
        CreatePhase(pvcs + [pvc], items[1..], known, component, application, canon, mount[s.path := pvc])
  }

  datatype Pushed = Pushed(pvcs: seq<PVC>, mount: map<string, PVC>, unmount: map<string, string>)

  ghost function PushStorage(st: ClusterState, items: seq<Storage>, component: string, application: string,
                             componentExists: bool, canon: Canon): Result<Pushed>
  {
    var mounted :- if componentExists then MountedStorage(st, component, application) else Ok([]);
    var deleted :- DeletePhase(st.pvcs, mounted, ByName(items), map[]);
    var created :- CreatePhase(deleted.pvcs, items, ByName(mounted).Keys, component, application, canon, map[]);
    Ok(Pushed(created.pvcs, created.mount, deleted.unmount))
  }

  // ------------------------------------------------------------ the operations

  method ReadMountedPaths(mounts: seq<Mount>, volumes: seq<Volume>, claims: map<string, PVC>, dcName: string)
    returns (r: Result<map<string, string>>)
    ensures r == MountedPaths(mounts, volumes, claims, dcName, map[])
  {
    var acc: map<string, string> := map[];
    for i := 0 to |mounts|
      invariant MountedPaths(mounts, volumes, claims, dcName, map[])
           == MountedPaths(mounts[i..], volumes, claims, dcName, acc)
    {
      assert mounts[i..][1..] == mounts[i + 1..];
      var m := mounts[i];
      if !IsVolumeAnEmptyDir(volumes, m.name) {
        var claim := PVCNameFromVolumeMountName(volumes, m.name);
        if claim == "" {
          return Err(Refused("no PVC associated with Volume Mount"));
        }
        if claim in claims {
          acc := acc[StorageOfPvc(claims[claim]) := m.path];
        } else if m.name != AppRootVolumeName(dcName) {
          return Err(Refused("unable to get PVC"));
        }
      }
    }
    r := Ok(acc);
  }

  method IndexClaims(pvcs: seq<PVC>) returns (claims: map<string, PVC>)
    ensures claims == ClaimMap(pvcs)
  {
    claims := map[];
    for i := 0 to |pvcs|
      invariant claims == ClaimMap(pvcs[..i])
    {
      claims := claims[pvcs[i].name := pvcs[i]];
      assert pvcs[..i + 1][..i] == pvcs[..i];
    }
    assert pvcs[..|pvcs|] == pvcs;
  }

  method CollectStorage(pvcs: seq<PVC>, paths: map<string, string>, component: string, application: string)
    returns (items: seq<Storage>)
    ensures items == Map(ToStorage(paths), Without(pvcs, Foreign(component, application)))
  {
    items := [];
    for i := 0 to |pvcs|
      invariant items == Map(ToStorage(paths), Without(pvcs[..i], Foreign(component, application)))
    {
      assert pvcs[..i + 1] == pvcs[..i] + [pvcs[i]];
      WithoutConcat(pvcs[..i], [pvcs[i]], Foreign(component, application));
      MapConcat(ToStorage(paths), Without(pvcs[..i], Foreign(component, application)), [pvcs[i]]);
      if !Foreign(component, application)(pvcs[i]) {
        items := items + [ToStorage(paths)(pvcs[i])];
        assert Map(ToStorage(paths), [pvcs[i]]) == [ToStorage(paths)(pvcs[i])];
      }
    }
    assert pvcs[..|pvcs|] == pvcs;
  }

  method List(client: Client, component: string, application: string) returns (r: Result<seq<Storage>>)
    ensures r == ListStorage(client.State(), component, application)
  {
    var dc :- client.GetOneDeploymentConfigFromSelector(ComponentLabels(component, application, false));
    var pvcs := SelectPvcs(client.pvcs, ANY_STORAGE);
    var claims := IndexClaims(pvcs);
    var paths :- ReadMountedPaths(MountsOf(dc.containers), dc.volumes, claims, dc.meta.name);
    var items := CollectStorage(pvcs, paths, component, application);
    r := Ok(items);
  }

  method ListMounted(client: Client, component: string, application: string) returns (r: Result<seq<Storage>>)
    ensures r == MountedStorage(client.State(), component, application)
  {
    var items :- List(client, component, application);
    var mounted := KeepMounted(items);
    r := Ok(mounted);
  }

  method KeepMounted(items: seq<Storage>) returns (mounted: seq<Storage>)
    ensures mounted == Without(items, WithoutPath())
  {
    mounted := [];
    for i := 0 to |items|
      invariant mounted == Without(items[..i], WithoutPath())
    {
      assert items[..i + 1] == items[..i] + [items[i]];
      WithoutConcat(items[..i], [items[i]], WithoutPath());
      if items[i].path != "" {
        mounted := mounted + [items[i]];
      }
    }
    assert items[..|items|] == items;
  }

  method Delete(client: Client, name: string) returns (r: Result<()>)
    modifies client`pvcs
    ensures match DeleteStorage(old(client.pvcs), name)
            case Ok(left) => r.Ok? && client.pvcs == left
            case Err(f) => r == Err(f) && client.pvcs == old(client.pvcs)
  {
    var found := SelectPvcs(client.pvcs, map[StorageName := name]);
    if |found| != 1 {
      return Err(Refused("expected exactly one PVC attached to storage"));
    }
    r := client.DeletePVC(found[0].name);
  }

  method Create(client: Client, s: Storage, component: string, application: string) returns (r: Result<PVC>)
    modifies client`pvcs
    ensures r == CreateStorage(old(client.pvcs), s, component, application, client.canon)
    ensures client.pvcs == if r.Ok? then old(client.pvcs) + [r.value] else old(client.pvcs)
  {
    var namespaced := NamespaceOpenShiftObject(s.name, application);
    if namespaced.Err? {
      return Err(namespaced.failure);
    }
    r := client.CreatePVC(PVCNameFromStorageName(namespaced.value), s.size,
                          StorageLabels(s.name, component, application));
  }

  method DeleteGone(client: Client, mounted: seq<Storage>, config: map<string, Storage>)
    returns (r: Result<map<string, string>>)
    modifies client`pvcs
    ensures match DeletePhase(old(client.pvcs), mounted, config, map[])
            case Ok(done) => r == Ok(done.unmount) && client.pvcs == done.pvcs
            case Err(f) => r == Err(f)
  {
    var unmount: map<string, string> := map[];
    for i := 0 to |mounted|
      invariant DeletePhase(old(client.pvcs), mounted, config, map[])
           == DeletePhase(client.pvcs, mounted[i..], config, unmount)
    {
      assert mounted[i..][1..] == mounted[i + 1..];
      var s := mounted[i];
      if s.name !in config {
        var _ :- Delete(client, s.name);
        unmount := unmount[s.path := s.name];
      } else if config[s.name].size != s.size || config[s.name].path != s.path {
        return Err(Refused("config mismatch for storage with the same name"));
      }
    }
    r := Ok(unmount);
  }

  method CreateNew(client: Client, items: seq<Storage>, known: set<string>, component: string, application: string)
    returns (r: Result<map<string, PVC>>)
    modifies client`pvcs
    ensures match CreatePhase(old(client.pvcs), items, known, component, application, client.canon, map[])
            case Ok(done) => r == Ok(done.mount) && client.pvcs == done.pvcs
            case Err(f) => r == Err(f)
  {
    var mount: map<string, PVC> := map[];
    for i := 0 to |items|
      invariant CreatePhase(old(client.pvcs), items, known, component, application, client.canon, map[])
             == CreatePhase(client.pvcs, items[i..], known, component, application, client.canon, mount)
    {
      assert items[i..][1..] == items[i + 1..];
      var s := items[i];
      if s.name !in known {
        var pvc :- Create(client, s, component, application);
        mount := mount[s.path := pvc];
      }
    }
    r := Ok(mount);
  }

  method IndexByName(items: seq<Storage>) returns (m: map<string, Storage>)
    ensures m == ByName(items)
  {
    m := map[];
    for i := 0 to |items|
      invariant m == ByName(items[..i])
    {
      m := m[items[i].name := items[i]];
      assert items[..i + 1][..i] == items[..i];
    }
    assert items[..|items|] == items;
  }

  method Push(client: Client, items: seq<Storage>, component: string, application: string, isComponentExists: bool)
    returns (r: Result<(map<string, PVC>, map<string, string>)>)
    modifies client`pvcs
    ensures match PushStorage(old(client.State()), items, component, application, isComponentExists, client.canon)
            case Ok(p) => r == Ok((p.mount, p.unmount)) && client.pvcs == p.pvcs
            case Err(f) => r == Err(f)
  {
    var mounted: seq<Storage> := [];
    if isComponentExists {
      mounted :- ListMounted(client, component, application);
    }
    var clusterNames := IndexByName(mounted);
    var configNames := IndexByName(items);
    var unmount :- DeleteGone(client, mounted, configNames);
    var mount :- CreateNew(client, items, clusterNames.Keys, component, application);
    r := Ok((mount, unmount));
  }
}
