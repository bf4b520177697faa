// The normal form of every DeploymentConfig odo produces: a fixed bootstrap part, then one volume
// and one mount per attached storage, in the same order. Each edit of the Deployment module is shown
// to act on the list of attachments alone.

module Shapes {
  import opened Deployment
  import opened EnvVars
  import opened GoSlice
  import opened Lists
  import opened Names
  import opened Objects
  import opened Ports
  import opened Results

  /** An attached storage is a mount request that has been carried out. */
  type Attachment = MountRequest

  function VolumeNameOf(u: Attachment): string {
    VolumeNameFromPVC(u.pvc.name, u.random)
  }

  function AttachedVolume(u: Attachment): Volume {
    Volume(VolumeNameOf(u), Claim(u.pvc.name))
  }

  function AttachedMount(u: Attachment): Mount {
    Mount(VolumeNameOf(u), u.path, "")
  }

  function ClaimOf(u: Attachment): string {
    u.pvc.name
  }

  function PathOf(u: Attachment): string {
    u.path
  }

  function AttachedAt(paths: map<string, string>): Attachment -> bool {
    (u: Attachment) => u.path in paths
  }

  function BaseMounts(supervised: bool, dcName: string): seq<Mount> {
    if supervised then [SUPERVISORD_MOUNT, AppRootMount(dcName)] else []
  }

  function BaseVolumes(supervised: bool, dcName: string): seq<Volume> {
    if supervised then [Volume(SUPERVISORD_VOLUME, EmptyDir), AppRootVolume(dcName)] else []
  }

  function BaseInits(supervised: bool, dcName: string): seq<Container> {
    if supervised then [CopyFilesContainer(dcName), COPY_SUPERVISORD_CONTAINER] else []
  }

  /** `dc` with its mounts and volumes replaced by the normal form. */
  function WithUsers(dc: DC, supervised: bool, users: seq<Attachment>): DC
    requires |dc.containers| == 1
  {
    dc.(containers := [dc.containers[0].(mounts :=
          BaseMounts(supervised, dc.meta.name) + Map(AttachedMount, users))],
        volumes := BaseVolumes(supervised, dc.meta.name) + Map(AttachedVolume, users))
  }

  ghost predicate Shaped(dc: DC, supervised: bool, users: seq<Attachment>) {
    && |dc.containers| == 1
    && dc.containers[0].name == dc.meta.name
    && dc.initContainers == BaseInits(supervised, dc.meta.name)
    && dc == WithUsers(dc, supervised, users)
  }

  const BASE_PATHS: set<string> := {SUPERVISORD_PATH, APP_ROOT_PATH}

  /** Storages attached by distinct claims at distinct paths outside odo's own. */
  ghost predicate GoodUsers(users: seq<Attachment>) {
    && Distinct(Map(ClaimOf, users))
    && Distinct(Map(PathOf, users))
    && forall u :: u in users ==> |u.random| == RANDOM_LENGTH && u.path !in BASE_PATHS && u.path != ""
  }

  /** Distinct claims already give distinct volume names. */
  lemma VolumeNamesDistinct(users: seq<Attachment>)
    requires Distinct(Map(ClaimOf, users)) && forall u :: u in users ==> |u.random| == RANDOM_LENGTH
    ensures Distinct(Map(VolumeNameOf, users))
  {
    forall i, j | 0 <= i < j < |users| ensures VolumeNameOf(users[i]) != VolumeNameOf(users[j]) {
      assert Map(ClaimOf, users)[i] != Map(ClaimOf, users)[j];
      if VolumeNameOf(users[i]) == VolumeNameOf(users[j]) {
        VolumeNameDeterminesClaim(ClaimOf(users[i]), users[i].random, ClaimOf(users[j]), users[j].random);
      }
    }
  }

  function NameOfVolume(v: Volume): string {
    v.name
  }

  function NameOfMount(m: Mount): string {
    m.name
  }

  function BaseNames(supervised: bool, dcName: string): seq<string> {
    if supervised then [SUPERVISORD_VOLUME, AppRootVolumeName(dcName)] else []
  }

  lemma NamesDistinct(supervised: bool, dcName: string, users: seq<Attachment>)
    requires GoodUsers(users)
    ensures Distinct(BaseNames(supervised, dcName) + Map(VolumeNameOf, users))
  {
    VolumeNamesDistinct(users);
    var base, names := BaseNames(supervised, dcName), Map(VolumeNameOf, users);
    GeneratedIsNoBootstrapVolume("", "", dcName);
    forall i, j | 0 <= i < j < |base + names| ensures (base + names)[i] != (base + names)[j] {
      if j >= |base| {
        var u := users[j - |base|];
        GeneratedIsNoBootstrapVolume(u.pvc.name, u.random, dcName);
        if i >= |base| {
          assert names[i - |base|] != names[j - |base|];
        }
      }
    }
  }

  /** In the normal form every mount names exactly one volume and every volume is mounted once. */
  lemma ShapedIsWellFormed(dc: DC, supervised: bool, users: seq<Attachment>)
    requires Shaped(dc, supervised, users) && GoodUsers(users)
    ensures Distinct(Map(NameOfVolume, dc.volumes))
    ensures Map(NameOfVolume, dc.volumes) == Map(NameOfMount, dc.containers[0].mounts)
  {
    NamesDistinct(supervised, dc.meta.name, users);
    var all := BaseNames(supervised, dc.meta.name) + Map(VolumeNameOf, users);
    assert Map(NameOfVolume, dc.volumes) == all;
    assert Map(NameOfMount, dc.containers[0].mounts) == all;
  }

  // ------------------------------------------------------------ unmounting

  /** The volumes whose mount in `mounts` goes away, removed one by one. */
  function WithoutHits(volumes: seq<Volume>, mounts: seq<Mount>, paths: map<string, string>): seq<Volume>
    decreases mounts
  {
    if mounts == [] then volumes
    else if mounts[0].path in paths then
      WithoutHits(Without(volumes, NamedVolume(mounts[0].name)), mounts[1..], paths)
    else WithoutHits(volumes, mounts[1..], paths)
  }

  lemma InnerRemoval(volumes: seq<Volume>, name: string)
    requires Distinct(Map(NameOfVolume, volumes))
    ensures RangeRemove(volumes, NamedVolume(name)) == Kept(Without(volumes, NamedVolume(name)))
    ensures Distinct(Map(NameOfVolume, Without(volumes, NamedVolume(name))))
  {
    forall i, j | 0 <= i < j < |volumes|
      ensures !(NamedVolume(name)(volumes[i]) && NamedVolume(name)(volumes[j]))
    {
      assert Map(NameOfVolume, volumes)[i] != Map(NameOfVolume, volumes)[j];
    }
    RangeRemoveAtMostOne(volumes, NamedVolume(name));
    WithoutDistinct(NameOfVolume, volumes, NamedVolume(name));
  }

  /** The mounts evolve as in the plain removal loop, whatever happens to the volumes. */
  lemma {:induction false} UnmountMounts(backing: seq<Mount>, len: nat, i: nat, volumes: seq<Volume>,
                                         paths: map<string, string>)
    requires len <= |backing| && i <= |backing| && Distinct(Map(NameOfVolume, volumes))
    ensures match RangeRemoveFrom(backing, len, i, MountedAt(paths))
            case Kept(items) => UnmountFrom(backing, len, i, volumes, paths).Ok? &&
                                UnmountFrom(backing, len, i, volumes, paths).value.mounts == items
            case Panic => UnmountFrom(backing, len, i, volumes, paths) == Err(Failure.Panic)
    decreases |backing| - i
  {
    if i == |backing| {
    } else if backing[i].path !in paths {
      UnmountMounts(backing, len, i + 1, volumes, paths);
    } else if i < len {
      InnerRemoval(volumes, backing[i].name);
      UnmountMounts(Shift(backing, len, i), len - 1, i + 1, Without(volumes, NamedVolume(backing[i].name)), paths);
    }
  }

  /** On a range-safe list each removed mount takes its volume with it. */
  lemma {:induction false} UnmountVolumes(backing: seq<Mount>, len: nat, i: nat, volumes: seq<Volume>,
                                          paths: map<string, string>)
    requires i <= len && StaleTail(backing, len) && SafeFrom(backing, len, i, MountedAt(paths))
    requires Distinct(Map(NameOfVolume, volumes))
    ensures UnmountFrom(backing, len, i, volumes, paths).Ok?
    ensures UnmountFrom(backing, len, i, volumes, paths).value.volumes == WithoutHits(volumes, backing[i..len], paths)
    decreases |backing| - i
  {
    var hit := MountedAt(paths);
    if i == len {
      NothingMoreToUnmount(backing, len, i, volumes, paths);
    } else if backing[i].path !in paths {
      StepOver(backing, len, i, hit);
      UnmountVolumes(backing, len, i + 1, volumes, paths);
      assert backing[i..len][1..] == backing[i + 1..len];
    } else {
      InnerRemoval(volumes, backing[i].name);
      var left := Without(volumes, NamedVolume(backing[i].name));
      var next := Shift(backing, len, i);
      assert backing[i..len][1..] == backing[i + 1..len];
      if i + 1 == len {
        NothingMoreToUnmount(next, len - 1, i + 1, left, paths);
      } else {
        SafeShift(backing, len, i, hit);
        assert StaleTail(next, len - 1);
        UnmountVolumes(next, len - 1, i + 1, left, paths);
        assert next[i + 1..len - 1] == backing[i + 2..len];
        assert backing[i + 1..len][1..] == backing[i + 2..len];
      }
    }
  }

  lemma {:induction false} NothingMoreToUnmount(backing: seq<Mount>, len: nat, i: nat, volumes: seq<Volume>,
                                                paths: map<string, string>)
    requires len <= i <= |backing|
    requires forall k :: i <= k < |backing| ==> backing[k].path !in paths
    ensures UnmountFrom(backing, len, i, volumes, paths) == Ok(Unmounted(backing[..len], volumes))
    decreases |backing| - i
  {
    if i < |backing| {
      NothingMoreToUnmount(backing, len, i + 1, volumes, paths);
    }
  }

  function HitNames(mounts: seq<Mount>, paths: map<string, string>): set<string> {
    set m | m in mounts && m.path in paths :: m.name
  }

  function VolumeIn(names: set<string>): Volume -> bool {
    (v: Volume) => v.name in names
  }

  lemma {:induction false} WithoutHitsIsFilter(volumes: seq<Volume>, mounts: seq<Mount>, paths: map<string, string>)
    ensures WithoutHits(volumes, mounts, paths) == Without(volumes, VolumeIn(HitNames(mounts, paths)))
    decreases mounts
  {
    if mounts == [] {
      WithoutNothing(volumes, VolumeIn(HitNames(mounts, paths)));
    } else {
      var m, rest := mounts[0], mounts[1..];
      assert mounts == [m] + rest;
      if m.path in paths {
        var left := Without(volumes, NamedVolume(m.name));
        WithoutHitsIsFilter(left, rest, paths);
        assert HitNames(mounts, paths) == HitNames(rest, paths) + {m.name};
        WithoutTwice(volumes, NamedVolume(m.name), VolumeIn(HitNames(rest, paths)), VolumeIn(HitNames(mounts, paths)));
      } else {
        WithoutHitsIsFilter(volumes, rest, paths);
        assert HitNames(mounts, paths) == HitNames(rest, paths);
      }
    }
  }

  lemma SafeOnUsers(base: seq<Mount>, users: seq<Attachment>, paths: map<string, string>)
    requires forall m :: m in base ==> m.path !in paths
    ensures RangeSafe(base + Map(AttachedMount, users), MountedAt(paths)) <==> RangeSafe(users, AttachedAt(paths))
    ensures Without(base + Map(AttachedMount, users), MountedAt(paths))
         == base + Map(AttachedMount, Without(users, AttachedAt(paths)))
  {
    var mounts := Map(AttachedMount, users);
    RangeSafePrefix(base, mounts, MountedAt(paths));
    assert forall k :: 0 <= k < |users| ==> mounts[k] == AttachedMount(users[k]) && mounts[k].path == users[k].path;
    assert RangeSafe(mounts, MountedAt(paths)) <==> RangeSafe(users, AttachedAt(paths));
    WithoutConcat(base, mounts, MountedAt(paths));
    WithoutNothing(base, MountedAt(paths));
    WithoutMap(AttachedMount, users, AttachedAt(paths), MountedAt(paths));
  }

  lemma HitNamesOfUsers(base: seq<Mount>, users: seq<Attachment>, paths: map<string, string>)
    requires forall b :: b in base ==> b.path !in paths
    ensures HitNames(base + Map(AttachedMount, users), paths)
         == set u | u in users && u.path in paths :: VolumeNameOf(u)
  {
    var mounts := base + Map(AttachedMount, users);
    forall n | n in HitNames(mounts, paths)
      ensures n in set u | u in users && u.path in paths :: VolumeNameOf(u)
    {
      var m :| m in mounts && m.path in paths && m.name == n;
      var j :| 0 <= j < |mounts| && mounts[j] == m;
      assert j >= |base| && m == AttachedMount(users[j - |base|]);
      assert users[j - |base|] in users;
    }
    forall u | u in users && u.path in paths ensures VolumeNameOf(u) in HitNames(mounts, paths) {
      var k :| 0 <= k < |users| && users[k] == u;
      assert mounts[|base| + k] == AttachedMount(u);
    }
  }

  /** Filtering the volumes by the names of the unmounted mounts filters the attachments by path. */
  lemma VolumesOfUsers(base: seq<Volume>, users: seq<Attachment>, paths: map<string, string>, names: set<string>,
                       dcName: string)
    requires GoodUsers(users)
    requires forall b :: b in base ==> b.name == SUPERVISORD_VOLUME || b.name == AppRootVolumeName(dcName)
    requires names == set u | u in users && u.path in paths :: VolumeNameOf(u)
    ensures Without(base + Map(AttachedVolume, users), VolumeIn(names))
         == base + Map(AttachedVolume, Without(users, AttachedAt(paths)))
  {
    WithoutConcat(base, Map(AttachedVolume, users), VolumeIn(names));
    forall n | n in names ensures n != SUPERVISORD_VOLUME && n != AppRootVolumeName(dcName) {
      var u :| u in users && u.path in paths && VolumeNameOf(u) == n;
      GeneratedIsNoBootstrapVolume(u.pvc.name, u.random, dcName);
    }
    WithoutNothing(base, VolumeIn(names));
    VolumeNamesDistinct(users);
    forall u | u in users && VolumeNameOf(u) in names ensures u.path in paths {
      var w :| w in users && w.path in paths && VolumeNameOf(w) == VolumeNameOf(u);
      var i :| 0 <= i < |users| && users[i] == u;
      var j :| 0 <= j < |users| && users[j] == w;
      assert Map(VolumeNameOf, users)[i] == Map(VolumeNameOf, users)[j];
    }
    WithoutMap(AttachedVolume, users, AttachedAt(paths), VolumeIn(names));
  }

  // ------------------------------------------------------------ mounting

  /** `dc` with the requests attached after what it has. */
  function WithAttachments(dc: DC, requests: seq<MountRequest>): DC
    requires |dc.containers| == 1
  {
    dc.(containers := [dc.containers[0].(mounts := dc.containers[0].mounts + Map(AttachedMount, requests))],
        volumes := dc.volumes + Map(AttachedVolume, requests))
  }

  lemma AttachOne(dc: DC, r: MountRequest, rest: seq<MountRequest>)
    requires |dc.containers| == 1
    ensures AddPVC(dc, r) == Ok(WithAttachments(dc, [r]))
    ensures WithAttachments(WithAttachments(dc, [r]), rest) == WithAttachments(dc, [r] + rest)
  {
    assert Map(AttachedMount, [r]) == [AttachedMount(r)];
    assert Map(AttachedVolume, [r]) == [AttachedVolume(r)];
    assert dc.containers[0 := WithMount(dc.containers[0], AttachedMount(r))]
        == [WithMount(dc.containers[0], AttachedMount(r))];
    MapConcat(AttachedMount, [r], rest);
    MapConcat(AttachedVolume, [r], rest);
    var mounts, volumes := dc.containers[0].mounts, dc.volumes;
    assert mounts + (Map(AttachedMount, [r]) + Map(AttachedMount, rest))
        == (mounts + Map(AttachedMount, [r])) + Map(AttachedMount, rest);
    assert volumes + (Map(AttachedVolume, [r]) + Map(AttachedVolume, rest))
        == (volumes + Map(AttachedVolume, [r])) + Map(AttachedVolume, rest);
  }

  lemma {:induction false} AddPVCsAttaches(dc: DC, requests: seq<MountRequest>)
    requires |dc.containers| == 1
    ensures AddPVCs(dc, requests) == Ok(WithAttachments(dc, requests))
    decreases requests
  {
    if requests == [] {
      assert dc.containers == [dc.containers[0]];
      assert dc.containers[0].mounts + Map(AttachedMount, []) == dc.containers[0].mounts;
      assert dc.volumes + Map(AttachedVolume, []) == dc.volumes;
    } else {
      AttachOne(dc, requests[0], requests[1..]);
      AddPVCsAttaches(WithAttachments(dc, [requests[0]]), requests[1..]);
      assert [requests[0]] + requests[1..] == requests;
    }
  }

  lemma AttachToUsers(dc: DC, supervised: bool, users: seq<Attachment>, requests: seq<MountRequest>)
    requires |dc.containers| == 1
    ensures WithAttachments(WithUsers(dc, supervised, users), requests)
         == WithUsers(dc, supervised, users + requests)
  {
    MapConcat(AttachedMount, users, requests);
    MapConcat(AttachedVolume, users, requests);
    var mounts, volumes := BaseMounts(supervised, dc.meta.name), BaseVolumes(supervised, dc.meta.name);
    assert mounts + (Map(AttachedMount, users) + Map(AttachedMount, requests))
        == (mounts + Map(AttachedMount, users)) + Map(AttachedMount, requests);
    assert volumes + (Map(AttachedVolume, users) + Map(AttachedVolume, requests))
        == (volumes + Map(AttachedVolume, users)) + Map(AttachedVolume, requests);
  }

  // ------------------------------------------------------------ both

  function Cut(dc: DC, left: Unmounted): DC
    requires |dc.containers| == 1
  {
    dc.(containers := [dc.containers[0].(mounts := left.mounts)], volumes := left.volumes)
  }

  function UnmountAll(dc: DC, paths: map<string, string>): Result<Unmounted>
    requires |dc.containers| == 1
  {
    UnmountFrom(dc.containers[0].mounts, |dc.containers[0].mounts|, 0, dc.volumes, paths)
  }

  lemma AddOrRemoveForm(dc: DC, requests: seq<MountRequest>, paths: map<string, string>)
    requires |dc.containers| == 1
    ensures AddOrRemove(dc, requests, paths) ==
            match UnmountAll(dc, paths)
            case Ok(left) => Ok(WithAttachments(Cut(dc, left), requests))
            case Err(f) => Err(f)
  {
    if UnmountAll(dc, paths).Ok? {
      AddPVCsAttaches(Cut(dc, UnmountAll(dc, paths).value), requests);
    }
  }

  /** The unmount loop on a range-safe normal form: what it leaves of the volumes. */
  lemma UnmountSafeVolumes(dc: DC, supervised: bool, users: seq<Attachment>, paths: map<string, string>)
    requires Shaped(dc, supervised, users) && GoodUsers(users)
    requires forall p :: p in BASE_PATHS ==> p !in paths
    requires SafeFrom(dc.containers[0].mounts, |dc.containers[0].mounts|, 0, MountedAt(paths))
    ensures UnmountAll(dc, paths).Ok?
    ensures UnmountAll(dc, paths).value.volumes
         == BaseVolumes(supervised, dc.meta.name) + Map(AttachedVolume, Without(users, AttachedAt(paths)))
  {
    var mounts := dc.containers[0].mounts;
    ShapedIsWellFormed(dc, supervised, users);
    UnmountVolumes(mounts, |mounts|, 0, dc.volumes, paths);
    assert mounts[0..|mounts|] == mounts;
    WithoutHitsIsFilter(dc.volumes, mounts, paths);
    HitNamesOfUsers(BaseMounts(supervised, dc.meta.name), users, paths);
    VolumesOfUsers(BaseVolumes(supervised, dc.meta.name), users, paths, HitNames(mounts, paths), dc.meta.name);
  }

  lemma UnmountSafe(dc: DC, supervised: bool, users: seq<Attachment>, paths: map<string, string>)
    requires Shaped(dc, supervised, users) && GoodUsers(users)
    requires forall p :: p in BASE_PATHS ==> p !in paths
    requires RangeSafe(users, AttachedAt(paths))
    ensures UnmountAll(dc, paths).Ok?
    ensures Cut(dc, UnmountAll(dc, paths).value) == WithUsers(dc, supervised, Without(users, AttachedAt(paths)))
  {
    var mounts := dc.containers[0].mounts;
    SafeOnUsers(BaseMounts(supervised, dc.meta.name), users, paths);
    UnmountSafeVolumes(dc, supervised, users, paths);
    ShapedIsWellFormed(dc, supervised, users);
    UnmountMounts(mounts, |mounts|, 0, dc.volumes, paths);
    RangeRemoveIsFilterIff(mounts, MountedAt(paths));
  }

  /** The unmount loop on any other normal form. */
  lemma UnmountUnsafe(dc: DC, supervised: bool, users: seq<Attachment>, paths: map<string, string>)
    requires Shaped(dc, supervised, users) && GoodUsers(users)
    requires forall p :: p in BASE_PATHS ==> p !in paths
    requires !RangeSafe(users, AttachedAt(paths)) && UnmountAll(dc, paths).Ok?
    ensures UnmountAll(dc, paths).value.mounts
            != BaseMounts(supervised, dc.meta.name) + Map(AttachedMount, Without(users, AttachedAt(paths)))
  {
    var mounts := dc.containers[0].mounts;
    ShapedIsWellFormed(dc, supervised, users);
    SafeOnUsers(BaseMounts(supervised, dc.meta.name), users, paths);
    UnmountMounts(mounts, |mounts|, 0, dc.volumes, paths);
    RangeRemoveIsFilterIff(mounts, MountedAt(paths));
  }

  /** ADD-OR-REMOVE, EXACTLY. Unmounting then mounting turns the attachments into the old ones minus
      the unmounted paths plus the requests, in order, if and only if the attachments are range-safe
      for the unmounted paths. */
  lemma AddOrRemoveShapeIff(dc: DC, supervised: bool, users: seq<Attachment>, requests: seq<MountRequest>,
                            paths: map<string, string>)
    requires Shaped(dc, supervised, users) && GoodUsers(users)
    requires forall p :: p in BASE_PATHS ==> p !in paths
    ensures AddOrRemove(dc, requests, paths)
            == Ok(WithUsers(dc, supervised, Without(users, AttachedAt(paths)) + requests))
            <==> RangeSafe(users, AttachedAt(paths))
  {
    var left := Without(users, AttachedAt(paths));
    AddOrRemoveForm(dc, requests, paths);
    AttachToUsers(dc, supervised, left, requests);
    if RangeSafe(users, AttachedAt(paths)) {
      UnmountSafe(dc, supervised, users, paths);
      assert Cut(dc, UnmountAll(dc, paths).value) == WithUsers(dc, supervised, left);
    } else if UnmountAll(dc, paths).Ok? {
      UnmountUnsafe(dc, supervised, users, paths);
      var got := UnmountAll(dc, paths).value.mounts;
      var want := BaseMounts(supervised, dc.meta.name) + Map(AttachedMount, left);
      SameTail(got, want, Map(AttachedMount, requests));
      AttachToUsersMounts(dc, supervised, left, requests);
    }
  }

  lemma SameTail<T>(a: seq<T>, b: seq<T>, t: seq<T>)
    ensures a + t == b + t ==> a == b
  {
    if a + t == b + t {
      assert |a| == |b|;
      assert (a + t)[..|a|] == a && (b + t)[..|b|] == b;
    }
  }

  lemma AttachToUsersMounts(dc: DC, supervised: bool, users: seq<Attachment>, requests: seq<MountRequest>)
    requires |dc.containers| == 1
    ensures WithUsers(dc, supervised, users + requests).containers[0].mounts
         == BaseMounts(supervised, dc.meta.name) + Map(AttachedMount, users) + Map(AttachedMount, requests)
  {
    AttachToUsers(dc, supervised, users, requests);
  }
}
