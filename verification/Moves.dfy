// Source-type moves on one DeploymentConfig: what each way of regenerating the DC and copying the
// old volumes does to the normal form. No move loses, adds or reorders an attached storage.

module Moves {
  import opened Deployment
  import opened EnvVars
  import opened GoSlice
  import opened Lists
  import opened Names
  import opened Objects
  import opened Ports
  import opened Results
  import opened Shapes

  /** The DC of a fresh local or binary component. */
  function SupervisedBase(meta: Meta, spec: ContainerSpec, env: seq<EnvVar>, envFrom: seq<EnvFromSource>): DC {
    Bootstrapped(SupervisordDeployment(meta, spec, env, envFrom), meta.name)
  }

  lemma BasesAreShaped(meta: Meta, spec: ContainerSpec, env: seq<EnvVar>, envFrom: seq<EnvFromSource>)
    ensures Shaped(GitDeployment(meta, spec, env), false, [])
    ensures Shaped(SupervisedBase(meta, spec, env, envFrom), true, [])
    ensures GoodUsers([])
  {
    var git := GitDeployment(meta, spec, env);
    assert git.containers[0].mounts == BaseMounts(false, meta.name) + Map(AttachedMount, []);
    assert git.volumes == BaseVolumes(false, meta.name) + Map(AttachedVolume, []);
    SameDC(git, WithUsers(git, false, []));
    var dc := SupervisordDeployment(meta, spec, env, envFrom);
    assert dc.containers[1..] == [];
    var mount := AppRootMount(meta.name);
    assert MountInEach(dc.containers, mount) == [WithMount(dc.containers[0], mount)];
    var base := SupervisedBase(meta, spec, env, envFrom);
    assert base.containers[0].mounts == BaseMounts(true, meta.name) + Map(AttachedMount, []);
    assert base.volumes == BaseVolumes(true, meta.name) + Map(AttachedVolume, []);
    assert base.initContainers == BaseInits(true, meta.name);
    SameDC(base, WithUsers(base, true, []));
  }

  lemma SameDC(a: DC, b: DC)
    requires |a.containers| == 1 == |b.containers| && a.containers[0] == b.containers[0]
    requires a.meta == b.meta && a.initContainers == b.initContainers && a.volumes == b.volumes
    ensures a == b
  {
    assert a.containers == [a.containers[0]] && b.containers == [b.containers[0]];
  }

  /** Creation: nothing to unmount, the requests become the attachments. */
  lemma CreatedShape(base: DC, supervised: bool, requests: seq<MountRequest>)
    requires Shaped(base, supervised, [])
    ensures AddOrRemove(base, requests, map[]) == Ok(WithUsers(base, supervised, requests))
  {
    AddOrRemoveShapeIff(base, supervised, [], requests, map[]);
    assert Without([], AttachedAt(map[])) + requests == requests;
  }

  lemma ShapedWithUsers(base: DC, supervised: bool, users: seq<Attachment>)
    requires |base.containers| == 1 && base.containers[0].name == base.meta.name
    requires base.initContainers == BaseInits(supervised, base.meta.name)
    ensures Shaped(WithUsers(base, supervised, users), supervised, users)
  {
  }

  /** No attachment's volume is skipped when none of the present names is an attachment's. */
  lemma NoneSkipped(users: seq<Attachment>, present: set<string>, dcName: string)
    requires present <= {SUPERVISORD_VOLUME, AppRootVolumeName(dcName)}
    ensures Without(Map(AttachedMount, users), SkippedMount(present)) == Map(AttachedMount, users)
    ensures Without(Map(AttachedVolume, users), SkippedVolume(present)) == Map(AttachedVolume, users)
  {
    forall k | 0 <= k < |users|
      ensures VolumeNameOf(users[k]) !in present && VolumeNameOf(users[k]) != SUPERVISORD_VOLUME
    {
      GeneratedIsNoBootstrapVolume(users[k].pvc.name, users[k].random, dcName);
    }
    WithoutNothing(Map(AttachedMount, users), SkippedMount(present));
    WithoutNothing(Map(AttachedVolume, users), SkippedVolume(present));
  }

  /** What copying takes from a DC in normal form. */
  lemma CopiedPart(current: DC, supervised: bool, users: seq<Attachment>, present: set<string>)
    requires Shaped(current, supervised, users)
    requires present <= {SUPERVISORD_VOLUME, AppRootVolumeName(current.meta.name)}
    ensures var keepRoot := supervised && AppRootVolumeName(current.meta.name) !in present;
            Without(current.containers[0].mounts, SkippedMount(present))
            == (if keepRoot then [AppRootMount(current.meta.name)] else []) + Map(AttachedMount, users) &&
            Without(current.volumes, SkippedVolume(present))
            == (if keepRoot then [AppRootVolume(current.meta.name)] else []) + Map(AttachedVolume, users)
  {
    var name := current.meta.name;
    NoneSkipped(users, present, name);
    GeneratedIsNoBootstrapVolume("", "", name);
    WithoutConcat(BaseMounts(supervised, name), Map(AttachedMount, users), SkippedMount(present));
    WithoutConcat(BaseVolumes(supervised, name), Map(AttachedVolume, users), SkippedVolume(present));
    if supervised {
      var keep := AppRootVolumeName(name) !in present;
      WithoutCons(SUPERVISORD_MOUNT, [AppRootMount(name)], SkippedMount(present));
      WithoutCons(AppRootMount(name), [], SkippedMount(present));
      WithoutCons(Volume(SUPERVISORD_VOLUME, EmptyDir), [AppRootVolume(name)], SkippedVolume(present));
      WithoutCons(AppRootVolume(name), [], SkippedVolume(present));
      assert BaseMounts(true, name) == [SUPERVISORD_MOUNT] + [AppRootMount(name)];
      assert BaseVolumes(true, name) == [Volume(SUPERVISORD_VOLUME, EmptyDir)] + [AppRootVolume(name)];
    }
  }

  /** git to git: the regenerated DC gets exactly the old attachments back. */
  lemma GitFromGit(current: DC, users: seq<Attachment>, meta: Meta, spec: ContainerSpec, env: seq<EnvVar>)
    requires Shaped(current, false, users) && meta.name == current.meta.name
    ensures WithCopies(GitDeployment(meta, spec, env), current, current.containers[0])
         == WithUsers(GitDeployment(meta, spec, env), false, users)
  {
    var base := GitDeployment(meta, spec, env);
    assert MountNames(base.containers[0].mounts) == {} && VolumeNames(base.volumes) == {};
    CopiedFromGit(current, users, {});
    CopyMountsAt(base.containers, 0, current.containers[0]);
    SameDC(WithCopies(base, current, current.containers[0]), WithUsers(base, false, users));
  }

  /** local or binary to git: the copy brings the source-data volume along ... */
  lemma GitCopiesOfSupervised(current: DC, users: seq<Attachment>, meta: Meta, spec: ContainerSpec, env: seq<EnvVar>)
    requires Shaped(current, true, users) && meta.name == current.meta.name
    ensures WithCopies(GitDeployment(meta, spec, env), current, current.containers[0])
         == GitDeployment(meta, spec, env).(
              containers := [Container(meta.name, spec, env, [],
                                       [AppRootMount(meta.name)] + Map(AttachedMount, users))],
              volumes := [AppRootVolume(meta.name)] + Map(AttachedVolume, users))
  {
    var base := GitDeployment(meta, spec, env);
    var mounts := [AppRootMount(meta.name)] + Map(AttachedMount, users);
    var volumes := [AppRootVolume(meta.name)] + Map(AttachedVolume, users);
    assert MountNames(base.containers[0].mounts) == {} && VolumeNames(base.volumes) == {};
    CopiedPart(current, true, users, {});
    CopyMountsAt(base.containers, 0, current.containers[0]);
    assert base.containers[0].mounts + mounts == mounts && base.volumes + volumes == volumes;
    SameDC(WithCopies(base, current, current.containers[0]),
           base.(containers := [Container(meta.name, spec, env, [], mounts)], volumes := volumes));
  }

  /** ... and removing the traces of supervisord finds that volume and its mount, each once: the
      "unable to find volume" errors of this move cannot occur. */
  lemma GitFromSupervised(current: DC, users: seq<Attachment>, meta: Meta, spec: ContainerSpec, env: seq<EnvVar>)
    requires Shaped(current, true, users) && meta.name == current.meta.name
    ensures WithoutSupervisord(WithCopies(GitDeployment(meta, spec, env), current, current.containers[0]))
         == Ok(WithUsers(GitDeployment(meta, spec, env), false, users))
  {
    GitCopiesOfSupervised(current, users, meta, spec, env);
    var copied := WithCopies(GitDeployment(meta, spec, env), current, current.containers[0]);
    var want := WithUsers(GitDeployment(meta, spec, env), false, users);
    TracesRemoved(copied, users);
    assert [] + Map(AttachedMount, users) == Map(AttachedMount, users);
    assert [] + Map(AttachedVolume, users) == Map(AttachedVolume, users);
  }

  lemma TracesRemoved(dc: DC, users: seq<Attachment>)
    requires |dc.containers| == 1 && dc.initContainers == []
    requires dc.containers[0].mounts == [AppRootMount(dc.meta.name)] + Map(AttachedMount, users)
    requires dc.volumes == [AppRootVolume(dc.meta.name)] + Map(AttachedVolume, users)
    ensures WithoutSupervisord(dc) == Ok(dc.(
              containers := [dc.containers[0].(mounts := Map(AttachedMount, users))],
              volumes := Map(AttachedVolume, users)))
  {
    var root := AppRootVolumeName(dc.meta.name);
    OneRootVolume(users, dc.meta.name);
    assert AppRootVolume(dc.meta.name) in dc.volumes && AppRootMount(dc.meta.name) in dc.containers[0].mounts;
    assert root in VolumeNames(dc.volumes) && root in MountNames(dc.containers[0].mounts);
    RangeRemoveAtMostOne(dc.initContainers, NamedContainer(COPY_FILES));
    assert dc.containers[1..] == [];
    var cut := dc.containers[0].(mounts := Map(AttachedMount, users));
    assert [cut] + [] == [cut];
    assert WithoutVolumeMount([], root) == Ok(([], false));
  }

  lemma OneRootVolume(users: seq<Attachment>, dcName: string)
    ensures RangeRemove([AppRootVolume(dcName)] + Map(AttachedVolume, users), NamedVolume(AppRootVolumeName(dcName)))
         == Kept(Map(AttachedVolume, users))
    ensures RangeRemove([AppRootMount(dcName)] + Map(AttachedMount, users), NamedMount(AppRootVolumeName(dcName)))
         == Kept(Map(AttachedMount, users))
  {
    var root := AppRootVolumeName(dcName);
    forall k | 0 <= k < |users| ensures VolumeNameOf(users[k]) != root {
      GeneratedIsNoBootstrapVolume(users[k].pvc.name, users[k].random, dcName);
    }
    var volumes, mounts := Map(AttachedVolume, users), Map(AttachedMount, users);
    RangeRemoveAtMostOne([AppRootVolume(dcName)] + volumes, NamedVolume(root));
    RangeRemoveAtMostOne([AppRootMount(dcName)] + mounts, NamedMount(root));
    WithoutCons(AppRootVolume(dcName), volumes, NamedVolume(root));
    WithoutCons(AppRootMount(dcName), mounts, NamedMount(root));
    WithoutNothing(volumes, NamedVolume(root));
    WithoutNothing(mounts, NamedMount(root));
  }

  /** git to local or binary: the bootstrap part is new, the attachments are the old ones. */
  lemma SupervisedFromGit(current: DC, users: seq<Attachment>, meta: Meta, spec: ContainerSpec,
                          env: seq<EnvVar>, envFrom: seq<EnvFromSource>)
    requires Shaped(current, false, users) && meta.name == current.meta.name
    ensures WithCopies(SupervisedBase(meta, spec, env, envFrom), current, current.containers[0])
         == WithUsers(SupervisedBase(meta, spec, env, envFrom), true, users)
  {
    var base := SupervisedBase(meta, spec, env, envFrom);
    BasesAreShaped(meta, spec, env, envFrom);
    var c := base.containers[0];
    assert c.mounts == BaseMounts(true, meta.name) && base.volumes == BaseVolumes(true, meta.name) by {
      assert BaseMounts(true, meta.name) + Map(AttachedMount, []) == BaseMounts(true, meta.name);
      assert BaseVolumes(true, meta.name) + Map(AttachedVolume, []) == BaseVolumes(true, meta.name);
    }
    CopiedFromGit(current, users, MountNames(c.mounts));
    CopiedFromGit(current, users, VolumeNames(base.volumes));
    CopyMountsAt(base.containers, 0, current.containers[0]);
    SameDC(WithCopies(base, current, current.containers[0]), WithUsers(base, true, users));
  }

  lemma CopiedFromGit(current: DC, users: seq<Attachment>, present: set<string>)
    requires Shaped(current, false, users)
    requires present <= {SUPERVISORD_VOLUME, AppRootVolumeName(current.meta.name)}
    ensures Without(current.containers[0].mounts, SkippedMount(present)) == Map(AttachedMount, users)
    ensures Without(current.volumes, SkippedVolume(present)) == Map(AttachedVolume, users)
  {
    CopiedPart(current, false, users, present);
    assert [] + Map(AttachedMount, users) == Map(AttachedMount, users);
    assert [] + Map(AttachedVolume, users) == Map(AttachedVolume, users);
  }

  /** local or binary to local or binary: the updated DC already has everything, copying adds nothing. */
  lemma SupervisedFromSupervised(current: DC, users: seq<Attachment>, meta: Meta, spec: ContainerSpec,
                                 env: seq<EnvVar>, envFrom: seq<EnvFromSource>)
    requires Shaped(current, true, users) && meta.name == current.meta.name
    ensures var updated := UpdatedSupervisor(current, meta, spec, env, envFrom);
            Shaped(updated, true, users) &&
            WithCopies(updated, current, current.containers[0]) == updated
  {
    var updated := UpdatedSupervisor(current, meta, spec, env, envFrom);
    var c := current.containers[0];
    assert updated.containers == [c.(name := meta.name, spec := spec, env := env, envFrom := envFrom)];
    forall m | m in c.mounts ensures SkippedMount(MountNames(c.mounts))(m) {
    }
    WithoutEverything(c.mounts, SkippedMount(MountNames(c.mounts)));
    WithoutEverything(current.volumes, SkippedVolume(VolumeNames(current.volumes)));
    CopyMountsAt(updated.containers, 0, c);
    assert updated.containers[0].mounts + [] == updated.containers[0].mounts;
    assert updated.volumes + [] == updated.volumes;
  }
}
