// One update or creation step keeps the invariant: first the DC, then the claims, then the build
// configs, then all three together.

module Updates {
  import opened Cluster
  import opened Component
  import opened Deployment
  import opened EnvVars
  import opened GoSlice
  import opened Invariant
  import opened Lists
  import opened Moves
  import opened Names
  import opened Objects
  import opened Ports
  import opened PushEffects
  import opened Results
  import opened Shapes
  import opened StorageSync
  import opened UserStorage

  // ------------------------------------------------------------ the DC

  lemma WithUsersTwice(dc: DC, supervised: bool, users: seq<Attachment>, others: seq<Attachment>)
    requires |dc.containers| == 1
    ensures WithUsers(WithUsers(dc, supervised, users), supervised, others) == WithUsers(dc, supervised, others)
  {
  }

  ghost predicate NoBasePath(unmount: map<string, string>) {
    forall path :: path in BASE_PATHS ==> path !in unmount
  }

  /** Patching a DC whose regenerated form carries the old attachments. The patched DC is the base
      with the attachments intended, if and only if the unmount loop is safe; otherwise it is not
      even in normal form for them. */
  lemma PatchIff(base: DC, supervised: bool, users: seq<Attachment>, p: Patch)
    requires |base.containers| == 1 && base.containers[0].name == base.meta.name
    requires base.initContainers == BaseInits(supervised, base.meta.name)
    requires GoodUsers(users) && NoBasePath(p.unmount)
    ensures var r := AddOrRemove(WithUsers(base, supervised, users), p.requests, p.unmount);
            var users' := After(users, p.unmount, p.requests);
            (r == Ok(WithUsers(base, supervised, users')) <==> RangeSafe(users, AttachedAt(p.unmount))) &&
            (r.Ok? && Shaped(r.value, supervised, users') ==> RangeSafe(users, AttachedAt(p.unmount)))
  {
    var dc := WithUsers(base, supervised, users);
    var users' := After(users, p.unmount, p.requests);
    ShapedWithUsers(base, supervised, users);
    AddOrRemoveShapeIff(dc, supervised, users, p.requests, p.unmount);
    WithUsersTwice(base, supervised, users, users');
    AddOrRemoveForm(dc, p.requests, p.unmount);
    var r := AddOrRemove(dc, p.requests, p.unmount);
    if r.Ok? && Shaped(r.value, supervised, users') {
      assert WithUsers(r.value, supervised, users') == WithUsers(dc, supervised, users');
    }
  }

  /** The regenerated DC of each transition, before the attachments. */
  function BaseFor(current: DC, p: Patch, s2i: Result<S2IPaths>): DC
    requires |current.containers| == 1
  {
    if p.meta.sourceType == GIT then GitDeployment(p.meta, p.spec, [])
    else
      var env := if s2i.Ok? then UpdatedEnv(s2i.value, p.meta.sourceType == LOCAL) else [];
      if current.meta.sourceType == GIT then SupervisedBase(p.meta, p.spec, env, current.containers[0].envFrom)
      else UpdatedSupervisor(current, p.meta, p.spec, env, current.containers[0].envFrom)
  }

  /** The DC each transition writes, if the DC step succeeds. */
  function PatchedFor(current: DC, p: Patch, s2i: Result<S2IPaths>): Result<DC>
    requires |current.containers| == 1
  {
    var container := current.containers[0];
    if p.meta.sourceType == GIT then PatchedToGit(current, container, p, Supervised(current.meta.sourceType))
    else
      var env := if s2i.Ok? then UpdatedEnv(s2i.value, p.meta.sourceType == LOCAL) else [];
      PatchedToSupervisor(current, container, p, env, current.meta.sourceType == GIT)
  }

  ghost predicate BareBase(base: DC, current: DC, users: seq<Attachment>, p: Patch, patched: Result<DC>) {
    && |base.containers| == 1 && base.containers[0].name == base.meta.name && base.meta == p.meta
    && base.initContainers == BaseInits(Supervised(p.meta.sourceType), base.meta.name)
    && patched == AddOrRemove(WithUsers(base, Supervised(p.meta.sourceType), users), p.requests, p.unmount)
  }

  lemma BareGit(current: DC, users: seq<Attachment>, p: Patch)
    requires Shaped(current, Supervised(current.meta.sourceType), users) && current.meta.sourceType != NONE
    requires p.meta.name == current.meta.name && p.meta.sourceType == GIT
    ensures BareBase(GitDeployment(p.meta, p.spec, []), current, users, p,
                     PatchedToGit(current, current.containers[0], p, Supervised(current.meta.sourceType)))
  {
    if Supervised(current.meta.sourceType) {
      GitFromSupervised(current, users, p.meta, p.spec, []);
    } else {
      GitFromGit(current, users, p.meta, p.spec, []);
    }
  }

  lemma BareFromGit(current: DC, users: seq<Attachment>, p: Patch, env: seq<EnvVar>)
    requires Shaped(current, false, users) && p.meta.name == current.meta.name && Supervised(p.meta.sourceType)
    ensures BareBase(SupervisedBase(p.meta, p.spec, env, current.containers[0].envFrom), current, users, p,
                     PatchedToSupervisor(current, current.containers[0], p, env, true))
  {
    BasesAreShaped(p.meta, p.spec, env, current.containers[0].envFrom);
    SupervisedFromGit(current, users, p.meta, p.spec, env, current.containers[0].envFrom);
  }

  lemma BareInPlace(current: DC, users: seq<Attachment>, p: Patch, env: seq<EnvVar>)
    requires Shaped(current, true, users) && p.meta.name == current.meta.name && Supervised(p.meta.sourceType)
    ensures BareBase(UpdatedSupervisor(current, p.meta, p.spec, env, current.containers[0].envFrom), current, users, p,
                     PatchedToSupervisor(current, current.containers[0], p, env, false))
  {
    SupervisedFromSupervised(current, users, p.meta, p.spec, env, current.containers[0].envFrom);
    var updated := UpdatedSupervisor(current, p.meta, p.spec, env, current.containers[0].envFrom);
    assert updated == WithUsers(updated, true, users);
  }

  lemma BaseIsBare(current: DC, users: seq<Attachment>, p: Patch, s2i: Result<S2IPaths>)
    requires Shaped(current, Supervised(current.meta.sourceType), users) && current.meta.sourceType != NONE
    requires p.meta.name == current.meta.name && p.meta.sourceType != NONE
    ensures BareBase(BaseFor(current, p, s2i), current, users, p, PatchedFor(current, p, s2i))
  {
    var env := if s2i.Ok? then UpdatedEnv(s2i.value, p.meta.sourceType == LOCAL) else [];
    if p.meta.sourceType == GIT {
      BareGit(current, users, p);
    } else if current.meta.sourceType == GIT {
      BareFromGit(current, users, p, env);
    } else {
      BareInPlace(current, users, p, env);
    }
  }

  /** EVERY TRANSITION KEEPS USER STORAGE. Whatever the old and the new source type, the new DC is the
      regenerated one carrying the old attachments minus the unmounted ones plus the requests, in
      order, if and only if the unmount loop is safe. */
  lemma TransitionIff(current: DC, users: seq<Attachment>, p: Patch, s2i: Result<S2IPaths>)
    requires Shaped(current, Supervised(current.meta.sourceType), users) && current.meta.sourceType != NONE
    requires p.meta.name == current.meta.name && p.meta.sourceType != NONE
    requires GoodUsers(users) && NoBasePath(p.unmount)
    ensures |BaseFor(current, p, s2i).containers| == 1
    ensures var users' := After(users, p.unmount, p.requests);
            var dc := PatchedFor(current, p, s2i);
            (dc == Ok(WithUsers(BaseFor(current, p, s2i), Supervised(p.meta.sourceType), users'))
             <==> RangeSafe(users, AttachedAt(p.unmount))) &&
            (dc.Ok? && Shaped(dc.value, Supervised(p.meta.sourceType), users') ==>
               RangeSafe(users, AttachedAt(p.unmount)))
  {
    BaseIsBare(current, users, p, s2i);
    PatchIff(BaseFor(current, p, s2i), Supervised(p.meta.sourceType), users, p);
  }

  /** The DC step of an update can fail in one way only: the unmount loop panics, and only on attachments
      that are not range-safe. In particular "unable to find volume" cannot occur. */
  lemma PatchOnlyPanics(current: DC, users: seq<Attachment>, p: Patch, s2i: Result<S2IPaths>)
    requires Shaped(current, Supervised(current.meta.sourceType), users) && current.meta.sourceType != NONE
    requires p.meta.name == current.meta.name && p.meta.sourceType != NONE
    requires GoodUsers(users) && NoBasePath(p.unmount)
    ensures PatchedFor(current, p, s2i).Err? ==>
              PatchedFor(current, p, s2i).failure == Failure.Panic && !RangeSafe(users, AttachedAt(p.unmount))
  {
    BaseIsBare(current, users, p, s2i);
    TransitionIff(current, users, p, s2i);
    var supervised := Supervised(p.meta.sourceType);
    var dc := WithUsers(BaseFor(current, p, s2i), supervised, users);
    ShapedWithUsers(BaseFor(current, p, s2i), supervised, users);
    ShapedIsWellFormed(dc, supervised, users);
    AddOrRemoveForm(dc, p.requests, p.unmount);
    UnmountMounts(dc.containers[0].mounts, |dc.containers[0].mounts|, 0, dc.volumes, p.unmount);
  }

  /** The DC step succeeds if and only if the unmount loop does not meet an unmounted storage at the end
      of the attachments after having removed an earlier one. */
  lemma PatchSucceedsIff(current: DC, users: seq<Attachment>, p: Patch, s2i: Result<S2IPaths>)
    requires Shaped(current, Supervised(current.meta.sourceType), users) && current.meta.sourceType != NONE
    requires p.meta.name == current.meta.name && p.meta.sourceType != NONE
    requires GoodUsers(users) && NoBasePath(p.unmount)
    ensures PatchedFor(current, p, s2i).Ok? <==> !LastAndEarlier(users, AttachedAt(p.unmount))
  {
    BaseIsBare(current, users, p, s2i);
    UnmountPanicsIff(BaseFor(current, p, s2i), Supervised(p.meta.sourceType), users, p);
  }

  lemma UnmountPanicsIff(base: DC, supervised: bool, users: seq<Attachment>, p: Patch)
    requires |base.containers| == 1 && base.containers[0].name == base.meta.name
    requires base.initContainers == BaseInits(supervised, base.meta.name)
    requires GoodUsers(users) && NoBasePath(p.unmount)
    ensures AddOrRemove(WithUsers(base, supervised, users), p.requests, p.unmount).Ok?
            <==> !LastAndEarlier(users, AttachedAt(p.unmount))
  {
    var dc := WithUsers(base, supervised, users);
    ShapedWithUsers(base, supervised, users);
    ShapedIsWellFormed(dc, supervised, users);
    AddOrRemoveForm(dc, p.requests, p.unmount);
    var mounts := dc.containers[0].mounts;
    UnmountMounts(mounts, |mounts|, 0, dc.volumes, p.unmount);
    RangeRemovePanicsIff(mounts, MountedAt(p.unmount));
    LastAndEarlierPrefix(BaseMounts(supervised, dc.meta.name), Map(AttachedMount, users), MountedAt(p.unmount));
    LastOfMounts(users, p.unmount);
  }

  lemma LastOfMounts(users: seq<Attachment>, unmount: map<string, string>)
    ensures LastAndEarlier(Map(AttachedMount, users), MountedAt(unmount))
            <==> LastAndEarlier(users, AttachedAt(unmount))
  {
    var mounts := Map(AttachedMount, users);
    assert forall k :: 0 <= k < |users| ==> MountedAt(unmount)(mounts[k]) == AttachedAt(unmount)(users[k]);
    if LastAndEarlier(users, AttachedAt(unmount)) {
      var k :| 0 <= k < |users| - 1 && AttachedAt(unmount)(users[k]);
      assert MountedAt(unmount)(mounts[k]);
    }
  }

  // ------------------------------------------------------------ the claims

  /** Owned by a component other than `n`. */
  ghost predicate Others(st: ClusterState, att: map<string, seq<Attachment>>, n: string, p: PVC) {
    exists m :: m != n && m in st.dcs && m in att && OwnedBy(st.dcs[m], m, att[m], p)
  }

  ghost predicate OwnRoot(st: ClusterState, n: string, p: PVC) {
    n in st.dcs && Supervised(st.dcs[n].meta.sourceType) && RootClaim(p, n)
  }

  lemma OneOwner(a: DC, m: string, users: seq<Attachment>, b: DC, n: string, others: seq<Attachment>, p: PVC)
    requires ComponentOk(a, m, users) && ComponentOk(b, n, others)
    requires OwnedBy(a, m, users, p) && Attached(others, p)
    ensures m == n
  {
    var u :| u in others && u.pvc == p;
    var v :| v in users && v.pvc == p;
    assert p.labels[ComponentName] == a.meta.labels[ComponentName] == b.meta.labels[ComponentName];
    assert p.labels[ApplicationName] == a.meta.labels[ApplicationName] == b.meta.labels[ApplicationName];
  }

  lemma OthersNotAttached(st: ClusterState, att: map<string, seq<Attachment>>, n: string, p: PVC)
    requires Inv(st, att) && n in st.dcs && Others(st, att, n, p)
    ensures !Attached(att[n], p)
  {
    var m :| m != n && m in st.dcs && m in att && OwnedBy(st.dcs[m], m, att[m], p);
    if Attached(att[n], p) {
      OneOwner(st.dcs[m], m, att[m], st.dcs[n], n, att[n], p);
    }
  }

  lemma AttachedHasStorage(dc: DC, n: string, users: seq<Attachment>, p: PVC)
    requires ComponentOk(dc, n, users) && Attached(users, p)
    ensures StorageName in p.labels
  {
  }

  /** Which claims a push leaves, by owner. */
  lemma PushedClaims(st: ClusterState, att: map<string, seq<Attachment>>, n: string, users: seq<Attachment>,
                     items: seq<Storage>, component: string, application: string, canon: Canon, pushed: Pushed,
                     requests: seq<MountRequest>, p: PVC)
    requires Inv(st, att) && users == if n in st.dcs then att[n] else []
    requires Pushing(st.pvcs, users, items, component, application, canon, pushed, requests)
    ensures p in pushed.pvcs ==>
              Attached(After(users, pushed.unmount, requests), p) || (p in st.pvcs && OwnRoot(st, n, p)) ||
              Others(st, att, n, p)
    ensures p in st.pvcs && (OwnRoot(st, n, p) || Others(st, att, n, p)) ==> p in pushed.pvcs
  {
    ClaimsAfter(st.pvcs, users, items, component, application, canon, pushed, requests, p);
    if p in st.pvcs && !Attached(users, p) {
      var m := OwnerOf(st, att, p);
      if m != n {
        assert Others(st, att, n, p);
      }
    }
    if n in st.dcs && Others(st, att, n, p) {
      OthersNotAttached(st, att, n, p);
    }
    if n in st.dcs && Attached(users, p) {
      AttachedHasStorage(st.dcs[n], n, users, p);
    }
  }

  /** The claims fit a cluster in which only component `n` has changed. */
  ghost predicate ClaimsFit(st: ClusterState, att: map<string, seq<Attachment>>, n: string, dc: DC,
                            users: seq<Attachment>, pvcs: seq<PVC>)
  {
    && Distinct(PvcNames(pvcs))
    && (forall p :: p in pvcs ==> OwnedBy(dc, n, users, p) || Others(st, att, n, p))
    && (forall p :: p in st.pvcs && Others(st, att, n, p) ==> p in pvcs)
    && (forall u :: u in users ==> u.pvc in pvcs)
    && (Supervised(dc.meta.sourceType) ==> AppRootVolumeName(n) in PvcNames(pvcs))
  }

  lemma NameListed(pvcs: seq<PVC>, p: PVC)
    requires p in pvcs
    ensures p.name in PvcNames(pvcs)
  {
    var i :| 0 <= i < |pvcs| && pvcs[i] == p;
    assert PvcNames(pvcs)[i] == p.name;
  }

  lemma RootsKept(st: ClusterState, att: map<string, seq<Attachment>>, n: string, pvcs: seq<PVC>, m: string)
    requires Inv(st, att) && m in st.dcs && m != n && Supervised(st.dcs[m].meta.sourceType)
    requires forall p :: p in st.pvcs && Others(st, att, n, p) ==> p in pvcs
    ensures AppRootVolumeName(m) in PvcNames(pvcs)
  {
    var p := NamedPvcExists(st.pvcs, AppRootVolumeName(m));
    RootClaimsOnly(st, att, m, p);
    assert OwnedBy(st.dcs[m], m, att[m], p);
    NameListed(pvcs, p);
  }

  lemma StillOwned(st: ClusterState, att: map<string, seq<Attachment>>, n: string, dc: DC, users: seq<Attachment>,
                   next: ClusterState, p: PVC)
    requires next.dcs == st.dcs[n := dc] && (OwnedBy(dc, n, users, p) || Others(st, att, n, p))
    ensures Owned(next, att[n := users], p)
  {
    if OwnedBy(dc, n, users, p) {
      assert n in next.dcs && n in att[n := users] && OwnedBy(next.dcs[n], n, att[n := users][n], p);
    } else {
      var m :| m != n && m in st.dcs && m in att && OwnedBy(st.dcs[m], m, att[m], p);
      assert m in next.dcs && m in att[n := users] && OwnedBy(next.dcs[m], m, att[n := users][m], p);
    }
  }

  lemma AttachedElsewhere(st: ClusterState, att: map<string, seq<Attachment>>, n: string, m: string, u: Attachment)
    requires Inv(st, att) && m in st.dcs && m != n && u in att[m]
    ensures u.pvc in st.pvcs && Others(st, att, n, u.pvc)
  {
    assert OwnedBy(st.dcs[m], m, att[m], u.pvc);
  }

  lemma ClaimsReassembled(st: ClusterState, att: map<string, seq<Attachment>>, n: string, dc: DC,
                          users: seq<Attachment>, next: ClusterState)
    requires Inv(st, att) && next.dcs == st.dcs[n := dc] && ClaimsFit(st, att, n, dc, users, next.pvcs)
    ensures ClaimsOk(next, att[n := users])
  {
    var att' := att[n := users];
    forall p | p in next.pvcs ensures Owned(next, att', p) {
      StillOwned(st, att, n, dc, users, next, p);
    }
    forall m: string, u: Attachment | m in next.dcs && m in att' && u in att'[m] ensures u.pvc in next.pvcs {
      if m != n {
        AttachedElsewhere(st, att, n, m, u);
      }
    }
    forall m | m in next.dcs && Supervised(next.dcs[m].meta.sourceType)
      ensures AppRootVolumeName(m) in PvcNames(next.pvcs)
    {
      if m != n {
        RootsKept(st, att, n, next.pvcs, m);
      }
    }
  }

  lemma ComponentsReassembled(dcs: map<string, DC>, att: map<string, seq<Attachment>>, n: string, dc: DC,
                              users: seq<Attachment>)
    requires AllComponentsOk(dcs, att) && ComponentOk(dc, n, users)
    ensures AllComponentsOk(dcs[n := dc], att[n := users])
  {
    assert dcs[n := dc].Keys == att[n := users].Keys;
  }

  /** A step that changes one component fits the invariant piece by piece. */
  lemma Reassembled(st: ClusterState, att: map<string, seq<Attachment>>, n: string, dc: DC, users: seq<Attachment>,
                    next: ClusterState)
    requires Inv(st, att) && next.dcs == st.dcs[n := dc]
    requires ComponentOk(dc, n, users) && BuildsOk(next) && ClaimsFit(st, att, n, dc, users, next.pvcs)
    ensures Inv(next, att[n := users])
  {
    ClaimsReassembled(st, att, n, dc, users, next);
    ComponentsReassembled(st.dcs, att, n, dc, users);
  }

  // ------------------------------------------------------------ the claims of each transition

  lemma OwnRootExists(st: ClusterState, att: map<string, seq<Attachment>>, n: string) returns (p: PVC)
    requires Inv(st, att) && n in st.dcs && Supervised(st.dcs[n].meta.sourceType)
    ensures p in st.pvcs && p.name == AppRootVolumeName(n) && OwnRoot(st, n, p)
  {
    p := NamedPvcExists(st.pvcs, AppRootVolumeName(n));
    RootClaimsOnly(st, att, n, p);
  }

  /** The push of one component, with the attachments it leads to. */
  datatype PushRun = PushRun(items: seq<Storage>, component: string, application: string, canon: Canon,
                       pushed: Pushed, requests: seq<MountRequest>)

  ghost predicate PushedFor(st: ClusterState, users: seq<Attachment>, k: PushRun) {
    Pushing(st.pvcs, users, k.items, k.component, k.application, k.canon, k.pushed, k.requests)
  }

  function AfterPush(users: seq<Attachment>, k: PushRun): seq<Attachment> {
    After(users, k.pushed.unmount, k.requests)
  }

  ghost predicate UsersOf(st: ClusterState, att: map<string, seq<Attachment>>, n: string, users: seq<Attachment>) {
    users == if n in st.dcs && n in att then att[n] else []
  }

  /** Claims by owner: what component `n` will have attached, its old source data, and the claims of
      other components, of which none is lost. */
  ghost predicate Accounted(st: ClusterState, att: map<string, seq<Attachment>>, n: string, users: seq<Attachment>,
                            pvcs: seq<PVC>)
  {
    && Distinct(PvcNames(pvcs))
    && (forall p :: p in pvcs ==> Attached(users, p) || (p in st.pvcs && OwnRoot(st, n, p)) || Others(st, att, n, p))
    && (forall p :: p in st.pvcs && (OwnRoot(st, n, p) || Others(st, att, n, p)) ==> p in pvcs)
    && (forall u :: u in users ==> u.pvc in pvcs)
  }

  lemma PushAccounted(st: ClusterState, att: map<string, seq<Attachment>>, n: string, users: seq<Attachment>,
                      k: PushRun)
    requires Inv(st, att) && UsersOf(st, att, n, users) && PushedFor(st, users, k)
    ensures Accounted(st, att, n, AfterPush(users, k), k.pushed.pvcs)
  {
    forall p
      ensures p in k.pushed.pvcs ==>
                Attached(AfterPush(users, k), p) || (p in st.pvcs && OwnRoot(st, n, p)) || Others(st, att, n, p)
      ensures p in st.pvcs && (OwnRoot(st, n, p) || Others(st, att, n, p)) ==> p in k.pushed.pvcs
    {
      PushedClaims(st, att, n, users, k.items, k.component, k.application, k.canon, k.pushed, k.requests, p);
    }
    AfterIsGood(st.pvcs, users, k.items, k.component, k.application, k.canon, k.pushed, k.requests);
  }

  lemma FitWithRoot(st: ClusterState, att: map<string, seq<Attachment>>, n: string, users: seq<Attachment>, dc: DC,
                    pvcs: seq<PVC>, root: PVC)
    requires Accounted(st, att, n, users, pvcs) && Supervised(dc.meta.sourceType)
    requires root in st.pvcs && OwnRoot(st, n, root)
    ensures ClaimsFit(st, att, n, dc, users, pvcs)
  {
    NameListed(pvcs, root);
  }

  lemma FitWithoutRoot(st: ClusterState, att: map<string, seq<Attachment>>, n: string, users: seq<Attachment>, dc: DC,
                       pvcs: seq<PVC>)
    requires Accounted(st, att, n, users, pvcs) && !Supervised(dc.meta.sourceType)
    requires n in st.dcs ==> !Supervised(st.dcs[n].meta.sourceType)
    ensures ClaimsFit(st, att, n, dc, users, pvcs)
  {
  }

  lemma FitRootAdded(st: ClusterState, att: map<string, seq<Attachment>>, n: string, users: seq<Attachment>, dc: DC,
                     pvcs: seq<PVC>, root: PVC)
    requires Accounted(st, att, n, users, pvcs) && (n in st.dcs ==> !Supervised(st.dcs[n].meta.sourceType))
    requires Supervised(dc.meta.sourceType) && RootClaim(root, n) && root.name !in PvcNames(pvcs)
    ensures ClaimsFit(st, att, n, dc, users, pvcs + [root])
  {
    assert PvcNames(pvcs + [root]) == PvcNames(pvcs) + [root.name];
    NameListed(pvcs + [root], root);
  }

  lemma RootIsNotOthers(st: ClusterState, att: map<string, seq<Attachment>>, n: string, p: PVC)
    requires Inv(st, att) && Others(st, att, n, p)
    ensures p.name != AppRootVolumeName(n)
  {
    var m :| m != n && m in st.dcs && m in att && OwnedBy(st.dcs[m], m, att[m], p);
    if p.name == AppRootVolumeName(n) {
      RootOwner(st.dcs[m], m, att[m], n, p);
    }
  }

  lemma FitRootDeleted(st: ClusterState, att: map<string, seq<Attachment>>, n: string, users: seq<Attachment>, dc: DC,
                       pvcs: seq<PVC>)
    requires Accounted(st, att, n, users, pvcs) && !Supervised(dc.meta.sourceType)
    requires forall p :: Others(st, att, n, p) ==> p.name != AppRootVolumeName(n)
    requires forall u :: u in users ==> u.pvc.name != AppRootVolumeName(n)
    ensures ClaimsFit(st, att, n, dc, users, Without(pvcs, NamedPvc(AppRootVolumeName(n))))
  {
    WithoutMembers(pvcs, NamedPvc(AppRootVolumeName(n)));
    WithoutDistinct(NameOfPvc, pvcs, NamedPvc(AppRootVolumeName(n)));
  }

  // ------------------------------------------------------------ the build configs

  ghost predicate SameOwnerLabels(a: Labels, b: Labels) {
    && ComponentName in a && ApplicationName in a && ComponentName in b && ApplicationName in b
    && a[ComponentName] == b[ComponentName] && a[ApplicationName] == b[ApplicationName]
  }

  lemma BuildsStay(st: ClusterState, n: string, dc: DC, next: ClusterState)
    requires BuildsOk(st) && next.dcs == st.dcs[n := dc] && next.bcs == st.bcs
    requires if n in st.dcs then dc.meta.sourceType == GIT <==> st.dcs[n].meta.sourceType == GIT
             else dc.meta.sourceType != GIT
    requires Identified(dc.meta.labels, n)
    requires n in st.dcs ==> SameOwnerLabels(dc.meta.labels, st.dcs[n].meta.labels)
    ensures BuildsOk(next)
  {
  }

  lemma BuildsAdded(st: ClusterState, n: string, dc: DC, next: ClusterState)
    requires BuildsOk(st) && next.dcs == st.dcs[n := dc] && next.bcs == st.bcs[n := dc.meta.labels]
    requires dc.meta.sourceType == GIT && Identified(dc.meta.labels, n)
    ensures BuildsOk(next)
  {
  }

  /** Deleting the build config by all the labels of the component, image type and version included,
      deletes the component's own and no other, exactly if those labels are still its own. */
  lemma BuildsDeletedIff(st: ClusterState, n: string, dc: DC, next: ClusterState)
    requires BuildsOk(st) && n in st.dcs && st.dcs[n].meta.sourceType == GIT
    requires next.dcs == st.dcs[n := dc] && dc.meta.sourceType != GIT
    requires next.bcs == DeleteBuildConfigs(st.bcs, dc.meta.labels) && Identified(dc.meta.labels, n)
    ensures n in st.bcs
    ensures BuildsOk(next) <==> Matches(st.bcs[n], dc.meta.labels)
  {
    var labels := dc.meta.labels;
    forall m | m in st.bcs && m != n ensures !Matches(st.bcs[m], labels) {
      OnlyOwnMatches(st.bcs[m], m, labels, n);
    }
    BuildsWithoutIff(st, n, dc, next);
  }

  lemma OnlyOwnMatches(a: Labels, m: string, labels: Labels, n: string)
    requires Identified(a, m) && Identified(labels, n) && m != n
    ensures !Matches(a, labels)
  {
    assert labels[ComponentName] != "" && labels[ApplicationName] != "";
    assert ComponentName in labels && ApplicationName in labels;
  }

  lemma BuildsWithoutIff(st: ClusterState, n: string, dc: DC, next: ClusterState)
    requires BuildsOk(st) && n in st.dcs && st.dcs[n].meta.sourceType == GIT && n in st.bcs
    requires next.dcs == st.dcs[n := dc] && dc.meta.sourceType != GIT
    requires next.bcs == DeleteBuildConfigs(st.bcs, dc.meta.labels)
    requires forall m :: m in st.bcs && m != n ==> !Matches(st.bcs[m], dc.meta.labels)
    ensures BuildsOk(next) <==> Matches(st.bcs[n], dc.meta.labels)
  {
    if Matches(st.bcs[n], dc.meta.labels) {
      assert next.bcs == st.bcs - {n};
      BuildsWithout(st, n, dc, next);
    } else {
      assert n in next.bcs && n in next.dcs;
    }
  }

  lemma BuildsWithout(st: ClusterState, n: string, dc: DC, next: ClusterState)
    requires BuildsOk(st) && next.dcs == st.dcs[n := dc] && dc.meta.sourceType != GIT && next.bcs == st.bcs - {n}
    ensures BuildsOk(next)
  {
  }
}
