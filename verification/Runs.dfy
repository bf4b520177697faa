// Creation and update as steps of a run: when a step keeps the invariant, and what every run keeps.

module Runs {
  import opened Cluster
  import opened Component
  import opened Deployment
  import opened EnvVars
  import opened GoSlice
  import opened Images
  import opened Invariant
  import opened Lists
  import opened Moves
  import opened Names
  import opened Objects
  import opened Ports
  import opened PushEffects
  import opened Results
  import opened Shapes
  import opened StorageSync
  import opened Updates
  import opened UserStorage

  // ------------------------------------------------------------ reading off the steps

  ghost predicate LabelledFor(labels: Labels, cfg: Config, n: string) {
    && Identified(labels, n) && StorageName !in labels
    && labels[ComponentName] == cfg.name && labels[ApplicationName] == cfg.application
  }

  lemma MetaIdentified(cfg: Config, n: string, image: ImageRef, t: SrcType)
    requires NamespaceOpenShiftObject(cfg.name, cfg.application) == Ok(n)
    ensures LabelledFor(MetaFor(cfg, n, image, t).labels, cfg, n)
  {
  }

  /** The patch an update applies. */
  ghost predicate PatchFor(p: Patch, cfg: Config, n: string, requests: seq<MountRequest>,
                           unmount: map<string, string>) {
    && p.requests == requests && p.unmount == unmount && ParseImageName(cfg.imageType).Ok?
    && p.meta == MetaFor(cfg, n, ParseImageName(cfg.imageType).value, cfg.sourceType)
  }

  lemma PushFindsComponent(st: ClusterState, att: map<string, seq<Attachment>>, cfg: Config, canon: Canon, n: string)
    requires Inv(st, att) && PushStorage(st, cfg.storage, cfg.name, cfg.application, true, canon).Ok?
    requires NamespaceOpenShiftObject(cfg.name, cfg.application) == Ok(n)
    ensures n in st.dcs && LabelsMatch(st.dcs[n].meta.labels, cfg)
    ensures ComponentOk(st.dcs[n], n, att[n])
  {
    InvIdentifies(st, att);
    SelectedIsNamed(st.dcs, cfg.name, cfg.application, n);
  }

  ghost predicate LabelsMatch(labels: Labels, cfg: Config) {
    && ComponentName in labels && ApplicationName in labels
    && labels[ComponentName] == cfg.name && labels[ApplicationName] == cfg.application
  }

  lemma UpdateSplits(st: ClusterState, att: map<string, seq<Attachment>>, cfg: Config, world: World,
                     requests: seq<MountRequest>, canon: Canon) returns (n: string, pushed: Pushed, p: Patch)
    requires Inv(st, att) && UpdateComponent(st, cfg, world, requests, canon).Ok?
    ensures NamespaceOpenShiftObject(cfg.name, cfg.application) == Ok(n)
    ensures n in st.dcs && LabelsMatch(st.dcs[n].meta.labels, cfg) && ComponentOk(st.dcs[n], n, att[n])
    ensures PushStorage(st, cfg.storage, cfg.name, cfg.application, true, canon) == Ok(pushed)
    ensures PatchFor(p, cfg, n, requests, pushed.unmount)
    ensures UpdateComponent(st, cfg, world, requests, canon)
         == Move(st.(pvcs := pushed.pvcs), st.dcs[n], st.dcs[n].containers[0], p, cfg.source, world, canon)
  {
    pushed := PushStorage(st, cfg.storage, cfg.name, cfg.application, true, canon).value;
    n := NamespaceOpenShiftObject(cfg.name, cfg.application).value;
    PushFindsComponent(st, att, cfg, canon, n);
    p := UpdateForm(st, cfg, world, requests, canon, n, pushed);
  }

  lemma PreparedIs(dcs: map<string, DC>, cfg: Config, requests: seq<MountRequest>, unmount: map<string, string>,
                   canon: Canon, n: string)
    requires NamespaceOpenShiftObject(cfg.name, cfg.application) == Ok(n) && n in dcs
    requires |dcs[n].containers| == 1 && dcs[n].containers[0].name == n
    requires PrepareUpdate(dcs, cfg, requests, unmount, canon).Ok?
    ensures var u := PrepareUpdate(dcs, cfg, requests, unmount, canon).value;
            u.current == dcs[n] && u.container == dcs[n].containers[0] && PatchFor(u.patch, cfg, n, requests, unmount)
  {
    assert FindContainer(dcs[n].containers, n) == Ok(dcs[n].containers[0]);
  }

  lemma UpdateForm(st: ClusterState, cfg: Config, world: World, requests: seq<MountRequest>, canon: Canon, n: string,
                   pushed: Pushed) returns (p: Patch)
    requires NamespaceOpenShiftObject(cfg.name, cfg.application) == Ok(n) && n in st.dcs
    requires |st.dcs[n].containers| == 1 && st.dcs[n].containers[0].name == n
    requires PushStorage(st, cfg.storage, cfg.name, cfg.application, true, canon) == Ok(pushed)
    requires UpdateComponent(st, cfg, world, requests, canon).Ok?
    ensures PatchFor(p, cfg, n, requests, pushed.unmount)
    ensures UpdateComponent(st, cfg, world, requests, canon)
         == Move(st.(pvcs := pushed.pvcs), st.dcs[n], st.dcs[n].containers[0], p, cfg.source, world, canon)
  {
    PreparedIs(st.dcs, cfg, requests, pushed.unmount, canon, n);
    p := PrepareUpdate(st.dcs, cfg, requests, pushed.unmount, canon).value.patch;
  }

  lemma AddOrRemoveKeepsMeta(dc: DC, requests: seq<MountRequest>, paths: map<string, string>)
    requires |dc.containers| == 1 && AddOrRemove(dc, requests, paths).Ok?
    ensures AddOrRemove(dc, requests, paths).value.meta == dc.meta
  {
    AddOrRemoveForm(dc, requests, paths);
  }

  ghost predicate PvcsMoved(before: seq<PVC>, oldType: SrcType, meta: Meta, after: seq<PVC>) {
    var root := AppRootVolumeName(meta.name);
    if Supervised(oldType) && meta.sourceType == GIT then after == Without(before, NamedPvc(root))
    else if oldType == GIT && Supervised(meta.sourceType) then
      root !in PvcNames(before) && exists size :: after == before + [PVC(root, size, meta.labels)]
    else after == before
  }

  ghost predicate BuildsMoved(before: map<string, Labels>, oldType: SrcType, meta: Meta, after: map<string, Labels>) {
    if Supervised(oldType) && meta.sourceType == GIT then after == before[meta.name := meta.labels]
    else if oldType == GIT && Supervised(meta.sourceType) then after == DeleteBuildConfigs(before, meta.labels)
    else after == before
  }

  /** What a successful move makes of the three kinds of objects. */
  ghost predicate Moved(st: ClusterState, current: DC, p: Patch, world: World, next: ClusterState) {
    && |current.containers| == 1
    && PatchedFor(current, p, LookUpS2I(world)).Ok? && (p.meta.sourceType != GIT ==> LookUpS2I(world).Ok?)
    && next.dcs == st.dcs[p.meta.name := PatchedFor(current, p, LookUpS2I(world)).value]
    && PvcsMoved(st.pvcs, current.meta.sourceType, p.meta, next.pvcs)
    && BuildsMoved(st.bcs, current.meta.sourceType, p.meta, next.bcs)
    && next.secrets == st.secrets
  }

  /** What a successful move writes, once its DC is known to keep the metadata of the patch. */
  lemma MoveWrites(st: ClusterState, current: DC, p: Patch, source: string, world: World, canon: Canon)
    requires |current.containers| == 1 && current.meta.sourceType != NONE && p.meta.sourceType != NONE
    requires PatchedFor(current, p, LookUpS2I(world)).Ok? ==>
               PatchedFor(current, p, LookUpS2I(world)).value.meta == p.meta
    requires Move(st, current, current.containers[0], p, source, world, canon).Ok?
    ensures Moved(st, current, p, world, Move(st, current, current.containers[0], p, source, world, canon).value)
  {
    if current.meta.sourceType == GIT && p.meta.sourceType != GIT {
      var size := canon(APP_ROOT_SIZE).value;
      assert Move(st, current, current.containers[0], p, source, world, canon).value.pvcs
          == st.pvcs + [PVC(AppRootVolumeName(p.meta.name), size, p.meta.labels)];
    }
  }

  lemma MoveForm(st: ClusterState, current: DC, users: seq<Attachment>, p: Patch, source: string, world: World,
                 canon: Canon)
    requires Shaped(current, Supervised(current.meta.sourceType), users) && current.meta.sourceType != NONE
    requires p.meta.name == current.meta.name && p.meta.sourceType != NONE
    requires Move(st, current, current.containers[0], p, source, world, canon).Ok?
    ensures Moved(st, current, p, world, Move(st, current, current.containers[0], p, source, world, canon).value)
  {
    BaseIsBare(current, users, p, LookUpS2I(world));
    var base := WithUsers(BaseFor(current, p, LookUpS2I(world)), Supervised(p.meta.sourceType), users);
    if PatchedFor(current, p, LookUpS2I(world)).Ok? {
      AddOrRemoveKeepsMeta(base, p.requests, p.unmount);
    }
    MoveWrites(st, current, p, source, world, canon);
  }

  // ------------------------------------------------------------ one update

  /** The source data of `n` is its own and there when it should be. */
  ghost predicate RootsApart(st: ClusterState, att: map<string, seq<Attachment>>, n: string)
    requires n in st.dcs
  {
    && (forall p :: Others(st, att, n, p) ==> p.name != AppRootVolumeName(n))
    && (Supervised(st.dcs[n].meta.sourceType) ==> exists p :: p in st.pvcs && OwnRoot(st, n, p))
  }

  lemma InvRootsApart(st: ClusterState, att: map<string, seq<Attachment>>, n: string)
    requires Inv(st, att) && n in st.dcs
    ensures RootsApart(st, att, n)
  {
    forall p | Others(st, att, n, p) ensures p.name != AppRootVolumeName(n) {
      RootIsNotOthers(st, att, n, p);
    }
    if Supervised(st.dcs[n].meta.sourceType) {
      var p := OwnRootExists(st, att, n);
    }
  }

  /** The claims after a move, for the DC it wrote. */
  lemma MovedClaims(st: ClusterState, att: map<string, seq<Attachment>>, n: string, users: seq<Attachment>, dc: DC,
                    pvcs: seq<PVC>, after: seq<PVC>)
    requires n in st.dcs && RootsApart(st, att, n) && Accounted(st, att, n, users, pvcs)
    requires PvcsMoved(pvcs, st.dcs[n].meta.sourceType, dc.meta, after) && dc.meta.name == n
    requires st.dcs[n].meta.sourceType != NONE && dc.meta.sourceType != NONE
    requires StorageName !in dc.meta.labels && forall u :: u in users ==> u.pvc.name != AppRootVolumeName(n)
    ensures ClaimsFit(st, att, n, dc, users, after)
  {
    var oldType, newType := st.dcs[n].meta.sourceType, dc.meta.sourceType;
    if Supervised(oldType) && newType == GIT {
      FitRootDeleted(st, att, n, users, dc, pvcs);
    } else if oldType == GIT && Supervised(newType) {
      RootAdded(st, att, n, users, dc, pvcs, after);
    } else if Supervised(newType) {
      var root :| root in st.pvcs && OwnRoot(st, n, root);
      FitWithRoot(st, att, n, users, dc, pvcs, root);
    } else {
      FitWithoutRoot(st, att, n, users, dc, pvcs);
    }
  }

  lemma RootAdded(st: ClusterState, att: map<string, seq<Attachment>>, n: string, users: seq<Attachment>, dc: DC,
                  pvcs: seq<PVC>, after: seq<PVC>)
    requires Accounted(st, att, n, users, pvcs) && n in st.dcs && st.dcs[n].meta.sourceType == GIT
    requires Supervised(dc.meta.sourceType) && PvcsMoved(pvcs, GIT, dc.meta, after) && dc.meta.name == n
    requires StorageName !in dc.meta.labels
    ensures ClaimsFit(st, att, n, dc, users, after)
  {
    var size :| after == pvcs + [PVC(AppRootVolumeName(n), size, dc.meta.labels)];
    FitRootAdded(st, att, n, users, dc, pvcs, PVC(AppRootVolumeName(n), size, dc.meta.labels));
  }

  /** The build configs are right exactly if a git component that becomes local or binary still has
      its build config under the labels it is deleted by. */
  ghost predicate SameBuildLabels(st: ClusterState, n: string, meta: Meta)
    requires n in st.dcs
  {
    st.dcs[n].meta.sourceType == GIT && meta.sourceType != GIT ==> n in st.bcs && Matches(st.bcs[n], meta.labels)
  }

  lemma MovedBuildsIff(st: ClusterState, n: string, dc: DC, next: ClusterState)
    requires BuildsOk(st) && n in st.dcs && st.dcs[n].meta.sourceType != NONE && next.dcs == st.dcs[n := dc]
    requires BuildsMoved(st.bcs, st.dcs[n].meta.sourceType, dc.meta, next.bcs)
    requires dc.meta.name == n && dc.meta.sourceType != NONE && Identified(dc.meta.labels, n)
    requires SameOwnerLabels(dc.meta.labels, st.dcs[n].meta.labels)
    ensures BuildsOk(next) <==> SameBuildLabels(st, n, dc.meta)
  {
    var oldType, newType := st.dcs[n].meta.sourceType, dc.meta.sourceType;
    if Supervised(oldType) && newType == GIT {
      BuildsAdded(st, n, dc, next);
    } else if oldType == GIT && Supervised(newType) {
      BuildsDeletedIff(st, n, dc, next);
    } else {
      BuildsStay(st, n, dc, next);
    }
  }

  lemma AllAreStorageClaims(st: ClusterState, users: seq<Attachment>, before: Labels, labels: Labels, k: PushRun,
                            cfg: Config)
    requires PushedFor(st, users, k) && k.component == cfg.name && k.application == cfg.application
    requires LabelsMatch(before, cfg) && LabelsMatch(labels, cfg)
    requires forall u :: u in users ==> StorageClaim(u.pvc, before)
    ensures forall u :: u in AfterPush(users, k) ==> StorageClaim(u.pvc, labels)
  {
    WithoutMembers(users, AttachedAt(k.pushed.unmount));
    forall r | r in k.requests ensures StorageClaim(r.pvc, labels) {
      NewAreStorageClaims(st.pvcs, users, k.items, k.component, k.application, k.canon, k.pushed, k.requests, labels,
                          r);
    }
  }

  lemma DroppedAreNoBasePaths(users: seq<Attachment>, k: PushRun, pvcs: seq<PVC>)
    requires Pushing(pvcs, users, k.items, k.component, k.application, k.canon, k.pushed, k.requests)
    ensures NoBasePath(k.pushed.unmount)
  {
  }

  /** The move that follows a push, in full. */
  lemma MoveKeepsInvIff(st: ClusterState, att: map<string, seq<Attachment>>, n: string, cfg: Config, k: PushRun,
                        p: Patch, world: World, next: ClusterState)
    requires Inv(st, att) && n in st.dcs && ComponentOk(st.dcs[n], n, att[n]) && LabelsMatch(st.dcs[n].meta.labels, cfg)
    requires PushedFor(st, att[n], k) && k.component == cfg.name && k.application == cfg.application
    requires Moved(st.(pvcs := k.pushed.pvcs), st.dcs[n], p, world, next)
    requires p.meta.name == n && LabelledFor(p.meta.labels, cfg, n) && p.meta.sourceType != NONE
    requires p.unmount == k.pushed.unmount && p.requests == k.requests
    ensures Inv(next, att[n := AfterPush(att[n], k)])
            <==> RangeSafe(att[n], AttachedAt(p.unmount)) && SameBuildLabels(st, n, p.meta)
  {
    var users, current := att[n], st.dcs[n];
    var users' := AfterPush(users, k);
    DroppedAreNoBasePaths(users, k, st.pvcs);
    TransitionIff(current, users, p, LookUpS2I(world));
    BaseIsBare(current, users, p, LookUpS2I(world));
    var dc := next.dcs[n];
    var base := BaseFor(current, p, LookUpS2I(world));
    AddOrRemoveKeepsMeta(WithUsers(base, Supervised(p.meta.sourceType), users), p.requests, p.unmount);
    MovedBuildsIff(st, n, dc, next);
    if RangeSafe(users, AttachedAt(p.unmount)) && SameBuildLabels(st, n, p.meta) {
      SafeMoveKeepsInv(st, att, n, cfg, k, p, world, next, base);
    }
    if Inv(next, att[n := users']) {
      InvShapes(next, att[n := users'], n);
    }
  }

  lemma InvShapes(st: ClusterState, att: map<string, seq<Attachment>>, n: string)
    requires Inv(st, att) && n in st.dcs
    ensures Shaped(st.dcs[n], Supervised(st.dcs[n].meta.sourceType), att[n]) && BuildsOk(st)
  {
  }

  lemma SafeMoveKeepsInv(st: ClusterState, att: map<string, seq<Attachment>>, n: string, cfg: Config, k: PushRun,
                         p: Patch, world: World, next: ClusterState, base: DC)
    requires Inv(st, att) && n in st.dcs && ComponentOk(st.dcs[n], n, att[n]) && LabelsMatch(st.dcs[n].meta.labels, cfg)
    requires PushedFor(st, att[n], k) && k.component == cfg.name && k.application == cfg.application
    requires Moved(st.(pvcs := k.pushed.pvcs), st.dcs[n], p, world, next) && BuildsOk(next)
    requires p.meta.name == n && LabelledFor(p.meta.labels, cfg, n) && p.meta.sourceType != NONE
    requires |base.containers| == 1 && base.containers[0].name == n && base.meta == p.meta
    requires base.initContainers == BaseInits(Supervised(p.meta.sourceType), n)
    requires next.dcs[n] == WithUsers(base, Supervised(p.meta.sourceType), AfterPush(att[n], k))
    ensures Inv(next, att[n := AfterPush(att[n], k)])
  {
    var users, dc := AfterPush(att[n], k), next.dcs[n];
    assert UsersOf(st, att, n, att[n]);
    PushAccounted(st, att, n, att[n], k);
    AfterIsGood(st.pvcs, att[n], k.items, k.component, k.application, k.canon, k.pushed, k.requests);
    AllAreStorageClaims(st, att[n], st.dcs[n].meta.labels, p.meta.labels, k, cfg);
    ShapedWithUsers(base, Supervised(p.meta.sourceType), users);
    assert ComponentOk(dc, n, users);
    forall u | u in users ensures u.pvc.name != AppRootVolumeName(n) {
      StorageClaimIsNoRoot(u.pvc, p.meta.labels, n);
    }
    InvRootsApart(st, att, n);
    MovedClaims(st, att, n, users, dc, k.pushed.pvcs, next.pvcs);
    Reassembled(st, att, n, dc, users, next);
  }

  // ------------------------------------------------------------ the update theorem

  /** An attachment whose storage the config no longer has. */
  function DroppedBy(config: map<string, Storage>): Attachment -> bool {
    (u: Attachment) => StorageNameOf(u) !in config
  }

  lemma SafeAgree(users: seq<Attachment>, p: Attachment -> bool, q: Attachment -> bool)
    requires forall u :: u in users ==> p(u) == q(u)
    ensures RangeSafe(users, p) <==> RangeSafe(users, q)
  {
    assert forall k :: 0 <= k < |users| ==> users[k] in users;
  }

  function Key(cfg: Config): string {
    match NamespaceOpenShiftObject(cfg.name, cfg.application) case Ok(n) => n case Err(_) => ""
  }

  /** What must be known before an update for it to keep the invariant: the storages to drop can be
      removed by the range loop, and a git component that moves still has the image it was built for. */
  ghost predicate SafeUpdate(st: ClusterState, att: map<string, seq<Attachment>>, cfg: Config) {
    var n := Key(cfg);
    && n in st.dcs && n in att
    && RangeSafe(att[n], DroppedBy(ByName(cfg.storage)))
    && (st.dcs[n].meta.sourceType == GIT && cfg.sourceType != GIT ==>
          n in st.bcs && ParseImageName(cfg.imageType).Ok? &&
          Matches(st.bcs[n], MetaFor(cfg, n, ParseImageName(cfg.imageType).value, cfg.sourceType).labels))
  }

  function PushOf(cfg: Config, canon: Canon, pushed: Pushed, requests: seq<MountRequest>): PushRun {
    PushRun(cfg.storage, cfg.name, cfg.application, canon, pushed, requests)
  }

  lemma UpdatePushes(st: ClusterState, att: map<string, seq<Attachment>>, n: string, cfg: Config, canon: Canon,
                     pushed: Pushed, requests: seq<MountRequest>)
    requires Inv(st, att) && n in st.dcs && ComponentOk(st.dcs[n], n, att[n]) && LabelsMatch(st.dcs[n].meta.labels, cfg)
    requires GoodStorage(cfg.storage) && Enumerates(requests, pushed.mount)
    requires PushStorage(st, cfg.storage, cfg.name, cfg.application, true, canon) == Ok(pushed)
    ensures PushedFor(st, att[n], PushOf(cfg, canon, pushed, requests))
  {
    PushEffect(st, att, n, cfg.storage, canon, cfg.name, cfg.application);
    forall u | u in att[n] ensures u.pvc in st.pvcs && StorageName in u.pvc.labels {
      AttachedIsSelected(st, att, n, u);
      SelectedStorage(st.pvcs, u.pvc);
    }
  }

  /** What is unmounted of the old attachments is what the config no longer has. */
  lemma UnmountedIffDropped(users: seq<Attachment>, k: PushRun, pvcs: seq<PVC>)
    requires Pushing(pvcs, users, k.items, k.component, k.application, k.canon, k.pushed, k.requests)
    ensures forall u :: u in users ==> AttachedAt(k.pushed.unmount)(u) == DroppedBy(ByName(k.items))(u)
  {
    forall u | u in users ensures AttachedAt(k.pushed.unmount)(u) == DroppedBy(ByName(k.items))(u) {
      KeptIff(users, ByName(k.items), k.pushed.unmount, u);
      WithoutMembers(users, AttachedAt(k.pushed.unmount));
    }
  }

  lemma DroppedAreUnmounted(users: seq<Attachment>, k: PushRun, pvcs: seq<PVC>)
    requires Pushing(pvcs, users, k.items, k.component, k.application, k.canon, k.pushed, k.requests)
    ensures RangeSafe(users, AttachedAt(k.pushed.unmount)) <==> RangeSafe(users, DroppedBy(ByName(k.items)))
    ensures Without(users, AttachedAt(k.pushed.unmount)) == Without(users, DroppedBy(ByName(k.items)))
  {
    UnmountedIffDropped(users, k, pvcs);
    SafeAgree(users, AttachedAt(k.pushed.unmount), DroppedBy(ByName(k.items)));
    WithoutAgree(users, AttachedAt(k.pushed.unmount), DroppedBy(ByName(k.items)));
  }

  /** The attachments an update should lead to: those the config still has, in order, then the new ones. */
  function Intended(users: seq<Attachment>, cfg: Config, requests: seq<MountRequest>): seq<Attachment> {
    Without(users, DroppedBy(ByName(cfg.storage))) + requests
  }

  /** UPDATE, EXACTLY. A successful update, whatever the old and the new source type, leads to a state
      that satisfies the invariant for the intended attachments if and only if SafeUpdate held before. */
  lemma UpdateKeepsInvariantIff(st: ClusterState, att: map<string, seq<Attachment>>, cfg: Config, world: World,
                                requests: seq<MountRequest>, canon: Canon)
    requires Inv(st, att) && GoodStorage(cfg.storage) && cfg.sourceType != NONE
    requires UpdateComponent(st, cfg, world, requests, canon).Ok?
    requires Enumerates(requests, PushStorage(st, cfg.storage, cfg.name, cfg.application, true, canon).value.mount)
    ensures Key(cfg) in att
    ensures Inv(UpdateComponent(st, cfg, world, requests, canon).value,
                att[Key(cfg) := Intended(att[Key(cfg)], cfg, requests)])
            <==> SafeUpdate(st, att, cfg)
  {
    var n, pushed, p := UpdateSplits(st, att, cfg, world, requests, canon);
    UpdatePushes(st, att, n, cfg, canon, pushed, requests);
    MetaIdentified(cfg, n, ParseImageName(cfg.imageType).value, cfg.sourceType);
    MoveForm(st.(pvcs := pushed.pvcs), st.dcs[n], att[n], p, cfg.source, world, canon);
    var next := UpdateComponent(st, cfg, world, requests, canon).value;
    var k := PushOf(cfg, canon, pushed, requests);
    assert Moved(st.(pvcs := pushed.pvcs), st.dcs[n], p, world, next);
    MoveKeepsInvIff(st, att, n, cfg, k, p, world, next);
    DroppedAreUnmounted(att[n], k, st.pvcs);
  }
}
