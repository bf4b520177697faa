// When creations and updates succeed. Under the invariant the conditions are all ones that a caller can
// look up beforehand: in the config, in the claims and secrets of the project, in the rest of the world.

module Progress {
  import opened Cluster
  import opened Component
  import opened Creation
  import opened Deployment
  import opened EnvVars
  import GoSlice
  import opened Images
  import opened Invariant
  import opened Lifecycle
  import opened Lists
  import opened Names
  import opened Objects
  import opened Ports
  import opened PushEffects
  import opened Results
  import opened Runs
  import Secrets
  import opened Shapes
  import opened StorageSync
  import opened Templates
  import opened Updates
  import opened UserStorage

  /** The texts of the config can be read. */
  predicate InputsOk(cfg: Config, canon: Canon) {
    && ParseImageName(cfg.imageType).Ok? && ParseResources(cfg.limits, canon).Ok?
    && (cfg.ports == [] || ParsePorts(cfg.ports).Ok?)
    && ParseEnvs(PrintEnvs(cfg.env)).Ok?
  }

  /** The component is there, under the labels it is looked up by. */
  ghost predicate Found(st: ClusterState, cfg: Config) {
    var key := NamespaceOpenShiftObject(cfg.name, cfg.application);
    key.Ok? && key.value in st.dcs && LabelsMatch(st.dcs[key.value].meta.labels, cfg)
  }

  function UsersAt(att: map<string, seq<Attachment>>, n: string): seq<Attachment> {
    if n in att then att[n] else []
  }

  /** The rest of the world plays along with a move of this DC, whose template is kept or not. */
  predicate WorldReady(current: DC, kept: bool, cfg: Config, world: World, canon: Canon) {
    if Supervised(current.meta.sourceType) && cfg.sourceType == GIT then
      world.imageStream.Ok? && world.buildOk && world.rolloutOk
    else if current.meta.sourceType == GIT && cfg.sourceType != GIT then
      LookUpS2I(world).Ok? && canon(APP_ROOT_SIZE).Some? && world.rolloutOk
    else if cfg.sourceType == GIT then cfg.source != "" && world.buildOk && world.rolloutOk
    else LookUpS2I(world).Ok? && (world.rolloutOk || (world.restUnchanged && kept))
  }

  // ------------------------------------------------------------ the move

  lemma PreparedIff(dcs: map<string, DC>, cfg: Config, requests: seq<MountRequest>, unmount: map<string, string>,
                    canon: Canon, n: string)
    requires NamespaceOpenShiftObject(cfg.name, cfg.application) == Ok(n) && n in dcs
    requires |dcs[n].containers| == 1 && dcs[n].containers[0].name == n && dcs[n].meta.sourceType != NONE
    ensures PrepareUpdate(dcs, cfg, requests, unmount, canon).Ok? <==> InputsOk(cfg, canon)
    ensures InputsOk(cfg, canon) ==>
              var patch := PatchOf(dcs[n], cfg, requests, unmount, canon);
              PrepareUpdate(dcs, cfg, requests, unmount, canon) == Ok(Prepared(dcs[n], dcs[n].containers[0], patch))
  {
    assert FindContainer(dcs[n].containers, n) == Ok(dcs[n].containers[0]);
  }

  /** The patch an update of this DC applies. */
  function PatchOf(current: DC, cfg: Config, requests: seq<MountRequest>, unmount: map<string, string>,
                   canon: Canon): Patch
    requires |current.containers| == 1 && InputsOk(cfg, canon)
  {
    Patch(MetaFor(cfg, current.containers[0].name, ParseImageName(cfg.imageType).value, cfg.sourceType),
          SpecOf(FirstSpec(current), cfg, canon), requests, unmount)
  }

  function FirstSpec(dc: DC): ContainerSpec {
    if dc.containers == [] then NO_SPEC else dc.containers[0].spec
  }

  /** Ports and resources after an update: the config's, but for ports it does not set. */
  function SpecOf(current: ContainerSpec, cfg: Config, canon: Canon): ContainerSpec
    requires InputsOk(cfg, canon)
  {
    ContainerSpec(if cfg.ports == [] then current.ports else ParsePorts(cfg.ports).value,
                  ParseResources(cfg.limits, canon).value)
  }

  lemma MoveOkIff(st: ClusterState, current: DC, p: Patch, cfg: Config, world: World, canon: Canon)
    requires |current.containers| == 1 && current.meta.sourceType != NONE && p.meta.sourceType == cfg.sourceType != NONE
    requires p.meta.name in st.bcs <==> current.meta.sourceType == GIT
    requires AppRootVolumeName(p.meta.name) in PvcNames(st.pvcs) <==> Supervised(current.meta.sourceType)
    requires var dc := PatchedFor(current, p, LookUpS2I(world));
             current.meta.sourceType == GIT && cfg.sourceType != GIT && dc.Ok? ==> !SameTemplate(current, dc.value)
    ensures var dc := PatchedFor(current, p, LookUpS2I(world));
            Move(st, current, current.containers[0], p, cfg.source, world, canon).Ok?
            <==> dc.Ok? && WorldReady(current, SameTemplate(current, dc.value), cfg, world, canon)
  {
  }

  /** Moving from git to local or binary always changes the template: it adds the init containers. */
  lemma MoveChangesTemplate(current: DC, users: seq<Attachment>, p: Patch, s2i: Result<S2IPaths>)
    requires Shaped(current, false, users) && current.meta.sourceType == GIT && Supervised(p.meta.sourceType)
    requires p.meta.name == current.meta.name && PatchedFor(current, p, s2i).Ok?
    ensures !SameTemplate(current, PatchedFor(current, p, s2i).value)
  {
    BaseIsBare(current, users, p, s2i);
    AddOrRemoveForm(WithUsers(BaseFor(current, p, s2i), true, users), p.requests, p.unmount);
  }

  /** After the push the source-data claim is there exactly if the component is not git. */
  lemma RootAfterPush(st: ClusterState, att: map<string, seq<Attachment>>, n: string, users: seq<Attachment>,
                      pvcs: seq<PVC>)
    requires Inv(st, att) && n in st.dcs && Accounted(st, att, n, users, pvcs)
    requires forall u :: u in users ==> u.pvc.name != AppRootVolumeName(n)
    ensures AppRootVolumeName(n) in PvcNames(pvcs) <==> Supervised(st.dcs[n].meta.sourceType)
  {
    InvRootsApart(st, att, n);
    RootCounted(st, att, n, users, pvcs);
  }

  lemma RootCounted(st: ClusterState, att: map<string, seq<Attachment>>, n: string, users: seq<Attachment>,
                    pvcs: seq<PVC>)
    requires n in st.dcs && RootsApart(st, att, n) && Accounted(st, att, n, users, pvcs)
    requires forall u :: u in users ==> u.pvc.name != AppRootVolumeName(n)
    ensures AppRootVolumeName(n) in PvcNames(pvcs) <==> Supervised(st.dcs[n].meta.sourceType)
  {
    if Supervised(st.dcs[n].meta.sourceType) {
      var p :| p in st.pvcs && OwnRoot(st, n, p);
      NameListed(pvcs, p);
    }
    if AppRootVolumeName(n) in PvcNames(pvcs) {
      var p := NamedPvcExists(pvcs, AppRootVolumeName(n));
      assert Attached(users, p) || (p in st.pvcs && OwnRoot(st, n, p)) || Others(st, att, n, p);
    }
  }

  lemma RootAfterOwnPush(st: ClusterState, att: map<string, seq<Attachment>>, n: string, cfg: Config, k: PushRun)
    requires Inv(st, att) && n in st.dcs && ComponentOk(st.dcs[n], n, att[n]) && LabelsMatch(st.dcs[n].meta.labels, cfg)
    requires PushedFor(st, att[n], k) && k.component == cfg.name && k.application == cfg.application
    ensures AppRootVolumeName(n) in PvcNames(k.pushed.pvcs) <==> Supervised(st.dcs[n].meta.sourceType)
  {
    var labels := st.dcs[n].meta.labels;
    assert UsersOf(st, att, n, att[n]);
    PushAccounted(st, att, n, att[n], k);
    AllAreStorageClaims(st, att[n], labels, labels, k, cfg);
    forall u | u in AfterPush(att[n], k) ensures u.pvc.name != AppRootVolumeName(n) {
      StorageClaimIsNoRoot(u.pvc, labels, n);
    }
    RootAfterPush(st, att, n, AfterPush(att[n], k), k.pushed.pvcs);
  }

  lemma InvBuilds(st: ClusterState, att: map<string, seq<Attachment>>, n: string)
    requires Inv(st, att)
    ensures n in st.bcs <==> n in st.dcs && st.dcs[n].meta.sourceType == GIT
  {
  }

  lemma LastAgree(users: seq<Attachment>, p: Attachment -> bool, q: Attachment -> bool)
    requires forall u :: u in users ==> p(u) == q(u)
    ensures GoSlice.LastAndEarlier(users, p) <==> GoSlice.LastAndEarlier(users, q)
  {
    assert forall k :: 0 <= k < |users| ==> users[k] in users;
  }

  /** The DC step succeeds unless the attachments to drop include the last one and another. */
  lemma PatchAfterPushIff(current: DC, users: seq<Attachment>, k: PushRun, pvcs: seq<PVC>, p: Patch,
                          s2i: Result<S2IPaths>)
    requires Pushing(pvcs, users, k.items, k.component, k.application, k.canon, k.pushed, k.requests)
    requires Shaped(current, Supervised(current.meta.sourceType), users) && current.meta.sourceType != NONE
    requires p.meta.name == current.meta.name && p.meta.sourceType != NONE && p.unmount == k.pushed.unmount
    ensures PatchedFor(current, p, s2i).Ok? <==> !GoSlice.LastAndEarlier(users, DroppedBy(ByName(k.items)))
  {
    DroppedAreNoBasePaths(users, k, pvcs);
    PatchSucceedsIff(current, users, p, s2i);
    UnmountedIffDropped(users, k, pvcs);
    LastAgree(users, AttachedAt(k.pushed.unmount), DroppedBy(ByName(k.items)));
  }

  /** The update keeps the pod template of a local or binary component. */
  ghost predicate KeptBy(current: DC, users: seq<Attachment>, spec: ContainerSpec, cfg: Config,
                         requests: seq<MountRequest>, world: World)
  {
    && |current.containers| == 1 && current.containers[0].spec == spec
    && current.containers[0].env == WrittenEnv(cfg.sourceType, LookUpS2I(world))
    && SameMounting(users, DroppedBy(ByName(cfg.storage)), requests)
  }

  lemma KeptAfterPushIff(current: DC, users: seq<Attachment>, k: PushRun, pvcs: seq<PVC>, p: Patch, cfg: Config,
                         world: World)
    requires Pushing(pvcs, users, k.items, k.component, k.application, k.canon, k.pushed, k.requests)
    requires Shaped(current, true, users) && Supervised(current.meta.sourceType) && Supervised(p.meta.sourceType)
    requires p.meta.name == current.meta.name && p.unmount == k.pushed.unmount && p.requests == k.requests
    requires cfg.storage == k.items && cfg.sourceType == p.meta.sourceType
    ensures var dc := PatchedFor(current, p, LookUpS2I(world));
            dc.Ok? && SameTemplate(current, dc.value) <==> KeptBy(current, users, p.spec, cfg, p.requests, world)
  {
    DroppedAreNoBasePaths(users, k, pvcs);
    UnmountedIffDropped(users, k, pvcs);
    TemplateKeptIff(current, users, p, LookUpS2I(world));
    SameMountingAgree(users, AttachedAt(p.unmount), DroppedBy(ByName(k.items)), p.requests);
  }

  lemma SameMountingAgree(users: seq<Attachment>, p: Attachment -> bool, q: Attachment -> bool,
                          requests: seq<MountRequest>)
    requires forall u :: u in users ==> p(u) == q(u)
    ensures SameMounting(users, p, requests) <==> SameMounting(users, q, requests)
  {
    assert forall k :: 0 <= k < |users| ==> users[k] in users;
  }

  lemma MoveAfterPushIff(st: ClusterState, att: map<string, seq<Attachment>>, n: string, cfg: Config, k: PushRun,
                         p: Patch, world: World)
    requires Inv(st, att) && n in st.dcs && ComponentOk(st.dcs[n], n, att[n]) && LabelsMatch(st.dcs[n].meta.labels, cfg)
    requires PushedFor(st, att[n], k) && k.component == cfg.name && k.application == cfg.application
    requires k.items == cfg.storage
    requires p.meta.name == n && p.meta.sourceType == cfg.sourceType != NONE
    requires p.unmount == k.pushed.unmount && p.requests == k.requests
    ensures Move(st.(pvcs := k.pushed.pvcs), st.dcs[n], st.dcs[n].containers[0], p, cfg.source, world, k.canon).Ok?
            <==> !GoSlice.LastAndEarlier(att[n], DroppedBy(ByName(cfg.storage))) &&
                 WorldReady(st.dcs[n], KeptBy(st.dcs[n], att[n], p.spec, cfg, p.requests, world), cfg, world, k.canon)
  {
    ObjectsAfterOwnPush(st, att, n, cfg, k);
    PatchedMoveIff(st.(pvcs := k.pushed.pvcs), st.dcs[n], att[n], k, st.pvcs, p, cfg, world);
  }

  lemma PatchedMoveIff(st: ClusterState, current: DC, users: seq<Attachment>, k: PushRun, pvcs: seq<PVC>, p: Patch,
                       cfg: Config, world: World)
    requires Pushing(pvcs, users, k.items, k.component, k.application, k.canon, k.pushed, k.requests)
    requires Shaped(current, Supervised(current.meta.sourceType), users) && current.meta.sourceType != NONE
    requires p.meta.name == current.meta.name && p.unmount == k.pushed.unmount && p.requests == k.requests
    requires cfg.storage == k.items && cfg.sourceType == p.meta.sourceType != NONE
    requires p.meta.name in st.bcs <==> current.meta.sourceType == GIT
    requires AppRootVolumeName(p.meta.name) in PvcNames(st.pvcs) <==> Supervised(current.meta.sourceType)
    ensures Move(st, current, current.containers[0], p, cfg.source, world, k.canon).Ok?
            <==> !GoSlice.LastAndEarlier(users, DroppedBy(ByName(cfg.storage))) &&
                 WorldReady(current, KeptBy(current, users, p.spec, cfg, p.requests, world), cfg, world, k.canon)
  {
    PatchAndKeepIff(current, users, k, pvcs, p, cfg, world);
    MoveOkIff(st, current, p, cfg, world, k.canon);
  }

  lemma ObjectsAfterOwnPush(st: ClusterState, att: map<string, seq<Attachment>>, n: string, cfg: Config, k: PushRun)
    requires Inv(st, att) && n in st.dcs && ComponentOk(st.dcs[n], n, att[n]) && LabelsMatch(st.dcs[n].meta.labels, cfg)
    requires PushedFor(st, att[n], k) && k.component == cfg.name && k.application == cfg.application
    ensures AppRootVolumeName(n) in PvcNames(k.pushed.pvcs) <==> Supervised(st.dcs[n].meta.sourceType)
    ensures n in st.bcs <==> st.dcs[n].meta.sourceType == GIT
  {
    RootAfterOwnPush(st, att, n, cfg, k);
    InvBuilds(st, att, n);
  }

  lemma PatchAndKeepIff(current: DC, users: seq<Attachment>, k: PushRun, pvcs: seq<PVC>, p: Patch, cfg: Config,
                        world: World)
    requires Pushing(pvcs, users, k.items, k.component, k.application, k.canon, k.pushed, k.requests)
    requires Shaped(current, Supervised(current.meta.sourceType), users) && current.meta.sourceType != NONE
    requires p.meta.name == current.meta.name && p.unmount == k.pushed.unmount && p.requests == k.requests
    requires cfg.storage == k.items && cfg.sourceType == p.meta.sourceType != NONE
    ensures var dc := PatchedFor(current, p, LookUpS2I(world));
            (dc.Ok? <==> !GoSlice.LastAndEarlier(users, DroppedBy(ByName(cfg.storage)))) &&
            (Supervised(current.meta.sourceType) && Supervised(cfg.sourceType) ==>
               (dc.Ok? && SameTemplate(current, dc.value)
                <==> KeptBy(current, users, p.spec, cfg, p.requests, world))) &&
            (current.meta.sourceType == GIT && cfg.sourceType != GIT && dc.Ok? ==> !SameTemplate(current, dc.value))
  {
    PatchAfterPushIff(current, users, k, pvcs, p, LookUpS2I(world));
    if Supervised(current.meta.sourceType) && Supervised(cfg.sourceType) {
      KeptAfterPushIff(current, users, k, pvcs, p, cfg, world);
    }
    if current.meta.sourceType == GIT && cfg.sourceType != GIT && PatchedFor(current, p, LookUpS2I(world)).Ok? {
      MoveChangesTemplate(current, users, p, LookUpS2I(world));
    }
  }

  // ------------------------------------------------------------ updates

  /** The move is accepted: the storages to drop are not the last one and another, and the world is ready. */
  ghost predicate MoveAccepted(st: ClusterState, users: seq<Attachment>, n: string, cfg: Config,
                               requests: seq<MountRequest>, world: World, canon: Canon)
    requires n in st.dcs && InputsOk(cfg, canon)
  {
    cfg.sourceType != NONE ==>
      !GoSlice.LastAndEarlier(users, DroppedBy(ByName(cfg.storage))) &&
      var kept := KeptBy(st.dcs[n], users, SpecOf(FirstSpec(st.dcs[n]), cfg, canon), cfg, requests, world);
      WorldReady(st.dcs[n], kept, cfg, world, canon)
  }

  /** An update of a component that is there, after its push. */
  lemma PushedUpdateIff(st: ClusterState, att: map<string, seq<Attachment>>, n: string, cfg: Config, world: World,
                        requests: seq<MountRequest>, canon: Canon)
    requires Inv(st, att) && n in st.dcs && ComponentOk(st.dcs[n], n, att[n]) && LabelsMatch(st.dcs[n].meta.labels, cfg)
    requires NamespaceOpenShiftObject(cfg.name, cfg.application) == Ok(n)
    requires GoodStorage(cfg.storage) && PushStorage(st, cfg.storage, cfg.name, cfg.application, true, canon).Ok?
    requires Enumerates(requests, PushStorage(st, cfg.storage, cfg.name, cfg.application, true, canon).value.mount)
    ensures UpdateComponent(st, cfg, world, requests, canon).Ok?
            <==> InputsOk(cfg, canon) && MoveAccepted(st, att[n], n, cfg, requests, world, canon)
  {
    var pushed := PushStorage(st, cfg.storage, cfg.name, cfg.application, true, canon).value;
    PreparedIff(st.dcs, cfg, requests, pushed.unmount, canon, n);
    if InputsOk(cfg, canon) {
      var p := PatchOf(st.dcs[n], cfg, requests, pushed.unmount, canon);
      PushedMoveIff(st, att, n, cfg, p, pushed, world, requests, canon);
    }
  }

  lemma PushedMoveIff(st: ClusterState, att: map<string, seq<Attachment>>, n: string, cfg: Config, p: Patch,
                      pushed: Pushed, world: World, requests: seq<MountRequest>, canon: Canon)
    requires Inv(st, att) && n in st.dcs && ComponentOk(st.dcs[n], n, att[n]) && LabelsMatch(st.dcs[n].meta.labels, cfg)
    requires GoodStorage(cfg.storage) && Enumerates(requests, pushed.mount)
    requires PushStorage(st, cfg.storage, cfg.name, cfg.application, true, canon) == Ok(pushed)
    requires p.meta.name == n && p.meta.sourceType == cfg.sourceType && p.unmount == pushed.unmount
    requires p.requests == requests
    ensures Move(st.(pvcs := pushed.pvcs), st.dcs[n], st.dcs[n].containers[0], p, cfg.source, world, canon).Ok?
            <==> (cfg.sourceType != NONE ==>
                    !GoSlice.LastAndEarlier(att[n], DroppedBy(ByName(cfg.storage))) &&
                    WorldReady(st.dcs[n], KeptBy(st.dcs[n], att[n], p.spec, cfg, requests, world), cfg, world, canon))
  {
    if cfg.sourceType == NONE {
      UntypedMove(st.(pvcs := pushed.pvcs), st.dcs[n], p, cfg.source, world, canon);
    } else {
      UpdatePushes(st, att, n, cfg, canon, pushed, requests);
      MoveAfterPushIff(st, att, n, cfg, PushOf(cfg, canon, pushed, requests), p, world);
    }
  }

  /** WHEN AN UPDATE SUCCEEDS: if and only if the component is there, its storage push is accepted, the
      config can be read, the storages to drop are not the last one attached and another, and the rest
      of the world is ready. No missing claim, build config, container or volume can make it fail. */
  lemma UpdateSucceedsIff(st: ClusterState, att: map<string, seq<Attachment>>, cfg: Config, world: World,
                          requests: seq<MountRequest>, canon: Canon)
    requires Inv(st, att) && GoodStorage(cfg.storage)
    requires PushStorage(st, cfg.storage, cfg.name, cfg.application, true, canon).Ok? ==>
               Enumerates(requests, PushStorage(st, cfg.storage, cfg.name, cfg.application, true, canon).value.mount)
    ensures UpdateComponent(st, cfg, world, requests, canon).Ok?
            <==> Found(st, cfg) && PushAccepted(st.pvcs, UsersAt(att, Key(cfg)), cfg.storage, cfg.application, canon) &&
                 InputsOk(cfg, canon) && MoveAccepted(st, UsersAt(att, Key(cfg)), Key(cfg), cfg, requests, world, canon)
  {
    if Found(st, cfg) {
      var n := Key(cfg);
      InvComponentAt(st, att, n);
      PushSucceedsIff(st, att, n, cfg.storage, canon, cfg.name, cfg.application);
      if PushStorage(st, cfg.storage, cfg.name, cfg.application, true, canon).Ok? {
        PushedUpdateIff(st, att, n, cfg, world, requests, canon);
      }
    } else if UpdateComponent(st, cfg, world, requests, canon).Ok? {
      var n, pushed, p := UpdateSplits(st, att, cfg, world, requests, canon);
    }
  }

  lemma InvComponentAt(st: ClusterState, att: map<string, seq<Attachment>>, n: string)
    requires Inv(st, att) && n in st.dcs
    ensures n in att && ComponentOk(st.dcs[n], n, att[n]) && UsersAt(att, n) == att[n]
  {
  }

  // ------------------------------------------------------------ creation

  function PortsToServe(cfg: Config, world: World): Result<seq<ContainerPort>> {
    if cfg.ports == [] then world.exposedPorts else ParsePorts(cfg.ports)
  }

  /** The cluster and the world let the creation through: the builder image is found, the service with
      one new secret per port can be made, and what the source type needs is there. */
  ghost predicate WorldReadyToCreate(secrets: seq<Secret>, cfg: Config, world: World, canon: Canon) {
    && (cfg.sourceType == LOCAL ==> world.sourceIsDir)
    && world.imageStream.Ok? && world.streamImage.Ok? && world.imageStreamCreated && world.serviceCreated
    && PortsToServe(cfg, world).Ok?
    && Secrets.PortsFree(secrets, Key(cfg), PortNumbers(PortsToServe(cfg, world).value))
    && (if CreatedType(cfg) == GIT then cfg.source != "" && world.buildOk && world.rolloutOk
        else world.s2i.Ok? && canon(APP_ROOT_SIZE).Some?)
  }

  lemma NoRootWithoutComponent(st: ClusterState, att: map<string, seq<Attachment>>, n: string, users: seq<Attachment>,
                               pvcs: seq<PVC>)
    requires Inv(st, att) && n !in st.dcs && Accounted(st, att, n, users, pvcs)
    requires forall u :: u in users ==> u.pvc.name != AppRootVolumeName(n)
    ensures AppRootVolumeName(n) !in PvcNames(pvcs)
  {
    if AppRootVolumeName(n) in PvcNames(pvcs) {
      var p := NamedPvcExists(pvcs, AppRootVolumeName(n));
      assert !OwnRoot(st, n, p);
      if Others(st, att, n, p) {
        RootIsNotOthers(st, att, n, p);
      }
    }
  }

  lemma NewRootIsFree(st: ClusterState, att: map<string, seq<Attachment>>, n: string, cfg: Config, k: PushRun,
                      labels: Labels)
    requires Inv(st, att) && n !in st.dcs && PushedFor(st, [], k) && LabelsMatch(labels, cfg)
    requires k.component == cfg.name && k.application == cfg.application
    ensures AppRootVolumeName(n) !in PvcNames(k.pushed.pvcs)
  {
    assert UsersOf(st, att, n, []);
    PushAccounted(st, att, n, [], k);
    AllAreStorageClaims(st, [], labels, labels, k, cfg);
    forall u | u in AfterPush([], k) ensures u.pvc.name != AppRootVolumeName(n) {
      StorageClaimIsNoRoot(u.pvc, labels, n);
    }
    NoRootWithoutComponent(st, att, n, AfterPush([], k), k.pushed.pvcs);
  }

  lemma ExposedIff(secrets: seq<Secret>, cfg: Config, meta: Meta, ports: seq<ContainerPort>, world: World)
    requires meta.name == Key(cfg)
    ensures ExposedSecrets(secrets, cfg.name, meta, ports, world).Ok?
            <==> world.serviceCreated && Secrets.PortsFree(secrets, Key(cfg), PortNumbers(ports))
  {
    Secrets.CreatedIff(secrets, SecretOwner(cfg.name, meta), AnnotationsOf(meta), PortNumbers(ports));
  }

  lemma PlannedOkIff(st: ClusterState, cfg: Config, plan: Plan, requests: seq<MountRequest>, world: World, canon: Canon)
    requires plan.meta.sourceType == CreatedType(cfg) && plan.meta.name !in st.bcs && plan.meta.name == Key(cfg)
    requires AppRootVolumeName(plan.meta.name) !in PvcNames(st.pvcs)
    ensures CreatePlanned(st, cfg, plan, requests, world, canon).Ok?
            <==> plan.meta.name !in st.dcs && world.serviceCreated &&
                 Secrets.PortsFree(st.secrets, Key(cfg), PortNumbers(plan.spec.ports)) &&
                 (if CreatedType(cfg) == GIT then cfg.source != "" && world.buildOk && world.rolloutOk
                  else canon(APP_ROOT_SIZE).Some?)
  {
    ExposedIff(st.secrets, cfg, plan.meta, plan.spec.ports, world);
    Moves.BasesAreShaped(plan.meta, plan.spec, plan.env, []);
    Moves.CreatedShape(GitDeployment(plan.meta, plan.spec, plan.env), false, requests);
    Moves.CreatedShape(Moves.SupervisedBase(plan.meta, plan.spec, plan.env, []), true, requests);
  }

  lemma PlanOkIff(cfg: Config, world: World, canon: Canon, n: string)
    requires NamespaceOpenShiftObject(cfg.name, cfg.application) == Ok(n)
    ensures PlanCreation(cfg, world, canon).Ok?
            <==> InputsOk(cfg, canon) && (cfg.sourceType == LOCAL ==> world.sourceIsDir) && world.imageStream.Ok? &&
                 world.streamImage.Ok? && PortsToServe(cfg, world).Ok? && world.imageStreamCreated &&
                 (CreatedType(cfg) != GIT ==> world.s2i.Ok?)
  {
  }

  /** WHEN A CREATION SUCCEEDS: if and only if the name can be formed and no component has it, the push of
      its storage is accepted, the config can be read and the cluster and the world let it through. */
  lemma CreateSucceedsIff(st: ClusterState, att: map<string, seq<Attachment>>, cfg: Config, world: World,
                          requests: seq<MountRequest>, canon: Canon)
    requires Inv(st, att) && GoodStorage(cfg.storage)
    requires PushStorage(st, cfg.storage, cfg.name, cfg.application, false, canon).Ok? ==>
               Enumerates(requests, PushStorage(st, cfg.storage, cfg.name, cfg.application, false, canon).value.mount)
    ensures CreateComponent(st, cfg, world, requests, canon).Ok?
            <==> NamespaceOpenShiftObject(cfg.name, cfg.application).Ok? && Key(cfg) !in st.dcs &&
                 PushAccepted(st.pvcs, [], cfg.storage, cfg.application, canon) &&
                 InputsOk(cfg, canon) && WorldReadyToCreate(st.secrets, cfg, world, canon)
  {
    InvClaims(st, att);
    FirstPushSucceedsIff(st, cfg.storage, canon, cfg.name, cfg.application);
    if CreateComponent(st, cfg, world, requests, canon).Ok? {
      CreateWritesIff(st, cfg, world, requests, canon);
    }
    if NamespaceOpenShiftObject(cfg.name, cfg.application).Ok? && Key(cfg) !in st.dcs &&
       PushStorage(st, cfg.storage, cfg.name, cfg.application, false, canon).Ok? {
      NewSucceedsIff(st, att, Key(cfg), cfg, world, requests, canon);
    }
  }

  lemma InvClaims(st: ClusterState, att: map<string, seq<Attachment>>)
    requires Inv(st, att)
    ensures Distinct(PvcNames(st.pvcs))
  {
  }

  lemma NewSucceedsIff(st: ClusterState, att: map<string, seq<Attachment>>, n: string, cfg: Config, world: World,
                       requests: seq<MountRequest>, canon: Canon)
    requires Inv(st, att) && GoodStorage(cfg.storage) && n !in st.dcs
    requires NamespaceOpenShiftObject(cfg.name, cfg.application) == Ok(n)
    requires PushStorage(st, cfg.storage, cfg.name, cfg.application, false, canon).Ok?
    requires Enumerates(requests, PushStorage(st, cfg.storage, cfg.name, cfg.application, false, canon).value.mount)
    ensures CreateComponent(st, cfg, world, requests, canon).Ok?
            <==> InputsOk(cfg, canon) && WorldReadyToCreate(st.secrets, cfg, world, canon)
  {
    var pushed := PushStorage(st, cfg.storage, cfg.name, cfg.application, false, canon).value;
    FirstPush(st, att, cfg, canon, pushed, requests);
    PlanOkIff(cfg, world, canon, n);
    if PlanCreation(cfg, world, canon).Ok? {
      var plan := PlanCreation(cfg, world, canon).value;
      var m := PlanFor(cfg, world, canon);
      MetaIdentified(cfg, n, ParseImageName(cfg.imageType).value, CreatedType(cfg));
      NewRootIsFree(st, att, n, cfg, PushOf(cfg, canon, pushed, requests), plan.meta.labels);
      InvBuilds(st, att, n);
      PlannedOkIff(st.(pvcs := pushed.pvcs), cfg, plan, requests, world, canon);
    }
  }
}
