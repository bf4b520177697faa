// Creating a component establishes the invariant for it, and runs of creations and updates keep it.

module Creation {
  import opened Cluster
  import opened Component
  import opened Deployment
  import opened EnvVars
  import opened Images
  import opened Invariant
  import opened Lists
  import opened Moves
  import opened Names
  import opened Objects
  import opened Ports
  import opened PushEffects
  import opened Results
  import opened Runs
  import opened Shapes
  import opened StorageSync
  import opened Updates
  import opened UserStorage

  /** A config without a source type is created as local. */
  function CreatedType(cfg: Config): SrcType {
    if cfg.sourceType == NONE then LOCAL else cfg.sourceType
  }

  /** What a successful creation adds to the cluster. */
  ghost predicate CreatedAs(st: ClusterState, pvcs: seq<PVC>, component: string, plan: Plan,
                            requests: seq<MountRequest>, world: World, next: ClusterState)
  {
    var meta := plan.meta;
    var base := if meta.sourceType == GIT then GitDeployment(meta, plan.spec, plan.env)
                else SupervisedBase(meta, plan.spec, plan.env, []);
    && meta.name !in st.dcs && |base.containers| == 1
    && next.dcs == st.dcs[meta.name := WithUsers(base, meta.sourceType != GIT, requests)]
    && ExposedSecrets(st.secrets, component, meta, plan.spec.ports, world) == Ok(next.secrets)
    && (if meta.sourceType == GIT then next.bcs == st.bcs[meta.name := meta.labels] && next.pvcs == pvcs
        else next.bcs == st.bcs && AppRootVolumeName(meta.name) !in PvcNames(pvcs) &&
             exists size :: next.pvcs == pvcs + [PVC(AppRootVolumeName(meta.name), size, meta.labels)])
  }

  lemma CreateGitForm(st: ClusterState, cfg: Config, plan: Plan, requests: seq<MountRequest>, world: World)
    requires plan.meta.sourceType == GIT && CreateGit(st, cfg, plan.meta, plan.spec, plan.env, requests, world).Ok?
    ensures CreatedAs(st, st.pvcs, cfg.name, plan, requests, world,
                      CreateGit(st, cfg, plan.meta, plan.spec, plan.env, requests, world).value)
  {
    BasesAreShaped(plan.meta, plan.spec, plan.env, []);
    Moves.CreatedShape(GitDeployment(plan.meta, plan.spec, plan.env), false, requests);
  }

  lemma CreateSupervisedForm(st: ClusterState, cfg: Config, plan: Plan, requests: seq<MountRequest>, world: World,
                             canon: Canon)
    requires plan.meta.sourceType != GIT
    requires CreateSupervised(st, cfg, plan.meta, plan.spec, plan.env, requests, world, canon).Ok?
    ensures CreatedAs(st, st.pvcs, cfg.name, plan, requests, world,
                      CreateSupervised(st, cfg, plan.meta, plan.spec, plan.env, requests, world, canon).value)
  {
    BasesAreShaped(plan.meta, plan.spec, plan.env, []);
    Moves.CreatedShape(SupervisedBase(plan.meta, plan.spec, plan.env, []), true, requests);
    var size := canon(APP_ROOT_SIZE).value;
    assert CreateSupervised(st, cfg, plan.meta, plan.spec, plan.env, requests, world, canon).value.pvcs
        == st.pvcs + [PVC(AppRootVolumeName(plan.meta.name), size, plan.meta.labels)];
  }

  lemma CreateSplits(st: ClusterState, cfg: Config, world: World, requests: seq<MountRequest>, canon: Canon)
    returns (n: string, pushed: Pushed, plan: Plan)
    requires CreateComponent(st, cfg, world, requests, canon).Ok?
    ensures NamespaceOpenShiftObject(cfg.name, cfg.application) == Ok(n)
    ensures PushStorage(st, cfg.storage, cfg.name, cfg.application, false, canon) == Ok(pushed)
    ensures PlanCreation(cfg, world, canon) == Ok(plan) && PlannedFor(plan, cfg, world, canon, n)
    ensures CreateComponent(st, cfg, world, requests, canon)
         == CreatePlanned(st.(pvcs := pushed.pvcs), cfg, plan, requests, world, canon)
  {
    pushed := PushStorage(st, cfg.storage, cfg.name, cfg.application, false, canon).value;
    plan := PlanCreation(cfg, world, canon).value;
    n := PlanFor(cfg, world, canon);
  }

  /** The variables, ports, resources and metadata a component is created with. */
  ghost predicate PlannedFor(plan: Plan, cfg: Config, world: World, canon: Canon, n: string) {
    && ParseImageName(cfg.imageType).Ok?
    && plan.meta == MetaFor(cfg, n, ParseImageName(cfg.imageType).value, CreatedType(cfg))
    && (if cfg.ports == [] then world.exposedPorts else ParsePorts(cfg.ports)) == Ok(plan.spec.ports)
    && ParseResources(cfg.limits, canon) == Ok(plan.spec.resources)
    && ParseEnvs(PrintEnvs(cfg.env)).Ok? && (CreatedType(cfg) != GIT ==> world.s2i.Ok?)
    && plan.env == (if CreatedType(cfg) == GIT then ParseEnvs(PrintEnvs(cfg.env)).value
                    else CreatedEnv(ParseEnvs(PrintEnvs(cfg.env)).value, world.s2i.value, CreatedType(cfg) == LOCAL))
  }

  lemma PlanFor(cfg: Config, world: World, canon: Canon) returns (n: string)
    requires PlanCreation(cfg, world, canon).Ok?
    ensures NamespaceOpenShiftObject(cfg.name, cfg.application) == Ok(n)
    ensures PlannedFor(PlanCreation(cfg, world, canon).value, cfg, world, canon, n)
  {
    n := NamespaceOpenShiftObject(cfg.name, cfg.application).value;
  }

  lemma CreateForm(st: ClusterState, cfg: Config, world: World, requests: seq<MountRequest>, canon: Canon)
    returns (n: string, pushed: Pushed, plan: Plan)
    requires CreateComponent(st, cfg, world, requests, canon).Ok?
    ensures NamespaceOpenShiftObject(cfg.name, cfg.application) == Ok(n)
    ensures PushStorage(st, cfg.storage, cfg.name, cfg.application, false, canon) == Ok(pushed)
    ensures PlannedFor(plan, cfg, world, canon, n)
    ensures CreatedAs(st, pushed.pvcs, cfg.name, plan, requests, world,
                      CreateComponent(st, cfg, world, requests, canon).value)
  {
    n, pushed, plan := CreateSplits(st, cfg, world, requests, canon);
    if plan.meta.sourceType == GIT {
      CreateGitForm(st.(pvcs := pushed.pvcs), cfg, plan, requests, world);
    } else {
      CreateSupervisedForm(st.(pvcs := pushed.pvcs), cfg, plan, requests, world, canon);
    }
  }

  lemma NothingKept(requests: seq<MountRequest>, k: PushRun)
    ensures AfterPush([], k) == k.requests
  {
    assert Without([], AttachedAt(k.pushed.unmount)) == [];
    assert [] + k.requests == k.requests;
  }

  lemma CreatedIsOk(meta: Meta, env: seq<EnvVar>, spec: ContainerSpec, users: seq<Attachment>, n: string)
    requires meta.name == n && Identified(meta.labels, n) && meta.sourceType != NONE && GoodUsers(users)
    requires forall u :: u in users ==> StorageClaim(u.pvc, meta.labels)
    ensures |GitDeployment(meta, spec, env).containers| == 1 == |SupervisedBase(meta, spec, env, []).containers|
    ensures var base := if meta.sourceType == GIT then GitDeployment(meta, spec, env)
                        else SupervisedBase(meta, spec, env, []);
            var dc := WithUsers(base, meta.sourceType != GIT, users);
            dc.meta == meta && ComponentOk(dc, n, users)
  {
    BasesAreShaped(meta, spec, env, []);
    var base := if meta.sourceType == GIT then GitDeployment(meta, spec, env) else SupervisedBase(meta, spec, env, []);
    ShapedWithUsers(base, meta.sourceType != GIT, users);
  }

  /** CREATION, for every source type. A successful creation leads to a state that satisfies the
      invariant, with the requested storage attached; no other component or claim changes. */
  lemma CreateKeepsInvariant(st: ClusterState, att: map<string, seq<Attachment>>, cfg: Config, world: World,
                             requests: seq<MountRequest>, canon: Canon)
    requires Inv(st, att) && GoodStorage(cfg.storage)
    requires CreateComponent(st, cfg, world, requests, canon).Ok?
    requires Enumerates(requests, PushStorage(st, cfg.storage, cfg.name, cfg.application, false, canon).value.mount)
    ensures Key(cfg) !in st.dcs
    ensures Inv(CreateComponent(st, cfg, world, requests, canon).value, att[Key(cfg) := requests])
  {
    var n, pushed, plan := CreateForm(st, cfg, world, requests, canon);
    var meta := plan.meta;
    var next := CreateComponent(st, cfg, world, requests, canon).value;
    var k := PushOf(cfg, canon, pushed, requests);
    FirstPush(st, att, cfg, canon, pushed, requests);
    MetaIdentified(cfg, n, ParseImageName(cfg.imageType).value, CreatedType(cfg));
    assert UsersOf(st, att, n, []);
    PushAccounted(st, att, n, [], k);
    NothingKept(requests, k);
    AfterIsGood(st.pvcs, [], k.items, k.component, k.application, k.canon, k.pushed, k.requests);
    AllAreStorageClaims(st, [], meta.labels, meta.labels, k, cfg);
    CreatedIsOk(meta, plan.env, plan.spec, requests, n);
    CreatedFits(st, att, n, requests, pushed.pvcs, meta, next);
    CreatedBuilds(st, att, n, meta, next);
    Reassembled(st, att, n, next.dcs[n], requests, next);
  }

  lemma FirstPush(st: ClusterState, att: map<string, seq<Attachment>>, cfg: Config, canon: Canon, pushed: Pushed,
                  requests: seq<MountRequest>)
    requires Inv(st, att) && GoodStorage(cfg.storage) && Enumerates(requests, pushed.mount)
    requires PushStorage(st, cfg.storage, cfg.name, cfg.application, false, canon) == Ok(pushed)
    ensures PushedFor(st, [], PushOf(cfg, canon, pushed, requests))
  {
    FirstPushEffect(st, cfg.storage, canon, cfg.name, cfg.application);
  }

  lemma CreatedFits(st: ClusterState, att: map<string, seq<Attachment>>, n: string, users: seq<Attachment>,
                    pvcs: seq<PVC>, meta: Meta, next: ClusterState)
    requires Accounted(st, att, n, users, pvcs) && n !in st.dcs && n in next.dcs
    requires next.dcs[n].meta == meta && meta.name == n && meta.sourceType != NONE && StorageName !in meta.labels
    requires if meta.sourceType == GIT then next.pvcs == pvcs
             else AppRootVolumeName(n) !in PvcNames(pvcs) &&
                  exists size :: next.pvcs == pvcs + [PVC(AppRootVolumeName(n), size, meta.labels)]
    ensures ClaimsFit(st, att, n, next.dcs[n], users, next.pvcs)
  {
    if meta.sourceType == GIT {
      FitWithoutRoot(st, att, n, users, next.dcs[n], pvcs);
    } else {
      var size :| next.pvcs == pvcs + [PVC(AppRootVolumeName(n), size, meta.labels)];
      FitRootAdded(st, att, n, users, next.dcs[n], pvcs, PVC(AppRootVolumeName(n), size, meta.labels));
    }
  }

  lemma CreatedBuilds(st: ClusterState, att: map<string, seq<Attachment>>, n: string, meta: Meta, next: ClusterState)
    requires BuildsOk(st) && n !in st.dcs && n in next.dcs && next.dcs == st.dcs[n := next.dcs[n]]
    requires next.dcs[n].meta == meta && Identified(meta.labels, n)
    requires next.bcs == if meta.sourceType == GIT then st.bcs[n := meta.labels] else st.bcs
    ensures BuildsOk(next)
  {
    if meta.sourceType == GIT {
      BuildsAdded(st, n, next.dcs[n], next);
    } else {
      BuildsStay(st, n, next.dcs[n], next);
    }
  }

  // ------------------------------------------------------------ the backup variable

  ghost predicate BackupOk(dc: DC) {
    |dc.containers| == 1 && (ENV_SRC_BACKUP_DIR in EnvVars.Names(dc.containers[0].env) <==> dc.meta.sourceType == LOCAL)
  }

  lemma S2INames(p: S2IPaths)
    ensures ENV_SRC_BACKUP_DIR !in EnvVars.Names(S2IEnv(p))
  {
  }

  lemma OverriddenHas(existing: seq<EnvVar>, added: seq<EnvVar>, name: string)
    ensures name in EnvVars.Names(Override(existing, added))
            <==> name in EnvVars.Names(existing) || name in EnvVars.Names(added)
  {
    OverrideLaw(existing, added);
    FirstsFacts(EnvVars.Names(existing), {});
    WithoutMembers(EnvVars.Names(added), (x: string) => x in EnvVars.Names(existing));
  }

  /** Updating sets the variable exactly for local components. */
  lemma UpdatedEnvIff(s2i: S2IPaths, isLocal: bool)
    ensures ENV_SRC_BACKUP_DIR in EnvVars.Names(UpdatedEnv(s2i, isLocal)) <==> isLocal
  {
    var base := Override([], S2IEnv(s2i));
    OverriddenHas([], S2IEnv(s2i), ENV_SRC_BACKUP_DIR);
    S2INames(s2i);
    if isLocal {
      OverriddenHas(base, [BackupVar(s2i)], ENV_SRC_BACKUP_DIR);
      assert EnvVars.Names([BackupVar(s2i)])[0] == ENV_SRC_BACKUP_DIR;
    } else {
      DeleteFirstForgetsIff(base, ENV_SRC_BACKUP_DIR);
      DeletedIsSub(base, ENV_SRC_BACKUP_DIR, ENV_SRC_BACKUP_DIR);
    }
  }

  lemma {:induction false} DeletedIsSub(l: seq<EnvVar>, name: string, x: string)
    ensures x in EnvVars.Names(DeleteFirst(l, name)) ==> x in EnvVars.Names(l)
  {
    if l != [] && l[0].name != name {
      DeletedIsSub(l[1..], name, x);
      MapConcat(NameOf, [l[0]], DeleteFirst(l[1..], name));
      MapConcat(NameOf, [l[0]], l[1..]);
      assert l == [l[0]] + l[1..];
    } else if l != [] {
      MapConcat(NameOf, [l[0]], l[1..]);
      assert l == [l[0]] + l[1..];
    }
  }

  /** Creating sets it exactly for local components, unless the user's own variables contain it. */
  lemma CreatedEnvIff(plan: Plan, cfg: Config, world: World, canon: Canon, n: string)
    requires PlannedFor(plan, cfg, world, canon, n)
    ensures ENV_SRC_BACKUP_DIR in EnvVars.Names(plan.env)
            <==> CreatedType(cfg) == LOCAL || ENV_SRC_BACKUP_DIR in EnvVars.Names(ParseEnvs(PrintEnvs(cfg.env)).value)
  {
    var given := ParseEnvs(PrintEnvs(cfg.env)).value;
    if CreatedType(cfg) != GIT {
      var s2i := world.s2i.value;
      var base := Override(given, S2IEnv(s2i));
      OverriddenHas(given, S2IEnv(s2i), ENV_SRC_BACKUP_DIR);
      S2INames(s2i);
      OverriddenHas(base, [BackupVar(s2i)], ENV_SRC_BACKUP_DIR);
      assert EnvVars.Names([BackupVar(s2i)])[0] == ENV_SRC_BACKUP_DIR;
    }
  }
}
