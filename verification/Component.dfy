// Creating and updating a component: pkg/component/component.go CreateComponent and Update, with the
// parts of pkg/occlient/occlient.go they drive (NewAppS2I, BootstrapSupervisoredS2I, UpdateDCToGit,
// UpdateDCToSupervisor, PatchCurrentDC). The functions say what a successful operation makes of the
// cluster; the methods do it call by call.

module Component {
  import opened Cluster
  import opened Deployment
  import opened EnvVars
  import opened Images
  import opened Lists
  import opened Moves
  import opened Names
  import opened Objects
  import opened Ports
  import opened Results
  import opened StorageSync
  import Secrets

  const ENV_SRC_BACKUP_DIR := "ODO_SRC_BACKUP_DIR"
  const APP_ROOT_SIZE := "1Gi"

  datatype S2IPaths = S2IPaths(
    scriptsURL: string, scriptsProtocol: string, srcOrBinPath: string, deploymentDir: string,
    workingDir: string, srcBackupPath: string, builderImage: string)

  /** The variables that describe the builder image to the supervisor scripts. */
  function S2IEnv(p: S2IPaths): seq<EnvVar> {
    [EnvVar("ODO_S2I_SCRIPTS_URL", p.scriptsURL),
     EnvVar("ODO_S2I_SCRIPTS_PROTOCOL", p.scriptsProtocol),
     EnvVar("ODO_S2I_SRC_BIN_PATH", p.srcOrBinPath),
     EnvVar("ODO_S2I_DEPLOYMENT_DIR", p.deploymentDir),
     EnvVar("ODO_S2I_WORKING_DIR", p.workingDir),
     EnvVar("ODO_S2I_BUILDER_IMG", p.builderImage),
     EnvVar("ODO_DEPLOYMENT_BACKUP_DIR", "/opt/app-root/deployment-backup")]
  }

  /** The variable of local components. */
  function BackupVar(p: S2IPaths): EnvVar {
    EnvVar(ENV_SRC_BACKUP_DIR, p.srcBackupPath)
  }

  /** The four settings of the config for CPU and memory; empty if not set. */
  datatype Limits = Limits(minCPU: string, maxCPU: string, minMemory: string, maxMemory: string)

  const NO_LIMITS := Limits("", "", "", "")

  /** The local configuration of a component, with its source location resolved. */
  datatype Config = Config(
    name: string, application: string, sourceType: SrcType, source: string, imageType: string,
    ports: seq<string>, limits: Limits, env: seq<EnvVar>, storage: seq<Storage>)

  /** What the rest of the cluster answers: whether the image stream and the image of the builder are
      found, the ports the image exposes and the paths it declares, whether the source is a directory,
      whether the API accepts the component's own image stream and service, whether builds and rollouts
      succeed, and whether the parts of the pod template that are not modelled come out unchanged. */
  datatype World = World(
    imageStream: Result<()>, streamImage: Result<()>, exposedPorts: Result<seq<ContainerPort>>, s2i: Result<S2IPaths>,
    sourceIsDir: bool, imageStreamCreated: bool, serviceCreated: bool,
    buildOk: bool, rolloutOk: bool, restUnchanged: bool)

  /** GetImageStream, GetImageStreamImage and GetS2IMetaInfoFromBuilderImg in a row. */
  function LookUpS2I(world: World): Result<S2IPaths> {
    var _ :- world.imageStream;
    var _ :- world.streamImage;
    world.s2i
  }

  predicate SameTemplate(a: DC, b: DC) {
    a.containers == b.containers && a.initContainers == b.initContainers && a.volumes == b.volumes
  }

  /** PatchCurrentDC for a local or binary component waits only if the template has changed. */
  predicate RolledOut(current: DC, updated: DC, world: World) {
    world.rolloutOk || (world.restUnchanged && SameTemplate(current, updated))
  }

  const BAD_QUANTITY := Refused("failed to parse the settings for cpu and memory")
  const BUILD_FAILED := Refused("unable to build the component")
  const ROLLOUT_FAILED := Refused("unable to wait for DeploymentConfig to update")
  const ALREADY_EXISTS := Refused("already exists")
  const NO_SERVICE := Refused("unable to create Service")
  const NO_SECRET := Refused("unable to create secret")
  const NO_IMAGE_STREAM := Refused("unable to create ImageStream")

  function FileURL(source: string): string {
    "file://" + source
  }

  function MetaFor(cfg: Config, n: string, image: ImageRef, sourceType: SrcType): Meta {
    Meta(n,
         ComponentLabels(cfg.name, cfg.application, true)[ComponentType := image.name][ComponentVersion := image.tag],
         sourceType,
         if sourceType == LOCAL || sourceType == BINARY then FileURL(cfg.source) else cfg.source)
  }

  predicate Supervised(t: SrcType) {
    t == LOCAL || t == BINARY
  }

  function PutDC(st: ClusterState, dc: DC): ClusterState {
    st.(dcs := st.dcs[dc.meta.name := dc])
  }

  // ------------------------------------------------------------ CPU and memory

  /** parseResourceQuantity for a setting that may be missing. */
  function AddQuantity(into: map<Resource, string>, key: Resource, text: string,
                       canon: Canon): Result<map<Resource, string>> {
    if text == "" then Ok(into)
    else match canon(text)
         case None => Err(BAD_QUANTITY)
         case Some(quantity) => Ok(into[key := quantity])
  }

  function ParseResources(l: Limits, canon: Canon): Result<Resources> {
    var minCPU :- AddQuantity(map[], CPU, l.minCPU, canon);
    var maxCPU :- AddQuantity(map[], CPU, l.maxCPU, canon);
    var requests :- AddQuantity(minCPU, Memory, l.minMemory, canon);
    var limits :- AddQuantity(maxCPU, Memory, l.maxMemory, canon);
    Ok(Resources(requests, limits))
  }

  predicate ReadableSetting(text: string, canon: Canon) {
    text == "" || canon(text).Some?
  }

  /** The entry of a resource: none if it is not set, else the quantity of its text. */
  predicate Carries(m: map<Resource, string>, key: Resource, text: string, canon: Canon) {
    (key in m <==> text != "") && (key in m ==> canon(text) == Some(m[key]))
  }

  /** The settings are accepted if and only if each text that is set can be read, and each entry of the
      result is that of its setting. */
  lemma ResourcesIff(l: Limits, canon: Canon)
    ensures var parsed := ParseResources(l, canon);
            (parsed.Ok? <==> ReadableSetting(l.minCPU, canon) && ReadableSetting(l.maxCPU, canon) &&
                             ReadableSetting(l.minMemory, canon) && ReadableSetting(l.maxMemory, canon)) &&
            (parsed.Ok? ==> Carries(parsed.value.requests, CPU, l.minCPU, canon) &&
                            Carries(parsed.value.limits, CPU, l.maxCPU, canon) &&
                            Carries(parsed.value.requests, Memory, l.minMemory, canon) &&
                            Carries(parsed.value.limits, Memory, l.maxMemory, canon))
  {
  }

  // ------------------------------------------------------------ creation

  function SecretOwner(component: string, meta: Meta): Secrets.Owner {
    Secrets.Owner(meta.name, meta.labels, component, meta.name)
  }

  function PrintSourceType(t: SrcType): string {
    match t case GIT => "git" case LOCAL => "local" case BINARY => "binary" case NONE => ""
  }

  function AnnotationsOf(meta: Meta): map<string, string> {
    map["app.kubernetes.io/url" := meta.sourceURL,
        "app.kubernetes.io/component-source-type" := PrintSourceType(meta.sourceType)]
  }

  function PortNumbers(ports: seq<ContainerPort>): seq<int> {
    Map(Secrets.NumberOf, ports)
  }

  /** The service and its secrets, which follow the DC: the secrets of the cluster afterwards. */
  function ExposedSecrets(secrets: seq<Secret>, component: string, meta: Meta, ports: seq<ContainerPort>,
                          world: World): Result<seq<Secret>> {
    if !world.serviceCreated then Err(NO_SERVICE)
    else
      var done := Secrets.CreatedSecrets(secrets, SecretOwner(component, meta), AnnotationsOf(meta),
                                         PortNumbers(ports));
      if done.ok then Ok(done.secrets) else Err(NO_SECRET)
  }

  /** NewAppS2I followed by the first build and rollout. */
  function CreateGit(st: ClusterState, cfg: Config, meta: Meta, spec: ContainerSpec, env: seq<EnvVar>,
                     requests: seq<MountRequest>, world: World): Result<ClusterState>
  {
    if cfg.source == "" then Err(Refused("unable to create buildSource with empty gitURL"))
    else if meta.name in st.bcs then Err(ALREADY_EXISTS)
    else
      var dc :- AddOrRemove(GitDeployment(meta, spec, env), requests, map[]);
      if meta.name in st.dcs then Err(ALREADY_EXISTS)
      else
        var secrets :- ExposedSecrets(st.secrets, cfg.name, meta, spec.ports, world);
        if !world.buildOk then Err(BUILD_FAILED)
        else if !world.rolloutOk then Err(ROLLOUT_FAILED)
        else Ok(PutDC(st, dc).(bcs := st.bcs[meta.name := meta.labels], secrets := secrets))
  }

  function CreatedEnv(env: seq<EnvVar>, s2i: S2IPaths, isLocal: bool): seq<EnvVar> {
    var base := Override(env, S2IEnv(s2i));
    if isLocal then Override(base, [BackupVar(s2i)]) else base
  }

  /** BootstrapSupervisoredS2I. */
  function CreateSupervised(st: ClusterState, cfg: Config, meta: Meta, spec: ContainerSpec, env: seq<EnvVar>,
                            requests: seq<MountRequest>, world: World, canon: Canon): Result<ClusterState>
  {
    var dc :- AddOrRemove(SupervisedBase(meta, spec, env, []), requests, map[]);
    if meta.name in st.dcs then Err(ALREADY_EXISTS)
    else
      var secrets :- ExposedSecrets(st.secrets, cfg.name, meta, spec.ports, world);
      var pvc :- PvcToCreate(st.pvcs, AppRootVolumeName(meta.name), APP_ROOT_SIZE, meta.labels, canon);
      Ok(PutDC(st, dc).(pvcs := st.pvcs + [pvc], secrets := secrets))
  }

  /** What creation works out before it creates the objects modelled here. */
  datatype Plan = Plan(meta: Meta, spec: ContainerSpec, env: seq<EnvVar>)

  function PlanCreation(cfg: Config, world: World, canon: Canon): Result<Plan> {
    var resources :- ParseResources(cfg.limits, canon);
    var sourceType := if cfg.sourceType == NONE then LOCAL else cfg.sourceType;
    if cfg.sourceType == LOCAL && !world.sourceIsDir then Err(Refused("path needs to be a directory"))
    else
      var image :- ParseImageName(cfg.imageType);
      var n :- NamespaceOpenShiftObject(cfg.name, cfg.application);
      var _ :- world.imageStream;
      var _ :- world.streamImage;
      var ports :- if cfg.ports == [] then world.exposedPorts else ParsePorts(cfg.ports);
      var env :- ParseEnvs(PrintEnvs(cfg.env));
      if !world.imageStreamCreated then Err(NO_IMAGE_STREAM)
      else if sourceType == GIT then Ok(Plan(MetaFor(cfg, n, image, sourceType), ContainerSpec(ports, resources), env))
      else
        var s2i :- world.s2i;
        Ok(Plan(MetaFor(cfg, n, image, sourceType), ContainerSpec(ports, resources),
                CreatedEnv(env, s2i, sourceType == LOCAL)))
  }

  function CreatePlanned(st: ClusterState, cfg: Config, plan: Plan, requests: seq<MountRequest>, world: World,
                         canon: Canon): Result<ClusterState>
  {
    if plan.meta.sourceType == GIT then CreateGit(st, cfg, plan.meta, plan.spec, plan.env, requests, world)
    else CreateSupervised(st, cfg, plan.meta, plan.spec, plan.env, requests, world, canon)
  }

  /** CreateComponent. A config without a source type is created as local. */
  ghost function CreateComponent(st: ClusterState, cfg: Config, world: World, requests: seq<MountRequest>,
                                 canon: Canon): Result<ClusterState>
  {
    var pushed :- PushStorage(st, cfg.storage, cfg.name, cfg.application, false, canon);
    var plan :- PlanCreation(cfg, world, canon);
    CreatePlanned(st.(pvcs := pushed.pvcs), cfg, plan, requests, world, canon)
  }

  // ------------------------------------------------------------ update

  function FindContainer(containers: seq<Container>, name: string): Result<Container> {
    if name == "" || containers == [] then Err(Refused("Unable to find container"))
    else if containers[0].name == name then Ok(containers[0])
    else FindContainer(containers[1..], name)
  }

  /** The changes one update makes to the template besides regenerating it. */
  datatype Patch = Patch(meta: Meta, spec: ContainerSpec, requests: seq<MountRequest>, unmount: map<string, string>)

  /** UpdateDCToGit with PatchCurrentDC. The component's variables are not passed on. */
  function PatchedToGit(current: DC, container: Container, p: Patch, removeTraces: bool): Result<DC> {
    var copied := WithCopies(GitDeployment(p.meta, p.spec, []), current, container);
    var dc :- if removeTraces then WithoutSupervisord(copied) else Ok(copied);
    AddOrRemove(dc, p.requests, p.unmount)
  }

  function UpdatedEnv(s2i: S2IPaths, isLocal: bool): seq<EnvVar> {
    var base := Override([], S2IEnv(s2i));
    if isLocal then Override(base, [BackupVar(s2i)]) else DeleteFirst(base, ENV_SRC_BACKUP_DIR)
  }

  /** UpdateDCToSupervisor with PatchCurrentDC. */
  function PatchedToSupervisor(current: DC, container: Container, p: Patch, env: seq<EnvVar>,
                               regenerate: bool): Result<DC>
    requires current.containers != []
  {
    var envFrom := current.containers[0].envFrom;
    var base := if regenerate then SupervisedBase(p.meta, p.spec, env, envFrom)
                else UpdatedSupervisor(current, p.meta, p.spec, env, envFrom);
    AddOrRemove(WithCopies(base, current, container), p.requests, p.unmount)
  }

  /** local or binary to git. */
  function MoveToGit(st: ClusterState, current: DC, container: Container, p: Patch,
                     world: World): Result<ClusterState> {
    if world.imageStream.Err? then Err(world.imageStream.failure)
    else if p.meta.name in st.bcs then Err(ALREADY_EXISTS)
    else if !world.buildOk then Err(BUILD_FAILED)
    else
      var dc :- PatchedToGit(current, container, p, true);
      if !world.rolloutOk then Err(ROLLOUT_FAILED)
      else
        var pvcs :- PvcsAfterDelete(st.pvcs, AppRootVolumeName(p.meta.name));
        Ok(PutDC(st, dc).(bcs := st.bcs[p.meta.name := p.meta.labels], pvcs := pvcs))
  }

  /** git to git. */
  function StayGit(st: ClusterState, current: DC, container: Container, p: Patch, source: string,
                   world: World): Result<ClusterState> {
    if source == "" then Err(Refused("gitURL for UpdateBuildConfig must not be blank"))
    else if p.meta.name !in st.bcs then Err(Refused("unable to get the BuildConfig file"))
    else if !world.buildOk then Err(BUILD_FAILED)
    else
      var dc :- PatchedToGit(current, container, p, false);
      if !world.rolloutOk then Err(ROLLOUT_FAILED) else Ok(PutDC(st, dc))
  }

  /** git to local or binary. */
  function MoveToSupervised(st: ClusterState, current: DC, container: Container, p: Patch, world: World,
                            canon: Canon): Result<ClusterState>
    requires current.containers != []
  {
    var s2i :- LookUpS2I(world);
    var pvc :- PvcToCreate(st.pvcs, AppRootVolumeName(p.meta.name), APP_ROOT_SIZE, p.meta.labels, canon);
    var dc :- PatchedToSupervisor(current, container, p, UpdatedEnv(s2i, p.meta.sourceType == LOCAL), true);
    if !RolledOut(current, dc, world) then Err(ROLLOUT_FAILED)
    else Ok(PutDC(st, dc).(bcs := DeleteBuildConfigs(st.bcs, p.meta.labels), pvcs := st.pvcs + [pvc]))
  }

  /** local or binary to local or binary. */
  function StaySupervised(st: ClusterState, current: DC, container: Container, p: Patch,
                          world: World): Result<ClusterState>
    requires current.containers != []
  {
    var s2i :- LookUpS2I(world);
    var dc :- PatchedToSupervisor(current, container, p, UpdatedEnv(s2i, p.meta.sourceType == LOCAL), false);
    if !RolledOut(current, dc, world) then Err(ROLLOUT_FAILED) else Ok(PutDC(st, dc))
  }

  /** STEP 2 of Update: the branch on old and new source type. A config without a source type falls
      through every branch and changes nothing more. */
  function Move(st: ClusterState, current: DC, container: Container, p: Patch, source: string, world: World,
                canon: Canon): Result<ClusterState>
    requires current.containers != []
  {
    var oldType, newType := current.meta.sourceType, p.meta.sourceType;
    if Supervised(oldType) && newType == GIT then MoveToGit(st, current, container, p, world)
    else if oldType == GIT && Supervised(newType) then MoveToSupervised(st, current, container, p, world, canon)
    else if newType == GIT then StayGit(st, current, container, p, source, world)
    else if Supervised(newType) then StaySupervised(st, current, container, p, world)
    else Ok(st)
  }

  /** What Update works out between the storage push and the move. */
  datatype Prepared = Prepared(current: DC, container: Container, patch: Patch)

  function PrepareUpdate(dcs: map<string, DC>, cfg: Config, requests: seq<MountRequest>, unmount: map<string, string>,
                         canon: Canon): (r: Result<Prepared>)
    ensures r.Ok? ==> r.value.current.containers != []
  {
    var n :- NamespaceOpenShiftObject(cfg.name, cfg.application);
    if n !in dcs then Err(Refused("unable to get source of component"))
    else
      var current := dcs[n];
      if current.meta.sourceType == NONE then Err(Refused("unsupported component source type"))
      else
        var image :- ParseImageName(cfg.imageType);
        var container :- FindContainer(current.containers, n);
        var ports :- if cfg.ports == [] then Ok(container.spec.ports) else ParsePorts(cfg.ports);
        var resources :- ParseResources(cfg.limits, canon);
        var _ :- ParseEnvs(PrintEnvs(cfg.env));
        var meta := MetaFor(cfg, n, image, cfg.sourceType);
        Ok(Prepared(current, container, Patch(meta, ContainerSpec(ports, resources), requests, unmount)))
  }

  ghost function UpdateComponent(st: ClusterState, cfg: Config, world: World, requests: seq<MountRequest>,
                                 canon: Canon): Result<ClusterState>
  {
    var pushed :- PushStorage(st, cfg.storage, cfg.name, cfg.application, true, canon);
    var u :- PrepareUpdate(st.dcs, cfg, requests, pushed.unmount, canon);
    Move(st.(pvcs := pushed.pvcs), u.current, u.container, u.patch, cfg.source, world, canon)
  }

  /** `requests` is one order in which Go may range over the map of storages to mount. */
  ghost predicate Enumerates(requests: seq<MountRequest>, mount: map<string, PVC>) {
    && (forall i, j :: 0 <= i < j < |requests| ==> requests[i].path != requests[j].path)
    && (forall r :: r in requests ==> r.path in mount && mount[r.path] == r.pvc && |r.random| == RANDOM_LENGTH)
    && (forall path :: path in mount ==> exists r :: r in requests && r.path == path)
  }

  // ------------------------------------------------------------ the operations

  /** GenerateRandomString: any string of lower-case letters of that length. */
  method GenerateRandomString(n: nat) returns (s: string)
    ensures |s| == n && forall c :: c in s ==> 'a' <= c <= 'z'
  {
    s := "";
    while |s| < n
      invariant |s| <= n && forall c :: c in s ==> 'a' <= c <= 'z'
    {
      assert 'a' <= 'a' <= 'z';
      var c: char :| 'a' <= c <= 'z';
      s := s + [c];
    }
  }

  /** The range over the map of storages to mount. */
  method RangeOver(mount: map<string, PVC>) returns (requests: seq<MountRequest>)
    ensures Enumerates(requests, mount)
  {
    requests := [];
    var left := mount.Keys;
    while left != {}
      invariant left <= mount.Keys
      invariant forall i, j :: 0 <= i < j < |requests| ==> requests[i].path != requests[j].path
      invariant forall r :: r in requests ==>
                  r.path in mount && mount[r.path] == r.pvc && |r.random| == RANDOM_LENGTH && r.path !in left
      invariant forall path :: path in mount && path !in left ==> exists r :: r in requests && r.path == path
      decreases left
    {
      var path :| path in left;
      var random := GenerateRandomString(RANDOM_LENGTH);
      ghost var before := requests;
      var next := MountRequest(path, mount[path], random);
      requests := requests + [next];
      left := left - {path};
      forall q | q in mount && q !in left ensures exists r :: r in requests && r.path == q {
        if q == path {
          assert next in requests;
        } else {
          var r :| r in before && r.path == q;
          assert r in requests;
        }
      }
    }
  }

  method PatchToGit(current: DC, container: Container, p: Patch, removeTraces: bool) returns (r: Result<DC>)
    ensures r == PatchedToGit(current, container, p, removeTraces)
  {
    var dc := new DeploymentConfig(GitDeployment(p.meta, p.spec, []));
    dc.CopyVolumesAndVolumeMounts(current, container);
    if removeTraces {
      var _ :- dc.RemoveTracesOfSupervisord();
    }
    var _ :- dc.AddOrRemoveVolumeAndVolumeMount(p.requests, p.unmount);
    r := Ok(dc.Value());
  }

  method PatchToSupervisor(current: DC, container: Container, p: Patch, env: seq<EnvVar>, regenerate: bool)
    returns (r: Result<DC>)
    requires current.containers != []
    ensures r == PatchedToSupervisor(current, container, p, env, regenerate)
  {
    var envFrom := current.containers[0].envFrom;
    var dc: DeploymentConfig;
    if regenerate {
      dc := new DeploymentConfig(SupervisordDeployment(p.meta, p.spec, env, envFrom));
      dc.AddBootstrap(p.meta.name);
    } else {
      dc := new DeploymentConfig(UpdatedSupervisor(current, p.meta, p.spec, env, envFrom));
    }
    dc.CopyVolumesAndVolumeMounts(current, container);
    var _ :- dc.AddOrRemoveVolumeAndVolumeMount(p.requests, p.unmount);
    r := Ok(dc.Value());
  }

  method UpdateEnv(s2i: S2IPaths, isLocal: bool) returns (env: seq<EnvVar>)
    ensures env == UpdatedEnv(s2i, isLocal)
  {
    env := UniqueAppendOrOverwriteEnvVars([], S2IEnv(s2i));
    if isLocal {
      env := UniqueAppendOrOverwriteEnvVars(env, [BackupVar(s2i)]);
    } else {
      env := DeleteEnvVars(env, ENV_SRC_BACKUP_DIR);
    }
  }

  method MoveComponentToGit(client: Client, current: DC, container: Container, p: Patch, world: World)
    returns (r: Result<()>)
    modifies client
    ensures match MoveToGit(old(client.State()), current, container, p, world)
            case Ok(st) => r.Ok? && client.State() == st
            case Err(f) => r == Err(f)
  {
    if world.imageStream.Err? {
      return Err(world.imageStream.failure);
    }
    if p.meta.name in client.bcs {
      return Err(ALREADY_EXISTS);
    }
    client.bcs := client.bcs[p.meta.name := p.meta.labels];
    if !world.buildOk {
      return Err(BUILD_FAILED);
    }
    var dc :- PatchToGit(current, container, p, true);
    client.dcs := client.dcs[dc.meta.name := dc];
    if !world.rolloutOk {
      return Err(ROLLOUT_FAILED);
    }
    var _ :- client.DeletePVC(AppRootVolumeName(p.meta.name));
    r := Ok(());
  }

  method MoveComponentToSupervised(client: Client, current: DC, container: Container, p: Patch, world: World)
    returns (r: Result<()>)
    requires current.containers != []
    modifies client
    ensures match MoveToSupervised(old(client.State()), current, container, p, world, client.canon)
            case Ok(st) => r.Ok? && client.State() == st
            case Err(f) => r == Err(f)
  {
    client.bcs := DeleteBuildConfigs(client.bcs, p.meta.labels);
    var s2i :- LookUpS2I(world);
    var env := UpdateEnv(s2i, p.meta.sourceType == LOCAL);
    var _ :- client.CreatePVC(AppRootVolumeName(p.meta.name), APP_ROOT_SIZE, p.meta.labels);
    var dc :- PatchToSupervisor(current, container, p, env, true);
    client.dcs := client.dcs[dc.meta.name := dc];
    if !RolledOut(current, dc, world) {
      return Err(ROLLOUT_FAILED);
    }
    r := Ok(());
  }

  method UpdateInPlace(client: Client, current: DC, container: Container, p: Patch, source: string, world: World)
    returns (r: Result<()>)
    requires current.containers != []
    modifies client
    ensures match (if p.meta.sourceType == GIT then StayGit(old(client.State()), current, container, p, source, world)
                   else if Supervised(p.meta.sourceType) then
                     StaySupervised(old(client.State()), current, container, p, world)
                   else Ok(old(client.State())))
            case Ok(st) => r.Ok? && client.State() == st
            case Err(f) => r == Err(f)
  {
    if p.meta.sourceType == GIT {
      if source == "" {
        return Err(Refused("gitURL for UpdateBuildConfig must not be blank"));
      }
      if p.meta.name !in client.bcs {
        return Err(Refused("unable to get the BuildConfig file"));
      }
      if !world.buildOk {
        return Err(BUILD_FAILED);
      }
      var dc :- PatchToGit(current, container, p, false);
      client.dcs := client.dcs[dc.meta.name := dc];
      if !world.rolloutOk {
        return Err(ROLLOUT_FAILED);
      }
    } else if Supervised(p.meta.sourceType) {
      var s2i :- LookUpS2I(world);
      var env := UpdateEnv(s2i, p.meta.sourceType == LOCAL);
      var dc :- PatchToSupervisor(current, container, p, env, false);
      client.dcs := client.dcs[dc.meta.name := dc];
      if !RolledOut(current, dc, world) {
        return Err(ROLLOUT_FAILED);
      }
    }
    r := Ok(());
  }

  method GetResourceRequirementsFromCmpSettings(l: Limits, canon: Canon) returns (r: Result<Resources>)
    ensures r == ParseResources(l, canon)
  {
    var requests: map<Resource, string>, limits: map<Resource, string> := map[], map[];
    if l.minCPU != "" {
      var minCPU := canon(l.minCPU);
      if minCPU.None? {
        return Err(BAD_QUANTITY);
      }
      requests := requests[CPU := minCPU.value];
    }
    if l.maxCPU != "" {
      var maxCPU := canon(l.maxCPU);
      if maxCPU.None? {
        return Err(BAD_QUANTITY);
      }
      limits := limits[CPU := maxCPU.value];
    }
    if l.minMemory != "" {
      var minMemory := canon(l.minMemory);
      if minMemory.None? {
        return Err(BAD_QUANTITY);
      }
      requests := requests[Memory := minMemory.value];
    }
    if l.maxMemory != "" {
      var maxMemory := canon(l.maxMemory);
      if maxMemory.None? {
        return Err(BAD_QUANTITY);
      }
      limits := limits[Memory := maxMemory.value];
    }
    r := Ok(Resources(requests, limits));
  }

  method Prepare(client: Client, cfg: Config, requests: seq<MountRequest>, unmount: map<string, string>)
    returns (r: Result<Prepared>)
    ensures r == PrepareUpdate(client.dcs, cfg, requests, unmount, client.canon)
  {
    var n :- NamespaceOpenShiftObject(cfg.name, cfg.application);
    if n !in client.dcs {
      return Err(Refused("unable to get source of component"));
    }
    var current := client.dcs[n];
    if current.meta.sourceType == NONE {
      return Err(Refused("unsupported component source type"));
    }
    var image :- ParseImageName(cfg.imageType);
    var container :- FindContainer(current.containers, n);
    var ports := container.spec.ports;
    if |cfg.ports| > 0 {
      ports :- GetContainerPortsFromStrings(cfg.ports);
    }
    var resources :- GetResourceRequirementsFromCmpSettings(cfg.limits, client.canon);
    var _ :- GetInputEnvVarsFromStrings(PrintEnvs(cfg.env));
    var meta := MetaFor(cfg, n, image, cfg.sourceType);
    r := Ok(Prepared(current, container, Patch(meta, ContainerSpec(ports, resources), requests, unmount)));
  }

  method MoveComponent(client: Client, u: Prepared, source: string, world: World) returns (r: Result<()>)
    requires u.current.containers != []
    modifies client
    ensures match Move(old(client.State()), u.current, u.container, u.patch, source, world, client.canon)
            case Ok(st) => r.Ok? && client.State() == st
            case Err(f) => r == Err(f)
  {
    var oldSourceType, newSourceType := u.current.meta.sourceType, u.patch.meta.sourceType;
    if Supervised(oldSourceType) && newSourceType == GIT {
      r := MoveComponentToGit(client, u.current, u.container, u.patch, world);
    } else if oldSourceType == GIT && Supervised(newSourceType) {
      r := MoveComponentToSupervised(client, u.current, u.container, u.patch, world);
    } else {
      r := UpdateInPlace(client, u.current, u.container, u.patch, source, world);
    }
  }

  /** Update. On success the cluster is what UpdateComponent says, for the order in which the map of
      storages was ranged over. */
  method Update(client: Client, cfg: Config, world: World) returns (r: Result<()>, requests: seq<MountRequest>)
    modifies client
    ensures PushStorage(old(client.State()), cfg.storage, cfg.name, cfg.application, true, client.canon).Ok? ==>
              Enumerates(requests, PushStorage(old(client.State()), cfg.storage, cfg.name, cfg.application, true,
                                               client.canon).value.mount)
    ensures match UpdateComponent(old(client.State()), cfg, world, requests, client.canon)
            case Ok(st) => r.Ok? && client.State() == st
            case Err(f) => r == Err(f)
  {
    requests := [];
    var pushed := Push(client, cfg.storage, cfg.name, cfg.application, true);
    if pushed.Err? {
      return Err(pushed.failure), [];
    }
    requests := RangeOver(pushed.value.0);
    var prepared := Prepare(client, cfg, requests, pushed.value.1);
    if prepared.Err? {
      return Err(prepared.failure), requests;
    }
    r := MoveComponent(client, prepared.value, cfg.source, world);
  }

  /** The service, then one secret per port, with the annotations of the common metadata. */
  method Expose(client: Client, component: string, meta: Meta, ports: seq<ContainerPort>, world: World)
    returns (r: Result<()>)
    modifies client`secrets
    ensures match ExposedSecrets(old(client.secrets), component, meta, ports, world)
            case Ok(secrets) => r.Ok? && client.secrets == secrets
            case Err(f) => r == Err(f)
  {
    if !world.serviceCreated {
      return Err(NO_SERVICE);
    }
    var annotations := new Secrets.SharedAnnotations(AnnotationsOf(meta));
    var done := Secrets.CreateSecrets(client, SecretOwner(component, meta), annotations, PortNumbers(ports));
    if done.Err? {
      return Err(NO_SECRET);
    }
    r := Ok(());
  }

  /** NewAppS2I and the first build: build config, then the DC, then waiting for both. */
  method CreateFromGit(client: Client, cfg: Config, meta: Meta, spec: ContainerSpec, env: seq<EnvVar>,
                       requests: seq<MountRequest>, world: World) returns (r: Result<()>)
    modifies client
    ensures match CreateGit(old(client.State()), cfg, meta, spec, env, requests, world)
            case Ok(st) => r.Ok? && client.State() == st
            case Err(f) => r == Err(f)
  {
    if cfg.source == "" {
      return Err(Refused("unable to create buildSource with empty gitURL"));
    }
    if meta.name in client.bcs {
      return Err(ALREADY_EXISTS);
    }
    client.bcs := client.bcs[meta.name := meta.labels];
    var dc := new DeploymentConfig(GitDeployment(meta, spec, env));
    var _ :- dc.AddOrRemoveVolumeAndVolumeMount(requests, map[]);
    if meta.name in client.dcs {
      return Err(ALREADY_EXISTS);
    }
    client.dcs := client.dcs[dc.meta.name := dc.Value()];
    var _ :- Expose(client, cfg.name, meta, spec.ports, world);
    if !world.buildOk {
      return Err(BUILD_FAILED);
    }
    if !world.rolloutOk {
      return Err(ROLLOUT_FAILED);
    }
    r := Ok(());
  }

  method CreateEnv(env: seq<EnvVar>, s2i: S2IPaths, isLocal: bool) returns (r: seq<EnvVar>)
    ensures r == CreatedEnv(env, s2i, isLocal)
  {
    r := UniqueAppendOrOverwriteEnvVars(env, S2IEnv(s2i));
    if isLocal {
      r := UniqueAppendOrOverwriteEnvVars(r, [BackupVar(s2i)]);
    }
  }

  /** BootstrapSupervisoredS2I: the DC, the service with its secrets, then the claim for the source data. */
  method BootstrapSupervisored(client: Client, cfg: Config, meta: Meta, spec: ContainerSpec, env: seq<EnvVar>,
                               requests: seq<MountRequest>, world: World) returns (r: Result<()>)
    modifies client
    ensures match CreateSupervised(old(client.State()), cfg, meta, spec, env, requests, world, client.canon)
            case Ok(st) => r.Ok? && client.State() == st
            case Err(f) => r == Err(f)
  {
    var dc := new DeploymentConfig(SupervisordDeployment(meta, spec, env, []));
    dc.AddBootstrap(meta.name);
    var _ :- dc.AddOrRemoveVolumeAndVolumeMount(requests, map[]);
    if meta.name in client.dcs {
      return Err(ALREADY_EXISTS);
    }
    client.dcs := client.dcs[dc.meta.name := dc.Value()];
    var _ :- Expose(client, cfg.name, meta, spec.ports, world);
    var _ :- client.CreatePVC(AppRootVolumeName(meta.name), APP_ROOT_SIZE, meta.labels);
    r := Ok(());
  }

  method MakePlan(cfg: Config, world: World, canon: Canon) returns (r: Result<Plan>)
    ensures r == PlanCreation(cfg, world, canon)
  {
    var resources :- GetResourceRequirementsFromCmpSettings(cfg.limits, canon);
    var sourceType := if cfg.sourceType == NONE then LOCAL else cfg.sourceType;
    if cfg.sourceType == LOCAL && !world.sourceIsDir {
      return Err(Refused("path needs to be a directory"));
    }
    var image :- ParseImageName(cfg.imageType);
    var n :- NamespaceOpenShiftObject(cfg.name, cfg.application);
    var _ :- world.imageStream;
    var _ :- world.streamImage;
    var ports: seq<ContainerPort>;
    if |cfg.ports| > 0 {
      ports :- GetContainerPortsFromStrings(cfg.ports);
    } else {
      ports :- world.exposedPorts;
    }
    var env :- GetInputEnvVarsFromStrings(PrintEnvs(cfg.env));
    if !world.imageStreamCreated {
      return Err(NO_IMAGE_STREAM);
    }
    if sourceType != GIT {
      var s2i :- world.s2i;
      env := CreateEnv(env, s2i, sourceType == LOCAL);
    }
    r := Ok(Plan(MetaFor(cfg, n, image, sourceType), ContainerSpec(ports, resources), env));
  }

  /** CreateComponent, with the order in which the map of storages was ranged over. */
  method Create(client: Client, cfg: Config, world: World) returns (r: Result<()>, requests: seq<MountRequest>)
    modifies client
    ensures PushStorage(old(client.State()), cfg.storage, cfg.name, cfg.application, false, client.canon).Ok? ==>
              Enumerates(requests, PushStorage(old(client.State()), cfg.storage, cfg.name, cfg.application, false,
                                               client.canon).value.mount)
    ensures match CreateComponent(old(client.State()), cfg, world, requests, client.canon)
            case Ok(st) => r.Ok? && client.State() == st
            case Err(f) => r == Err(f)
  {
    requests := [];
    var pushed := Push(client, cfg.storage, cfg.name, cfg.application, false);
    if pushed.Err? {
      return Err(pushed.failure), [];
    }
    requests := RangeOver(pushed.value.0);
    var planned := MakePlan(cfg, world, client.canon);
    if planned.Err? {
      return Err(planned.failure), requests;
    }
    var plan := planned.value;
    if plan.meta.sourceType == GIT {
      r := CreateFromGit(client, cfg, plan.meta, plan.spec, plan.env, requests, world);
    } else {
      r := BootstrapSupervisored(client, cfg, plan.meta, plan.spec, plan.env, requests, world);
    }
  }
}
