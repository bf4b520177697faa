// The cluster objects odo reads and writes, reduced to the fields its logic depends on.

module Objects {
  import opened EnvVars
  import opened Ports

  datatype LabelKey =
    ApplicationName | App | ComponentName | ComponentType | ComponentVersion | StorageName | UrlName

  type Labels = map<LabelKey, string>

  /** pkg/util/util.go ConvertLabelsToSelector as the API reads it: an empty value asks for presence. */
  predicate Matches(labels: Labels, selector: Labels) {
    forall k :: k in selector ==> k in labels && (selector[k] == "" || labels[k] == selector[k])
  }

  /** pkg/component/labels GetLabels. */
  function ComponentLabels(component: string, application: string, additional: bool): Labels {
    (if additional then map[ApplicationName := application, App := application]
     else map[ApplicationName := application])[ComponentName := component]
  }

  /** pkg/storage/labels GetLabels. */
  function StorageLabels(storage: string, component: string, application: string): Labels {
    ComponentLabels(component, application, true)[StorageName := storage]
  }

  datatype SrcType = GIT | LOCAL | BINARY | NONE

  datatype VolumeSource = EmptyDir | Claim(pvc: string)
  datatype Volume = Volume(name: string, source: VolumeSource)
  datatype Mount = Mount(name: string, path: string, subPath: string)
  datatype EnvFromSource = SecretRef(name: string) | ConfigMapRef(name: string)

  datatype Resource = CPU | Memory
  datatype Resources = Resources(requests: map<Resource, string>, limits: map<Resource, string>)

  /** What a container declares besides variables and mounts. */
  datatype ContainerSpec = ContainerSpec(ports: seq<ContainerPort>, resources: Resources)

  const NO_SPEC := ContainerSpec([], Resources(map[], map[]))

  datatype Container = Container(
    name: string,
    spec: ContainerSpec,
    env: seq<EnvVar>,
    envFrom: seq<EnvFromSource>,
    mounts: seq<Mount>)

  datatype Meta = Meta(name: string, labels: Labels, sourceType: SrcType, sourceURL: string)

  /** A DeploymentConfig: metadata with the two source annotations, and the pod template. */
  datatype DC = DC(
    meta: Meta,
    containers: seq<Container>,
    initContainers: seq<Container>,
    volumes: seq<Volume>)

  datatype PVC = PVC(name: string, size: string, labels: Labels)

  datatype Secret = Secret(name: string, labels: Labels, annotations: map<string, string>, data: map<string, string>)

  /** One entry of the map of storages to mount, with the random part its volume name will get. */
  datatype MountRequest = MountRequest(path: string, pvc: PVC, random: string)
}
