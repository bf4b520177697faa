# A verified model of odo's component reconciler

odo reads the local config of a component, compares it with the objects of an OpenShift project, and
edits one DeploymentConfig (DC) and the claims, routes, secrets and build config around it until both
agree. This project models that logic in Dafny 4.11 and proves what it keeps, over every run.
`dafny verify dfyconfig.toml` checks everything; nothing here talks to a cluster.

The cluster is a value (maps and lists of objects) and each API call an atomic update of it. Code that
works step by step is a class or a method with loops, proved equal to a function on values; the theorems
are about those functions. Errors and Go panics are results (`Results.Failure`), never preconditions.

| Part | Modules |
|---|---|
| Lists and Go slices | `Lists`, `GoSlice` (deleting from a slice while ranging over it) |
| Parsers and printers | `Strings`, `Ports`, `Images`, `EnvVars`, `Names` |
| The DC and its edits | `Objects`, `Deployment`, `Shapes` (normal form), `Moves` (regenerate and copy) |
| The cluster and storage | `Cluster`, `StorageSync`, `PushEffects`, `UserStorage` |
| Components over time | `Component`, `Invariant`, `Updates`, `Runs`, `Creation`, `Lifecycle`, `Templates`, `Variables`, `Convergence`, `Progress`, `Reachable`, `Witnesses` |
| Watch and push | `Watch`, `SourceTree`, `PodSync` |
| URLs, links, secrets, config | `Urls`, `Links`, `Secrets`, `LocalConfig` |

## What is established

* **The invariant the code never states.** In every state that creations, updates, links and unlinks can reach,
  between whatever source types, a git component has a build config and nothing of supervisord's; a local or
  binary one has no build config, one source-data claim with one volume and one mount, the supervisord
  volume and both init containers; `ODO_SRC_BACKUP_DIR` is set exactly for local ones
  (`Lifecycle.EveryReachableComponent`). "unable to find volume" cannot occur (`Updates.PatchOnlyPanics`),
  and deleting a service always finishes and leaves nothing linked to it (`Lifecycle.ServiceDeletionFinishes`).
* **No transition loses user storage.** The new DC carries the old attachments minus the unmounted ones
  plus the new ones, in order, if and only if the unmount loop is safe (`Updates.TransitionIff`), and a
  successful update restores the whole invariant if and only if a condition that can be checked beforehand
  holds (`Runs.UpdateKeepsInvariantIff`). Listing afterwards shows exactly the config
  (`Convergence.UpdateConverges`).
* **When steps succeed, exactly.** In such a state an update or a creation succeeds if and only if the
  component is there (for a creation: is not), the push of its storage is accepted, the config can be read, the storages
  to drop are not the last one attached and another, and images, service, secrets, builds and rollouts
  work out, a rollout being needed exactly if the template changes (`Templates.TemplateKeptIff`); no missing claim, build config, container or volume can make it fail
  (`Progress.UpdateSucceedsIff`, `Progress.CreateSucceedsIff`). When a push is accepted is known exactly,
  too (`PushEffects.PushSucceedsIff`), as is when URLs can be applied (`Urls.ApplySucceedsIff`). Every sequence of source types can be run through from nothing, with
  any storage (`Reachable.TypesReachable`).
* **Watch.** For every interleaving, events fall in order into one window per batch, and each batch is
  exactly what its window asks for (`Watch.WatchConserves`); what it does to the pod is known point by
  point (`PodSync.PushPointwise`, `PodSync.WindowAgreesIff`).

## Where the code does less than one would expect

Each of these is proved, with the exact condition; the states of `Witnesses`, in which the condition is
missing, are reached from an empty project by successful steps.

* Deleting from a slice while ranging over it is a filter if and only if no two neighbours match and a
  matching last element is the only match (`GoSlice.RangeRemoveIsFilterIff`); it panics if and only if the
  last element matches and an earlier one does, too (`GoSlice.RangeRemovePanicsIff`). An update that drops
  two neighbouring storages succeeds and leaves the component out of order (`Witnesses.DroppedNeighbours`).
* A git component that becomes local or binary keeps a stale build config if its image type or version
  changed since the build config was created (`Updates.BuildsDeletedIff`, `Witnesses.StaleBuildConfig`).
* An update whose config has no source type creates and deletes claims but leaves the DC alone
  (`Lifecycle.UntypedUpdateIff`, `Witnesses.UntypedDangles`).
* An update drops the config's variables, although a comment in the code says the config wins. A variable
  has its configured value in the DC afterwards if and only if the component is not git and odo itself sets
  that very value (`Variables.UpdateCarriesIff`); a creation carries all but those odo sets to something
  else (`Variables.CreateCarriesIff`). The same config that gave a component its variable takes it away
  (`Witnesses.VariableLost`). Any update to git also drops the linked secrets
  (`Lifecycle.UpdateWrites`, `Witnesses.LinkLost`).
* A size that the API writes differently (`1024Mi`, say) makes every later push fail
  (`Convergence.SecondPushIff`, `Witnesses.RewrittenSizeRefused`).
* Storage is not a component's own affair. A push is refused when another component of the application has
  a storage of the same name (`Witnesses.ClaimTaken`), and storage cannot be dropped while a component of
  any application has one of that name (`Witnesses.LabelShared`). A push that succeeds has met neither: it
  needs no assumption of unique names, nor of fresh random volume names (`PushEffects.DeletedOnce`,
  `Names.VolumeNameDeterminesClaim`).
* An update can swap storage without a rollout: for one whose name differs by slash against hyphen, at the
  same path, if the random part of the volume name comes out the same; this is the one change of storage
  that leaves the template as it is (`Templates.TemplateKeptIff`, `Witnesses.SwapUnseen`).
* A path that changed and then went inside one window stays in the pod (`PodSync.WindowAgreesIff`,
  `PodSync.WrittenThenRemovedStays`), and a dangling link that is created is handed out but not sent, though
  a full push sends it (`PodSync.DanglingLinkMissed`); no deletion at all is carried out once the source directory is empty
  (`PodSync.DeleteOnlyBatch`); deletions reach the copied sources if and only if the image's source path is
  set and does not itself end in `src`, or another variable leads there (`PodSync.TargetCoveredIff`), so
  never for an image that declares no paths (`PodSync.UnlabelledImageMissed`).
* Two ticks after the last event are not always enough (`Watch.TwoTicksSufficeIff`, `Watch.TwoTicksTooFew`).
* The two image parsers part ways on the name for paths with two or more slashes, and on what one of them
  calls the component type for paths with one (`Images.ParsersAgreeIff`); a port served over TCP and UDP
  makes the secrets, and with them the creation, fail (`Secrets.BothProtocolsFail`); URLs follow the config
  in their ports if and only if no URL that exists is configured with another port
  (`Urls.PortsFollowIff`, `Urls.ChangedPortIsLost`); deleting a service is cut short by a panic if and only
  if some component of the application has no container or takes variables from something else than a secret
  (`Links.DeletedServiceIsUnlinkedIff`, `Links.ConfigMapCutsShort`), which only someone else's edit of a DC
  can bring about.

## Model

Rows for methods: the contract equates result and new state with the named function of the inputs and the
old state, errors and panics included; the theorems below are about that function.

| member | source | states |
|---|---|---|
| GoSlice.RangeRemoveIsFilterIff | pkg/occlient/volumes.go:124-129 | the loop that deletes from the slice it ranges over is a filter if and only if no two neighbours match and a matching last element is the only match |
| GoSlice.RangeRemovePanicsIff | pkg/occlient/volumes.go:124-129 | it panics if and only if the last element and an earlier one match |
| GoSlice.UnsafeLeavesAMatch | pkg/occlient/volumes.go:138-145 | if that loop finishes on any other input, an element that should have gone is still there |
| GoSlice.OthersKeptFrom | pkg/occlient/volumes.go:138-145 | whatever the input, elements that do not match are neither lost nor reordered |
| GoSlice.RangeRemoveAtMostOne | pkg/occlient/volumes.go:124-129 | with at most one match the loop stays in bounds and is a filter |
| GoSlice.AdjacentMatchSurvives | pkg/occlient/volumes.go:124-129 | concrete input on which the second of two matches survives |
| GoSlice.TrailingMatchPanics | pkg/occlient/volumes.go:124-129 | concrete input on which the loop panics |
| GoSlice.RemoveInRange | pkg/occlient/volumes.go:124-129 | the loop in place on the backing array: final length, contents and panics are those of the range semantics |
| Ports.GetContainerPortsFromStrings | pkg/util/util.go:492-528 | the first malformed string decides the error, otherwise every string is parsed in order |
| Ports.PortRoundTrip | pkg/util/util.go:492-528 | parsing a printed `port/proto` gives number and protocol back for every 32-bit port, and is refused outside that range |
| Ports.PortsRoundTrip | pkg/component/component.go:188-192 | the same for whole printed lists: accepted if and only if all numbers fit in 32 bits |
| Images.TaggedRoundTrip | pkg/occlient/occlient.go:314-350 | a printed namespace/name:tag is parsed back into its parts |
| Images.DigestRoundTrip | pkg/occlient/occlient.go:314-350 | a printed name@digest is parsed back into its parts |
| Images.ParsersAgreeIff | pkg/util/util.go:134-152 | on references without digest that the first parser accepts, both parsers agree on the version, on the name if and only if the path has at most one slash, and the second one's component type is the first one's name if and only if the path has not exactly one slash |
| Images.DeepPathDisagrees | pkg/util/util.go:119-127 | on any three-part path one parser keeps the whole path as the name, the other its first part |
| EnvVars.UniqueAppendOrOverwriteEnvVars | pkg/occlient/occlient.go:1017-1047 | the four loops over list and map compute Override |
| EnvVars.OverrideLaw | pkg/occlient/occlient.go:1017-1047 | for every name, lookup in the result is last-wins lookup in old ++ new; existing names come first, at their first occurrence |
| EnvVars.OverrideDistinctIff | pkg/occlient/occlient.go:1017-1047 | the result has distinct names if and only if no new name is given twice |
| EnvVars.OverrideIdempotentIff | pkg/occlient/occlient.go:1017-1047 | applying the same overrides again changes nothing if and only if no new name is given twice |
| EnvVars.DeleteEnvVars | pkg/occlient/occlient.go:1055-1065 | the first entry of the name goes and nothing else |
| EnvVars.DeleteFirstForgetsIff | pkg/occlient/occlient.go:1055-1065 | the name is gone afterwards if and only if it occurred at most once |
| EnvVars.GetInputEnvVarsFromStrings | pkg/occlient/occlient.go:3232-3253 | accepts exactly lists of name=value strings with no name twice, and returns them in order |
| EnvVars.EnvRoundTripIff | pkg/config/env_var.go:22-29 | parsing a printed list gives it back if and only if its names are distinct and free of `=` |
| EnvVars.Merge | pkg/config/env_var.go:33-52 | under any map iteration order: distinct names, each with its last-wins value, none missing |
| EnvVars.MergedIsAccepted | pkg/config/env_var.go:33-52 | a merged list of `=`-free names is always accepted by the strict parser |
| Names.TruncateString | pkg/util/util.go:198-206 | a prefix within the limit, unchanged exactly when it fits or the limit is -1 |
| Names.NamespacedCollideIff | pkg/util/util.go:91-112 | within an application two untruncated names collide exactly when the components differ only by slash against hyphen; injective on slash-free names |
| Names.NamespacedCollidesAcrossApplications | pkg/util/util.go:91-112 | components of two applications can share a name |
| Names.AppRootIsNoStorageClaim | pkg/storage/storage.go:246-248 | a source-data claim is never named like a storage claim |
| Names.GeneratedIsNoBootstrapVolume | pkg/occlient/volumes.go:151-153 | a generated volume name is neither bootstrap volume's |
| Names.VolumeNameDeterminesClaim | pkg/occlient/volumes.go:151-153 | generated volume names of different claims differ whatever their random parts are |
| Deployment.DeploymentConfig.AddBootstrap | pkg/occlient/templates.go:354-450 | both init containers, the source-data volume and its mount in every container are added, in the fields, in order |
| Deployment.DeploymentConfig.CopyVolumesAndVolumeMounts | pkg/occlient/occlient.go:1422-1470 | only the first container of the name gets mounts, only those it lacks and never supervisord's; likewise the volumes |
| Deployment.DeploymentConfig.RemoveVolume | pkg/occlient/volumes.go:122-131 | volumes as the range loop leaves them, panic included, and whether the name was there |
| Deployment.DeploymentConfig.RemoveVolumeMount | pkg/occlient/volumes.go:136-147 | the same for the mounts of every container |
| Deployment.DeploymentConfig.RemoveTracesOfSupervisord | pkg/occlient/occlient.go:1707-1728 | volume, mount and one init container go, with the two errors when there is nothing to remove |
| Deployment.DeploymentConfig.Unmount | pkg/occlient/volumes.go:162-174 | the nested unmount loops on one shared backing array |
| Deployment.DeploymentConfig.AddPVCToDeploymentConfig | pkg/occlient/volumes.go:48-74 | one volume and one mount of a generated name are appended |
| Deployment.DeploymentConfig.AddOrRemoveVolumeAndVolumeMount | pkg/occlient/volumes.go:156-183 | unmount, then mount, for any order of the map of storages |
| Shapes.ShapedIsWellFormed | pkg/occlient/occlient.go:1339-1419 | in the normal form every mount names exactly one volume and every volume is mounted once |
| Shapes.AddOrRemoveShapeIff | pkg/occlient/volumes.go:156-183 | unmount-then-mount turns the attachments into the old ones minus the unmounted paths plus the requests, in order, if and only if the attachments are range-safe for those paths |
| Moves.GitFromGit | pkg/occlient/occlient.go:1474-1525 | git to git: the regenerated DC gets exactly the old attachments back |
| Moves.GitFromSupervised | pkg/occlient/occlient.go:1491-1509 | local or binary to git: copying then removing supervisord's traces succeeds and leaves exactly the old attachments |
| Moves.SupervisedFromGit | pkg/occlient/occlient.go:1610-1630 | git to local or binary: the bootstrap part is new, the attachments are the old ones |
| Moves.SupervisedFromSupervised | pkg/occlient/occlient.go:1631-1642 | between local and binary copying adds nothing to the updated DC, which stays in normal form |
| Cluster.Client.CreatePVC | pkg/occlient/volumes.go:16-44 | the size must parse and the name be free; the claim list grows by the claim or stays |
| Cluster.Client.DeletePVC | pkg/occlient/volumes.go:87-89 | the claim of that name goes, or an error and no change |
| Cluster.Client.CreateSecret | pkg/occlient/occlient.go:895-926 | the name must be free; the secrets grow by the secret or stay |
| Cluster.Client.GetOneDeploymentConfigFromSelector | pkg/occlient/occlient.go:2757-2771 | succeeds exactly if one DC matches |
| StorageSync.List | pkg/storage/storage.go:110-182 | the two loops and the claim index compute ListStorage |
| StorageSync.ListMounted | pkg/storage/storage.go:185-197 | storages with a mount path, in order |
| StorageSync.Delete | pkg/storage/storage.go:93-106 | refuses unless exactly one claim of the project carries the storage's label |
| StorageSync.Create | pkg/storage/storage.go:31-51 | one claim named and labelled after the storage, or an error and no change |
| StorageSync.Push | pkg/storage/storage.go:376-434 | the delete loop then the create loop, with the maps to mount and to unmount |
| PushEffects.DeletedOnce | pkg/storage/storage.go:402-412 | a successful deletion phase met each deleted storage label on one claim of the whole project |
| PushEffects.PushEffect | pkg/storage/storage.go:376-434 | for an existing component in order: claims of dropped storages and no others are deleted, claims of new storages and no others created, mounts and unmounts are exactly theirs, kept storages agree with the config |
| PushEffects.FirstPushEffect | pkg/storage/storage.go:376-434 | the same for a component being created |
| PushEffects.PushSucceedsIff | pkg/storage/storage.go:376-434 | for an existing component in order a push succeeds if and only if kept storages agree with the config, the label of each dropped one is on no other claim of the project, each new one has a readable size and a name, and the claim names are distinct and free once the dropped claims are gone |
| PushEffects.FirstPushSucceedsIff | pkg/storage/storage.go:376-434 | the same for a component being created |
| UserStorage.KeptIff | pkg/occlient/volumes.go:162-174 | what is unmounted by path is exactly what the config dropped by name |
| UserStorage.AfterIsGood | pkg/occlient/volumes.go:156-183 | after a push the attachments are again distinct claims at distinct paths, also when a new storage takes over a removed one's path |
| UserStorage.ClaimsAfter | pkg/storage/storage.go:376-434 | claims after a push are the attached ones and the untouched foreign ones, none lost |
| Invariant.RootClaimIffSupervised | pkg/component/component.go:1090-1213 | under the invariant a component has a source-data claim if and only if it is not git |
| Invariant.MountedIsExact | pkg/storage/storage.go:110-197 | under the invariant ListMounted succeeds and reports the attachments of the component, each once |
| Component.RangeOver | pkg/occlient/volumes.go:176-181 | any order of the map with any random parts, each path once |
| Component.GetResourceRequirementsFromCmpSettings | pkg/occlient/templates.go:193-244 | the four settings in order, the first that cannot be read deciding the error |
| Component.ResourcesIff | pkg/occlient/templates.go:193-244 | accepted if and only if each setting that is set can be read; each entry of the result is that of its setting |
| Component.PatchToGit | pkg/occlient/occlient.go:1474-1525 | regenerate, copy, optionally remove supervisord's traces, unmount and mount |
| Component.PatchToSupervisor | pkg/occlient/occlient.go:1535-1656 | regenerate or update, copy, unmount and mount, keeping the linked secrets |
| Component.UpdateEnv | pkg/occlient/occlient.go:1561-1604 | the variables an update writes |
| Component.MoveComponentToGit | pkg/component/component.go:1090-1125 | local or binary to git, call by call; only the image stream is looked up |
| Component.MoveComponentToSupervised | pkg/component/component.go:1127-1153 | git to local or binary, call by call |
| Component.UpdateInPlace | pkg/component/component.go:1155-1213 | the branch in which the kind of source does not change, and the one that does nothing; an unchanged template is not waited for |
| Component.Update | pkg/component/component.go:979-1215 | push, then prepare, then move; the order of the map of storages is any |
| Component.Expose | pkg/occlient/occlient.go:1204-1213 | the service, then one secret per port: the new secrets or the error of the step that failed |
| Component.CreateFromGit | pkg/occlient/occlient.go:804-890 | build config, DC with storage, service and secrets, first build and rollout |
| Component.BootstrapSupervisored | pkg/occlient/occlient.go:1075-1230 | DC with bootstrap parts and storage, service and secrets, then the source-data claim |
| Component.Create | pkg/component/component.go:350-432 | push, then plan, then create by source type, local when there is none |
| Updates.TransitionIff | pkg/occlient/occlient.go:1339-1419 | for every old and new source type the new DC carries the old attachments minus the unmounted plus the new ones, in order, if and only if the unmount loop is safe |
| Updates.PatchOnlyPanics | pkg/occlient/occlient.go:1707-1728 | the DC step of an update fails in one way only, a panic of the unmount loop on unsafe input; the volume errors are unreachable |
| Updates.PatchSucceedsIff | pkg/occlient/volumes.go:162-174 | the DC step succeeds if and only if the paths to unmount are not that of the last attachment and another |
| Updates.BuildsDeletedIff | pkg/occlient/occlient.go:2627-2636 | deleting by all labels removes the component's build config and no other exactly if the labels still match, image type and version included |
| Updates.Reassembled | pkg/component/component.go:979-1215 | a step on one component that fits the invariant piece by piece keeps it for the whole cluster |
| Runs.UpdateKeepsInvariantIff | pkg/component/component.go:979-1215 | a successful update leads to a state in order for the intended attachments if and only if the dropped storages were range-safe and a moving git component's build labels still matched |
| Creation.CreateKeepsInvariant | pkg/component/component.go:350-432 | a successful creation, for every source type, leads to a state in order with the requested storage attached |
| Creation.UpdatedEnvIff | pkg/occlient/occlient.go:1594-1604 | an update sets ODO_SRC_BACKUP_DIR if and only if the component is local now |
| Creation.CreatedEnvIff | pkg/occlient/occlient.go:1156-1180 | a creation sets it if and only if the component is local or the user's own variables contain it |
| Lifecycle.UpdateWrites | pkg/component/component.go:1066-1215 | only the component's own DC changes, with the new source type; its variables are none for git and those derived from the image otherwise; linked secrets survive exactly when the new type is not git |
| Lifecycle.CreateWritesIff | pkg/component/component.go:350-432 | the same for a creation, with the exact condition for the backup variable |
| Variables.UpdateCarriesIff | pkg/component/component.go:1066-1084 | after an update a variable of the config has its configured value in the DC if and only if the component is not git and odo sets that very value |
| Variables.CreateCarriesIff | pkg/occlient/occlient.go:1129-1180 | after a creation it has it if and only if the component is git or odo sets the name to nothing else |
| Lifecycle.RunsKeepInvariant | pkg/component/component.go:979-1215 | every run of creations, updates, links, unlinks and service deletions keeps the invariant for the intended attachments |
| Lifecycle.EveryReachableComponent | pkg/component/component.go:1090-1213 | from nothing, for every run: git components have a build config and nothing of supervisord's, local and binary ones exactly the bootstrap objects, and the backup variable exactly if local |
| Lifecycle.ServiceDeletionFinishes | pkg/service/service.go:137-169 | in every reachable state, whatever the order of the listing, deleting a service never panics and no component of the application stays linked to it |
| Lifecycle.UntypedUpdateIff | pkg/component/component.go:1155-1213 | an update without source type leaves DC and build configs alone and keeps the state in order if and only if the config asks for no storage change |
| Convergence.UpdateConverges | pkg/storage/storage.go:185-197 | after a safe update ListMounted returns exactly the config's storages: name, path, and size as configured or as the API writes it |
| Convergence.CreateConverges | pkg/storage/storage.go:185-197 | the same after a creation |
| Convergence.SecondPushIff | pkg/storage/storage.go:376-434 | a second push succeeds if and only if the API leaves the new sizes as written, and then creates, deletes, mounts and unmounts nothing |
| Progress.UpdateSucceedsIff | pkg/component/component.go:979-1215 | in a state in order an update succeeds if and only if the component is found, its push is accepted, the config can be read, its settings for CPU and memory included, the dropped storages are not the last attached and another, and image, build and rollout work, a rollout being needed only if the template changes |
| Templates.TemplateKeptIff | pkg/occlient/occlient.go:1389-1396 | an update between local and binary leaves the template as it is if and only if ports, resources and variables stay and no storage is dropped or added, or the last one alone is dropped and the only new one takes over its path, claim name and random part |
| Progress.CreateSucceedsIff | pkg/component/component.go:350-432 | a creation succeeds if and only if the name can be formed and is free, its push is accepted, the config can be read, its settings for CPU and memory included, the builder image is found, the service and one new secret per port can be made, and what the source type needs is there |
| Reachable.TypesReachable | pkg/component/component.go:1087-1215 | from nothing, with any storage in sizes as the API writes them, every sequence of source types can be run through, each step succeeding, and in the end exactly the configured storages are attached |
| Witnesses.DroppedNeighbours | pkg/occlient/volumes.go:162-174 | a reachable state in which an update that drops two neighbouring storages succeeds and leaves the component out of order |
| Witnesses.StaleBuildConfig | pkg/component/component.go:1127-1153 | a reachable git component whose update to local with another image version succeeds and keeps the build config |
| Witnesses.UntypedDangles | pkg/component/component.go:1155-1213 | a reachable component whose update without source type succeeds, deletes its claim and keeps mounting it |
| Witnesses.RewrittenSizeRefused | pkg/storage/storage.go:402-432 | a reachable component with a size of 1024Mi that every update with the same config is refused for |
| Witnesses.VariableLost | pkg/component/component.go:1066-1084 | a reachable component that has a variable of its config and no longer has it after an update with the same config |
| Witnesses.LinkLost | pkg/occlient/occlient.go:1474-1525 | a reachable local component with a linked secret that is gone after an update to git and stays after one that is local again |
| Witnesses.SwapUnseen | pkg/occlient/occlient.go:1389-1396 | a reachable local component whose storage is swapped for another by an update that succeeds although no rollout would |
| Witnesses.ClaimTaken | pkg/occlient/volumes.go:16-44 | a reachable project in which a second component with a storage of the same name is never created, whatever the world and the order of requests |
| Witnesses.LabelShared | pkg/storage/storage.go:93-106 | a reachable project in which the update that drops a storage never succeeds, as another application has one of that name |
| Watch.Watcher.HandleEvent | pkg/component/watch.go:169-249 | one event on the shared fields, for any operation mask and file state |
| Watch.Watcher.HandleTick | pkg/component/watch.go:272-319 | one round of the ticker loop and the batch it hands out |
| Watch.WatchConserves | pkg/component/watch.go:199-317 | for every interleaving the events seen split, in order, into one window per batch and an open one; each batch is exactly what its window asks for and not empty; pending is what the open window asks for |
| Watch.ChangedInIff | pkg/component/watch.go:199-223 | the changes of a batch are exactly the paths some event of its window changed |
| Watch.ChangedInDistinct | pkg/component/watch.go:199-223 | each of them once |
| Watch.IgnoredNeverDelivered | pkg/component/watch.go:213-243 | ignored paths are handed out neither as changes nor as deletions, and every deletion comes from a removal in the window |
| Watch.WatchDebounces | pkg/component/watch.go:225-317 | over every run in time order, all events of a batch are more than the delay old when it is handed out, and pending work is always dirty |
| Watch.DeliversAtRound | pkg/component/watch.go:269-320 | pending work that is left alone is handed out at one determined tick of the first three and not before |
| Watch.TwoTicksSufficeIff | pkg/component/watch.go:269-320 | two ticks suffice if and only if the first is strictly later than the last event; three always do |
| Watch.TwoTicksTooFew | pkg/component/watch.go:269-320 | a run in which two ticks after the last event hand out nothing and the third does |
| SourceTree.RecursiveTar | pkg/occlient/occlient.go:2915-3006 | the recursion appends Tar to the writer and ends on every tree |
| SourceTree.TarExact | pkg/occlient/occlient.go:2915-3006 | headers are exactly the files, links and empty directories without ignored ancestor-or-self, at their own paths |
| SourceTree.FullPushExact | pkg/occlient/occlient.go:2798-2875 | extracting a full push with one component stripped yields exactly those objects at their paths relative to the root |
| SourceTree.Walk | pkg/component/watch.go:82-101 | the walk that skips ignored directories computes Folders |
| SourceTree.FoldersExact | pkg/component/watch.go:48-124 | the watched directories are exactly those without ignored ancestor-or-self |
| SourceTree.DeliverableIffPushed | pkg/component/watch.go:48-124 | the files whose changes a watch delivers are exactly those a full push sends |
| PodSync.GetS2IPaths | pkg/component/component.go:307-340 | the loop with its duplicate check computes S2IPathsOf |
| PodSync.S2IPathsExact | pkg/component/component.go:307-340 | the deletion targets are exactly the completed paths of the set variables and the backup directory |
| PodSync.TargetCoveredIff | pkg/component/component.go:674-680 | deletions reach the copied sources if and only if the source path of the image is set and does not end in src, or another of the variables leads to where sources are copied |
| PodSync.UnlabelledImageMissed | pkg/component/component.go:674-680 | for an image without paths the deletion targets miss where sources are copied to |
| PodSync.MakeTar | pkg/occlient/occlient.go:2840-2875 | changed paths that exist are sent recursively; no list means everything |
| PodSync.WatchTarExact | pkg/occlient/occlient.go:2852-2869 | a batch sends exactly the objects below its existing changed paths that are not ignored on the way |
| PodSync.Container.PropagateDeletes | pkg/occlient/occlient.go:3277-3297 | everything below any target joined with any deleted path goes, nothing else |
| PodSync.Container.PushLocal | pkg/component/component.go:649-720 | refusals, deletion, copy |
| PodSync.PushPointwise | pkg/component/component.go:684-720 | after a push each path holds the local object if it was sent, nothing if it lies under a deletion, and what was there if neither |
| PodSync.DeleteOnlyBatch | pkg/component/component.go:707-720 | a batch of deletions succeeds if and only if the source is a directory that is not empty, and then only deletes |
| PodSync.WindowAgreesIff | pkg/component/watch.go:237-243 | on a path of the window pod and local tree agree afterwards if and only if, for an object that exists, it is no dangling link, or a changed directory above brings it, or the pod had it and keeps it, and for one that is gone, the pod had no copy or it lies under a deletion of the batch |
| PodSync.WrittenThenRemovedStays | pkg/component/watch.go:199-243 | a file written and removed before the push is handed out as a change and stays in the pod |
| PodSync.DanglingLinkMissed | pkg/occlient/occlient.go:2829-2869 | a dangling link created in a window is handed out as a change and not sent, while a full push sends it |
| PodSync.DeletedFirstAgrees | pkg/component/watch.go:237-243 | in particular on every file deleted before any change to it in the window |
| PodSync.BatchIsNeverEmpty | pkg/component/component.go:707-711 | no batch of any run of the watch is refused for being empty |
| Urls.RouteClient.Exists | pkg/url/url.go:111-123 | whether the component lists a URL of that name |
| Urls.RouteClient.Create | pkg/url/url.go:45-65 | one route, named after URL and application and labelled for the component, or an error and no change |
| Urls.RouteClient.Delete | pkg/url/url.go:32-41 | the route of the namespaced name goes, or an error and no change |
| Urls.RouteClient.ApplyConfigCreateURL | pkg/component/component.go:612-632 | the creation loop, checking existence against the cluster as it changes |
| Urls.RouteClient.ApplyConfigDeleteURL | pkg/component/component.go:583-600 | the deletion loop over the URLs as listed before it |
| Urls.RouteClient.ApplyConfig | pkg/component/component.go:559-577 | gate, creation, deletion |
| Urls.UrlsFollowConfig | pkg/component/component.go:559-632 | after a successful phase the component's URL names are the config's, wanted routes stay as they were, new ones are as configured, other components' routes are untouched, and the gate skipped nothing |
| Urls.DeletePhaseIs | pkg/component/component.go:583-600 | the deletion phase never fails and removes exactly the component's unwanted routes |
| Urls.ApplySucceedsIff | pkg/component/component.go:559-632 | the phase succeeds if and only if, for the configured URLs the component does not have yet, names of service and routes can be formed and those of the routes are distinct and free |
| Urls.SecondPassIsIdle | pkg/component/component.go:559-632 | a second pass changes nothing |
| Urls.PortsFollowIff | pkg/component/component.go:612-632 | after a successful phase the component's URLs are the config's, names and ports, if and only if no URL that existed is configured with another port and no name is configured with two ports |
| Urls.ChangedPortIsLost | pkg/component/component.go:612-632 | concrete route and config: the phase succeeds and the old port stays |
| Links.LinkSecret | pkg/occlient/occlient.go:2362-2375 | read, build the patch, apply it, or an error and no change |
| Links.UnlinkSecret | pkg/occlient/occlient.go:2378-2397 | the same with the search loop, which panics on a source that is no secret |
| Links.FindLinkIs | pkg/occlient/occlient.go:2381-2391 | the search finds the first link; it panics exactly on meeting another kind of source first |
| Links.LinkThenUnlink | pkg/occlient/occlient.go:2362-2397 | link then unlink restores any list |
| Links.DeleteServiceAndUnlinkComponents | pkg/service/service.go:137-169 | the nested loops over the components as listed, ignoring refused unlinks |
| Links.DeletedServiceIsUnlinkedIff | pkg/service/service.go:150-165 | the sweep finishes if and only if every component of the application has a container and takes variables from secrets only; then none keeps a link to the service however often it was linked, other links stay in order, other applications are untouched |
| Links.ConfigMapCutsShort | pkg/service/service.go:150-165 | a component that takes variables from a config map makes the deletion of any service of its application panic |
| LocalConfig.LocalConfigInfo.ValidateStorage | pkg/config/storage.go:42-52 | the first storage in the way decides the error |
| LocalConfig.LocalConfigInfo.StorageExists | pkg/config/storage.go:20-27 | whether the name is in the list |
| LocalConfig.LocalConfigInfo.StorageCreate | pkg/config/config.go:228-234 | the list in memory grows even if writing the file fails |
| LocalConfig.LocalConfigInfo.StorageDelete | pkg/config/storage.go:54-60 | refused if missing, otherwise the range loop's outcome |
| LocalConfig.LocalConfigInfo.DeleteUrl | pkg/config/config.go:300-309 | panics on a list never set, otherwise the range loop's outcome |
| LocalConfig.LocalConfigInfo.SetUrl | pkg/config/config.go:238-244 | the URL list in memory grows even if writing the file fails |
| LocalConfig.ValidatedIff | pkg/config/storage.go:42-52 | accepted exactly when neither name nor path is taken |
| LocalConfig.EditsKeepSound | pkg/config/config.go:300-327 | every run of config commands keeps storage names, paths and URL names distinct, so that deletions along it are filters and never panic |
| LocalConfig.AddThenDrop | pkg/config/storage.go:7-60 | adding a storage and deleting it again restores the list |
| Secrets.CreateSecrets | pkg/occlient/occlient.go:895-926 | the loop over the ports with the annotation map it shares with its caller |
| Secrets.CreatedIff | pkg/occlient/occlient.go:895-926 | succeeds if and only if ports are distinct and names free; then one secret per port, and the shared annotations are restored if and only if they held no port annotation |
| Secrets.BothProtocolsFail | pkg/occlient/occlient.go:895-926 | a port served over two protocols makes it fail |
| Secrets.DetermineSecretName | pkg/secret/secret.go:17-50 | the search over the component's secrets |
| Secrets.CreatedIsFound | pkg/secret/secret.go:17-50 | each port resolves to its own secret, other ports are refused, and no port resolves if and only if there is exactly one |

## Left out

- Cobra commands, prompts, completion and output: user interface only.
- Partial failures: a failed `Update`, `CreateComponent` or `Push` is promised to return its error; what it leaves behind on the cluster is not specified, as the code does not roll back. A run in `Lifecycle` consists of successful steps.
- Builds, rollouts, services and image streams: whether they succeed is an input (`Component.World`), as are image lookups, the ports and paths an image declares, and whether the parts of the pod template left out here come out unchanged.
- Triggers, strategy and selectors of the DC, its image, and the contents of build configs (a move to git passes the config's variables to the build): no modelled behaviour depends on them; whether the image comes out unchanged is part of `Component.World`.
- Objects of others: every DC, claim and build config of the project is odo's own (`Invariant.Inv`), as in every state its own steps reach from an empty project; a project with claims or DCs of a provisioned service is not described.
- Services without ports: the API refuses them; whether it accepts a service is an input.
- Component deletion, which is not a step of the modelled runs.
- Order of listings: the API lists claims and routes in the order of creation.
- Quantities: parsing and printing one, for storage, CPU and memory alike, is an uninterpreted function (`Cluster.Canon`); so is glob matching (`ignored`, `Settings.glob`).
- Watch.OnEvent: adding file system watches is a flag that says whether it fails; the walk itself is `SourceTree.Walk`. The lock makes each event and each round of the ticker one step; the push handler takes no time.
- PodSync: directories of the pod are not recorded, and a push in which tar would fail on a file in the way of a directory is not a successful push. The build started after the copy is not modelled.
- Source paths: names without glob metacharacters; no Windows separators. Paths of the pod are lists of names, so cleaning of path strings is not modelled.
- Names.TruncateString: truncates characters where the code truncates bytes; `Strings.ToUpper` is ASCII only.
- EnvVars.Merge: a list that appends into the spare capacity of another's backing array is not modelled.
- Runs.UpdateKeepsInvariantIff: assumes storage names and paths of the config distinct (which `LocalConfig.EditsKeepSound` provides), paths non-empty and not odo's own two, which the config commands do not check.
- Links.DeletedServiceIsUnlinkedIff: assumes DCs named after their labels, which `Lifecycle.RunsKeepInvariant` provides.
- `GetRandomName`, `GetDNS1123Name`, `RemoveEnvVarsFromList`, service and catalog listing: they would add easy members only.
