// What an update does to everything but storage, and what every run of creations and updates keeps.

module Lifecycle {
  import opened Cluster
  import opened Component
  import opened Creation
  import opened Deployment
  import opened EnvVars
  import opened Images
  import opened Invariant
  import Links
  import opened Lists
  import opened Moves
  import opened Names
  import opened Objects
  import opened PushEffects
  import opened Results
  import opened Runs
  import opened Shapes
  import opened StorageSync
  import opened Updates
  import opened UserStorage

  /** The variables an update writes: none of the config's. */
  function WrittenEnv(t: SrcType, s2i: Result<S2IPaths>): seq<EnvVar> {
    if t == GIT || s2i.Err? then [] else UpdatedEnv(s2i.value, t == LOCAL)
  }

  /** The container of the base an update starts from: only a move to git loses the linked secrets. */
  lemma BaseContainer(current: DC, users: seq<Attachment>, p: Patch, s2i: Result<S2IPaths>)
    requires Shaped(current, Supervised(current.meta.sourceType), users) && current.meta.sourceType != NONE
    requires p.meta.name == current.meta.name && p.meta.sourceType != NONE && (p.meta.sourceType != GIT ==> s2i.Ok?)
    ensures var base := BaseFor(current, p, s2i);
            |base.containers| == 1 && base.meta == p.meta && BackupOk(base) &&
            base.containers[0].env == WrittenEnv(p.meta.sourceType, s2i) &&
            base.containers[0].envFrom == (if p.meta.sourceType == GIT then [] else current.containers[0].envFrom)
  {
    BaseIsBare(current, users, p, s2i);
    if p.meta.sourceType != GIT {
      var env := UpdatedEnv(s2i.value, p.meta.sourceType == LOCAL);
      UpdatedEnvIff(s2i.value, p.meta.sourceType == LOCAL);
      BasesAreShaped(p.meta, p.spec, env, current.containers[0].envFrom);
      SupervisedBaseContainer(p.meta, p.spec, env, current.containers[0].envFrom);
    }
  }

  lemma SupervisedBaseContainer(meta: Meta, spec: ContainerSpec, env: seq<EnvVar>, envFrom: seq<EnvFromSource>)
    ensures var base := SupervisedBase(meta, spec, env, envFrom);
            |base.containers| == 1 && base.containers[0].env == env && base.containers[0].envFrom == envFrom &&
            base.meta == meta
  {
    var dc := SupervisordDeployment(meta, spec, env, envFrom);
    assert dc.containers[1..] == [];
    var mount := AppRootMount(meta.name);
    assert MountInEach(dc.containers, mount) == [WithMount(dc.containers[0], mount)];
  }

  lemma AddOrRemoveKeepsContainer(dc: DC, requests: seq<MountRequest>, paths: map<string, string>)
    requires |dc.containers| == 1 && AddOrRemove(dc, requests, paths).Ok?
    ensures var r := AddOrRemove(dc, requests, paths).value;
            r.meta == dc.meta && |r.containers| == 1 &&
            r.containers[0].env == dc.containers[0].env && r.containers[0].envFrom == dc.containers[0].envFrom
  {
    AddOrRemoveForm(dc, requests, paths);
  }

  lemma WrittenDC(current: DC, users: seq<Attachment>, p: Patch, s2i: Result<S2IPaths>)
    requires Shaped(current, Supervised(current.meta.sourceType), users) && current.meta.sourceType != NONE
    requires p.meta.name == current.meta.name && p.meta.sourceType != NONE && (p.meta.sourceType != GIT ==> s2i.Ok?)
    requires PatchedFor(current, p, s2i).Ok?
    ensures var dc := PatchedFor(current, p, s2i).value;
            dc.meta == p.meta && BackupOk(dc) && dc.containers[0].env == WrittenEnv(p.meta.sourceType, s2i) &&
            dc.containers[0].envFrom == (if p.meta.sourceType == GIT then [] else current.containers[0].envFrom)
  {
    BaseContainer(current, users, p, s2i);
    BaseIsBare(current, users, p, s2i);
    AddOrRemoveKeepsContainer(WithUsers(BaseFor(current, p, s2i), Supervised(p.meta.sourceType), users), p.requests,
                              p.unmount);
  }

  /** Only the component's own DC changes; it has the new source type, no variables if it is git now and
      those odo derives from the image otherwise, and its linked secrets unless it is git now. */
  ghost predicate Written(before: map<string, DC>, after: map<string, DC>, cfg: Config, world: World) {
    var n := Key(cfg);
    && n in before && n in after && after == before[n := after[n]]
    && after[n].meta.sourceType == cfg.sourceType && LabelsMatch(after[n].meta.labels, cfg) && BackupOk(after[n])
    && |before[n].containers| == 1 && (cfg.sourceType != GIT ==> LookUpS2I(world).Ok?)
    && after[n].containers[0].env ==
         (if cfg.sourceType == GIT then [] else UpdatedEnv(LookUpS2I(world).value, cfg.sourceType == LOCAL))
    && after[n].containers[0].envFrom == (if cfg.sourceType == GIT then [] else before[n].containers[0].envFrom)
  }

  /** What an update does besides storage. */
  lemma UpdateWrites(st: ClusterState, att: map<string, seq<Attachment>>, cfg: Config, world: World,
                     requests: seq<MountRequest>, canon: Canon)
    requires Inv(st, att) && cfg.sourceType != NONE
    requires UpdateComponent(st, cfg, world, requests, canon).Ok?
    ensures Written(st.dcs, UpdateComponent(st, cfg, world, requests, canon).value.dcs, cfg, world)
  {
    var n, pushed, p := UpdateSplits(st, att, cfg, world, requests, canon);
    var current := st.dcs[n];
    MoveForm(st.(pvcs := pushed.pvcs), current, att[n], p, cfg.source, world, canon);
    MovedIsWritten(st.(pvcs := pushed.pvcs), n, att[n], cfg, p, requests, pushed.unmount, world,
                   UpdateComponent(st, cfg, world, requests, canon).value);
  }

  lemma MovedIsWritten(st: ClusterState, n: string, users: seq<Attachment>, cfg: Config, p: Patch,
                       requests: seq<MountRequest>, unmount: map<string, string>, world: World, next: ClusterState)
    requires n in st.dcs && ComponentOk(st.dcs[n], n, users) && cfg.sourceType != NONE
    requires NamespaceOpenShiftObject(cfg.name, cfg.application) == Ok(n) && PatchFor(p, cfg, n, requests, unmount)
    requires Moved(st, st.dcs[n], p, world, next)
    ensures Written(st.dcs, next.dcs, cfg, world)
  {
    WrittenDC(st.dcs[n], users, p, LookUpS2I(world));
    MetaIdentified(cfg, n, ParseImageName(cfg.imageType).value, cfg.sourceType);
  }

  /** The same for a creation, unless the user's own variables contain ODO_SRC_BACKUP_DIR. */
  lemma CreateWritesIff(st: ClusterState, cfg: Config, world: World, requests: seq<MountRequest>, canon: Canon)
    requires CreateComponent(st, cfg, world, requests, canon).Ok?
    ensures var n, next := Key(cfg), CreateComponent(st, cfg, world, requests, canon).value;
            n !in st.dcs && n in next.dcs && next.dcs == st.dcs[n := next.dcs[n]] &&
            next.dcs[n].meta.sourceType == CreatedType(cfg) && LabelsMatch(next.dcs[n].meta.labels, cfg) &&
            ParseEnvs(PrintEnvs(cfg.env)).Ok? &&
            |next.dcs[n].containers| == 1 && next.dcs[n].containers[0].envFrom == [] &&
            (BackupOk(next.dcs[n]) <==>
               CreatedType(cfg) == LOCAL || ENV_SRC_BACKUP_DIR !in EnvVars.Names(ParseEnvs(PrintEnvs(cfg.env)).value))
  {
    var n, pushed, plan := CreateForm(st, cfg, world, requests, canon);
    CreatedIsWritten(st, pushed.pvcs, cfg, plan, requests, world, canon, n,
                     CreateComponent(st, cfg, world, requests, canon).value);
  }

  lemma CreatedIsWritten(st: ClusterState, pvcs: seq<PVC>, cfg: Config, plan: Plan, requests: seq<MountRequest>,
                         world: World, canon: Canon, n: string, next: ClusterState)
    requires NamespaceOpenShiftObject(cfg.name, cfg.application) == Ok(n) && PlannedFor(plan, cfg, world, canon, n)
    requires CreatedAs(st, pvcs, cfg.name, plan, requests, world, next)
    ensures n !in st.dcs && n in next.dcs && next.dcs == st.dcs[n := next.dcs[n]]
    ensures next.dcs[n].meta.sourceType == CreatedType(cfg) && LabelsMatch(next.dcs[n].meta.labels, cfg)
    ensures |next.dcs[n].containers| == 1 && next.dcs[n].containers[0].envFrom == []
    ensures BackupOk(next.dcs[n]) <==>
              CreatedType(cfg) == LOCAL || ENV_SRC_BACKUP_DIR !in EnvVars.Names(ParseEnvs(PrintEnvs(cfg.env)).value)
  {
    CreatedEnvIff(plan, cfg, world, canon, n);
    SupervisedBaseContainer(plan.meta, plan.spec, plan.env, []);
    MetaIdentified(cfg, n, ParseImageName(cfg.imageType).value, CreatedType(cfg));
  }

  // ------------------------------------------------------------ runs

  /** Creations and updates of components; secrets linked to and unlinked from them; and the sweep that
      unlinks a deleted service from the components of an application as they are listed. */
  datatype Step =
    | Create(cfg: Config, world: World, requests: seq<MountRequest>)
    | Update(cfg: Config, world: World, requests: seq<MountRequest>)
    | Link(secret: string, component: string, application: string)
    | Unlink(secret: string, component: string, application: string)
    | DeleteService(service: string, application: string, listed: seq<DC>)

  ghost function StepResult(st: ClusterState, step: Step, canon: Canon): Result<ClusterState> {
    match step
    case Create(cfg, world, requests) => CreateComponent(st, cfg, world, requests, canon)
    case Update(cfg, world, requests) => UpdateComponent(st, cfg, world, requests, canon)
    case Link(_, component, application) => WithDCs(st, Links.Patched(st.dcs, component, application, ChangeOf(step)))
    case Unlink(_, component, application) => WithDCs(st, Links.Patched(st.dcs, component, application, ChangeOf(step)))
    case DeleteService(service, application, listed) =>
      WithDCs(st, Links.UnlinkAll(st.dcs, listed, application, service))
  }

  function WithDCs(st: ClusterState, dcs: Result<map<string, DC>>): Result<ClusterState> {
    match dcs case Ok(next) => Ok(st.(dcs := next)) case Err(f) => Err(f)
  }

  predicate OnComponent(step: Step) {
    step.Create? || step.Update?
  }

  ghost function StoragePush(st: ClusterState, step: Step, canon: Canon): Result<Pushed>
    requires OnComponent(step)
  {
    PushStorage(st, step.cfg.storage, step.cfg.name, step.cfg.application, step.Update?, canon)
  }

  /** What the caller of each step has to see to. */
  ghost predicate Admissible(st: ClusterState, att: map<string, seq<Attachment>>, step: Step, canon: Canon) {
    if OnComponent(step) then
      && GoodStorage(step.cfg.storage)
      && (StoragePush(st, step, canon).Ok? ==> Enumerates(step.requests, StoragePush(st, step, canon).value.mount))
      && (step.Update? ==> step.cfg.sourceType != NONE && SafeUpdate(st, att, step.cfg))
      && (step.Create? && CreatedType(step.cfg) != LOCAL && ParseEnvs(PrintEnvs(step.cfg.env)).Ok? ==>
            ENV_SRC_BACKUP_DIR !in EnvVars.Names(ParseEnvs(PrintEnvs(step.cfg.env)).value))
    else step.DeleteService? ==> Links.Listing(step.listed, st.dcs, step.application)
  }

  function NextAttachments(att: map<string, seq<Attachment>>, step: Step): map<string, seq<Attachment>> {
    if !OnComponent(step) then att
    else
      var n := Key(step.cfg);
      if step.Update? && n in att then att[n := Intended(att[n], step.cfg, step.requests)]
      else att[n := step.requests]
  }

  /** `end` is reached from `st` by successful admissible steps. */
  ghost predicate Reaches(st: ClusterState, att: map<string, seq<Attachment>>, steps: seq<Step>, canon: Canon,
                          end: ClusterState, attEnd: map<string, seq<Attachment>>)
    decreases steps
  {
    if steps == [] then st == end && att == attEnd
    else
      && Admissible(st, att, steps[0], canon) && StepResult(st, steps[0], canon).Ok?
      && Reaches(StepResult(st, steps[0], canon).value, NextAttachments(att, steps[0]), steps[1..], canon, end, attEnd)
  }

  // ------------------------------------------------------------ steps that only relink

  /** The same DCs but for the links of their first containers. */
  ghost predicate SameButLinks(before: map<string, DC>, after: map<string, DC>) {
    && after.Keys == before.Keys
    && forall n :: n in before ==> after[n] == before[n] || RelinkedDC(before[n], after[n])
  }

  predicate RelinkedDC(before: DC, after: DC) {
    before.containers != [] && after.containers != [] && after == Links.WithEnvFrom(before, Links.EnvFromOf(after))
  }

  lemma RelinkedIsOk(before: DC, after: DC, n: string, users: seq<Attachment>)
    requires ComponentOk(before, n, users) && RelinkedDC(before, after)
    ensures ComponentOk(after, n, users)
  {
    assert after.containers == [after.containers[0]];
  }

  lemma RelinkingKeepsComponents(before: map<string, DC>, after: map<string, DC>, att: map<string, seq<Attachment>>)
    requires AllComponentsOk(before, att) && SameButLinks(before, after)
    ensures AllComponentsOk(after, att) && forall n :: n in before ==> after[n].meta == before[n].meta
  {
    forall n | n in after ensures ComponentOk(after[n], n, att[n]) && after[n].meta == before[n].meta {
      if after[n] != before[n] {
        RelinkedIsOk(before[n], after[n], n, att[n]);
      }
    }
  }

  lemma SameMetaKeepsClaims(st: ClusterState, att: map<string, seq<Attachment>>, dcs: map<string, DC>)
    requires ClaimsOk(st, att) && dcs.Keys == st.dcs.Keys && forall n :: n in dcs ==> dcs[n].meta == st.dcs[n].meta
    ensures ClaimsOk(st.(dcs := dcs), att)
  {
    var next := st.(dcs := dcs);
    forall p | p in next.pvcs ensures Owned(next, att, p) {
      assert Owned(st, att, p);
      var n :| n in st.dcs && n in att && OwnedBy(st.dcs[n], n, att[n], p);
      assert OwnedBy(next.dcs[n], n, att[n], p);
    }
  }

  lemma SameMetaKeepsBuilds(st: ClusterState, dcs: map<string, DC>)
    requires BuildsOk(st) && dcs.Keys == st.dcs.Keys && forall n :: n in dcs ==> dcs[n].meta == st.dcs[n].meta
    ensures BuildsOk(st.(dcs := dcs))
  {
  }

  lemma RelinkingKeepsInvariant(st: ClusterState, att: map<string, seq<Attachment>>, dcs: map<string, DC>)
    requires Inv(st, att) && SameButLinks(st.dcs, dcs)
    ensures Inv(st.(dcs := dcs), att)
  {
    RelinkingKeepsComponents(st.dcs, dcs, att);
    SameMetaKeepsClaims(st, att, dcs);
    SameMetaKeepsBuilds(st, dcs);
  }

  // ------------------------------------------------------------ variables and links

  /** ODO_SRC_BACKUP_DIR is set exactly for local components, and variables are taken from secrets only. */
  ghost predicate Tidy(dc: DC) {
    BackupOk(dc) && Links.OnlySecrets(Links.EnvFromOf(dc))
  }

  ghost predicate AllTidy(dcs: map<string, DC>) {
    forall n :: n in dcs ==> Tidy(dcs[n])
  }

  lemma EmptyIsFine()
    ensures Inv(EMPTY, map[]) && AllTidy(EMPTY.dcs)
  {
  }

  function ChangeOf(step: Step): seq<EnvFromSource> -> Result<seq<EnvFromSource>>
    requires step.Link? || step.Unlink?
  {
    if step.Link? then Links.Linking(step.secret) else Links.Unlinking(step.secret)
  }

  /** Linking and unlinking change one list, to another list of secrets. */
  lemma PatchedIsTidy(dcs: map<string, DC>, step: Step)
    requires AllTidy(dcs) && (step.Link? || step.Unlink?)
    requires Links.Patched(dcs, step.component, step.application, ChangeOf(step)).Ok?
    ensures var next := Links.Patched(dcs, step.component, step.application, ChangeOf(step)).value;
            SameButLinks(dcs, next) && AllTidy(next)
  {
    var n := NamespaceOpenShiftObject(step.component, step.application).value;
    var l := Links.EnvFromOf(dcs[n]);
    if step.Link? {
      assert Links.Linked(l, step.secret).value == [SecretRef(step.secret)] + l;
    } else {
      Links.FindLinkIs(l, step.secret, 0);
    }
  }

  lemma SweptIsTidy(before: map<string, DC>, after: map<string, DC>, application: string, service: string)
    requires AllTidy(before) && Links.Swept(before, after, application, service)
    ensures SameButLinks(before, after) && AllTidy(after)
  {
    forall n | n in before ensures (after[n] == before[n] || RelinkedDC(before[n], after[n])) && Tidy(after[n]) {
      var l := Links.EnvFromOf(before[n]);
      assert Tidy(before[n]);
      WithoutMembers(l, Links.IsLink(service));
    }
  }

  /** Under the invariant the sweep of a deleted service always finishes. */
  lemma SweepFinishes(st: ClusterState, att: map<string, seq<Attachment>>, listed: seq<DC>, application: string,
                      service: string)
    requires Inv(st, att) && AllTidy(st.dcs) && Links.Listing(listed, st.dcs, application)
    ensures var swept := Links.UnlinkAll(st.dcs, listed, application, service);
            swept.Ok? && Links.Swept(st.dcs, swept.value, application, service)
  {
    InvIdentifies(st, att);
    forall dc | dc in listed ensures Links.NamedByLabels(dc) && Links.Sweepable(dc) {
      assert dc.meta.name in st.dcs && Tidy(st.dcs[dc.meta.name]);
    }
    Links.DeletedServiceIsUnlinkedIff(st.dcs, listed, application, service);
  }

  lemma RelinkStepKeeps(st: ClusterState, att: map<string, seq<Attachment>>, step: Step, canon: Canon)
    requires Inv(st, att) && AllTidy(st.dcs) && !OnComponent(step)
    requires Admissible(st, att, step, canon) && StepResult(st, step, canon).Ok?
    ensures Inv(StepResult(st, step, canon).value, att) && AllTidy(StepResult(st, step, canon).value.dcs)
  {
    var next := StepResult(st, step, canon).value;
    if step.DeleteService? {
      SweepFinishes(st, att, step.listed, step.application, step.service);
      SweptIsTidy(st.dcs, next.dcs, step.application, step.service);
    } else {
      PatchedIsTidy(st.dcs, step);
    }
    RelinkingKeepsInvariant(st, att, next.dcs);
  }

  // ------------------------------------------------------------ steps on components

  lemma StepKeeps(st: ClusterState, att: map<string, seq<Attachment>>, step: Step, canon: Canon)
    requires Inv(st, att) && OnComponent(step) && Admissible(st, att, step, canon) && StepResult(st, step, canon).Ok?
    ensures Inv(StepResult(st, step, canon).value, NextAttachments(att, step))
  {
    if step.Create? {
      CreateKeepsInvariant(st, att, step.cfg, step.world, step.requests, canon);
    } else {
      UpdateKeepsInvariantIff(st, att, step.cfg, step.world, step.requests, canon);
    }
  }

  lemma TidySpreads(before: map<string, DC>, after: map<string, DC>, n: string)
    requires AllTidy(before) && n in after && after == before[n := after[n]] && Tidy(after[n])
    ensures AllTidy(after)
  {
  }

  lemma StepKeepsTidy(st: ClusterState, att: map<string, seq<Attachment>>, step: Step, canon: Canon)
    requires Inv(st, att) && AllTidy(st.dcs) && OnComponent(step)
    requires Admissible(st, att, step, canon) && StepResult(st, step, canon).Ok?
    ensures AllTidy(StepResult(st, step, canon).value.dcs)
  {
    var n, next := Key(step.cfg), StepResult(st, step, canon).value;
    if step.Create? {
      CreateWritesIff(st, step.cfg, step.world, step.requests, canon);
    } else {
      UpdateWrites(st, att, step.cfg, step.world, step.requests, canon);
      WrittenIsTidy(st.dcs, next.dcs, step.cfg, step.world);
    }
    TidySpreads(st.dcs, next.dcs, n);
  }

  lemma WrittenIsTidy(before: map<string, DC>, after: map<string, DC>, cfg: Config, world: World)
    requires AllTidy(before) && Written(before, after, cfg, world)
    ensures Tidy(after[Key(cfg)])
  {
    assert Tidy(before[Key(cfg)]);
  }

  /** EVERY RUN. Whatever components are created and updated, in whatever order and between whatever
      source types, and whatever is linked and unlinked in between, the cluster satisfies the invariant
      for the intended attachments. */
  lemma {:induction false} RunsKeepInvariant(st: ClusterState, att: map<string, seq<Attachment>>, steps: seq<Step>,
                                             canon: Canon, end: ClusterState, attEnd: map<string, seq<Attachment>>)
    requires Inv(st, att) && AllTidy(st.dcs) && Reaches(st, att, steps, canon, end, attEnd)
    ensures Inv(end, attEnd) && AllTidy(end.dcs)
    decreases steps
  {
    if steps != [] {
      var next, attNext := StepResult(st, steps[0], canon).value, NextAttachments(att, steps[0]);
      if OnComponent(steps[0]) {
        StepKeeps(st, att, steps[0], canon);
        StepKeepsTidy(st, att, steps[0], canon);
      } else {
        RelinkStepKeeps(st, att, steps[0], canon);
      }
      RunsKeepInvariant(next, attNext, steps[1..], canon, end, attEnd);
    }
  }

  /** DELETING A SERVICE IS NEVER CUT SHORT in a reachable state: the sweep finishes, whatever the order
      of the listing, and leaves no component of the application linked to it. */
  lemma ServiceDeletionFinishes(steps: seq<Step>, canon: Canon, st: ClusterState, att: map<string, seq<Attachment>>,
                                listed: seq<DC>, application: string, service: string)
    requires Reaches(EMPTY, map[], steps, canon, st, att) && Links.Listing(listed, st.dcs, application)
    ensures var swept := Links.UnlinkAll(st.dcs, listed, application, service);
            swept.Ok? && Links.Swept(st.dcs, swept.value, application, service)
  {
    EmptyIsFine();
    RunsKeepInvariant(EMPTY, map[], steps, canon, st, att);
    SweepFinishes(st, att, listed, application, service);
  }

  /** A component in order, spelled out. */
  ghost predicate InOrder(st: ClusterState, n: string, users: seq<Attachment>)
    requires n in st.dcs
  {
    var dc, root := st.dcs[n], AppRootVolumeName(n);
    && |dc.containers| == 1 && dc.meta.sourceType != NONE
    && (dc.meta.sourceType == GIT ==>
          n in st.bcs && root !in PvcNames(st.pvcs) && dc.initContainers == [] &&
          dc.volumes == Map(AttachedVolume, users) && dc.containers[0].mounts == Map(AttachedMount, users))
    && (dc.meta.sourceType != GIT ==>
          n !in st.bcs && root in PvcNames(st.pvcs) &&
          dc.initContainers == [CopyFilesContainer(n), COPY_SUPERVISORD_CONTAINER] &&
          dc.volumes == [Volume(SUPERVISORD_VOLUME, EmptyDir), AppRootVolume(n)] + Map(AttachedVolume, users) &&
          dc.containers[0].mounts == [SUPERVISORD_MOUNT, AppRootMount(n)] + Map(AttachedMount, users))
    && (ENV_SRC_BACKUP_DIR in EnvVars.Names(dc.containers[0].env) <==> dc.meta.sourceType == LOCAL)
  }

  /** EVERY REACHABLE COMPONENT, from nothing and for every run: a git component has a build config and
      nothing of supervisord's; a local or binary one has no build config, one source-data claim with
      its volume and mount, the supervisord volume and both init containers. */
  lemma EveryReachableComponent(steps: seq<Step>, canon: Canon, st: ClusterState, att: map<string, seq<Attachment>>,
                                n: string)
    requires Reaches(EMPTY, map[], steps, canon, st, att) && n in st.dcs
    ensures n in att && InOrder(st, n, att[n])
  {
    EmptyIsFine();
    RunsKeepInvariant(EMPTY, map[], steps, canon, st, att);
    RootClaimIffSupervised(st, att, n);
    ReadOff(st, att, n);
    SpellOut(st, n, att[n]);
  }

  lemma SpellOut(st: ClusterState, n: string, users: seq<Attachment>)
    requires n in st.dcs && st.dcs[n].meta.name == n && st.dcs[n].meta.sourceType != NONE && BackupOk(st.dcs[n])
    requires Shaped(st.dcs[n], Supervised(st.dcs[n].meta.sourceType), users)
    requires n in st.bcs <==> st.dcs[n].meta.sourceType == GIT
    requires AppRootVolumeName(n) in PvcNames(st.pvcs) <==> st.dcs[n].meta.sourceType != GIT
    ensures InOrder(st, n, users)
  {
    assert [] + Map(AttachedVolume, users) == Map(AttachedVolume, users);
    assert [] + Map(AttachedMount, users) == Map(AttachedMount, users);
  }

  lemma ReadOff(st: ClusterState, att: map<string, seq<Attachment>>, n: string)
    requires Inv(st, att) && n in st.dcs
    ensures n in att && Shaped(st.dcs[n], Supervised(st.dcs[n].meta.sourceType), att[n]) && st.dcs[n].meta.name == n
    ensures st.dcs[n].meta.sourceType != NONE && (n in st.bcs <==> st.dcs[n].meta.sourceType == GIT)
  {
  }

  // ------------------------------------------------------------ a config without a source type

  /** An update whose config has no source type changes claims but not the DC, so it keeps the state in
      order exactly if the config asks for no storage change. */
  lemma UntypedUpdateIff(st: ClusterState, att: map<string, seq<Attachment>>, cfg: Config, world: World,
                         requests: seq<MountRequest>, canon: Canon)
    requires Inv(st, att) && GoodStorage(cfg.storage) && cfg.sourceType == NONE
    requires UpdateComponent(st, cfg, world, requests, canon).Ok?
    requires Enumerates(requests, PushStorage(st, cfg.storage, cfg.name, cfg.application, true, canon).value.mount)
    ensures var n, next := Key(cfg), UpdateComponent(st, cfg, world, requests, canon).value;
            n in att && next.dcs == st.dcs && next.bcs == st.bcs &&
            (Inv(next, att) <==>
               Dropped(att[n], ByName(cfg.storage)) == {} && Fresh(cfg.storage, StorageNames(att[n])) == [])
  {
    var n, pushed := UntypedUpdateForm(st, att, cfg, world, requests, canon);
    ClaimsUntouchedIff(st, att, n, cfg, canon, pushed);
  }

  lemma UntypedUpdateForm(st: ClusterState, att: map<string, seq<Attachment>>, cfg: Config, world: World,
                          requests: seq<MountRequest>, canon: Canon) returns (n: string, pushed: Pushed)
    requires Inv(st, att) && GoodStorage(cfg.storage) && cfg.sourceType == NONE
    requires UpdateComponent(st, cfg, world, requests, canon).Ok?
    requires Enumerates(requests, PushStorage(st, cfg.storage, cfg.name, cfg.application, true, canon).value.mount)
    ensures n == Key(cfg) && n in st.dcs && n in att && LabelsMatch(st.dcs[n].meta.labels, cfg)
    ensures UpdateComponent(st, cfg, world, requests, canon).value == st.(pvcs := pushed.pvcs)
    ensures PushOutcome(st.pvcs, att[n], cfg.storage, cfg.name, cfg.application, canon, pushed)
    ensures forall u :: u in att[n] ==> StorageName in u.pvc.labels
  {
    var p: Patch;
    n, pushed, p := UpdateSplits(st, att, cfg, world, requests, canon);
    UntypedMove(st.(pvcs := pushed.pvcs), st.dcs[n], p, cfg.source, world, canon);
    UpdatePushes(st, att, n, cfg, canon, pushed, requests);
  }

  lemma UntypedMove(st: ClusterState, current: DC, p: Patch, source: string, world: World, canon: Canon)
    requires current.containers != [] && p.meta.sourceType == NONE
    ensures Move(st, current, current.containers[0], p, source, world, canon) == Ok(st)
  {
  }

  lemma ClaimsUntouchedIff(st: ClusterState, att: map<string, seq<Attachment>>, n: string, cfg: Config, canon: Canon,
                           pushed: Pushed)
    requires Inv(st, att) && n in st.dcs && LabelsMatch(st.dcs[n].meta.labels, cfg)
    requires PushOutcome(st.pvcs, att[n], cfg.storage, cfg.name, cfg.application, canon, pushed)
    requires forall u :: u in att[n] ==> StorageName in u.pvc.labels
    ensures Inv(st.(pvcs := pushed.pvcs), att)
            <==> Dropped(att[n], ByName(cfg.storage)) == {} && Fresh(cfg.storage, StorageNames(att[n])) == []
  {
    var gone, added := Dropped(att[n], ByName(cfg.storage)), Fresh(cfg.storage, StorageNames(att[n]));
    if gone == {} && added == [] {
      WithoutNothing(st.pvcs, LabelledIn(gone));
      assert pushed.pvcs == st.pvcs + [] == st.pvcs;
    } else if gone != {} {
      var u := DroppedClaimGone(st.pvcs, att[n], cfg, canon, pushed);
      Dangling(st.(pvcs := pushed.pvcs), att, n, u);
    } else {
      AddedClaimUnowned(st, att, n, cfg, canon, pushed, added[0]);
    }
  }

  lemma DroppedClaimGone(pvcs: seq<PVC>, users: seq<Attachment>, cfg: Config, canon: Canon, pushed: Pushed)
    returns (u: Attachment)
    requires PushOutcome(pvcs, users, cfg.storage, cfg.name, cfg.application, canon, pushed)
    requires Dropped(users, ByName(cfg.storage)) != {} && forall u :: u in users ==> StorageName in u.pvc.labels
    ensures u in users && u.pvc !in pushed.pvcs
  {
    var gone := Dropped(users, ByName(cfg.storage));
    var name :| name in gone;
    u :| u in users && StorageNameOf(u) !in ByName(cfg.storage) && StorageNameOf(u) == name;
    WithoutMembers(pvcs, LabelledIn(gone));
    assert LabelledIn(gone)(u.pvc);
    NotAmongNew(cfg.storage, StorageNames(users), NewClaim(cfg.name, cfg.application, canon), cfg, canon, u.pvc);
  }

  /** A claim of a storage that the config lacks is none of the new ones. */
  lemma NotAmongNew(items: seq<Storage>, known: set<string>, claim: Storage -> PVC, cfg: Config, canon: Canon, p: PVC)
    requires claim == NewClaim(cfg.name, cfg.application, canon) && StorageName in p.labels
    requires p.labels[StorageName] !in ByName(items)
    ensures p !in Map(claim, Fresh(items, known))
  {
    var added := Fresh(items, known);
    WithoutMembers(items, KnownIn(known));
    ByNameFacts(items);
    forall k | 0 <= k < |added| ensures claim(added[k]) != p {
      assert added[k] in added && claim(added[k]).labels[StorageName] == added[k].name;
    }
  }

  lemma Dangling(st: ClusterState, att: map<string, seq<Attachment>>, n: string, u: Attachment)
    requires n in st.dcs && n in att && u in att[n] && u.pvc !in st.pvcs
    ensures !Inv(st, att)
  {
  }

  lemma AddedClaimUnowned(st: ClusterState, att: map<string, seq<Attachment>>, n: string, cfg: Config, canon: Canon,
                          pushed: Pushed, s: Storage)
    requires Inv(st, att) && n in st.dcs && LabelsMatch(st.dcs[n].meta.labels, cfg)
    requires PushOutcome(st.pvcs, att[n], cfg.storage, cfg.name, cfg.application, canon, pushed)
    requires s in Fresh(cfg.storage, StorageNames(att[n]))
    ensures !Inv(st.(pvcs := pushed.pvcs), att)
  {
    NewClaimListed(st.pvcs, att[n], cfg, canon, pushed, s);
    var p, next := NewClaim(cfg.name, cfg.application, canon)(s), st.(pvcs := pushed.pvcs);
    if Owned(next, att, p) {
      var m, u := AttachedTo(next, att, p);
      InvComponents(st, att);
      NotYetAttached(st.dcs[m], m, att[m], st.dcs[n].meta.labels, n, cfg, s, p);
    } else {
      Unowned(next, att, p);
    }
  }

  lemma InvComponents(st: ClusterState, att: map<string, seq<Attachment>>)
    requires Inv(st, att)
    ensures AllComponentsOk(st.dcs, att)
  {
  }

  lemma Unowned(st: ClusterState, att: map<string, seq<Attachment>>, p: PVC)
    requires p in st.pvcs && !Owned(st, att, p)
    ensures !Inv(st, att)
  {
  }

  lemma NewClaimListed(pvcs: seq<PVC>, users: seq<Attachment>, cfg: Config, canon: Canon, pushed: Pushed, s: Storage)
    requires PushOutcome(pvcs, users, cfg.storage, cfg.name, cfg.application, canon, pushed)
    requires s in Fresh(cfg.storage, StorageNames(users))
    ensures NewClaim(cfg.name, cfg.application, canon)(s) in pushed.pvcs && s.name !in StorageNames(users)
  {
    var added, claim := Fresh(cfg.storage, StorageNames(users)), NewClaim(cfg.name, cfg.application, canon);
    WithoutMembers(cfg.storage, KnownIn(StorageNames(users)));
    var k :| 0 <= k < |added| && added[k] == s;
    assert Map(claim, added)[k] == claim(s);
  }

  /** A claim of the component for a storage it does not have is attached to no component. */
  lemma NotYetAttached(dc: DC, m: string, users: seq<Attachment>, own: Labels, n: string, cfg: Config,
                       s: Storage, p: PVC)
    requires ComponentOk(dc, m, users) && Identified(own, n) && LabelsMatch(own, cfg)
    requires p.labels == StorageLabels(s.name, cfg.name, cfg.application) && Attached(users, p)
    ensures m == n && s.name in StorageNames(users)
  {
    var u :| u in users && u.pvc == p;
    assert StorageClaim(p, dc.meta.labels);
    assert p.labels[ComponentName] == dc.meta.labels[ComponentName] == cfg.name;
    assert p.labels[ApplicationName] == dc.meta.labels[ApplicationName] == cfg.application;
    assert StorageNameOf(u) == s.name;
  }
}
