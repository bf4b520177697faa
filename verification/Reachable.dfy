// The states the other theorems speak of exist: a component with any storage can be taken through every
// sequence of source types.

module Reachable {
  import opened Cluster
  import opened Component
  import opened Convergence
  import opened Creation
  import opened EnvVars
  import GoSlice
  import opened Images
  import opened Invariant
  import opened Lifecycle
  import opened Lists
  import opened Names
  import opened Objects
  import opened Ports
  import opened Progress
  import opened PushEffects
  import opened Results
  import opened Runs
  import Secrets
  import opened Shapes
  import opened StorageSync
  import opened Updates
  import opened UserStorage

  // ------------------------------------------------------------ an order always exists

  lemma {:induction false} SomeOrder(mount: map<string, PVC>) returns (requests: seq<MountRequest>)
    ensures Enumerates(requests, mount)
    decreases |mount|
  {
    if mount == map[] {
      requests := [];
    } else {
      var path :| path in mount;
      requests := SomeOrder(mount - {path});
      OneMoreRequest(mount, path, requests);
      requests := [MountRequest(path, mount[path], "aaaaa")] + requests;
    }
  }

  lemma OneMoreRequest(mount: map<string, PVC>, path: string, rest: seq<MountRequest>)
    requires path in mount && Enumerates(rest, mount - {path})
    ensures Enumerates([MountRequest(path, mount[path], "aaaaa")] + rest, mount)
  {
    var r := MountRequest(path, mount[path], "aaaaa");
    var requests := [r] + rest;
    forall i, j | 0 <= i < j < |requests| ensures requests[i].path != requests[j].path {
      assert requests[j] == rest[j - 1] && rest[j - 1] in rest;
    }
    forall p | p in mount ensures exists q :: q in requests && q.path == p {
      if p == path {
        assert r in requests;
      } else {
        assert p in mount - {path};
        var q :| q in rest && q.path == p;
        assert q in requests;
      }
    }
  }

  // ------------------------------------------------------------ a component as configured

  /** Sizes as the API writes them. */
  ghost predicate Canonical(items: seq<Storage>, canon: Canon) {
    forall s :: s in items ==> canon(s.size) == Some(s.size)
  }

  /** A config and a world with which a component can be created in an empty project. */
  ghost predicate Willing(cfg: Config, world: World, canon: Canon) {
    && GoodStorage(cfg.storage) && Creatable(cfg.storage, cfg.application, canon)
    && NamesFree([], cfg.storage, cfg.application)
    && WillingWorld(cfg, world, canon)
  }

  ghost predicate WillingWorld(cfg: Config, world: World, canon: Canon) {
    && InputsOk(cfg, canon) && cfg.source != "" && NamespaceOpenShiftObject(cfg.name, cfg.application).Ok?
    && ENV_SRC_BACKUP_DIR !in EnvVars.Names(ParseEnvs(PrintEnvs(cfg.env)).value)
    && PortsToServe(cfg, world).Ok? && Distinct(PortNumbers(PortsToServe(cfg, world).value))
    && world.imageStream.Ok? && world.streamImage.Ok? && world.s2i.Ok? && world.sourceIsDir &&
       canon(APP_ROOT_SIZE).Some?
    && world.imageStreamCreated && world.serviceCreated && world.buildOk && world.rolloutOk
  }

  function LabelsOf(cfg: Config): Labels
    requires ParseImageName(cfg.imageType).Ok?
  {
    MetaFor(cfg, Key(cfg), ParseImageName(cfg.imageType).value, GIT).labels
  }

  function OfType(cfg: Config, t: SrcType): Config {
    cfg.(sourceType := t)
  }

  /** The component is there with its own labels on DC and build config, and with the configured storage. */
  ghost predicate AsWished(st: ClusterState, users: seq<Attachment>, n: string, labels: Labels, items: seq<Storage>,
                           canon: Canon) {
    && n in st.dcs && st.dcs[n].meta.labels == labels && (n in st.bcs ==> st.bcs[n] == labels)
    && Matching(users, items, {}, canon)
  }

  // ------------------------------------------------------------ pushing again is idle

  lemma IdlePush(st: ClusterState, att: map<string, seq<Attachment>>, n: string, cfg: Config, canon: Canon)
    requires Inv(st, att) && n in st.dcs && LabelsMatch(st.dcs[n].meta.labels, cfg)
    requires Matching(att[n], cfg.storage, {}, canon) && GoodStorage(cfg.storage) && Canonical(cfg.storage, canon)
    ensures PushStorage(st, cfg.storage, cfg.name, cfg.application, true, canon) == Ok(Pushed(st.pvcs, map[], map[]))
  {
    ShowsAfter(st, att, n, cfg, {}, canon);
    IdleAgain(st, cfg, canon);
  }

  lemma IdleAgain(st: ClusterState, cfg: Config, canon: Canon)
    requires GoodStorage(cfg.storage) && Canonical(cfg.storage, canon) && Shows(st, cfg, {}, canon)
    ensures PushStorage(st, cfg.storage, cfg.name, cfg.application, true, canon) == Ok(Pushed(st.pvcs, map[], map[]))
  {
    SecondPushIff(st, cfg, {}, canon);
  }

  lemma NothingToDrop(users: seq<Attachment>, items: seq<Storage>, canon: Canon)
    requires Matching(users, items, {}, canon)
    ensures !GoSlice.LastAndEarlier(users, DroppedBy(ByName(items)))
    ensures GoSlice.RangeSafe(users, DroppedBy(ByName(items)))
    ensures Without(users, DroppedBy(ByName(items))) == users
  {
    forall u | u in users ensures !DroppedBy(ByName(items))(u) {
      assert SettledFrom(StorageOf(u), items, {}, canon);
    }
    assert forall k :: 0 <= k < |users| ==> users[k] in users;
    WithoutNothing(users, DroppedBy(ByName(items)));
  }

  lemma NothingIntended(att: map<string, seq<Attachment>>, cfg: Config, world: World, canon: Canon)
    requires Key(cfg) in att && Matching(att[Key(cfg)], cfg.storage, {}, canon)
    ensures NextAttachments(att, Update(cfg, world, [])) == att
  {
    NothingToDrop(att[Key(cfg)], cfg.storage, canon);
    assert Intended(att[Key(cfg)], cfg, []) == att[Key(cfg)];
  }

  // ------------------------------------------------------------ one more update

  lemma WillingIsReady(current: DC, kept: bool, cfg: Config, world: World, canon: Canon)
    requires WillingWorld(cfg, world, canon)
    ensures WorldReady(current, kept, cfg, world, canon)
  {
  }

  lemma WillingMoves(st: ClusterState, users: seq<Attachment>, n: string, cfg: Config, requests: seq<MountRequest>,
                     world: World, canon: Canon)
    requires WillingWorld(cfg, world, canon) && n in st.dcs
    requires !GoSlice.LastAndEarlier(users, DroppedBy(ByName(cfg.storage)))
    ensures MoveAccepted(st, users, n, cfg, requests, world, canon)
  {
    var kept := KeptBy(st.dcs[n], users, SpecOf(FirstSpec(st.dcs[n]), cfg, canon), cfg, requests, world);
    WillingIsReady(st.dcs[n], kept, cfg, world, canon);
  }

  lemma WishedIsSafe(st: ClusterState, att: map<string, seq<Attachment>>, cfg: Config, world: World, canon: Canon)
    requires WillingWorld(cfg, world, canon) && Key(cfg) in att
    requires AsWished(st, att[Key(cfg)], Key(cfg), LabelsOf(cfg), cfg.storage, canon)
    requires Key(cfg) in st.bcs <==> st.dcs[Key(cfg)].meta.sourceType == GIT
    ensures SafeUpdate(st, att, cfg)
  {
    NothingToDrop(att[Key(cfg)], cfg.storage, canon);
  }

  lemma WishedIsFound(st: ClusterState, users: seq<Attachment>, cfg: Config, world: World, canon: Canon)
    requires WillingWorld(cfg, world, canon) && AsWished(st, users, Key(cfg), LabelsOf(cfg), cfg.storage, canon)
    ensures LabelsMatch(st.dcs[Key(cfg)].meta.labels, cfg) && Found(st, cfg)
  {
    MetaIdentified(cfg, Key(cfg), ParseImageName(cfg.imageType).value, GIT);
  }

  lemma NextAdmissible(st: ClusterState, att: map<string, seq<Attachment>>, cfg: Config, world: World, canon: Canon)
    requires GoodStorage(cfg.storage) && cfg.sourceType != NONE && SafeUpdate(st, att, cfg)
    requires PushStorage(st, cfg.storage, cfg.name, cfg.application, true, canon) == Ok(Pushed(st.pvcs, map[], map[]))
    ensures Admissible(st, att, Update(cfg, world, []), canon)
  {
  }

  lemma IdleUpdateSucceeds(st: ClusterState, att: map<string, seq<Attachment>>, n: string, cfg: Config, world: World,
                           canon: Canon)
    requires Inv(st, att) && n in st.dcs && LabelsMatch(st.dcs[n].meta.labels, cfg) && GoodStorage(cfg.storage)
    requires NamespaceOpenShiftObject(cfg.name, cfg.application) == Ok(n) && WillingWorld(cfg, world, canon)
    requires PushStorage(st, cfg.storage, cfg.name, cfg.application, true, canon) == Ok(Pushed(st.pvcs, map[], map[]))
    requires !GoSlice.LastAndEarlier(att[n], DroppedBy(ByName(cfg.storage)))
    ensures UpdateComponent(st, cfg, world, [], canon).Ok?
  {
    InvComponentAt(st, att, n);
    PushedUpdateIff(st, att, n, cfg, world, [], canon);
    WillingMoves(st, att[n], n, cfg, [], world, canon);
  }

  lemma MetaAfterUpdate(st: ClusterState, att: map<string, seq<Attachment>>, cfg: Config, world: World,
                        requests: seq<MountRequest>, canon: Canon)
    requires Inv(st, att) && cfg.sourceType != NONE && UpdateComponent(st, cfg, world, requests, canon).Ok?
    ensures var n, next := Key(cfg), UpdateComponent(st, cfg, world, requests, canon).value;
            n in st.dcs && n in next.dcs && ParseImageName(cfg.imageType).Ok? &&
            next.dcs[n].meta == MetaFor(cfg, n, ParseImageName(cfg.imageType).value, cfg.sourceType) &&
            BuildsMoved(st.bcs, st.dcs[n].meta.sourceType, next.dcs[n].meta, next.bcs)
  {
    var n, pushed, p := UpdateSplits(st, att, cfg, world, requests, canon);
    MoveForm(st.(pvcs := pushed.pvcs), st.dcs[n], att[n], p, cfg.source, world, canon);
    WrittenDC(st.dcs[n], att[n], p, LookUpS2I(world));
  }

  lemma BuildLabelsStay(n: string, labels: Labels, before: ClusterState, after: ClusterState, meta: Meta)
    requires n in before.dcs && n in after.dcs && after.dcs[n].meta == meta && meta.labels == labels && meta.name == n
    requires n in before.bcs ==> before.bcs[n] == labels
    requires BuildsMoved(before.bcs, before.dcs[n].meta.sourceType, meta, after.bcs)
    ensures n in after.bcs ==> after.bcs[n] == labels
  {
  }

  lemma WishedAfterUpdate(st: ClusterState, att: map<string, seq<Attachment>>, cfg: Config, world: World, canon: Canon)
    requires Inv(st, att) && ParseImageName(cfg.imageType).Ok? && cfg.sourceType != NONE && Key(cfg) in att
    requires AsWished(st, att[Key(cfg)], Key(cfg), LabelsOf(cfg), cfg.storage, canon)
    requires UpdateComponent(st, cfg, world, [], canon).Ok?
    ensures var next := UpdateComponent(st, cfg, world, [], canon).value;
            AsWished(next, att[Key(cfg)], Key(cfg), LabelsOf(cfg), cfg.storage, canon) &&
            next.dcs[Key(cfg)].meta.sourceType == cfg.sourceType
  {
    MetaAfterUpdate(st, att, cfg, world, [], canon);
    var next, n := UpdateComponent(st, cfg, world, [], canon).value, Key(cfg);
    BuildLabelsStay(n, LabelsOf(cfg), st, next, next.dcs[n].meta);
  }

  lemma OneUpdateSucceeds(st: ClusterState, att: map<string, seq<Attachment>>, cfg: Config, world: World, canon: Canon)
    requires Inv(st, att) && Willing(cfg, world, canon) && Canonical(cfg.storage, canon) && cfg.sourceType != NONE
    requires Key(cfg) in att
    requires AsWished(st, att[Key(cfg)], Key(cfg), LabelsOf(cfg), cfg.storage, canon)
    ensures Admissible(st, att, Update(cfg, world, []), canon) && UpdateComponent(st, cfg, world, [], canon).Ok?
  {
    var n := Key(cfg);
    WishedIsFound(st, att[n], cfg, world, canon);
    IdlePush(st, att, n, cfg, canon);
    InvBuilds(st, att, n);
    WishedIsSafe(st, att, cfg, world, canon);
    NextAdmissible(st, att, cfg, world, canon);
    NothingToDrop(att[n], cfg.storage, canon);
    IdleUpdateSucceeds(st, att, n, cfg, world, canon);
  }

  /** One more update between source types, with everything the next one needs. */
  lemma OneUpdate(st: ClusterState, att: map<string, seq<Attachment>>, cfg: Config, world: World, canon: Canon)
    returns (next: ClusterState)
    requires Inv(st, att) && Willing(cfg, world, canon) && Canonical(cfg.storage, canon) && cfg.sourceType != NONE
    requires Key(cfg) in att
    requires AsWished(st, att[Key(cfg)], Key(cfg), LabelsOf(cfg), cfg.storage, canon)
    ensures Admissible(st, att, Update(cfg, world, []), canon) && UpdateComponent(st, cfg, world, [], canon) == Ok(next)
    ensures Inv(next, att) && AsWished(next, att[Key(cfg)], Key(cfg), LabelsOf(cfg), cfg.storage, canon)
    ensures next.dcs[Key(cfg)].meta.sourceType == cfg.sourceType
  {
    OneUpdateSucceeds(st, att, cfg, world, canon);
    next := UpdateComponent(st, cfg, world, [], canon).value;
    NothingIntended(att, cfg, world, canon);
    WishedAfterUpdate(st, att, cfg, world, canon);
    StepKeeps(st, att, Update(cfg, world, []), canon);
  }

  // ------------------------------------------------------------ the first step

  lemma FirstPushAccepted(cfg: Config, world: World, canon: Canon)
    requires Willing(cfg, world, canon)
    ensures PushAccepted([], [], cfg.storage, cfg.application, canon)
  {
    var added := Fresh(cfg.storage, StorageNames([]));
    assert StorageNames([]) == {};
    WithoutNothing(cfg.storage, KnownIn(StorageNames([])));
    assert added == cfg.storage;
    assert Without([], LabelledIn(Dropped([], ByName(cfg.storage)))) == [];
  }

  lemma MetaAfterCreate(st: ClusterState, cfg: Config, world: World, requests: seq<MountRequest>, canon: Canon)
    requires CreateComponent(st, cfg, world, requests, canon).Ok?
    ensures var n, next := Key(cfg), CreateComponent(st, cfg, world, requests, canon).value;
            n in next.dcs && ParseImageName(cfg.imageType).Ok? &&
            next.dcs[n].meta == MetaFor(cfg, n, ParseImageName(cfg.imageType).value, CreatedType(cfg)) &&
            next.bcs == if CreatedType(cfg) == GIT then st.bcs[n := next.dcs[n].meta.labels] else st.bcs
  {
    var n, pushed, plan := CreateForm(st, cfg, world, requests, canon);
    SupervisedBaseContainer(plan.meta, plan.spec, plan.env, []);
  }

  lemma EmptyIsReady(cfg: Config, world: World, canon: Canon)
    requires WillingWorld(cfg, world, canon)
    ensures WorldReadyToCreate([], cfg, world, canon)
  {
    assert Map(NameOfSecret, []) == [];
  }

  lemma PushIntoEmpty(cfg: Config, world: World, canon: Canon) returns (pushed: Pushed)
    requires Willing(cfg, world, canon)
    ensures PushStorage(EMPTY, cfg.storage, cfg.name, cfg.application, false, canon) == Ok(pushed)
  {
    FirstPushAccepted(cfg, world, canon);
    FirstPushSucceedsIff(EMPTY, cfg.storage, canon, cfg.name, cfg.application);
    pushed := PushStorage(EMPTY, cfg.storage, cfg.name, cfg.application, false, canon).value;
  }

  /** Creating the component in an empty project, its storages mounted in the order of the requests. */
  lemma FirstStep(cfg: Config, world: World, canon: Canon, pushed: Pushed, requests: seq<MountRequest>)
    returns (step: Step)
    requires Willing(cfg, world, canon) && cfg.sourceType != NONE
    requires PushStorage(EMPTY, cfg.storage, cfg.name, cfg.application, false, canon) == Ok(pushed)
    requires Enumerates(requests, pushed.mount)
    ensures step == Create(cfg, world, requests)
    ensures Admissible(EMPTY, map[], step, canon) && StepResult(EMPTY, step, canon).Ok?
    ensures NextAttachments(map[], step) == map[Key(cfg) := requests]
    ensures AsWished(StepResult(EMPTY, step, canon).value, requests, Key(cfg), LabelsOf(cfg), cfg.storage, canon)
    ensures StepResult(EMPTY, step, canon).value.dcs[Key(cfg)].meta.sourceType == cfg.sourceType
  {
    step := Create(cfg, world, requests);
    FirstAdmissible(cfg, world, canon, pushed, requests);
    FirstCreation(cfg, world, canon, pushed, requests);
    CreatedAsWished(cfg, world, canon, requests);
  }

  lemma FirstAdmissible(cfg: Config, world: World, canon: Canon, pushed: Pushed, requests: seq<MountRequest>)
    requires GoodStorage(cfg.storage) && WillingWorld(cfg, world, canon)
    requires PushStorage(EMPTY, cfg.storage, cfg.name, cfg.application, false, canon) == Ok(pushed)
    requires Enumerates(requests, pushed.mount)
    ensures Admissible(EMPTY, map[], Create(cfg, world, requests), canon)
    ensures NextAttachments(map[], Create(cfg, world, requests)) == map[Key(cfg) := requests]
  {
  }

  lemma CreatedAsWished(cfg: Config, world: World, canon: Canon, requests: seq<MountRequest>)
    requires CreateComponent(EMPTY, cfg, world, requests, canon).Ok? && cfg.sourceType != NONE
    requires Matching(requests, cfg.storage, {}, canon)
    ensures ParseImageName(cfg.imageType).Ok?
    ensures var st := CreateComponent(EMPTY, cfg, world, requests, canon).value;
            AsWished(st, requests, Key(cfg), LabelsOf(cfg), cfg.storage, canon) &&
            st.dcs[Key(cfg)].meta.sourceType == cfg.sourceType
  {
    MetaAfterCreate(EMPTY, cfg, world, requests, canon);
  }

  lemma FirstCreation(cfg: Config, world: World, canon: Canon, pushed: Pushed, requests: seq<MountRequest>)
    requires Willing(cfg, world, canon)
    requires PushStorage(EMPTY, cfg.storage, cfg.name, cfg.application, false, canon) == Ok(pushed)
    requires Enumerates(requests, pushed.mount)
    ensures CreateComponent(EMPTY, cfg, world, requests, canon).Ok? && Matching(requests, cfg.storage, {}, canon)
  {
    EmptyIsFine();
    FirstPushAccepted(cfg, world, canon);
    EmptyIsReady(cfg, world, canon);
    CreateSucceedsIff(EMPTY, map[], cfg, world, requests, canon);
    CreateMatches(EMPTY, map[], cfg, canon, pushed, requests);
  }

  ghost predicate SteadyAt(st: ClusterState, att: map<string, seq<Attachment>>, n: string, labels: Labels,
                           items: seq<Storage>, canon: Canon)
  {
    Inv(st, att) && n in att && AsWished(st, att[n], n, labels, items, canon)
  }

  /** The state after that one step. */
  lemma Founded(cfg: Config, world: World, canon: Canon, pushed: Pushed, requests: seq<MountRequest>)
    returns (steps: seq<Step>, st: ClusterState, att: map<string, seq<Attachment>>)
    requires Willing(cfg, world, canon) && cfg.sourceType != NONE
    requires PushStorage(EMPTY, cfg.storage, cfg.name, cfg.application, false, canon) == Ok(pushed)
    requires Enumerates(requests, pushed.mount)
    ensures steps == [Create(cfg, world, requests)] && Reaches(EMPTY, map[], steps, canon, st, att)
    ensures CreateComponent(EMPTY, cfg, world, requests, canon) == Ok(st) && att == map[Key(cfg) := requests]
    ensures SteadyAt(st, att, Key(cfg), LabelsOf(cfg), cfg.storage, canon)
    ensures st.dcs[Key(cfg)].meta.sourceType == cfg.sourceType
    ensures Admissible(EMPTY, map[], steps[0], canon) && NextAttachments(map[], steps[0]) == att
    ensures st.dcs.Keys == {Key(cfg)} && Distinct(PvcNames(st.pvcs))
  {
    var step := FirstStep(cfg, world, canon, pushed, requests);
    st, att := FoundedBy(step, Key(cfg), LabelsOf(cfg), canon);
    steps := [step];
  }

  lemma FoundedBy(step: Step, n: string, labels: Labels, canon: Canon)
    returns (st: ClusterState, att: map<string, seq<Attachment>>)
    requires step.Create? && Admissible(EMPTY, map[], step, canon) && StepResult(EMPTY, step, canon).Ok?
    requires NextAttachments(map[], step) == map[n := step.requests]
    requires AsWished(StepResult(EMPTY, step, canon).value, step.requests, n, labels, step.cfg.storage, canon)
    ensures StepResult(EMPTY, step, canon) == Ok(st) && att == map[n := step.requests]
    ensures Reaches(EMPTY, map[], [step], canon, st, att)
    ensures SteadyAt(st, att, n, labels, step.cfg.storage, canon) && st.dcs.Keys == {n} && Distinct(PvcNames(st.pvcs))
  {
    st, att := StepResult(EMPTY, step, canon).value, map[n := step.requests];
    OneStep(step, canon);
    SteadyFrom(st, att, n, labels, step.cfg.storage, canon);
  }

  lemma SteadyFrom(st: ClusterState, att: map<string, seq<Attachment>>, n: string, labels: Labels, items: seq<Storage>,
                   canon: Canon)
    requires Inv(st, att) && n in att && AsWished(st, att[n], n, labels, items, canon)
    ensures SteadyAt(st, att, n, labels, items, canon)
  {
  }

  lemma KeysAndClaims(st: ClusterState, att: map<string, seq<Attachment>>)
    requires Inv(st, att)
    ensures st.dcs.Keys == att.Keys && Distinct(PvcNames(st.pvcs))
  {
  }

  lemma OneStep(step: Step, canon: Canon)
    requires step.Create? && Admissible(EMPTY, map[], step, canon) && StepResult(EMPTY, step, canon).Ok?
    ensures Reaches(EMPTY, map[], [step], canon, StepResult(EMPTY, step, canon).value, NextAttachments(map[], step))
    ensures Inv(StepResult(EMPTY, step, canon).value, NextAttachments(map[], step))
    ensures StepResult(EMPTY, step, canon).value.dcs.Keys == NextAttachments(map[], step).Keys
    ensures Distinct(PvcNames(StepResult(EMPTY, step, canon).value.pvcs))
  {
    var st, att := StepResult(EMPTY, step, canon).value, NextAttachments(map[], step);
    EmptyIsFine();
    StepKeeps(EMPTY, map[], step, canon);
    KeysAndClaims(st, att);
    ReachesNothing(st, att, canon);
    ReachesCons(EMPTY, map[], step, [], canon, st, att);
    assert [step] + [] == [step];
  }

  // ------------------------------------------------------------ every sequence of source types

  lemma ReachesCons(st: ClusterState, att: map<string, seq<Attachment>>, first: Step, rest: seq<Step>, canon: Canon,
                    end: ClusterState, attEnd: map<string, seq<Attachment>>)
    requires Admissible(st, att, first, canon) && StepResult(st, first, canon).Ok?
    requires Reaches(StepResult(st, first, canon).value, NextAttachments(att, first), rest, canon, end, attEnd)
    ensures Reaches(st, att, [first] + rest, canon, end, attEnd)
  {
    assert ([first] + rest)[1..] == rest;
  }

  lemma ReachesNothing(st: ClusterState, att: map<string, seq<Attachment>>, canon: Canon)
    ensures Reaches(st, att, [], canon, st, att)
  {
  }

  /** One step, then another. */
  lemma ReachesInTwo(st: ClusterState, att: map<string, seq<Attachment>>, first: Step, second: Step, canon: Canon,
                     next: ClusterState, attNext: map<string, seq<Attachment>>)
    requires Admissible(st, att, first, canon) && StepResult(st, first, canon) == Ok(next)
    requires NextAttachments(att, first) == attNext
    requires Admissible(next, attNext, second, canon) && StepResult(next, second, canon).Ok?
    ensures Reaches(st, att, [first] + [second], canon,
                    StepResult(next, second, canon).value, NextAttachments(attNext, second))
  {
    var end, attEnd := StepResult(next, second, canon).value, NextAttachments(attNext, second);
    ReachesNothing(end, attEnd, canon);
    ReachesCons(next, attNext, second, [], canon, end, attEnd);
    assert [second] + [] == [second];
    ReachesCons(st, att, first, [second], canon, end, attEnd);
  }

  lemma OfTypeIsWilling(cfg: Config, world: World, canon: Canon, t: SrcType)
    requires Willing(cfg, world, canon)
    ensures Willing(OfType(cfg, t), world, canon) && Key(OfType(cfg, t)) == Key(cfg)
    ensures LabelsOf(OfType(cfg, t)) == LabelsOf(cfg)
  {
  }

  /** A component as configured that is in order, and a config and world for it. Stated for every
      name equal to the config's, so that proofs unfold it only where they name the component. */
  ghost predicate Steady(st: ClusterState, att: map<string, seq<Attachment>>, cfg: Config, world: World, canon: Canon) {
    Willing(cfg, world, canon) && Canonical(cfg.storage, canon) && Key(cfg) in st.dcs &&
    forall n :: n == Key(cfg) ==> SteadyAt(st, att, n, LabelsOf(cfg), cfg.storage, canon)
  }

  lemma SteadyStep(st: ClusterState, att: map<string, seq<Attachment>>, cfg: Config, world: World, canon: Canon,
                   t: SrcType)
    returns (next: ClusterState)
    requires Steady(st, att, cfg, world, canon) && t != NONE
    ensures Steady(next, att, cfg, world, canon) && next.dcs[Key(cfg)].meta.sourceType == t
    ensures forall rest, end, attEnd :: Reaches(next, att, rest, canon, end, attEnd) ==>
              Reaches(st, att, [Update(OfType(cfg, t), world, [])] + rest, canon, end, attEnd)
  {
    var typed := OfType(cfg, t);
    assert SteadyAt(st, att, Key(cfg), LabelsOf(cfg), cfg.storage, canon);
    OfTypeIsWilling(cfg, world, canon, t);
    next := OneUpdate(st, att, typed, world, canon);
    NothingIntended(att, typed, world, canon);
    forall rest, end, attEnd | Reaches(next, att, rest, canon, end, attEnd)
      ensures Reaches(st, att, [Update(typed, world, [])] + rest, canon, end, attEnd)
    {
      ReachesCons(st, att, Update(typed, world, []), rest, canon, end, attEnd);
    }
  }

  /** From a component as configured on, every sequence of updates between source types succeeds. */
  lemma {:induction false} TypesReachableFrom(st: ClusterState, att: map<string, seq<Attachment>>, cfg: Config,
                                              world: World, canon: Canon, types: seq<SrcType>)
    returns (steps: seq<Step>, end: ClusterState)
    requires Steady(st, att, cfg, world, canon) && NONE !in types
    ensures |steps| == |types| && Reaches(st, att, steps, canon, end, att)
    ensures Steady(end, att, cfg, world, canon)
    ensures end.dcs[Key(cfg)].meta.sourceType ==
            if types == [] then st.dcs[Key(cfg)].meta.sourceType else types[|types| - 1]
    decreases types
  {
    if types == [] {
      steps, end := [], st;
    } else {
      var rest: seq<Step>;
      var next := SteadyStep(st, att, cfg, world, canon, types[0]);
      rest, end := TypesReachableFrom(next, att, cfg, world, canon, types[1..]);
      steps := [Update(OfType(cfg, types[0]), world, [])] + rest;
    }
  }

  lemma SteadyFirst(cfg: Config, world: World, canon: Canon, t: SrcType)
    returns (step: Step, next: ClusterState, attNext: map<string, seq<Attachment>>)
    requires Willing(cfg, world, canon) && Canonical(cfg.storage, canon) && t != NONE
    ensures Steady(next, attNext, cfg, world, canon) && next.dcs[Key(cfg)].meta.sourceType == t
    ensures forall rest, end, attEnd :: Reaches(next, attNext, rest, canon, end, attEnd) ==>
              Reaches(EMPTY, map[], [step] + rest, canon, end, attEnd)
  {
    var typed := OfType(cfg, t);
    EmptyIsFine();
    OfTypeIsWilling(cfg, world, canon, t);
    var pushed := PushIntoEmpty(typed, world, canon);
    var requests := SomeOrder(pushed.mount);
    step := FirstStep(typed, world, canon, pushed, requests);
    StepKeeps(EMPTY, map[], step, canon);
    next, attNext := StepResult(EMPTY, step, canon).value, NextAttachments(map[], step);
    forall rest, end, attEnd | Reaches(next, attNext, rest, canon, end, attEnd)
      ensures Reaches(EMPTY, map[], [step] + rest, canon, end, attEnd)
    {
      ReachesCons(EMPTY, map[], step, rest, canon, end, attEnd);
    }
  }

  /** EVERY SEQUENCE of source types can be run through, with any storage: with a readable config whose
      sizes are as the API writes them, and a world that plays along, a component can be created with the
      first type and updated to each next one, every step succeeding, and in the end it has exactly
      the configured storages attached. */
  lemma TypesReachable(cfg: Config, world: World, canon: Canon, types: seq<SrcType>)
    returns (steps: seq<Step>, st: ClusterState, att: map<string, seq<Attachment>>)
    requires Willing(cfg, world, canon) && Canonical(cfg.storage, canon) && types != [] && NONE !in types
    ensures |steps| == |types| && Reaches(EMPTY, map[], steps, canon, st, att)
    ensures Key(cfg) in st.dcs && st.dcs[Key(cfg)].meta.sourceType == types[|types| - 1]
    ensures Key(cfg) in att && Matching(att[Key(cfg)], cfg.storage, {}, canon)
  {
    var first, next, attNext := SteadyFirst(cfg, world, canon, types[0]);
    att := attNext;
    var rest: seq<Step>;
    rest, st := TypesReachableFrom(next, att, cfg, world, canon, types[1..]);
    steps := [first] + rest;
    SteadyMatches(st, att, cfg, world, canon);
  }

  lemma SteadyMatches(st: ClusterState, att: map<string, seq<Attachment>>, cfg: Config, world: World, canon: Canon)
    requires Steady(st, att, cfg, world, canon)
    ensures Key(cfg) in st.dcs && Key(cfg) in att && Matching(att[Key(cfg)], cfg.storage, {}, canon)
  {
    assert SteadyAt(st, att, Key(cfg), LabelsOf(cfg), cfg.storage, canon);
  }
}
