// One small component in a project, and what goes wrong with it: for each condition that the theorems
// ask for, a state reached from an empty project in which it is missing and the promise is broken.

module Witnesses {
  import opened Cluster
  import opened Component
  import opened Convergence
  import opened Creation
  import opened Deployment
  import opened EnvVars
  import GoSlice
  import opened Images
  import opened Invariant
  import opened Lifecycle
  import opened Lists
  import opened Names
  import Links
  import opened Objects
  import opened Ports
  import opened Progress
  import opened PushEffects
  import opened Reachable
  import opened Results
  import opened Runs
  import Secrets
  import opened Shapes
  import opened StorageSync
  import Strings
  import opened Templates
  import opened Updates
  import opened Variables

  const PORT := ContainerPort("8080-tcp", 8080, TCP)

  /** A builder image that exposes one port, in a world where everything works. */
  const WORLD := World(Ok(()), Ok(()), Ok([PORT]), Ok(S2IPaths("", "", "", "", "", "", "")), true, true, true, true,
                       true, true)

  /** An API that writes 1024Mi as 1Gi. */
  function Canonize(size: string): Option<string> {
    Some(if size == "1024Mi" then "1Gi" else size)
  }

  function Demo(t: SrcType, version: string, env: seq<EnvVar>, storage: seq<Storage>): Config {
    Config("c", "p", t, "s", "n/a:" + version, [], NO_LIMITS, env, storage)
  }

  const A := Storage("a", "1Gi", "/a")
  const B := Storage("b", "1Gi", "/b")
  const C := Storage("c", "1Gi", "/c")
  const X := EnvVar("x", "1")

  // ------------------------------------------------------------ the demo component is a fair one

  lemma Namespaced(name: string, application: string)
    requires '/' !in name && name != "" && application != "" && |name| + |application| < MAX_NAMESPACED_LENGTH
    ensures NamespaceOpenShiftObject(name, application) == Ok(name + "-" + application)
    ensures ClaimName(name, application) == PVCNameFromStorageName(name + "-" + application)
  {
    assert Strings.ReplaceChar(name, '/', '-') == name;
  }

  lemma ShortNames(application: string)
    requires application == "p" || application == "q"
    ensures forall s :: s in [A, B, C] ==> NamespaceOpenShiftObject(s.name, application).Ok?
    ensures Distinct([ClaimName("a", application), ClaimName("b", application), ClaimName("c", application)])
    ensures NamespaceOpenShiftObject("c", application) == Ok("c-" + application)
  {
    Namespaced("a", application);
    Namespaced("b", application);
    Namespaced("c", application);
    var a, b, c := ClaimName("a", application), ClaimName("b", application), ClaimName("c", application);
    assert a[0] == 'a' && b[0] == 'b' && c[0] == 'c';
    assert "c" + "-" == "c-";
  }

  lemma DemoWorldIsWilling(cfg: Config, version: string)
    requires cfg == Demo(cfg.sourceType, version, cfg.env, cfg.storage) && Free(version, {'@', ':'})
    requires cfg.env == [] || cfg.env == [X]
    ensures WillingWorld(cfg, WORLD, Canonize)
    ensures ParseImageName(cfg.imageType) == Ok(ImageRef("n", "a", version, "")) && Configured(cfg) == cfg.env
    ensures NamespaceOpenShiftObject(cfg.name, cfg.application) == Ok("c-p")
  {
    TaggedRoundTrip("n", "a", version);
    assert "n" + "/" + "a" + ":" + version == "n/a:" + version;
    Namespaced("c", "p");
    assert "c" + "-" + "p" == "c-p";
    assert Printable(cfg.env);
    EnvRoundTripIff(cfg.env);
    assert forall k :: 0 <= k < |EnvVars.Names(cfg.env)| ==> |EnvVars.Names(cfg.env)[k]| == 1;
  }

  lemma DemoStorages(items: seq<Storage>)
    requires items == [] || items == [A] || items == [C] || items == [A, B, C]
    ensures GoodStorage(items) && Creatable(items, "p", Canonize) && NamesFree([], items, "p")
  {
    ShortNames("p");
    assert PvcNames([]) == [];
    if items == [A, B, C] {
      ThreeStorages();
    }
  }

  lemma ThreeStorages()
    ensures GoodStorage([A, B, C]) && Distinct(Map(ClaimNameIn("p"), [A, B, C]))
  {
    ShortNames("p");
    assert Map(NameOfStorage, [A, B, C]) == ["a", "b", "c"] && Map(PathOfStorage, [A, B, C]) == ["/a", "/b", "/c"];
    assert Map(ClaimNameIn("p"), [A, B, C]) == [ClaimName("a", "p"), ClaimName("b", "p"), ClaimName("c", "p")];
  }

  lemma DemoIsWilling(cfg: Config, version: string)
    requires cfg == Demo(cfg.sourceType, version, cfg.env, cfg.storage) && Free(version, {'@', ':'})
    requires cfg.env == [] || cfg.env == [X]
    requires cfg.storage == [] || cfg.storage == [A] || cfg.storage == [C] || cfg.storage == [A, B, C]
    ensures Willing(cfg, WORLD, Canonize) && Key(cfg) == "c-p"
  {
    DemoWorldIsWilling(cfg, version);
    DemoStorages(cfg.storage);
  }

  /** A request for each storage, in the order of the config. */
  function RequestFor(claim: Storage -> PVC): Storage -> MountRequest {
    (s: Storage) => MountRequest(s.path, claim(s), "aaaaa")
  }

  lemma RequestsEnumerate(items: seq<Storage>, mount: map<string, PVC>, claim: Storage -> PVC)
    requires Distinct(Map(PathOfStorage, items)) && MountsFresh(mount, items, claim)
    ensures Enumerates(Map(RequestFor(claim), items), mount)
  {
    var requests := Map(RequestFor(claim), items);
    forall i, j | 0 <= i < j < |requests| ensures requests[i].path != requests[j].path {
      assert Map(PathOfStorage, items)[i] != Map(PathOfStorage, items)[j];
    }
    forall r | r in requests ensures r.path in mount && mount[r.path] == r.pvc && |r.random| == RANDOM_LENGTH {
      var k :| 0 <= k < |items| && requests[k] == r;
      assert items[k] in items;
    }
    forall path | path in mount ensures exists r :: r in requests && r.path == path {
      var s :| s in items && s.path == path;
      var k :| 0 <= k < |items| && items[k] == s;
      assert requests[k] in requests;
    }
  }

  /** A git component with storage in a project of its own: its claims are those of its storages. */
  lemma GitComponent(cfg: Config) returns (steps: seq<Step>, st: ClusterState, att: map<string, seq<Attachment>>)
    requires Willing(cfg, WORLD, Canonize) && cfg.sourceType == GIT && cfg.ports == []
    ensures Reaches(EMPTY, map[], steps, Canonize, st, att)
    ensures SteadyAt(st, att, Key(cfg), LabelsOf(cfg), cfg.storage, Canonize) && st.dcs[Key(cfg)].meta.sourceType == GIT
    ensures var claim := NewClaim(cfg.name, cfg.application, Canonize);
            st.pvcs == Map(claim, cfg.storage) && att == map[Key(cfg) := Map(RequestFor(claim), cfg.storage)]
    ensures Distinct(PvcNames(st.pvcs)) && st.dcs.Keys == {Key(cfg)}
    ensures Map(NameOfSecret, st.secrets) == [Secrets.SecretNameFor(Key(cfg), 8080)]
    ensures |steps| == 1 && steps[0].Create? && Admissible(EMPTY, map[], steps[0], Canonize)
    ensures StepResult(EMPTY, steps[0], Canonize) == Ok(st) && NextAttachments(map[], steps[0]) == att
  {
    var pushed := PushedIntoEmpty(cfg);
    var requests := Map(RequestFor(NewClaim(cfg.name, cfg.application, Canonize)), cfg.storage);
    steps, st, att := Founded(cfg, WORLD, Canonize, pushed, requests);
    GitClaims(cfg, requests, pushed, st);
    OneSecret(cfg, requests, st);
  }

  lemma OneSecret(cfg: Config, requests: seq<MountRequest>, st: ClusterState)
    requires CreateComponent(EMPTY, cfg, WORLD, requests, Canonize) == Ok(st) && cfg.ports == []
    ensures Map(NameOfSecret, st.secrets) == [Secrets.SecretNameFor(Key(cfg), 8080)]
  {
    var n, again, plan := CreateForm(EMPTY, cfg, WORLD, requests, Canonize);
    ExposedNames(cfg.name, plan.meta, st.secrets);
  }

  lemma ExposedNames(component: string, meta: Meta, secrets: seq<Secret>)
    requires ExposedSecrets([], component, meta, [PORT], WORLD) == Ok(secrets)
    ensures Map(NameOfSecret, secrets) == [Secrets.SecretNameFor(meta.name, 8080)]
  {
    assert PortNumbers([PORT]) == [8080];
    Secrets.CreatedIff([], SecretOwner(component, meta), AnnotationsOf(meta), [8080]);
  }

  lemma PushedIntoEmpty(cfg: Config) returns (pushed: Pushed)
    requires Willing(cfg, WORLD, Canonize)
    ensures PushStorage(EMPTY, cfg.storage, cfg.name, cfg.application, false, Canonize) == Ok(pushed)
    ensures var claim := NewClaim(cfg.name, cfg.application, Canonize);
            pushed.pvcs == Map(claim, cfg.storage) && Enumerates(Map(RequestFor(claim), cfg.storage), pushed.mount)
  {
    pushed := PushIntoEmpty(cfg, WORLD, Canonize);
    FirstPushEffect(EMPTY, cfg.storage, Canonize, cfg.name, cfg.application);
    AllFresh(cfg.storage);
    RequestsEnumerate(cfg.storage, pushed.mount, NewClaim(cfg.name, cfg.application, Canonize));
    assert Without([], LabelledIn(Dropped([], ByName(cfg.storage)))) == [];
  }

  lemma GitClaims(cfg: Config, requests: seq<MountRequest>, pushed: Pushed, st: ClusterState)
    requires CreateComponent(EMPTY, cfg, WORLD, requests, Canonize) == Ok(st) && cfg.sourceType == GIT
    requires PushStorage(EMPTY, cfg.storage, cfg.name, cfg.application, false, Canonize) == Ok(pushed)
    ensures st.pvcs == pushed.pvcs
  {
    var n, again, plan := CreateForm(EMPTY, cfg, WORLD, requests, Canonize);
  }

  lemma AllFresh(items: seq<Storage>)
    ensures Fresh(items, StorageNames([])) == items
  {
    WithoutNothing(items, KnownIn(StorageNames([])));
  }

  /** An update that asks for no new storage succeeds where its conditions hold, with nothing to mount. */
  lemma UpdateGoes(st: ClusterState, att: map<string, seq<Attachment>>, n: string, cfg: Config)
    requires Inv(st, att) && n in st.dcs && n in att && LabelsMatch(st.dcs[n].meta.labels, cfg)
    requires NamespaceOpenShiftObject(cfg.name, cfg.application) == Ok(n) && GoodStorage(cfg.storage)
    requires PushAccepted(st.pvcs, att[n], cfg.storage, cfg.application, Canonize)
    requires Fresh(cfg.storage, StorageNames(att[n])) == [] && WillingWorld(cfg, WORLD, Canonize)
    requires !GoSlice.LastAndEarlier(att[n], DroppedBy(ByName(cfg.storage)))
    ensures PushStorage(st, cfg.storage, cfg.name, cfg.application, true, Canonize).Ok?
    ensures Enumerates([], PushStorage(st, cfg.storage, cfg.name, cfg.application, true, Canonize).value.mount)
    ensures UpdateComponent(st, cfg, WORLD, [], Canonize).Ok?
  {
    InvComponentAt(st, att, n);
    PushSucceedsIff(st, att, n, cfg.storage, Canonize, cfg.name, cfg.application);
    PushEffect(st, att, n, cfg.storage, Canonize, cfg.name, cfg.application);
    PushedUpdateIff(st, att, n, cfg, WORLD, [], Canonize);
    WillingMoves(st, att[n], n, cfg, [], WORLD, Canonize);
  }

  // ------------------------------------------------------------ neighbouring storages dropped

  lemma ThreeUsers(claim: Storage -> PVC)
    requires claim == NewClaim("c", "p", Canonize)
    ensures var users := Map(RequestFor(claim), [A, B, C]);
            PushAccepted(Map(claim, [A, B, C]), users, [C], "p", Canonize) &&
            Fresh([C], StorageNames(users)) == [] &&
            !GoSlice.LastAndEarlier(users, DroppedBy(ByName([C]))) && !GoSlice.RangeSafe(users, DroppedBy(ByName([C])))
  {
    var users := Map(RequestFor(claim), [A, B, C]);
    assert users == [RequestFor(claim)(A), RequestFor(claim)(B), RequestFor(claim)(C)];
    assert Map(claim, [A, B, C]) == [claim(A), claim(B), claim(C)];
    FirstTwoDropped(users[0], users[1], users[2]);
  }

  lemma FirstTwoDropped(u: Attachment, v: Attachment, w: Attachment)
    requires StorageName in u.pvc.labels && StorageName in v.pvc.labels && StorageName in w.pvc.labels
    requires StorageNameOf(u) == "a" && StorageNameOf(v) == "b" && StorageOf(w) == C
    ensures var users := [u, v, w];
            PushAccepted([u.pvc, v.pvc, w.pvc], users, [C], "p", Canonize) && Fresh([C], StorageNames(users)) == [] &&
            !GoSlice.LastAndEarlier(users, DroppedBy(ByName([C]))) && !GoSlice.RangeSafe(users, DroppedBy(ByName([C])))
  {
    var users := [u, v, w];
    assert ByName([C]) == map["c" := C];
    assert w in users && KnownIn(StorageNames(users))(C);
    assert Without([C][1..], KnownIn(StorageNames(users))) == [];
    var hit := DroppedBy(ByName([C]));
    assert hit(users[0]) && hit(users[1]) && !hit(users[2]);
  }

  /** TWO NEIGHBOURING STORAGES dropped: the update succeeds and leaves the component out of order. */
  lemma DroppedNeighbours() returns (steps: seq<Step>, st: ClusterState, att: map<string, seq<Attachment>>)
    ensures var cfg := Demo(GIT, "1", [], [C]);
            Reaches(EMPTY, map[], steps, Canonize, st, att) && Key(cfg) in att &&
            PushStorage(st, cfg.storage, cfg.name, cfg.application, true, Canonize).Ok? &&
            Enumerates([], PushStorage(st, cfg.storage, cfg.name, cfg.application, true, Canonize).value.mount) &&
            UpdateComponent(st, cfg, WORLD, [], Canonize).Ok? &&
            !Inv(UpdateComponent(st, cfg, WORLD, [], Canonize).value, att[Key(cfg) := Intended(att[Key(cfg)], cfg, [])])
  {
    var before, cfg := Demo(GIT, "1", [], [A, B, C]), Demo(GIT, "1", [], [C]);
    DemoIsWilling(before, "1");
    DemoIsWilling(cfg, "1");
    steps, st, att := GitComponent(before);
    ThreeUsers(NewClaim("c", "p", Canonize));
    WishedIsFound(st, att[Key(before)], before, WORLD, Canonize);
    UpdateGoes(st, att, "c-p", cfg);
    UpdateKeepsInvariantIff(st, att, cfg, WORLD, [], Canonize);
  }

  // ------------------------------------------------------------ the image version changed

  lemma NothingKeptOrDropped(pvcs: seq<PVC>, application: string)
    ensures PushAccepted(pvcs, [], [], application, Canonize) && Fresh([], StorageNames([])) == []
    ensures !GoSlice.LastAndEarlier([], DroppedBy(ByName([])))
  {
  }

  /** THE BUILDER IMAGE'S VERSION changed together with the move from git to local: the update succeeds
      and the build config stays behind. */
  lemma StaleBuildConfig() returns (steps: seq<Step>, st: ClusterState, att: map<string, seq<Attachment>>)
    ensures var cfg := Demo(LOCAL, "2", [], []);
            Reaches(EMPTY, map[], steps, Canonize, st, att) &&
            UpdateComponent(st, cfg, WORLD, [], Canonize).Ok? &&
            var next := UpdateComponent(st, cfg, WORLD, [], Canonize).value;
            Key(cfg) in next.dcs && next.dcs[Key(cfg)].meta.sourceType == LOCAL && Key(cfg) in next.bcs
  {
    var before, cfg := Demo(GIT, "1", [], []), Demo(LOCAL, "2", [], []);
    DemoIsWilling(before, "1");
    DemoIsWilling(cfg, "2");
    DemoWorldIsWilling(before, "1");
    DemoWorldIsWilling(cfg, "2");
    steps, st, att := GitComponent(before);
    NothingKeptOrDropped(st.pvcs, "p");
    assert att["c-p"] == [];
    WishedIsFound(st, att["c-p"], before, WORLD, Canonize);
    UpdateGoes(st, att, "c-p", cfg);
    MetaAfterUpdate(st, att, cfg, WORLD, [], Canonize);
    InvBuilds(st, att, "c-p");
    BuildsKept(st.bcs, LabelsOf(before), UpdateComponent(st, cfg, WORLD, [], Canonize).value.dcs["c-p"].meta);
  }

  lemma BuildsKept(bcs: map<string, Labels>, labels: Labels, meta: Meta)
    requires "c-p" in bcs && bcs["c-p"] == labels
    requires ComponentVersion in labels && labels[ComponentVersion] == "1"
    requires ComponentVersion in meta.labels && meta.labels[ComponentVersion] == "2"
    ensures "c-p" in DeleteBuildConfigs(bcs, meta.labels)
  {
  }

  // ------------------------------------------------------------ no source type

  lemma OneUser(claim: Storage -> PVC)
    requires claim == NewClaim("c", "p", Canonize)
    ensures var users := Map(RequestFor(claim), [A]);
            PushAccepted(Map(claim, [A]), users, [], "p", Canonize) && Fresh([], StorageNames(users)) == [] &&
            "a" in Dropped(users, ByName([])) && !GoSlice.LastAndEarlier(users, DroppedBy(ByName([])))
  {
    var users := Map(RequestFor(claim), [A]);
    assert users == [RequestFor(claim)(A)] && Map(claim, [A]) == [claim(A)];
    assert users[0] in users && StorageNameOf(users[0]) == "a" && ByName([]) == map[];
  }

  /** NO SOURCE TYPE in the config and a storage dropped: the update succeeds, the claim goes and the DC
      still mounts it. */
  lemma UntypedDangles() returns (steps: seq<Step>, st: ClusterState, att: map<string, seq<Attachment>>)
    ensures var cfg := Demo(NONE, "1", [], []);
            Reaches(EMPTY, map[], steps, Canonize, st, att) && Key(cfg) in att &&
            UpdateComponent(st, cfg, WORLD, [], Canonize).Ok? &&
            var next := UpdateComponent(st, cfg, WORLD, [], Canonize).value;
            next.dcs == st.dcs && att[Key(cfg)] != [] && !Inv(next, att)
  {
    var before, cfg := Demo(GIT, "1", [], [A]), Demo(NONE, "1", [], []);
    DemoIsWilling(before, "1");
    DemoIsWilling(cfg, "1");
    steps, st, att := GitComponent(before);
    OneUser(NewClaim("c", "p", Canonize));
    WishedIsFound(st, att["c-p"], before, WORLD, Canonize);
    UpdateGoes(st, att, "c-p", cfg);
    UntypedUpdateIff(st, att, cfg, WORLD, [], Canonize);
  }

  // ------------------------------------------------------------ a size the API rewrites

  const BIG := Storage("a", "1024Mi", "/a")

  lemma BigStorage()
    ensures GoodStorage([BIG]) && Creatable([BIG], "p", Canonize) && NamesFree([], [BIG], "p")
    ensures !SizesStick([BIG], {}, Canonize)
  {
    ShortNames("p");
    assert BIG in [BIG] && CanonicalSize("1024Mi", Canonize) == "1Gi";
    assert NamespaceOpenShiftObject(A.name, "p").Ok?;
    assert PvcNames([]) == [];
  }

  /** A SIZE of 1024Mi: the component is created, and every update with the same config is refused. */
  lemma RewrittenSizeRefused() returns (steps: seq<Step>, st: ClusterState, att: map<string, seq<Attachment>>)
    ensures var cfg := Demo(GIT, "1", [], [BIG]);
            Reaches(EMPTY, map[], steps, Canonize, st, att) && Key(cfg) in st.dcs &&
            forall world, requests :: UpdateComponent(st, cfg, world, requests, Canonize).Err?
  {
    var cfg := Demo(GIT, "1", [], [BIG]);
    BigStorage();
    DemoWorldIsWilling(cfg, "1");
    steps, st, att := GitComponent(cfg);
    WishedIsFound(st, att["c-p"], cfg, WORLD, Canonize);
    ShowsAfter(st, att, "c-p", cfg, {}, Canonize);
    SecondPushIff(st, cfg, {}, Canonize);
  }

  // ------------------------------------------------------------ a variable lost

  /** A VARIABLE of the config: the component has it after the creation and not after an update with the
      very same config. */
  lemma VariableLost() returns (steps: seq<Step>, st: ClusterState, att: map<string, seq<Attachment>>)
    ensures var cfg := Demo(GIT, "1", [X], []);
            Reaches(EMPTY, map[], steps, Canonize, st, att) &&
            LastWins(EnvOf(st.dcs, Key(cfg)), X.name) == Some(X.value) &&
            UpdateComponent(st, cfg, WORLD, [], Canonize).Ok? &&
            LastWins(EnvOf(UpdateComponent(st, cfg, WORLD, [], Canonize).value.dcs, Key(cfg)), X.name) != Some(X.value)
  {
    var cfg := Demo(GIT, "1", [X], []);
    DemoIsWilling(cfg, "1");
    DemoWorldIsWilling(cfg, "1");
    assert X in Configured(cfg);
    var pushed := PushIntoEmpty(cfg, WORLD, Canonize);
    FirstPushEffect(EMPTY, [], Canonize, "c", "p");
    assert pushed.mount == map[];
    steps, st, att := Founded(cfg, WORLD, Canonize, pushed, []);
    CreateCarriesIff(EMPTY, cfg, WORLD, [], Canonize, X);
    NothingKeptOrDropped(st.pvcs, "p");
    WishedIsFound(st, [], cfg, WORLD, Canonize);
    UpdateGoes(st, att, "c-p", cfg);
    UpdateCarriesIff(st, att, cfg, WORLD, [], Canonize, X);
  }

  // ------------------------------------------------------------ a link lost

  /** A local component without storage in a project of its own. */
  lemma LocalComponent(cfg: Config) returns (first: Step, st: ClusterState, att: map<string, seq<Attachment>>)
    requires cfg == Demo(LOCAL, "1", [], [])
    ensures first.Create? && Admissible(EMPTY, map[], first, Canonize) && StepResult(EMPTY, first, Canonize) == Ok(st)
    ensures NextAttachments(map[], first) == att == map["c-p" := []] && Inv(st, att) && Key(cfg) == "c-p"
    ensures "c-p" in st.dcs && st.dcs["c-p"].containers != [] && LabelsMatch(st.dcs["c-p"].meta.labels, cfg)
  {
    DemoIsWilling(cfg, "1");
    var pushed := PushIntoEmpty(cfg, WORLD, Canonize);
    FirstPushEffect(EMPTY, [], Canonize, "c", "p");
    assert pushed.mount == map[];
    var steps: seq<Step>;
    steps, st, att := Founded(cfg, WORLD, Canonize, pushed, []);
    first := steps[0];
    WishedIsFound(st, [], cfg, WORLD, Canonize);
    InvComponentAt(st, att, "c-p");
  }

  lemma LinkedDC(dcs: map<string, DC>) returns (next: map<string, DC>)
    requires "c-p" in dcs && dcs["c-p"].containers != []
    ensures Links.Patched(dcs, "c", "p", Links.Linking("s")) == Ok(next)
    ensures next.Keys == dcs.Keys && next["c-p"].meta == dcs["c-p"].meta && next["c-p"].containers != []
    ensures SecretRef("s") in next["c-p"].containers[0].envFrom
  {
    Namespaced("c", "p");
    assert "c" + "-" + "p" == "c-p";
    var l := Links.EnvFromOf(dcs["c-p"]);
    assert Links.Linked(l, "s").value == [SecretRef("s")] + l;
    next := Links.Patched(dcs, "c", "p", Links.Linking("s")).value;
  }

  /** A local component with a linked secret. */
  lemma LinkedComponent(cfg: Config) returns (steps: seq<Step>, st: ClusterState, att: map<string, seq<Attachment>>)
    requires cfg == Demo(LOCAL, "1", [], [])
    ensures Reaches(EMPTY, map[], steps, Canonize, st, att) && Inv(st, att) && att == map["c-p" := []]
    ensures "c-p" in st.dcs && LabelsMatch(st.dcs["c-p"].meta.labels, cfg)
    ensures st.dcs["c-p"].containers != [] && SecretRef("s") in st.dcs["c-p"].containers[0].envFrom
  {
    var first, one, att1 := LocalComponent(cfg);
    var link := Link("s", "c", "p");
    var dcs := LinkedDC(one.dcs);
    st, att := one.(dcs := dcs), att1;
    LinkKeeps(first, one, att, link, st);
    steps := [first] + [link];
  }

  lemma LinkKeeps(first: Step, st: ClusterState, att: map<string, seq<Attachment>>, link: Step, next: ClusterState)
    requires first.Create? && Admissible(EMPTY, map[], first, Canonize) && StepResult(EMPTY, first, Canonize) == Ok(st)
    requires NextAttachments(map[], first) == att && Inv(st, att)
    requires link.Link? && StepResult(st, link, Canonize) == Ok(next)
    ensures Reaches(EMPTY, map[], [first] + [link], Canonize, next, att) && Inv(next, att)
  {
    TidyAfterOne(first, st, att);
    RelinkStepKeeps(st, att, link, Canonize);
    ReachesInTwo(EMPTY, map[], first, link, Canonize, st, att);
  }

  lemma TidyAfterOne(first: Step, st: ClusterState, att: map<string, seq<Attachment>>)
    requires first.Create? && Admissible(EMPTY, map[], first, Canonize) && StepResult(EMPTY, first, Canonize) == Ok(st)
    ensures AllTidy(st.dcs)
  {
    EmptyIsFine();
    StepKeepsTidy(EMPTY, map[], first, Canonize);
  }

  /** A LINK is gone after an update to git, and still there after one that stays local. */
  lemma LinkLost() returns (steps: seq<Step>, st: ClusterState, att: map<string, seq<Attachment>>)
    ensures var git, local := Demo(GIT, "1", [], []), Demo(LOCAL, "1", [], []);
            Reaches(EMPTY, map[], steps, Canonize, st, att) && "c-p" in st.dcs && st.dcs["c-p"].containers != [] &&
            SecretRef("s") in st.dcs["c-p"].containers[0].envFrom &&
            LinksAfter(st, git) == Some([]) && LinksAfter(st, local) == Some(st.dcs["c-p"].containers[0].envFrom)
  {
    steps, st, att := LinkedComponent(Demo(LOCAL, "1", [], []));
    LinksAfterIs(st, att, Demo(GIT, "1", [], []));
    LinksAfterIs(st, att, Demo(LOCAL, "1", [], []));
  }

  /** What a successful update with this config leaves of the component's links. */
  ghost function LinksAfter(st: ClusterState, cfg: Config): Option<seq<EnvFromSource>> {
    match UpdateComponent(st, cfg, WORLD, [], Canonize)
    case Ok(next) => if "c-p" in next.dcs && next.dcs["c-p"].containers != []
                     then Some(next.dcs["c-p"].containers[0].envFrom) else None
    case Err(_) => None
  }

  lemma LinksAfterIs(st: ClusterState, att: map<string, seq<Attachment>>, cfg: Config)
    requires Inv(st, att) && "c-p" in st.dcs && att == map["c-p" := []] && st.dcs["c-p"].containers != []
    requires LabelsMatch(st.dcs["c-p"].meta.labels, cfg)
    requires cfg == Demo(GIT, "1", [], []) || cfg == Demo(LOCAL, "1", [], [])
    ensures LinksAfter(st, cfg) == Some(if cfg.sourceType == GIT then [] else st.dcs["c-p"].containers[0].envFrom)
  {
    DemoIsWilling(cfg, "1");
    DemoWorldIsWilling(cfg, "1");
    NothingKeptOrDropped(st.pvcs, "p");
    UpdateGoes(st, att, "c-p", cfg);
    var next := UpdateComponent(st, cfg, WORLD, [], Canonize).value;
    UpdateWrites(st, att, cfg, WORLD, [], Canonize);
    WrittenLinks(st.dcs, next.dcs, cfg);
  }

  lemma WrittenLinks(before: map<string, DC>, after: map<string, DC>, cfg: Config)
    requires Written(before, after, cfg, WORLD) && Key(cfg) == "c-p"
    ensures "c-p" in before && "c-p" in after && before["c-p"].containers != [] && after["c-p"].containers != []
    ensures after["c-p"].containers[0].envFrom
         == if cfg.sourceType == GIT then [] else before["c-p"].containers[0].envFrom
  {
  }

  // ------------------------------------------------------------ a storage change that no one sees

  const SLASH := Storage("a/b", "1Gi", "/d")
  const HYPHEN := Storage("a-b", "1Gi", "/d")

  /** The storage as requested, with the random part `aaaaa`. */
  function Requested(s: Storage): MountRequest {
    RequestFor(NewClaim("c", "p", Canonize))(s)
  }

  lemma SameClaimName()
    ensures NamespaceOpenShiftObject("a/b", "p") == NamespaceOpenShiftObject("a-b", "p") == Ok("a-b-p")
    ensures ClaimName("a/b", "p") == ClaimName("a-b", "p") == "a-b-p-pvc"
    ensures TakesOver(Requested(HYPHEN), Requested(SLASH)) && Requested(SLASH).pvc != Requested(HYPHEN).pvc
  {
    assert Strings.ReplaceChar("a/b", '/', '-') == "a-b" == Strings.ReplaceChar("a-b", '/', '-');
    assert "a-b" + "-" + "p" == "a-b-p" && "a-b-p" + "-pvc" == "a-b-p-pvc";
    assert Requested(SLASH).pvc.labels[StorageName] == "a/b" && Requested(HYPHEN).pvc.labels[StorageName] == "a-b";
  }

  lemma SlashMaps()
    ensures Map(RequestFor(NewClaim("c", "p", Canonize)), [SLASH]) == [Requested(SLASH)]
    ensures Map(NewClaim("c", "p", Canonize), [SLASH]) == [Requested(SLASH).pvc]
  {
  }

  lemma SlashIsWilling(cfg: Config, s: Storage)
    requires (s == SLASH || s == HYPHEN) && cfg == Demo(LOCAL, "1", [], [s])
    ensures Willing(cfg, WORLD, Canonize) && Key(cfg) == "c-p"
  {
    DemoWorldIsWilling(cfg, "1");
    SameClaimName();
    assert PvcNames([]) == [];
  }

  /** The local component with that storage: its claims, and the DC as far as an update may keep it. */
  lemma SlashComponent(cfg: Config)
    returns (steps: seq<Step>, st: ClusterState, att: map<string, seq<Attachment>>, root: PVC)
    requires cfg == Demo(LOCAL, "1", [], [SLASH])
    ensures Reaches(EMPTY, map[], steps, Canonize, st, att) && Inv(st, att) && att == map["c-p" := [Requested(SLASH)]]
    ensures Found(st, cfg) && st.dcs["c-p"].meta.sourceType == LOCAL && Key(cfg) == "c-p"
    ensures st.pvcs == [Requested(SLASH).pvc] + [root] && root.name == AppRootVolumeName("c-p")
    ensures StorageName !in root.labels
    ensures AsCreated(st.dcs["c-p"])
  {
    SlashIsWilling(cfg, SLASH);
    var pushed := PushedIntoEmpty(cfg);
    SlashMaps();
    steps, st, att := Founded(cfg, WORLD, Canonize, pushed, [Requested(SLASH)]);
    WishedIsFound(st, att["c-p"], cfg, WORLD, Canonize);
    root := CreatedLocal(cfg, [Requested(SLASH)], pushed, st);
  }

  /** Ports, resources and variables as creation leaves them for a local demo component. */
  ghost predicate AsCreated(dc: DC) {
    && |dc.containers| == 1 && dc.containers[0].spec == ContainerSpec([PORT], Resources(map[], map[]))
    && dc.containers[0].env == UpdatedEnv(WORLD.s2i.value, true)
  }

  lemma CreatedLocal(cfg: Config, requests: seq<MountRequest>, pushed: Pushed, st: ClusterState) returns (root: PVC)
    requires cfg.sourceType == LOCAL && cfg.ports == [] && cfg.env == [] && cfg.limits == NO_LIMITS && Key(cfg) == "c-p"
    requires CreateComponent(EMPTY, cfg, WORLD, requests, Canonize) == Ok(st) && Configured(cfg) == []
    requires PushStorage(EMPTY, cfg.storage, cfg.name, cfg.application, false, Canonize) == Ok(pushed)
    ensures st.pvcs == pushed.pvcs + [root] && root.name == AppRootVolumeName("c-p") && StorageName !in root.labels
    ensures "c-p" in st.dcs && AsCreated(st.dcs["c-p"])
  {
    var n, again, plan := CreateForm(EMPTY, cfg, WORLD, requests, Canonize);
    MetaIdentified(cfg, n, ParseImageName(cfg.imageType).value, LOCAL);
    SupervisedBaseContainer(plan.meta, plan.spec, plan.env, []);
    var size :| st.pvcs == pushed.pvcs + [PVC(AppRootVolumeName(n), size, plan.meta.labels)];
    root := PVC(AppRootVolumeName(n), size, plan.meta.labels);
  }

  lemma SwapAccepted(pvcs: seq<PVC>, root: PVC)
    requires pvcs == [Requested(SLASH).pvc] + [root] && root.name == AppRootVolumeName("c-p")
    requires StorageName !in root.labels
    ensures PushAccepted(pvcs, [Requested(SLASH)], [HYPHEN], "p", Canonize)
    ensures Fresh([HYPHEN], StorageNames([Requested(SLASH)])) == [HYPHEN]
    ensures SameMounting([Requested(SLASH)], DroppedBy(ByName([HYPHEN])), [Requested(HYPHEN)])
  {
    var users, names := [Requested(SLASH)], StorageNames([Requested(SLASH)]);
    SameClaimName();
    assert StorageNameOf(users[0]) == "a/b" && users[0] in users && names == {"a/b"};
    assert ByName([HYPHEN]) == map["a-b" := HYPHEN] && Dropped(users, ByName([HYPHEN])) == {"a/b"};
    WithoutNothing([HYPHEN], KnownIn(names));
    assert LabelledIn({"a/b"})(users[0].pvc) && !LabelledIn({"a/b"})(root);
    WithoutConcat([users[0].pvc], [root], LabelledIn({"a/b"}));
    assert Without([users[0].pvc], LabelledIn({"a/b"})) == [] && Without([root], LabelledIn({"a/b"})) == [root];
    AppRootIsNoStorageClaim("c-p", "a-b-p");
    assert PvcNames([root]) == [root.name];
    SwapFree(root);
  }

  lemma SwapFree(root: PVC)
    requires root.name == AppRootVolumeName("c-p")
    ensures NamesFree([root], [HYPHEN], "p")
  {
    SameClaimName();
    AppRootIsNoStorageClaim("c-p", "a-b-p");
    assert PvcNames([root]) == [root.name];
  }

  /** A STORAGE SWAPPED for one whose name differs by slash against hyphen, at the same path: if its volume
      draws the same random part, the template stays as it is and the update succeeds without a rollout. */
  lemma SwapUnseen() returns (steps: seq<Step>, st: ClusterState, att: map<string, seq<Attachment>>)
    ensures var cfg, request := Demo(LOCAL, "1", [], [HYPHEN]), Requested(HYPHEN);
            Reaches(EMPTY, map[], steps, Canonize, st, att) && Key(cfg) in att &&
            Dropped(att[Key(cfg)], ByName(cfg.storage)) == {"a/b"} &&
            PushStorage(st, cfg.storage, cfg.name, cfg.application, true, Canonize).Ok? &&
            Enumerates([request], PushStorage(st, cfg.storage, cfg.name, cfg.application, true,
                                              Canonize).value.mount) &&
            UpdateComponent(st, cfg, WORLD.(rolloutOk := false), [request], Canonize).Ok?
  {
    var root: PVC;
    steps, st, att, root := SlashComponent(Demo(LOCAL, "1", [], [SLASH]));
    SwapAccepted(st.pvcs, root);
    SwapDrops();
    SwapUpdate(st, att, Demo(LOCAL, "1", [], [HYPHEN]));
  }

  lemma SwapDrops()
    ensures Dropped([Requested(SLASH)], ByName([HYPHEN])) == {"a/b"}
  {
    assert StorageNameOf([Requested(SLASH)][0]) == "a/b" && ByName([HYPHEN]) == map["a-b" := HYPHEN];
  }

  lemma SwapUpdate(st: ClusterState, att: map<string, seq<Attachment>>, cfg: Config)
    requires Inv(st, att) && cfg == Demo(LOCAL, "1", [], [HYPHEN]) && att == map["c-p" := [Requested(SLASH)]]
    requires Found(st, cfg) && st.dcs["c-p"].meta.sourceType == LOCAL && Key(cfg) == "c-p" && AsCreated(st.dcs["c-p"])
    requires PushAccepted(st.pvcs, [Requested(SLASH)], [HYPHEN], "p", Canonize)
    requires Fresh([HYPHEN], StorageNames([Requested(SLASH)])) == [HYPHEN]
    requires SameMounting([Requested(SLASH)], DroppedBy(ByName([HYPHEN])), [Requested(HYPHEN)])
    ensures var push := PushStorage(st, cfg.storage, cfg.name, cfg.application, true, Canonize);
            push.Ok? && Enumerates([Requested(HYPHEN)], push.value.mount)
    ensures UpdateComponent(st, cfg, WORLD.(rolloutOk := false), [Requested(HYPHEN)], Canonize).Ok?
  {
    SlashIsWilling(cfg, HYPHEN);
    InvComponentAt(st, att, "c-p");
    SwapPush(st, att);
    PushedUpdateIff(st, att, "c-p", cfg, WORLD.(rolloutOk := false), [Requested(HYPHEN)], Canonize);
    SwapMoves(st, cfg);
  }

  lemma SwapPush(st: ClusterState, att: map<string, seq<Attachment>>)
    requires Inv(st, att) && "c-p" in st.dcs && att == map["c-p" := [Requested(SLASH)]] && GoodStorage([HYPHEN])
    requires Identified(st.dcs["c-p"].meta.labels, "c-p")
    requires st.dcs["c-p"].meta.labels[ComponentName] == "c" && st.dcs["c-p"].meta.labels[ApplicationName] == "p"
    requires PushAccepted(st.pvcs, [Requested(SLASH)], [HYPHEN], "p", Canonize)
    requires Fresh([HYPHEN], StorageNames([Requested(SLASH)])) == [HYPHEN]
    ensures var push := PushStorage(st, [HYPHEN], "c", "p", true, Canonize);
            push.Ok? && Enumerates([Requested(HYPHEN)], push.value.mount)
  {
    PushSucceedsIff(st, att, "c-p", [HYPHEN], Canonize, "c", "p");
    PushEffect(st, att, "c-p", [HYPHEN], Canonize, "c", "p");
    SwapMounts(st.pvcs, PushStorage(st, [HYPHEN], "c", "p", true, Canonize).value);
  }

  lemma SwapMounts(pvcs: seq<PVC>, pushed: Pushed)
    requires PushOutcome(pvcs, [Requested(SLASH)], [HYPHEN], "c", "p", Canonize, pushed)
    requires GoodStorage([HYPHEN]) && Fresh([HYPHEN], StorageNames([Requested(SLASH)])) == [HYPHEN]
    ensures Enumerates([Requested(HYPHEN)], pushed.mount)
  {
    var claim := NewClaim("c", "p", Canonize);
    RequestsEnumerate([HYPHEN], pushed.mount, claim);
    assert Map(RequestFor(claim), [HYPHEN]) == [Requested(HYPHEN)];
  }

  lemma SwapMoves(st: ClusterState, cfg: Config)
    requires cfg == Demo(LOCAL, "1", [], [HYPHEN]) && InputsOk(cfg, Canonize)
    requires "c-p" in st.dcs && st.dcs["c-p"].meta.sourceType == LOCAL && AsCreated(st.dcs["c-p"])
    requires SameMounting([Requested(SLASH)], DroppedBy(ByName([HYPHEN])), [Requested(HYPHEN)])
    ensures MoveAccepted(st, [Requested(SLASH)], "c-p", cfg, [Requested(HYPHEN)], WORLD.(rolloutOk := false), Canonize)
  {
  }

  // ------------------------------------------------------------ pushes refused because of others

  /** ANOTHER COMPONENT of the application owns a storage of the same name: no creation gets past its push. */
  lemma ClaimTaken() returns (steps: seq<Step>, st: ClusterState, att: map<string, seq<Attachment>>)
    ensures var cfg := Demo(GIT, "1", [], [A]).(name := "d");
            Reaches(EMPTY, map[], steps, Canonize, st, att) && Key(cfg) !in st.dcs &&
            forall world, requests :: CreateComponent(st, cfg, world, requests, Canonize).Err?
  {
    DemoIsWilling(Demo(GIT, "1", [], [A]), "1");
    steps, st, att := GitComponent(Demo(GIT, "1", [], [A]));
    TakenRefused(st, Demo(GIT, "1", [], [A]).(name := "d"));
  }

  lemma TakenRefused(st: ClusterState, cfg: Config)
    requires Distinct(PvcNames(st.pvcs)) && st.pvcs == Map(NewClaim("c", "p", Canonize), [A])
    requires cfg == Demo(GIT, "1", [], [A]).(name := "d") && st.dcs.Keys == {"c-p"}
    ensures Key(cfg) !in st.dcs
    ensures forall world, requests :: CreateComponent(st, cfg, world, requests, Canonize).Err?
  {
    Namespaced("d", "p");
    assert "d" + "-" + "p" == "d-p";
    FirstPushSucceedsIff(st, [A], Canonize, "d", "p");
    NotFree(st.pvcs);
    NoCreation(st, cfg);
  }

  lemma NoCreation(st: ClusterState, cfg: Config)
    requires PushStorage(st, cfg.storage, cfg.name, cfg.application, false, Canonize).Err?
    ensures forall world, requests :: CreateComponent(st, cfg, world, requests, Canonize).Err?
  {
  }

  lemma NotFree(pvcs: seq<PVC>)
    requires pvcs == Map(NewClaim("c", "p", Canonize), [A])
    ensures !PushAccepted(pvcs, [], [A], "p", Canonize)
  {
    AllFresh([A]);
    WithoutNothing(pvcs, LabelledIn(Dropped([], ByName([A]))));
    assert PvcNames(pvcs)[0] == ClaimName("a", "p");
    assert A in [A] && !NamesFree(pvcs, [A], "p");
  }

  /** A second component, in another application of the project, with a storage of the same name. */
  lemma SecondApplication(st: ClusterState, att: map<string, seq<Attachment>>, cfg: Config)
    returns (requests: seq<MountRequest>, next: ClusterState)
    requires Inv(st, att) && "c-q" !in st.dcs && st.pvcs == Map(NewClaim("c", "p", Canonize), [A])
    requires Map(NameOfSecret, st.secrets) == [Secrets.SecretNameFor("c-p", 8080)]
    requires cfg == Demo(GIT, "1", [], [A]).(application := "q")
    ensures Key(cfg) == "c-q" && CreateComponent(st, cfg, WORLD, requests, Canonize) == Ok(next)
    ensures Admissible(st, att, Create(cfg, WORLD, requests), Canonize)
    ensures next.pvcs == st.pvcs + Map(NewClaim("c", "q", Canonize), [A])
    ensures "c-q" in next.dcs && next.dcs == st.dcs["c-q" := next.dcs["c-q"]]
  {
    ShortNames("q");
    assert "c-" + "q" == "c-q";
    DemoStorages([A]);
    InvClaims(st, att);
    var pushed := SecondPush(st);
    requests := Map(RequestFor(NewClaim("c", "q", Canonize)), [A]);
    SecondIsReady(st.secrets, cfg);
    CreateSucceedsIff(st, att, cfg, WORLD, requests, Canonize);
    next := CreateComponent(st, cfg, WORLD, requests, Canonize).value;
    var n, again, plan := CreateForm(st, cfg, WORLD, requests, Canonize);
  }

  lemma SecondPush(st: ClusterState) returns (pushed: Pushed)
    requires Distinct(PvcNames(st.pvcs)) && st.pvcs == Map(NewClaim("c", "p", Canonize), [A])
    ensures PushAccepted(st.pvcs, [], [A], "q", Canonize)
    ensures PushStorage(st, [A], "c", "q", false, Canonize) == Ok(pushed)
    ensures var claim := NewClaim("c", "q", Canonize);
            pushed.pvcs == st.pvcs + Map(claim, [A]) && Enumerates(Map(RequestFor(claim), [A]), pushed.mount)
  {
    DemoStorages([A]);
    FreeInOther(st.pvcs);
    FirstPushSucceedsIff(st, [A], Canonize, "c", "q");
    FirstPushEffect(st, [A], Canonize, "c", "q");
    AllFresh([A]);
    pushed := PushStorage(st, [A], "c", "q", false, Canonize).value;
    RequestsEnumerate([A], pushed.mount, NewClaim("c", "q", Canonize));
    WithoutNothing(st.pvcs, LabelledIn(Dropped([], ByName([A]))));
  }

  lemma SecondIsReady(secrets: seq<Secret>, cfg: Config)
    requires cfg == Demo(GIT, "1", [], [A]).(application := "q") && Key(cfg) == "c-q"
    requires Map(NameOfSecret, secrets) == [Secrets.SecretNameFor("c-p", 8080)]
    ensures InputsOk(cfg, Canonize) && Configured(cfg) == [] && WorldReadyToCreate(secrets, cfg, WORLD, Canonize)
  {
    DemoWorldIsWilling(Demo(GIT, "1", [], [A]), "1");
    assert PortNumbers([PORT]) == [8080];
    assert Secrets.SecretNameFor("c-p", 8080)[2] == 'p' && Secrets.SecretNameFor("c-q", 8080)[2] == 'q';
  }

  lemma FreeInOther(pvcs: seq<PVC>)
    requires pvcs == Map(NewClaim("c", "p", Canonize), [A])
    ensures PushAccepted(pvcs, [], [A], "q", Canonize)
  {
    AllFresh([A]);
    ShortNames("q");
    WithoutNothing(pvcs, LabelledIn(Dropped([], ByName([A]))));
    Namespaced("a", "p");
    Namespaced("a", "q");
    assert ClaimName("a", "p")[2] == 'p' && ClaimName("a", "q")[2] == 'q';
    assert PvcNames(pvcs) == [ClaimName("a", "p")];
    assert forall s :: s in [A] ==> s == A;
  }

  /** ANOTHER APPLICATION of the project has a storage of the same name: dropping it from the config is
      refused, for every update. */
  lemma LabelShared() returns (steps: seq<Step>, st: ClusterState, att: map<string, seq<Attachment>>)
    ensures var cfg := Demo(GIT, "1", [], []);
            Reaches(EMPTY, map[], steps, Canonize, st, att) && Key(cfg) in st.dcs &&
            forall world, requests :: UpdateComponent(st, cfg, world, requests, Canonize).Err?
  {
    steps, st, att := TwoApplications();
    SharedRefused(st, att, Demo(GIT, "1", [], []));
  }

  lemma TwoApplications() returns (steps: seq<Step>, st: ClusterState, att: map<string, seq<Attachment>>)
    ensures Reaches(EMPTY, map[], steps, Canonize, st, att) && Inv(st, att) && "c-p" in st.dcs && "c-p" in att
    ensures LabelsMatch(st.dcs["c-p"].meta.labels, Demo(GIT, "1", [], [])) && Key(Demo(GIT, "1", [], [])) == "c-p"
    ensures att["c-p"] == Map(RequestFor(NewClaim("c", "p", Canonize)), [A])
    ensures st.pvcs == Map(NewClaim("c", "p", Canonize), [A]) + Map(NewClaim("c", "q", Canonize), [A])
  {
    var first, st1, att1 := FirstOfTwo();
    var other := Demo(GIT, "1", [], [A]).(application := "q");
    var requests, next := SecondApplication(st1, att1, other);
    st, att := next, att1["c-q" := requests];
    OneMoreStep(first, st1, att1, other, requests, next);
    steps := [first] + [Create(other, WORLD, requests)];
  }

  lemma FirstOfTwo() returns (first: Step, st: ClusterState, att: map<string, seq<Attachment>>)
    ensures Admissible(EMPTY, map[], first, Canonize) && StepResult(EMPTY, first, Canonize) == Ok(st)
    ensures att == NextAttachments(map[], first) && Inv(st, att) && st.dcs.Keys == {"c-p"}
    ensures Map(NameOfSecret, st.secrets) == [Secrets.SecretNameFor("c-p", 8080)] && first.Create?
    ensures LabelsMatch(st.dcs["c-p"].meta.labels, Demo(GIT, "1", [], [])) && Key(Demo(GIT, "1", [], [])) == "c-p"
    ensures att == map["c-p" := Map(RequestFor(NewClaim("c", "p", Canonize)), [A])]
    ensures st.pvcs == Map(NewClaim("c", "p", Canonize), [A])
  {
    var cfg := Demo(GIT, "1", [], [A]);
    DemoIsWilling(cfg, "1");
    var steps: seq<Step>;
    steps, st, att := GitComponent(cfg);
    first := steps[0];
    WishedIsFound(st, att["c-p"], cfg, WORLD, Canonize);
  }

  lemma OneMoreStep(first: Step, st: ClusterState, att: map<string, seq<Attachment>>, cfg: Config,
                    requests: seq<MountRequest>, next: ClusterState)
    requires Admissible(EMPTY, map[], first, Canonize) && StepResult(EMPTY, first, Canonize) == Ok(st) && Inv(st, att)
    requires first.Create? && att == NextAttachments(map[], first) && Key(cfg) == "c-q" && "c-q" !in att
    requires CreateComponent(st, cfg, WORLD, requests, Canonize) == Ok(next)
    requires Admissible(st, att, Create(cfg, WORLD, requests), Canonize)
    ensures Reaches(EMPTY, map[], [first] + [Create(cfg, WORLD, requests)], Canonize, next, att["c-q" := requests])
    ensures Inv(next, att["c-q" := requests])
  {
    var step := Create(cfg, WORLD, requests);
    StepKeeps(st, att, step, Canonize);
    ReachesInTwo(EMPTY, map[], first, step, Canonize, st, att);
  }

  lemma SharedRefused(st: ClusterState, att: map<string, seq<Attachment>>, cfg: Config)
    requires Inv(st, att) && cfg == Demo(GIT, "1", [], []) && "c-p" in st.dcs && "c-p" in att
    requires LabelsMatch(st.dcs["c-p"].meta.labels, cfg)
    requires att["c-p"] == Map(RequestFor(NewClaim("c", "p", Canonize)), [A])
    requires st.pvcs == Map(NewClaim("c", "p", Canonize), [A]) + Map(NewClaim("c", "q", Canonize), [A])
    ensures forall world, requests :: UpdateComponent(st, cfg, world, requests, Canonize).Err?
  {
    InvComponentAt(st, att, "c-p");
    SharedNotAccepted(st.pvcs, att["c-p"]);
    PushSucceedsIff(st, att, "c-p", [], Canonize, "c", "p");
    NoUpdate(st, cfg);
  }

  lemma NoUpdate(st: ClusterState, cfg: Config)
    requires PushStorage(st, cfg.storage, cfg.name, cfg.application, true, Canonize).Err?
    ensures forall world, requests :: UpdateComponent(st, cfg, world, requests, Canonize).Err?
  {
  }

  lemma SharedNotAccepted(pvcs: seq<PVC>, users: seq<Attachment>)
    requires users == Map(RequestFor(NewClaim("c", "p", Canonize)), [A])
    requires pvcs == Map(NewClaim("c", "p", Canonize), [A]) + Map(NewClaim("c", "q", Canonize), [A])
    ensures !PushAccepted(pvcs, users, [], "p", Canonize)
  {
    var u, p := users[0], pvcs[1];
    assert u in users && p in pvcs && ByName([]) == map[];
    assert p.labels[ApplicationName] == "q" && u.pvc.labels[ApplicationName] == "p";
  }
}
