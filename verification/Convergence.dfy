// After an update the mounted storage is the configured storage, and pushing again does nothing.

module Convergence {
  import opened Cluster
  import opened Component
  import opened Creation
  import opened Invariant
  import opened Lifecycle
  import opened Lists
  import opened Names
  import opened Objects
  import opened PushEffects
  import opened Results
  import opened Runs
  import opened Shapes
  import opened StorageSync
  import opened Updates
  import opened UserStorage

  /** A configured storage as the cluster reports it: the API rewrites the size of a new claim. */
  function Settled(s: Storage, known: set<string>, canon: Canon): Storage {
    if s.name in known then s else s.(size := CanonicalSize(s.size, canon))
  }

  /** `x` is what the cluster reports for the configured storage of its name. */
  ghost predicate SettledFrom(x: Storage, items: seq<Storage>, known: set<string>, canon: Canon) {
    x.name in ByName(items) && x == Settled(ByName(items)[x.name], known, canon)
  }

  ghost predicate Present(s: Storage, users: seq<Attachment>) {
    exists u :: u in users && StorageOf(u) == s
  }

  /** These attachments are the configured storages, no more and no less. */
  ghost predicate Matching(users: seq<Attachment>, items: seq<Storage>, known: set<string>, canon: Canon) {
    && (forall u :: u in users ==> SettledFrom(StorageOf(u), items, known, canon))
    && (forall s :: s in items ==> Present(Settled(s, known, canon), users))
  }

  lemma KeptMatches(users: seq<Attachment>, k: PushRun, pvcs: seq<PVC>, u: Attachment)
    requires Pushing(pvcs, users, k.items, k.component, k.application, k.canon, k.pushed, k.requests)
    requires u in users && StorageNameOf(u) in ByName(k.items)
    ensures SettledFrom(StorageOf(u), k.items, StorageNames(users), k.canon)
  {
    ByNameFacts(k.items);
  }

  lemma PushMatches(users: seq<Attachment>, k: PushRun, pvcs: seq<PVC>)
    requires Pushing(pvcs, users, k.items, k.component, k.application, k.canon, k.pushed, k.requests)
    ensures Matching(AfterPush(users, k), k.items, StorageNames(users), k.canon)
  {
    var known, config := StorageNames(users), ByName(k.items);
    var added, claim := Fresh(k.items, known), NewClaim(k.component, k.application, k.canon);
    WithoutMembers(k.items, KnownIn(known));
    ByNameFacts(k.items);
    forall u | u in AfterPush(users, k) ensures SettledFrom(StorageOf(u), k.items, known, k.canon) {
      if u in k.requests {
        var s := RequestIsFresh(k.requests, k.pushed.mount, added, claim, u);
        assert StorageOf(u) == Settled(s, known, k.canon);
      } else {
        KeptIff(users, config, k.pushed.unmount, u);
        KeptMatches(users, k, pvcs, u);
      }
    }
    forall s | s in k.items ensures Present(Settled(s, known, k.canon), AfterPush(users, k)) {
      if s.name in known {
        KnownIsKept(users, k, pvcs, s);
      } else {
        var r := FreshIsRequested(k.requests, k.pushed.mount, added, claim, s);
        assert r in AfterPush(users, k) && StorageOf(r) == Settled(s, known, k.canon);
      }
    }
  }

  lemma KnownIsKept(users: seq<Attachment>, k: PushRun, pvcs: seq<PVC>, s: Storage)
    requires Pushing(pvcs, users, k.items, k.component, k.application, k.canon, k.pushed, k.requests)
    requires s in k.items && s.name in StorageNames(users)
    ensures Present(Settled(s, StorageNames(users), k.canon), AfterPush(users, k))
  {
    var u :| u in users && StorageNameOf(u) == s.name;
    ByNameFacts(k.items);
    KeptIff(users, ByName(k.items), k.pushed.unmount, u);
    KeptMatches(users, k, pvcs, u);
    assert u in AfterPush(users, k);
  }

  ghost predicate SameStorages(mounted: seq<Storage>, items: seq<Storage>, known: set<string>, canon: Canon) {
    && (forall x :: x in mounted ==> SettledFrom(x, items, known, canon))
    && (forall s :: s in items ==> Settled(s, known, canon) in mounted)
  }

  /** ListMounted reports the configured storages and nothing else, each once. */
  ghost predicate Shows(st: ClusterState, cfg: Config, known: set<string>, canon: Canon) {
    var mounted := MountedStorage(st, cfg.name, cfg.application);
    && mounted.Ok? && Distinct(Map(NameOfStorage, mounted.value))
    && SameStorages(mounted.value, cfg.storage, known, canon)
  }

  lemma MatchingShows(st: ClusterState, att: map<string, seq<Attachment>>, n: string, cfg: Config, known: set<string>,
                      canon: Canon)
    requires Inv(st, att) && n in st.dcs && Identified(st.dcs[n].meta.labels, n)
    requires LabelsMatch(st.dcs[n].meta.labels, cfg)
    requires Matching(att[n], cfg.storage, known, canon)
    ensures Shows(st, cfg, known, canon)
  {
    MountedIsExact(st, att, n);
    ReportsMatching(MountedStorage(st, cfg.name, cfg.application).value, att[n], cfg.storage, known, canon);
  }

  lemma ReportsMatching(mounted: seq<Storage>, users: seq<Attachment>, items: seq<Storage>, known: set<string>,
                        canon: Canon)
    requires Reports(mounted, users) && Matching(users, items, known, canon)
    ensures SameStorages(mounted, items, known, canon)
  {
    forall x | x in mounted ensures SettledFrom(x, items, known, canon) {
      var u :| u in users && x == StorageOf(u);
    }
    forall s | s in items ensures Settled(s, known, canon) in mounted {
      var u :| u in users && StorageOf(u) == Settled(s, known, canon);
    }
  }

  /** STORAGE CONVERGES. After a safe update ListMounted returns exactly the config's storages, name,
      size and path, also where a new storage takes over the path of a removed one. */
  lemma UpdateConverges(st: ClusterState, att: map<string, seq<Attachment>>, cfg: Config, world: World,
                        requests: seq<MountRequest>, canon: Canon)
    requires Inv(st, att) && GoodStorage(cfg.storage) && cfg.sourceType != NONE && SafeUpdate(st, att, cfg)
    requires UpdateComponent(st, cfg, world, requests, canon).Ok?
    requires Enumerates(requests, PushStorage(st, cfg.storage, cfg.name, cfg.application, true, canon).value.mount)
    ensures Shows(UpdateComponent(st, cfg, world, requests, canon).value, cfg, StorageNames(att[Key(cfg)]), canon)
  {
    var n, pushed, p := UpdateSplits(st, att, cfg, world, requests, canon);
    var next := UpdateComponent(st, cfg, world, requests, canon).value;
    var k := PushOf(cfg, canon, pushed, requests);
    UpdatePushes(st, att, n, cfg, canon, pushed, requests);
    PushMatches(att[n], k, st.pvcs);
    DroppedAreUnmounted(att[n], k, st.pvcs);
    UpdateKeepsInvariantIff(st, att, cfg, world, requests, canon);
    UpdateWrites(st, att, cfg, world, requests, canon);
    ShowsAfter(next, att[n := Intended(att[n], cfg, requests)], n, cfg, StorageNames(att[n]), canon);
  }

  lemma ShowsAfter(st: ClusterState, att: map<string, seq<Attachment>>, n: string, cfg: Config, known: set<string>,
                   canon: Canon)
    requires Inv(st, att) && n in st.dcs && LabelsMatch(st.dcs[n].meta.labels, cfg)
    requires Matching(att[n], cfg.storage, known, canon)
    ensures Shows(st, cfg, known, canon)
  {
    InvIdentifies(st, att);
    MatchingShows(st, att, n, cfg, known, canon);
  }

  lemma CreateConverges(st: ClusterState, att: map<string, seq<Attachment>>, cfg: Config, world: World,
                        requests: seq<MountRequest>, canon: Canon)
    requires Inv(st, att) && GoodStorage(cfg.storage)
    requires CreateComponent(st, cfg, world, requests, canon).Ok?
    requires Enumerates(requests, PushStorage(st, cfg.storage, cfg.name, cfg.application, false, canon).value.mount)
    ensures Shows(CreateComponent(st, cfg, world, requests, canon).value, cfg, {}, canon)
    ensures Matching(requests, cfg.storage, {}, canon)
  {
    var n, pushed, plan := CreateForm(st, cfg, world, requests, canon);
    var next := CreateComponent(st, cfg, world, requests, canon).value;
    CreateMatches(st, att, cfg, canon, pushed, requests);
    CreateKeepsInvariant(st, att, cfg, world, requests, canon);
    CreateWritesIff(st, cfg, world, requests, canon);
    ShowsAfter(next, att[n := requests], n, cfg, {}, canon);
  }

  lemma CreateMatches(st: ClusterState, att: map<string, seq<Attachment>>, cfg: Config, canon: Canon, pushed: Pushed,
                      requests: seq<MountRequest>)
    requires Inv(st, att) && GoodStorage(cfg.storage) && Enumerates(requests, pushed.mount)
    requires PushStorage(st, cfg.storage, cfg.name, cfg.application, false, canon) == Ok(pushed)
    ensures Matching(requests, cfg.storage, {}, canon)
  {
    var k := PushOf(cfg, canon, pushed, requests);
    FirstPush(st, att, cfg, canon, pushed, requests);
    PushMatches([], k, st.pvcs);
    NothingKept(requests, k);
    assert StorageNames([]) == {};
  }

  // ------------------------------------------------------------ pushing again

  /** The API leaves the sizes of the new storages as written. */
  ghost predicate SizesStick(items: seq<Storage>, known: set<string>, canon: Canon) {
    forall s :: s in items && s.name !in known ==> CanonicalSize(s.size, canon) == s.size
  }

  lemma SameNames(mounted: seq<Storage>, items: seq<Storage>, known: set<string>, canon: Canon)
    requires SameStorages(mounted, items, known, canon)
    ensures forall s :: s in mounted ==> s.name in ByName(items)
    ensures forall s :: s in items ==> s.name in ByName(mounted)
  {
    ByNameFacts(items);
    ByNameFacts(mounted);
  }

  lemma SettledFollowsIff(mounted: seq<Storage>, items: seq<Storage>, known: set<string>, canon: Canon)
    requires Distinct(Map(NameOfStorage, items)) && SameStorages(mounted, items, known, canon)
    ensures Follows(mounted, ByName(items)) <==> SizesStick(items, known, canon)
  {
    ByNameFacts(items);
    if Follows(mounted, ByName(items)) {
      forall s | s in items && s.name !in known ensures CanonicalSize(s.size, canon) == s.size {
        assert Settled(s, known, canon) in mounted;
      }
    }
    if SizesStick(items, known, canon) {
      forall x | x in mounted ensures ByName(items)[x.name].size == x.size && ByName(items)[x.name].path == x.path {
        assert SettledFrom(x, items, known, canon);
      }
    }
  }

  /** A SECOND PUSH. Against a cluster that shows the config, it succeeds if and only if every size that
      was new is as the API writes sizes, and then it creates, deletes, mounts and unmounts nothing. */
  lemma SecondPushIff(st: ClusterState, cfg: Config, known: set<string>, canon: Canon)
    requires GoodStorage(cfg.storage) && Shows(st, cfg, known, canon)
    ensures var again := PushStorage(st, cfg.storage, cfg.name, cfg.application, true, canon);
            (again.Ok? <==> SizesStick(cfg.storage, known, canon)) &&
            (again.Ok? ==> again.value == Pushed(st.pvcs, map[], map[]))
  {
    var mounted := MountedStorage(st, cfg.name, cfg.application).value;
    SameNames(mounted, cfg.storage, known, canon);
    SettledFollowsIff(mounted, cfg.storage, known, canon);
    NothingToDeleteIff(st.pvcs, mounted, ByName(cfg.storage));
    NothingToCreate(st.pvcs, cfg.storage, ByName(mounted).Keys, cfg.name, cfg.application, canon);
  }
}
