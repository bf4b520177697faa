// What a successful storage.Push does, in terms of the attachments of the component and its config.

module PushEffects {
  import opened Cluster
  import opened Invariant
  import opened Lists
  import opened Names
  import opened Objects
  import opened Results
  import opened Shapes
  import opened StorageSync

  function PathOfStorage(s: Storage): string {
    s.path
  }

  /** The storages of a config: the local config keeps names and paths distinct. */
  ghost predicate GoodStorage(items: seq<Storage>) {
    && Distinct(Map(NameOfStorage, items)) && Distinct(Map(PathOfStorage, items))
    && forall s :: s in items ==> s.path != "" && s.path !in BASE_PATHS
  }

  // ------------------------------------------------------------ deletion

  function LabelledIn(names: set<string>): PVC -> bool {
    (p: PVC) => StorageName in p.labels && p.labels[StorageName] in names
  }

  /** Deleting a storage removes exactly the claims that carry its label. */
  lemma DeleteIsFilter(pvcs: seq<PVC>, name: string)
    requires Distinct(PvcNames(pvcs)) && name != "" && DeleteStorage(pvcs, name).Ok?
    ensures DeleteStorage(pvcs, name).value == Without(pvcs, LabelledIn({name}))
  {
    var found := SelectPvcs(pvcs, map[StorageName := name]);
    WithoutMembers(pvcs, NotMatching(map[StorageName := name]));
    var p := found[0];
    assert p in found && Matches(p.labels, map[StorageName := name]);
    forall x | x in pvcs ensures NamedPvc(p.name)(x) == LabelledIn({name})(x) {
      if x.name == p.name {
        PvcNamesAreDistinct(pvcs, x, p);
      } else {
        assert x != p && x !in found;
      }
    }
    WithoutAgree(pvcs, NamedPvc(p.name), LabelledIn({name}));
  }

  function Gone(items: seq<Storage>, config: map<string, Storage>): set<string> {
    set s | s in items && s.name !in config :: s.name
  }

  function GonePaths(items: seq<Storage>, config: map<string, Storage>): set<string> {
    set s | s in items && s.name !in config :: s.path
  }

  ghost predicate Follows(items: seq<Storage>, config: map<string, Storage>) {
    forall s :: s in items && s.name in config ==> config[s.name].size == s.size && config[s.name].path == s.path
  }

  /** One more storage gone: the filters compose. */
  lemma GoneStep(pvcs: seq<PVC>, s: Storage, rest: seq<Storage>, config: map<string, Storage>)
    requires s.name !in config
    ensures Without(Without(pvcs, LabelledIn({s.name})), LabelledIn(Gone(rest, config)))
         == Without(pvcs, LabelledIn(Gone([s] + rest, config)))
    ensures GonePaths([s] + rest, config) == {s.path} + GonePaths(rest, config)
  {
    assert Gone([s] + rest, config) == {s.name} + Gone(rest, config);
    WithoutTwice(pvcs, LabelledIn({s.name}), LabelledIn(Gone(rest, config)), LabelledIn(Gone([s] + rest, config)));
  }

  lemma GoneSkip(s: Storage, rest: seq<Storage>, config: map<string, Storage>)
    requires s.name in config
    ensures Gone([s] + rest, config) == Gone(rest, config) && GonePaths([s] + rest, config) == GonePaths(rest, config)
  {
  }

  lemma {:induction false} DeleteEffect(pvcs: seq<PVC>, items: seq<Storage>, config: map<string, Storage>,
                                        unmount: map<string, string>)
    requires Distinct(PvcNames(pvcs)) && forall s :: s in items ==> s.name != ""
    requires DeletePhase(pvcs, items, config, unmount).Ok?
    ensures DeletePhase(pvcs, items, config, unmount).value.pvcs == Without(pvcs, LabelledIn(Gone(items, config)))
    ensures DeletePhase(pvcs, items, config, unmount).value.unmount.Keys == unmount.Keys + GonePaths(items, config)
    decreases items
  {
    if items == [] {
      WithoutNothing(pvcs, LabelledIn(Gone(items, config)));
    } else {
      var s, rest := items[0], items[1..];
      assert items == [s] + rest;
      if s.name !in config {
        DeleteIsFilter(pvcs, s.name);
        WithoutDistinct(NameOfPvc, pvcs, LabelledIn({s.name}));
        DeleteEffect(Without(pvcs, LabelledIn({s.name})), rest, config, unmount[s.path := s.name]);
        GoneStep(pvcs, s, rest, config);
      } else {
        DeleteEffect(pvcs, rest, config, unmount);
        GoneSkip(s, rest, config);
      }
    }
  }

  lemma {:induction false} DeleteFollows(pvcs: seq<PVC>, items: seq<Storage>, config: map<string, Storage>,
                                         unmount: map<string, string>)
    requires DeletePhase(pvcs, items, config, unmount).Ok?
    ensures Follows(items, config)
    decreases items
  {
    if items != [] {
      var s, rest := items[0], items[1..];
      assert items == [s] + rest;
      if s.name !in config {
        DeleteFollows(DeleteStorage(pvcs, s.name).value, rest, config, unmount[s.path := s.name]);
      } else {
        DeleteFollows(pvcs, rest, config, unmount);
      }
    }
  }

  /** No two claims carry the same one of these storage labels. */
  ghost predicate UniquelyLabelled(pvcs: seq<PVC>, names: set<string>) {
    forall p, q :: p in pvcs && q in pvcs && LabelledIn(names)(p) && LabelledIn(names)(q) ==>
      p.labels[StorageName] == q.labels[StorageName] ==> p == q
  }

  lemma OneLabelled(pvcs: seq<PVC>, name: string)
    requires DeleteStorage(pvcs, name).Ok? && name != ""
    ensures UniquelyLabelled(pvcs, {name})
  {
    var found := SelectPvcs(pvcs, map[StorageName := name]);
    WithoutMembers(pvcs, NotMatching(map[StorageName := name]));
    forall p | p in pvcs && LabelledIn({name})(p) ensures p == found[0] {
      assert Matches(p.labels, map[StorageName := name]);
      assert p in found;
    }
  }

  lemma UniqueStep(pvcs: seq<PVC>, left: seq<PVC>, name: string, names: set<string>)
    requires UniquelyLabelled(pvcs, {name}) && UniquelyLabelled(left, names)
    requires forall p :: p in pvcs && !LabelledIn({name})(p) ==> p in left
    ensures UniquelyLabelled(pvcs, {name} + names)
  {
  }

  /** A deletion that succeeds met each label it deletes on one claim of the whole project. */
  lemma {:induction false} DeletedOnce(pvcs: seq<PVC>, items: seq<Storage>, config: map<string, Storage>,
                                       unmount: map<string, string>)
    requires Distinct(PvcNames(pvcs)) && forall s :: s in items ==> s.name != ""
    requires DeletePhase(pvcs, items, config, unmount).Ok?
    ensures UniquelyLabelled(pvcs, Gone(items, config))
    decreases items
  {
    if items != [] {
      var s, rest := items[0], items[1..];
      assert items == [s] + rest;
      if s.name !in config {
        OneLabelled(pvcs, s.name);
        DeleteIsFilter(pvcs, s.name);
        var left := Without(pvcs, LabelledIn({s.name}));
        WithoutDistinct(NameOfPvc, pvcs, LabelledIn({s.name}));
        WithoutMembers(pvcs, LabelledIn({s.name}));
        DeletedOnce(left, rest, config, unmount[s.path := s.name]);
        UniqueStep(pvcs, left, s.name, Gone(rest, config));
        assert Gone(items, config) == {s.name} + Gone(rest, config);
      } else {
        DeletedOnce(pvcs, rest, config, unmount);
        GoneSkip(s, rest, config);
      }
    }
  }

  /** A config that drops nothing deletes nothing, and succeeds exactly if every storage that is
      mounted is mounted as the config says. */
  lemma {:induction false} NothingToDeleteIff(pvcs: seq<PVC>, items: seq<Storage>, config: map<string, Storage>)
    requires forall s :: s in items ==> s.name in config
    ensures DeletePhase(pvcs, items, config, map[]) == Ok(Deleted(pvcs, map[])) <==> Follows(items, config)
    ensures DeletePhase(pvcs, items, config, map[]).Ok? <==> Follows(items, config)
    decreases items
  {
    if items != [] {
      assert items == [items[0]] + items[1..];
      NothingToDeleteIff(pvcs, items[1..], config);
    }
  }

  // ------------------------------------------------------------ creation

  function KnownIn(known: set<string>): Storage -> bool {
    (s: Storage) => s.name in known
  }

  function ClaimName(storage: string, application: string): string {
    match NamespaceOpenShiftObject(storage, application)
    case Ok(namespaced) => PVCNameFromStorageName(namespaced)
    case Err(_) => ""
  }

  function CanonicalSize(size: string, canon: Canon): string {
    match canon(size) case Some(quantity) => quantity case None => ""
  }

  function NewClaim(component: string, application: string, canon: Canon): Storage -> PVC {
    (s: Storage) => PVC(ClaimName(s.name, application), CanonicalSize(s.size, canon),
                        StorageLabels(s.name, component, application))
  }

  function Fresh(items: seq<Storage>, known: set<string>): seq<Storage> {
    Without(items, KnownIn(known))
  }

  ghost predicate Creatable(items: seq<Storage>, application: string, canon: Canon) {
    forall s :: s in items ==> NamespaceOpenShiftObject(s.name, application).Ok? && canon(s.size).Some?
  }

  lemma ClaimAdded(pvcs: seq<PVC>, s: Storage, component: string, application: string, canon: Canon)
    requires Distinct(PvcNames(pvcs)) && CreateStorage(pvcs, s, component, application, canon).Ok?
    ensures CreateStorage(pvcs, s, component, application, canon).value == NewClaim(component, application, canon)(s)
    ensures Distinct(PvcNames(pvcs + [CreateStorage(pvcs, s, component, application, canon).value]))
  {
    var pvc := CreateStorage(pvcs, s, component, application, canon).value;
    assert PvcNames(pvcs + [pvc]) == PvcNames(pvcs) + [pvc.name];
  }

  lemma FreshStep(s: Storage, rest: seq<Storage>, known: set<string>, claim: Storage -> PVC, pvcs: seq<PVC>)
    requires s.name !in known
    ensures Fresh([s] + rest, known) == [s] + Fresh(rest, known)
    ensures pvcs + [claim(s)] + Map(claim, Fresh(rest, known)) == pvcs + Map(claim, Fresh([s] + rest, known))
  {
    WithoutCons(s, rest, KnownIn(known));
    MapConcat(claim, [s], Fresh(rest, known));
    assert Map(claim, [s]) == [claim(s)];
  }

  /** The creation phase, one new storage at a time. */
  lemma CreatePhaseStep(pvcs: seq<PVC>, items: seq<Storage>, known: set<string>, component: string,
                        application: string, canon: Canon, mount: map<string, PVC>)
    requires items != [] && items[0].name !in known && Distinct(PvcNames(pvcs))
    requires CreatePhase(pvcs, items, known, component, application, canon, mount).Ok?
    ensures var pvc := NewClaim(component, application, canon)(items[0]);
            CreateStorage(pvcs, items[0], component, application, canon) == Ok(pvc) &&
            Distinct(PvcNames(pvcs + [pvc])) &&
            CreatePhase(pvcs, items, known, component, application, canon, mount)
            == CreatePhase(pvcs + [pvc], items[1..], known, component, application, canon, mount[items[0].path := pvc])
  {
    ClaimAdded(pvcs, items[0], component, application, canon);
  }

  lemma {:induction false} CreateEffect(pvcs: seq<PVC>, items: seq<Storage>, known: set<string>, component: string,
                                        application: string, canon: Canon, mount: map<string, PVC>)
    requires Distinct(PvcNames(pvcs))
    requires CreatePhase(pvcs, items, known, component, application, canon, mount).Ok?
    ensures CreatePhase(pvcs, items, known, component, application, canon, mount).value.pvcs
         == pvcs + Map(NewClaim(component, application, canon), Fresh(items, known))
    decreases items
  {
    var claim := NewClaim(component, application, canon);
    if items == [] {
      assert pvcs + Map(claim, []) == pvcs;
    } else if items[0].name in known {
      assert items == [items[0]] + items[1..];
      WithoutCons(items[0], items[1..], KnownIn(known));
      CreateEffect(pvcs, items[1..], known, component, application, canon, mount);
    } else {
      assert items == [items[0]] + items[1..];
      CreatePhaseStep(pvcs, items, known, component, application, canon, mount);
      FreshStep(items[0], items[1..], known, claim, pvcs);
      CreateEffect(pvcs + [claim(items[0])], items[1..], known, component, application, canon,
                   mount[items[0].path := claim(items[0])]);
    }
  }

  lemma {:induction false} CreatedNamesDistinct(pvcs: seq<PVC>, items: seq<Storage>, known: set<string>,
                                                component: string,
                                                application: string, canon: Canon, mount: map<string, PVC>)
    requires Distinct(PvcNames(pvcs))
    requires CreatePhase(pvcs, items, known, component, application, canon, mount).Ok?
    ensures Distinct(PvcNames(CreatePhase(pvcs, items, known, component, application, canon, mount).value.pvcs))
    decreases items
  {
    if items != [] {
      var s, rest := items[0], items[1..];
      if s.name in known {
        CreatedNamesDistinct(pvcs, rest, known, component, application, canon, mount);
      } else {
        ClaimAdded(pvcs, s, component, application, canon);
        var pvc := CreateStorage(pvcs, s, component, application, canon).value;
        CreatedNamesDistinct(pvcs + [pvc], rest, known, component, application, canon, mount[s.path := pvc]);
      }
    }
  }

  lemma {:induction false} CreatedAreCreatable(pvcs: seq<PVC>, items: seq<Storage>, known: set<string>,
                                               component: string,
                                               application: string, canon: Canon, mount: map<string, PVC>)
    requires CreatePhase(pvcs, items, known, component, application, canon, mount).Ok?
    ensures Creatable(Fresh(items, known), application, canon)
    decreases items
  {
    if items != [] {
      var s, rest := items[0], items[1..];
      if s.name in known {
        CreatedAreCreatable(pvcs, rest, known, component, application, canon, mount);
      } else {
        var pvc := CreateStorage(pvcs, s, component, application, canon).value;
        CreatedAreCreatable(pvcs + [pvc], rest, known, component, application, canon, mount[s.path := pvc]);
      }
    }
  }

  /** The map of storages to mount holds each new storage's claim at its path. */
  ghost predicate MountsFresh(mount: map<string, PVC>, added: seq<Storage>, claim: Storage -> PVC) {
    && (forall s :: s in added ==> s.path in mount && mount[s.path] == claim(s))
    && (forall path :: path in mount ==> exists s :: s in added && s.path == path)
  }

  lemma {:induction false} CreateMounts(pvcs: seq<PVC>, items: seq<Storage>, known: set<string>, component: string,
                                        application: string, canon: Canon, mount: map<string, PVC>, done: seq<Storage>)
    requires CreatePhase(pvcs, items, known, component, application, canon, mount).Ok?
    requires Distinct(Map(PathOfStorage, done + items))
    requires MountsFresh(mount, Fresh(done, known), NewClaim(component, application, canon))
    ensures MountsFresh(CreatePhase(pvcs, items, known, component, application, canon, mount).value.mount,
                        Fresh(done + items, known), NewClaim(component, application, canon))
    decreases items
  {
    if items == [] {
      assert done + items == done;
    } else {
      var s, rest := items[0], items[1..];
      assert done + [s] + rest == done + items;
      WithoutConcat(done, [s], KnownIn(known));
      if s.name in known {
        assert Fresh(done + [s], known) == Fresh(done, known);
        CreateMounts(pvcs, rest, known, component, application, canon, mount, done + [s]);
      } else {
        var pvc := NewClaim(component, application, canon)(s);
        assert CreateStorage(pvcs, s, component, application, canon) == Ok(pvc);
        assert Fresh(done + [s], known) == Fresh(done, known) + [s];
        MountOneMore(mount, done, s, rest, known, NewClaim(component, application, canon));
        CreateMounts(pvcs + [pvc], rest, known, component, application, canon, mount[s.path := pvc], done + [s]);
      }
    }
  }

  lemma MountOneMore(mount: map<string, PVC>, done: seq<Storage>, s: Storage, rest: seq<Storage>, known: set<string>,
                     claim: Storage -> PVC)
    requires Distinct(Map(PathOfStorage, done + [s] + rest)) && MountsFresh(mount, Fresh(done, known), claim)
    ensures MountsFresh(mount[s.path := claim(s)], Fresh(done, known) + [s], claim)
  {
    var next, items := mount[s.path := claim(s)], Fresh(done, known) + [s];
    WithoutMembers(done, KnownIn(known));
    forall x | x in Fresh(done, known) ensures x.path != s.path {
      var k :| 0 <= k < |done| && done[k] == x;
      assert Map(PathOfStorage, done + [s] + rest)[k] != Map(PathOfStorage, done + [s] + rest)[|done|];
    }
    forall path | path in next ensures exists x :: x in items && x.path == path {
      if path == s.path {
        assert s in items;
      } else {
        var x :| x in Fresh(done, known) && x.path == path;
        assert x in items;
      }
    }
  }

  lemma {:induction false} NothingToCreate(pvcs: seq<PVC>, items: seq<Storage>, known: set<string>, component: string,
                                           application: string, canon: Canon)
    requires forall s :: s in items ==> s.name in known
    ensures CreatePhase(pvcs, items, known, component, application, canon, map[]) == Ok(Created(pvcs, map[]))
    decreases items
  {
    if items != [] {
      assert items == [items[0]] + items[1..];
      NothingToCreate(pvcs, items[1..], known, component, application, canon);
    }
  }

  // ------------------------------------------------------------ the whole push

  lemma {:induction false} ByNameFacts(items: seq<Storage>)
    ensures forall name :: name in ByName(items) ==> ByName(items)[name] in items && ByName(items)[name].name == name
    ensures forall s :: s in items ==> s.name in ByName(items)
    ensures Distinct(Map(NameOfStorage, items)) ==> forall s :: s in items ==> ByName(items)[s.name] == s
  {
    if items != [] {
      var front, last := items[..|items| - 1], items[|items| - 1];
      assert items == front + [last];
      ByNameFacts(front);
      if Distinct(Map(NameOfStorage, items)) {
        assert Map(NameOfStorage, front) == Map(NameOfStorage, items)[..|front|];
        forall s | s in front ensures s.name != last.name {
          var k :| 0 <= k < |front| && front[k] == s;
          assert Map(NameOfStorage, items)[k] != Map(NameOfStorage, items)[|front|];
        }
      }
    }
  }

  /** Storage names of the attachments that the config no longer has. */
  function Dropped(users: seq<Attachment>, config: map<string, Storage>): set<string> {
    set u | u in users && StorageNameOf(u) !in config :: StorageNameOf(u)
  }

  function DroppedPaths(users: seq<Attachment>, config: map<string, Storage>): set<string> {
    set u | u in users && StorageNameOf(u) !in config :: u.path
  }

  function StorageNames(users: seq<Attachment>): set<string> {
    set u | u in users :: StorageNameOf(u)
  }

  lemma ReportsNames(items: seq<Storage>, users: seq<Attachment>, config: map<string, Storage>)
    requires Reports(items, users)
    ensures ByName(items).Keys == StorageNames(users)
    ensures Gone(items, config) == Dropped(users, config) && GonePaths(items, config) == DroppedPaths(users, config)
    ensures Follows(items, config) ==> forall u :: u in users && StorageNameOf(u) in config ==>
              config[StorageNameOf(u)].size == u.pvc.size && config[StorageNameOf(u)].path == u.path
  {
    ByNameFacts(items);
    forall u | u in users ensures StorageOf(u) in items && StorageOf(u).name == StorageNameOf(u) {
    }
    forall name | name in StorageNames(users) ensures name in ByName(items) {
      var u :| u in users && StorageNameOf(u) == name;
      assert StorageOf(u) in items;
    }
    forall x | x in Dropped(users, config) ensures x in Gone(items, config) {
      var u :| u in users && StorageNameOf(u) !in config && StorageNameOf(u) == x;
      assert StorageOf(u) in items;
    }
    forall x | x in DroppedPaths(users, config) ensures x in GonePaths(items, config) {
      var u :| u in users && StorageNameOf(u) !in config && u.path == x;
      assert StorageOf(u) in items;
    }
  }

  /** The outcome of a push for a component with these attachments: claims of dropped storages are
      deleted, claims of new storages created, everything else is untouched and as configured. */
  ghost predicate PushOutcome(pvcs: seq<PVC>, users: seq<Attachment>, items: seq<Storage>, component: string,
                              application: string, canon: Canon, pushed: Pushed)
  {
    var config, claim := ByName(items), NewClaim(component, application, canon);
    var added := Fresh(items, StorageNames(users));
    && pushed.pvcs == Without(pvcs, LabelledIn(Dropped(users, config))) + Map(claim, added)
    && Distinct(PvcNames(pushed.pvcs))
    && UniquelyLabelled(pvcs, Dropped(users, config))
    && pushed.unmount.Keys == DroppedPaths(users, config)
    && MountsFresh(pushed.mount, added, claim)
    && Creatable(added, application, canon)
    && forall u :: u in users && StorageNameOf(u) in config ==>
         config[StorageNameOf(u)].size == u.pvc.size && config[StorageNameOf(u)].path == u.path
  }

  lemma DeletedPart(pvcs: seq<PVC>, mounted: seq<Storage>, users: seq<Attachment>, config: map<string, Storage>,
                    done: Deleted)
    requires Distinct(PvcNames(pvcs)) && Reports(mounted, users) && forall s :: s in mounted ==> s.name != ""
    requires DeletePhase(pvcs, mounted, config, map[]) == Ok(done)
    ensures done.pvcs == Without(pvcs, LabelledIn(Dropped(users, config))) && Distinct(PvcNames(done.pvcs))
    ensures done.unmount.Keys == DroppedPaths(users, config)
    ensures UniquelyLabelled(pvcs, Dropped(users, config)) && Follows(mounted, config)
  {
    ReportsNames(mounted, users, config);
    DeleteEffect(pvcs, mounted, config, map[]);
    DeleteFollows(pvcs, mounted, config, map[]);
    DeletedOnce(pvcs, mounted, config, map[]);
    WithoutDistinct(NameOfPvc, pvcs, LabelledIn(Gone(mounted, config)));
  }

  lemma CreatedPart(pvcs: seq<PVC>, items: seq<Storage>, known: set<string>, component: string, application: string,
                    canon: Canon, done: Created)
    requires Distinct(PvcNames(pvcs)) && Distinct(Map(PathOfStorage, items))
    requires CreatePhase(pvcs, items, known, component, application, canon, map[]) == Ok(done)
    ensures done.pvcs == pvcs + Map(NewClaim(component, application, canon), Fresh(items, known))
    ensures Distinct(PvcNames(done.pvcs)) && Creatable(Fresh(items, known), application, canon)
    ensures MountsFresh(done.mount, Fresh(items, known), NewClaim(component, application, canon))
  {
    CreateEffect(pvcs, items, known, component, application, canon, map[]);
    CreatedNamesDistinct(pvcs, items, known, component, application, canon, map[]);
    CreatedAreCreatable(pvcs, items, known, component, application, canon, map[]);
    assert [] + items == items;
    CreateMounts(pvcs, items, known, component, application, canon, map[], []);
  }

  lemma PhasesOutcome(pvcs: seq<PVC>, mounted: seq<Storage>, users: seq<Attachment>, items: seq<Storage>,
                      component: string, application: string, canon: Canon, deleted: Deleted, created: Created)
    requires Distinct(PvcNames(pvcs)) && Reports(mounted, users) && GoodStorage(items)
    requires forall s :: s in mounted ==> s.name != ""
    requires DeletePhase(pvcs, mounted, ByName(items), map[]) == Ok(deleted)
    requires CreatePhase(deleted.pvcs, items, ByName(mounted).Keys, component, application, canon, map[]) == Ok(created)
    ensures PushOutcome(pvcs, users, items, component, application, canon,
                        Pushed(created.pvcs, created.mount, deleted.unmount))
  {
    DeletedPart(pvcs, mounted, users, ByName(items), deleted);
    CreatedPart(deleted.pvcs, items, ByName(mounted).Keys, component, application, canon, created);
    ReportsNames(mounted, users, ByName(items));
  }

  /** PUSH, EXACTLY, for an existing component. */
  lemma PushEffect(st: ClusterState, att: map<string, seq<Attachment>>, n: string, items: seq<Storage>, canon: Canon,
                   component: string, application: string)
    requires Inv(st, att) && n in st.dcs && GoodStorage(items) && Identified(st.dcs[n].meta.labels, n)
    requires component == st.dcs[n].meta.labels[ComponentName] && application == st.dcs[n].meta.labels[ApplicationName]
    requires PushStorage(st, items, component, application, true, canon).Ok?
    ensures PushOutcome(st.pvcs, att[n], items, component, application, canon,
                        PushStorage(st, items, component, application, true, canon).value)
  {
    MountedIsExact(st, att, n);
    var mounted := MountedStorage(st, component, application).value;
    forall s | s in mounted ensures s.name != "" {
      var u :| u in att[n] && s == StorageOf(u);
      AttachedIsSelected(st, att, n, u);
    }
    var deleted := DeletePhase(st.pvcs, mounted, ByName(items), map[]).value;
    var created := CreatePhase(deleted.pvcs, items, ByName(mounted).Keys, component, application, canon, map[]).value;
    PhasesOutcome(st.pvcs, mounted, att[n], items, component, application, canon, deleted, created);
  }

  /** The same for a component being created: nothing is mounted yet. */
  lemma FirstPushEffect(st: ClusterState, items: seq<Storage>, canon: Canon, component: string, application: string)
    requires Distinct(PvcNames(st.pvcs)) && GoodStorage(items)
    requires PushStorage(st, items, component, application, false, canon).Ok?
    ensures PushOutcome(st.pvcs, [], items, component, application, canon,
                        PushStorage(st, items, component, application, false, canon).value)
  {
    var created := CreatePhase(st.pvcs, items, ByName([]).Keys, component, application, canon, map[]).value;
    PhasesOutcome(st.pvcs, [], [], items, component, application, canon, Deleted(st.pvcs, map[]), created);
  }

  // ------------------------------------------------------------ when a push succeeds

  function NamedStorage(name: string): Labels {
    map[StorageName := name]
  }

  /** Each of these storage labels is on one claim of the project. */
  ghost predicate OneEach(pvcs: seq<PVC>, names: set<string>) {
    forall name :: name in names ==> |SelectPvcs(pvcs, NamedStorage(name))| == 1
  }

  /** Deleting the claims of one storage does not touch another's. */
  lemma OthersSelected(pvcs: seq<PVC>, gone: string, name: string)
    requires name != gone && name != ""
    ensures SelectPvcs(Without(pvcs, LabelledIn({gone})), NamedStorage(name)) == SelectPvcs(pvcs, NamedStorage(name))
  {
    var other := NotMatching(NamedStorage(name));
    forall p | p in pvcs ensures other(p) <==> LabelledIn({gone})(p) || other(p) {
      assert StorageName in NamedStorage(name);
    }
    WithoutTwice(pvcs, LabelledIn({gone}), other, other);
  }

  lemma OneEachStep(pvcs: seq<PVC>, gone: string, names: set<string>)
    requires gone !in names && "" !in names && gone != ""
    ensures OneEach(Without(pvcs, LabelledIn({gone})), names) <==> OneEach(pvcs, names)
  {
    forall name | name in names
      ensures SelectPvcs(Without(pvcs, LabelledIn({gone})), NamedStorage(name)) == SelectPvcs(pvcs, NamedStorage(name))
    {
      OthersSelected(pvcs, gone, name);
    }
  }

  lemma DeleteSucceedsIff(pvcs: seq<PVC>, name: string)
    ensures DeleteStorage(pvcs, name).Ok? <==> |SelectPvcs(pvcs, NamedStorage(name))| == 1
  {
    var found := SelectPvcs(pvcs, NamedStorage(name));
    if |found| == 1 {
      WithoutMembers(pvcs, NotMatching(NamedStorage(name)));
      assert found[0] in found;
      var i :| 0 <= i < |pvcs| && pvcs[i] == found[0];
      assert PvcNames(pvcs)[i] == found[0].name;
    }
  }

  lemma FreshHead(s: Storage, rest: seq<Storage>)
    requires Distinct(Map(NameOfStorage, [s] + rest))
    ensures Distinct(Map(NameOfStorage, rest)) && forall t :: t in rest ==> t.name != s.name
  {
    var all, names := Map(NameOfStorage, [s] + rest), Map(NameOfStorage, rest);
    assert all == [s.name] + names;
    forall i, j | 0 <= i < j < |names| ensures names[i] != names[j] {
      assert all[i + 1] != all[j + 1];
    }
    forall t | t in rest ensures t.name != s.name {
      var k :| 0 <= k < |rest| && rest[k] == t;
      assert all[0] != all[k + 1];
    }
  }

  lemma {:induction false} DeletePhaseSucceedsIff(pvcs: seq<PVC>, items: seq<Storage>, config: map<string, Storage>,
                                                  unmount: map<string, string>)
    requires Distinct(PvcNames(pvcs)) && Distinct(Map(NameOfStorage, items)) && forall s :: s in items ==> s.name != ""
    ensures DeletePhase(pvcs, items, config, unmount).Ok?
            <==> Follows(items, config) && OneEach(pvcs, Gone(items, config))
    decreases items
  {
    if items != [] {
      var s, rest := items[0], items[1..];
      assert items == [s] + rest;
      FreshHead(s, rest);
      if s.name !in config {
        DeleteSucceedsIff(pvcs, s.name);
        assert Gone(items, config) == {s.name} + Gone(rest, config);
        if DeleteStorage(pvcs, s.name).Ok? {
          var left := Without(pvcs, LabelledIn({s.name}));
          OneDeleted(pvcs, s, rest, config);
          DeletePhaseSucceedsIff(left, rest, config, unmount[s.path := s.name]);
        }
      } else {
        GoneSkip(s, rest, config);
        DeletePhaseSucceedsIff(pvcs, rest, config, unmount);
      }
    }
  }

  lemma OneDeleted(pvcs: seq<PVC>, s: Storage, rest: seq<Storage>, config: map<string, Storage>)
    requires Distinct(PvcNames(pvcs)) && s.name != "" && DeleteStorage(pvcs, s.name).Ok?
    requires forall t :: t in rest ==> t.name != s.name && t.name != ""
    ensures var left := Without(pvcs, LabelledIn({s.name}));
            DeleteStorage(pvcs, s.name) == Ok(left) && Distinct(PvcNames(left)) &&
            (OneEach(left, Gone(rest, config)) <==> OneEach(pvcs, Gone(rest, config)))
  {
    DeleteIsFilter(pvcs, s.name);
    WithoutDistinct(NameOfPvc, pvcs, LabelledIn({s.name}));
    OneEachStep(pvcs, s.name, Gone(rest, config));
  }

  lemma CreateStorageSucceedsIff(pvcs: seq<PVC>, s: Storage, component: string, application: string, canon: Canon)
    ensures CreateStorage(pvcs, s, component, application, canon).Ok?
            <==> NamespaceOpenShiftObject(s.name, application).Ok? && canon(s.size).Some? &&
                 ClaimName(s.name, application) !in PvcNames(pvcs)
  {
  }

  lemma NotDistinct(a: seq<PVC>, p: PVC, b: seq<PVC>)
    requires p.name in PvcNames(a)
    ensures !Distinct(PvcNames(a + [p] + b))
  {
    var i :| 0 <= i < |a| && PvcNames(a)[i] == p.name;
    var all := PvcNames(a + [p] + b);
    assert all[i] == all[|a|];
  }

  lemma {:induction false} CreatePhaseSucceedsIff(pvcs: seq<PVC>, items: seq<Storage>, known: set<string>,
                                                  component: string,
                                                  application: string, canon: Canon, mount: map<string, PVC>)
    requires Distinct(PvcNames(pvcs))
    ensures CreatePhase(pvcs, items, known, component, application, canon, mount).Ok?
            <==> Creatable(Fresh(items, known), application, canon) &&
                 Distinct(PvcNames(pvcs + Map(NewClaim(component, application, canon), Fresh(items, known))))
    decreases items
  {
    var claim := NewClaim(component, application, canon);
    if items == [] {
      assert pvcs + Map(claim, []) == pvcs;
    } else if items[0].name in known {
      assert items == [items[0]] + items[1..];
      WithoutCons(items[0], items[1..], KnownIn(known));
      assert Fresh(items, known) == Fresh(items[1..], known);
      CreatePhaseSucceedsIff(pvcs, items[1..], known, component, application, canon, mount);
    } else {
      var s, rest := items[0], items[1..];
      assert items == [s] + rest;
      FreshStep(s, rest, known, claim, pvcs);
      CreatableStep(s, Fresh(rest, known), application, canon);
      CreateStorageSucceedsIff(pvcs, s, component, application, canon);
      if CreateStorage(pvcs, s, component, application, canon).Ok? {
        ClaimAdded(pvcs, s, component, application, canon);
        CreatePhaseSucceedsIff(pvcs + [claim(s)], rest, known, component, application, canon,
                               mount[s.path := claim(s)]);
      } else if ClaimName(s.name, application) in PvcNames(pvcs) {
        NotDistinct(pvcs, claim(s), Map(claim, Fresh(rest, known)));
      }
    }
  }

  lemma CreatableStep(s: Storage, rest: seq<Storage>, application: string, canon: Canon)
    ensures Creatable([s] + rest, application, canon)
            <==> NamespaceOpenShiftObject(s.name, application).Ok? && canon(s.size).Some? &&
                 Creatable(rest, application, canon)
  {
    assert s in [s] + rest;
    assert forall t :: t in [s] + rest <==> t == s || t in rest;
  }

  function ClaimNameIn(application: string): Storage -> string {
    (s: Storage) => ClaimName(s.name, application)
  }

  /** The new names are distinct and free. */
  ghost predicate NamesFree(pvcs: seq<PVC>, added: seq<Storage>, application: string) {
    Distinct(Map(ClaimNameIn(application), added)) &&
    forall s :: s in added ==> ClaimName(s.name, application) !in PvcNames(pvcs)
  }

  lemma NamesFreeIff(pvcs: seq<PVC>, added: seq<Storage>, component: string, application: string, canon: Canon)
    requires Distinct(PvcNames(pvcs))
    ensures NamesFree(pvcs, added, application)
            <==> Distinct(PvcNames(pvcs + Map(NewClaim(component, application, canon), added)))
  {
    var taken, wanted := PvcNames(pvcs), Map(ClaimNameIn(application), added);
    assert PvcNames(pvcs + Map(NewClaim(component, application, canon), added)) == taken + wanted;
    ConcatDistinctIff(taken, wanted);
    forall s | s in added ensures ClaimName(s.name, application) in wanted {
      var j :| 0 <= j < |added| && added[j] == s;
      assert wanted[j] == ClaimName(s.name, application);
    }
    forall name | name in wanted ensures exists s :: s in added && ClaimName(s.name, application) == name {
      var j :| 0 <= j < |wanted| && wanted[j] == name;
      assert added[j] in added;
    }
  }

  /** What makes a storage push succeed: storages kept agree with the config; the label of each dropped
      one is on no other claim of the project, whatever component or application it belongs to; each new
      one has a readable size and a name from which a claim's can be made; and those claim names are
      distinct and free once the dropped claims are gone. */
  ghost predicate PushAccepted(pvcs: seq<PVC>, users: seq<Attachment>, items: seq<Storage>, application: string,
                               canon: Canon) {
    var config, added := ByName(items), Fresh(items, StorageNames(users));
    && (forall u :: u in users && StorageNameOf(u) in config ==>
          config[StorageNameOf(u)].size == u.pvc.size && config[StorageNameOf(u)].path == u.path)
    && (forall u, p :: u in users && StorageNameOf(u) !in config && p in pvcs ==>
          StorageName in p.labels && p.labels[StorageName] == StorageNameOf(u) ==> p == u.pvc)
    && Creatable(added, application, canon)
    && NamesFree(Without(pvcs, LabelledIn(Dropped(users, config))), added, application)
  }

  lemma OneSelectedIff(pvcs: seq<PVC>, p: PVC)
    requires Distinct(PvcNames(pvcs)) && p in pvcs && StorageName in p.labels && p.labels[StorageName] != ""
    ensures |SelectPvcs(pvcs, NamedStorage(p.labels[StorageName]))| == 1
            <==> forall q :: q in pvcs ==>
                   StorageName in q.labels && q.labels[StorageName] == p.labels[StorageName] ==> q == p
  {
    var name := p.labels[StorageName];
    var found := SelectPvcs(pvcs, NamedStorage(name));
    WithoutMembers(pvcs, NotMatching(NamedStorage(name)));
    WithoutDistinct(NameOfPvc, pvcs, NotMatching(NamedStorage(name)));
    assert forall q: PVC ::
        Matches(q.labels, NamedStorage(name)) <==> StorageName in q.labels && q.labels[StorageName] == name;
    assert p in found;
    if |found| > 1 {
      assert found[0] in found && found[1] in found;
      assert Map(NameOfPvc, found)[0] != Map(NameOfPvc, found)[1];
    }
  }

  lemma DroppedOnceIff(pvcs: seq<PVC>, users: seq<Attachment>, config: map<string, Storage>)
    requires Distinct(PvcNames(pvcs))
    requires forall u :: u in users ==> u.pvc in pvcs && StorageName in u.pvc.labels && StorageNameOf(u) != ""
    ensures OneEach(pvcs, Dropped(users, config))
            <==> forall u, p :: u in users && StorageNameOf(u) !in config && p in pvcs ==>
                   StorageName in p.labels && p.labels[StorageName] == StorageNameOf(u) ==> p == u.pvc
  {
    forall u | u in users && StorageNameOf(u) !in config
      ensures |SelectPvcs(pvcs, NamedStorage(StorageNameOf(u)))| == 1
              <==> forall p :: p in pvcs ==>
                     StorageName in p.labels && p.labels[StorageName] == StorageNameOf(u) ==> p == u.pvc
      ensures StorageNameOf(u) in Dropped(users, config)
    {
      OneSelectedIff(pvcs, u.pvc);
    }
  }

  lemma KeptAgreeIff(mounted: seq<Storage>, users: seq<Attachment>, config: map<string, Storage>)
    requires Reports(mounted, users)
    ensures Follows(mounted, config)
            <==> forall u :: u in users && StorageNameOf(u) in config ==>
                   config[StorageNameOf(u)].size == u.pvc.size && config[StorageNameOf(u)].path == u.path
  {
    assert forall u :: u in users ==> StorageOf(u) in mounted;
  }

  lemma PhasesSucceedIff(pvcs: seq<PVC>, mounted: seq<Storage>, users: seq<Attachment>, items: seq<Storage>,
                         component: string, application: string, canon: Canon)
    requires Distinct(PvcNames(pvcs)) && Reports(mounted, users) && forall s :: s in mounted ==> s.name != ""
    requires forall u :: u in users ==> u.pvc in pvcs && StorageName in u.pvc.labels && StorageNameOf(u) != ""
    ensures (var deleted := DeletePhase(pvcs, mounted, ByName(items), map[]);
             deleted.Ok? &&
             CreatePhase(deleted.value.pvcs, items, ByName(mounted).Keys, component, application, canon, map[]).Ok?)
            <==> PushAccepted(pvcs, users, items, application, canon)
  {
    var config := ByName(items);
    DeletePhaseSucceedsIff(pvcs, mounted, config, map[]);
    ReportsNames(mounted, users, config);
    KeptAgreeIff(mounted, users, config);
    DroppedOnceIff(pvcs, users, config);
    if DeletePhase(pvcs, mounted, config, map[]).Ok? {
      DeleteEffect(pvcs, mounted, config, map[]);
      var left := Without(pvcs, LabelledIn(Dropped(users, config)));
      WithoutDistinct(NameOfPvc, pvcs, LabelledIn(Dropped(users, config)));
      CreatePhaseSucceedsIff(left, items, StorageNames(users), component, application, canon, map[]);
      NamesFreeIff(left, Fresh(items, StorageNames(users)), component, application, canon);
    }
  }

  /** WHEN A PUSH SUCCEEDS, for an existing component. */
  lemma PushSucceedsIff(st: ClusterState, att: map<string, seq<Attachment>>, n: string, items: seq<Storage>,
                        canon: Canon, component: string, application: string)
    requires Inv(st, att) && n in st.dcs && Identified(st.dcs[n].meta.labels, n)
    requires component == st.dcs[n].meta.labels[ComponentName] && application == st.dcs[n].meta.labels[ApplicationName]
    ensures PushStorage(st, items, component, application, true, canon).Ok?
            <==> PushAccepted(st.pvcs, att[n], items, application, canon)
  {
    MountedIsExact(st, att, n);
    var mounted := MountedStorage(st, component, application).value;
    AttachedAreNamed(st, att, n);
    forall s | s in mounted ensures s.name != "" {
      var u :| u in att[n] && s == StorageOf(u);
    }
    PhasesSucceedIff(st.pvcs, mounted, att[n], items, component, application, canon);
  }

  lemma AttachedAreNamed(st: ClusterState, att: map<string, seq<Attachment>>, n: string)
    requires Inv(st, att) && n in st.dcs
    ensures Distinct(PvcNames(st.pvcs))
    ensures forall u :: u in att[n] ==> u.pvc in st.pvcs && StorageName in u.pvc.labels && StorageNameOf(u) != ""
  {
    forall u | u in att[n] ensures u.pvc in st.pvcs && StorageName in u.pvc.labels && StorageNameOf(u) != "" {
      AttachedIsSelected(st, att, n, u);
      SelectedStorage(st.pvcs, u.pvc);
    }
  }

  /** The same for a component being created: only new storages. */
  lemma FirstPushSucceedsIff(st: ClusterState, items: seq<Storage>, canon: Canon, component: string,
                             application: string)
    requires Distinct(PvcNames(st.pvcs))
    ensures PushStorage(st, items, component, application, false, canon).Ok?
            <==> PushAccepted(st.pvcs, [], items, application, canon)
  {
    PhasesSucceedIff(st.pvcs, [], [], items, component, application, canon);
  }
}
