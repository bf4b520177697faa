// The invariant that component creation and update rely on without stating it, and what listing the
// mounted storage returns under it.

module Invariant {
  import opened Cluster
  import opened Component
  import opened Deployment
  import opened Lists
  import opened Names
  import opened Objects
  import opened Results
  import opened Shapes
  import opened StorageSync

  /** The DC is named after the component and application in its labels. */
  ghost predicate Identified(labels: Labels, n: string) {
    && ApplicationName in labels && ComponentName in labels
    && NamespaceOpenShiftObject(labels[ComponentName], labels[ApplicationName]) == Ok(n)
  }

  /** A claim created for a storage of the component with these labels. */
  ghost predicate StorageClaim(p: PVC, labels: Labels)
    requires ApplicationName in labels && ComponentName in labels
  {
    && StorageName in p.labels
    && p.labels == StorageLabels(p.labels[StorageName], labels[ComponentName], labels[ApplicationName])
    && NamespaceOpenShiftObject(p.labels[StorageName], labels[ApplicationName]).Ok?
    && p.name == PVCNameFromStorageName(NamespaceOpenShiftObject(p.labels[StorageName], labels[ApplicationName]).value)
  }

  /** The claim for the source data of a local or binary component. */
  ghost predicate RootClaim(p: PVC, n: string) {
    p.name == AppRootVolumeName(n) && StorageName !in p.labels
  }

  /** A git component has no bootstrap volume, mount or init container; a local or binary one has
      exactly the two bootstrap volumes, their mounts and both init containers. */
  ghost predicate ComponentOk(dc: DC, n: string, users: seq<Attachment>) {
    && dc.meta.name == n && Identified(dc.meta.labels, n)
    && dc.meta.sourceType != NONE
    && Shaped(dc, Supervised(dc.meta.sourceType), users) && GoodUsers(users)
    && forall u :: u in users ==> StorageClaim(u.pvc, dc.meta.labels)
  }

  ghost predicate OwnedBy(dc: DC, n: string, users: seq<Attachment>, p: PVC) {
    || (Supervised(dc.meta.sourceType) && RootClaim(p, n))
    || exists u :: u in users && u.pvc == p
  }

  ghost predicate Owned(st: ClusterState, att: map<string, seq<Attachment>>, p: PVC) {
    exists n :: n in st.dcs && n in att && OwnedBy(st.dcs[n], n, att[n], p)
  }

  /** The claims are exactly the attached ones plus one source-data claim per supervised component. */
  ghost predicate ClaimsOk(st: ClusterState, att: map<string, seq<Attachment>>) {
    && Distinct(PvcNames(st.pvcs))
    && (forall p :: p in st.pvcs ==> Owned(st, att, p))
    && (forall n, u :: n in st.dcs && n in att && u in att[n] ==> u.pvc in st.pvcs)
    && (forall n :: n in st.dcs && Supervised(st.dcs[n].meta.sourceType) ==> AppRootVolumeName(n) in PvcNames(st.pvcs))
  }

  /** Exactly the git components have a build config, under their own labels. */
  ghost predicate BuildsOk(st: ClusterState) {
    && (forall n :: n in st.bcs <==> n in st.dcs && st.dcs[n].meta.sourceType == GIT)
    && (forall n :: n in st.bcs ==>
          Identified(st.bcs[n], n) && Identified(st.dcs[n].meta.labels, n) &&
          st.bcs[n][ComponentName] == st.dcs[n].meta.labels[ComponentName] &&
          st.bcs[n][ApplicationName] == st.dcs[n].meta.labels[ApplicationName])
  }

  ghost predicate AllComponentsOk(dcs: map<string, DC>, att: map<string, seq<Attachment>>) {
    && dcs.Keys == att.Keys
    && forall n :: n in dcs ==> ComponentOk(dcs[n], n, att[n])
  }

  ghost predicate Inv(st: ClusterState, att: map<string, seq<Attachment>>) {
    AllComponentsOk(st.dcs, att) && ClaimsOk(st, att) && BuildsOk(st)
  }

  // ------------------------------------------------------------ consequences

  lemma PvcNamesAreDistinct(pvcs: seq<PVC>, p: PVC, q: PVC)
    requires Distinct(PvcNames(pvcs)) && p in pvcs && q in pvcs && p.name == q.name
    ensures p == q
  {
    var i :| 0 <= i < |pvcs| && pvcs[i] == p;
    var j :| 0 <= j < |pvcs| && pvcs[j] == q;
    assert PvcNames(pvcs)[i] == PvcNames(pvcs)[j];
  }

  lemma NamedPvcExists(pvcs: seq<PVC>, name: string) returns (p: PVC)
    requires name in PvcNames(pvcs)
    ensures p in pvcs && p.name == name
  {
    var i :| 0 <= i < |pvcs| && PvcNames(pvcs)[i] == name;
    p := pvcs[i];
  }

  lemma StorageClaimIsNoRoot(p: PVC, labels: Labels, n: string)
    requires ApplicationName in labels && ComponentName in labels && StorageClaim(p, labels)
    ensures p.name != AppRootVolumeName(n)
  {
    AppRootIsNoStorageClaim(n, NamespaceOpenShiftObject(p.labels[StorageName], labels[ApplicationName]).value);
  }

  lemma RootOwner(dc: DC, m: string, users: seq<Attachment>, n: string, p: PVC)
    requires ComponentOk(dc, m, users) && OwnedBy(dc, m, users, p) && p.name == AppRootVolumeName(n)
    ensures m == n && Supervised(dc.meta.sourceType) && RootClaim(p, n)
  {
    if u :| u in users && u.pvc == p {
      StorageClaimIsNoRoot(p, dc.meta.labels, n);
    } else {
      AppRootInjective(m, n);
    }
  }

  lemma OwnerOf(st: ClusterState, att: map<string, seq<Attachment>>, p: PVC) returns (m: string)
    requires Owned(st, att, p)
    ensures m in st.dcs && m in att && OwnedBy(st.dcs[m], m, att[m], p)
  {
    m :| m in st.dcs && m in att && OwnedBy(st.dcs[m], m, att[m], p);
  }

  /** A claim named like source data is source data of a supervised component. */
  lemma RootClaimsOnly(st: ClusterState, att: map<string, seq<Attachment>>, n: string, p: PVC)
    requires Inv(st, att) && p in st.pvcs && p.name == AppRootVolumeName(n)
    ensures n in st.dcs && Supervised(st.dcs[n].meta.sourceType) && RootClaim(p, n)
  {
    var m := OwnerOf(st, att, p);
    RootOwner(st.dcs[m], m, att[m], n, p);
  }

  /** A git component has no source-data claim; a supervised one has exactly one. */
  lemma RootClaimIffSupervised(st: ClusterState, att: map<string, seq<Attachment>>, n: string)
    requires Inv(st, att) && n in st.dcs
    ensures AppRootVolumeName(n) in PvcNames(st.pvcs) <==> st.dcs[n].meta.sourceType != GIT
  {
    if AppRootVolumeName(n) in PvcNames(st.pvcs) {
      var p := NamedPvcExists(st.pvcs, AppRootVolumeName(n));
      RootClaimsOnly(st, att, n, p);
    }
  }

  ghost predicate AllIdentified(dcs: map<string, DC>) {
    forall n :: n in dcs ==> Identified(dcs[n].meta.labels, n)
  }

  lemma InvIdentifies(st: ClusterState, att: map<string, seq<Attachment>>)
    requires Inv(st, att)
    ensures AllIdentified(st.dcs)
  {
  }

  /** The labels of a component select its DC and no other. */
  lemma OneDCIs(dcs: map<string, DC>, n: string)
    requires AllIdentified(dcs) && n in dcs
    ensures var labels := dcs[n].meta.labels;
            OneDC(dcs, ComponentLabels(labels[ComponentName], labels[ApplicationName], false)) == Ok(dcs[n])
  {
    var labels := dcs[n].meta.labels;
    var selector := ComponentLabels(labels[ComponentName], labels[ApplicationName], false);
    assert Matches(labels, selector);
    forall m | m in dcs && Matches(dcs[m].meta.labels, selector) ensures m == n {
      assert ComponentName in selector && ApplicationName in selector;
    }
    assert TheOnly(dcs, selector, n);
  }

  /** A component found by name and application is the DC of that name. */
  lemma SelectedIsNamed(dcs: map<string, DC>, component: string, application: string, n: string)
    requires AllIdentified(dcs) && NamespaceOpenShiftObject(component, application) == Ok(n)
    requires OneDC(dcs, ComponentLabels(component, application, false)).Ok?
    ensures n in dcs && dcs[n].meta.labels[ComponentName] == component
    ensures dcs[n].meta.labels[ApplicationName] == application
  {
    var selector := ComponentLabels(component, application, false);
    var m :| TheOnly(dcs, selector, m);
    assert ComponentName in selector && ApplicationName in selector;
  }

  // ------------------------------------------------------------ listing

  function NameOfStorage(s: Storage): string {
    s.name
  }

  /** What List should report for an attachment. */
  function StorageOf(u: Attachment): Storage {
    Storage(StorageOfPvc(u.pvc), u.pvc.size, u.path)
  }

  lemma {:induction false} ClaimMapIs(pvcs: seq<PVC>)
    requires Distinct(PvcNames(pvcs))
    ensures forall p :: p in pvcs ==> p.name in ClaimMap(pvcs) && ClaimMap(pvcs)[p.name] == p
    ensures forall name :: name in ClaimMap(pvcs) ==> ClaimMap(pvcs)[name] in pvcs && ClaimMap(pvcs)[name].name == name
  {
    if pvcs != [] {
      var front, last := pvcs[..|pvcs| - 1], pvcs[|pvcs| - 1];
      assert pvcs == front + [last];
      assert PvcNames(front) == PvcNames(pvcs)[..|front|];
      ClaimMapIs(front);
      forall p | p in front ensures p.name != last.name {
        var i :| 0 <= i < |front| && front[i] == p;
        assert PvcNames(pvcs)[i] != PvcNames(pvcs)[|front|];
      }
    }
  }

  lemma {:induction false} ClaimOfVolume(volumes: seq<Volume>, v: Volume)
    requires Distinct(Map(NameOfVolume, volumes)) && v in volumes
    ensures IsVolumeAnEmptyDir(volumes, v.name) <==> v.source.EmptyDir?
    ensures v.source.Claim? ==> PVCNameFromVolumeMountName(volumes, v.name) == v.source.pvc
  {
    forall w | w in volumes && w.name == v.name ensures w == v {
      SameVolume(volumes, w, v);
    }
    if volumes[0] != v {
      assert volumes == [volumes[0]] + volumes[1..];
      assert v in volumes[1..];
      assert Map(NameOfVolume, volumes)[1..] == Map(NameOfVolume, volumes[1..]);
      ClaimOfVolume(volumes[1..], v);
    }
  }

  lemma SameVolume(volumes: seq<Volume>, v: Volume, w: Volume)
    requires Distinct(Map(NameOfVolume, volumes)) && v in volumes && w in volumes && v.name == w.name
    ensures v == w
  {
    var i :| 0 <= i < |volumes| && volumes[i] == w;
    var j :| 0 <= j < |volumes| && volumes[j] == v;
    assert Map(NameOfVolume, volumes)[i] == Map(NameOfVolume, volumes)[j];
  }

  function AddPaths(users: seq<Attachment>, acc: map<string, string>): map<string, string>
    decreases users
  {
    if users == [] then acc else AddPaths(users[1..], acc[StorageOfPvc(users[0].pvc) := users[0].path])
  }

  ghost predicate Readable(users: seq<Attachment>, volumes: seq<Volume>, claims: map<string, PVC>) {
    forall u :: u in users ==>
      && !IsVolumeAnEmptyDir(volumes, VolumeNameOf(u))
      && PVCNameFromVolumeMountName(volumes, VolumeNameOf(u)) == u.pvc.name
      && u.pvc.name != "" && u.pvc.name in claims && claims[u.pvc.name] == u.pvc
  }

  lemma {:induction false} PathsOfUsers(users: seq<Attachment>, volumes: seq<Volume>, claims: map<string, PVC>,
                                        dcName: string, acc: map<string, string>)
    requires Readable(users, volumes, claims)
    ensures MountedPaths(Map(AttachedMount, users), volumes, claims, dcName, acc) == Ok(AddPaths(users, acc))
    decreases users
  {
    if users != [] {
      assert Map(AttachedMount, users)[1..] == Map(AttachedMount, users[1..]);
      assert Map(AttachedMount, users)[0] == AttachedMount(users[0]);
      assert users[0] in users;
      PathsOfUsers(users[1..], volumes, claims, dcName, acc[StorageOfPvc(users[0].pvc) := users[0].path]);
    }
  }

  function StorageNameOf(u: Attachment): string {
    StorageOfPvc(u.pvc)
  }

  lemma {:induction false} AddedPaths(users: seq<Attachment>, acc: map<string, string>)
    requires Distinct(Map(StorageNameOf, users))
    ensures forall u :: u in users ==>
              StorageNameOf(u) in AddPaths(users, acc) && AddPaths(users, acc)[StorageNameOf(u)] == u.path
    ensures forall s :: s in acc && s !in Map(StorageNameOf, users) ==>
              s in AddPaths(users, acc) && AddPaths(users, acc)[s] == acc[s]
    decreases users
  {
    if users != [] {
      var u0 := users[0];
      assert users == [u0] + users[1..];
      assert Map(StorageNameOf, users)[1..] == Map(StorageNameOf, users[1..]);
      assert Map(StorageNameOf, users)[0] == StorageNameOf(u0);
      AddedPaths(users[1..], acc[StorageNameOf(u0) := u0.path]);
      assert StorageNameOf(u0) !in Map(StorageNameOf, users[1..]);
    }
  }

  /** Attachments of one component carry distinct storage names. */
  lemma StorageNamesDistinct(st: ClusterState, att: map<string, seq<Attachment>>, n: string)
    requires Inv(st, att) && n in st.dcs
    ensures Distinct(Map(StorageNameOf, att[n]))
  {
    var users := att[n];
    forall i, j | 0 <= i < j < |users| ensures StorageNameOf(users[i]) != StorageNameOf(users[j]) {
      assert users[i] in users && users[j] in users;
      assert StorageClaim(users[i].pvc, st.dcs[n].meta.labels) && StorageClaim(users[j].pvc, st.dcs[n].meta.labels);
      assert Map(ClaimOf, users)[i] != Map(ClaimOf, users)[j];
    }
  }

  lemma SelectedStorage(pvcs: seq<PVC>, p: PVC)
    ensures p in SelectPvcs(pvcs, ANY_STORAGE) <==> p in pvcs && StorageName in p.labels
  {
    WithoutMembers(pvcs, NotMatching(ANY_STORAGE));
    assert Matches(p.labels, ANY_STORAGE) <==> StorageName in p.labels;
  }

  /** What the loop over the mounts of a component in normal form finds. */
  lemma PathsOfShaped(dc: DC, users: seq<Attachment>, claims: map<string, PVC>)
    requires Shaped(dc, Supervised(dc.meta.sourceType), users) && GoodUsers(users)
    requires Readable(users, dc.volumes, claims) && AppRootVolumeName(dc.meta.name) !in claims
    ensures MountedPaths(MountsOf(dc.containers), dc.volumes, claims, dc.meta.name, map[]) == Ok(AddPaths(users, map[]))
  {
    var supervised, n := Supervised(dc.meta.sourceType), dc.meta.name;
    ShapedIsWellFormed(dc, supervised, users);
    assert dc.containers[1..] == [];
    assert MountsOf(dc.containers) == dc.containers[0].mounts by {
      assert MountsOf([]) == [];
      assert dc.containers[0].mounts + [] == dc.containers[0].mounts;
    }
    var rest := Map(AttachedMount, users);
    PathsOfUsers(users, dc.volumes, claims, n, map[]);
    var mounts := dc.containers[0].mounts;
    if supervised {
      assert mounts[0] == SUPERVISORD_MOUNT && mounts[1..][0] == AppRootMount(n);
      assert mounts[1..][1..] == rest;
      ClaimOfVolume(dc.volumes, Volume(SUPERVISORD_VOLUME, EmptyDir));
      ClaimOfVolume(dc.volumes, AppRootVolume(n));
      assert |AppRootVolumeName(n)| > 0;
    } else {
      assert mounts == rest;
    }
  }

  lemma ReadableUsers(dc: DC, users: seq<Attachment>, claims: map<string, PVC>)
    requires Shaped(dc, Supervised(dc.meta.sourceType), users) && GoodUsers(users)
    requires forall u :: u in users ==> u.pvc.name != "" && u.pvc.name in claims && claims[u.pvc.name] == u.pvc
    ensures Readable(users, dc.volumes, claims)
  {
    ShapedIsWellFormed(dc, Supervised(dc.meta.sourceType), users);
    forall u | u in users
      ensures !IsVolumeAnEmptyDir(dc.volumes, VolumeNameOf(u))
      ensures PVCNameFromVolumeMountName(dc.volumes, VolumeNameOf(u)) == u.pvc.name
    {
      var k :| 0 <= k < |users| && users[k] == u;
      var base := BaseVolumes(Supervised(dc.meta.sourceType), dc.meta.name);
      assert dc.volumes[|base| + k] == AttachedVolume(u);
      ClaimOfVolume(dc.volumes, AttachedVolume(u));
    }
  }

  lemma AttachedIsSelected(st: ClusterState, att: map<string, seq<Attachment>>, n: string, u: Attachment)
    requires Inv(st, att) && n in st.dcs && u in att[n]
    ensures StorageClaim(u.pvc, st.dcs[n].meta.labels)
    ensures u.pvc in SelectPvcs(st.pvcs, ANY_STORAGE) && u.pvc.name != ""
  {
    SelectedStorage(st.pvcs, u.pvc);
  }

  /** A claim that carries a storage label is attached to some component. */
  lemma AttachedTo(st: ClusterState, att: map<string, seq<Attachment>>, p: PVC) returns (m: string, u: Attachment)
    requires Owned(st, att, p) && StorageName in p.labels
    ensures m in st.dcs && m in att && u in att[m] && u.pvc == p
  {
    m :| m in st.dcs && m in att && OwnedBy(st.dcs[m], m, att[m], p);
    u :| u in att[m] && u.pvc == p;
  }

  lemma PathsOfComponent(st: ClusterState, att: map<string, seq<Attachment>>, n: string)
    requires Inv(st, att) && n in st.dcs
    ensures var dc := st.dcs[n];
            MountedPaths(MountsOf(dc.containers), dc.volumes, ClaimMap(SelectPvcs(st.pvcs, ANY_STORAGE)), n, map[])
            == Ok(AddPaths(att[n], map[]))
  {
    var dc, users := st.dcs[n], att[n];
    var selected := SelectPvcs(st.pvcs, ANY_STORAGE);
    var claims := ClaimMap(selected);
    WithoutDistinct(NameOfPvc, st.pvcs, NotMatching(ANY_STORAGE));
    ClaimMapIs(selected);
    forall u | u in users ensures u.pvc.name != "" && u.pvc in selected {
      AttachedIsSelected(st, att, n, u);
    }
    ReadableUsers(dc, users, claims);
    if AppRootVolumeName(n) in claims {
      var p := claims[AppRootVolumeName(n)];
      SelectedStorage(st.pvcs, p);
      RootClaimsOnly(st, att, n, p);
    }
    PathsOfShaped(dc, users, claims);
  }

  /** What List keeps for a component. */
  function OwnSelected(pvcs: seq<PVC>, labels: Labels): seq<PVC>
    requires ApplicationName in labels && ComponentName in labels
  {
    Without(SelectPvcs(pvcs, ANY_STORAGE), Foreign(labels[ComponentName], labels[ApplicationName]))
  }

  ghost predicate Attached(users: seq<Attachment>, p: PVC) {
    exists u :: u in users && u.pvc == p
  }

  lemma OwnIsAttached(st: ClusterState, att: map<string, seq<Attachment>>, n: string, p: PVC)
    requires Inv(st, att) && n in st.dcs && Identified(st.dcs[n].meta.labels, n)
    requires p in OwnSelected(st.pvcs, st.dcs[n].meta.labels)
    ensures Attached(att[n], p)
  {
    var labels := st.dcs[n].meta.labels;
    WithoutMembers(SelectPvcs(st.pvcs, ANY_STORAGE), Foreign(labels[ComponentName], labels[ApplicationName]));
    SelectedStorage(st.pvcs, p);
    var m, u := AttachedTo(st, att, p);
    AttachedIsSelected(st, att, m, u);
    SameOwner(st.dcs[m].meta.labels, m, labels, n, p);
  }

  lemma StorageClaimIsOwn(pvcs: seq<PVC>, labels: Labels, p: PVC)
    requires ApplicationName in labels && ComponentName in labels
    requires p in SelectPvcs(pvcs, ANY_STORAGE) && StorageClaim(p, labels)
    ensures p in OwnSelected(pvcs, labels)
  {
    WithoutMembers(SelectPvcs(pvcs, ANY_STORAGE), Foreign(labels[ComponentName], labels[ApplicationName]));
  }

  ghost predicate ClaimsAre(own: seq<PVC>, users: seq<Attachment>) {
    && (forall p :: p in own ==> Attached(users, p) && StorageName in p.labels)
    && (forall u :: u in users ==> u.pvc in own)
  }

  /** The claims List reports are those of the component's attachments. */
  lemma OwnClaims(st: ClusterState, att: map<string, seq<Attachment>>, n: string)
    requires Inv(st, att) && n in st.dcs && Identified(st.dcs[n].meta.labels, n)
    ensures ClaimsAre(OwnSelected(st.pvcs, st.dcs[n].meta.labels), att[n])
  {
    OwnDistinct(st.pvcs, st.dcs[n].meta.labels);
    forall p | p in OwnSelected(st.pvcs, st.dcs[n].meta.labels) ensures Attached(att[n], p) {
      OwnIsAttached(st, att, n, p);
    }
    forall u | u in att[n] ensures u.pvc in OwnSelected(st.pvcs, st.dcs[n].meta.labels) {
      AttachedIsSelected(st, att, n, u);
      StorageClaimIsOwn(st.pvcs, st.dcs[n].meta.labels, u.pvc);
    }
  }

  lemma SameOwner(a: Labels, m: string, b: Labels, n: string, p: PVC)
    requires Identified(a, m) && Identified(b, n) && StorageClaim(p, a)
    requires !Foreign(b[ComponentName], b[ApplicationName])(p)
    ensures m == n
  {
  }

  /** `items` reports each of `users` once and nothing else. */
  ghost predicate Reports(items: seq<Storage>, users: seq<Attachment>) {
    && Distinct(Map(NameOfStorage, items))
    && (forall s :: s in items ==> exists u :: u in users && s == StorageOf(u))
    && (forall u :: u in users ==> StorageOf(u) in items)
  }

  lemma MountedForm(st: ClusterState, dc: DC, labels: Labels, paths: map<string, string>)
    requires ApplicationName in labels && ComponentName in labels
    requires OneDC(st.dcs, ComponentLabels(labels[ComponentName], labels[ApplicationName], false)) == Ok(dc)
    requires MountedPaths(MountsOf(dc.containers), dc.volumes, ClaimMap(SelectPvcs(st.pvcs, ANY_STORAGE)), dc.meta.name,
                          map[])
             == Ok(paths)
    ensures MountedStorage(st, labels[ComponentName], labels[ApplicationName])
         == Ok(Without(Map(ToStorage(paths), OwnSelected(st.pvcs, labels)), WithoutPath()))
  {
  }

  lemma AttachedPathsNonEmpty(st: ClusterState, att: map<string, seq<Attachment>>, n: string)
    requires Inv(st, att) && n in st.dcs
    ensures st.dcs[n].meta.name == n && Distinct(PvcNames(st.pvcs))
    ensures forall u :: u in att[n] ==> u.path != ""
  {
  }

  /** LISTING IS EXACT. Under the invariant ListMounted succeeds and reports the attachments of the
      component, each once. */
  lemma MountedIsExact(st: ClusterState, att: map<string, seq<Attachment>>, n: string)
    requires Inv(st, att) && n in st.dcs && Identified(st.dcs[n].meta.labels, n)
    ensures var labels := st.dcs[n].meta.labels;
            var mounted := MountedStorage(st, labels[ComponentName], labels[ApplicationName]);
            mounted.Ok? && Reports(mounted.value, att[n])
  {
    InvIdentifies(st, att);
    var dc, users := st.dcs[n], att[n];
    OneDCIs(st.dcs, n);
    PathsOfComponent(st, att, n);
    StorageNamesDistinct(st, att, n);
    OwnClaims(st, att, n);
    AttachedPathsNonEmpty(st, att, n);
    ListedAsAttached(st, dc, users);
  }

  lemma ListedAsAttached(st: ClusterState, dc: DC, users: seq<Attachment>)
    requires Identified(dc.meta.labels, dc.meta.name) && Distinct(PvcNames(st.pvcs))
    requires OneDC(st.dcs, ComponentLabels(dc.meta.labels[ComponentName], dc.meta.labels[ApplicationName], false))
         == Ok(dc)
    requires MountedPaths(MountsOf(dc.containers), dc.volumes, ClaimMap(SelectPvcs(st.pvcs, ANY_STORAGE)), dc.meta.name,
                          map[])
             == Ok(AddPaths(users, map[]))
    requires Distinct(Map(StorageNameOf, users)) && ClaimsAre(OwnSelected(st.pvcs, dc.meta.labels), users)
    requires forall u :: u in users ==> u.path != ""
    ensures var mounted := MountedStorage(st, dc.meta.labels[ComponentName], dc.meta.labels[ApplicationName]);
            mounted.Ok? && Reports(mounted.value, users)
  {
    MountedForm(st, dc, dc.meta.labels, AddPaths(users, map[]));
    AddedPaths(users, map[]);
    OwnDistinct(st.pvcs, dc.meta.labels);
    Reported(OwnSelected(st.pvcs, dc.meta.labels), users, AddPaths(users, map[]));
  }

  lemma OwnDistinct(pvcs: seq<PVC>, labels: Labels)
    requires ApplicationName in labels && ComponentName in labels && Distinct(PvcNames(pvcs))
    ensures Distinct(PvcNames(OwnSelected(pvcs, labels)))
    ensures forall p :: p in OwnSelected(pvcs, labels) ==> StorageName in p.labels
  {
    var selected := SelectPvcs(pvcs, ANY_STORAGE);
    WithoutDistinct(NameOfPvc, pvcs, NotMatching(ANY_STORAGE));
    WithoutDistinct(NameOfPvc, selected, Foreign(labels[ComponentName], labels[ApplicationName]));
    WithoutMembers(selected, Foreign(labels[ComponentName], labels[ApplicationName]));
    forall p | p in OwnSelected(pvcs, labels) ensures StorageName in p.labels {
      SelectedStorage(pvcs, p);
    }
  }

  /** The list reported for claims that are exactly the attachments', at their known paths. */
  lemma Reported(own: seq<PVC>, users: seq<Attachment>, paths: map<string, string>)
    requires Distinct(PvcNames(own)) && Distinct(Map(StorageNameOf, users)) && ClaimsAre(own, users)
    requires forall u :: u in users ==> u.path != "" && StorageNameOf(u) in paths && paths[StorageNameOf(u)] == u.path
    ensures Reports(Without(Map(ToStorage(paths), own), WithoutPath()), users)
  {
    var items := Map(ToStorage(paths), own);
    forall s | s in items ensures exists u :: u in users && s == StorageOf(u) {
      var i :| 0 <= i < |own| && items[i] == s;
      assert own[i] in own;
      var u :| u in users && u.pvc == own[i];
      assert s == StorageOf(u);
    }
    WithoutNothing(items, WithoutPath());
    forall u | u in users ensures StorageOf(u) in items {
      assert u.pvc in own;
      var i :| 0 <= i < |own| && own[i] == u.pvc;
      assert items[i] == StorageOf(u);
    }
    forall i, j | 0 <= i < j < |items| ensures items[i].name != items[j].name {
      assert own[i] in own && own[j] in own;
      var u :| u in users && u.pvc == own[i];
      var v :| v in users && v.pvc == own[j];
      var k :| 0 <= k < |users| && users[k] == u;
      var l :| 0 <= l < |users| && users[l] == v;
      assert PvcNames(own)[i] != PvcNames(own)[j];
      assert k != l;
      assert Map(StorageNameOf, users)[k] != Map(StorageNameOf, users)[l];
    }
  }
}
