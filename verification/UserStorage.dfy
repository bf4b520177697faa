// From the outcome of a push to the attachments after it: what is kept, what is added, and why the
// result is again a list of distinct claims at distinct paths.

module UserStorage {
  import opened Cluster
  import opened Component
  import opened Invariant
  import opened Lists
  import opened Names
  import opened Objects
  import opened PushEffects
  import opened Results
  import opened Shapes
  import opened StorageSync

  /** The attachments of a component after unmounting and mounting. */
  function After(users: seq<Attachment>, unmount: map<string, string>, requests: seq<MountRequest>): seq<Attachment> {
    Without(users, AttachedAt(unmount)) + requests
  }

  lemma SamePathSameUser(users: seq<Attachment>, u: Attachment, w: Attachment)
    requires Distinct(Map(PathOf, users)) && u in users && w in users && u.path == w.path
    ensures u == w
  {
    var i :| 0 <= i < |users| && users[i] == u;
    var j :| 0 <= j < |users| && users[j] == w;
    assert Map(PathOf, users)[i] == Map(PathOf, users)[j];
  }

  /** Kept are exactly the attachments whose storage the config still has. */
  lemma KeptIff(users: seq<Attachment>, config: map<string, Storage>, unmount: map<string, string>, u: Attachment)
    requires Distinct(Map(PathOf, users)) && unmount.Keys == DroppedPaths(users, config)
    ensures u in Without(users, AttachedAt(unmount)) <==> u in users && StorageNameOf(u) in config
  {
    WithoutMembers(users, AttachedAt(unmount));
    if u in users && u.path in unmount {
      assert u.path in DroppedPaths(users, config);
      var w :| w in users && StorageNameOf(w) !in config && w.path == u.path;
      SamePathSameUser(users, u, w);
    }
    if u in users && StorageNameOf(u) !in config {
      assert u.path in DroppedPaths(users, config);
    }
  }

  /** Each request mounts the claim of one new storage at its path. */
  lemma RequestIsFresh(requests: seq<MountRequest>, mount: map<string, PVC>, added: seq<Storage>, claim: Storage -> PVC,
                       r: MountRequest) returns (s: Storage)
    requires Enumerates(requests, mount) && MountsFresh(mount, added, claim) && r in requests
    ensures s in added && r.path == s.path && r.pvc == claim(s)
  {
    s :| s in added && s.path == r.path;
  }

  lemma FreshIsRequested(requests: seq<MountRequest>, mount: map<string, PVC>, added: seq<Storage>,
                         claim: Storage -> PVC, s: Storage) returns (r: MountRequest)
    requires Enumerates(requests, mount) && MountsFresh(mount, added, claim) && s in added
    ensures r in requests && r.path == s.path && r.pvc == claim(s)
  {
    r :| r in requests && r.path == s.path;
  }

  lemma SamePathSameStorage(items: seq<Storage>, s: Storage, t: Storage)
    requires GoodStorage(items) && s in items && t in items
    ensures s.path == t.path <==> s == t
    ensures s.name == t.name <==> s == t
  {
    var i :| 0 <= i < |items| && items[i] == s;
    var j :| 0 <= j < |items| && items[j] == t;
    if i != j {
      assert Map(PathOfStorage, items)[i] != Map(PathOfStorage, items)[j];
      assert Map(NameOfStorage, items)[i] != Map(NameOfStorage, items)[j];
    }
  }

  /** Everything known about a push and the order its map was ranged over. */
  ghost predicate Pushing(pvcs: seq<PVC>, users: seq<Attachment>, items: seq<Storage>, component: string,
                          application: string, canon: Canon, pushed: Pushed, requests: seq<MountRequest>)
  {
    && GoodStorage(items) && GoodUsers(users)
    && (forall u :: u in users ==> u.pvc in pvcs && StorageName in u.pvc.labels)
    && PushOutcome(pvcs, users, items, component, application, canon, pushed)
    && Enumerates(requests, pushed.mount)
  }

  lemma PushingFacts(pvcs: seq<PVC>, users: seq<Attachment>, items: seq<Storage>, component: string,
                     application: string, canon: Canon, pushed: Pushed, requests: seq<MountRequest>)
    requires Pushing(pvcs, users, items, component, application, canon, pushed, requests)
    ensures var added, claim := Fresh(items, StorageNames(users)), NewClaim(component, application, canon);
            GoodStorage(items) && MountsFresh(pushed.mount, added, claim) && Enumerates(requests, pushed.mount) &&
            Distinct(PvcNames(pushed.pvcs)) && forall p :: p in Map(claim, added) ==> p in pushed.pvcs
  {
  }

  lemma RequestedClaim(items: seq<Storage>, known: set<string>, claim: Storage -> PVC, mount: map<string, PVC>,
                       requests: seq<MountRequest>, r: MountRequest)
    requires GoodStorage(items) && MountsFresh(mount, Fresh(items, known), claim)
    requires Enumerates(requests, mount) && r in requests
    ensures r.pvc in Map(claim, Fresh(items, known))
    ensures r.path != "" && r.path !in BASE_PATHS && |r.random| == RANDOM_LENGTH
  {
    var added := Fresh(items, known);
    WithoutMembers(items, KnownIn(known));
    var s := RequestIsFresh(requests, mount, added, claim, r);
    var k :| 0 <= k < |added| && added[k] == s;
    assert Map(claim, added)[k] == r.pvc;
  }

  lemma NewClaimAt(pvcs: seq<PVC>, users: seq<Attachment>, items: seq<Storage>, component: string,
                   application: string, canon: Canon, pushed: Pushed, requests: seq<MountRequest>, r: MountRequest)
    requires Pushing(pvcs, users, items, component, application, canon, pushed, requests) && r in requests
    ensures r.pvc in pushed.pvcs
    ensures r.pvc in Map(NewClaim(component, application, canon), Fresh(items, StorageNames(users)))
    ensures r.path != "" && r.path !in BASE_PATHS && |r.random| == RANDOM_LENGTH
  {
    PushingFacts(pvcs, users, items, component, application, canon, pushed, requests);
    RequestedClaim(items, StorageNames(users), NewClaim(component, application, canon), pushed.mount, requests, r);
  }

  lemma NewClaimsAt(pvcs: seq<PVC>, users: seq<Attachment>, items: seq<Storage>, component: string,
                    application: string, canon: Canon, pushed: Pushed, requests: seq<MountRequest>)
    requires Pushing(pvcs, users, items, component, application, canon, pushed, requests)
    ensures forall r :: r in requests ==>
              r.pvc in pushed.pvcs &&
              r.pvc in Map(NewClaim(component, application, canon), Fresh(items, StorageNames(users)))
    ensures forall r :: r in requests ==> r.path != "" && r.path !in BASE_PATHS && |r.random| == RANDOM_LENGTH
    ensures Distinct(Map(PathOf, requests)) && Distinct(Map(ClaimOf, requests))
  {
    forall r | r in requests
      ensures r.pvc in pushed.pvcs
      ensures r.pvc in Map(NewClaim(component, application, canon), Fresh(items, StorageNames(users)))
      ensures r.path != "" && r.path !in BASE_PATHS && |r.random| == RANDOM_LENGTH
    {
      NewClaimAt(pvcs, users, items, component, application, canon, pushed, requests, r);
    }
    DistinctPaths(requests, pushed.mount);
    forall i, j | 0 <= i < j < |requests| ensures requests[i].pvc.name != requests[j].pvc.name {
      assert Map(PathOf, requests)[i] != Map(PathOf, requests)[j];
      DistinctRequests(pvcs, users, items, component, application, canon, pushed, requests, requests[i], requests[j]);
    }
  }

  lemma DistinctPaths(requests: seq<MountRequest>, mount: map<string, PVC>)
    requires Enumerates(requests, mount)
    ensures Distinct(Map(PathOf, requests))
  {
  }

  lemma DistinctRequests(pvcs: seq<PVC>, users: seq<Attachment>, items: seq<Storage>, component: string,
                         application: string, canon: Canon, pushed: Pushed, requests: seq<MountRequest>,
                         q: MountRequest, r: MountRequest)
    requires Pushing(pvcs, users, items, component, application, canon, pushed, requests)
    requires q in requests && r in requests && q.path != r.path
    requires q.pvc in pushed.pvcs && r.pvc in pushed.pvcs
    ensures q.pvc.name != r.pvc.name
  {
    var claim := NewClaim(component, application, canon);
    PushingFacts(pvcs, users, items, component, application, canon, pushed, requests);
    RequestsApart(items, StorageNames(users), claim, pushed.mount, requests, q, r);
    if q.pvc.name == r.pvc.name {
      PvcNamesAreDistinct(pushed.pvcs, q.pvc, r.pvc);
    }
  }

  lemma RequestsApart(items: seq<Storage>, known: set<string>, claim: Storage -> PVC, mount: map<string, PVC>,
                      requests: seq<MountRequest>, q: MountRequest, r: MountRequest)
    requires GoodStorage(items) && MountsFresh(mount, Fresh(items, known), claim) && Enumerates(requests, mount)
    requires forall s :: StorageName in claim(s).labels && claim(s).labels[StorageName] == s.name
    requires q in requests && r in requests && q.path != r.path
    ensures q.pvc != r.pvc
  {
    WithoutMembers(items, KnownIn(known));
    var s := RequestIsFresh(requests, mount, Fresh(items, known), claim, q);
    var t := RequestIsFresh(requests, mount, Fresh(items, known), claim, r);
    SamePathSameStorage(items, s, t);
    assert claim(s).labels[StorageName] != claim(t).labels[StorageName];
  }

  lemma AcrossConcat(a: seq<PVC>, b: seq<PVC>, p: PVC, q: PVC)
    requires Distinct(PvcNames(a + b)) && p in a && q in b
    ensures p.name != q.name
  {
    var i :| 0 <= i < |a| && a[i] == p;
    var j :| 0 <= j < |b| && b[j] == q;
    assert PvcNames(a + b)[i] != PvcNames(a + b)[|a| + j];
  }

  /** A kept attachment shares neither claim nor path with a request. */
  lemma KeptApartFromNew(pvcs: seq<PVC>, users: seq<Attachment>, items: seq<Storage>, component: string,
                         application: string, canon: Canon, pushed: Pushed, requests: seq<MountRequest>,
                         u: Attachment, r: MountRequest)
    requires Pushing(pvcs, users, items, component, application, canon, pushed, requests)
    requires u in Without(users, AttachedAt(pushed.unmount)) && r in requests
    ensures u.pvc in Without(pvcs, LabelledIn(Dropped(users, ByName(items))))
    ensures u.pvc.name != r.pvc.name && u.path != r.path
  {
    var added, claim := Fresh(items, StorageNames(users)), NewClaim(component, application, canon);
    var config := ByName(items);
    KeptIff(users, config, pushed.unmount, u);
    KeptClaimStays(pvcs, users, config, u);
    NewClaimsAt(pvcs, users, items, component, application, canon, pushed, requests);
    AcrossConcat(Without(pvcs, LabelledIn(Dropped(users, config))), Map(claim, added), u.pvc, r.pvc);
    var s := RequestIsFresh(requests, pushed.mount, added, claim, r);
    WithoutMembers(items, KnownIn(StorageNames(users)));
    ByNameFacts(items);
    SamePathSameStorage(items, config[StorageNameOf(u)], s);
  }

  lemma KeptClaimStays(pvcs: seq<PVC>, users: seq<Attachment>, config: map<string, Storage>, u: Attachment)
    requires u in users && u.pvc in pvcs && StorageName in u.pvc.labels && StorageNameOf(u) in config
    ensures u.pvc in Without(pvcs, LabelledIn(Dropped(users, config)))
  {
    WithoutMembers(pvcs, LabelledIn(Dropped(users, config)));
  }

  lemma DistinctConcat<A, B>(f: A -> B, a: seq<A>, b: seq<A>)
    requires Distinct(Map(f, a)) && Distinct(Map(f, b))
    requires forall x, y :: x in a && y in b ==> f(x) != f(y)
    ensures Distinct(Map(f, a + b))
  {
    forall i, j | 0 <= i < j < |a + b| ensures f((a + b)[i]) != f((a + b)[j]) {
      if j < |a| {
        assert Map(f, a)[i] != Map(f, a)[j];
      } else if i >= |a| {
        assert Map(f, b)[i - |a|] != Map(f, b)[j - |a|];
      } else {
        assert a[i] in a && b[j - |a|] in b;
      }
    }
  }

  /** The attachments after an update are again distinct claims at distinct paths. */
  lemma AfterIsGood(pvcs: seq<PVC>, users: seq<Attachment>, items: seq<Storage>, component: string,
                    application: string, canon: Canon, pushed: Pushed, requests: seq<MountRequest>)
    requires Pushing(pvcs, users, items, component, application, canon, pushed, requests)
    ensures GoodUsers(After(users, pushed.unmount, requests))
    ensures forall u :: u in After(users, pushed.unmount, requests) ==> u.pvc in pushed.pvcs
  {
    var kept := Without(users, AttachedAt(pushed.unmount));
    WithoutMembers(users, AttachedAt(pushed.unmount));
    WithoutDistinct(ClaimOf, users, AttachedAt(pushed.unmount));
    WithoutDistinct(PathOf, users, AttachedAt(pushed.unmount));
    NewClaimsAt(pvcs, users, items, component, application, canon, pushed, requests);
    forall u, r | u in kept && r in requests ensures ClaimOf(u) != ClaimOf(r) && PathOf(u) != PathOf(r) {
      KeptApartFromNew(pvcs, users, items, component, application, canon, pushed, requests, u, r);
    }
    forall u | u in kept ensures u.pvc in pushed.pvcs {
      KeptIff(users, ByName(items), pushed.unmount, u);
      KeptClaimStays(pvcs, users, ByName(items), u);
    }
    DistinctConcat(ClaimOf, kept, requests);
    DistinctConcat(PathOf, kept, requests);
  }

  lemma LabelledIsAttached(pvcs: seq<PVC>, users: seq<Attachment>, config: map<string, Storage>, p: PVC)
    requires forall u :: u in users ==> u.pvc in pvcs && StorageName in u.pvc.labels
    requires UniquelyLabelled(pvcs, Dropped(users, config)) && p in pvcs && LabelledIn(Dropped(users, config))(p)
    ensures Attached(users, p)
  {
    var u :| u in users && StorageNameOf(u) !in config && StorageNameOf(u) == p.labels[StorageName];
    assert LabelledIn(Dropped(users, config))(u.pvc);
  }

  /** Where each claim left by the push comes from. */
  lemma ClaimsAfter(pvcs: seq<PVC>, users: seq<Attachment>, items: seq<Storage>, component: string,
                    application: string, canon: Canon, pushed: Pushed, requests: seq<MountRequest>, p: PVC)
    requires Pushing(pvcs, users, items, component, application, canon, pushed, requests)
    ensures p in pushed.pvcs ==>
              Attached(After(users, pushed.unmount, requests), p) || (p in pvcs && !Attached(users, p))
    ensures p in pvcs && !Attached(users, p) ==> p in pushed.pvcs
  {
    var added, claim := Fresh(items, StorageNames(users)), NewClaim(component, application, canon);
    var config := ByName(items);
    var dropped := Dropped(users, config);
    WithoutMembers(pvcs, LabelledIn(dropped));
    if p in pvcs && LabelledIn(dropped)(p) {
      LabelledIsAttached(pvcs, users, config, p);
    }
    if p in Without(pvcs, LabelledIn(dropped)) && Attached(users, p) {
      var u :| u in users && u.pvc == p;
      assert StorageNameOf(u) in config;
      KeptIff(users, config, pushed.unmount, u);
      assert u in After(users, pushed.unmount, requests);
    }
    if p in Map(claim, added) {
      var k :| 0 <= k < |added| && claim(added[k]) == p;
      var r := FreshIsRequested(requests, pushed.mount, added, claim, added[k]);
      assert r in After(users, pushed.unmount, requests);
    }
  }

  /** New attachments are claims of the component, as the invariant asks. */
  lemma NewAreStorageClaims(pvcs: seq<PVC>, users: seq<Attachment>, items: seq<Storage>, component: string,
                            application: string, canon: Canon, pushed: Pushed, requests: seq<MountRequest>,
                            labels: Labels, r: MountRequest)
    requires Pushing(pvcs, users, items, component, application, canon, pushed, requests)
    requires ApplicationName in labels && ComponentName in labels
    requires labels[ComponentName] == component && labels[ApplicationName] == application && r in requests
    ensures StorageClaim(r.pvc, labels)
  {
    var s := RequestIsFresh(requests, pushed.mount, Fresh(items, StorageNames(users)),
                            NewClaim(component, application, canon), r);
  }
}
