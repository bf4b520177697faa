// When an update leaves the pod template of a local or binary component as it is, PatchCurrentDC does not
// wait for a rollout (pkg/occlient/occlient.go 1389-1396). This says when that is.

module Templates {
  import opened Component
  import opened Deployment
  import opened GoSlice
  import opened Invariant
  import opened Lifecycle
  import opened Lists
  import opened Moves
  import opened Names
  import opened Objects
  import opened Results
  import opened Shapes
  import opened Updates
  import opened UserStorage

  /** `r` takes over path, claim name and volume name of `u`. */
  predicate TakesOver(r: MountRequest, u: Attachment) {
    r.path == u.path && r.pvc.name == u.pvc.name && r.random == u.random
  }

  /** Nothing is dropped and nothing added; or the last attachment alone is dropped and a single new one
      takes it over. */
  ghost predicate SameMounting(users: seq<Attachment>, hit: Attachment -> bool, requests: seq<MountRequest>) {
    AtMostTheLast(users, hit) &&
    if |users| > 0 && hit(users[|users| - 1]) then |requests| == 1 && TakesOver(requests[0], users[|users| - 1])
    else requests == []
  }

  ghost predicate LooksLike(a: seq<Attachment>, b: seq<Attachment>) {
    Map(AttachedMount, a) == Map(AttachedMount, b) && Map(AttachedVolume, a) == Map(AttachedVolume, b)
  }

  lemma LooksLikeOneIff(r: MountRequest, u: Attachment)
    requires |r.random| == |u.random| == RANDOM_LENGTH
    ensures AttachedMount(r) == AttachedMount(u) && AttachedVolume(r) == AttachedVolume(u) <==> TakesOver(r, u)
  {
    if AttachedMount(r) == AttachedMount(u) {
      VolumeNameDeterminesClaim(r.pvc.name, r.random, u.pvc.name, u.random);
    }
  }

  lemma MountsDistinct(users: seq<Attachment>)
    requires GoodUsers(users)
    ensures Distinct(Map(AttachedMount, users))
  {
    forall i, j | 0 <= i < j < |users| ensures AttachedMount(users[i]) != AttachedMount(users[j]) {
      assert Map(PathOf, users)[i] != Map(PathOf, users)[j];
    }
  }

  /** What the filter and the requests make of the attachments looks like before exactly then. */
  lemma LooksLikeBeforeIff(users: seq<Attachment>, hit: Attachment -> bool, requests: seq<MountRequest>)
    requires AtMostTheLast(users, hit) && GoodUsers(users) && forall r :: r in requests ==> |r.random| == RANDOM_LENGTH
    ensures LooksLike(Without(users, hit) + requests, users) <==> SameMounting(users, hit, requests)
  {
    if |users| > 0 && hit(users[|users| - 1]) {
      var front, u := users[..|users| - 1], users[|users| - 1];
      assert users == front + [u] && u in users;
      LastReplacedIff(front, u, hit, requests);
    } else {
      WithoutNothing(users, hit);
      NothingAddedIff(users, requests);
    }
  }

  lemma NothingAddedIff(users: seq<Attachment>, requests: seq<MountRequest>)
    ensures LooksLike(users + requests, users) <==> requests == []
  {
    if requests == [] {
      assert users + [] == users;
    } else {
      assert |Map(AttachedMount, users + requests)| != |Map(AttachedMount, users)|;
    }
  }

  lemma LastReplacedIff(front: seq<Attachment>, u: Attachment, hit: Attachment -> bool, requests: seq<MountRequest>)
    requires hit(u) && forall x :: x in front ==> !hit(x)
    requires |u.random| == RANDOM_LENGTH && forall r :: r in requests ==> |r.random| == RANDOM_LENGTH
    ensures LooksLike(Without(front + [u], hit) + requests, front + [u])
            <==> |requests| == 1 && TakesOver(requests[0], u)
  {
    WithoutLast(front, u, hit);
    OneInsteadIff(front, u, requests);
  }

  lemma WithoutLast(front: seq<Attachment>, u: Attachment, hit: Attachment -> bool)
    requires hit(u) && forall x :: x in front ==> !hit(x)
    ensures Without(front + [u], hit) == front
  {
    WithoutConcat(front, [u], hit);
    WithoutNothing(front, hit);
    WithoutEverything([u], hit);
  }

  lemma OneInsteadIff(front: seq<Attachment>, u: Attachment, requests: seq<MountRequest>)
    requires |u.random| == RANDOM_LENGTH && forall r :: r in requests ==> |r.random| == RANDOM_LENGTH
    ensures LooksLike(front + requests, front + [u]) <==> |requests| == 1 && TakesOver(requests[0], u)
  {
    if |requests| == 1 {
      assert requests == [requests[0]];
      LooksLikeOneIff(requests[0], u);
      SameButLastIff(AttachedMount, front, requests[0], u);
      SameButLastIff(AttachedVolume, front, requests[0], u);
    } else {
      assert |Map(AttachedMount, front + requests)| != |Map(AttachedMount, front + [u])|;
    }
  }

  lemma SameButLastIff<A, B>(f: A -> B, front: seq<A>, a: A, b: A)
    ensures Map(f, front + [a]) == Map(f, front + [b]) <==> f(a) == f(b)
  {
    var x, y := Map(f, front + [a]), Map(f, front + [b]);
    assert x[|front|] == f(a) && y[|front|] == f(b);
    assert forall k :: 0 <= k < |front| ==> x[k] == f(front[k]) == y[k];
  }

  /** The DC that the edits of a local or binary component start from, with these attachments, has the
      template of the current one exactly if ports, resources, variables and the attachments' looks agree. */
  lemma BaseTemplateIff(current: DC, users: seq<Attachment>, p: Patch, s2i: Result<S2IPaths>, after: seq<Attachment>)
    requires Shaped(current, true, users) && Supervised(current.meta.sourceType) && Supervised(p.meta.sourceType)
    requires p.meta.name == current.meta.name && |BaseFor(current, p, s2i).containers| == 1
    ensures SameTemplate(current, WithUsers(BaseFor(current, p, s2i), true, after))
            <==> current.containers[0].spec == p.spec &&
                 current.containers[0].env == WrittenEnv(p.meta.sourceType, s2i) &&
                 LooksLike(after, users)
  {
    var base := BaseFor(current, p, s2i);
    var dc := WithUsers(base, true, after);
    var mounts, volumes := BaseMounts(true, current.meta.name), BaseVolumes(true, current.meta.name);
    assert current.containers == [current.containers[0]] && dc.containers == [dc.containers[0]];
    assert dc.containers[0].mounts == mounts + Map(AttachedMount, after) &&
           dc.volumes == volumes + Map(AttachedVolume, after);
    SameHead(mounts, Map(AttachedMount, after), Map(AttachedMount, users));
    SameHead(volumes, Map(AttachedVolume, after), Map(AttachedVolume, users));
  }

  lemma SameHead<T>(h: seq<T>, a: seq<T>, b: seq<T>)
    ensures h + a == h + b <==> a == b
  {
    if h + a == h + b {
      assert (h + a)[|h|..] == a && (h + b)[|h|..] == b;
    }
  }

  /** Where the unmount loop is no filter but finishes, the template changes. */
  lemma UnsafeChangesTemplate(current: DC, users: seq<Attachment>, p: Patch, s2i: Result<S2IPaths>)
    requires Shaped(current, true, users) && Supervised(current.meta.sourceType) && Supervised(p.meta.sourceType)
    requires GoodUsers(users) && p.meta.name == current.meta.name && NoBasePath(p.unmount)
    requires PatchedFor(current, p, s2i).Ok? && SameTemplate(current, PatchedFor(current, p, s2i).value)
    ensures AtMostTheLast(users, AttachedAt(p.unmount))
  {
    BaseIsBare(current, users, p, s2i);
    var dc := WithUsers(BaseFor(current, p, s2i), true, users);
    ShapedWithUsers(BaseFor(current, p, s2i), true, users);
    assert dc.containers[0].mounts == current.containers[0].mounts;
    MountsOfUsersDistinct(current, users);
    EditedMounts(dc, users, p.requests, p.unmount);
  }

  lemma EditedMounts(dc: DC, users: seq<Attachment>, requests: seq<MountRequest>, paths: map<string, string>)
    requires Shaped(dc, true, users) && GoodUsers(users) && Distinct(dc.containers[0].mounts)
    requires AddOrRemove(dc, requests, paths).Ok?
    requires AddOrRemove(dc, requests, paths).value.containers != []
    requires AddOrRemove(dc, requests, paths).value.containers[0].mounts == dc.containers[0].mounts
    ensures AtMostTheLast(users, AttachedAt(paths))
  {
    var mounts := dc.containers[0].mounts;
    AddOrRemoveForm(dc, requests, paths);
    ShapedIsWellFormed(dc, true, users);
    UnmountMounts(mounts, |mounts|, 0, dc.volumes, paths);
    UndoneOnlyAtTheEnd(mounts, MountedAt(paths), Map(AttachedMount, requests));
    LastMountOnly(BaseMounts(true, dc.meta.name), users, paths);
  }

  lemma LastMountOnly(head: seq<Mount>, users: seq<Attachment>, paths: map<string, string>)
    requires AtMostTheLast(head + Map(AttachedMount, users), MountedAt(paths))
    ensures AtMostTheLast(users, AttachedAt(paths))
  {
    var mounts := head + Map(AttachedMount, users);
    forall k | 0 <= k < |users| - 1 ensures !AttachedAt(paths)(users[k]) {
      assert mounts[|head| + k] == AttachedMount(users[k]) && !MountedAt(paths)(mounts[|head| + k]);
    }
  }

  lemma MountsOfUsersDistinct(dc: DC, users: seq<Attachment>)
    requires Shaped(dc, true, users) && GoodUsers(users)
    ensures Distinct(BaseMounts(true, dc.meta.name) + Map(AttachedMount, users))
  {
    var head, own := BaseMounts(true, dc.meta.name), Map(AttachedMount, users);
    MountsDistinct(users);
    forall m | m in head ensures m !in own {
      forall k | 0 <= k < |users| ensures own[k] != m {
        assert users[k] in users && own[k].path == users[k].path;
      }
    }
    ConcatDistinctIff(head, own);
  }

  /** THE TEMPLATE IS KEPT if and only if the update changes neither ports nor resources nor variables and
      mounts the same: nothing dropped or added, or the last attachment dropped and taken over. */
  lemma TemplateKeptIff(current: DC, users: seq<Attachment>, p: Patch, s2i: Result<S2IPaths>)
    requires Shaped(current, true, users) && Supervised(current.meta.sourceType) && Supervised(p.meta.sourceType)
    requires GoodUsers(users) && p.meta.name == current.meta.name && NoBasePath(p.unmount)
    requires forall r :: r in p.requests ==> |r.random| == RANDOM_LENGTH
    ensures PatchedFor(current, p, s2i).Ok? && SameTemplate(current, PatchedFor(current, p, s2i).value)
            <==> current.containers[0].spec == p.spec &&
                 current.containers[0].env == WrittenEnv(p.meta.sourceType, s2i) &&
                 SameMounting(users, AttachedAt(p.unmount), p.requests)
  {
    var hit := AttachedAt(p.unmount);
    if AtMostTheLast(users, hit) {
      TransitionIff(current, users, p, s2i);
      BaseTemplateIff(current, users, p, s2i, After(users, p.unmount, p.requests));
      LooksLikeBeforeIff(users, hit, p.requests);
    } else if PatchedFor(current, p, s2i).Ok? && SameTemplate(current, PatchedFor(current, p, s2i).value) {
      UnsafeChangesTemplate(current, users, p, s2i);
    }
  }
}
