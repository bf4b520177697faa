// Applying a batch to the pod: pkg/component/component.go PushLocal and getS2IPaths,
// pkg/occlient/occlient.go PropagateDeletes, CopyFile and makeTar.

module PodSync {
  import opened Lists
  import opened Results
  import opened SourceTree
  import opened Watch

  /** The files and links of the pod, by absolute path. */
  type Pod = map<Path, Node>

  function Get(pod: Pod, p: Path): Option<Node> {
    if p in pod then Some(pod[p]) else None
  }

  // ------------------------------------------------------------ where sources live in the pod

  /** The value of a variable of the pod as a path; None when unset or empty. */
  type PodEnv = string -> Option<Path>

  const SRC_OR_BIN := "ODO_S2I_SRC_BIN_PATH"
  const S2I_PATH_ENVS: seq<string> := ["ODO_S2I_DEPLOYMENT_DIR", SRC_OR_BIN, "ODO_S2I_WORKING_DIR",
                                       "ODO_SRC_BACKUP_DIR"]
  const DEPLOYMENT_BACKUP: Path := ["opt", "app-root", "deployment-backup"]

  predicate EndsInSrc(v: Path) {
    v != [] && v[|v| - 1] == "src"
  }

  function WithSrc(v: Path): Path {
    if EndsInSrc(v) then v else v + ["src"]
  }

  function CollectPaths(names: seq<string>, env: PodEnv, acc: seq<Path>): seq<Path>
    decreases names
  {
    if names == [] then acc
    else
      match env(names[0])
      case None => CollectPaths(names[1..], env, acc)
      case Some(v) => CollectPaths(names[1..], env, if v in acc then acc else acc + [WithSrc(v)])
  }

  /** getS2IPaths. */
  function S2IPathsOf(env: PodEnv): seq<Path> {
    CollectPaths(S2I_PATH_ENVS, env, []) + [DEPLOYMENT_BACKUP]
  }

  method GetS2IPaths(env: PodEnv) returns (r: seq<Path>)
    ensures r == S2IPathsOf(env)
  {
    r := [];
    for i := 0 to |S2I_PATH_ENVS|
      invariant CollectPaths(S2I_PATH_ENVS, env, []) == CollectPaths(S2I_PATH_ENVS[i..], env, r)
    {
      assert S2I_PATH_ENVS[i..][1..] == S2I_PATH_ENVS[i + 1..];
      var envVal := env(S2I_PATH_ENVS[i]);
      if envVal.Some? {
        var isEnvValPresent := envVal.value in r;
        if !isEnvValPresent {
          r := r + [if EndsInSrc(envVal.value) then envVal.value else envVal.value + ["src"]];
        }
      }
    }
    r := r + [DEPLOYMENT_BACKUP];
  }

  /** Some variable of the list leads to this path. */
  ghost predicate LedTo(names: seq<string>, env: PodEnv, x: Path) {
    exists i :: 0 <= i < |names| && env(names[i]).Some? && x == WithSrc(env(names[i]).value)
  }

  lemma {:induction false} CollectExact(names: seq<string>, env: PodEnv, acc: seq<Path>, x: Path)
    requires forall a :: a in acc ==> EndsInSrc(a)
    ensures x in CollectPaths(names, env, acc) <==> x in acc || LedTo(names, env, x)
    decreases names
  {
    if names != [] {
      var rest := names[1..];
      assert LedTo(names, env, x) <==>
               (env(names[0]).Some? && x == WithSrc(env(names[0]).value)) || LedTo(rest, env, x) by {
        if LedTo(rest, env, x) {
          var i :| 0 <= i < |rest| && env(rest[i]).Some? && x == WithSrc(env(rest[i]).value);
          assert names[i + 1] == rest[i];
        }
        if i :| 0 <= i < |names| && env(names[i]).Some? && x == WithSrc(env(names[i]).value) {
          assert i > 0 ==> rest[i - 1] == names[i];
        }
      }
      match env(names[0])
      case None => CollectExact(rest, env, acc, x);
      case Some(v) => CollectExact(rest, env, if v in acc then acc else acc + [WithSrc(v)], x);
    }
  }

  /** The deletion targets, exactly: the path of each set variable, completed with `src`, and the
      backup directory. Skipping values already listed loses none. */
  lemma S2IPathsExact(env: PodEnv, x: Path)
    ensures x in S2IPathsOf(env) <==> x == DEPLOYMENT_BACKUP || LedTo(S2I_PATH_ENVS, env, x)
  {
    CollectExact(S2I_PATH_ENVS, env, [], x);
  }

  /** Where sources are copied to. */
  function CopyTarget(env: PodEnv): Path {
    (match env(SRC_OR_BIN) case Some(v) => v case None => ["tmp"]) + ["src"]
  }

  /** A variable other than the source path leads to where sources are copied to. */
  ghost predicate OtherVariableHelps(env: PodEnv) {
    exists i :: 0 <= i < |S2I_PATH_ENVS| && S2I_PATH_ENVS[i] != SRC_OR_BIN && env(S2I_PATH_ENVS[i]).Some? &&
      WithSrc(env(S2I_PATH_ENVS[i]).value) == CopyTarget(env)
  }

  /** DELETIONS REACH THE COPIED SOURCES if and only if the image's source path is set and does not itself
      end in `src`, or another of the variables happens to lead there. */
  lemma TargetCoveredIff(env: PodEnv)
    ensures CopyTarget(env) in S2IPathsOf(env)
            <==> (env(SRC_OR_BIN).Some? && !EndsInSrc(env(SRC_OR_BIN).value)) || OtherVariableHelps(env)
  {
    var target := CopyTarget(env);
    S2IPathsExact(env, target);
    assert EndsInSrc(target) && !EndsInSrc(DEPLOYMENT_BACKUP);
    assert S2I_PATH_ENVS[1] == SRC_OR_BIN;
    if env(SRC_OR_BIN).Some? {
      var v := env(SRC_OR_BIN).value;
      assert target == v + ["src"] && (WithSrc(v) == target <==> !EndsInSrc(v)) by {
        assert EndsInSrc(v) ==> |WithSrc(v)| == |v|;
      }
    }
  }

  // ------------------------------------------------------------ deleting

  function UnderEach(s2iPath: Path, deleted: seq<Path>): (r: seq<Path>)
    ensures |r| == |deleted|
    ensures forall i :: 0 <= i < |deleted| ==> r[i] == s2iPath + deleted[i]
  {
    seq(|deleted|, i requires 0 <= i < |deleted| => s2iPath + deleted[i])
  }

  function RmPaths(s2iPaths: seq<Path>, deleted: seq<Path>): seq<Path> {
    if s2iPaths == [] then [] else UnderEach(s2iPaths[0], deleted) + RmPaths(s2iPaths[1..], deleted)
  }

  ghost predicate Under(p: Path, paths: seq<Path>) {
    exists d :: d in paths && d <= p
  }

  /** What `rm -rf` of the paths leaves. */
  ghost function RemoveAll(pod: Pod, paths: seq<Path>): Pod {
    map p | p in pod && !Under(p, paths) :: pod[p]
  }

  lemma {:induction false} RmPathsExact(s2iPaths: seq<Path>, deleted: seq<Path>, x: Path)
    ensures x in RmPaths(s2iPaths, deleted) <==> exists s, d :: s in s2iPaths && d in deleted && x == s + d
  {
    if s2iPaths != [] {
      RmPathsExact(s2iPaths[1..], deleted, x);
      assert s2iPaths == [s2iPaths[0]] + s2iPaths[1..];
      if s, d :| s in s2iPaths && d in deleted && x == s + d {
        if s == s2iPaths[0] {
          var i :| 0 <= i < |deleted| && deleted[i] == d;
          assert UnderEach(s, deleted)[i] == x;
        } else {
          assert s in s2iPaths[1..];
        }
      }
      if x in UnderEach(s2iPaths[0], deleted) {
        var i :| 0 <= i < |deleted| && UnderEach(s2iPaths[0], deleted)[i] == x;
        assert deleted[i] in deleted && s2iPaths[0] in s2iPaths;
      }
    }
  }

  lemma DeletedUnderTarget(s2iPaths: seq<Path>, deleted: seq<Path>, target: Path, d: Path, p: Path)
    requires target in s2iPaths && d in deleted && d <= p
    ensures Under(target + p, RmPaths(s2iPaths, deleted))
  {
    RmPathsExact(s2iPaths, deleted, target + d);
    assert target + d <= target + p;
  }

  // ------------------------------------------------------------ copying

  /** A changed path is sent if it exists, following a symbolic link. */
  predicate Present(root: Node, f: Path) {
    match Lookup(root, f)
    case None => false
    case Some(n) => n.Link? ==> !n.dangling
  }

  function WatchTar(root: Node, files: seq<Path>, ignored: Path -> bool): seq<Header> {
    if files == [] then []
    else
      (if Present(root, files[0]) then Tar(Lookup(root, files[0]).value, files[0], ignored) else [])
      + WatchTar(root, files[1..], ignored)
  }

  function MadeTar(root: Node, files: seq<Path>, ignored: Path -> bool): seq<Header> {
    if files != [] then WatchTar(root, files, ignored) else Tar(root, [], ignored)
  }

  lemma {:induction false} WatchTarSnoc(root: Node, files: seq<Path>, f: Path, ignored: Path -> bool)
    ensures WatchTar(root, files + [f], ignored)
         == WatchTar(root, files, ignored)
            + if Present(root, f) then Tar(Lookup(root, f).value, f, ignored) else []
  {
    if files == [] {
      assert [] + [f] == [f] && [f][1..] == [];
    } else {
      assert (files + [f])[1..] == files[1..] + [f];
      WatchTarSnoc(root, files[1..], f, ignored);
    }
  }

  method MakeTar(root: Node, files: seq<Path>, ignored: Path -> bool) returns (tw: TarWriter)
    ensures fresh(tw) && tw.headers == MadeTar(root, files, ignored)
  {
    tw := new TarWriter();
    if |files| != 0 {
      for i := 0 to |files|
        invariant fresh(tw)
        invariant tw.headers == WatchTar(root, files[..i], ignored)
      {
        assert files[..i + 1] == files[..i] + [files[i]];
        WatchTarSnoc(root, files[..i], files[i], ignored);
        if Present(root, files[i]) {
          RecursiveTar(Lookup(root, files[i]).value, files[i], tw, ignored);
        }
      }
      assert files[..|files|] == files;
    } else {
      RecursiveTar(root, [], tw, ignored);
    }
  }

  /** Extraction under `target`. */
  function Extract(pod: Pod, target: Path, headers: seq<Header>): Pod
    decreases headers
  {
    if headers == [] then pod
    else
      var h := headers[0];
      Extract(if h.node.Dir? then pod else pod[target + h.path := h.node], target, headers[1..])
  }

  ghost predicate Sent(headers: seq<Header>, p: Path) {
    exists h :: h in headers && h.path == p && !h.node.Dir?
  }

  lemma {:induction false} ExtractAt(pod: Pod, target: Path, headers: seq<Header>, p: Path, n: Option<Node>)
    requires forall h :: h in headers && h.path == p && !h.node.Dir? ==> n == Some(h.node)
    ensures Get(Extract(pod, target, headers), target + p) == if Sent(headers, p) then n else Get(pod, target + p)
    decreases headers
  {
    if headers != [] {
      var h, rest := headers[0], headers[1..];
      assert headers == [h] + rest;
      var next := if h.node.Dir? then pod else pod[target + h.path := h.node];
      ExtractAt(next, target, rest, p, n);
      assert Sent(headers, p) <==> (h.path == p && !h.node.Dir?) || Sent(rest, p) by {
        if Sent(rest, p) {
          var g :| g in rest && g.path == p && !g.node.Dir?;
          assert g in headers;
        }
      }
      if target + h.path == target + p {
        assert (target + h.path)[|target|..] == h.path && (target + p)[|target|..] == p;
      }
    }
  }

  lemma {:induction false} LookupConcat(n: Node, a: Path, b: Path)
    requires Lookup(n, a).Some?
    ensures Lookup(n, a + b) == Lookup(Lookup(n, a).value, b)
  {
    if a == [] {
      assert a + b == b;
    } else {
      LookupInConcat(n.entries, a, b);
    }
  }

  lemma {:induction false} LookupInConcat(f: Forest, a: Path, b: Path)
    requires a != [] && LookupIn(f, a).Some?
    ensures LookupIn(f, a + b) == Lookup(LookupIn(f, a).value, b)
  {
    if f.name == a[0] {
      LookupConcat(f.node, a[1..], b);
      assert (a + b)[1..] == a[1..] + b;
    } else {
      LookupInConcat(f.rest, a, b);
    }
  }

  lemma {:induction false} LookupWellFormed(n: Node, q: Path)
    requires WellFormed(n) && Lookup(n, q).Some?
    ensures WellFormed(Lookup(n, q).value)
  {
    if q != [] {
      LookupInWellFormed(n.entries, q);
    }
  }

  lemma {:induction false} LookupInWellFormed(f: Forest, q: Path)
    requires WellFormedForest(f) && q != [] && LookupIn(f, q).Some?
    ensures WellFormed(LookupIn(f, q).value)
  {
    if f.name == q[0] {
      LookupWellFormed(f.node, q[1..]);
    } else {
      LookupInWellFormed(f.rest, q);
    }
  }

  /** A changed path `f` brings the object at `p`. */
  ghost predicate Brings(root: Node, f: Path, p: Path, ignored: Path -> bool) {
    f <= p && Present(root, f) && Visible(f, p[|f|..], ignored)
  }

  lemma TarOfChange(root: Node, f: Path, p: Path, leaf: Node, ignored: Path -> bool)
    requires WellFormed(root) && Present(root, f)
    ensures Header(p, leaf) in Tar(Lookup(root, f).value, f, ignored)
            <==> Lookup(root, p) == Some(leaf) && Leaf(leaf) && Brings(root, f, p, ignored)
  {
    var n := Lookup(root, f).value;
    LookupWellFormed(root, f);
    if f <= p {
      var q := p[|f|..];
      assert f + q == p;
      LookupConcat(root, f, q);
      TarExact(n, f, ignored, q, leaf);
    } else {
      TarBelow(n, f, ignored);
    }
  }

  lemma {:induction false} WatchTarExact(root: Node, files: seq<Path>, ignored: Path -> bool, p: Path, leaf: Node)
    requires WellFormed(root)
    ensures Header(p, leaf) in WatchTar(root, files, ignored)
            <==> Lookup(root, p) == Some(leaf) && Leaf(leaf) && exists f :: f in files && Brings(root, f, p, ignored)
  {
    if files != [] {
      assert files == [files[0]] + files[1..];
      WatchTarExact(root, files[1..], ignored, p, leaf);
      if Present(root, files[0]) {
        TarOfChange(root, files[0], p, leaf, ignored);
      }
    }
  }

  // ------------------------------------------------------------ one push

  /** PushLocal up to the copy: what the pod holds afterwards. */
  ghost function Pushed(pod: Pod, root: Node, files: seq<Path>, deleted: seq<Path>, force: bool, env: PodEnv,
                        ignored: Path -> bool): Result<Pod>
  {
    if !root.Dir? then Err(Refused("unable to check directory"))
    else if root.entries.Nothing? then Err(Refused("directory is empty"))
    else
      var left := if deleted != [] then RemoveAll(pod, RmPaths(S2IPathsOf(env), deleted)) else pod;
      if !force && files == [] && deleted == [] then Err(Refused("pass files modifications/deletions"))
      else if force || files != [] then Ok(Extract(left, CopyTarget(env), MadeTar(root, files, ignored)))
      else Ok(left)
  }

  /** The container whose file system a push changes. */
  class Container {
    var pod: Pod

    constructor (pod: Pod)
      ensures this.pod == pod
    {
      this.pod := pod;
    }

    method PropagateDeletes(delSrcRelPaths: seq<Path>, s2iPaths: seq<Path>) returns (r: Result<()>)
      modifies this
      ensures r.Ok? <==> s2iPaths != [] && delSrcRelPaths != []
      ensures pod == if r.Ok? then RemoveAll(old(pod), RmPaths(s2iPaths, delSrcRelPaths)) else old(pod)
    {
      if |s2iPaths| == 0 || |delSrcRelPaths| == 0 {
        return Err(Refused("failed to propagate deletions"));
      }
      var rmPaths: seq<Path> := [];
      for i := 0 to |s2iPaths|
        invariant rmPaths + RmPaths(s2iPaths[i..], delSrcRelPaths) == RmPaths(s2iPaths, delSrcRelPaths)
        invariant pod == old(pod)
      {
        assert s2iPaths[i..][1..] == s2iPaths[i + 1..];
        ghost var before := rmPaths;
        for j := 0 to |delSrcRelPaths|
          invariant rmPaths == before + UnderEach(s2iPaths[i], delSrcRelPaths)[..j]
          invariant pod == old(pod)
        {
          rmPaths := rmPaths + [s2iPaths[i] + delSrcRelPaths[j]];
        }
        var each := UnderEach(s2iPaths[i], delSrcRelPaths);
        assert each[..|delSrcRelPaths|] == each;
        assert rmPaths + RmPaths(s2iPaths[i + 1..], delSrcRelPaths)
            == before + (each + RmPaths(s2iPaths[i + 1..], delSrcRelPaths));
      }
      assert s2iPaths[|s2iPaths|..] == [] && rmPaths + [] == rmPaths;
      Remove(rmPaths);
      r := Ok(());
    }

    /** `rm -rf`. */
    method Remove(paths: seq<Path>)
      modifies this
      ensures pod == RemoveAll(old(pod), paths)
    {
      ghost var all := pod;
      for i := 0 to |paths|
        invariant pod == RemoveAll(all, paths[..i])
      {
        var path := paths[i];
        ghost var before := pod;
        pod := map p | p in pod && !(path <= p) :: pod[p];
        assert paths[..i + 1] == paths[..i] + [path];
        RemoveOneMore(all, paths[..i], path);
      }
      assert paths[..|paths|] == paths;
    }

    /** `tar xf`. */
    method Untar(target: Path, headers: seq<Header>)
      modifies this
      ensures pod == Extract(old(pod), target, headers)
    {
      for i := 0 to |headers|
        invariant Extract(pod, target, headers[i..]) == Extract(old(pod), target, headers)
      {
        assert headers[i..][1..] == headers[i + 1..];
        if !headers[i].node.Dir? {
          pod := pod[target + headers[i].path := headers[i].node];
        }
      }
    }

    method PushLocal(root: Node, files: seq<Path>, delFiles: seq<Path>, isForcePush: bool, env: PodEnv,
                     ignored: Path -> bool) returns (r: Result<()>)
      modifies this
      ensures match Pushed(old(pod), root, files, delFiles, isForcePush, env, ignored)
              case Ok(after) => r.Ok? && pod == after
              case Err(f) => r == Err(f)
    {
      if !root.Dir? {
        return Err(Refused("unable to check directory"));
      }
      if root.entries.Nothing? {
        return Err(Refused("directory is empty"));
      }
      if |delFiles| > 0 {
        var s2iPaths := GetS2IPaths(env);
        var propagated := PropagateDeletes(delFiles, s2iPaths);
        assert propagated.Ok?;  // the backup directory is always listed
      }
      if !isForcePush {
        if |files| == 0 && |delFiles| == 0 {
          return Err(Refused("pass files modifications/deletions"));
        }
      }
      if isForcePush || |files| > 0 {
        var tw := MakeTar(root, files, ignored);
        Untar(CopyTarget(env), tw.headers);
      }
      r := Ok(());
    }
  }

  lemma RemoveOneMore(pod: Pod, paths: seq<Path>, path: Path)
    ensures RemoveAll(pod, paths + [path])
         == map p | p in RemoveAll(pod, paths) && !(path <= p) :: RemoveAll(pod, paths)[p]
  {
    forall p | p in pod ensures Under(p, paths + [path]) <==> Under(p, paths) || path <= p {
      if path <= p {
        assert path in paths + [path];
      }
      if Under(p, paths) {
        var d :| d in paths && d <= p;
        assert d in paths + [path];
      }
    }
  }

  /** Copied by the push. */
  ghost predicate Copied(root: Node, files: seq<Path>, force: bool, p: Path, ignored: Path -> bool) {
    && Lookup(root, p).Some? && !Lookup(root, p).value.Dir?
    && (if files != [] then exists f :: f in files && Brings(root, f, p, ignored) else force && Visible([], p, ignored))
  }

  /** A PUSH, POINT BY POINT. A successful push leaves at each path of the copied sources the local
      object if it was sent, nothing if the path lies under a deleted one, and what was there if neither. */
  lemma PushPointwise(pod: Pod, root: Node, files: seq<Path>, deleted: seq<Path>, force: bool, env: PodEnv,
                      ignored: Path -> bool, p: Path)
    requires WellFormed(root) && Pushed(pod, root, files, deleted, force, env, ignored).Ok?
    ensures Get(Pushed(pod, root, files, deleted, force, env, ignored).value, CopyTarget(env) + p)
         == if Copied(root, files, force, p, ignored) then Lookup(root, p)
            else if deleted != [] && Under(CopyTarget(env) + p, RmPaths(S2IPathsOf(env), deleted)) then None
            else Get(pod, CopyTarget(env) + p)
  {
    var target := CopyTarget(env);
    var left := if deleted != [] then RemoveAll(pod, RmPaths(S2IPathsOf(env), deleted)) else pod;
    if force || files != [] {
      var headers := MadeTar(root, files, ignored);
      forall leaf ensures Header(p, leaf) in headers <==>
                            Lookup(root, p) == Some(leaf) && Leaf(leaf) &&
                            (if files != [] then exists f :: f in files && Brings(root, f, p, ignored)
                             else Visible([], p, ignored))
      {
        if files != [] {
          WatchTarExact(root, files, ignored, p, leaf);
        } else {
          assert [] + p == p;
          TarExact(root, [], ignored, p, leaf);
        }
      }
      forall h | h in headers && h.path == p && !h.node.Dir? ensures Lookup(root, p) == Some(h.node) {
        assert h == Header(p, h.node);
      }
      if Copied(root, files, force, p, ignored) {
        assert Header(p, Lookup(root, p).value) in headers;
      }
      if Sent(headers, p) {
        var h :| h in headers && h.path == p && !h.node.Dir?;
        assert h == Header(p, h.node);
      }
      ExtractAt(left, target, headers, p, Lookup(root, p));
    }
  }

  /** A batch of deletions only deletes: it never triggers a full copy. It is refused exactly for a root
      that is no directory or an empty one. */
  lemma DeleteOnlyBatch(pod: Pod, root: Node, deleted: seq<Path>, env: PodEnv, ignored: Path -> bool)
    requires deleted != []
    ensures Pushed(pod, root, [], deleted, false, env, ignored).Ok? <==> root.Dir? && root.entries.More?
    ensures Pushed(pod, root, [], deleted, false, env, ignored).Ok? ==>
              forall p :: Get(Pushed(pod, root, [], deleted, false, env, ignored).value, p) ==
                          if Under(p, RmPaths(S2IPathsOf(env), deleted)) then None else Get(pod, p)
  {
  }

  // ------------------------------------------------------------ a watch window

  /** Event names, relative names and the ignore rules speak of the same paths. */
  ghost predicate Consistent(settings: Settings, locate: string -> Path, under: string -> Path, ignored: Path -> bool) {
    && (forall name :: settings.rel(name).Some? ==> under(settings.rel(name).value) == locate(name))
    && (forall name :: ignored(locate(name)) == Matched(name, settings))
  }

  lemma MapHas<A, B>(f: A -> B, s: seq<A>, x: A)
    requires x in s
    ensures f(x) in Map(f, s)
  {
    var i :| 0 <= i < |s| && s[i] == x;
    assert Map(f, s)[i] == f(x);
  }

  lemma {:induction false} DeletedInHas(window: seq<Event>, i: nat, settings: Settings)
    requires i < |window| && Deletes(window, i, settings)
    ensures RelativePath(window[i].name, settings) in DeletedIn(window, settings)
  {
    var last := |window| - 1;
    if i < last {
      assert window[..last][i] == window[i];
      assert forall j :: 0 <= j < i ==> window[..last][j] == window[j];
      DeletedInHas(window[..last], i, settings);
    }
  }

  /** A changed directory above `p` brings the object at `p`. */
  ghost predicate CarriedAlong(root: Node, files: seq<Path>, p: Path, ignored: Path -> bool) {
    exists f :: f in files && f != p && Brings(root, f, p, ignored)
  }

  /** What the pod has at `at` stays, and it is `want` already. */
  ghost predicate AlreadyThere(pod: Pod, at: Path, want: Node, rm: seq<Path>) {
    Get(pod, at) == Some(want) && !Under(at, rm)
  }

  lemma BroughtIff(root: Node, files: seq<Path>, p: Path, ignored: Path -> bool)
    requires p in files && !ignored(p)
    ensures (exists f :: f in files && Brings(root, f, p, ignored))
            <==> Present(root, p) || CarriedAlong(root, files, p, ignored)
  {
    assert p[|p|..] == [] && forall k :: 0 <= k <= 0 ==> p + [][..k] == p;
    assert Brings(root, p, p, ignored) <==> Present(root, p);
  }

  /** A WINDOW'S PUSH, EXACTLY. Take a path that had an event in the window and is not ignored, and
      whose change was seen if it exists now. After the push the pod agrees with the local tree there if
      and only if: for an object that exists, it is present (no dangling link), or a changed directory
      above brings it, or the pod had that very object and keeps it; for one that is gone, the pod had
      none or the path lies under a deletion of the batch. */
  lemma WindowAgreesIff(window: seq<Event>, settings: Settings, locate: string -> Path, under: string -> Path,
                        pod: Pod, root: Node, env: PodEnv, ignored: Path -> bool, name: string)
    requires WellFormed(root) && Consistent(settings, locate, under, ignored) && !Matched(name, settings)
    requires var files, deleted := Map(locate, ChangedIn(window, settings)), Map(under, DeletedIn(window, settings));
             Pushed(pod, root, files, deleted, false, env, ignored).Ok?
    requires Lookup(root, locate(name)).Some? ==>
               !Lookup(root, locate(name)).value.Dir? && name in ChangedIn(window, settings)
    ensures var files, deleted := Map(locate, ChangedIn(window, settings)), Map(under, DeletedIn(window, settings));
            var p, rm := CopyTarget(env) + locate(name), RmPaths(S2IPathsOf(env), deleted);
            var found := Lookup(root, locate(name));
            Get(Pushed(pod, root, files, deleted, false, env, ignored).value, p) == found
            <==> if found.Some? then
                   Present(root, locate(name)) || CarriedAlong(root, files, locate(name), ignored) ||
                   AlreadyThere(pod, p, found.value, rm)
                 else p !in pod || Under(p, rm)
  {
    var files, deleted := Map(locate, ChangedIn(window, settings)), Map(under, DeletedIn(window, settings));
    var p := locate(name);
    PushPointwise(pod, root, files, deleted, false, env, ignored, p);
    if Lookup(root, p).Some? {
      MapHas(locate, ChangedIn(window, settings), name);
      BroughtIff(root, files, p, ignored);
    }
    NothingUnderNothing(CopyTarget(env) + p, S2IPathsOf(env), deleted);
  }

  lemma NothingUnderNothing(p: Path, s2iPaths: seq<Path>, deleted: seq<Path>)
    ensures deleted == [] ==> !Under(p, RmPaths(s2iPaths, deleted))
  {
    if deleted == [] && Under(p, RmPaths(s2iPaths, deleted)) {
      var d :| d in RmPaths(s2iPaths, deleted) && d <= p;
      RmPathsExact(s2iPaths, deleted, d);
    }
  }

  /** In particular it agrees on every file that was deleted before any change to it in the window,
      provided deletions reach the copied sources. */
  lemma DeletedFirstAgrees(window: seq<Event>, settings: Settings, locate: string -> Path, under: string -> Path,
                           pod: Pod, root: Node, env: PodEnv, ignored: Path -> bool, i: nat)
    requires WellFormed(root) && Consistent(settings, locate, under, ignored)
    requires i < |window| && Deletes(window, i, settings) && settings.rel(window[i].name).Some?
    requires CopyTarget(env) in S2IPathsOf(env) && Lookup(root, locate(window[i].name)).None?
    requires var files, deleted := Map(locate, ChangedIn(window, settings)), Map(under, DeletedIn(window, settings));
             Pushed(pod, root, files, deleted, false, env, ignored).Ok?
    ensures var files, deleted := Map(locate, ChangedIn(window, settings)), Map(under, DeletedIn(window, settings));
            CopyTarget(env) + locate(window[i].name) !in Pushed(pod, root, files, deleted, false, env, ignored).value
  {
    var deleted, p := Map(under, DeletedIn(window, settings)), locate(window[i].name);
    DeletedInHas(window, i, settings);
    MapHas(under, DeletedIn(window, settings), RelativePath(window[i].name, settings));
    DeletedUnderTarget(S2IPathsOf(env), deleted, CopyTarget(env), p, p);
    PushPointwise(pod, root, Map(locate, ChangedIn(window, settings)), deleted, false, env, ignored, p);
  }

  /** No batch that a run of the watch hands out is ever refused for carrying neither changes nor deletions. */
  lemma BatchIsNeverEmpty(steps: seq<Watch.Step>, settings: Settings, k: nat, locate: string -> Path,
                          under: string -> Path, pod: Pod, root: Node, env: PodEnv, ignored: Path -> bool)
    requires k < |Execute(steps, settings).batches| && root.Dir? && root.entries.More?
    ensures var batch := Execute(steps, settings).batches[k];
            Pushed(pod, root, Map(locate, batch.files), Map(under, batch.deleted), false, env, ignored).Ok?
  {
    WatchConserves(steps, settings);
    var run := Execute(steps, settings);
    var batch := run.batches[k];
    assert Faithful(batch, run.windows[k], run.sources[k], settings);
    assert |Map(locate, batch.files)| == |batch.files| && |Map(under, batch.deleted)| == |batch.deleted|;
  }

  const DEMO_SETTINGS := Settings("", 1, (name: string) => Some(false), (name: string) => Some(name))
  const WRITE_F := Event({WRITE}, "f", Kind.File, false, 1)
  const REMOVE_F := Event({REMOVE}, "f", Missing, false, 2)

  function AsPath(name: string): Path {
    [name]
  }

  /** A FILE WRITTEN AND THEN REMOVED before the push: the watch hands out the change and no deletion, and
      after the push the pod still has the file that the local tree has no more. */
  lemma WrittenThenRemovedStays(content: string, ignored: Path -> bool)
    requires forall p :: !ignored(p)
    ensures var seen := OnEvent(OnEvent(START, WRITE_F, DEMO_SETTINGS), REMOVE_F, DEMO_SETTINGS);
            OnTick(seen, 4, Directory, DEMO_SETTINGS).1 == Some(Batch(["f"], []))
    ensures var root := Dir(More("g", Node.File("g"), Nothing));
            var env: PodEnv := (name: string) => if name == SRC_OR_BIN then Some(["opt"]) else None;
            var pod := map[["opt", "src", "f"] := Node.File(content)];
            CopyTarget(env) in S2IPathsOf(env) && Lookup(root, ["f"]).None? &&
            var pushed := Pushed(pod, root, [["f"]], [], false, env, ignored);
            pushed.Ok? && Get(pushed.value, CopyTarget(env) + ["f"]) == Some(Node.File(content))
  {
    var root := Dir(More("g", Node.File("g"), Nothing));
    var env: PodEnv := (name: string) => if name == SRC_OR_BIN then Some(["opt"]) else None;
    var pod := map[["opt", "src", "f"] := Node.File(content)];
    var s1 := OnEvent(START, WRITE_F, DEMO_SETTINGS);
    assert s1.changedFiles == ["f"] && s1.deletedPaths == [] && s1.dirty && !s1.watchError;
    var s2 := OnEvent(s1, REMOVE_F, DEMO_SETTINGS);
    assert "f" in s1.changedFiles && s2.changedFiles == ["f"] && s2.deletedPaths == [] && s2.lastChange == 2 &&
           !s2.watchError;
    assert Due(s2, 4, DEMO_SETTINGS);
    TargetCoveredIff(env);
    assert CopyTarget(env) == ["opt", "src"] && ["opt", "src"] + ["f"] == ["opt", "src", "f"];
    assert Lookup(root, ["f"]).None? && !Present(root, ["f"]);
    PushPointwise(pod, root, [["f"]], [], false, env, ignored, ["f"]);
  }

  const CREATE_L := Event({CREATE}, "l", Kind.File, false, 1)

  /** A DANGLING LINK created in the window: the watch hands it out as a change, the push does not send
      it, and a full push does. */
  lemma DanglingLinkMissed(ignored: Path -> bool)
    requires forall p :: !ignored(p)
    ensures OnTick(OnEvent(START, CREATE_L, DEMO_SETTINGS), 3, Directory, DEMO_SETTINGS).1 == Some(Batch(["l"], []))
    ensures var link := Link("x", true);
            var root, env: PodEnv := Dir(More("l", link, Nothing)), (name: string) => None;
            var pushed, full := Pushed(map[], root, [["l"]], [], false, env, ignored),
                                Pushed(map[], root, [], [], true, env, ignored);
            pushed.Ok? && Get(pushed.value, CopyTarget(env) + ["l"]) == None &&
            full.Ok? && Get(full.value, CopyTarget(env) + ["l"]) == Some(link)
  {
    var link := Link("x", true);
    var root, env: PodEnv := Dir(More("l", link, Nothing)), (name: string) => None;
    var s1 := OnEvent(START, CREATE_L, DEMO_SETTINGS);
    assert s1.changedFiles == ["l"] && s1.deletedPaths == [] && s1.lastChange == 1 && !s1.watchError;
    assert Due(s1, 3, DEMO_SETTINGS);
    assert Lookup(root, ["l"]) == Some(link) && !Present(root, ["l"]);
    PushPointwise(map[], root, [["l"]], [], false, env, ignored, ["l"]);
    PushPointwise(map[], root, [], [], true, env, ignored, ["l"]);
  }

  /** An image that declares no source path: the deletion targets miss where sources are copied to. */
  lemma UnlabelledImageMissed()
    ensures var env: PodEnv := (name: string) => None;
            CopyTarget(env) == ["tmp", "src"] && CopyTarget(env) !in S2IPathsOf(env)
  {
    var env: PodEnv := (name: string) => None;
    TargetCoveredIff(env);
  }
}
