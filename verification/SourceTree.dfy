// Walking the source tree: the tar stream of a full push (pkg/occlient/occlient.go recursiveTar) and
// the directories a watch covers (pkg/component/watch.go addRecursiveWatch). Paths are lists of names
// from the source root; names hold no glob metacharacters, so globbing a path finds just that path.

module SourceTree {
  import opened Lists

  type Path = seq<string>

  /** A file system object; a directory lists its entries in the order ReadDir gives them. */
  datatype Node =
    | File(content: string)
    | Link(target: string, dangling: bool)
    | Dir(entries: Forest)
  datatype Forest = Nothing | More(name: string, node: Node, rest: Forest)

  datatype Header = Header(path: Path, node: Node)

  /** What gets a header of its own: files, symbolic links and empty directories. */
  predicate Leaf(n: Node) {
    n.Dir? ==> n.entries == Nothing
  }

  function NamesIn(f: Forest): set<string> {
    match f case Nothing => {} case More(name, _, rest) => {name} + NamesIn(rest)
  }

  /** The entries of a directory have different names. */
  predicate WellFormed(n: Node) {
    n.Dir? ==> WellFormedForest(n.entries)
  }

  predicate WellFormedForest(f: Forest) {
    match f case Nothing => true
            case More(name, n, rest) => name !in NamesIn(rest) && WellFormed(n) && WellFormedForest(rest)
  }

  /** The object at a path. */
  function Lookup(n: Node, q: Path): Option<Node> {
    if q == [] then Some(n) else if n.Dir? then LookupIn(n.entries, q) else None
  }

  function LookupIn(f: Forest, q: Path): Option<Node>
    requires q != []
  {
    match f case Nothing => None
            case More(name, n, rest) => if name == q[0] then Lookup(n, q[1..]) else LookupIn(rest, q)
  }

  /** No ancestor of `p + q` from `p` on, nor itself, is ignored. */
  ghost predicate Visible(p: Path, q: Path, ignored: Path -> bool) {
    forall k :: 0 <= k <= |q| ==> !ignored(p + q[..k])
  }

  // ------------------------------------------------------------ the tar stream

  function Tar(n: Node, p: Path, ignored: Path -> bool): seq<Header> {
    if ignored(p) then []
    else if Leaf(n) then [Header(p, n)]
    else TarForest(n.entries, p, ignored)
  }

  function TarForest(f: Forest, p: Path, ignored: Path -> bool): seq<Header> {
    match f case Nothing => []
            case More(name, n, rest) => Tar(n, p + [name], ignored) + TarForest(rest, p, ignored)
  }

  class TarWriter {
    var headers: seq<Header>

    constructor ()
      ensures headers == []
    {
      headers := [];
    }

    method WriteHeader(h: Header)
      modifies this
      ensures headers == old(headers) + [h]
    {
      headers := headers + [h];
    }
  }

  method RecursiveTar(n: Node, p: Path, tw: TarWriter, ignored: Path -> bool)
    modifies tw
    ensures tw.headers == old(tw.headers) + Tar(n, p, ignored)
    decreases n
  {
    if ignored(p) {
      return;
    }
    if n.Dir? {
      if n.entries == Nothing {
        tw.WriteHeader(Header(p, n));
      }
      var files := n.entries;
      while files.More?
        invariant files == n.entries || files < n.entries
        invariant n.entries.More? ==>
                    tw.headers + TarForest(files, p, ignored) == old(tw.headers) + TarForest(n.entries, p, ignored)
        invariant n.entries.Nothing? ==> files.Nothing? && tw.headers == old(tw.headers) + [Header(p, n)]
        decreases files
      {
        ghost var before := tw.headers;
        RecursiveTar(files.node, p + [files.name], tw, ignored);
        assert tw.headers + TarForest(files.rest, p, ignored)
            == before + (Tar(files.node, p + [files.name], ignored) + TarForest(files.rest, p, ignored));
        files := files.rest;
      }
    } else {
      tw.WriteHeader(Header(p, n));
    }
  }

  lemma Unprefixed(p: Path, q: Path, name: string)
    requires q != [] && q[0] == name
    ensures p + [name] + q[1..] == p + q
    ensures forall k :: 0 <= k <= |q[1..]| ==> p + [name] + q[1..][..k] == p + q[..k + 1]
  {
    forall k | 0 <= k <= |q[1..]| ensures p + [name] + q[1..][..k] == p + q[..k + 1] {
      assert q[..k + 1] == [name] + q[1..][..k];
    }
  }

  lemma VisibleStep(p: Path, q: Path, name: string, ignored: Path -> bool)
    requires q != [] && q[0] == name
    ensures Visible(p, q, ignored) <==> !ignored(p) && Visible(p + [name], q[1..], ignored)
  {
    Unprefixed(p, q, name);
    assert p + q[..0] == p;
    if Visible(p, q, ignored) {
      forall k | 0 <= k <= |q[1..]| ensures !ignored(p + [name] + q[1..][..k]) {
        assert !ignored(p + q[..k + 1]);
      }
    }
    if !ignored(p) && Visible(p + [name], q[1..], ignored) {
      forall k | 0 <= k <= |q| ensures !ignored(p + q[..k]) {
        if k > 0 {
          assert !ignored(p + [name] + q[1..][..k - 1]);
        }
      }
    }
  }

  lemma {:induction false} TarBelow(n: Node, p: Path, ignored: Path -> bool)
    ensures forall h :: h in Tar(n, p, ignored) ==> p <= h.path
  {
    if !ignored(p) && !Leaf(n) {
      TarForestBelow(n.entries, p, ignored);
    }
  }

  lemma {:induction false} TarForestBelow(f: Forest, p: Path, ignored: Path -> bool)
    ensures forall h :: h in TarForest(f, p, ignored) ==>
              p <= h.path && |h.path| > |p| && h.path[|p|] in NamesIn(f)
  {
    match f
    case Nothing =>
    case More(name, n, rest) =>
      TarBelow(n, p + [name], ignored);
      TarForestBelow(rest, p, ignored);
  }

  lemma {:induction false} LookupNames(f: Forest, q: Path)
    requires q != [] && LookupIn(f, q).Some?
    ensures q[0] in NamesIn(f)
  {
    if f.name != q[0] {
      LookupNames(f.rest, q);
    }
  }

  /** THE TAR STREAM, EXACTLY: one header for each file, symbolic link and empty directory with no
      ignored ancestor-or-self, at its own path, and nothing else. */
  lemma {:induction false} TarExact(n: Node, p: Path, ignored: Path -> bool, q: Path, leaf: Node)
    requires WellFormed(n)
    ensures Header(p + q, leaf) in Tar(n, p, ignored)
            <==> Lookup(n, q) == Some(leaf) && Leaf(leaf) && Visible(p, q, ignored)
  {
    assert p + q[..0] == p;
    if !ignored(p) && !Leaf(n) {
      TarForestExact(n.entries, p, ignored, q, leaf);
    } else if !ignored(p) && q == [] {
      assert p + q == p;
    } else if !ignored(p) {
      assert |p + q| != |p|;
      assert Lookup(n, q).None?;
    }
  }

  lemma {:induction false} TarForestExact(f: Forest, p: Path, ignored: Path -> bool, q: Path, leaf: Node)
    requires WellFormedForest(f) && !ignored(p)
    ensures Header(p + q, leaf) in TarForest(f, p, ignored)
            <==> q != [] && LookupIn(f, q) == Some(leaf) && Leaf(leaf) && Visible(p, q, ignored)
  {
    TarForestBelow(f, p, ignored);
    match f
    case Nothing =>
    case More(name, n, rest) =>
      TarForestExact(rest, p, ignored, q, leaf);
      TarBelow(n, p + [name], ignored);
      if q != [] {
        assert (p + q)[|p|] == q[0];
        if q[0] == name {
          Unprefixed(p, q, name);
          VisibleStep(p, q, name, ignored);
          TarExact(n, p + [name], ignored, q[1..], leaf);
          if LookupIn(rest, q).Some? {
            LookupNames(rest, q);
          }
        } else {
          assert forall h :: h in Tar(n, p + [name], ignored) ==> h.path[|p|] == name;
        }
      }
  }

  /** Extraction drops the first name of each header, which is the source root's own. */
  function Stripped(h: Header): Option<Header> {
    if |h.path| <= 1 then None else Some(h.(path := h.path[1..]))
  }

  /** A FULL PUSH, EXACTLY. The headers are written under the root's name and extracted without it:
      what arrives at path q is the local file, link or empty directory at q, for every q other than
      the root itself that has no ignored ancestor-or-self. */
  lemma FullPushExact(root: Node, base: string, ignored: Path -> bool, q: Path, leaf: Node)
    requires WellFormed(root) && q != []
    ensures (exists h :: h in Tar(root, [base], ignored) && Stripped(h) == Some(Header(q, leaf)))
            <==> Lookup(root, q) == Some(leaf) && Leaf(leaf) && Visible([base], q, ignored)
  {
    TarExact(root, [base], ignored, q, leaf);
    TarBelow(root, [base], ignored);
    if h :| h in Tar(root, [base], ignored) && Stripped(h) == Some(Header(q, leaf)) {
      assert h.path[..1] == [base];
      assert h.path == [base] + q;
      assert h == Header([base] + q, leaf);
    }
    if Header([base] + q, leaf) in Tar(root, [base], ignored) {
      assert ([base] + q)[1..] == q;
      assert Stripped(Header([base] + q, leaf)) == Some(Header(q, leaf));
    }
  }

  // ------------------------------------------------------------ the watched directories

  /** The folders the walk collects: it descends into a directory unless the directory is ignored. */
  function Folders(n: Node, p: Path, ignored: Path -> bool): seq<Path> {
    if !n.Dir? || ignored(p) then [] else [p] + FoldersIn(n.entries, p, ignored)
  }

  function FoldersIn(f: Forest, p: Path, ignored: Path -> bool): seq<Path> {
    match f case Nothing => []
            case More(name, n, rest) => Folders(n, p + [name], ignored) + FoldersIn(rest, p, ignored)
  }

  method Walk(n: Node, p: Path, ignored: Path -> bool) returns (folders: seq<Path>)
    ensures folders == Folders(n, p, ignored)
    decreases n
  {
    folders := [];
    if !n.Dir? || ignored(p) {
      return;
    }
    folders := [p];
    var left := n.entries;
    while left.More?
      invariant left == n.entries || left < n.entries
      invariant folders + FoldersIn(left, p, ignored) == Folders(n, p, ignored)
      decreases left
    {
      var more := Walk(left.node, p + [left.name], ignored);
      assert folders + more + FoldersIn(left.rest, p, ignored) == folders + (more + FoldersIn(left.rest, p, ignored));
      folders := folders + more;
      left := left.rest;
    }
  }

  lemma {:induction false} FoldersBelow(n: Node, p: Path, ignored: Path -> bool)
    ensures forall d :: d in Folders(n, p, ignored) ==> p <= d
  {
    if n.Dir? && !ignored(p) {
      FoldersInBelow(n.entries, p, ignored);
    }
  }

  lemma {:induction false} FoldersInBelow(f: Forest, p: Path, ignored: Path -> bool)
    ensures forall d :: d in FoldersIn(f, p, ignored) ==> p <= d && |d| > |p| && d[|p|] in NamesIn(f)
  {
    match f
    case Nothing =>
    case More(name, n, rest) =>
      FoldersBelow(n, p + [name], ignored);
      FoldersInBelow(rest, p, ignored);
  }

  /** THE WATCHED DIRECTORIES, EXACTLY: those with no ignored ancestor-or-self. */
  lemma {:induction false} FoldersExact(n: Node, p: Path, ignored: Path -> bool, q: Path)
    requires WellFormed(n)
    ensures p + q in Folders(n, p, ignored)
            <==> Lookup(n, q).Some? && Lookup(n, q).value.Dir? && Visible(p, q, ignored)
  {
    assert p + q[..0] == p;
    if n.Dir? && !ignored(p) {
      FoldersInExact(n.entries, p, ignored, q);
      assert q == [] ==> p + q == p;
      assert q != [] ==> |p + q| != |p|;
    }
  }

  lemma {:induction false} FoldersInExact(f: Forest, p: Path, ignored: Path -> bool, q: Path)
    requires WellFormedForest(f) && !ignored(p)
    ensures p + q in FoldersIn(f, p, ignored)
            <==> q != [] && LookupIn(f, q).Some? && LookupIn(f, q).value.Dir? && Visible(p, q, ignored)
  {
    FoldersInBelow(f, p, ignored);
    match f
    case Nothing =>
    case More(name, n, rest) =>
      FoldersInExact(rest, p, ignored, q);
      FoldersBelow(n, p + [name], ignored);
      if q != [] {
        assert (p + q)[|p|] == q[0];
        if q[0] == name {
          Unprefixed(p, q, name);
          VisibleStep(p, q, name, ignored);
          FoldersExact(n, p + [name], ignored, q[1..]);
          if LookupIn(rest, q).Some? {
            LookupNames(rest, q);
          }
        } else {
          assert forall d :: d in Folders(n, p + [name], ignored) ==> d[|p|] == name;
        }
      }
  }

  // ------------------------------------------------------------ watch and push agree

  lemma {:induction false} ParentIsDir(n: Node, q: Path)
    requires q != [] && Lookup(n, q).Some?
    ensures Lookup(n, q[..|q| - 1]).Some? && Lookup(n, q[..|q| - 1]).value.Dir?
  {
    if |q| > 1 {
      ParentIsDirIn(n.entries, q);
    }
  }

  lemma {:induction false} ParentIsDirIn(f: Forest, q: Path)
    requires |q| > 1 && LookupIn(f, q).Some?
    ensures LookupIn(f, q[..|q| - 1]).Some? && LookupIn(f, q[..|q| - 1]).value.Dir?
  {
    if f.name == q[0] {
      ParentIsDir(f.node, q[1..]);
      assert q[1..][..|q[1..]| - 1] == q[..|q| - 1][1..];
    } else {
      ParentIsDirIn(f.rest, q);
    }
  }

  /** A change of the file at `q` is delivered when its directory is watched and it is not ignored. */
  ghost predicate Deliverable(root: Node, p: Path, ignored: Path -> bool, q: Path) {
    q != [] && p + q[..|q| - 1] in Folders(root, p, ignored) && !ignored(p + q)
  }

  /** WATCH COVERS PUSH. The files and links whose changes a watch delivers are exactly those that a
      full push sends. */
  lemma DeliverableIffPushed(root: Node, p: Path, ignored: Path -> bool, q: Path)
    requires WellFormed(root) && q != [] && Lookup(root, q).Some? && !Lookup(root, q).value.Dir?
    ensures Deliverable(root, p, ignored, q) <==> Header(p + q, Lookup(root, q).value) in Tar(root, p, ignored)
  {
    var parent := q[..|q| - 1];
    ParentIsDir(root, q);
    FoldersExact(root, p, ignored, parent);
    TarExact(root, p, ignored, q, Lookup(root, q).value);
    assert q[..|q|] == q;
    assert forall k :: 0 <= k <= |parent| ==> parent[..k] == q[..k];
    if Visible(p, parent, ignored) && !ignored(p + q) {
      forall k | 0 <= k <= |q| ensures !ignored(p + q[..k]) {
        if k <= |parent| {
          assert !ignored(p + parent[..k]);
        }
      }
    }
  }
}
