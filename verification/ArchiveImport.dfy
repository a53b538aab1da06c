/**
 Restoring a parsed archive: a staged directory, one directory per shared extension, a row.
 The file tree and the rows are the state; every operating-system or database call may fail.
 `Store` runs one import at a time (the store's mutex).
 */
module ArchiveImport {
  import opened Common
  import opened Strings
  import opened ArchiveFraming

  // ----- paths and trees -----

  type Path = seq<string>

  datatype Node = Dir | File(data: Bytes) | Other   // Other: symlinks and special files

  type Tree = map<Path, Node>

  function At(t: Tree, p: Path): Option<Node> {
    if p in t then Some(t[p]) else None
  }

  /** p is root, or somewhere below it. */
  predicate Under(p: Path, root: Path) {
    root <= p
  }

  function Parent(p: Path): Path
    requires p != []
  {
    p[..|p| - 1]
  }

  /** Every node but the root sits in a directory. */
  ghost predicate Closed(t: Tree) {
    && At(t, []) == Some(Dir)
    && forall p :: p in t && p != [] ==> At(t, Parent(p)) == Some(Dir)
  }

  lemma {:induction false} NothingBelow(t: Tree, p: Path, q: Path)
    requires Closed(t) && p !in t && Under(q, p)
    ensures q !in t
    decreases |q|
  {
    if q in t && q != p {
      NothingBelow(t, p, Parent(q));
    }
  }

  lemma {:induction false} AncestorIsDir(t: Tree, p: Path, q: Path)
    requires Closed(t) && q in t && Under(q, p) && p != q
    ensures At(t, p) == Some(Dir)
    decreases |q|
  {
    if p != Parent(q) {
      AncestorIsDir(t, p, Parent(q));
    }
  }

  lemma UnderCancel(root: Path, x: Path, y: Path)
    ensures Under(root + y, root + x) <==> Under(y, x)
    ensures root + x == root + y <==> x == y
  {
    assert (root + x)[|root|..] == x && (root + y)[|root|..] == y;
    if Under(root + y, root + x) {
      assert forall i :: 0 <= i < |x| ==> x[i] == (root + x)[|root| + i] == (root + y)[|root| + i];
    }
  }

  function RemoveAll(t: Tree, root: Path): (r: Tree)
    ensures forall p :: At(r, p) == if Under(p, root) then None else At(t, p)
    ensures Closed(t) && root != [] ==> Closed(r)
  {
    map p | p in t && !Under(p, root) :: t[p]
  }

  /** Where the node found at p after the move was before it. */
  function Origin(p: Path, from: Path, to: Path): Path {
    if Under(p, to) then from + p[|to|..] else p
  }

  /** Moves the tree at `from` to the unused path `to`. */
  function Renamed(t: Tree, from: Path, to: Path): Tree {
    var moved := set p | p in t && Under(p, from) :: to + p[|from|..];
    map p | p in t.Keys + moved && Origin(p, from, to) in t && (Under(p, to) || !Under(p, from)) :: t[Origin(p, from, to)]
  }

  lemma RenamedAt(t: Tree, from: Path, to: Path, p: Path)
    ensures At(Renamed(t, from, to), p) == if Under(p, from) && !Under(p, to) then None else At(t, Origin(p, from, to))
  {
    var moved := set q | q in t && Under(q, from) :: to + q[|from|..];
    if Under(p, to) && Origin(p, from, to) in t {
      var q := Origin(p, from, to);
      assert to + q[|from|..] == p by { assert q[|from|..] == p[|to|..]; }
      assert p in moved;
    }
  }

  /** The parent of a moved node moves with it, up to the new place itself. */
  lemma OriginOfParent(p: Path, from: Path, to: Path)
    requires Under(p, to) && p != to
    ensures Origin(p, from, to) != [] && Origin(Parent(p), from, to) == Parent(Origin(p, from, to)) && Under(Parent(p), to)
  {}

  lemma RenamedParent(t: Tree, from: Path, to: Path, p: Path)
    requires Closed(t) && from in t && from != []
    requires to != [] && At(t, Parent(to)) == Some(Dir) && !Under(to, from) && !Under(from, to)
    requires p in Renamed(t, from, to) && p != []
    ensures At(Renamed(t, from, to), Parent(p)) == Some(Dir)
  {
    RenamedAt(t, from, to, p);
    RenamedAt(t, from, to, Parent(p));
    if p == to {
      assert !Under(Parent(to), to) && !Under(Parent(to), from);
    } else if Under(p, to) {
      OriginOfParent(p, from, to);
    } else {
      assert !Under(Parent(p), to) && !Under(Parent(p), from);
    }
  }

  lemma RenamedClosed(t: Tree, from: Path, to: Path)
    requires Closed(t) && from in t && from != []
    requires to != [] && At(t, Parent(to)) == Some(Dir) && !Under(to, from) && !Under(from, to)
    ensures Closed(Renamed(t, from, to))
  {
    RenamedAt(t, from, to, []);
    forall p | p in Renamed(t, from, to) && p != []
      ensures At(Renamed(t, from, to), Parent(p)) == Some(Dir)
    {
      RenamedParent(t, from, to, p);
    }
  }

  // ----- names -----

  predicate Alphanumeric(c: char) {
    'a' <= c <= 'z' || 'A' <= c <= 'Z' || '0' <= c <= '9'
  }

  predicate SafeSegment(s: string) {
    && 0 < |s| <= 128
    && Alphanumeric(s[0])
    && forall i :: 0 <= i < |s| ==> Alphanumeric(s[i]) || s[i] in {'.', '_', '-'}
  }

  function VersionSegment(version: string): string {
    if SafeSegment(version) then version else "0"
  }

  function ProfilesRoot(data: Path): Path {
    data + ["profiles"]
  }

  function ExtensionsRoot(data: Path): Path {
    data + ["extensions"]
  }

  function ExtensionDir(data: Path, ext: ExtensionMeta): Path {
    ExtensionsRoot(data) + [ext.id] + [VersionSegment(ext.version)]
  }

  /** A safe version names its own directory, any other shares "0". */
  lemma ExtensionDirIs(data: Path, ext: ExtensionMeta)
    ensures SafeSegment(ext.version) ==> ExtensionDir(data, ext) == data + ["extensions", ext.id, ext.version]
    ensures !SafeSegment(ext.version) ==> ExtensionDir(data, ext) == data + ["extensions", ext.id, "0"]
  {
    var segment := if SafeSegment(ext.version) then ext.version else "0";
    assert data + ["extensions"] + [ext.id] + [segment] == data + ["extensions", ext.id, segment];
  }

  /** A safe segment is one ordinary name: no separator, no drive, no hidden or relative name. */
  lemma SafeSegmentIsAName(s: string)
    ensures SafeSegment(s) ==> s != "" && s[0] != '.' && |s| <= 128
    ensures SafeSegment(s) ==> forall i :: 0 <= i < |s| ==> s[i] !in {'/', '\\', ':', '\0', ' '}
    ensures SafeSegment(s) <==> 0 < |s| <= 128 && forall i :: 0 <= i < |s| ==> Alphanumeric(s[i]) || (i > 0 && s[i] in {'.', '-', '_'})
  {}

  predicate TemporaryIn(path: Path, parent: Path) {
    |path| == |parent| + 1 && Under(path, parent) && ".import-" <= path[|parent|]
  }

  // ----- what a step adds -----

  /** p was missing and is now a directory. */
  predicate NewDir(t0: Tree, t: Tree, p: Path) {
    p !in t0 && At(t, p) == Some(Dir)
  }

  /** Nothing changed but missing directories on the way to `path`. */
  ghost predicate OnlyAncestors(t0: Tree, t: Tree, path: Path) {
    forall p :: At(t, p) == At(t0, p) || (Under(path, p) && NewDir(t0, t, p))
  }

  /** Nothing changed outside `root`. */
  ghost predicate OnlyInside(t0: Tree, t: Tree, root: Path) {
    forall p :: Under(p, root) || At(t, p) == At(t0, p)
  }

  ghost predicate SameBelow(t0: Tree, t: Tree, root: Path) {
    forall x: Path :: At(t, root + x) == At(t0, root + x)
  }

  /** `dest` is a new file holding `data`; its missing ancestors are directories; no other change. */
  ghost predicate Written(t0: Tree, t: Tree, dest: Path, data: Bytes) {
    && dest !in t0 && At(t, dest) == Some(File(data))
    && forall p :: p != dest ==> At(t, p) == At(t0, p) || (Under(dest, p) && NewDir(t0, t, p))
  }

  // ----- exactly the files of a manifest -----

  function PathOf(meta: FileMeta): Path {
    Split(meta.path, '/')
  }

  /** The node found at x below the root is file number i, or a directory on the way to it. */
  predicate ExplainedBy(x: Path, node: Node, meta: FileMeta, data: Bytes) {
    if x == PathOf(meta) then node == File(data) else Under(PathOf(meta), x) && node == Dir
  }

  predicate Explained(x: Path, node: Node, files: seq<FileMeta>, contents: seq<Bytes>, k: int)
    requires k <= |files| && k <= |contents|
  {
    exists i :: 0 <= i < k && ExplainedBy(x, node, files[i], contents[i])
  }

  /** Below `root` are the first k files with their bytes, the directories they need, and nothing else. */
  ghost predicate Holds(t: Tree, root: Path, files: seq<FileMeta>, contents: seq<Bytes>, k: int)
    requires k <= |files| && k <= |contents|
  {
    && At(t, root) == Some(Dir)
    && (forall i :: 0 <= i < k ==> At(t, root + PathOf(files[i])) == Some(File(contents[i])))
    && (forall x: Path :: x != [] && root + x in t ==> Explained(x, t[root + x], files, contents, k))
  }

  ghost predicate Restored(t: Tree, root: Path, files: seq<FileMeta>, contents: seq<Bytes>)
    requires |files| == |contents|
  {
    Holds(t, root, files, contents, |files|)
  }

  lemma HoldsStep(t0: Tree, t: Tree, root: Path, files: seq<FileMeta>, contents: seq<Bytes>, k: int)
    requires 0 <= k < |files| && k < |contents|
    requires Holds(t0, root, files, contents, k)
    requires Written(t0, t, root + PathOf(files[k]), contents[k])
    ensures Holds(t, root, files, contents, k + 1)
  {
    var dest := root + PathOf(files[k]);
    forall i | 0 <= i < k + 1
      ensures At(t, root + PathOf(files[i])) == Some(File(contents[i]))
    {
      assert i < k ==> root + PathOf(files[i]) in t0;
    }
    forall x: Path | x != [] && root + x in t
      ensures Explained(x, t[root + x], files, contents, k + 1)
    {
      UnderCancel(root, PathOf(files[k]), x);
      UnderCancel(root, x, PathOf(files[k]));
      if root + x in t0 {
        var i :| 0 <= i < k && ExplainedBy(x, t0[root + x], files[i], contents[i]);
        assert ExplainedBy(x, t[root + x], files[i], contents[i]);
      } else {
        assert ExplainedBy(x, t[root + x], files[k], contents[k]);
      }
    }
  }

  lemma HoldsFrame(t: Tree, root: Path, t': Tree, root': Path, files: seq<FileMeta>, contents: seq<Bytes>, k: int)
    requires k <= |files| && k <= |contents|
    requires Holds(t, root, files, contents, k)
    requires forall x: Path :: At(t', root' + x) == At(t, root + x)
    ensures Holds(t', root', files, contents, k)
  {
    assert root + [] == root && root' + [] == root';
    assert forall x: Path :: root' + x in t' <==> At(t, root + x).Some?;
  }

  lemma WrittenInside(t0: Tree, t: Tree, root: Path, x: Path, data: Bytes)
    requires Closed(t0) && At(t0, root) == Some(Dir) && Written(t0, t, root + x, data)
    ensures OnlyInside(t0, t, root)
  {
    forall p
      ensures Under(p, root) || At(t, p) == At(t0, p)
    {
      if !Under(p, root) && Under(root + x, p) {
        assert Under(root, p);
        AncestorIsDir(t0, p, root);
      }
    }
  }

  // ----- profiles and their references to extensions -----

  datatype Reference = Reference(id: string, version: string, shared: bool, dir: string)

  datatype Profile<T> = Profile(id: string, dataDir: string, extensions: seq<Reference>, rest: T)

  /** A stored profile: the imported one under its own id and directory, its references redirected. */
  datatype Row<T> = Row(id: string, dataDir: Path, dirs: seq<Option<Path>>, profile: Profile<T>)

  function Key(id: string, version: string): string {
    id + "\0" + version
  }

  /** The directory of every extension the import looked at, a later entry replacing an equal key. */
  function SharedDirs(data: Path, exts: seq<ExtensionMeta>): map<string, Path> {
    if exts == [] then map[]
    else
      var n := |exts| - 1;
      var before := SharedDirs(data, exts[..n]);
      if SafeSegment(exts[n].id) then before[Key(exts[n].id, exts[n].version) := ExtensionDir(data, exts[n])] else before
  }

  function Slashes(s: string): string {
    seq(|s|, i requires 0 <= i < |s| => if s[i] == '\\' then '/' else s[i])
  }

  function TrimSlashes(s: string): string {
    if s != "" && s[|s| - 1] == '/' then TrimSlashes(s[..|s| - 1]) else s
  }

  /** Where a reference points after the import; None leaves it as it was written. */
  function Redirect(r: Reference, oldDir: string, dest: Path, shared: map<string, Path>): Option<Path> {
    if r.shared then
      if Key(r.id, r.version) in shared then Some(shared[Key(r.id, r.version)]) else None
    else
      var dir, base := Slashes(r.dir), TrimSlashes(Slashes(oldDir)) + "/";
      if base <= dir && ValidPath(dir[|base|..]) then Some(dest + Split(dir[|base|..], '/')) else None
  }

  function RedirectAll(refs: seq<Reference>, oldDir: string, dest: Path, shared: map<string, Path>): seq<Option<Path>> {
    seq(|refs|, i requires 0 <= i < |refs| => Redirect(refs[i], oldDir, dest, shared))
  }

  // ----- what an import leaves -----

  datatype ImportError = Archive(error: ArchiveError) | FileSystem | Database | NoIdentity

  predicate Covered(p: Path, added: seq<Path>) {
    exists i :: 0 <= i < |added| && Under(p, added[i])
  }

  /** The directories a failed import may leave: those above the profiles and extensions. */
  predicate Leftover(data: Path, exts: seq<ExtensionMeta>, p: Path) {
    || Under(ProfilesRoot(data), p) || Under(ExtensionsRoot(data), p)
    || exists i :: 0 <= i < |exts| && SafeSegment(exts[i].id) && p == ExtensionsRoot(data) + [exts[i].id]
  }

  ghost predicate KeptAt(data: Path, exts: seq<ExtensionMeta>, t0: Tree, t: Tree, added: seq<Path>, p: Path) {
    if Covered(p, added) then p !in t0
    else At(t, p) == At(t0, p) || (Leftover(data, exts, p) && NewDir(t0, t, p))
  }

  /** Outside `added` paths, which were unused, only leftover directories have been added. */
  ghost predicate Kept(data: Path, exts: seq<ExtensionMeta>, t0: Tree, t: Tree, added: seq<Path>) {
    forall p :: KeptAt(data, exts, t0, t, added, p)
  }

  /** No safe entry before number j goes to `dir`. */
  ghost predicate NoneBefore(data: Path, exts: seq<ExtensionMeta>, dir: Path, j: int)
    requires j <= |exts|
  {
    forall k :: 0 <= k < j && SafeSegment(exts[k].id) ==> ExtensionDir(data, exts[k]) != dir
  }

  /** `dir` holds exactly the files of extension number j, the first that goes there. */
  ghost predicate Publishes<T>(data: Path, a: Parsed<Profile<T>>, t: Tree, dir: Path, j: int)
    requires Described(a)
  {
    && 0 <= j < |a.extensions|
    && SafeSegment(a.manifest.extensions[j].id) && dir == ExtensionDir(data, a.manifest.extensions[j])
    && NoneBefore(data, a.manifest.extensions, dir, j)
    && Restored(t, dir, a.manifest.extensions[j].files, a.extensions[j])
  }

  ghost predicate Published<T>(data: Path, a: Parsed<Profile<T>>, t: Tree, dir: Path)
    requires Described(a)
  {
    exists j :: Publishes(data, a, t, dir, j)
  }

  ghost predicate AllPublished<T>(data: Path, a: Parsed<Profile<T>>, t: Tree, dirs: seq<Path>)
    requires Described(a)
  {
    forall k :: 0 <= k < |dirs| ==> Published(data, a, t, dirs[k])
  }

  ghost predicate DirsPresent(data: Path, exts: seq<ExtensionMeta>, t: Tree, k: int)
    requires k <= |exts|
  {
    forall i :: 0 <= i < k && SafeSegment(exts[i].id) ==> At(t, ExtensionDir(data, exts[i])) == Some(Dir)
  }

  /** Every file of the manifest has its contents: what parsing guarantees. */
  predicate Described<T>(a: Parsed<Profile<T>>) {
    && |a.manifest.files| == |a.files| && |a.manifest.extensions| == |a.extensions|
    && forall i :: 0 <= i < |a.extensions| ==> |a.manifest.extensions[i].files| == |a.extensions[i]|
  }

  /**
   The extensions are there: each safe one has its directory, and each directory that is new
   holds exactly the files of the first entry that goes there.
   */
  ghost predicate ExtensionsPresent<T>(data: Path, a: Parsed<Profile<T>>, t0: Tree, t: Tree)
    requires Described(a)
  {
    forall i :: 0 <= i < |a.extensions| && SafeSegment(a.manifest.extensions[i].id) ==>
      var dir := ExtensionDir(data, a.manifest.extensions[i]);
      At(t, dir) == Some(Dir) && (dir !in t0 ==> Published(data, a, t, dir))
  }

  /** A failed import: old nodes as they were, and nothing new but leftover directories. */
  ghost predicate Refused(data: Path, exts: seq<ExtensionMeta>, t0: Tree, t: Tree) {
    Kept(data, exts, t0, t, [])
  }

  function NewRow<T>(data: Path, a: Parsed<Profile<T>>, id: string): Row<T> {
    var dest := ProfilesRoot(data) + [id];
    Row(id, dest, RedirectAll(a.profile.extensions, a.profile.dataDir, dest, SharedDirs(data, a.manifest.extensions)), a.profile)
  }

  function Opened<T>(c: Codec<Profile<T>>, cipher: Cipher, passphrase: Bytes, buf: Bytes): Result<Parsed<Profile<T>>, ArchiveError> {
    match Decrypt(cipher, passphrase, buf)
    case Err(e) => Err(e)
    case Ok(plain) => Parse(c, plain)
  }

  predicate InNewExtension(data: Path, exts: seq<ExtensionMeta>, t0: Tree, p: Path) {
    exists j :: 0 <= j < |exts| && SafeSegment(exts[j].id) && ExtensionDir(data, exts[j]) !in t0 && Under(p, ExtensionDir(data, exts[j]))
  }

  /** A completed import under `id`. */
  ghost predicate Imported<T>(data: Path, a: Parsed<Profile<T>>, t0: Tree, rows0: map<string, Row<T>>,
                                    t: Tree, rows: map<string, Row<T>>, id: string)
    requires Described(a)
  {
    var dest := ProfilesRoot(data) + [id];
    && SafeSegment(id) && id !in rows0 && rows == rows0[id := NewRow(data, a, id)]
    && dest !in t0 && Restored(t, dest, a.manifest.files, a.files)
    && ExtensionsPresent(data, a, t0, t)
    && (forall p :: p in t0 ==> At(t, p) == At(t0, p))
    && (forall p :: p in t && p !in t0 ==>
          Under(p, dest) || InNewExtension(data, a.manifest.extensions, t0, p) || (Leftover(data, a.manifest.extensions, p) && t[p] == Dir))
  }

  lemma LeftoverParents(data: Path, exts: seq<ExtensionMeta>, i: int, p: Path)
    requires 0 <= i < |exts| && SafeSegment(exts[i].id) && Under(Parent(ExtensionDir(data, exts[i])), p)
    ensures Leftover(data, exts, p)
  {
    var root := ExtensionsRoot(data);
    assert Parent(ExtensionDir(data, exts[i])) == root + [exts[i].id];
    if |p| <= |root| {
      assert Under(root, p) by { assert p == (root + [exts[i].id])[..|p|] == root[..|p|]; }
    } else {
      assert p == root + [exts[i].id];
    }
  }

  /** Missing directories on the way to a leftover directory keep the rest as it was. */
  lemma KeptAncestors(data: Path, exts: seq<ExtensionMeta>, t0: Tree, t: Tree, added: seq<Path>, t': Tree, path: Path)
    requires Kept(data, exts, t0, t, added) && OnlyAncestors(t, t', path)
    requires forall p :: Under(path, p) ==> Leftover(data, exts, p)
    ensures Kept(data, exts, t0, t', added)
  {
    forall p
      ensures KeptAt(data, exts, t0, t', added, p)
    {
      assert KeptAt(data, exts, t0, t, added, p);
    }
  }

  lemma KeptInside(data: Path, exts: seq<ExtensionMeta>, t0: Tree, t: Tree, added: seq<Path>, t': Tree, root: Path)
    requires Kept(data, exts, t0, t, added) && OnlyInside(t, t', root) && root in added
    ensures Kept(data, exts, t0, t', added)
  {
    forall p
      ensures KeptAt(data, exts, t0, t', added, p)
    {
      assert KeptAt(data, exts, t0, t, added, p);
    }
  }

  /** A path that was unused, and all that is now below it, joins the added ones. */
  lemma KeptAdded(data: Path, exts: seq<ExtensionMeta>, t0: Tree, t: Tree, added: seq<Path>, t': Tree, dest: Path, path: Path)
    requires Closed(t0) && Kept(data, exts, t0, t, added) && dest !in t
    requires forall p :: Under(p, dest) || At(t', p) == At(t, p) || (Under(path, p) && NewDir(t, t', p))
    requires forall p :: Under(path, p) ==> Leftover(data, exts, p)
    ensures Kept(data, exts, t0, t', added + [dest])
  {
    assert KeptAt(data, exts, t0, t, added, dest);
    assert (added + [dest])[|added|] == dest;
    forall p
      ensures KeptAt(data, exts, t0, t', added + [dest], p)
    {
      assert KeptAt(data, exts, t0, t, added, p);
      if Under(p, dest) {
        NothingBelow(t0, dest, p);
      } else {
        CoveredMore(p, added, dest);
      }
    }
  }

  lemma CoveredMore(p: Path, added: seq<Path>, dest: Path)
    ensures Covered(p, added + [dest]) <==> Covered(p, added) || Under(p, dest)
  {
    assert (added + [dest])[|added|] == dest;
    assert forall i :: 0 <= i < |added| ==> (added + [dest])[i] == added[i];
  }

  lemma Comparable(p: Path, q: Path, r: Path)
    requires Under(p, q)
    ensures Under(p, r) ==> Under(q, r) || Under(r, q)
  {}

  /** What happens at `dest`, and on the way to it, leaves an unrelated directory alone. */
  lemma Unrelated(t: Tree, t': Tree, dest: Path, d: Path, x: Path)
    requires dest != [] && !Under(d, dest) && !Under(dest, d)
    requires forall p :: Under(p, dest) || At(t', p) == At(t, p) || (Under(Parent(dest), p) && NewDir(t, t', p))
    ensures At(t', d + x) == At(t, d + x)
  {
    var p := d + x;
    assert Under(p, d);
    Comparable(p, d, dest);
    assert Under(Parent(dest), p) ==> Under(dest, d);
  }

  lemma PublishesFrame<T>(data: Path, a: Parsed<Profile<T>>, t: Tree, t': Tree, dir: Path, j: int)
    requires Described(a) && Publishes(data, a, t, dir, j)
    requires forall x: Path :: At(t', dir + x) == At(t, dir + x)
    ensures Publishes(data, a, t', dir, j)
  {
    HoldsFrame(t, dir, t', dir, a.manifest.extensions[j].files, a.extensions[j], |a.extensions[j]|);
  }

  /** Profiles and extensions live apart. */
  lemma RootsApart(data: Path, p: Path, ext: ExtensionMeta)
    requires Under(p, ProfilesRoot(data))
    ensures !Under(p, ExtensionDir(data, ext)) && !Under(ExtensionDir(data, ext), p)
  {
    assert p[|data|] == ProfilesRoot(data)[|data|] == "profiles";
    assert ExtensionDir(data, ext)[|data|] == "extensions";
  }

  // ----- the store -----

  class Store<T> {
    const data: Path
    var tree: Tree
    var rows: map<string, Row<T>>

    /** Whether the operating system or the database refuses the next call. */
    method Fails() returns (b: bool) {
      b := *;
    }

    /** Creates what is missing on the way to `path`; refuses anything there that is not a directory. */
    method EnsureDirectory(path: Path) returns (ok: bool)
      requires Closed(tree)
      modifies `tree
      ensures Closed(tree)
      ensures OnlyAncestors(old(tree), tree, path)
      ensures ok ==> At(tree, path) == Some(Dir)
      decreases |path|
    {
      if path != [] {
        ok := EnsureDirectory(Parent(path));
        if !ok {
          return;
        }
      }
      var failed := Fails();
      if failed {
        return false;
      }
      if path !in tree {
        failed := Fails();
        if failed {
          return false;
        }
        tree := tree[path := Dir];
        return true;
      }
      return tree[path] == Dir;
    }

    /** A new directory inside `parent` with an unused temporary name. */
    method MakeTemporary(parent: Path) returns (r: Option<Path>)
      requires Closed(tree) && At(tree, parent) == Some(Dir)
      modifies `tree
      ensures Closed(tree)
      ensures r.None? ==> tree == old(tree)
      ensures r.Some? ==> TemporaryIn(r.value, parent)
      ensures r.Some? ==> r.value !in old(tree) && tree == old(tree)[r.value := Dir]
    {
      var suffix: string := *;
      var failed := Fails();
      var path := parent + [".import-" + suffix];
      if failed || path in tree {
        return None;
      }
      assert Parent(path) == parent;
      tree := tree[path := Dir];
      return Some(path);
    }

    /** Writes one new file below `root`; never replaces anything. */
    method WriteGuarded(root: Path, path: string, bytes: Bytes) returns (ok: bool)
      requires Closed(tree) && At(tree, root) == Some(Dir)
      modifies `tree
      ensures Closed(tree)
      ensures OnlyInside(old(tree), tree, root)
      ensures ok ==> ValidPath(path) && Written(old(tree), tree, root + Split(path, '/'), bytes)
    {
      if !ValidPath(path) {
        return false;
      }
      var x := Split(path, '/');
      var dest := root + x;
      ok := EnsureDirectory(Parent(dest));
      ghost var t1 := tree;
      Ancestors(old(tree), t1, root, x);
      if !ok {
        return;
      }
      var failed := Fails();
      if failed || dest in tree {
        return false;
      }
      assert At(t1, dest) == At(old(tree), dest);
      failed := Fails();
      var partial: Bytes := *;
      tree := tree[dest := File(if failed then partial else bytes)];
      return !failed;
    }

    /** Writes all files of a manifest below the empty directory `root`. */
    method Fill(root: Path, files: seq<FileMeta>, contents: seq<Bytes>) returns (ok: bool)
      requires |files| == |contents|
      requires Closed(tree) && At(tree, root) == Some(Dir)
      requires forall x: Path :: x != [] ==> root + x !in tree
      modifies `tree
      ensures Closed(tree)
      ensures OnlyInside(old(tree), tree, root)
      ensures ok ==> Restored(tree, root, files, contents)
    {
      var i := 0;
      while i < |files|
        invariant 0 <= i <= |files|
        invariant Closed(tree)
        invariant OnlyInside(old(tree), tree, root)
        invariant Holds(tree, root, files, contents, i)
      {
        ghost var was := tree;
        ok := WriteGuarded(root, files[i].path, contents[i]);
        if !ok {
          return;
        }
        HoldsStep(was, tree, root, files, contents, i);
        i := i + 1;
      }
      return true;
    }

    /** One shared extension: kept if its version is already there, otherwise staged and moved into place. */
    method RestoreExtension(ext: ExtensionMeta, contents: seq<Bytes>) returns (ok: bool, published: bool)
      requires SafeSegment(ext.id) && |ext.files| == |contents|
      requires Closed(tree) && At(tree, ExtensionsRoot(data)) == Some(Dir)
      modifies `tree
      ensures Closed(tree)
      ensures published ==> ok && ExtensionAdded(data, old(tree), tree, ext) && Restored(tree, ExtensionDir(data, ext), ext.files, contents)
      ensures !published ==> OnlyAncestors(old(tree), tree, Parent(ExtensionDir(data, ext)))
      ensures ok && !published ==> At(old(tree), ExtensionDir(data, ext)) == Some(Dir)
      ensures published && SafeSegment(ext.version) ==> Restored(tree, data + ["extensions", ext.id, ext.version], ext.files, contents)
      ensures published && !SafeSegment(ext.version) ==> Restored(tree, data + ["extensions", ext.id, "0"], ext.files, contents)
    {
      var dest := ExtensionDir(data, ext);
      ExtensionDirIs(data, ext);
      var parent := Parent(dest);
      published := false;
      ok := EnsureDirectory(parent);
      if !ok {
        return;
      }
      ghost var t1 := tree;
      assert At(t1, dest) == At(old(tree), dest);
      var failed := Fails();
      if failed {
        return false, false;
      }
      if dest in tree {
        return tree[dest] == Dir, false;
      }
      var made := MakeTemporary(parent);
      if made.None? {
        return false, false;
      }
      var temp := made.value;
      FreshIsEmpty(t1, tree, temp);
      ghost var t2 := tree;
      ok := Fill(temp, ext.files, contents);
      ghost var t3 := tree;
      failed := Fails();
      if !ok || failed {
        tree := RemoveAll(tree, temp);
        DroppedTemporary(t1, t2, t3, temp, tree);
        return false, false;
      }
      Apart(temp, dest, |parent|);
      AncestorIsDir(t3, parent, temp);
      RenamedClosed(t3, temp, dest);
      tree := Renamed(tree, temp, dest);
      Moved(t3, temp, dest, ext.files, contents);
      MovedTemporary(t1, t2, t3, temp, dest);
      return true, true;
    }

    /** The id of the imported profile: its own if that is safe and unused, else a new one. */
    method ChooseId(wanted: string) returns (r: Option<string>)
      ensures r.Some? ==> SafeSegment(r.value) && r.value !in rows && ProfilesRoot(data) + [r.value] !in tree
      ensures r.Some? && SafeSegment(wanted) && wanted !in rows && ProfilesRoot(data) + [wanted] !in tree ==> r.value == wanted
    {
      var id := wanted;
      ghost var generated := false;
      while true
        invariant generated ==> SafeSegment(id) && id !in rows && ProfilesRoot(data) + [id] !in tree
        invariant id == wanted || !SafeSegment(wanted) || wanted in rows || ProfilesRoot(data) + [wanted] in tree
        decreases if generated then 0 else if SafeSegment(id) then 2 else 1
      {
        if !SafeSegment(id) {
          var made := NewId();
          if made.None? {
            return None;
          }
          id, generated := made.value, true;
        }
        var failed := Fails();
        if failed {
          return None;
        }
        if id !in rows && ProfilesRoot(data) + [id] !in tree {
          return Some(id);
        }
        id := "";
      }
    }

    /** A random id: safe, and not in use. */
    method NewId() returns (r: Option<string>)
      ensures r.Some? ==> SafeSegment(r.value) && r.value !in rows && ProfilesRoot(data) + [r.value] !in tree
    {
      var id: string := *;
      if SafeSegment(id) && id !in rows && ProfilesRoot(data) + [id] !in tree {
        return Some(id);
      }
      return None;
    }

    /** The loop that points every reference at the restored files. */
    method Redirected(refs: seq<Reference>, oldDir: string, dest: Path, shared: map<string, Path>) returns (dirs: seq<Option<Path>>)
      ensures dirs == RedirectAll(refs, oldDir, dest, shared)
    {
      dirs := [];
      for i := 0 to |refs|
        invariant dirs == RedirectAll(refs[..i], oldDir, dest, shared)
      {
        dirs := dirs + [Redirect(refs[i], oldDir, dest, shared)];
      }
      assert refs[..|refs|] == refs;
    }

    /** One round of the extension loop; a directory moved into place joins `created`. */
    method RestoreNext(a: Parsed<Profile<T>>, i: nat, created: seq<Path>, ghost t0: Tree, ghost stage: Path)
        returns (ok: bool, more: seq<Path>)
      requires Described(a) && i < |a.extensions| && SafeSegment(a.manifest.extensions[i].id)
      requires Closed(t0) && Closed(tree) && At(tree, ExtensionsRoot(data)) == Some(Dir)
      requires Kept(data, a.manifest.extensions, t0, tree, [stage] + created) && Under(stage, ProfilesRoot(data))
      requires AllPublished(data, a, tree, created) && DirsPresent(data, a.manifest.extensions, tree, i)
      modifies `tree
      ensures Closed(tree)
      ensures At(tree, ExtensionsRoot(data)) == Some(Dir)
      ensures ok ==> DirsPresent(data, a.manifest.extensions, tree, i + 1)
      ensures Kept(data, a.manifest.extensions, t0, tree, [stage] + more)
      ensures SameBelow(old(tree), tree, stage)
      ensures AllPublished(data, a, tree, more)
    {
      var exts := a.manifest.extensions;
      var dest := ExtensionDir(data, exts[i]);
      ghost var was := tree;
      var published;
      ok, published := RestoreExtension(exts[i], a.extensions[i]);
      KeptExtension(data, exts, i, t0, was, [stage] + created, tree, published);
      StageKept(data, was, tree, exts[i], stage);
      SiblingsKept(data, a, was, tree, exts[i], created);
      OldKept(data, was, tree, exts[i]);
      more := created;
      if published {
        more := created + [dest];
        assert [stage] + more == [stage] + created + [dest];
        assert Publishes(data, a, tree, dest, i);
      }
    }

    /**
     The extension loop: `created` collects the directories moved into place, for the rollback.
     `t0` is the tree before the import, `stage` the profile's staging directory.
     */
    method RestoreExtensions(a: Parsed<Profile<T>>, ghost t0: Tree, ghost stage: Path)
        returns (ok: bool, created: seq<Path>, shared: map<string, Path>)
      requires Described(a) && Closed(t0) && Closed(tree)
      requires At(tree, ExtensionsRoot(data)) == Some(Dir)
      requires Kept(data, a.manifest.extensions, t0, tree, [stage])
      requires Under(stage, ProfilesRoot(data))
      modifies `tree
      ensures Closed(tree)
      ensures Kept(data, a.manifest.extensions, t0, tree, [stage] + created)
      ensures SameBelow(old(tree), tree, stage)
      ensures ok ==> shared == SharedDirs(data, a.manifest.extensions)
      ensures ok ==> DirsPresent(data, a.manifest.extensions, tree, |a.extensions|)
      ensures AllPublished(data, a, tree, created)
    {
      created, shared := [], map[];
      var exts := a.manifest.extensions;
      var i := 0;
      assert [stage] + created == [stage];
      while i < |exts|
        invariant 0 <= i <= |exts|
        invariant Closed(tree) && At(tree, ExtensionsRoot(data)) == Some(Dir)
        invariant Kept(data, exts, t0, tree, [stage] + created)
        invariant SameBelow(old(tree), tree, stage)
        invariant shared == SharedDirs(data, exts[..i])
        invariant DirsPresent(data, exts, tree, i)
        invariant AllPublished(data, a, tree, created)
      {
        SharedStep(data, exts, i);
        if SafeSegment(exts[i].id) {
          shared := shared[Key(exts[i].id, exts[i].version) := ExtensionDir(data, exts[i])];
          ok, created := RestoreNext(a, i, created, t0, stage);
          if !ok {
            return;
          }
        }
        i := i + 1;
      }
      assert exts[..i] == exts;
      ok := true;
    }

    /** Moves the filled stage to the profile's directory. */
    method MoveStage(a: Parsed<Profile<T>>, id: string, stage: Path, created: seq<Path>, ghost t0: Tree) returns (more: seq<Path>)
      requires Described(a) && Closed(t0) && Closed(tree)
      requires ProfilesRoot(data) + [id] !in t0 && ProfilesRoot(data) + [id] !in tree
      requires TemporaryIn(stage, ProfilesRoot(data)) && !Under(ProfilesRoot(data) + [id], stage) && !Under(stage, ProfilesRoot(data) + [id])
      requires Kept(data, a.manifest.extensions, t0, tree, [stage] + created) && AllPublished(data, a, tree, created)
      requires Restored(tree, stage, a.manifest.files, a.files)
      requires DirsPresent(data, a.manifest.extensions, tree, |a.extensions|)
      modifies `tree
      ensures Closed(tree) && stage !in tree
      ensures more == created + [ProfilesRoot(data) + [id]]
      ensures Kept(data, a.manifest.extensions, t0, tree, [stage] + more)
      ensures Restored(tree, ProfilesRoot(data) + [id], a.manifest.files, a.files)
      ensures AllPublished(data, a, tree, created) && DirsPresent(data, a.manifest.extensions, tree, |a.extensions|)
    {
      var dest := ProfilesRoot(data) + [id];
      assert Parent(dest) == ProfilesRoot(data);
      ghost var t := tree;
      StageMoved(data, a, t0, t, stage, created, dest);
      AncestorIsDir(t, ProfilesRoot(data), stage);
      RenamedClosed(t, stage, dest);
      Moved(t, stage, dest, a.manifest.files, a.files);
      tree := Renamed(tree, stage, dest);
      more := created + [dest];
      assert [stage] + more == [stage] + created + [dest];
    }

    /** The end of ImportArchive: move the stage into place, insert the row, commit. */
    method Commit(a: Parsed<Profile<T>>, id: string, stage: Path, created: seq<Path>, dirs: seq<Option<Path>>, ghost t0: Tree)
        returns (ok: bool, more: seq<Path>)
      requires Described(a) && Closed(t0) && Closed(tree)
      requires ProfilesRoot(data) + [id] !in t0 && ProfilesRoot(data) + [id] !in tree
      requires TemporaryIn(stage, ProfilesRoot(data)) && !Under(ProfilesRoot(data) + [id], stage) && !Under(stage, ProfilesRoot(data) + [id])
      requires Kept(data, a.manifest.extensions, t0, tree, [stage] + created) && AllPublished(data, a, tree, created)
      requires Restored(tree, stage, a.manifest.files, a.files)
      requires DirsPresent(data, a.manifest.extensions, tree, |a.extensions|)
      modifies `tree, `rows
      ensures Closed(tree)
      ensures Kept(data, a.manifest.extensions, t0, tree, [stage] + more)
      ensures !ok ==> rows == old(rows)
      ensures ok ==> more == created + [ProfilesRoot(data) + [id]] && stage !in tree
      ensures ok ==> rows == old(rows)[id := Row(id, ProfilesRoot(data) + [id], dirs, a.profile)]
      ensures ok ==> Restored(tree, ProfilesRoot(data) + [id], a.manifest.files, a.files)
      ensures ok ==> AllPublished(data, a, tree, created) && DirsPresent(data, a.manifest.extensions, tree, |a.extensions|)
    {
      var dest := ProfilesRoot(data) + [id];
      var failed := Fails();
      if failed {
        return false, created;
      }
      more := MoveStage(a, id, stage, created, t0);
      failed := Fails();
      if failed {
        return false, more;
      }
      failed := Fails();
      if failed {
        return false, more;
      }
      rows := rows[id := Row(id, dest, dirs, a.profile)];
      return true, more;
    }

    /**
     ImportArchive once the staging directory is there: fill it, restore the extensions, move the
     stage into place, insert and commit the row. Early returns leave the clean-up to the caller.
     */
    method Restore(a: Parsed<Profile<T>>, id: string, stage: Path, ghost t0: Tree) returns (ok: bool, created: seq<Path>)
      requires Described(a) && Closed(t0) && Closed(tree)
      requires SafeSegment(id) && ProfilesRoot(data) + [id] !in tree
      requires At(tree, ExtensionsRoot(data)) == Some(Dir)
      requires TemporaryIn(stage, ProfilesRoot(data)) && At(tree, stage) == Some(Dir)
      requires forall x: Path :: x != [] ==> stage + x !in tree
      requires Kept(data, a.manifest.extensions, t0, tree, [stage])
      modifies `tree, `rows
      ensures Closed(tree)
      ensures Kept(data, a.manifest.extensions, t0, tree, [stage] + created)
      ensures !ok ==> rows == old(rows)
      ensures ok ==> ProfilesRoot(data) + [id] !in t0 && rows == old(rows)[id := NewRow(data, a, id)]
      ensures ok ==> |created| > 0 && created[|created| - 1] == ProfilesRoot(data) + [id] && stage !in tree
      ensures ok ==> Restored(tree, ProfilesRoot(data) + [id], a.manifest.files, a.files)
      ensures ok ==> AllPublished(data, a, tree, created[..|created| - 1])
      ensures ok ==> DirsPresent(data, a.manifest.extensions, tree, |a.extensions|)
    {
      created := [];
      assert [stage] + created == [stage];
      var dest := ProfilesRoot(data) + [id];
      assert stage[|data| + 1] != id && dest[|data| + 1] == id;
      Apart(stage, dest, |data| + 1);
      ghost var t1 := tree;
      ok := Fill(stage, a.manifest.files, a.files);
      KeptInside(data, a.manifest.extensions, t0, t1, [stage], tree, stage);
      if !ok {
        return;
      }
      ghost var t2 := tree;
      assert At(t2, dest) == At(t1, dest);
      var shared;
      ok, created, shared := RestoreExtensions(a, t0, stage);
      if !ok {
        return;
      }
      HoldsFrame(t2, stage, tree, stage, a.manifest.files, a.files, |a.files|);
      DestIsUnused(data, a, t0, t2, tree, stage, created, id);
      var dirs := Redirected(a.profile.extensions, a.profile.dataDir, dest, shared);
      ghost var before := created;
      ok, created := Commit(a, id, stage, created, dirs, t0);
      assert ok ==> created[..|created| - 1] == before;
    }

    /** The deferred removal of what was created, last first. */
    method RollBack(created: seq<Path>)
      requires Closed(tree) && [] !in created
      modifies `tree
      ensures Closed(tree)
      ensures forall p :: At(tree, p) == if Covered(p, created) then None else At(old(tree), p)
    {
      var i := |created|;
      assert created[i..] == [];
      while i > 0
        invariant 0 <= i <= |created|
        invariant Closed(tree)
        invariant forall p :: At(tree, p) == if Covered(p, created[i..]) then None else At(old(tree), p)
      {
        i := i - 1;
        ghost var was := tree;
        tree := RemoveAll(tree, created[i]);
        forall p ensures Covered(p, created[i..]) <==> Under(p, created[i]) || Covered(p, created[i + 1..]) {
          assert created[i..] == [created[i]] + created[i + 1..];
          CoveredFirst(p, created[i], created[i + 1..]);
        }
      }
      assert created[0..] == created;
    }

    /** Everything ImportArchive does to the store with a parsed archive, clean-up included. */
    method ImportParsed(a: Parsed<Profile<T>>) returns (r: Result<string, ImportError>)
      requires Described(a) && Closed(tree)
      modifies `tree, `rows
      ensures Closed(tree)
      ensures r.Err? ==> rows == old(rows) && Refused(data, a.manifest.extensions, old(tree), tree)
      ensures r.Ok? ==> Imported(data, a, old(tree), old(rows), tree, rows, r.value)
    {
      ghost var t0, exts := tree, a.manifest.extensions;
      var ok := EnsureDirectory(ProfilesRoot(data));
      KeptAncestors(data, exts, t0, t0, [], tree, ProfilesRoot(data));
      if !ok {
        return Err(FileSystem);
      }
      ghost var t1 := tree;
      ok := EnsureDirectory(ExtensionsRoot(data));
      KeptAncestors(data, exts, t0, t1, [], tree, ExtensionsRoot(data));
      if !ok {
        return Err(FileSystem);
      }
      var id := ChooseId(a.profile.id);
      if id.None? {
        return Err(NoIdentity);
      }
      assert At(tree, ProfilesRoot(data)) == At(t1, ProfilesRoot(data));
      ghost var t2 := tree;
      var stage := MakeTemporary(ProfilesRoot(data));
      if stage.None? {
        return Err(FileSystem);
      }
      FreshIsEmpty(t2, tree, stage.value);
      KeptAdded(data, exts, t0, t2, [], tree, stage.value, ProfilesRoot(data));
      assert [] + [stage.value] == [stage.value];
      assert stage.value[|data| + 1] != id.value && (ProfilesRoot(data) + [id.value])[|data| + 1] == id.value;
      var created;
      ok, created := Restore(a, id.value, stage.value, t0);
      ghost var t3 := tree;
      NeverTheRoot(data, exts, t0, t3, [stage.value] + created);
      if !ok {
        RollBack(created);
      }
      ghost var t4 := tree;
      tree := RemoveAll(tree, stage.value);
      if !ok {
        RolledBack(data, exts, t0, t3, stage.value, created, tree);
        return Err(Database);
      }
      Completed(data, a, t0, t3, stage.value, created, tree, id.value);
      return Ok(id.value);
    }

    /** ImportArchive on the bytes of an archive file. */
    method ImportArchive(c: Codec<Profile<T>>, cipher: Cipher, passphrase: Bytes, buf: Bytes) returns (r: Result<string, ImportError>)
      requires Closed(tree)
      modifies `tree, `rows
      ensures Closed(tree)
      ensures Opened(c, cipher, passphrase, buf).Err? ==>
                r == Err(Archive(Opened(c, cipher, passphrase, buf).error)) && tree == old(tree) && rows == old(rows)
      ensures Opened(c, cipher, passphrase, buf).Ok? && r.Err? ==>
                rows == old(rows) && Refused(data, Opened(c, cipher, passphrase, buf).value.manifest.extensions, old(tree), tree)
      ensures r.Ok? ==>
                var archive := Opened(c, cipher, passphrase, buf);
                archive.Ok? && Described(archive.value) && Imported(data, archive.value, old(tree), old(rows), tree, rows, r.value)
    {
      var plain := Decrypt(cipher, passphrase, buf);
      if plain.Err? {
        return Err(Archive(plain.error));
      }
      var reader := new Reader(plain.value);
      var parsed := reader.ParseArchive(c);
      if parsed.Err? {
        return Err(Archive(parsed.error));
      }
      ParseIff(c, plain.value, parsed.value);
      r := ImportParsed(parsed.value);
    }
  }

  /** Only the extension's own directory appeared, with what was missing above it. */
  ghost predicate ExtensionAdded(data: Path, t0: Tree, t: Tree, ext: ExtensionMeta) {
    var dest := ExtensionDir(data, ext);
    && dest !in t0
    && forall p :: Under(p, dest) || At(t, p) == At(t0, p) || (Under(Parent(dest), p) && NewDir(t0, t, p))
  }

  lemma FreshIsEmpty(t0: Tree, t: Tree, temp: Path)
    requires Closed(t0) && temp !in t0 && t == t0[temp := Dir]
    ensures forall x: Path :: x != [] ==> temp + x !in t
    ensures OnlyInside(t0, t, temp)
  {
    forall x: Path | x != []
      ensures temp + x !in t
    {
      NothingBelow(t0, temp, temp + x);
      assert |temp + x| > |temp|;
    }
  }

  lemma DroppedTemporary(t1: Tree, t2: Tree, t3: Tree, temp: Path, t: Tree)
    requires Closed(t1) && temp !in t1 && OnlyInside(t1, t2, temp) && OnlyInside(t2, t3, temp) && t == RemoveAll(t3, temp)
    ensures forall p :: At(t, p) == At(t1, p)
  {
    forall p
      ensures At(t, p) == At(t1, p)
    {
      if Under(p, temp) {
        NothingBelow(t1, temp, p);
      }
    }
  }

  /** Two paths that part company at position n are unrelated. */
  lemma Apart(p: Path, q: Path, n: nat)
    requires n < |p| && n < |q| && p[n] != q[n]
    ensures !Under(p, q) && !Under(q, p)
    ensures forall r :: !(Under(r, p) && Under(r, q))
  {}

  lemma Moved(t: Tree, from: Path, to: Path, files: seq<FileMeta>, contents: seq<Bytes>)
    requires |files| == |contents| && Restored(t, from, files, contents)
    ensures Restored(Renamed(t, from, to), to, files, contents)
  {
    forall x: Path
      ensures At(Renamed(t, from, to), to + x) == At(t, from + x)
    {
      RenamedAt(t, from, to, to + x);
      assert (to + x)[|to|..] == x;
    }
    HoldsFrame(t, from, Renamed(t, from, to), to, files, contents, |files|);
  }

  lemma MovedTemporary(t1: Tree, t2: Tree, t3: Tree, temp: Path, dest: Path)
    requires Closed(t1) && temp !in t1 && OnlyInside(t1, t2, temp) && OnlyInside(t2, t3, temp)
    ensures OnlyInside(t1, Renamed(t3, temp, dest), dest)
  {
    forall p
      ensures Under(p, dest) || At(Renamed(t3, temp, dest), p) == At(t1, p)
    {
      RenamedAt(t3, temp, dest, p);
      if Under(p, temp) {
        NothingBelow(t1, temp, p);
      }
    }
  }

  /** Directories made on the way to a file below `root` are below `root`. */
  lemma Ancestors(t0: Tree, t: Tree, root: Path, x: Path)
    requires Closed(t0) && At(t0, root) == Some(Dir) && x != [] && OnlyAncestors(t0, t, Parent(root + x))
    ensures OnlyInside(t0, t, root)
  {
    forall p
      ensures Under(p, root) || At(t, p) == At(t0, p)
    {
      if !Under(p, root) && Under(Parent(root + x), p) {
        assert Under(root, p);
        AncestorIsDir(t0, p, root);
      }
    }
  }

  /** A directory published earlier is not the one being added, so it keeps its files. */
  lemma SiblingKept<T>(data: Path, a: Parsed<Profile<T>>, t: Tree, t': Tree, ext: ExtensionMeta, dir: Path)
    requires Described(a) && Published(data, a, t, dir)
    requires ExtensionAdded(data, t, t', ext) || OnlyAncestors(t, t', Parent(ExtensionDir(data, ext)))
    ensures Published(data, a, t', dir)
  {
    var j :| Publishes(data, a, t, dir, j);
    var dest := ExtensionDir(data, ext);
    forall x: Path
      ensures At(t', dir + x) == At(t, dir + x)
    {
      if dir != dest {
        assert |dir| == |dest| == |ExtensionsRoot(data)| + 2;
        Unrelated(t, t', dest, dir, x);
      } else {
        assert |dir + x| >= |dest| && !Under(Parent(dest), dir + x);
      }
    }
    PublishesFrame(data, a, t, t', dir, j);
  }

  lemma SiblingsKept<T>(data: Path, a: Parsed<Profile<T>>, t: Tree, t': Tree, ext: ExtensionMeta, created: seq<Path>)
    requires Described(a) && AllPublished(data, a, t, created)
    requires ExtensionAdded(data, t, t', ext) || OnlyAncestors(t, t', Parent(ExtensionDir(data, ext)))
    ensures AllPublished(data, a, t', created)
  {
    forall k | 0 <= k < |created|
      ensures Published(data, a, t', created[k])
    {
      SiblingKept(data, a, t, t', ext, created[k]);
    }
  }

  lemma StageKept(data: Path, t: Tree, t': Tree, ext: ExtensionMeta, stage: Path)
    requires Under(stage, ProfilesRoot(data))
    requires ExtensionAdded(data, t, t', ext) || OnlyAncestors(t, t', Parent(ExtensionDir(data, ext)))
    ensures SameBelow(t, t', stage)
  {
    RootsApart(data, stage, ext);
    forall x: Path
      ensures At(t', stage + x) == At(t, stage + x)
    {
      Unrelated(t, t', ExtensionDir(data, ext), stage, x);
    }
  }

  lemma KeptExtension(data: Path, exts: seq<ExtensionMeta>, i: int, t0: Tree, t: Tree, added: seq<Path>, t': Tree, published: bool)
    requires 0 <= i < |exts| && SafeSegment(exts[i].id) && Closed(t0) && Kept(data, exts, t0, t, added)
    requires if published then ExtensionAdded(data, t, t', exts[i]) else OnlyAncestors(t, t', Parent(ExtensionDir(data, exts[i])))
    ensures Kept(data, exts, t0, t', if published then added + [ExtensionDir(data, exts[i])] else added)
  {
    var dest := ExtensionDir(data, exts[i]);
    forall p | Under(Parent(dest), p)
      ensures Leftover(data, exts, p)
    {
      LeftoverParents(data, exts, i, p);
    }
    if published {
      KeptAdded(data, exts, t0, t, added, t', dest, Parent(dest));
    } else {
      KeptAncestors(data, exts, t0, t, added, t', Parent(dest));
    }
  }

  /** The profile's directory is still free when the stage is about to be moved there. */
  lemma DestIsUnused<T>(data: Path, a: Parsed<Profile<T>>, t0: Tree, t1: Tree, t: Tree, stage: Path, created: seq<Path>, id: string)
    requires Described(a) && AllPublished(data, a, t, created)
    requires Kept(data, a.manifest.extensions, t0, t1, [stage]) && Kept(data, a.manifest.extensions, t0, t, [stage] + created)
    requires ProfilesRoot(data) + [id] !in t1 && !Under(ProfilesRoot(data) + [id], stage)
    ensures ProfilesRoot(data) + [id] !in t && ProfilesRoot(data) + [id] !in t0
  {
    var dest, exts := ProfilesRoot(data) + [id], a.manifest.extensions;
    assert dest[|data|] == "profiles" && forall e: string :: (ExtensionsRoot(data) + [e])[|data|] == "extensions";
    assert !Leftover(data, exts, dest);
    forall k | 0 <= k < |created|
      ensures !Under(dest, created[k])
    {
      var j :| Publishes(data, a, t, created[k], j);
      RootsApart(data, dest, exts[j]);
    }
    assert KeptAt(data, exts, t0, t1, [stage], dest);
    assert KeptAt(data, exts, t0, t, [stage] + created, dest);
    assert forall k :: 0 < k < |[stage] + created| ==> ([stage] + created)[k] == created[k - 1];
  }

  /** Moving the stage to its place adds that place and disturbs no extension. */
  lemma StageMoved<T>(data: Path, a: Parsed<Profile<T>>, t0: Tree, t: Tree, stage: Path, created: seq<Path>, dest: Path)
    requires Described(a) && AllPublished(data, a, t, created)
    requires Closed(t0) && Kept(data, a.manifest.extensions, t0, t, [stage] + created) && dest !in t && dest !in t0
    requires Under(stage, ProfilesRoot(data)) && Under(dest, ProfilesRoot(data)) && !Under(stage, dest)
    ensures Kept(data, a.manifest.extensions, t0, Renamed(t, stage, dest), [stage] + created + [dest])
    ensures stage !in Renamed(t, stage, dest)
    ensures AllPublished(data, a, Renamed(t, stage, dest), created)
    ensures forall i :: 0 <= i < |a.extensions| ==>
              At(Renamed(t, stage, dest), ExtensionDir(data, a.manifest.extensions[i])) == At(t, ExtensionDir(data, a.manifest.extensions[i]))
  {
    var t', exts := Renamed(t, stage, dest), a.manifest.extensions;
    RenamedAt(t, stage, dest, stage);
    var added := [stage] + created;
    forall p
      ensures KeptAt(data, exts, t0, t', added + [dest], p)
    {
      assert KeptAt(data, exts, t0, t, added, p);
      RenamedAt(t, stage, dest, p);
      CoveredMore(p, added, dest);
      assert Under(p, stage) ==> Under(p, added[0]);
      if Under(p, dest) {
        NothingBelow(t0, dest, p);
      }
    }
    forall ext: ExtensionMeta, x: Path
      ensures At(t', ExtensionDir(data, ext) + x) == At(t, ExtensionDir(data, ext) + x)
    {
      var p := ExtensionDir(data, ext) + x;
      RenamedAt(t, stage, dest, p);
      assert p[|data|] == "extensions" && stage[|data|] == ProfilesRoot(data)[|data|] == "profiles" && dest[|data|] == "profiles";
    }
    forall i | 0 <= i < |a.extensions|
      ensures At(t', ExtensionDir(data, exts[i])) == At(t, ExtensionDir(data, exts[i]))
    {
      assert ExtensionDir(data, exts[i]) + [] == ExtensionDir(data, exts[i]);
    }
    forall k | 0 <= k < |created|
      ensures Published(data, a, t', created[k])
    {
      var j :| Publishes(data, a, t, created[k], j);
      PublishesFrame(data, a, t, t', created[k], j);
    }
  }

  lemma OldKept(data: Path, t: Tree, t': Tree, ext: ExtensionMeta)
    requires Closed(t) && (ExtensionAdded(data, t, t', ext) || OnlyAncestors(t, t', Parent(ExtensionDir(data, ext))))
    ensures forall p :: p in t ==> At(t', p) == At(t, p)
  {
    var dest := ExtensionDir(data, ext);
    forall p | p in t
      ensures At(t', p) == At(t, p)
    {
      if dest !in t && Under(p, dest) {
        NothingBelow(t, dest, p);
      }
    }
  }

  lemma CoveredFirst(p: Path, first: Path, rest: seq<Path>)
    ensures Covered(p, [first] + rest) <==> Under(p, first) || Covered(p, rest)
  {
    assert ([first] + rest)[0] == first;
    assert forall i :: 0 <= i < |rest| ==> ([first] + rest)[i + 1] == rest[i];
  }

  lemma NeverTheRoot(data: Path, exts: seq<ExtensionMeta>, t0: Tree, t: Tree, added: seq<Path>)
    requires Closed(t0) && Kept(data, exts, t0, t, added)
    ensures [] !in added
  {
    assert KeptAt(data, exts, t0, t, added, []);
    assert [] in added ==> Covered([], added);
  }

  /** Once what was created and the stage are gone, only leftover directories remain. */
  lemma RolledBack(data: Path, exts: seq<ExtensionMeta>, t0: Tree, t: Tree, stage: Path, created: seq<Path>, t': Tree)
    requires Kept(data, exts, t0, t, [stage] + created)
    requires forall p :: At(t', p) == if Under(p, stage) || Covered(p, created) then None else At(t, p)
    ensures Refused(data, exts, t0, t')
  {
    forall p
      ensures KeptAt(data, exts, t0, t', [], p)
    {
      CoveredFirst(p, stage, created);
      assert KeptAt(data, exts, t0, t, [stage] + created, p);
    }
  }

  /** A restore that went through is a completed import once the (moved) stage is removed. */
  lemma Completed<T>(data: Path, a: Parsed<Profile<T>>, t0: Tree, t: Tree, stage: Path, created: seq<Path>, t': Tree, id: string)
    requires Described(a) && Closed(t) && Kept(data, a.manifest.extensions, t0, t, [stage] + created) && stage !in t
    requires t' == RemoveAll(t, stage)
    requires |created| > 0 && created[|created| - 1] == ProfilesRoot(data) + [id]
    requires AllPublished(data, a, t, created[..|created| - 1]) && DirsPresent(data, a.manifest.extensions, t, |a.extensions|)
    ensures t' == t
    ensures forall p :: p in t0 ==> At(t, p) == At(t0, p)
    ensures ExtensionsPresent(data, a, t0, t)
    ensures forall p :: p in t && p !in t0 ==>
              || Under(p, ProfilesRoot(data) + [id])
              || InNewExtension(data, a.manifest.extensions, t0, p)
              || (Leftover(data, a.manifest.extensions, p) && t[p] == Dir)
  {
    var exts, dest, dirs := a.manifest.extensions, ProfilesRoot(data) + [id], created[..|created| - 1];
    NothingLeftToRemove(t, stage);
    assert created == dirs + [dest];
    forall p
      ensures p in t0 ==> At(t, p) == At(t0, p)
      ensures p in t && p !in t0 ==> Under(p, dest) || InNewExtension(data, exts, t0, p) || (Leftover(data, exts, p) && t[p] == Dir)
    {
      Accounted(data, a, t0, t, stage, dirs, dest, p);
    }
    forall i | 0 <= i < |a.extensions| && SafeSegment(exts[i].id) && ExtensionDir(data, exts[i]) !in t0
      ensures Published(data, a, t, ExtensionDir(data, exts[i]))
    {
      NewExtensionCovered(data, a, t0, t, stage, dirs, id, i);
      ExtensionCovered(data, a, t, dirs, i);
    }
  }

  lemma NothingLeftToRemove(t: Tree, stage: Path)
    requires Closed(t) && stage !in t
    ensures RemoveAll(t, stage) == t
  {
    forall p | p in t
      ensures !Under(p, stage)
    {
      if Under(p, stage) {
        NothingBelow(t, stage, p);
      }
    }
  }

  /** Every path is as it was, or below something published, or a leftover directory. */
  lemma Accounted<T>(data: Path, a: Parsed<Profile<T>>, t0: Tree, t: Tree, stage: Path, dirs: seq<Path>, dest: Path, p: Path)
    requires Described(a) && Closed(t) && Kept(data, a.manifest.extensions, t0, t, [stage] + (dirs + [dest])) && stage !in t
    requires AllPublished(data, a, t, dirs)
    ensures p in t0 ==> At(t, p) == At(t0, p)
    ensures p in t && p !in t0 ==> Under(p, dest) || InNewExtension(data, a.manifest.extensions, t0, p) || (Leftover(data, a.manifest.extensions, p) && t[p] == Dir)
  {
    var exts, added := a.manifest.extensions, [stage] + (dirs + [dest]);
    assert KeptAt(data, exts, t0, t, added, p);
    CoveredFirst(p, stage, dirs + [dest]);
    CoveredMore(p, dirs, dest);
    if Under(p, stage) {
      NothingBelow(t, stage, p);
    }
    if Covered(p, dirs) {
      var k :| 0 <= k < |dirs| && Under(p, dirs[k]);
      var j :| Publishes(data, a, t, dirs[k], j);
      assert KeptAt(data, exts, t0, t, added, dirs[k]);
      assert added[k + 1] == dirs[k] && Covered(dirs[k], added);
      assert InNewExtension(data, exts, t0, p);
    }
  }

  lemma NewExtensionCovered<T>(data: Path, a: Parsed<Profile<T>>, t0: Tree, t: Tree, stage: Path, dirs: seq<Path>, id: string, i: int)
    requires Described(a) && 0 <= i < |a.extensions| && Closed(t) && stage !in t
    requires Kept(data, a.manifest.extensions, t0, t, [stage] + (dirs + [ProfilesRoot(data) + [id]]))
    requires ExtensionDir(data, a.manifest.extensions[i]) in t && ExtensionDir(data, a.manifest.extensions[i]) !in t0
    ensures Covered(ExtensionDir(data, a.manifest.extensions[i]), dirs)
  {
    var exts, dest, dir := a.manifest.extensions, ProfilesRoot(data) + [id], ExtensionDir(data, a.manifest.extensions[i]);
    RootsApart(data, dest, exts[i]);
    assert |dir| == |data| + 3 && dir[|data|] == "extensions" && !Leftover(data, exts, dir);
    assert KeptAt(data, exts, t0, t, [stage] + (dirs + [dest]), dir);
    CoveredFirst(dir, stage, dirs + [dest]);
    CoveredMore(dir, dirs, dest);
    if Under(dir, stage) {
      NothingBelow(t, stage, dir);
    }
  }

  lemma ExtensionCovered<T>(data: Path, a: Parsed<Profile<T>>, t: Tree, dirs: seq<Path>, i: int)
    requires Described(a) && 0 <= i < |a.extensions| && AllPublished(data, a, t, dirs)
    requires Covered(ExtensionDir(data, a.manifest.extensions[i]), dirs)
    ensures Published(data, a, t, ExtensionDir(data, a.manifest.extensions[i]))
  {
    var dir := ExtensionDir(data, a.manifest.extensions[i]);
    var k :| 0 <= k < |dirs| && Under(dir, dirs[k]);
    var j :| Publishes(data, a, t, dirs[k], j);
    assert |dir| == |dirs[k]|;
    assert dir == dirs[k];
  }

  lemma SharedStep(data: Path, exts: seq<ExtensionMeta>, i: int)
    requires 0 <= i < |exts|
    ensures SharedDirs(data, exts[..i + 1]) ==
              if SafeSegment(exts[i].id) then SharedDirs(data, exts[..i])[Key(exts[i].id, exts[i].version) := ExtensionDir(data, exts[i])]
              else SharedDirs(data, exts[..i])
  {
    assert exts[..i + 1][..i] == exts[..i] && exts[..i + 1][i] == exts[i];
  }

  // ----- where the references of an imported profile land -----

  /** Keys of names without a zero byte are unambiguous, safe or not. */
  lemma KeyWithout(id: string, version: string, id': string, version': string)
    requires '\0' !in id && SafeSegment(id') && Key(id, version) == Key(id', version')
    ensures id == id' && version == version'
  {
    var key := Key(id, version);
    assert key[|id|] == '\0' && Key(id', version')[|id'|] == '\0';
    assert forall i :: 0 <= i < |id| ==> key[i] == id[i] != '\0';
    assert forall i :: 0 <= i < |id'| ==> Key(id', version')[i] == id'[i] != '\0';
    assert |id| == |id'|;
    assert id == key[..|id|] && id' == Key(id', version')[..|id'|];
    assert version == key[|id| + 1..] && version' == Key(id', version')[|id'| + 1..];
  }

  /** No safe id contains one. */
  lemma KeyInjective(id: string, version: string, id': string, version': string)
    requires SafeSegment(id) && SafeSegment(id') && Key(id, version) == Key(id', version')
    ensures id == id' && version == version'
  {
    KeyWithout(id, version, id', version');
  }

  lemma {:induction false} SharedDirsHas(data: Path, exts: seq<ExtensionMeta>, i: int)
    requires 0 <= i < |exts| && SafeSegment(exts[i].id)
    ensures Key(exts[i].id, exts[i].version) in SharedDirs(data, exts)
    ensures SharedDirs(data, exts)[Key(exts[i].id, exts[i].version)] == ExtensionDir(data, exts[i])
  {
    var n := |exts| - 1;
    if i < n {
      SharedDirsHas(data, exts[..n], i);
      if SafeSegment(exts[n].id) && Key(exts[n].id, exts[n].version) == Key(exts[i].id, exts[i].version) {
        KeyInjective(exts[n].id, exts[n].version, exts[i].id, exts[i].version);
      }
    }
  }

  /** A shared reference to an archived extension points at its directory, and that is there. */
  lemma SharedReferenceLands<T>(data: Path, a: Parsed<Profile<T>>, t0: Tree, rows0: map<string, Row<T>>,
                                t: Tree, rows: map<string, Row<T>>, id: string, k: int, i: int)
    requires Described(a) && Imported(data, a, t0, rows0, t, rows, id)
    requires 0 <= k < |a.profile.extensions| && 0 <= i < |a.extensions|
    requires a.profile.extensions[k].shared && SafeSegment(a.manifest.extensions[i].id)
    requires a.profile.extensions[k].id == a.manifest.extensions[i].id
    requires a.profile.extensions[k].version == a.manifest.extensions[i].version
    ensures id in rows && |rows[id].dirs| == |a.profile.extensions|
    ensures
      var ext := a.manifest.extensions[i];
      var dir := data + ["extensions", ext.id, if SafeSegment(ext.version) then ext.version else "0"];
      rows[id].dirs[k] == Some(dir) && At(t, dir) == Some(Dir)
  {
    SharedDirsHas(data, a.manifest.extensions, i);
    ExtensionDirIs(data, a.manifest.extensions[i]);
  }

  lemma {:induction false} SharedDirsOnly(data: Path, exts: seq<ExtensionMeta>, key: string) returns (i: int)
    requires key in SharedDirs(data, exts)
    ensures 0 <= i < |exts| && SafeSegment(exts[i].id) && key == Key(exts[i].id, exts[i].version)
  {
    var n := |exts| - 1;
    if SafeSegment(exts[n].id) && key == Key(exts[n].id, exts[n].version) {
      i := n;
    } else {
      i := SharedDirsOnly(data, exts[..n], key);
    }
  }

  /** A reference is left as it was written exactly if it is to nothing that was archived, or to no place below the old directory. */
  lemma UnchangedReference<T>(data: Path, a: Parsed<Profile<T>>, t0: Tree, rows0: map<string, Row<T>>,
                              t: Tree, rows: map<string, Row<T>>, id: string, k: int)
    requires Described(a) && Imported(data, a, t0, rows0, t, rows, id)
    requires 0 <= k < |a.profile.extensions| && '\0' !in a.profile.extensions[k].id
    ensures id in rows && |rows[id].dirs| == |a.profile.extensions|
    ensures
      var r, exts := a.profile.extensions[k], a.manifest.extensions;
      rows[id].dirs[k] == None <==>
        if r.shared then forall i :: 0 <= i < |exts| && SafeSegment(exts[i].id) ==> (exts[i].id, exts[i].version) != (r.id, r.version)
        else forall rel | ValidPath(rel) :: Slashes(r.dir) != TrimSlashes(Slashes(a.profile.dataDir)) + "/" + rel
  {
    var r, exts := a.profile.extensions[k], a.manifest.extensions;
    var dest, shared := ProfilesRoot(data) + [id], SharedDirs(data, exts);
    assert rows[id] == NewRow(data, a, id) && rows[id].dirs[k] == Redirect(r, a.profile.dataDir, dest, shared);
    if r.shared {
      if Key(r.id, r.version) in shared {
        var i := SharedDirsOnly(data, exts, Key(r.id, r.version));
        KeyWithout(r.id, r.version, exts[i].id, exts[i].version);
      }
      forall i | 0 <= i < |exts| && SafeSegment(exts[i].id) && (exts[i].id, exts[i].version) == (r.id, r.version)
        ensures Key(r.id, r.version) in shared
      {
        SharedDirsHas(data, exts, i);
      }
    } else {
      StaysOutside(r, a.profile.dataDir, dest, shared);
    }
  }

  lemma StaysOutside(r: Reference, oldDir: string, dest: Path, shared: map<string, Path>)
    requires !r.shared
    ensures Redirect(r, oldDir, dest, shared) == None <==>
              forall rel | ValidPath(rel) :: Slashes(r.dir) != TrimSlashes(Slashes(oldDir)) + "/" + rel
  {
    var dir, base := Slashes(r.dir), TrimSlashes(Slashes(oldDir)) + "/";
    if base <= dir {
      assert dir == base + dir[|base|..];
    }
    forall rel | ValidPath(rel) && dir == base + rel
      ensures Redirect(r, oldDir, dest, shared) != None
    {
      RedirectsInside(r, oldDir, dest, shared, rel);
    }
  }

  /** The old directory with every backslash a slash, less the slashes at its end. */
  lemma {:induction false} OldDirIs(s: string)
    ensures |Slashes(s)| == |s|
    ensures forall i :: 0 <= i < |s| ==> Slashes(s)[i] == if s[i] == '\\' then '/' else s[i]
    ensures TrimSlashes(s) <= s && forall i :: |TrimSlashes(s)| <= i < |s| ==> s[i] == '/'
    ensures TrimSlashes(s) != "" ==> TrimSlashes(s)[|TrimSlashes(s)| - 1] != '/'
    decreases |s|
  {
    if s != "" && s[|s| - 1] == '/' {
      OldDirIs(s[..|s| - 1]);
    }
  }

  /** Entries j and i of one id are restored to one directory. */
  predicate SameDirectory(data: Path, x: ExtensionMeta, y: ExtensionMeta) {
    && SafeSegment(x.id) && x.id == y.id
    && (x.version == y.version || (!SafeSegment(x.version) && (y.version == "0" || !SafeSegment(y.version)))
        || (x.version == "0" && !SafeSegment(y.version)))
  }

  lemma SameDirectoryIff(data: Path, x: ExtensionMeta, y: ExtensionMeta)
    requires SafeSegment(x.id) && SafeSegment(y.id)
    ensures ExtensionDir(data, x) == ExtensionDir(data, y) <==> SameDirectory(data, x, y)
  {
    assert SafeSegment("0");
    var d, e := ExtensionDir(data, x), ExtensionDir(data, y);
    assert d[|data| + 1] == x.id && d[|data| + 2] == VersionSegment(x.version);
    assert e[|data| + 1] == y.id && e[|data| + 2] == VersionSegment(y.version);
  }

  /**
   An entry with a safe id that is the first to go to its directory, where nothing was before the
   import, has exactly its own files there: under its own version if that is a safe segment.
   */
  lemma OwnFilesAtOwnPath<T>(data: Path, a: Parsed<Profile<T>>, t0: Tree, rows0: map<string, Row<T>>,
                             t: Tree, rows: map<string, Row<T>>, id: string, i: int)
    requires Described(a) && Imported(data, a, t0, rows0, t, rows, id)
    requires 0 <= i < |a.extensions| && SafeSegment(a.manifest.extensions[i].id)
    requires forall j :: 0 <= j < i ==> !SameDirectory(data, a.manifest.extensions[j], a.manifest.extensions[i])
    ensures
      var ext := a.manifest.extensions[i];
      var dir := data + ["extensions", ext.id, if SafeSegment(ext.version) then ext.version else "0"];
      dir !in t0 ==> Restored(t, dir, ext.files, a.extensions[i])
  {
    var exts := a.manifest.extensions;
    var dir := ExtensionDir(data, exts[i]);
    ExtensionDirIs(data, exts[i]);
    if dir !in t0 {
      var j :| Publishes(data, a, t, dir, j);
      assert i >= j;
      SameDirectoryIff(data, exts[j], exts[i]);
    }
  }

  /** The row's own directory, and what is in it. */
  lemma ProfileLands<T>(data: Path, a: Parsed<Profile<T>>, t0: Tree, rows0: map<string, Row<T>>,
                        t: Tree, rows: map<string, Row<T>>, id: string)
    requires Described(a) && Imported(data, a, t0, rows0, t, rows, id)
    ensures id in rows && rows[id].id == id && rows[id].profile == a.profile && rows[id].dataDir == data + ["profiles", id]
    ensures data + ["profiles", id] !in t0 && Restored(t, data + ["profiles", id], a.manifest.files, a.files)
  {
    assert data + ["profiles"] + [id] == data + ["profiles", id];
  }

  /**
   A private reference into the exporting machine's data directory, at relative path `rel`, points
   into the new one: every archived file below `rel` is found below it with its contents.
   */
  lemma PrivateReferenceLands<T>(data: Path, a: Parsed<Profile<T>>, t0: Tree, rows0: map<string, Row<T>>,
                                 t: Tree, rows: map<string, Row<T>>, id: string, k: int, rel: string, j: int, sub: string)
    requires Described(a) && Imported(data, a, t0, rows0, t, rows, id)
    requires 0 <= k < |a.profile.extensions| && !a.profile.extensions[k].shared
    requires ValidPath(rel) && Slashes(a.profile.extensions[k].dir) == TrimSlashes(Slashes(a.profile.dataDir)) + "/" + rel
    requires 0 <= j < |a.files| && a.manifest.files[j].path == rel + "/" + sub
    ensures id in rows && |rows[id].dirs| == |a.profile.extensions| && rows[id].dirs[k].Some?
    ensures Under(rows[id].dirs[k].value, rows[id].dataDir)
    ensures At(t, rows[id].dirs[k].value + Split(sub, '/')) == Some(File(a.files[j]))
  {
    var dest := ProfilesRoot(data) + [id];
    assert rows[id] == NewRow(data, a, id);
    RedirectsInside(a.profile.extensions[k], a.profile.dataDir, dest, SharedDirs(data, a.manifest.extensions), rel);
    FileBelow(t, dest, a.manifest.files, a.files, rel, j, sub);
  }

  lemma RedirectsInside(r: Reference, oldDir: string, dest: Path, shared: map<string, Path>, rel: string)
    requires !r.shared && ValidPath(rel) && Slashes(r.dir) == TrimSlashes(Slashes(oldDir)) + "/" + rel
    ensures Redirect(r, oldDir, dest, shared) == Some(dest + Split(rel, '/'))
  {
    var base := TrimSlashes(Slashes(oldDir)) + "/";
    assert Slashes(r.dir)[|base|..] == rel;
  }

  lemma FileBelow(t: Tree, root: Path, files: seq<FileMeta>, contents: seq<Bytes>, rel: string, j: int, sub: string)
    requires |files| == |contents| && Restored(t, root, files, contents)
    requires 0 <= j < |files| && files[j].path == rel + "/" + sub
    ensures At(t, root + Split(rel, '/') + Split(sub, '/')) == Some(File(contents[j]))
  {
    SplitConcat(rel, sub, '/');
    assert root + Split(rel, '/') + Split(sub, '/') == root + PathOf(files[j]);
  }

  // ----- from an export to an import -----

  /** Every file of `files` is below `dir` with its contents, and below it is nothing but these and the directories on their way. */
  ghost predicate Holding(t: Tree, dir: Path, files: seq<SourceFile>) {
    && (forall f :: f in files ==> At(t, dir + Split(f.path, '/')) == Some(File(f.data)))
    && (forall x: Path :: x != [] && dir + x in t ==> ComesFrom(t[dir + x], x, files))
  }

  ghost predicate ComesFrom(node: Node, x: Path, files: seq<SourceFile>) {
    exists f :: f in files && if x == Split(f.path, '/') then node == File(f.data) else x <= Split(f.path, '/') && node == Dir
  }

  lemma CarriedFiles(sha: Hash, t: Tree, dir: Path, metas: seq<FileMeta>, datas: seq<Bytes>, files: seq<SourceFile>)
    requires Carries(sha, metas, datas, files) && Restored(t, dir, metas, datas)
    ensures Holding(t, dir, files)
  {
    forall f | f in files
      ensures At(t, dir + Split(f.path, '/')) == Some(File(f.data))
    {
      var i :| 0 <= i < |files| && files[i] == f;
      assert PathOf(metas[i]) == Split(f.path, '/');
    }
    forall x: Path | x != [] && dir + x in t
      ensures ComesFrom(t[dir + x], x, files)
    {
      var i :| 0 <= i < |metas| && ExplainedBy(x, t[dir + x], metas[i], datas[i]);
      assert files[i] in files;
    }
  }

  /**
   Export on one machine, import on another: the file opens with its passphrase, and an import of it
   that succeeds has the profile's own files, and no others, in the profile's new directory.
   */
  lemma ExportThenImport<T>(c: Codec<Profile<T>>, cipher: Cipher, passphrase: Bytes, salt: Bytes, nonce: Bytes,
                            profile: Profile<T>, root: Root, exts: seq<SourceExtension>, a: Parsed<Profile<T>>,
                            data: Path, t0: Tree, rows0: map<string, Row<T>>, t: Tree, rows: map<string, Row<T>>, id: string)
    requires |salt| == 16 && |nonce| == 12 && |passphrase| >= 8
    requires WalkedOnce(root) && forall i :: 0 <= i < |exts| ==> WalkedOnce(exts[i].root)
    requires ExportPlain(c, profile, root, exts).Ok?
    requires Faithful(c, Exported(c, profile, CollectFiles(root).value, Included(exts)).manifest)
    requires forall plain :: SealsWell(cipher, passphrase, salt, nonce, plain)
    requires ExportFile(c, cipher, passphrase, salt, nonce, Some(profile), root, exts).Ok?
    requires Opened(c, cipher, passphrase, ExportFile(c, cipher, passphrase, salt, nonce, Some(profile), root, exts).value) == Ok(a)
    requires Described(a) && Imported(data, a, t0, rows0, t, rows, id)
    ensures HoldsExport(c, a, profile, root, exts)
    ensures rows == rows0[id := rows[id]] && rows[id].profile == c.defaults(profile)
    ensures Holding(t, data + ["profiles", id], FilesIn(root))
    ensures forall p :: p in t0 ==> At(t, p) == At(t0, p)
  {
    ArchiveRoundTrip(c, cipher, passphrase, salt, nonce, profile, root, exts);
    ProfileLands(data, a, t0, rows0, t, rows, id);
    CarriedFiles(c.sha, t, data + ["profiles", id], a.manifest.files, a.files, FilesIn(root));
  }

  /** The same for a shared extension, where its directory is new and no earlier one goes there. */
  lemma ExtensionTravels<T>(c: Codec<Profile<T>>, a: Parsed<Profile<T>>, profile: Profile<T>, root: Root, exts: seq<SourceExtension>,
                            data: Path, t0: Tree, rows0: map<string, Row<T>>, t: Tree, rows: map<string, Row<T>>, id: string, i: nat)
    requires HoldsExport(c, a, profile, root, exts) && Described(a) && Imported(data, a, t0, rows0, t, rows, id)
    requires i < |exts| && IsExported(exts[i]) && SafeSegment(exts[i].id) && SafeSegment(exts[i].version)
    requires data + ["extensions", exts[i].id, exts[i].version] !in t0
    requires forall j :: 0 <= j < Position(exts, i) ==>
               !SameDirectory(data, a.manifest.extensions[j], a.manifest.extensions[Position(exts, i)])
    ensures Holding(t, data + ["extensions", exts[i].id, exts[i].version], FilesIn(exts[i].root))
  {
    var k := Position(exts, i);
    assert HoldsExtension(c.sha, a, exts[i], k);
    OwnFilesAtOwnPath(data, a, t0, rows0, t, rows, id, k);
    CarriedFiles(c.sha, t, data + ["extensions", exts[i].id, exts[i].version], a.manifest.extensions[k].files, a.extensions[k], FilesIn(exts[i].root));
  }
}
