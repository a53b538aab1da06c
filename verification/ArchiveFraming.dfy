/**
 The plaintext of a `.mzar` archive and its sealed form: length-prefixed chunks, a manifest
 chunk first, then the contents of the profile's files and of every shared extension.
 JSON, hashing and encryption are parameters.
 */
module ArchiveFraming {
  import opened Common
  import opened Strings

  type Byte = b: int | 0 <= b < 256

  type Bytes = seq<Byte>

  const MAX_CHUNK := 0xFFFF_FFFF
  const MIN_PASSPHRASE := 8   // bytes

  // ----- chunks -----

  function BigEndian32(n: nat): (r: Bytes)
    requires n <= MAX_CHUNK
    ensures |r| == 4
  {
    [n / 256 / 256 / 256, n / 256 / 256 % 256, n / 256 % 256, n % 256]
  }

  function FromBigEndian32(b: Bytes): nat
    requires |b| == 4
  {
    (((b[0] as int) * 256 + b[1] as int) * 256 + b[2] as int) * 256 + b[3] as int
  }

  lemma BigEndianInverse(n: nat, b: Bytes)
    requires n <= MAX_CHUNK && |b| == 4
    ensures FromBigEndian32(BigEndian32(n)) == n
    ensures FromBigEndian32(b) <= MAX_CHUNK && BigEndian32(FromBigEndian32(b)) == b
  {
    var first := b[0] as int * 256 + b[1] as int;
    var second := first * 256 + b[2] as int;
    assert FromBigEndian32(b) / 256 == second && FromBigEndian32(b) % 256 == b[3];
    assert second / 256 == first && second % 256 == b[2];
    assert first / 256 == b[0] && first % 256 == b[1];
  }

  /** Most significant byte first. */
  lemma BigEndianOrder(n: nat, b: Bytes)
    requires n <= MAX_CHUNK && |b| == 4
    ensures FromBigEndian32(b) == b[0] as int * 0x100_0000 + b[1] as int * 0x1_0000 + b[2] as int * 0x100 + b[3] as int
    ensures BigEndian32(n) == b <==> n == b[0] as int * 0x100_0000 + b[1] as int * 0x1_0000 + b[2] as int * 0x100 + b[3] as int
  {
    BigEndianInverse(n, b);
  }

  datatype ArchiveError =
    | ShortPassphrase | NotFound
    | ChunkTooLarge | LengthTruncated | ContentTruncated
    | BadPath | DuplicatePath | ChecksumMismatch
    | TooSmall | NotAnArchive | UnsupportedVersion | WrongPassphrase
    | BadManifestJson | BadManifestHeader | MissingProfile | BadProfile | TrailingContent

  function Chunk(b: Bytes): Bytes
    requires |b| <= MAX_CHUNK
  {
    BigEndian32(|b|) + b
  }

  function PutChunk(out: Bytes, b: Bytes): Result<Bytes, ArchiveError> {
    if |b| > MAX_CHUNK then Err(ChunkTooLarge) else Ok(out + Chunk(b))
  }

  function ReadChunk(plain: Bytes): Result<(Bytes, Bytes), ArchiveError> {
    if |plain| < 4 then Err(LengthTruncated)
    else
      var n := FromBigEndian32(plain[..4]);
      if n > |plain| - 4 then Err(ContentTruncated) else Ok((plain[4..4 + n], plain[4 + n..]))
  }

  /** Reading takes off exactly what putting put on, and only that. */
  lemma ReadChunkIff(plain: Bytes, b: Bytes, rest: Bytes)
    ensures ReadChunk(plain) == Ok((b, rest)) <==> |b| <= MAX_CHUNK && plain == Chunk(b) + rest
  {
    if |b| <= MAX_CHUNK && plain == Chunk(b) + rest {
      BigEndianInverse(|b|, plain[..4]);
      assert plain[..4] == BigEndian32(|b|);
    }
    if ReadChunk(plain) == Ok((b, rest)) {
      BigEndianInverse(0, plain[..4]);
      assert plain == plain[..4] + plain[4..4 + |b|] + plain[4 + |b|..];
    }
  }

  predicate Small(contents: seq<Bytes>) {
    forall i :: 0 <= i < |contents| ==> |contents[i]| <= MAX_CHUNK
  }

  /** All chunks of `contents`, in order. */
  function Chunks(contents: seq<Bytes>): Bytes
    requires Small(contents)
  {
    if contents == [] then [] else Chunk(contents[0]) + Chunks(contents[1..])
  }

  lemma {:induction false} ChunksConcat(a: seq<Bytes>, b: seq<Bytes>)
    requires Small(a) && Small(b)
    ensures Small(a + b) && Chunks(a + b) == Chunks(a) + Chunks(b)
  {
    if a == [] {
      assert a + b == b;
    } else {
      ChunksConcat(a[1..], b);
      assert (a + b)[1..] == a[1..] + b && (a + b)[0] == a[0];
      assert Chunk(a[0]) + (Chunks(a[1..]) + Chunks(b)) == Chunk(a[0]) + Chunks(a[1..]) + Chunks(b);
    }
  }

  lemma Associate(a: Bytes, b: Bytes, c: Bytes)
    ensures a + b + c == a + (b + c)
  {}

  /** Different contents have different plaintexts: the framing decodes uniquely. */
  lemma {:induction false} ChunksInjective(a: seq<Bytes>, b: seq<Bytes>)
    requires Small(a) && Small(b) && Chunks(a) == Chunks(b)
    ensures a == b
  {
    if a != [] && b != [] {
      ReadChunkIff(Chunks(a), a[0], Chunks(a[1..]));
      ReadChunkIff(Chunks(b), b[0], Chunks(b[1..]));
      ChunksInjective(a[1..], b[1..]);
      assert a == [a[0]] + a[1..] && b == [b[0]] + b[1..];
    }
  }

  // ----- paths -----

  predicate ValidPath(path: string) {
    && path != "" && path[0] != '/'
    && (forall i :: 0 <= i < |path| ==> path[i] !in {'\\', ':', '\0'})
    && (forall part :: part in Split(path, '/') ==> part !in {"", ".", ".."})
  }

  /** One ordinary name of a path. */
  predicate CleanPart(part: string) {
    part !in {"", ".", ".."} && forall i :: 0 <= i < |part| ==> part[i] !in {'/', '\\', ':', '\0'}
  }

  /** The valid paths are the ordinary names joined by slashes: relative, and never leading upwards. */
  lemma ValidPathIff(path: string)
    ensures ValidPath(path) <==> forall part :: part in Split(path, '/') ==> CleanPart(part)
    ensures Join(Split(path, '/'), '/') == path
  {
    JoinOfSplit(path, '/');
    PartsAreWhole(path, '/');
    CharsOfParts(path, '/');
    forall part | ValidPath(path) && part in Split(path, '/')
      ensures CleanPart(part)
    {
      assert forall i :: 0 <= i < |part| ==> part[i] in part && part[i] in path;
      assert forall c :: c in path ==> c !in {'\\', ':', '\0'};
    }
    if forall part :: part in Split(path, '/') ==> CleanPart(part) {
      assert Split(path, '/')[0] in Split(path, '/');
      assert path != "";
      if path[0] == '/' {
        FirstPartEmpty(path, '/');
      }
      forall i | 0 <= i < |path|
        ensures path[i] !in {'\\', ':', '\0'}
      {
        if path[i] != '/' {
          var part :| part in Split(path, '/') && path[i] in part;
          assert CleanPart(part);
        }
      }
    }
  }

  lemma {:induction false} CharsOfParts(s: string, separator: char)
    ensures forall i :: 0 <= i < |s| && s[i] != separator ==> exists part :: part in Split(s, separator) && s[i] in part
    ensures forall part, c :: part in Split(s, separator) && c in part ==> c in s
  {
    if s != "" {
      var front, c := s[..|s| - 1], s[|s| - 1];
      var parts := Split(front, separator);
      CharsOfParts(front, separator);
      assert s == front + [c];
      SplitSnoc(front, c, separator);
      var last := parts[|parts| - 1];
      forall i | 0 <= i < |s| && s[i] != separator
        ensures exists part :: part in Split(s, separator) && s[i] in part
      {
        if i < |front| {
          var part :| part in parts && front[i] in part;
          if c != separator && part == last {
            assert last + [c] in Split(s, separator) && s[i] in last + [c];
          } else {
            assert part in Split(s, separator);
          }
        } else {
          assert last + [c] in Split(s, separator) && c in last + [c];
        }
      }
      forall part, d | part in Split(s, separator) && d in part
        ensures d in s
      {
        assert part in parts || part == "" || part == last + [c];
      }
    }
  }

  lemma {:induction false} FirstPartEmpty(s: string, separator: char)
    requires s != "" && s[0] == separator
    ensures Split(s, separator)[0] == "" && |Split(s, separator)| > 1
  {
    if |s| > 1 {
      FirstPartEmpty(s[..|s| - 1], separator);
    }
  }

  // ----- the manifest and its files -----

  datatype FileMeta = FileMeta(path: string, size: nat, sha256: string)

  datatype ExtensionMeta = ExtensionMeta(id: string, version: string, files: seq<FileMeta>)

  datatype Manifest<P> = Manifest(magic: string, version: int, profile: Option<P>,
                                  files: seq<FileMeta>, extensions: seq<ExtensionMeta>)

  type Hash = Bytes -> string

  predicate Matches(sha: Hash, meta: FileMeta, data: Bytes) {
    |data| == meta.size && sha(data) == meta.sha256
  }

  /** verifyFiles with the paths it has seen: contents in order, and what is left. */
  function VerifyFrom(sha: Hash, files: seq<FileMeta>, seen: set<string>, plain: Bytes): Result<(seq<Bytes>, Bytes), ArchiveError> {
    if files == [] then Ok(([], plain))
    else if !ValidPath(files[0].path) then Err(BadPath)
    else if files[0].path in seen then Err(DuplicatePath)
    else
      match ReadChunk(plain)
      case Err(e) => Err(e)
      case Ok((data, rest)) =>
        if !Matches(sha, files[0], data) then Err(ChecksumMismatch)
        else
          match VerifyFrom(sha, files[1..], seen + {files[0].path}, rest)
          case Err(e) => Err(e)
          case Ok((more, left)) => Ok(([data] + more, left))
  }

  function VerifyFiles(sha: Hash, files: seq<FileMeta>, plain: Bytes): Result<(seq<Bytes>, Bytes), ArchiveError> {
    VerifyFrom(sha, files, {}, plain)
  }

  /** Valid paths, no two alike, none seen before. */
  predicate GoodPaths(files: seq<FileMeta>, seen: set<string>) {
    && (forall i :: 0 <= i < |files| ==> ValidPath(files[i].path) && files[i].path !in seen)
    && (forall i, j :: 0 <= i < j < |files| ==> files[i].path != files[j].path)
  }

  predicate Describe(sha: Hash, files: seq<FileMeta>, contents: seq<Bytes>) {
    |files| == |contents| && forall i :: 0 <= i < |files| ==> Matches(sha, files[i], contents[i])
  }

  /**
   verifyFiles succeeds with `contents` and `left` exactly when the paths are good, the contents
   are those the manifest describes, and the plaintext is their chunks followed by `left`.
   */
  lemma {:induction false} VerifyIff(sha: Hash, files: seq<FileMeta>, seen: set<string>, plain: Bytes,
                                     contents: seq<Bytes>, left: Bytes)
    ensures VerifyFrom(sha, files, seen, plain) == Ok((contents, left)) <==>
              GoodPaths(files, seen) && Describe(sha, files, contents) && Small(contents) && plain == Chunks(contents) + left
    decreases |files|, 1
  {
    if files == [] {
      if contents == [] {
        assert Chunks(contents) + left == left;
      }
    } else if contents != [] {
      GoodPathsStep(files, seen);
      DescribeStep(sha, files, contents);
      if Small(contents) {
        Associate(Chunk(contents[0]), Chunks(contents[1..]), left);
        if GoodPaths(files, seen) && Describe(sha, files, contents) && plain == Chunks(contents) + left {
          FilesParse(sha, files, seen, plain, contents, left);
        }
      }
      if VerifyFrom(sha, files, seen, plain) == Ok((contents, left)) {
        FilesParsed(sha, files, seen, plain, contents, left);
      }
    }
  }

  lemma FilesParse(sha: Hash, files: seq<FileMeta>, seen: set<string>, plain: Bytes, contents: seq<Bytes>, left: Bytes)
    requires files != [] && contents != [] && ValidPath(files[0].path) && files[0].path !in seen
    requires Matches(sha, files[0], contents[0]) && |contents[0]| <= MAX_CHUNK
    requires GoodPaths(files[1..], seen + {files[0].path}) && Describe(sha, files[1..], contents[1..]) && Small(contents[1..])
    requires plain == Chunk(contents[0]) + (Chunks(contents[1..]) + left)
    ensures VerifyFrom(sha, files, seen, plain) == Ok((contents, left))
    decreases |files|, 0
  {
    var rest := Chunks(contents[1..]) + left;
    ReadChunkIff(plain, contents[0], rest);
    VerifyIff(sha, files[1..], seen + {files[0].path}, rest, contents[1..], left);
    assert contents == [contents[0]] + contents[1..];
  }

  lemma FilesParsed(sha: Hash, files: seq<FileMeta>, seen: set<string>, plain: Bytes, contents: seq<Bytes>, left: Bytes)
    requires files != [] && contents != [] && VerifyFrom(sha, files, seen, plain) == Ok((contents, left))
    ensures GoodPaths(files, seen) && Describe(sha, files, contents) && Small(contents) && plain == Chunks(contents) + left
    decreases |files|, 0
  {
    var (data, rest) := ReadChunk(plain).value;
    assert contents[0] == data;
    assert contents[1..] == VerifyFrom(sha, files[1..], seen + {files[0].path}, rest).value.0;
    ReadChunkIff(plain, data, rest);
    VerifyIff(sha, files[1..], seen + {files[0].path}, rest, contents[1..], left);
    GoodPathsStep(files, seen);
    DescribeStep(sha, files, contents);
    assert forall i :: 0 < i < |contents| ==> contents[i] == contents[1..][i - 1];
    Associate(Chunk(data), Chunks(contents[1..]), left);
  }

  lemma GoodPathsStep(files: seq<FileMeta>, seen: set<string>)
    requires files != []
    ensures GoodPaths(files, seen) <==>
              ValidPath(files[0].path) && files[0].path !in seen && GoodPaths(files[1..], seen + {files[0].path})
  {}

  lemma DescribeStep(sha: Hash, files: seq<FileMeta>, contents: seq<Bytes>)
    requires files != [] && contents != []
    ensures Describe(sha, files, contents) <==>
              Matches(sha, files[0], contents[0]) && Describe(sha, files[1..], contents[1..])
  {}

  // ----- the whole plaintext -----

  /** What the archive code takes from elsewhere: JSON, hashing, profile defaults and validation. */
  datatype Codec<!P> = Codec(encode: Manifest<P> -> Bytes, decode: Bytes -> Option<Manifest<P>>, sha: Hash,
                             defaults: P -> P, valid: P -> bool)

  /** A parsed archive: the manifest as written, and the contents of its files. */
  datatype Parsed<P> = Parsed(json: Bytes, manifest: Manifest<P>, profile: P,
                              files: seq<Bytes>, extensions: seq<seq<Bytes>>)

  function Flatten(lists: seq<seq<Bytes>>): seq<Bytes> {
    if lists == [] then [] else lists[0] + Flatten(lists[1..])
  }

  function VerifyExtensions(sha: Hash, metas: seq<ExtensionMeta>, plain: Bytes): Result<(seq<seq<Bytes>>, Bytes), ArchiveError> {
    if metas == [] then Ok(([], plain))
    else
      match VerifyFiles(sha, metas[0].files, plain)
      case Err(e) => Err(e)
      case Ok((contents, rest)) =>
        match VerifyExtensions(sha, metas[1..], rest)
        case Err(e) => Err(e)
        case Ok((more, left)) => Ok(([contents] + more, left))
  }

  predicate DescribeExtensions(sha: Hash, metas: seq<ExtensionMeta>, lists: seq<seq<Bytes>>) {
    && |metas| == |lists|
    && forall i :: 0 <= i < |metas| ==> GoodPaths(metas[i].files, {}) && Describe(sha, metas[i].files, lists[i]) && Small(lists[i])
  }

  lemma {:induction false} SmallFlatten(lists: seq<seq<Bytes>>)
    requires forall i :: 0 <= i < |lists| ==> Small(lists[i])
    ensures Small(Flatten(lists))
  {
    if lists != [] {
      SmallFlatten(lists[1..]);
    }
  }

  lemma DescribeExtensionsStep(sha: Hash, metas: seq<ExtensionMeta>, lists: seq<seq<Bytes>>)
    requires metas != [] && lists != []
    ensures DescribeExtensions(sha, metas, lists) <==>
              && GoodPaths(metas[0].files, {}) && Describe(sha, metas[0].files, lists[0]) && Small(lists[0])
              && DescribeExtensions(sha, metas[1..], lists[1..])
  {
    if |metas| == |lists| {
      assert forall i :: 0 < i < |lists| ==> lists[i] == lists[1..][i - 1] && metas[i] == metas[1..][i - 1];
    }
  }

  /** The chunks of the first list, then those of the others. */
  lemma FlattenChunks(lists: seq<seq<Bytes>>, left: Bytes)
    requires lists != [] && Small(lists[0]) && Small(Flatten(lists[1..]))
    ensures Small(Flatten(lists)) && Chunks(Flatten(lists)) + left == Chunks(lists[0]) + (Chunks(Flatten(lists[1..])) + left)
  {
    var rest := Flatten(lists[1..]);
    ChunksConcat(lists[0], rest);
    Associate(Chunks(lists[0]), Chunks(rest), left);
  }

  lemma {:induction false} VerifyExtensionsIff(sha: Hash, metas: seq<ExtensionMeta>, plain: Bytes, lists: seq<seq<Bytes>>, left: Bytes)
    ensures VerifyExtensions(sha, metas, plain) == Ok((lists, left)) <==>
              DescribeExtensions(sha, metas, lists) && Small(Flatten(lists)) && plain == Chunks(Flatten(lists)) + left
    decreases |metas|, 1
  {
    if metas == [] {
      if lists == [] {
        assert Chunks(Flatten(lists)) + left == left;
      }
    } else if lists != [] {
      DescribeExtensionsStep(sha, metas, lists);
      if DescribeExtensions(sha, metas, lists) {
        SmallFlatten(lists[1..]);
        FlattenChunks(lists, left);
        if plain == Chunks(Flatten(lists)) + left {
          ExtensionsParse(sha, metas, plain, lists, left);
        }
      }
      if VerifyExtensions(sha, metas, plain) == Ok((lists, left)) {
        ExtensionsParsed(sha, metas, plain, lists, left);
      }
    }
  }

  lemma ExtensionsParse(sha: Hash, metas: seq<ExtensionMeta>, plain: Bytes, lists: seq<seq<Bytes>>, left: Bytes)
    requires metas != [] && lists != []
    requires GoodPaths(metas[0].files, {}) && Describe(sha, metas[0].files, lists[0]) && Small(lists[0])
    requires DescribeExtensions(sha, metas[1..], lists[1..]) && Small(Flatten(lists[1..]))
    requires plain == Chunks(lists[0]) + (Chunks(Flatten(lists[1..])) + left)
    ensures VerifyExtensions(sha, metas, plain) == Ok((lists, left))
    decreases |metas|, 0
  {
    var rest := Chunks(Flatten(lists[1..])) + left;
    VerifyIff(sha, metas[0].files, {}, plain, lists[0], rest);
    VerifyExtensionsIff(sha, metas[1..], rest, lists[1..], left);
    assert lists == [lists[0]] + lists[1..];
  }

  lemma ExtensionsParsed(sha: Hash, metas: seq<ExtensionMeta>, plain: Bytes, lists: seq<seq<Bytes>>, left: Bytes)
    requires metas != [] && VerifyExtensions(sha, metas, plain) == Ok((lists, left)) && lists != []
    ensures DescribeExtensions(sha, metas, lists) && Small(Flatten(lists)) && plain == Chunks(Flatten(lists)) + left
    decreases |metas|, 0
  {
    var (contents, rest) := VerifyFiles(sha, metas[0].files, plain).value;
    assert lists[0] == contents;
    assert lists[1..] == VerifyExtensions(sha, metas[1..], rest).value.0;
    VerifyIff(sha, metas[0].files, {}, plain, contents, rest);
    VerifyExtensionsIff(sha, metas[1..], rest, lists[1..], left);
    DescribeExtensionsStep(sha, metas, lists);
    FlattenChunks(lists, left);
  }

  predicate GoodHeader<P>(m: Manifest<P>) {
    m.magic == "MZAR" && m.version in {1, 2}
  }

  /** The decrypted part of ImportArchive: everything before the store is touched. */
  function Parse<P>(c: Codec<P>, plain: Bytes): Result<Parsed<P>, ArchiveError> {
    match ReadChunk(plain)
    case Err(e) => Err(e)
    case Ok((json, rest)) =>
      match c.decode(json)
      case None => Err(BadManifestJson)
      case Some(m) =>
        if !GoodHeader(m) then Err(BadManifestHeader)
        else if m.profile.None? then Err(MissingProfile)
        else if !c.valid(c.defaults(m.profile.value)) then Err(BadProfile)
        else
          match VerifyFiles(c.sha, m.files, rest)
          case Err(e) => Err(e)
          case Ok((files, rest1)) =>
            match VerifyExtensions(c.sha, m.extensions, rest1)
            case Err(e) => Err(e)
            case Ok((extensions, left)) =>
              if left != [] then Err(TrailingContent)
              else Ok(Parsed(json, m, c.defaults(m.profile.value), files, extensions))
  }

  /** The manifest is acceptable, and describes exactly the contents beside it. */
  ghost predicate Consistent<P>(c: Codec<P>, a: Parsed<P>) {
    && |a.json| <= MAX_CHUNK
    && c.decode(a.json) == Some(a.manifest)
    && GoodHeader(a.manifest)
    && a.manifest.profile.Some? && a.profile == c.defaults(a.manifest.profile.value) && c.valid(a.profile)
    && GoodPaths(a.manifest.files, {}) && Describe(c.sha, a.manifest.files, a.files) && Small(a.files)
    && DescribeExtensions(c.sha, a.manifest.extensions, a.extensions)
  }

  function Contents<P>(a: Parsed<P>): seq<Bytes> {
    [a.json] + a.files + Flatten(a.extensions)
  }

  lemma ConsistentIsSmall<P>(c: Codec<P>, a: Parsed<P>)
    requires Consistent(c, a)
    ensures Small(Contents(a)) && Small(Flatten(a.extensions))
    ensures Chunks(Contents(a)) == Chunk(a.json) + (Chunks(a.files) + Chunks(Flatten(a.extensions)))
  {
    SmallFlatten(a.extensions);
    assert Small([a.json]);
    ChunksConcat(a.files, Flatten(a.extensions));
    assert Contents(a) == [a.json] + (a.files + Flatten(a.extensions));
    ChunksConcat([a.json], a.files + Flatten(a.extensions));
    assert Chunks([a.json]) == Chunk(a.json) + Chunks([]) == Chunk(a.json);
  }

  /**
   Parsing yields an archive exactly when that archive is consistent and the plaintext is, byte
   for byte, its canonical serialization: manifest, profile files, extensions in order, no more.
   */
  lemma ParseIff<P>(c: Codec<P>, plain: Bytes, a: Parsed<P>)
    ensures Parse(c, plain) == Ok(a) <==> Consistent(c, a) && Small(Contents(a)) && plain == Chunks(Contents(a))
  {
    if Consistent(c, a) && Small(Contents(a)) && plain == Chunks(Contents(a)) {
      ConsistentIsSmall(c, a);
      var rest1 := Chunks(Flatten(a.extensions));
      var rest := Chunks(a.files) + rest1;
      ReadChunkIff(plain, a.json, rest);
      VerifyIff(c.sha, a.manifest.files, {}, rest, a.files, rest1);
      assert rest1 == rest1 + [];
      VerifyExtensionsIff(c.sha, a.manifest.extensions, rest1, a.extensions, []);
    }
    if Parse(c, plain) == Ok(a) {
      var rest := ReadChunk(plain).value.1;
      var rest1 := VerifyFiles(c.sha, a.manifest.files, rest).value.1;
      ReadChunkIff(plain, a.json, rest);
      VerifyIff(c.sha, a.manifest.files, {}, rest, a.files, rest1);
      VerifyExtensionsIff(c.sha, a.manifest.extensions, rest1, a.extensions, []);
      assert rest1 == Chunks(Flatten(a.extensions));
      ConsistentIsSmall(c, a);
    }
  }

  // ----- exporting -----

  datatype SourceFile = SourceFile(path: string, data: Bytes)

  /** A directory as collectFiles finds it; a walk yields every file once. */
  datatype Root = Missing | Unsafe | Tree(files: seq<SourceFile>)

  datatype SourceExtension = SourceExtension(id: string, version: string, shared: bool, root: Root)

  function CollectFiles(root: Root): Result<seq<SourceFile>, ArchiveError> {
    match root
    case Missing => Ok([])
    case Unsafe => Err(BadPath)
    case Tree(files) =>
      if forall i :: 0 <= i < |files| ==> ValidPath(files[i].path) then Ok(files) else Err(BadPath)
  }

  predicate WalkedOnce(root: Root) {
    root.Tree? ==> forall i, j :: 0 <= i < j < |root.files| ==> root.files[i].path != root.files[j].path
  }

  function Metas(sha: Hash, files: seq<SourceFile>): (r: seq<FileMeta>)
    ensures |r| == |files|
  {
    seq(|files|, i requires 0 <= i < |files| => FileMeta(files[i].path, |files[i].data|, sha(files[i].data)))
  }

  function Datas(files: seq<SourceFile>): (r: seq<Bytes>)
    ensures |r| == |files|
  {
    seq(|files|, i requires 0 <= i < |files| => files[i].data)
  }

  /** The extensions an export includes: shared ones whose directory still exists. */
  function Included(exts: seq<SourceExtension>): seq<SourceExtension> {
    if exts == [] then []
    else (if exts[0].shared && !exts[0].root.Missing? then [exts[0]] else []) + Included(exts[1..])
  }

  predicate Collectable(exts: seq<SourceExtension>) {
    forall i :: 0 <= i < |exts| ==> CollectFiles(exts[i].root).Ok?
  }

  function ExtensionMetas(sha: Hash, exts: seq<SourceExtension>): seq<ExtensionMeta>
    requires Collectable(exts)
  {
    seq(|exts|, i requires 0 <= i < |exts| =>
      ExtensionMeta(exts[i].id, exts[i].version, Metas(sha, CollectFiles(exts[i].root).value)))
  }

  function ExtensionDatas(exts: seq<SourceExtension>): seq<seq<Bytes>>
    requires Collectable(exts)
  {
    seq(|exts|, i requires 0 <= i < |exts| => Datas(CollectFiles(exts[i].root).value))
  }

  /** The archive of a profile directory and the profile's extensions. */
  function Exported<P>(c: Codec<P>, profile: P, files: seq<SourceFile>, exts: seq<SourceExtension>): Parsed<P>
    requires Collectable(exts)
  {
    var m := Manifest("MZAR", 2, Some(profile), Metas(c.sha, files), ExtensionMetas(c.sha, exts));
    Parsed(c.encode(m), m, c.defaults(profile), Datas(files), ExtensionDatas(exts))
  }

  /** ExportArchive up to encryption. */
  function ExportPlain<P>(c: Codec<P>, profile: P, root: Root, exts: seq<SourceExtension>): Result<Bytes, ArchiveError> {
    match CollectFiles(root)
    case Err(e) => Err(e)
    case Ok(files) =>
      if !Collectable(Included(exts)) then Err(BadPath)
      else
        var contents := Contents(Exported(c, profile, files, Included(exts)));
        if Small(contents) then Ok(Chunks(contents)) else Err(ChunkTooLarge)
  }

  lemma CollectedIsGood(sha: Hash, root: Root)
    requires WalkedOnce(root) && CollectFiles(root).Ok?
    ensures GoodPaths(Metas(sha, CollectFiles(root).value), {})
    ensures Describe(sha, Metas(sha, CollectFiles(root).value), Datas(CollectFiles(root).value))
  {}

  lemma {:induction false} FlattenHolds(lists: seq<seq<Bytes>>, i: int)
    requires 0 <= i < |lists| && Small(Flatten(lists))
    ensures Small(lists[i])
  {
    var rest := Flatten(lists[1..]);
    assert forall j :: 0 <= j < |lists[0]| ==> Flatten(lists)[j] == lists[0][j];
    assert forall j :: 0 <= j < |rest| ==> Flatten(lists)[|lists[0]| + j] == rest[j];
    if i > 0 {
      FlattenHolds(lists[1..], i - 1);
    }
  }

  /** Whatever fits the framing as a whole fits it part by part. */
  lemma SmallParts<P>(a: Parsed<P>)
    requires Small(Contents(a))
    ensures |a.json| <= MAX_CHUNK && Small(a.files) && Small(Flatten(a.extensions))
    ensures forall i :: 0 <= i < |a.extensions| ==> Small(a.extensions[i])
  {
    var flat := Flatten(a.extensions);
    assert Contents(a)[0] == a.json;
    assert forall i :: 0 <= i < |a.files| ==> Contents(a)[1 + i] == a.files[i];
    assert forall i :: 0 <= i < |flat| ==> Contents(a)[1 + |a.files| + i] == flat[i];
    forall i | 0 <= i < |a.extensions|
      ensures Small(a.extensions[i])
    {
      FlattenHolds(a.extensions, i);
    }
  }

  lemma ExportedExtensions(sha: Hash, exts: seq<SourceExtension>)
    requires Collectable(exts) && forall i :: 0 <= i < |exts| ==> WalkedOnce(exts[i].root)
    requires forall i :: 0 <= i < |exts| ==> Small(ExtensionDatas(exts)[i])
    ensures DescribeExtensions(sha, ExtensionMetas(sha, exts), ExtensionDatas(exts))
  {
    var metas, datas := ExtensionMetas(sha, exts), ExtensionDatas(exts);
    forall i | 0 <= i < |exts|
      ensures GoodPaths(metas[i].files, {}) && Describe(sha, metas[i].files, datas[i])
    {
      CollectedIsGood(sha, exts[i].root);
    }
  }

  /** A JSON encoding that decodes to the manifest it was made from. */
  ghost predicate Faithful<P>(c: Codec<P>, m: Manifest<P>) {
    c.decode(c.encode(m)) == Some(m)
  }

  /**
   Export then import: the manifest comes back, every file lands with the profile or extension
   it came from, and nothing is left over. Only a profile the importer finds invalid is refused.
   */
  lemma ExportParses<P>(c: Codec<P>, profile: P, root: Root, exts: seq<SourceExtension>)
    requires WalkedOnce(root) && forall i :: 0 <= i < |Included(exts)| ==> WalkedOnce(Included(exts)[i].root)
    requires ExportPlain(c, profile, root, exts).Ok?
    requires Faithful(c, Exported(c, profile, CollectFiles(root).value, Included(exts)).manifest)
    ensures Parse(c, ExportPlain(c, profile, root, exts).value) ==
              if c.valid(c.defaults(profile)) then Ok(Exported(c, profile, CollectFiles(root).value, Included(exts)))
              else Err(BadProfile)
  {
    var plain := ExportPlain(c, profile, root, exts).value;
    var a := Exported(c, profile, CollectFiles(root).value, Included(exts));
    SmallParts(a);
    if c.valid(c.defaults(profile)) {
      CollectedIsGood(c.sha, root);
      ExportedExtensions(c.sha, Included(exts));
      ParseIff(c, plain, a);
    } else {
      ReadChunkIff(plain, a.json, Chunks(Contents(a)[1..]));
    }
  }

  // ----- what an export holds, file by file -----

  /** Extension x is exported: shared, and its directory exists. */
  predicate IsExported(x: SourceExtension) {
    x.shared && !x.root.Missing?
  }

  /** How many of the first n extensions are exported. */
  function Position(exts: seq<SourceExtension>, n: nat): nat
    requires n <= |exts|
  {
    if n == 0 then 0 else Position(exts, n - 1) + if IsExported(exts[n - 1]) then 1 else 0
  }

  lemma {:induction false} IncludedAt(exts: seq<SourceExtension>, n: nat)
    requires n <= |exts|
    ensures |Included(exts[..n])| == Position(exts, n)
    ensures forall i :: 0 <= i < n && IsExported(exts[i]) ==>
              Position(exts, i) < Position(exts, n) && Included(exts[..n])[Position(exts, i)] == exts[i]
  {
    if n > 0 {
      IncludedAt(exts, n - 1);
      assert exts[..n] == exts[..n - 1] + [exts[n - 1]];
      IncludedSnoc(exts[..n - 1], exts[n - 1]);
    }
  }

  /** The files a directory contributes. */
  function FilesIn(root: Root): seq<SourceFile> {
    if root.Tree? then root.files else []
  }

  /** Metadata and contents are those of `files`, one by one and in order. */
  ghost predicate Carries(sha: Hash, metas: seq<FileMeta>, datas: seq<Bytes>, files: seq<SourceFile>) {
    && |metas| == |datas| == |files|
    && (forall i :: 0 <= i < |files| ==> metas[i] == FileMeta(files[i].path, |files[i].data|, sha(files[i].data)))
    && (forall i :: 0 <= i < |files| ==> datas[i] == files[i].data)
  }

  /**
   A parsed archive holds exactly this profile: its settings, its files, and for every exported
   extension, in order, its id, version and files.
   */
  ghost predicate HoldsExport<P>(c: Codec<P>, a: Parsed<P>, profile: P, root: Root, exts: seq<SourceExtension>) {
    && a.manifest.magic == "MZAR" && a.manifest.version == 2
    && a.manifest.profile == Some(profile) && a.profile == c.defaults(profile)
    && Carries(c.sha, a.manifest.files, a.files, FilesIn(root))
    && |a.manifest.extensions| == |a.extensions| == Position(exts, |exts|)
    && forall i :: 0 <= i < |exts| && IsExported(exts[i]) ==> HoldsExtension(c.sha, a, exts[i], Position(exts, i))
  }

  ghost predicate HoldsExtension<P>(sha: Hash, a: Parsed<P>, x: SourceExtension, k: nat) {
    && k < |a.manifest.extensions| && k < |a.extensions|
    && a.manifest.extensions[k].id == x.id && a.manifest.extensions[k].version == x.version
    && Carries(sha, a.manifest.extensions[k].files, a.extensions[k], FilesIn(x.root))
  }

  ghost predicate Restores<P>(c: Codec<P>, r: Result<Parsed<P>, ArchiveError>, profile: P, root: Root, exts: seq<SourceExtension>) {
    if c.valid(c.defaults(profile)) then r.Ok? && HoldsExport(c, r.value, profile, root, exts) else r == Err(BadProfile)
  }

  lemma ExportedHolds<P>(c: Codec<P>, profile: P, root: Root, exts: seq<SourceExtension>)
    requires CollectFiles(root).Ok? && Collectable(Included(exts))
    ensures HoldsExport(c, Exported(c, profile, CollectFiles(root).value, Included(exts)), profile, root, exts)
  {
    IncludedAt(exts, |exts|);
    assert exts[..|exts|] == exts;
    var a := Exported(c, profile, CollectFiles(root).value, Included(exts));
    forall i | 0 <= i < |exts| && IsExported(exts[i])
      ensures HoldsExtension(c.sha, a, exts[i], Position(exts, i))
    {
      assert Included(exts)[Position(exts, i)] == exts[i];
    }
  }

  /** Whether a directory can be archived. */
  predicate Archivable(root: Root) {
    !root.Unsafe? && forall f :: f in FilesIn(root) ==> ValidPath(f.path)
  }

  lemma CollectIff(root: Root)
    ensures CollectFiles(root) == if Archivable(root) then Ok(FilesIn(root)) else Err(BadPath)
  {
    if root.Tree? {
      assert forall i :: 0 <= i < |root.files| ==> root.files[i] in FilesIn(root);
    }
  }

  /**
   Export then parse, against what was exported: the archive holds exactly the profile, its files
   and its exported extensions. Only a profile the importer finds invalid is refused.
   */
  lemma ExportHoldsTheProfile<P>(c: Codec<P>, profile: P, root: Root, exts: seq<SourceExtension>)
    requires WalkedOnce(root) && forall i :: 0 <= i < |exts| ==> WalkedOnce(exts[i].root)
    requires ExportPlain(c, profile, root, exts).Ok?
    requires Faithful(c, Exported(c, profile, CollectFiles(root).value, Included(exts)).manifest)
    ensures Restores(c, Parse(c, ExportPlain(c, profile, root, exts).value), profile, root, exts)
  {
    forall i | 0 <= i < |Included(exts)|
      ensures WalkedOnce(Included(exts)[i].root)
    {
      IncludedFrom(exts, Included(exts)[i]);
    }
    ExportedHolds(c, profile, root, exts);
    ExportParses(c, profile, root, exts);
  }

  lemma {:induction false} IncludedFrom(exts: seq<SourceExtension>, e: SourceExtension)
    requires e in Included(exts)
    ensures e in exts && IsExported(e)
  {
    if e in Included(exts[1..]) {
      IncludedFrom(exts[1..], e);
    }
  }

  /** An export is refused exactly for a directory that cannot be archived, or a chunk over 4 GiB. */
  lemma ExportRefusals<P>(c: Codec<P>, profile: P, root: Root, exts: seq<SourceExtension>)
    ensures ExportPlain(c, profile, root, exts) == Err(BadPath) <==>
              !Archivable(root) || exists e :: e in exts && IsExported(e) && !Archivable(e.root)
    ensures ExportPlain(c, profile, root, exts).Err? ==> ExportPlain(c, profile, root, exts).error in {BadPath, ChunkTooLarge}
  {
    CollectIff(root);
    if e :| e in exts && IsExported(e) && !Archivable(e.root) {
      CollectIff(e.root);
      IncludedHas(exts, e);
      var k :| 0 <= k < |Included(exts)| && Included(exts)[k] == e;
      assert CollectFiles(Included(exts)[k].root).Err?;
    }
    forall k | 0 <= k < |Included(exts)|
      ensures Included(exts)[k] in exts && IsExported(Included(exts)[k])
      ensures CollectFiles(Included(exts)[k].root).Ok? <==> Archivable(Included(exts)[k].root)
    {
      IncludedFrom(exts, Included(exts)[k]);
      CollectIff(Included(exts)[k].root);
    }
  }

  lemma {:induction false} IncludedHas(exts: seq<SourceExtension>, e: SourceExtension)
    requires e in exts && IsExported(e)
    ensures e in Included(exts)
  {
    if e != exts[0] {
      IncludedHas(exts[1..], e);
    }
  }

  // ----- the sealed file -----

  const MAGIC: Bytes := [0x4D, 0x5A, 0x41, 0x52]   // "MZAR"

  /** The authenticated cipher of a passphrase, taken as its bytes, and a salt; the nonce is explicit. */
  datatype Cipher = Cipher(seal: (Bytes, Bytes, Bytes, Bytes) -> Bytes, open: (Bytes, Bytes, Bytes, Bytes) -> Option<Bytes>)

  function Encrypt(c: Cipher, passphrase: Bytes, salt: Bytes, nonce: Bytes, plain: Bytes): Bytes
    requires |salt| == 16 && |nonce| == 12
  {
    MAGIC + [0, 2] + salt + nonce + c.seal(passphrase, salt, nonce, plain)
  }

  function Decrypt(c: Cipher, passphrase: Bytes, buf: Bytes): Result<Bytes, ArchiveError> {
    if |buf| < 50 then Err(TooSmall)
    else if buf[..4] != MAGIC then Err(NotAnArchive)
    else if (buf[4] as int) * 256 + buf[5] as int !in {1, 2} then Err(UnsupportedVersion)
    else
      match c.open(passphrase, buf[6..22], buf[22..34], buf[34..])
      case None => Err(WrongPassphrase)
      case Some(plain) => Ok(plain)
  }

  /** A file opens exactly when it is a whole header of version 1 or 2 and a body the cipher accepts. */
  lemma DecryptIff(c: Cipher, passphrase: Bytes, buf: Bytes, plain: Bytes)
    ensures Decrypt(c, passphrase, buf) == Ok(plain) <==>
              && |buf| >= 50
              && buf[..6] in {MAGIC + [0, 1], MAGIC + [0, 2]}
              && c.open(passphrase, buf[6..22], buf[22..34], buf[34..]) == Some(plain)
  {
    if |buf| >= 50 {
      assert buf[..6] == buf[..4] + [buf[4], buf[5]];
      forall v: Byte
        ensures buf[..6] == MAGIC + [0, v] <==> buf[..4] == MAGIC && buf[4] == 0 && buf[5] == v
      {
        assert (MAGIC + [0, v])[..4] == MAGIC && (MAGIC + [0, v])[4] == 0 && (MAGIC + [0, v])[5] == v;
      }
    }
  }

  /** What an authenticated cipher does: opening inverts sealing, and sealing adds its 16-byte tag. */
  ghost predicate SealsWell(c: Cipher, passphrase: Bytes, salt: Bytes, nonce: Bytes, plain: Bytes) {
    && |c.seal(passphrase, salt, nonce, plain)| >= 16
    && c.open(passphrase, salt, nonce, c.seal(passphrase, salt, nonce, plain)) == Some(plain)
  }

  /** With a cipher that inverts itself and adds its 16-byte tag, what was sealed opens again. */
  lemma SealOpens(c: Cipher, passphrase: Bytes, salt: Bytes, nonce: Bytes, plain: Bytes)
    requires |salt| == 16 && |nonce| == 12
    requires SealsWell(c, passphrase, salt, nonce, plain)
    ensures Decrypt(c, passphrase, Encrypt(c, passphrase, salt, nonce, plain)) == Ok(plain)
  {
    var buf := Encrypt(c, passphrase, salt, nonce, plain);
    assert buf[..4] == MAGIC && buf[4] == 0 && buf[5] == 2;
    assert buf[6..22] == salt && buf[22..34] == nonce;
    assert buf[34..] == c.seal(passphrase, salt, nonce, plain);
  }

  /** ExportArchive: what is written to the archive file. `profile` is the stored one, if any. */
  function ExportFile<P>(c: Codec<P>, cipher: Cipher, passphrase: Bytes, salt: Bytes, nonce: Bytes,
                         profile: Option<P>, root: Root, exts: seq<SourceExtension>): Result<Bytes, ArchiveError>
    requires |salt| == 16 && |nonce| == 12
  {
    if |passphrase| < MIN_PASSPHRASE then Err(ShortPassphrase)
    else if profile.None? then Err(NotFound)
    else
      match ExportPlain(c, profile.value, root, exts)
      case Err(e) => Err(e)
      case Ok(plain) => Ok(Encrypt(cipher, passphrase, salt, nonce, plain))
  }

  /** Before anything is written, a passphrase under eight bytes and then a missing profile are refused. */
  lemma FileRefusals<P>(c: Codec<P>, cipher: Cipher, passphrase: Bytes, salt: Bytes, nonce: Bytes,
                        profile: Option<P>, root: Root, exts: seq<SourceExtension>)
    requires |salt| == 16 && |nonce| == 12
    ensures
      var r := ExportFile(c, cipher, passphrase, salt, nonce, profile, root, exts);
      && (r == Err(ShortPassphrase) <==> |passphrase| < 8)
      && (r == Err(NotFound) <==> |passphrase| >= 8 && profile.None?)
      && (r == Err(BadPath) <==>
            |passphrase| >= 8 && profile.Some?
            && (!Archivable(root) || exists e :: e in exts && IsExported(e) && !Archivable(e.root)))
  {
    if profile.Some? {
      ExportRefusals(c, profile.value, root, exts);
    }
  }

  /** The header of every archive file, to the byte, with the salt and the nonce that were used. */
  lemma HeaderOf(c: Cipher, passphrase: Bytes, salt: Bytes, nonce: Bytes, plain: Bytes)
    requires |salt| == 16 && |nonce| == 12
    ensures
      var buf := Encrypt(c, passphrase, salt, nonce, plain);
      && |buf| >= 34 && buf[..6] == [0x4D, 0x5A, 0x41, 0x52, 0, 2]
      && buf[6..22] == salt && buf[22..34] == nonce && buf[34..] == c.seal(passphrase, salt, nonce, plain)
  {
    var buf := Encrypt(c, passphrase, salt, nonce, plain);
    assert buf[..6] == MAGIC + [0, 2];
  }

  /** The archive file has the header of version 2, and opens to what was exported. */
  lemma FileOpens<P>(c: Codec<P>, cipher: Cipher, passphrase: Bytes, salt: Bytes, nonce: Bytes,
                     profile: P, root: Root, exts: seq<SourceExtension>)
    requires |salt| == 16 && |nonce| == 12 && |passphrase| >= 8
    requires ExportPlain(c, profile, root, exts).Ok?
    requires SealsWell(cipher, passphrase, salt, nonce, ExportPlain(c, profile, root, exts).value)
    ensures
      var buf := ExportFile(c, cipher, passphrase, salt, nonce, Some(profile), root, exts);
      && buf.Ok? && buf.value[..6] == [0x4D, 0x5A, 0x41, 0x52, 0, 2]
      && Decrypt(cipher, passphrase, buf.value) == ExportPlain(c, profile, root, exts)
  {
    var plain := ExportPlain(c, profile, root, exts).value;
    SealOpens(cipher, passphrase, salt, nonce, plain);
    HeaderOf(cipher, passphrase, salt, nonce, plain);
  }

  /**
   From the profile to the archive file and back: opened with its passphrase, the file parses to
   exactly the profile, its files and its exported extensions.
   */
  lemma ArchiveRoundTrip<P>(c: Codec<P>, cipher: Cipher, passphrase: Bytes, salt: Bytes, nonce: Bytes,
                            profile: P, root: Root, exts: seq<SourceExtension>)
    requires |salt| == 16 && |nonce| == 12 && |passphrase| >= 8
    requires WalkedOnce(root) && forall i :: 0 <= i < |exts| ==> WalkedOnce(exts[i].root)
    requires ExportPlain(c, profile, root, exts).Ok?
    requires Faithful(c, Exported(c, profile, CollectFiles(root).value, Included(exts)).manifest)
    requires forall plain :: SealsWell(cipher, passphrase, salt, nonce, plain)
    ensures
      var buf := ExportFile(c, cipher, passphrase, salt, nonce, Some(profile), root, exts);
      && buf.Ok? && buf.value[..6] == [0x4D, 0x5A, 0x41, 0x52, 0, 2] && Decrypt(cipher, passphrase, buf.value).Ok?
      && Restores(c, Parse(c, Decrypt(cipher, passphrase, buf.value).value), profile, root, exts)
  {
    FileOpens(c, cipher, passphrase, salt, nonce, profile, root, exts);
    ExportHoldsTheProfile(c, profile, root, exts);
  }

  // ----- the loops of the source -----

  /** What VerifyFrom returns for the rest, with the contents already read in front. */
  function Resume(done: seq<Bytes>, r: Result<(seq<Bytes>, Bytes), ArchiveError>): Result<(seq<Bytes>, Bytes), ArchiveError> {
    match r
    case Err(e) => Err(e)
    case Ok((more, left)) => Ok((done + more, left))
  }

  function ResumeLists(done: seq<seq<Bytes>>, r: Result<(seq<seq<Bytes>>, Bytes), ArchiveError>): Result<(seq<seq<Bytes>>, Bytes), ArchiveError> {
    match r
    case Err(e) => Err(e)
    case Ok((more, left)) => Ok((done + more, left))
  }

  lemma ResumeNothing(r: Result<(seq<Bytes>, Bytes), ArchiveError>, lists: Result<(seq<seq<Bytes>>, Bytes), ArchiveError>)
    ensures Resume([], r) == r && ResumeLists([], lists) == lists
  {
    assert r.Ok? ==> [] + r.value.0 == r.value.0;
    assert lists.Ok? ==> [] + lists.value.0 == lists.value.0;
  }

  lemma VerifyStep(sha: Hash, files: seq<FileMeta>, seen: set<string>, plain: Bytes, done: seq<Bytes>)
    requires files != [] && ValidPath(files[0].path) && files[0].path !in seen && ReadChunk(plain).Ok?
    requires Matches(sha, files[0], ReadChunk(plain).value.0)
    ensures Resume(done, VerifyFrom(sha, files, seen, plain)) ==
              Resume(done + [ReadChunk(plain).value.0], VerifyFrom(sha, files[1..], seen + {files[0].path}, ReadChunk(plain).value.1))
  {
    var r := VerifyFrom(sha, files[1..], seen + {files[0].path}, ReadChunk(plain).value.1);
    if r.Ok? {
      assert done + ([ReadChunk(plain).value.0] + r.value.0) == done + [ReadChunk(plain).value.0] + r.value.0;
    }
  }

  lemma VerifyExtensionsStep(sha: Hash, metas: seq<ExtensionMeta>, plain: Bytes, done: seq<seq<Bytes>>)
    requires metas != [] && VerifyFiles(sha, metas[0].files, plain).Ok?
    ensures ResumeLists(done, VerifyExtensions(sha, metas, plain)) ==
              var (contents, rest) := VerifyFiles(sha, metas[0].files, plain).value;
              ResumeLists(done + [contents], VerifyExtensions(sha, metas[1..], rest))
  {
    var (contents, rest) := VerifyFiles(sha, metas[0].files, plain).value;
    var r := VerifyExtensions(sha, metas[1..], rest);
    if r.Ok? {
      assert done + ([contents] + r.value.0) == done + [contents] + r.value.0;
    }
  }

  /** The plaintext and how much of it is still to be read. */
  class Reader {
    var plain: Bytes

    constructor (bytes: Bytes)
      ensures plain == bytes
    {
      plain := bytes;
    }

    method ReadNext() returns (r: Result<Bytes, ArchiveError>)
      modifies this
      ensures r.Ok? ==> |r.value| <= MAX_CHUNK && old(plain) == Chunk(r.value) + plain
      ensures r.Err? ==> plain == old(plain)
      ensures ReadChunk(old(plain)) == if r.Ok? then Ok((r.value, plain)) else Err(r.error)
    {
      if |plain| < 4 {
        return Err(LengthTruncated);
      }
      var n := FromBigEndian32(plain[..4]);
      if n > |plain| - 4 {
        return Err(ContentTruncated);
      }
      var b := plain[4..4 + n];
      ReadChunkIff(plain, b, plain[4 + n..]);
      plain := plain[4 + n..];
      return Ok(b);
    }

    method VerifyAll(sha: Hash, files: seq<FileMeta>) returns (r: Result<seq<Bytes>, ArchiveError>)
      modifies this
      ensures VerifyFiles(sha, files, old(plain)) == if r.Ok? then Ok((r.value, plain)) else Err(r.error)
    {
      var contents: seq<Bytes> := [];
      var seen: set<string> := {};
      var i := 0;
      assert files[0..] == files;
      ResumeNothing(VerifyFiles(sha, files, plain), Ok(([], [])));
      while i < |files|
        invariant 0 <= i <= |files|
        invariant VerifyFiles(sha, files, old(plain)) == Resume(contents, VerifyFrom(sha, files[i..], seen, plain))
      {
        var meta := files[i];
        assert files[i..][0] == meta && files[i..][1..] == files[i + 1..];
        if !ValidPath(meta.path) {
          return Err(BadPath);
        }
        if meta.path in seen {
          return Err(DuplicatePath);
        }
        ghost var was := plain;
        var chunk := ReadNext();
        if chunk.Err? {
          return Err(chunk.error);
        }
        if |chunk.value| != meta.size || sha(chunk.value) != meta.sha256 {
          return Err(ChecksumMismatch);
        }
        VerifyStep(sha, files[i..], seen, was, contents);
        seen := seen + {meta.path};
        contents := contents + [chunk.value];
        i := i + 1;
      }
      assert files[i..] == [] && contents + [] == contents;
      return Ok(contents);
    }

    method ParseArchive<P>(c: Codec<P>) returns (r: Result<Parsed<P>, ArchiveError>)
      modifies this
      ensures r == Parse(c, old(plain))
    {
      var json := ReadNext();
      if json.Err? {
        return Err(json.error);
      }
      var decoded := c.decode(json.value);
      if decoded.None? {
        return Err(BadManifestJson);
      }
      var m := decoded.value;
      if m.magic != "MZAR" || (m.version != 1 && m.version != 2) {
        return Err(BadManifestHeader);
      }
      if m.profile.None? {
        return Err(MissingProfile);
      }
      var p := c.defaults(m.profile.value);
      if !c.valid(p) {
        return Err(BadProfile);
      }
      var files := VerifyAll(c.sha, m.files);
      if files.Err? {
        return Err(files.error);
      }
      var lists: seq<seq<Bytes>> := [];
      var i := 0;
      ghost var rest := plain;
      assert m.extensions[0..] == m.extensions;
      ResumeNothing(Ok(([], [])), VerifyExtensions(c.sha, m.extensions, rest));
      while i < |m.extensions|
        invariant 0 <= i <= |m.extensions|
        invariant VerifyExtensions(c.sha, m.extensions, rest) == ResumeLists(lists, VerifyExtensions(c.sha, m.extensions[i..], plain))
      {
        assert m.extensions[i..][0] == m.extensions[i] && m.extensions[i..][1..] == m.extensions[i + 1..];
        ghost var was := plain;
        var contents := VerifyAll(c.sha, m.extensions[i].files);
        if contents.Err? {
          return Err(contents.error);
        }
        VerifyExtensionsStep(c.sha, m.extensions[i..], was, lists);
        lists := lists + [contents.value];
        i := i + 1;
      }
      assert m.extensions[i..] == [] && lists + [] == lists;
      if plain != [] {
        return Err(TrailingContent);
      }
      return Ok(Parsed(json.value, m, p, files.value, lists));
    }
  }

  lemma OneChunk(b: Bytes)
    requires |b| <= MAX_CHUNK
    ensures Small([b]) && Chunks([b]) == [] + Chunk(b) == Chunk(b)
  {
    assert Chunks([b]) == Chunk(b) + Chunks([b][1..]);
  }

  /** The writing loop of ExportArchive: the manifest, then every content in order. */
  method WriteChunks(json: Bytes, contents: seq<Bytes>) returns (r: Result<Bytes, ArchiveError>)
    ensures r == if Small([json] + contents) then Ok(Chunks([json] + contents)) else Err(ChunkTooLarge)
  {
    var all := [json] + contents;
    r := PutChunk([], json);
    if r.Err? {
      assert !Small(all) by { assert all[0] == json; }
      return;
    }
    var i := 0;
    assert all[..1] == [json];
    OneChunk(json);
    while i < |contents|
      invariant 0 <= i <= |contents|
      invariant Small(all[..i + 1])
      invariant r == Ok(Chunks(all[..i + 1]))
    {
      assert all[i + 1] == contents[i];
      if |contents[i]| > MAX_CHUNK {
        return Err(ChunkTooLarge);
      }
      assert all[..i + 2] == all[..i + 1] + [contents[i]];
      OneChunk(contents[i]);
      ChunksConcat(all[..i + 1], [contents[i]]);
      r := PutChunk(r.value, contents[i]);
      i := i + 1;
    }
    assert all[..|contents| + 1] == all;
  }

  lemma {:induction false} IncludedSnoc(exts: seq<SourceExtension>, e: SourceExtension)
    ensures Included(exts + [e]) == Included(exts) + if e.shared && !e.root.Missing? then [e] else []
  {
    if exts == [] {
      assert [] + [e] == [e];
    } else {
      IncludedSnoc(exts[1..], e);
      assert (exts + [e])[1..] == exts[1..] + [e];
    }
  }

  lemma {:induction false} FlattenSnoc(lists: seq<seq<Bytes>>, l: seq<Bytes>)
    ensures Flatten(lists + [l]) == Flatten(lists) + l
  {
    if lists == [] {
      assert [] + [l] == [l];
    } else {
      FlattenSnoc(lists[1..], l);
      assert (lists + [l])[1..] == lists[1..] + [l];
    }
  }

  /** One more collectable extension adds its own metadata and contents at the end. */
  lemma ExtensionsSnoc(sha: Hash, exts: seq<SourceExtension>, e: SourceExtension)
    requires Collectable(exts) && CollectFiles(e.root).Ok?
    ensures Collectable(exts + [e])
    ensures
      var files := CollectFiles(e.root).value;
      && ExtensionMetas(sha, exts + [e]) == ExtensionMetas(sha, exts) + [ExtensionMeta(e.id, e.version, Metas(sha, files))]
      && Flatten(ExtensionDatas(exts + [e])) == Flatten(ExtensionDatas(exts)) + Datas(files)
  {
    var files := CollectFiles(e.root).value;
    assert ExtensionDatas(exts + [e]) == ExtensionDatas(exts) + [Datas(files)];
    FlattenSnoc(ExtensionDatas(exts), Datas(files));
  }

  lemma {:induction false} IncludedHolds(exts: seq<SourceExtension>, i: nat)
    requires i < |exts| && exts[i].shared && !exts[i].root.Missing?
    ensures exts[i] in Included(exts)
  {
    if i > 0 {
      IncludedHolds(exts[1..], i - 1);
    }
  }

  /** The extension loop of ExportArchive: metadata and contents of every included extension. */
  method CollectExtensions(sha: Hash, exts: seq<SourceExtension>) returns (r: Result<(seq<ExtensionMeta>, seq<Bytes>), ArchiveError>)
    ensures r == if !Collectable(Included(exts)) then Err(BadPath)
                 else Ok((ExtensionMetas(sha, Included(exts)), Flatten(ExtensionDatas(Included(exts)))))
  {
    var contents: seq<Bytes> := [];
    var metas: seq<ExtensionMeta> := [];
    var i := 0;
    ghost var included: seq<SourceExtension> := [];
    while i < |exts|
      invariant 0 <= i <= |exts|
      invariant included == Included(exts[..i]) && Collectable(included)
      invariant metas == ExtensionMetas(sha, included)
      invariant contents == Flatten(ExtensionDatas(included))
    {
      var e := exts[i];
      assert exts[..i + 1] == exts[..i] + [e];
      IncludedSnoc(exts[..i], e);
      i := i + 1;
      if !e.shared || e.root.Missing? {
        continue;
      }
      var found := CollectFiles(e.root);
      if found.Err? {
        IncludedHolds(exts, i - 1);
        return Err(found.error);
      }
      ExtensionsSnoc(sha, included, e);
      metas := metas + [ExtensionMeta(e.id, e.version, Metas(sha, found.value))];
      contents := contents + Datas(found.value);
      included := included + [e];
    }
    assert exts[..i] == exts;
    return Ok((metas, contents));
  }

  /** ExportArchive: collect, then the manifest, then every content, sealed. */
  method ExportArchive<P>(c: Codec<P>, cipher: Cipher, passphrase: Bytes, salt: Bytes, nonce: Bytes,
                          profile: Option<P>, root: Root, exts: seq<SourceExtension>) returns (r: Result<Bytes, ArchiveError>)
    requires |salt| == 16 && |nonce| == 12
    ensures r == ExportFile(c, cipher, passphrase, salt, nonce, profile, root, exts)
  {
    if |passphrase| < MIN_PASSPHRASE {
      return Err(ShortPassphrase);
    }
    if profile.None? {
      return Err(NotFound);
    }
    var files := CollectFiles(root);
    if files.Err? {
      return Err(files.error);
    }
    var shared := CollectExtensions(c.sha, exts);
    if shared.Err? {
      return Err(shared.error);
    }
    var (metas, contents) := shared.value;
    var manifest := Manifest("MZAR", 2, Some(profile.value), Metas(c.sha, files.value), metas);
    Rebracket(c.encode(manifest), Datas(files.value), contents);
    var plain := WriteChunks(c.encode(manifest), Datas(files.value) + contents);
    if plain.Err? {
      return Err(plain.error);
    }
    return Ok(Encrypt(cipher, passphrase, salt, nonce, plain.value));
  }

  lemma Rebracket(json: Bytes, files: seq<Bytes>, more: seq<Bytes>)
    ensures [json] + (files + more) == [json] + files + more
  {}
}
