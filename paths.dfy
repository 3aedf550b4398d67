/// The file names the pipeline derives by string manipulation, and the POSIX
/// `os.path` functions it derives them with (`join`, `split`, `splitext`).
module Paths {
  import opened Outcomes
  import opened Strings

  // ---------------------------------------------------------------------------
  // os.path on POSIX

  /// `s.rfind(c)`: the last position of `c`, or -1.
  function LastIndexOf(s: string, c: char): (k: int)
    ensures -1 <= k < |s|
    ensures k >= 0 ==> s[k] == c
    ensures forall j :: k < j < |s| ==> s[j] != c
  {
    if |s| == 0 then -1
    else if s[|s| - 1] == c then |s| - 1
    else LastIndexOf(s[..|s| - 1], c)
  }

  /// The position of the last `c` is the one after which no `c` follows.
  lemma {:induction false} LastIndexAt(s: string, c: char, k: nat)
    requires k < |s| && s[k] == c
    requires forall j :: k < j < |s| ==> s[j] != c
    ensures LastIndexOf(s, c) == k
    decreases |s|
  {
    if k < |s| - 1 {
      LastIndexAt(s[..|s| - 1], c, k);
    }
  }

  /// Without a `c` there is no last `c`.
  lemma {:induction false} NoLastIndex(s: string, c: char)
    requires forall j :: 0 <= j < |s| ==> s[j] != c
    ensures LastIndexOf(s, c) == -1
    decreases |s|
  {
    if |s| > 0 {
      NoLastIndex(s[..|s| - 1], c);
    }
  }

  predicate AllSlashes(s: string) {
    forall i :: 0 <= i < |s| ==> s[i] == '/'
  }

  /// `s.rstrip('/')`.
  function StripTrailingSlashes(s: string): (r: string)
    ensures |r| <= |s| && r == s[..|r|]
    ensures r == [] || r[|r| - 1] != '/'
  {
    if |s| > 0 && s[|s| - 1] == '/' then StripTrailingSlashes(s[..|s| - 1]) else s
  }

  /// `os.path.join(dir, name)` with one name.
  function Join(dir: string, name: string): string {
    if |name| > 0 && name[0] == '/' then name
    else if dir == "" || dir[|dir| - 1] == '/' then dir + name
    else dir + "/" + name
  }

  /// `os.path.split(p)`: the directory part and the last component.
  function Split(p: string): (r: (string, string))
    ensures '/' !in r.1
  {
    var i := LastIndexOf(p, '/') + 1;
    var head, tail := p[..i], p[i..];
    assert forall j :: 0 <= j < |tail| ==> tail[j] == p[i + j];
    if head != "" && !AllSlashes(head) then (StripTrailingSlashes(head), tail) else (head, tail)
  }

  /// The last component of a path, `os.path.split(p)[1]`.
  function Basename(p: string): string {
    Split(p).1
  }

  /// A directory part as `os.path.split` returns it: empty, only slashes, or
  /// without a trailing slash.
  predicate NormalDir(d: string) {
    d == "" || AllSlashes(d) || d[|d| - 1] != '/'
  }

  lemma SplitHeadNormal(p: string)
    ensures NormalDir(Split(p).0)
  {
  }

  /// Splitting a joined path gives back its directory and its name.
  lemma SplitOfJoin(dir: string, name: string)
    requires NormalDir(dir)
    requires name != "" && '/' !in name
    ensures Split(Join(dir, name)) == (dir, name)
  {
    var p := Join(dir, name);
    if dir == "" {
      assert p == name;
      assert LastIndexOf(p, '/') == -1;
      assert p[..0] == "" && p[0..] == p;
    } else if dir[|dir| - 1] == '/' {
      assert p == dir + name;
      assert forall j :: |dir| <= j < |p| ==> p[j] == name[j - |dir|];
      LastIndexAt(p, '/', |dir| - 1);
      assert p[..|dir|] == dir && p[|dir|..] == name;
    } else {
      assert p == dir + "/" + name;
      assert forall j :: |dir| < j < |p| ==> p[j] == name[j - |dir| - 1];
      LastIndexAt(p, '/', |dir|);
      var head := p[..|dir| + 1];
      assert head == dir + "/" && p[|dir| + 1..] == name;
      assert !AllSlashes(head) by { assert head[|dir| - 1] != '/'; }
      assert StripTrailingSlashes(head) == StripTrailingSlashes(dir) by {
        assert head[..|head| - 1] == dir;
      }
    }
  }

  /// `os.path.splitext(p)`: the root and the extension (from the last dot of
  /// the last component, unless that component is only dots up to it).
  function SplitExt(p: string): (r: (string, string))
    ensures r.0 + r.1 == p
    ensures r.1 == "" || (r.1[0] == '.' && '.' !in r.1[1..] && '/' !in r.1)
  {
    var sep := LastIndexOf(p, '/');
    var dot := LastIndexOf(p, '.');
    if dot > sep && exists j :: sep + 1 <= j < dot && p[j] != '.' then
      assert p[..dot] + p[dot..] == p;
      assert forall j :: 1 <= j < |p[dot..]| ==> p[dot..][j] == p[dot + j];
      (p[..dot], p[dot..])
    else
      (p, "")
  }

  /// A last dot after the last slash, with a first character of the last
  /// component other than a dot, is where `splitext` cuts.
  lemma SplitExtAt(p: string, dot: nat)
    requires dot == LastIndexOf(p, '.') && LastIndexOf(p, '/') + 1 < dot
    requires p[LastIndexOf(p, '/') + 1] != '.'
    ensures SplitExt(p) == (p[..dot], p[dot..])
  {
  }

  /// Splitting off an extension that follows a name which starts with a
  /// character other than a dot gives back the root and that extension.
  lemma SplitExtOf(root: string, e: string)
    requires Basename(root) != "" && Basename(root)[0] != '.'
    requires '.' !in e && '/' !in e
    ensures SplitExt(root + "." + e) == (root, "." + e)
  {
    var p := root + "." + e;
    var k := |root|;
    assert p[..k] == root && p[k..] == "." + e;
    assert forall j :: k < j < |p| ==> p[j] == e[j - k - 1];
    LastIndexAt(p, '.', k);
    var sep := LastIndexOf(root, '/');
    LastIndexOfPrefix(p, root, '/');
    assert Basename(root) == root[sep + 1..];
    assert sep + 1 < k && p[sep + 1] == root[sep + 1];
    SplitExtAt(p, k);
  }

  /// The last `c` of `prefix + rest` is that of `prefix` when `rest` has none.
  lemma LastIndexOfPrefix(p: string, prefix: string, c: char)
    requires |prefix| <= |p| && p[..|prefix|] == prefix
    requires forall j :: |prefix| <= j < |p| ==> p[j] != c
    ensures LastIndexOf(p, c) == LastIndexOf(prefix, c)
    decreases |p|
  {
    if |p| > |prefix| {
      assert p[..|p| - 1][..|prefix|] == prefix;
      LastIndexOfPrefix(p[..|p| - 1], prefix, c);
    } else {
      assert p == prefix;
    }
  }

  // ---------------------------------------------------------------------------
  // The artifact names of nota_bene/utils.py and the upload pages

  /// The name of the compressed copy, from the name of the original:
  /// `<first '.'-segment>_compressed_<bitrate>.<second '.'-segment>`; a name
  /// without a dot has no second segment and the lookup raises IndexError.
  function CompressedName(name: string, bitrate: string): (r: Py<string>)
    ensures r.Raised? <==> '.' !in name
    ensures r.Raised? ==> r.error == IndexError
  {
    var parts := SplitOn(name, '.');
    if |parts| < 2 then Raised(IndexError)
    else Ok(parts[0] + "_compressed_" + bitrate + "." + parts[1])
  }

  /// The path `compress_audio` writes to: the compressed name, in the same directory.
  function CompressedPath(path: string, bitrate: string): Py<string> {
    var (dir, name) := Split(path);
    match CompressedName(name, bitrate)
    case Ok(n) => Ok(Join(dir, n))
    case Raised(e) => Raised(e)
  }

  /// For a name with one dot, the compressed name keeps the stem and the
  /// extension and puts `_compressed_<bitrate>` between them.
  lemma CompressedNameOf(stem: string, ext: string, bitrate: string)
    requires '.' !in stem && '.' !in ext
    ensures CompressedName(stem + "." + ext, bitrate) == Ok(stem + "_compressed_" + bitrate + "." + ext)
  {
    assert stem + "." + ext == JoinOn([stem, ext], '.') by {
      assert [stem, ext][1..] == [ext];
    }
    Strings.SplitJoin([stem, ext], '.');
  }

  /// For a name with two or more dots, the compressed name keeps only the
  /// first two segments: everything from the second dot on is dropped, so
  /// `meeting.2024.mp3` becomes `meeting_compressed_<bitrate>.2024`.
  lemma CompressedNameDropsRest(stem: string, second: string, rest: string, bitrate: string)
    requires '.' !in stem && '.' !in second
    ensures CompressedName(stem + "." + second + "." + rest, bitrate) == Ok(stem + "_compressed_" + bitrate + "." + second)
  {
    var name := stem + "." + second + "." + rest;
    assert name == stem + ['.'] + (second + ['.'] + rest);
    Strings.SplitOnCons(stem, second + ['.'] + rest, '.');
    Strings.SplitOnCons(second, rest, '.');
  }

  /// The compressed copy lies in the directory of the original, under the compressed name.
  lemma CompressedPathSameDirectory(path: string, bitrate: string)
    requires '/' !in bitrate
    requires CompressedPath(path, bitrate).Ok?
    ensures Split(CompressedPath(path, bitrate).value)
         == (Split(path).0, CompressedName(Basename(path), bitrate).value)
  {
    var (dir, name) := Split(path);
    var parts := SplitOn(name, '.');
    SplitOnChars(name, '.', '/');
    var n := CompressedName(name, bitrate).value;
    assert n == parts[0] + "_compressed_" + bitrate + "." + parts[1];
    assert '/' !in n;
    SplitHeadNormal(path);
    SplitOfJoin(dir, n);
  }

  /// `temp_dir/audio_file_stacked_<bitrate><ext>`, the output of `combine_audio_files`.
  function StackedPath(tempDir: string, bitrate: string, ext: string): string {
    Join(tempDir, "audio_file_stacked_" + bitrate + ext)
  }

  /// `temp_dir/file_list.txt`, the manifest of `combine_audio_files`.
  function ManifestPath(tempDir: string): string {
    Join(tempDir, "file_list.txt")
  }

  /// The file name ffmpeg gives segment `i` under the pattern `chunk_%03d.m4a`.
  function ChunkName(i: nat): string {
    "chunk_" + Pad3(i) + ".m4a"
  }

  function ChunkPath(dir: string, i: nat): string {
    Join(dir, ChunkName(i))
  }

  /// The output pattern handed to ffmpeg's segment muxer.
  function ChunkPattern(dir: string): string {
    Join(dir, "chunk_%03d.m4a")
  }

  /// The names the glob `chunk_*.m4a` matches.
  predicate IsChunkName(name: string) {
    |name| >= 10 && name[..6] == "chunk_" && name[|name| - 4..] == ".m4a"
  }

  lemma ChunkNameMatches(i: nat)
    ensures IsChunkName(ChunkName(i))
  {
    var n := ChunkName(i);
    assert n[..6] == "chunk_";
    assert n[|n| - 4..] == ".m4a";
  }

  /// Below 1000 segments, ordering the chunk paths as strings orders them by segment index.
  lemma ChunkPathsOrdered(dir: string, i: nat, j: nat)
    requires i < j < 1000
    ensures Less(ChunkPath(dir, i), ChunkPath(dir, j))
  {
    Pad3Ordered(i, j);
    Pad3Digits(i);
    Pad3Digits(j);
    LessEqualLength(Pad3(i), Pad3(j), ".m4a", ".m4a");
    var p := Join(dir, "chunk_");
    JoinAppend(dir, "chunk_", Pad3(i) + ".m4a");
    JoinAppend(dir, "chunk_", Pad3(j) + ".m4a");
    assert ChunkName(i) == "chunk_" + (Pad3(i) + ".m4a");
    assert ChunkName(j) == "chunk_" + (Pad3(j) + ".m4a");
    LessCommonPrefix(p, Pad3(i) + ".m4a", Pad3(j) + ".m4a");
  }

  /// From 1000 segments on, string order and index order part: segment 1000
  /// sorts before segment 101.
  lemma ChunkPathsMisorderedAt1000(dir: string)
    ensures Less(ChunkPath(dir, 1000), ChunkPath(dir, 101))
  {
    PaddedAt1000();
    JoinAppend(dir, "chunk_10", "00.m4a");
    JoinAppend(dir, "chunk_10", "1.m4a");
    assert ChunkName(1000) == "chunk_10" + "00.m4a";
    assert ChunkName(101) == "chunk_10" + "1.m4a";
    LessCommonPrefix(Join(dir, "chunk_10"), "00.m4a", "1.m4a");
  }

  lemma PaddedAt1000()
    ensures Pad3(1000) == "1000" && Pad3(101) == "101"
  {
    assert DigitChar(0) == '0' && DigitChar(1) == '1';
    assert Decimal(1) == "1";
    assert Decimal(10) == "10";
    assert Decimal(100) == "100";
    assert Decimal(1000) == Decimal(100) + "0";
    assert Decimal(101) == Decimal(10) + "1";
  }

  /// What `Join` puts before a relative name: the directory, and a slash unless it ends with one.
  function DirPrefix(dir: string): string {
    if dir == "" || dir[|dir| - 1] == '/' then dir else dir + "/"
  }

  /// Two names that do not start with a slash give the same path exactly when they are equal.
  lemma JoinInjective(dir: string, a: string, b: string)
    requires |a| > 0 && a[0] != '/' && |b| > 0 && b[0] != '/'
    ensures Join(dir, a) == Join(dir, b) <==> a == b
  {
    var p := DirPrefix(dir);
    assert Join(dir, a) == p + a && Join(dir, b) == p + b;
    if p + a == p + b {
      assert a == (p + a)[|p|..] && b == (p + b)[|p|..];
    }
  }

  /// A name that does not start with a slash is appended to the directory.
  lemma JoinAppend(dir: string, a: string, b: string)
    requires |a| > 0 && a[0] != '/'
    ensures Join(dir, a + b) == Join(dir, a) + b
  {
    assert (a + b)[0] == a[0];
  }

  /// `temp_dir/audio_<i><ext>`, the file the upload loop writes slot `i` to.
  function SlotPath(tempDir: string, i: nat, ext: string): string {
    Join(tempDir, "audio_" + Decimal(i) + ext)
  }

  /// The output path of `convert_wav_to_m4a`: the extension replaced by `.m4a`.
  function M4aPath(path: string): string {
    SplitExt(path).0 + ".m4a"
  }

  lemma M4aPathOf(root: string, e: string)
    requires Basename(root) != "" && Basename(root)[0] != '.'
    requires '.' !in e && '/' !in e
    ensures M4aPath(root + "." + e) == root + ".m4a"
  {
    SplitExtOf(root, e);
  }

  // ---------------------------------------------------------------------------
  // The concat manifest: one line `file '<path>'` per input, in order

  function ManifestEntry(path: string): string {
    "file '" + path + "'"
  }

  /// The text `combine_audio_files` writes: each line followed by a newline.
  function Manifest(paths: seq<string>): string {
    if |paths| == 0 then "" else Manifest(paths[..|paths| - 1]) + ManifestEntry(paths[|paths| - 1]) + "\n"
  }

  /// The path inside one manifest line, if the line has the expected shape.
  function EntryPath(line: string): (r: Option<string>)
    ensures r.Some? ==> line == ManifestEntry(r.value)
  {
    if |line| >= 7 && line[..6] == "file '" && line[|line| - 1] == '\'' then
      assert line == line[..6] + line[6..|line| - 1] + [line[|line| - 1]];
      Some(line[6..|line| - 1])
    else None
  }

  function EntryPaths(lines: seq<string>): Option<seq<string>> {
    if |lines| == 0 then Some([])
    else match (EntryPath(lines[0]), EntryPaths(lines[1..]))
      case (Some(p), Some(ps)) => Some([p] + ps)
      case _ => None
  }

  /// Reading a manifest back line by line: one `file '<path>'` entry per
  /// newline-terminated line. Quotes and escapes inside a path are not
  /// interpreted.
  function ParseManifest(text: string): Option<seq<string>> {
    var lines := SplitOn(text, '\n');
    if lines[|lines| - 1] != "" then None else EntryPaths(lines[..|lines| - 1])
  }

  function Entries(paths: seq<string>): (r: seq<string>)
    ensures |r| == |paths|
    ensures forall i :: 0 <= i < |paths| ==> r[i] == ManifestEntry(paths[i])
  {
    seq(|paths|, i requires 0 <= i < |paths| => ManifestEntry(paths[i]))
  }

  lemma {:induction false} ManifestLines(paths: seq<string>)
    ensures Manifest(paths) == JoinOn(Entries(paths) + [""], '\n')
    decreases |paths|
  {
    if |paths| > 0 {
      var init := paths[..|paths| - 1];
      var e := ManifestEntry(paths[|paths| - 1]);
      ManifestLines(init);
      assert Entries(paths) == Entries(init) + [e];
      if |init| == 0 {
        assert Entries(paths) + [""] == [e, ""];
        assert [e, ""][1..] == [""];
      } else {
        JoinOnSnoc(Entries(init), "", '\n');
        JoinOnSnoc(Entries(init), e, '\n');
        JoinOnSnoc(Entries(init) + [e], "", '\n');
        assert Entries(paths) + [""] == Entries(init) + [e] + [""];
      }
    }
  }

  lemma {:induction false} EntryPathsOf(paths: seq<string>)
    ensures EntryPaths(Entries(paths)) == Some(paths)
    decreases |paths|
  {
    if |paths| > 0 {
      var l := ManifestEntry(paths[0]);
      assert l[..6] == "file '" && l[6..|l| - 1] == paths[0];
      assert Entries(paths)[1..] == Entries(paths[1..]);
      EntryPathsOf(paths[1..]);
      assert paths == [paths[0]] + paths[1..];
    }
  }

  lemma EntryWithoutNewline(path: string)
    requires '\n' !in path
    ensures '\n' !in ManifestEntry(path)
  {
    var l := ManifestEntry(path);
    forall j | 0 <= j < |l| ensures l[j] != '\n' {
      if 6 <= j < 6 + |path| { assert l[j] == path[j - 6]; }
    }
  }

  /// The manifest lists every input path once, in input order: reading it back
  /// gives the inputs, as long as no path holds a newline.
  lemma ManifestRoundTrip(paths: seq<string>)
    requires forall i :: 0 <= i < |paths| ==> '\n' !in paths[i]
    ensures ParseManifest(Manifest(paths)) == Some(paths)
  {
    ManifestLines(paths);
    var lines := Entries(paths) + [""];
    forall i | 0 <= i < |lines| ensures '\n' !in lines[i] {
      if i < |paths| {
        EntryWithoutNewline(paths[i]);
      }
    }
    Strings.SplitJoin(lines, '\n');
    assert lines[..|lines| - 1] == Entries(paths);
    EntryPathsOf(paths);
  }
}
