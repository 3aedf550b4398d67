/// The file system the pipeline works on, and ffmpeg as an abstract tool.
///
/// The disk is a flat map from path to contents; directories are not modelled.
/// Every ffmpeg invocation is recorded with the arguments the code passes, and
/// what it writes is decided by a tool function the caller supplies: a function
/// of the command and of the disk as it is when the command runs, giving `None`
/// when ffmpeg exits with an error and writes nothing.
module Disk {
  import opened Outcomes
  import opened Strings
  import opened Paths

  newtype byte = b: int | 0 <= b < 256

  type Bytes = seq<byte>

  /// What a file holds: bytes written in binary mode, or text written in text
  /// mode (its encoding is not modelled).
  datatype Content = Binary(bytes: Bytes) | Text(text: string)

  type Files = map<string, Content>

  /// An ffmpeg command line as the code builds it.
  datatype ToolRun =
    | Compress(input: string, bitrate: string, output: string)      // -i <in> -b:a <bitrate> <out>
    | Concat(manifest: string, output: string)                       // -f concat -safe 0 -i <list> -c copy <out>
    | Segment(input: string, segmentTime: nat, pattern: string)      // -i <in> -f segment -segment_time <t> -c copy -reset_timestamps 1 -map 0 <pattern>
    | ConvertToM4a(input: string, bitrate: string, output: string)  // -i <in> -c:a aac -b:a <bitrate> -movflags +faststart <out>

  /// What a one-output command writes, or `None` when it fails.
  type Tool = (ToolRun, Files) -> Option<Bytes>

  /// What the segment muxer writes, segment by segment, or `None` when it fails.
  type Segmenter = (ToolRun, Files) -> Option<seq<Bytes>>

  /// The disk and the log of every ffmpeg run so far.
  class Disk {
    var files: Files
    var runs: seq<ToolRun>

    constructor (files: Files)
      ensures this.files == files && runs == []
    {
      this.files := files;
      runs := [];
    }

    /// The disk and the log as a value.
    function State(): World
      reads this
    {
      World(files, runs)
    }
  }

  /// A snapshot of the disk and of the ffmpeg log.
  datatype World = World(files: Files, runs: seq<ToolRun>)

  /// One run of a one-output command: logged, and its output written if it succeeded.
  function Run(w: World, run: ToolRun, output: string, tool: Tool): (r: World)
    ensures r.runs == w.runs + [run]
    ensures tool(run, w.files).Some? ==> r.files == w.files[output := Binary(tool(run, w.files).value)]
    ensures tool(run, w.files).None? ==> r.files == w.files
  {
    match tool(run, w.files)
    case Some(b) => World(w.files[output := Binary(b)], w.runs + [run])
    case None => World(w.files, w.runs + [run])
  }

  // ---------------------------------------------------------------------------
  // Chunk files: what ffmpeg's segment muxer writes and what the glob finds

  /// The paths of the segments `0 .. n-1` under `dir`.
  function ChunkPaths(dir: string, n: nat): (r: seq<string>)
    ensures |r| == n
    ensures forall i :: 0 <= i < n ==> r[i] == ChunkPath(dir, i)
  {
    seq(n, i requires 0 <= i < n => ChunkPath(dir, i))
  }

  /// The segment files written one after the other, `chunk_000.m4a` first.
  function WriteChunks(files: Files, dir: string, chunks: seq<Bytes>): (r: Files)
    ensures r.Keys == files.Keys + Elems(ChunkPaths(dir, |chunks|))
  {
    if |chunks| == 0 then files
    else
      var n := |chunks| - 1;
      var before := WriteChunks(files, dir, chunks[..n]);
      assert Elems(ChunkPaths(dir, n + 1)) == Elems(ChunkPaths(dir, n)) + {ChunkPath(dir, n)} by {
        assert ChunkPaths(dir, n + 1) == ChunkPaths(dir, n) + [ChunkPath(dir, n)];
      }
      before[ChunkPath(dir, n) := Binary(chunks[n])]
  }

  /// A path the glob `dir/chunk_*.m4a` returns.
  predicate IsChunkFileIn(p: string, dir: string) {
    p == Join(dir, Basename(p)) && IsChunkName(Basename(p))
  }

  /// Every file the glob `dir/chunk_*.m4a` returns, whichever run wrote it.
  function ChunkFiles(files: Files, dir: string): set<string> {
    set p | p in files && IsChunkFileIn(p, dir)
  }

  /// A name without a slash is the last component of the path it is joined to.
  lemma BasenameOfJoin(dir: string, name: string)
    requires name != "" && '/' !in name
    ensures Basename(Join(dir, name)) == name
  {
    var p := Join(dir, name);
    var k := |p| - |name|;
    assert p[k..] == name;
    assert k == 0 || p[k - 1] == '/';
    assert forall j :: k <= j < |p| ==> p[j] != '/' by {
      forall j | k <= j < |p| ensures p[j] != '/' {
        assert p[j] == name[j - k];
      }
    }
    if k > 0 {
      LastIndexAt(p, '/', k - 1);
    } else {
      NoLastIndex(p, '/');
    }
    assert Split(p).1 == p[k..];
  }

  lemma ChunkNameHasNoSlash(i: nat)
    ensures '/' !in ChunkName(i)
  {
    var n := ChunkName(i);
    forall j | 0 <= j < |n| ensures n[j] != '/' {
      if 6 <= j < |n| - 4 { assert n[j] == Pad3(i)[j - 6]; }
    }
  }

  lemma ChunkPathIsChunkFile(dir: string, i: nat)
    ensures IsChunkFileIn(ChunkPath(dir, i), dir)
  {
    ChunkNameHasNoSlash(i);
    BasenameOfJoin(dir, ChunkName(i));
    ChunkNameMatches(i);
  }

  lemma ChunkFilesUpdate(files: Files, dir: string, p: string, data: Content)
    requires IsChunkFileIn(p, dir)
    ensures ChunkFiles(files[p := data], dir) == ChunkFiles(files, dir) + {p}
  {
  }

  /// One more segment path adds that path to the set of segment paths.
  lemma ChunkPathsSnoc(dir: string, n: nat)
    ensures Elems(ChunkPaths(dir, n + 1)) == Elems(ChunkPaths(dir, n)) + {ChunkPath(dir, n)}
  {
    assert ChunkPaths(dir, n + 1) == ChunkPaths(dir, n) + [ChunkPath(dir, n)];
  }

  /// The last segment is written after all the others.
  lemma WriteChunksSnoc(files: Files, dir: string, chunks: seq<Bytes>)
    requires |chunks| > 0
    ensures WriteChunks(files, dir, chunks)
         == WriteChunks(files, dir, chunks[..|chunks| - 1])[ChunkPath(dir, |chunks| - 1) := Binary(chunks[|chunks| - 1])]
  {
  }

  /// After the segment muxer ran, the glob finds the old chunk files and the new ones.
  lemma {:induction false} ChunkFilesAfterWrite(files: Files, dir: string, chunks: seq<Bytes>)
    ensures ChunkFiles(WriteChunks(files, dir, chunks), dir)
         == ChunkFiles(files, dir) + Elems(ChunkPaths(dir, |chunks|))
    decreases |chunks|
  {
    if |chunks| > 0 {
      var n := |chunks| - 1;
      var before := WriteChunks(files, dir, chunks[..n]);
      var q := ChunkPath(dir, n);
      calc {
        ChunkFiles(WriteChunks(files, dir, chunks), dir);
        { WriteChunksSnoc(files, dir, chunks); }
        ChunkFiles(before[q := Binary(chunks[n])], dir);
        { ChunkPathIsChunkFile(dir, n); ChunkFilesUpdate(before, dir, q, Binary(chunks[n])); }
        ChunkFiles(before, dir) + {q};
        { ChunkFilesAfterWrite(files, dir, chunks[..n]); }
        ChunkFiles(files, dir) + Elems(ChunkPaths(dir, n)) + {q};
        { ChunkPathsSnoc(dir, n); }
        ChunkFiles(files, dir) + Elems(ChunkPaths(dir, n + 1));
      }
    }
  }

  /// Below 1000 segments the chunk paths come in string order.
  lemma ChunkPathsSorted(dir: string, n: nat)
    requires n <= 1000
    ensures StrictlySorted(ChunkPaths(dir, n))
  {
    forall i, j | 0 <= i < j < n ensures Less(ChunkPaths(dir, n)[i], ChunkPaths(dir, n)[j]) {
      ChunkPathsOrdered(dir, i, j);
    }
  }

  /// In a directory without chunk files, the sorted listing after the segment
  /// muxer ran is exactly the new segments in index order (up to 1000 of them).
  lemma ChunkListingFresh(files: Files, dir: string, chunks: seq<Bytes>, listing: seq<string>)
    requires ChunkFiles(files, dir) == {}
    requires |chunks| <= 1000
    requires StrictlySorted(listing)
    requires Elems(listing) == ChunkFiles(WriteChunks(files, dir, chunks), dir)
    ensures listing == ChunkPaths(dir, |chunks|)
  {
    ChunkFilesAfterWrite(files, dir, chunks);
    ChunkPathsSorted(dir, |chunks|);
    SortedUnique(listing, ChunkPaths(dir, |chunks|));
  }

  /// A chunk file left by an earlier, longer run is listed with the new
  /// segments: the listing is then not the segments this run produced.
  lemma StaleChunkListed(files: Files, dir: string, chunks: seq<Bytes>, k: nat, listing: seq<string>)
    requires ChunkPath(dir, k) in files
    requires |chunks| <= k < 1000
    requires Elems(listing) == ChunkFiles(WriteChunks(files, dir, chunks), dir)
    ensures ChunkPath(dir, k) in listing
    ensures listing != ChunkPaths(dir, |chunks|)
  {
    ChunkFilesAfterWrite(files, dir, chunks);
    ChunkPathIsChunkFile(dir, k);
    assert ChunkPath(dir, k) in ChunkFiles(files, dir);
    assert ChunkPath(dir, k) in Elems(listing);
    forall i | 0 <= i < |chunks| ensures ChunkPaths(dir, |chunks|)[i] != ChunkPath(dir, k) {
      ChunkPathsOrdered(dir, i, k);
      LessIrreflexive(ChunkPath(dir, k));
    }
  }

  /// The disk with every chunk file of `dir` deleted.
  function RemoveChunks(files: Files, dir: string): (r: Files)
    ensures ChunkFiles(r, dir) == {}
    ensures forall p :: p in files && !IsChunkFileIn(p, dir) ==> p in r && r[p] == files[p]
  {
    map p | p in files && !IsChunkFileIn(p, dir) :: files[p]
  }
}
