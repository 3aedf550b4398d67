/// The file operations of nota_bene/utils.py: writing and reading audio,
/// compressing, combining and chunking with ffmpeg, converting WAV to M4A.
///
/// Each operation is a step function on a `World` (disk plus ffmpeg log), and
/// a method that performs it on a `Disk` and promises exactly that step.
module Utils {
  import opened Outcomes
  import opened Strings
  import opened Paths
  import opened Disk

  // ---------------------------------------------------------------------------
  // write_audio_to_disk / file_to_bytesio

  /// The disk after `write_audio_to_disk(audio, path)`: nothing happens without a path.
  function WrittenAudio(files: Files, audio: Bytes, path: Option<string>): (r: Files)
    ensures path.None? ==> r == files
    ensures path.Some? ==> r.Keys == files.Keys + {path.value} && r[path.value] == Binary(audio)
    ensures path.Some? ==> forall p :: p in files && p != path.value ==> r[p] == files[p]
  {
    match path
    case None => files
    case Some(p) => files[p := Binary(audio)]
  }

  /// What `file_to_bytesio(path)` returns: None for no path, the file's
  /// contents, or FileNotFoundError from `open`.
  function ReadAudio(files: Files, path: Option<string>): (r: Py<Option<Content>>)
    ensures path.None? ==> r == Ok(None)
    ensures path.Some? ==> (r.Ok? <==> path.value in files)
    ensures path.Some? && r.Ok? ==> r.value == Some(files[path.value])
    ensures r.Raised? ==> r.error == FileNotFound(path.value)
  {
    match path
    case None => Ok(None)
    case Some(p) => if p in files then Ok(Some(files[p])) else Raised(FileNotFound(p))
  }

  /// Reading a path back after writing audio to it gives that audio.
  lemma ReadAfterWrite(files: Files, audio: Bytes, path: string)
    ensures ReadAudio(WrittenAudio(files, audio, Some(path)), Some(path)) == Ok(Some(Binary(audio)))
  {
  }

  method WriteAudioToDisk(disk: Disk, audio: Bytes, path: Option<string>)
    modifies disk
    ensures disk.files == WrittenAudio(old(disk.files), audio, path)
    ensures disk.runs == old(disk.runs)
  {
    if path.Some? {
      disk.files := disk.files[path.value := Binary(audio)];
    }
  }

  method FileToBytesIO(disk: Disk, path: Option<string>) returns (r: Py<Option<Content>>)
    ensures r == ReadAudio(disk.files, path)
  {
    if path.None? {
      return Ok(None);
    }
    if path.value !in disk.files {
      return Raised(FileNotFound(path.value));
    }
    r := Ok(Some(disk.files[path.value]));
  }

  // ---------------------------------------------------------------------------
  // compress_audio

  /// `compress_audio(path, bitrate)`: the compressed path next to the input;
  /// ffmpeg runs only when that path does not exist yet, and its exit status is
  /// not checked.
  function CompressStep(w: World, path: Option<string>, bitrate: string, tool: Tool): (Py<Option<string>>, World) {
    match path
    case None => (Ok(None), w)
    case Some(p) =>
      match CompressedPath(p, bitrate)
      case Raised(e) => (Raised(e), w)
      case Ok(out) =>
        if out in w.files then (Ok(Some(out)), w)
        else (Ok(Some(out)), Run(w, Compress(p, bitrate, out), out, tool))
  }

  /// Without a path nothing happens; with one, the result is the compressed
  /// path (or IndexError for a file name without a dot), the same whether
  /// ffmpeg ran or not, and at most one ffmpeg run is added.
  lemma CompressResult(w: World, path: Option<string>, bitrate: string, tool: Tool)
    ensures path.None? ==> CompressStep(w, path, bitrate, tool) == (Ok(None), w)
    ensures path.Some? ==> CompressStep(w, path, bitrate, tool).0 == (match CompressedPath(path.value, bitrate)
                                                                    case Ok(out) => Ok(Some(out))
                                                                    case Raised(e) => Raised(e))
    ensures var w' := CompressStep(w, path, bitrate, tool).1;
            w'.runs == w.runs || w'.runs == w.runs + [Compress(path.value, bitrate, CompressedPath(path.value, bitrate).value)]
  {
  }

  /// When the compressed file exists, nothing is run and nothing is written.
  lemma CompressCacheHit(w: World, path: string, bitrate: string, tool: Tool)
    requires CompressedPath(path, bitrate).Ok?
    requires CompressedPath(path, bitrate).value in w.files
    ensures CompressStep(w, Some(path), bitrate, tool) == (Ok(Some(CompressedPath(path, bitrate).value)), w)
  {
  }

  /// Once ffmpeg has produced the compressed file, compressing again returns
  /// the same path and changes nothing, whatever the tool would now do.
  lemma CompressIdempotent(w: World, path: string, bitrate: string, tool: Tool, later: Tool)
    requires CompressedPath(path, bitrate).Ok?
    requires var out := CompressedPath(path, bitrate).value;
             out in w.files || tool(Compress(path, bitrate, out), w.files).Some?
    ensures var (r, w') := CompressStep(w, Some(path), bitrate, tool);
            CompressStep(w', Some(path), bitrate, later) == (r, w')
  {
  }

  method CompressAudio(disk: Disk, path: Option<string>, bitrate: string, tool: Tool) returns (r: Py<Option<string>>)
    modifies disk
    ensures (r, disk.State()) == CompressStep(old(disk.State()), path, bitrate, tool)
  {
    if path.None? {
      return Ok(None);
    }
    var out := CompressedPath(path.value, bitrate);
    if out.Raised? {
      return Raised(out.error);
    }
    if out.value !in disk.files {
      var run := Compress(path.value, bitrate, out.value);
      var produced := tool(run, disk.files);
      if produced.Some? {
        disk.files := disk.files[out.value := Binary(produced.value)];
      }
      disk.runs := disk.runs + [run];
    }
    r := Ok(Some(out.value));
  }

  // ---------------------------------------------------------------------------
  // combine_audio_files

  /// `combine_audio_files(files, temp_dir, bitrate, ext)`: a cache hit when the
  /// stacked file exists; otherwise the manifest is written and the concat
  /// demuxer runs, its exit status unchecked. The stacked path is returned either way.
  function CombineStep(w: World, audioFiles: seq<string>, tempDir: string, bitrate: string, ext: string, tool: Tool): (string, World) {
    var out := StackedPath(tempDir, bitrate, ext);
    if out in w.files then (out, w)
    else
      var listed := World(w.files[ManifestPath(tempDir) := Text(Manifest(audioFiles))], w.runs);
      (out, Run(listed, Concat(ManifestPath(tempDir), out), out, tool))
  }

  lemma StackedIsNotManifest(tempDir: string, bitrate: string, ext: string)
    ensures StackedPath(tempDir, bitrate, ext) != ManifestPath(tempDir)
  {
    var s := "audio_file_stacked_" + bitrate + ext;
    assert s[0] == 'a' && "file_list.txt"[0] == 'f';
    JoinInjective(tempDir, s, "file_list.txt");
  }

  /// The result depends on the directory, the bitrate and the extension only.
  /// When the stacked file is missing, the manifest is written with one entry
  /// per input file in input order, and the concat demuxer runs once on it.
  lemma CombineWritesManifest(w: World, audioFiles: seq<string>, tempDir: string, bitrate: string, ext: string, tool: Tool)
    requires StackedPath(tempDir, bitrate, ext) !in w.files
    requires forall i :: 0 <= i < |audioFiles| ==> '\n' !in audioFiles[i]
    ensures var (out, w') := CombineStep(w, audioFiles, tempDir, bitrate, ext, tool);
            && out == StackedPath(tempDir, bitrate, ext)
            && ManifestPath(tempDir) in w'.files
            && w'.files[ManifestPath(tempDir)].Text?
            && ParseManifest(w'.files[ManifestPath(tempDir)].text) == Some(audioFiles)
            && w'.runs == w.runs + [Concat(ManifestPath(tempDir), out)]
  {
    StackedIsNotManifest(tempDir, bitrate, ext);
    ManifestRoundTrip(audioFiles);
  }

  /// When the stacked file exists, the stacked path is returned at once: no
  /// manifest, no ffmpeg run, whatever the file list.
  lemma CombineCacheHit(w: World, audioFiles: seq<string>, tempDir: string, bitrate: string, ext: string, tool: Tool)
    requires StackedPath(tempDir, bitrate, ext) in w.files
    ensures CombineStep(w, audioFiles, tempDir, bitrate, ext, tool) == (StackedPath(tempDir, bitrate, ext), w)
  {
  }

  /// Once the concat demuxer has produced the stacked file, a later combine in
  /// the same directory with the same bitrate and extension returns it and
  /// changes nothing, even for a different list of files.
  lemma CombineIdempotent(w: World, audioFiles: seq<string>, otherFiles: seq<string>, tempDir: string, bitrate: string, ext: string, tool: Tool, later: Tool)
    requires var out := StackedPath(tempDir, bitrate, ext);
             var listed := w.files[ManifestPath(tempDir) := Text(Manifest(audioFiles))];
             out in w.files || tool(Concat(ManifestPath(tempDir), out), listed).Some?
    ensures var (out, w') := CombineStep(w, audioFiles, tempDir, bitrate, ext, tool);
            CombineStep(w', otherFiles, tempDir, bitrate, ext, later) == (out, w')
  {
  }

  /// Writes the manifest the way the source does: the file is opened for
  /// writing (emptied), then one line per input file is appended.
  method WriteManifest(disk: Disk, listPath: string, audioFiles: seq<string>)
    modifies disk
    ensures disk.files == old(disk.files)[listPath := Text(Manifest(audioFiles))]
    ensures disk.runs == old(disk.runs)
  {
    disk.files := disk.files[listPath := Text("")];
    var i := 0;
    while i < |audioFiles|
      invariant 0 <= i <= |audioFiles|
      invariant disk.files == old(disk.files)[listPath := Text(Manifest(audioFiles[..i]))]
      invariant disk.runs == old(disk.runs)
    {
      assert audioFiles[..i + 1][..i] == audioFiles[..i];
      disk.files := disk.files[listPath := Text(disk.files[listPath].text + ManifestEntry(audioFiles[i]) + "\n")];
      i := i + 1;
    }
    assert audioFiles[..i] == audioFiles;
  }

  method CombineAudioFiles(disk: Disk, audioFiles: seq<string>, tempDir: string, bitrate: string, ext: string, tool: Tool)
    returns (out: string)
    modifies disk
    ensures (out, disk.State()) == CombineStep(old(disk.State()), audioFiles, tempDir, bitrate, ext, tool)
  {
    out := StackedPath(tempDir, bitrate, ext);
    var listPath := ManifestPath(tempDir);
    if out in disk.files {
      return;
    }
    WriteManifest(disk, listPath, audioFiles);
    var run := Concat(listPath, out);
    var produced := tool(run, disk.files);
    if produced.Some? {
      disk.files := disk.files[out := Binary(produced.value)];
    }
    disk.runs := disk.runs + [run];
  }

  // ---------------------------------------------------------------------------
  // create_audio_chunks

  /// Python's truth value of an optional path: None and "" are false.
  predicate Truthy(path: Option<string>) {
    path.Some? && path.value != ""
  }

  /// The disk and log after the segment command of `create_audio_chunks`, and
  /// what it raised. Without an `ffmpeg` binary `subprocess.run` raises
  /// FileNotFoundError before any process starts, so nothing is run or
  /// written; a non-zero exit raises CalledProcessError, as the command runs
  /// with `check=True`.
  function SegmentStep(w: World, tempDir: string, path: string, segmentTime: nat, ffmpegFound: bool, segmenter: Segmenter)
    : (r: (World, Py<()>))
    ensures !ffmpegFound ==> r == (w, Raised(FileNotFound("ffmpeg")))
    ensures ffmpegFound ==> r.0.runs == w.runs + [Segment(path, segmentTime, ChunkPattern(tempDir))]
    ensures ffmpegFound && r.1.Raised? ==> r.1.error == CalledProcessError && r.0.files == w.files
  {
    if !ffmpegFound then (w, Raised(FileNotFound("ffmpeg")))
    else
      var run := Segment(path, segmentTime, ChunkPattern(tempDir));
      match segmenter(run, w.files)
      case None => (World(w.files, w.runs + [run]), Raised(CalledProcessError))
      case Some(chunks) => (World(WriteChunks(w.files, tempDir, chunks), w.runs + [run]), Ok(()))
  }

  /// `create_audio_chunks(temp_dir, file_path, segment_time)`: None for a
  /// missing or empty path; otherwise ffmpeg's segment muxer runs and the
  /// result is every `chunk_*.m4a` of the directory, sorted.
  method CreateAudioChunks(disk: Disk, tempDir: string, path: Option<string>, segmentTime: nat, ffmpegFound: bool,
                           segmenter: Segmenter)
    returns (r: Py<Option<seq<string>>>)
    modifies disk
    ensures !Truthy(path) ==> r == Ok(None) && disk.State() == old(disk.State())
    ensures Truthy(path) ==>
      var (w', raised) := SegmentStep(old(disk.State()), tempDir, path.value, segmentTime, ffmpegFound, segmenter);
      disk.State() == w' && (r.Raised? <==> raised.Raised?) && (r.Raised? ==> r.error == raised.error)
    ensures r.Ok? && Truthy(path) ==> (r.value.Some? && StrictlySorted(r.value.value)
                                       && Elems(r.value.value) == ChunkFiles(disk.files, tempDir))
  {
    if !Truthy(path) {
      return Ok(None);
    }
    if !ffmpegFound {
      return Raised(FileNotFound("ffmpeg"));
    }
    var run := Segment(path.value, segmentTime, ChunkPattern(tempDir));
    var produced := segmenter(run, disk.files);
    disk.runs := disk.runs + [run];
    if produced.None? {
      return Raised(CalledProcessError);
    }
    disk.files := WriteChunks(disk.files, tempDir, produced.value);
    var listing := SortSet(ChunkFiles(disk.files, tempDir));
    r := Ok(Some(listing));
  }

  /// The same, with the chunk files of earlier runs deleted before segmenting:
  /// the listing is then exactly this run's segments in index order.
  method CreateFreshAudioChunks(disk: Disk, tempDir: string, path: Option<string>, segmentTime: nat, ffmpegFound: bool,
                                segmenter: Segmenter)
    returns (r: Py<Option<seq<string>>>)
    modifies disk
    ensures !Truthy(path) ==> r == Ok(None) && disk.State() == old(disk.State())
    ensures Truthy(path) && !ffmpegFound ==> r == Raised(FileNotFound("ffmpeg")) && disk.State() == old(disk.State())
    ensures Truthy(path) && ffmpegFound ==>
      var cleared := World(RemoveChunks(old(disk.files), tempDir), old(disk.runs));
      var (w', raised) := SegmentStep(cleared, tempDir, path.value, segmentTime, ffmpegFound, segmenter);
      disk.State() == w' && (r.Raised? <==> raised.Raised?) && (r.Raised? ==> r.error == raised.error)
    ensures r.Ok? && Truthy(path) ==>
      var chunks := segmenter(Segment(path.value, segmentTime, ChunkPattern(tempDir)), RemoveChunks(old(disk.files), tempDir)).value;
      |chunks| <= 1000 ==> r.value == Some(ChunkPaths(tempDir, |chunks|))
  {
    if !Truthy(path) {
      return Ok(None);
    }
    if !ffmpegFound {
      return Raised(FileNotFound("ffmpeg"));
    }
    disk.files := RemoveChunks(disk.files, tempDir);
    ghost var cleared := disk.files;
    var run := Segment(path.value, segmentTime, ChunkPattern(tempDir));
    var produced := segmenter(run, disk.files);
    disk.runs := disk.runs + [run];
    if produced.None? {
      return Raised(CalledProcessError);
    }
    disk.files := WriteChunks(disk.files, tempDir, produced.value);
    var listing := SortSet(ChunkFiles(disk.files, tempDir));
    if |produced.value| <= 1000 {
      ChunkListingFresh(cleared, tempDir, produced.value, listing);
    }
    r := Ok(Some(listing));
  }

  // ---------------------------------------------------------------------------
  // convert_wav_to_m4a

  /// `convert_wav_to_m4a(path, bitrate)`: FileNotFoundError for a missing
  /// input; otherwise ffmpeg writes the `.m4a` path (raising on failure, as it
  /// runs with `check=True`) and that path is returned.
  function ConvertStep(w: World, path: string, bitrate: string, tool: Tool): (Py<string>, World) {
    if path !in w.files then (Raised(FileNotFound(path)), w)
    else
      var out := M4aPath(path);
      var run := ConvertToM4a(path, bitrate, out);
      var w' := Run(w, run, out, tool);
      if tool(run, w.files).None? then (Raised(CalledProcessError), w') else (Ok(out), w')
  }

  /// A missing input raises before ffmpeg runs; an existing one always runs
  /// ffmpeg once, and a success yields the input path with the extension
  /// replaced by `.m4a`, holding what ffmpeg produced.
  lemma ConvertResult(w: World, path: string, bitrate: string, tool: Tool)
    ensures var (r, w') := ConvertStep(w, path, bitrate, tool);
            && (path !in w.files ==> r == Raised(FileNotFound(path)) && w' == w)
            && (path in w.files ==> w'.runs == w.runs + [ConvertToM4a(path, bitrate, M4aPath(path))])
            && (r.Ok? ==> r.value == SplitExt(path).0 + ".m4a" && r.value in w'.files && w'.files[r.value].Binary?)
  {
  }

  method ConvertWavToM4a(disk: Disk, path: string, bitrate: string, tool: Tool) returns (r: Py<string>)
    modifies disk
    ensures (r, disk.State()) == ConvertStep(old(disk.State()), path, bitrate, tool)
  {
    if path !in disk.files {
      return Raised(FileNotFound(path));
    }
    var out := M4aPath(path);
    var run := ConvertToM4a(path, bitrate, out);
    var produced := tool(run, disk.files);
    if produced.Some? {
      disk.files := disk.files[out := Binary(produced.value)];
    }
    disk.runs := disk.runs + [run];
    if produced.None? {
      return Raised(CalledProcessError);
    }
    r := Ok(out);
  }
}
