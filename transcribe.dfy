/// The transcription page, nota_bene/app_pages/transcribe.py: the combined
/// audio is cut into five-minute chunks, each chunk is transcribed, and the
/// texts are joined into the session's transcript.
module Transcribe {
  import opened Outcomes
  import opened Strings
  import opened Paths
  import opened Disk
  import Session
  import opened Utils

  type State = Session.State

  /// The local Whisper transcriber behind `st.cache_data`: the `text` entry of
  /// its result for a chunk path and a model name, or None when the result
  /// has none. The cache is keyed by the path and the model name, so the
  /// text is a function of those two.
  type Whisper = (string, string) -> Option<string>

  /// The chunk length the page asks for, in seconds.
  const SegmentTime: nat := 300

  /// The model choice that goes to the OpenAI API instead of local Whisper.
  const OpenAIChoice: string := "OpenAI"

  /// `transcript.get('text', '')`.
  function TextOf(result: Option<string>): string {
    if result.Some? then result.value else ""
  }

  /// The text of each chunk, in listing order. The OpenAI transcriber returns
  /// a str, and `.get` on a str raises AttributeError at the first chunk.
  function Pieces(chunks: seq<string>, select: string, whisper: Whisper): (r: Py<seq<string>>)
    ensures r.Raised? <==> select == OpenAIChoice && |chunks| > 0
    ensures r.Raised? ==> r.error == AttributeError
    ensures r.Ok? ==> |r.value| == |chunks|
    ensures r.Ok? ==> forall i :: 0 <= i < |chunks| ==> r.value[i] == TextOf(whisper(chunks[i], select))
  {
    if select == OpenAIChoice && |chunks| > 0 then Raised(AttributeError)
    else Ok(seq(|chunks|, i requires 0 <= i < |chunks| => TextOf(whisper(chunks[i], select))))
  }

  /// `' '.join(transcripts)`.
  function Transcript(chunks: seq<string>, select: string, whisper: Whisper): Py<string> {
    match Pieces(chunks, select, whisper)
    case Raised(e) => Raised(e)
    case Ok(texts) => Ok(JoinOn(texts, ' '))
  }

  /// When no chunk text holds a space, splitting the transcript at spaces
  /// gives back the text of each chunk, in chunk order.
  lemma TranscriptSplits(chunks: seq<string>, select: string, whisper: Whisper)
    requires select != OpenAIChoice && |chunks| > 0
    requires forall i :: 0 <= i < |chunks| ==> ' ' !in TextOf(whisper(chunks[i], select))
    ensures Transcript(chunks, select, whisper).Ok?
    ensures var parts := SplitOn(Transcript(chunks, select, whisper).value, ' ');
            |parts| == |chunks| && forall i :: 0 <= i < |chunks| ==> parts[i] == TextOf(whisper(chunks[i], select))
  {
    Strings.SplitJoin(Pieces(chunks, select, whisper).value, ' ');
  }

  /// The transcript stored in the session, or the exception raised while
  /// building it (the session is then left as it was).
  function Transcribed(state: State, chunks: seq<string>, select: string, whisper: Whisper): (Py<()>, State) {
    match Transcript(chunks, select, whisper)
    case Raised(e) => (Raised(e), state)
    case Ok(t) => (Ok(()), state["transcript" := Session.Str(t)])
  }

  /// What `sorted(Path(temp_dir).glob("chunk_*.m4a"))` can return.
  predicate IsListing(listing: seq<string>, files: Files, dir: string) {
    StrictlySorted(listing) && Elems(listing) == ChunkFiles(files, dir)
  }

  // ---------------------------------------------------------------------------
  // Chunk order

  /// In a directory without earlier chunks and with at most 1000 new ones,
  /// the chunks are transcribed in index order.
  lemma TranscriptInIndexOrder(files: Files, dir: string, chunks: seq<Bytes>, listing: seq<string>, select: string, whisper: Whisper)
    requires ChunkFiles(files, dir) == {} && |chunks| <= 1000
    requires IsListing(listing, WriteChunks(files, dir, chunks), dir)
    requires select != OpenAIChoice
    ensures Transcript(listing, select, whisper)
         == Ok(JoinOn(seq(|chunks|, i requires 0 <= i < |chunks| => TextOf(whisper(ChunkPath(dir, i), select))), ' '))
  {
    ChunkListingFresh(files, dir, chunks, listing);
    assert Pieces(listing, select, whisper).value
        == seq(|chunks|, i requires 0 <= i < |chunks| => TextOf(whisper(ChunkPath(dir, i), select)));
  }

  /// A chunk left by an earlier, longer recording is listed with the new
  /// ones, so its text ends up in the new transcript.
  lemma StaleChunkTranscribed(files: Files, dir: string, chunks: seq<Bytes>, k: nat, listing: seq<string>, select: string, whisper: Whisper)
    requires ChunkPath(dir, k) in files && |chunks| <= k < 1000
    requires IsListing(listing, WriteChunks(files, dir, chunks), dir)
    requires select != OpenAIChoice
    ensures exists i :: 0 <= i < |listing| && listing[i] == ChunkPath(dir, k)
                        && Pieces(listing, select, whisper).value[i] == TextOf(whisper(ChunkPath(dir, k), select))
  {
    StaleChunkListed(files, dir, chunks, k, listing);
    var i :| 0 <= i < |listing| && listing[i] == ChunkPath(dir, k);
  }

  /// With the chunk files of earlier runs removed first, the listing is the
  /// new chunks in index order.
  lemma FreshChunksTranscribedInOrder(files: Files, dir: string, chunks: seq<Bytes>, listing: seq<string>, select: string, whisper: Whisper)
    requires |chunks| <= 1000
    requires IsListing(listing, WriteChunks(RemoveChunks(files, dir), dir, chunks), dir)
    requires select != OpenAIChoice
    ensures Transcript(listing, select, whisper)
         == Ok(JoinOn(seq(|chunks|, i requires 0 <= i < |chunks| => TextOf(whisper(ChunkPath(dir, i), select))), ' '))
  {
    TranscriptInIndexOrder(RemoveChunks(files, dir), dir, chunks, listing, select, whisper);
  }

  /// The text of a chunk depends on its path and the model only, and every
  /// run writes `chunk_000.m4a`, `chunk_001.m4a`, ... into the same directory.
  /// So two recordings cut into the same number of chunks get the same
  /// transcript, even with earlier chunk files removed first: the texts of
  /// the first recording's chunks are reused.
  lemma SameChunkCountSameTranscript(files: Files, files': Files, dir: string, chunks: seq<Bytes>, chunks': seq<Bytes>,
                                     listing: seq<string>, listing': seq<string>, select: string, whisper: Whisper)
    requires |chunks| == |chunks'| <= 1000
    requires IsListing(listing, WriteChunks(RemoveChunks(files, dir), dir, chunks), dir)
    requires IsListing(listing', WriteChunks(RemoveChunks(files', dir), dir, chunks'), dir)
    requires select != OpenAIChoice
    ensures Transcript(listing, select, whisper) == Transcript(listing', select, whisper)
  {
    FreshChunksTranscribedInOrder(files, dir, chunks, listing, select, whisper);
    FreshChunksTranscribedInOrder(files', dir, chunks', listing', select, whisper);
  }

  // ---------------------------------------------------------------------------
  // transcribe_button

  /// How far `transcribe_button` gets before transcribing: nowhere (no key or
  /// no press), an exception (with the disk as it then is), or a chunked
  /// directory.
  datatype Stage = Idle | Failed(error: PyError, w: World) | Chunked(tempDir: string, w: World)

  /// The API key check (a missing attribute raises AttributeError, a falsy
  /// key shows a notice), the press, the temporary directory and the audio
  /// path read from the session, and `create_audio_chunks`, whose None for a
  /// missing path makes the loop raise TypeError.
  function ChunkStage(state: State, w: World, pressed: bool, ffmpegFound: bool, segmenter: Segmenter): Stage {
    if "openai_api_key" !in state then Failed(AttributeError, w)
    else if !Session.IsTruthy(state["openai_api_key"]) || !pressed then Idle
    else match Session.StrEntry(state, "temp_dir")
      case Raised(e) => Failed(e, w)
      case Ok(tempDir) =>
        match Session.PathEntry(state, "audio_filepath")
        case Raised(e) => Failed(e, w)
        case Ok(path) =>
          if !Truthy(path) then Failed(TypeError, w)
          else
            var (w', raised) := SegmentStep(w, tempDir, path.value, SegmentTime, ffmpegFound, segmenter);
            if raised.Ok? then Chunked(tempDir, w') else Failed(raised.error, w')
  }

  /// Without a truthy key or a press nothing happens; with them and an audio
  /// path, ffmpeg's segment muxer runs exactly once, on that path. The page
  /// does not check for the ffmpeg binary first, so without it the press
  /// raises FileNotFoundError and nothing is run or written.
  lemma ChunkStageGuards(state: State, w: World, pressed: bool, ffmpegFound: bool, segmenter: Segmenter)
    ensures "openai_api_key" !in state ==> ChunkStage(state, w, pressed, ffmpegFound, segmenter) == Failed(AttributeError, w)
    ensures "openai_api_key" in state && (!Session.IsTruthy(state["openai_api_key"]) || !pressed) ==>
      ChunkStage(state, w, pressed, ffmpegFound, segmenter) == Idle
    ensures ChunkStage(state, w, pressed, ffmpegFound, segmenter).Chunked? ==>
      && "audio_filepath" in state && state["audio_filepath"].Str? && state["audio_filepath"].s != ""
      && var stage := ChunkStage(state, w, pressed, ffmpegFound, segmenter);
         stage.w.runs == w.runs + [Segment(state["audio_filepath"].s, SegmentTime, ChunkPattern(stage.tempDir))]
    ensures && "openai_api_key" in state && Session.IsTruthy(state["openai_api_key"]) && pressed
            && "temp_dir" in state && state["temp_dir"].Str?
            && "audio_filepath" in state && state["audio_filepath"].Str? && state["audio_filepath"].s != ""
            && !ffmpegFound
            ==> ChunkStage(state, w, pressed, ffmpegFound, segmenter) == Failed(FileNotFound("ffmpeg"), w)
  {
  }

  /// `transcribe_button`: chunk the recorded audio, transcribe each chunk in
  /// listing order, and store the joined text as the transcript.
  method TranscribeButton(disk: Disk, session: Session.SessionState, select: string, pressed: bool,
                          ffmpegFound: bool, segmenter: Segmenter, whisper: Whisper) returns (r: Py<()>)
    modifies disk, session
    ensures var stage := ChunkStage(old(session.entries), old(disk.State()), pressed, ffmpegFound, segmenter);
            && (stage.Idle? ==> r == Ok(()) && session.entries == old(session.entries) && disk.State() == old(disk.State()))
            && (stage.Failed? ==> r == Raised(stage.error) && session.entries == old(session.entries) && disk.State() == stage.w)
            && (stage.Chunked? ==> (disk.State() == stage.w
                  && (exists listing :: IsListing(listing, stage.w.files, stage.tempDir))
                  && forall listing | IsListing(listing, stage.w.files, stage.tempDir) ::
                       (r, session.entries) == Transcribed(old(session.entries), listing, select, whisper)))
  {
    ghost var start := session.entries;
    ghost var stage := ChunkStage(session.entries, disk.State(), pressed, ffmpegFound, segmenter);
    if "openai_api_key" !in session.entries {
      return Raised(AttributeError);
    }
    if !Session.IsTruthy(session.entries["openai_api_key"]) || !pressed {
      return Ok(());
    }
    var tempDir := Session.StrEntry(session.entries, "temp_dir");
    if tempDir.Raised? {
      return Raised(tempDir.error);
    }
    var path := Session.PathEntry(session.entries, "audio_filepath");
    if path.Raised? {
      return Raised(path.error);
    }
    var chunks := CreateAudioChunks(disk, tempDir.value, path.value, SegmentTime, ffmpegFound, segmenter);
    if chunks.Raised? {
      return Raised(chunks.error);
    }
    if chunks.value.None? {
      return Raised(TypeError);
    }
    var listing := chunks.value.value;
    assert stage == Chunked(tempDir.value, disk.State());
    assert IsListing(listing, stage.w.files, stage.tempDir);
    forall other | IsListing(other, stage.w.files, stage.tempDir) ensures other == listing {
      SortedUnique(other, listing);
    }
    var texts := [];
    var i := 0;
    while i < |listing|
      invariant 0 <= i <= |listing|
      invariant select != OpenAIChoice ==> texts == Pieces(listing[..i], select, whisper).value
      invariant select == OpenAIChoice ==> i == 0 && texts == []
    {
      if select == OpenAIChoice {
        return Raised(AttributeError);
      }
      texts := texts + [TextOf(whisper(listing[i], select))];
      i := i + 1;
    }
    assert listing[..i] == listing;
    session.entries := session.entries["transcript" := Session.Str(JoinOn(texts, ' '))];
    r := Ok(());
  }

  // ---------------------------------------------------------------------------
  // The page

  /// What the page offers: a link back to the upload page, the transcribe
  /// controls, or neither.
  datatype Offer = UploadFirst | TranscribeControls | NoOffer

  /// The guard at the bottom of transcribe.py on a given session: no audio
  /// sends the user to upload; audio without a transcript offers the button;
  /// the second component is the truth test of the transcript on that same
  /// session. When the button is pressed in this run, the test at the end of
  /// the page reads the session the button left behind, which is `PageView`
  /// of `Transcribed(...).1` (see `TranscribedOnce`). A missing attribute
  /// raises AttributeError.
  function PageView(state: State): Py<(Offer, bool)> {
    if "audio" !in state then Raised(AttributeError)
    else if state["audio"] == Session.Null then
      if "transcript" !in state then Raised(AttributeError)
      else Ok((UploadFirst, Session.IsTruthy(state["transcript"])))
    else if "transcript" !in state then Raised(AttributeError)
    else if state["transcript"] == Session.Null then Ok((TranscribeControls, false))
    else Ok((NoOffer, Session.IsTruthy(state["transcript"])))
  }

  /// The button is offered exactly when there is audio and no transcript yet.
  lemma PageOffersButton(state: State)
    requires "audio" in state && "transcript" in state
    ensures PageView(state).Ok?
    ensures PageView(state).value.0 == TranscribeControls <==> state["audio"] != Session.Null && state["transcript"] == Session.Null
    ensures PageView(state).value.0 == UploadFirst <==> state["audio"] == Session.Null
  {
  }

  /// After a transcription is stored, the page no longer offers the button,
  /// and it shows the transcript whenever the text is not empty.
  lemma TranscribedOnce(state: State, chunks: seq<string>, select: string, whisper: Whisper)
    requires "audio" in state && state["audio"] != Session.Null
    requires Transcribed(state, chunks, select, whisper).0.Ok?
    ensures var state' := Transcribed(state, chunks, select, whisper).1;
            && PageView(state').Ok?
            && PageView(state').value.0 == NoOffer
            && (PageView(state').value.1 <==> Transcript(chunks, select, whisper).value != "")
  {
  }
}
