# nota_bene audio pipeline, modelled in Dafny

nota_bene (transcribeIT) is a Streamlit app. It records or uploads audio,
puts the fragments in the order the user picks and joins them with ffmpeg.
It then cuts the joined track into chunks, transcribes each chunk with
Whisper and keeps the joined text as the meeting transcript. This project
models the bookkeeping around that pipeline:

- **`Session`** (`session.dfy`): the session dictionary and its set-if-absent
  initialisation, `init_session_key` / `init_session_keys`.
- **`Paths`** (`paths.dfy`): the artifact names the code derives by string
  manipulation.
  - `<stem>_compressed_<bitrate>.<ext>` and `audio_file_stacked_<bitrate><ext>`.
  - `chunk_%03d.m4a`, `audio_<i><ext>` and the `.m4a` conversion name.
  - The concat manifest `file '<path>'`, and the POSIX `os.path` functions
    that produce all of these.
- **`Disk`** (`disk.dfy`): the file system as a map from path to contents,
  and ffmpeg as an abstract tool.
  - Each ffmpeg command is logged with the arguments the code passes.
  - What a command writes is a caller-supplied function of the command and
    the disk. `None` stands for a non-zero exit.
- **`Utils`** (`utils.dfy`): `write_audio_to_disk`, `file_to_bytesio`,
  `compress_audio`, `combine_audio_files`, `create_audio_chunks` and
  `convert_wav_to_m4a`.
  - Each is a pure step function on the disk and the ffmpeg log.
  - A method performs it on a `Disk` object and promises exactly that step.
- **`Recording`** (`recording.dfy`): the recordings page.
  - A dictionary from timestamp to WAV bytes and the list that orders the
    keys.
  - Save, `remove_audio`, `move_audio` and the page's initialisation.
- **`Upload`** (`upload.dfy`): `audio_processing` of the upload and
  preprocessing pages.
  - Each upload goes to a numbered slot file, which is compressed.
  - The compressed slots are concatenated, and the session is updated.
- **`Transcribe`** (`transcribe.dfy`): the transcription page.
  `transcribe_button` chunks the audio, transcribes every chunk in listing
  order and stores the space-joined text. It also covers the guard that
  decides what the page offers.

Python exceptions are values: `Py<T>` is `Ok(value)` or `Raised(error)`, with
the error kinds of `Outcomes.PyError`. An operation that raises is modelled
up to the point of raising. What it changed before that stays changed.

Where the description of the system and the code disagree, the model follows
the code:

- The combined file is keyed by directory, bitrate and extension only, not by
  the list of fragments.
- Compression reuses any existing output; no bitrate is probed.
- The exit status of the compress and concat commands is not checked.
- Saving an existing key appends it a second time; there is no
  duplicate-key error.
- The chunk listing is a glob of the whole directory.

## Model

| member | source | states |
|---|---|---|
| Session.SetDefault | nota_bene/utils.py:111-123 | The default is stored only under an absent key: the key set gains the key, every existing entry keeps its value, and an absent key gets the default |
| Session.SetDefaultIdempotent | nota_bene/utils.py:122-123 | Initialising a key a second time, with any default, changes nothing |
| Session.SetDefaultsKeeps | nota_bene/utils.py:125-143 | After a run of initialisations every listed key is present, no other key appears, and every key that was present keeps its value |
| Session.SetDefaultsPresent | nota_bene/utils.py:125-143 | When every listed key is already present the initialisation changes nothing |
| Session.SetDefaultsIdempotent | nota_bene/utils.py:125-143 | Running the initialisation twice equals running it once |
| Session.SessionState.InitSessionKey | nota_bene/utils.py:111-123 | The in-place update equals `SetDefault` on the old entries |
| Session.OpenAIKey | nota_bene/utils.py:135 | `st.secrets["openai"]["key"]`: KeyError for `openai` when the table is missing, KeyError for `key` when the table lacks it, otherwise the stored key |
| Session.SessionState.InitSessionKeys | nota_bene/utils.py:125-143 | With the secret present, all thirteen defaults are applied in source order. When the `openai` table or its `key` is missing, that KeyError is raised after the first four keys are set |
| Session.SessionState.InitEarlyKeys | nota_bene/utils.py:131-134 | Applies the defaults of `audio`, `transcript`, `model` and `prompt` in order |
| Session.SessionState.InitLateKeys | nota_bene/utils.py:135-143 | Applies the defaults from `openai_api_key` to `bitrate`, with `temp_dir` = `<system temp>/notabena` and `bitrate` = `24k` |
| Session.SessionState.InitKeyDefaults | nota_bene/utils.py:135-138 | Applies the defaults of `openai_api_key`, `minutes`, `temp_dir` and `audio_filepath` in order |
| Session.SessionState.InitStoreDefaults | nota_bene/utils.py:139-143 | Applies the defaults of `endpoints`, `endpoint`, `audio_recording`, `audio_order` and `bitrate` in order |
| Session.StrEntry | nota_bene/app_pages/audio_preprocessing.py:69 | Reading a str entry gives its text exactly when the key holds a str; an absent key raises KeyError for that key |
| Session.PathEntry | nota_bene/app_pages/transcribe.py:36 | Reading an optional path: absent key raises KeyError, None gives no path, a str gives that path, anything else raises |
| Strings.Decimal | nota_bene/app_pages/audio_upload.py:82 | `str(i)` is a non-empty string of digits that spells exactly `i`, with no leading zero, one digit exactly below 10 |
| Strings.DecimalInjective | nota_bene/app_pages/audio_upload.py:82 | Different slot numbers give different texts, so `audio_<i><ext>` names one slot each |
| Strings.Pad3 | nota_bene/utils.py:168 | `%03d` is a digit string that spells exactly `n`, three characters wide below 1000 |
| Strings.Pad3Digits | nota_bene/utils.py:168 | Below 1000, `%03d` is exactly the hundreds, tens and units digits |
| Strings.Pad3Wide | nota_bene/utils.py:168 | From 1000 on, `%03d` has four or more digits |
| Strings.Pad3Ordered | nota_bene/utils.py:168 | Below 1000, the string order of the padded texts is the numeric order |
| Strings.SortedUnique | nota_bene/utils.py:186 | Two strictly sorted sequences with the same elements are equal, so `sorted` of a set is determined |
| Strings.SortSet | nota_bene/utils.py:186 | `sorted` of a set of names is strictly sorted and holds exactly the set's elements |
| Strings.SplitOn | nota_bene/utils.py:230 | `str.split(c)` gives at least one piece, no piece contains `c`, and exactly one piece when `c` does not occur |
| Strings.SplitJoin | nota_bene/app_pages/transcribe.py:57 | Splitting a join of separator-free pieces gives back the pieces |
| Strings.JoinSplit | nota_bene/app_pages/transcribe.py:57 | Joining the pieces of a split gives back the string |
| Strings.IndexOf | nota_bene/app_pages/audio_recording.py:61 | `list.index(x)` is the first position holding `x`; ValueError exactly when `x` is absent |
| Paths.Split | nota_bene/utils.py:230-231 | `os.path.split` returns a last component without a slash |
| Paths.SplitOfJoin | nota_bene/utils.py:231 | Splitting `join(dir, name)` gives back the directory and the name |
| Paths.SplitExt | nota_bene/utils.py:263 | `os.path.splitext` gives root + ext = path, with ext empty or a dot followed by neither dot nor slash |
| Paths.SplitExtOf | nota_bene/app_pages/audio_upload.py:81 | Splitting `root.e` gives back `root` and `.e` |
| Paths.CompressedName | nota_bene/utils.py:230 | Deriving the compressed name raises IndexError exactly when the name has no dot |
| Paths.CompressedNameOf | nota_bene/utils.py:230 | For `stem.ext` the compressed name is `stem_compressed_<bitrate>.ext` |
| Paths.CompressedNameDropsRest | nota_bene/utils.py:230 | For `stem.second.rest` only the first two segments are kept: the name is `stem_compressed_<bitrate>.second`, so `meeting.2024.mp3` loses `.mp3` |
| Paths.CompressedPathSameDirectory | nota_bene/utils.py:230-231 | The compressed file lies in the original's directory, under the compressed name of the original's last component |
| Paths.ChunkNameMatches | nota_bene/utils.py:186 | Every segment name ffmpeg writes matches the glob `chunk_*.m4a` |
| Paths.ChunkPathsOrdered | nota_bene/utils.py:168 | Below 1000 segments, string order of the chunk paths is index order |
| Paths.ChunkPathsMisorderedAt1000 | nota_bene/utils.py:168 | Segment 1000 sorts before segment 101, so from 1000 segments on string order is not index order |
| Paths.M4aPathOf | nota_bene/utils.py:263 | The `.m4a` path of `root.e` is `root.m4a` |
| Paths.ManifestLines | nota_bene/utils.py:203-205 | The manifest is the entries `file '<path>'`, one per line, each ended by a newline |
| Paths.ManifestRoundTrip | nota_bene/utils.py:203-205 | Reading the manifest back line by line gives the input paths, in input order, when no path holds a newline |
| Disk.Run | nota_bene/utils.py:218 | One command is appended to the log, and its output is written exactly when the tool succeeds |
| Disk.WriteChunks | nota_bene/utils.py:183 | The segment muxer adds exactly the paths of segments `0..n-1` |
| Disk.ChunkFilesAfterWrite | nota_bene/utils.py:183-186 | After segmenting, the glob finds the earlier chunk files plus the new segments |
| Disk.ChunkPathsSorted | nota_bene/utils.py:186 | Up to 1000 segments, the segment paths in index order are strictly sorted |
| Disk.ChunkListingFresh | nota_bene/utils.py:183-191 | In a directory without chunk files, the sorted listing after segmenting is exactly the new segments in index order |
| Disk.StaleChunkListed | nota_bene/utils.py:183-191 | A chunk file left by an earlier, longer run is in the listing, which then differs from this run's segments |
| Disk.RemoveChunks | nota_bene/utils.py:186 | Deleting every chunk file of a directory leaves no chunk file there and every other file unchanged |
| Utils.WrittenAudio | nota_bene/utils.py:146-150 | No path writes nothing; a path gets exactly the buffer and every other file is unchanged |
| Utils.ReadAudio | nota_bene/utils.py:153-160 | No path gives None; an existing path gives its contents; a missing one raises FileNotFoundError for that path |
| Utils.ReadAfterWrite | nota_bene/utils.py:146-160 | Reading a path after writing a buffer to it gives that buffer |
| Utils.WriteAudioToDisk | nota_bene/utils.py:146-150 | The disk after the call is `WrittenAudio` of the old disk, and ffmpeg is not run |
| Utils.FileToBytesIO | nota_bene/utils.py:153-160 | The result is `ReadAudio` of the disk |
| Utils.CompressResult | nota_bene/utils.py:226-247 | None gives None and changes nothing. A path gives its compressed path, or IndexError, whether or not ffmpeg ran. At most one compress command is logged |
| Utils.CompressCacheHit | nota_bene/utils.py:233-247 | When the compressed file exists, the path is returned, nothing is written and nothing is run |
| Utils.CompressIdempotent | nota_bene/utils.py:226-247 | Once the compressed file exists, compressing again returns the same path and changes nothing, whatever the tool does |
| Utils.CompressAudio | nota_bene/utils.py:226-247 | The result and the new disk and log are `CompressStep` of the old ones |
| Utils.StackedIsNotManifest | nota_bene/utils.py:196-198 | The stacked output and the manifest are different files |
| Utils.CombineWritesManifest | nota_bene/utils.py:193-222 | Without a stacked file, the result is `temp_dir/audio_file_stacked_<bitrate><ext>`. The manifest reads back as the input list in input order. Exactly one concat command is logged |
| Utils.CombineCacheHit | nota_bene/utils.py:199-200 | When the stacked file exists it is returned at once, with no manifest and no run, whatever the file list |
| Utils.CombineIdempotent | nota_bene/utils.py:193-222 | Once the stacked file exists, a later combine with any other file list returns it and changes nothing |
| Utils.WriteManifest | nota_bene/utils.py:203-205 | The loop leaves the manifest holding one line per file in order, and nothing else changes |
| Utils.CombineAudioFiles | nota_bene/utils.py:193-222 | The result and the new disk and log are `CombineStep` of the old ones |
| Utils.CreateAudioChunks | nota_bene/utils.py:163-191 | A missing or empty path gives None and changes nothing. Without the ffmpeg binary it raises FileNotFoundError with nothing run or written. Otherwise one segment command runs, its failure raises CalledProcessError, and the result is every chunk file of the directory, strictly sorted |
| Utils.CreateFreshAudioChunks | nota_bene/utils.py:163-191 | Earlier chunk files are deleted first, so the result is exactly this run's segments in index order, up to 1000 of them. Without the ffmpeg binary it raises FileNotFoundError and deletes nothing |
| Utils.ConvertResult | nota_bene/utils.py:250-280 | A missing input raises FileNotFoundError before anything runs. Otherwise one conversion runs, and success returns the root of the input plus `.m4a`, which then holds the output |
| Utils.ConvertWavToM4a | nota_bene/utils.py:250-280 | The result and the new disk and log are `ConvertStep` of the old ones |
| Recording.Swap | nota_bene/app_pages/audio_recording.py:63-66 | The tuple swap exchanges two positions, keeps every other position, and preserves length and multiset |
| Recording.SaveFresh | nota_bene/app_pages/audio_recording.py:27-31 | Saving under a new key keeps the order and the dictionary in step. It stores the data, puts the key last and keeps the other recordings |
| Recording.SaveExistingListsTwice | nota_bene/app_pages/audio_recording.py:28-31 | Saving under an existing key overwrites the data but lists the key twice, breaking the invariant |
| Recording.SaveOnceKeepsValid | nota_bene/app_pages/audio_recording.py:28-31 | With a listed key not appended again, every save keeps the invariant and stores the data |
| Recording.RemoveAbsent | nota_bene/app_pages/audio_recording.py:54-58 | Removing an unsaved key changes nothing |
| Recording.RemovePresent | nota_bene/app_pages/audio_recording.py:54-58 | Removing a saved key succeeds and drops it from the dictionary and from its one place in the order. The rest of the order is kept and the invariant holds |
| Recording.MovePermutes | nota_bene/app_pages/audio_recording.py:60-72 | Moving raises ValueError exactly for an unlisted key. Otherwise it keeps the recordings, the length and the multiset of the order |
| Recording.MoveUp | nota_bene/app_pages/audio_recording.py:60-66 | Up from position i > 0 swaps with i-1; up from position 0 changes nothing |
| Recording.MoveDown | nota_bene/app_pages/audio_recording.py:67-71 | Down from i < len-1 swaps with i+1; down from the last position changes nothing |
| Recording.UpThenDown | nota_bene/app_pages/audio_recording.py:60-71 | Up then down, from any position but the first, restores the original order |
| Recording.MoveKeepsValid | nota_bene/app_pages/audio_recording.py:60-71 | Moving keeps the order and the dictionary in step |
| Recording.ListOrderOfSaved | nota_bene/app_pages/audio_recording.py:38-41 | When every listed key is saved, the loop lists one recording per key, in order |
| Recording.PlaylistOfValid | nota_bene/app_pages/audio_recording.py:34-41 | When every listed key is saved, the guard on a non-empty dict passes whenever the order is not empty, and the page lists one recording per key, in order |
| Recording.SameSecondSavesThenRemove | nota_bene/app_pages/audio_recording.py:27-58 | Two saves in the same second, a save under another key and a remove of the first key leave the first key listed without a recording while the dict is not empty, so listing raises KeyError for it |
| Recording.RecordingStore.constructor | nota_bene/app_pages/audio_recording.py:50-52 | Both entries start empty |
| Recording.RecordingStore.Save | nota_bene/app_pages/audio_recording.py:27-31 | The in-place save equals `Saved` of the old contents |
| Recording.RecordingStore.SaveOnce | nota_bene/app_pages/audio_recording.py:27-31 | The corrected save equals `SavedOnce` of the old contents |
| Recording.RecordingStore.RemoveAudio | nota_bene/app_pages/audio_recording.py:54-58 | The search-and-delete loop equals `Removed` of the old contents, including its ValueError |
| Recording.RecordingStore.MoveAudio | nota_bene/app_pages/audio_recording.py:60-72 | The in-place swap equals `Moved`; on ValueError nothing changes |
| Recording.InitRecordingModule | nota_bene/app_pages/audio_recording.py:50-52 | Both entries are created when the dictionary is missing; otherwise nothing changes |
| Recording.InitRecordingPage | nota_bene/app_pages/audio_recording.py:13-16 | Each entry is created with its empty default when missing |
| Upload.SlotSource | nota_bene/app_pages/audio_upload.py:79 | Slot i takes the first position of upload i's name in the order list. A name missing from the list, or a position past the uploads, raises IndexError |
| Upload.IntendedSource | nota_bene/app_pages/audio_upload.py:63-67 | Slot j is meant to take the upload named by entry j of the order; it fails exactly when no upload has that name |
| Upload.SlotSourceInverse | nota_bene/app_pages/audio_upload.py:74-84 | For a rearrangement of distinct names the as-written rule never fails and is the inverse of the intended rule |
| Upload.DefaultOrderAgrees | nota_bene/app_pages/audio_upload.py:63-79 | With the default order both rules put upload i in slot i |
| Upload.RotatedOrderMisplaced | nota_bene/app_pages/audio_upload.py:79-84 | For the order b, c, a the as-written rule puts c where b was meant and a where c was meant |
| Upload.AsWrittenPlan | nota_bene/app_pages/audio_upload.py:74-84 | There is one slot per upload. It fails exactly where `SlotSource` fails, and its extension has the shape `splitext` returns |
| Upload.IntendedPlan | nota_bene/app_pages/audio_upload.py:63-67 | There is one slot per selected name. It is present exactly when an upload has that name, and it holds that upload's extension and bytes |
| Upload.WriteSlotIsCompress | nota_bene/app_pages/audio_upload.py:82-86 | One pass is exactly the slot write followed by `compress_audio` of the slot path |
| Upload.WriteSlotResult | nota_bene/app_pages/audio_upload.py:82-88 | A pass returns its target or the target's exception. The slot holds the upload's bytes. Only the slot and the target change, and at most one compression runs |
| Upload.WriteSlotFrame | nota_bene/app_pages/audio_upload.py:82-86 | A pass changes nothing outside the slot files |
| Upload.SlotCompressedPath | nota_bene/app_pages/audio_upload.py:81-86 | Compressing a slot without an extension raises IndexError. Otherwise it writes `audio_<i>_compressed_<bitrate><ext>`, a slot file other than the slot itself |
| Upload.ProcessSlotsSucceed | nota_bene/app_pages/audio_upload.py:73-88 | When every slot has a source and an extension, the loop returns exactly one compressed slot path per slot, in slot order |
| Upload.ProcessSlotsFail | nota_bene/app_pages/audio_upload.py:79 | A slot without a source makes the loop raise |
| Upload.ProcessSlotsFrame | nota_bene/app_pages/audio_upload.py:73-88 | The loop writes nothing outside the slot files |
| Upload.ProcessSlotsStop | nota_bene/app_pages/audio_upload.py:73-88 | Once a prefix of the slots raises, the later slots add nothing |
| Upload.ProcessSlotsLoop | nota_bene/app_pages/audio_upload.py:73-88 | The imperative loop's result and new disk and log are `ProcessSlots` of the old ones |
| Upload.ProcessingGuards | nota_bene/app_pages/audio_upload.py:51-69 | Without ffmpeg the run stops, and without uploads or a press nothing happens; in both cases disk and log are untouched. A path is returned only after a press with uploads |
| Upload.ProcessingCombines | nota_bene/app_pages/audio_upload.py:73-95 | With a ready plan and no stacked file, the stacked path is returned. The manifest lists the compressed slots in slot order, and the last command is the concatenation |
| Upload.ProcessingReusesStacked | nota_bene/app_pages/audio_upload.py:86-95 | A stacked file from an earlier run is returned unchanged, even though the new uploads are written and compressed |
| Upload.ProcessingWith | nota_bene/app_pages/audio_preprocessing.py:11-47 | The method's result and new disk and log are `Processing` of the old ones |
| Upload.AudioProcessing | nota_bene/app_pages/audio_preprocessing.py:11-47 | `audio_processing` as written equals `Processing` with the as-written slot rule |
| Upload.AudioProcessingInOrder | nota_bene/app_pages/audio_upload.py:63-88 | The corrected processing equals `Processing` with the intended slot rule |
| Upload.SessionAfterCombine | nota_bene/app_pages/audio_upload.py:95-99 | Both pages store the combined file and its path when it exists. When it does not, preprocessing raises with the session untouched, and upload raises with `audio_filepath` already set |
| Upload.StackedNonEmpty | nota_bene/app_pages/audio_preprocessing.py:73 | The stacked path is never empty, so its truth test always passes |
| Upload.PreprocessPageSession | nota_bene/app_pages/audio_preprocessing.py:69-77 | The session changes only by storing an existing combined file and its path, after a press with uploads. Without ffmpeg the run stops with the disk untouched |
| Upload.RunPreprocessPage | nota_bene/app_pages/audio_preprocessing.py:69-77 | The method's result, session and disk are `PreprocessPage` of the old ones |
| Upload.RunUploadPage | nota_bene/app_pages/audio_upload.py:51-103 | The method's result, session and disk are `UploadPage` of the old ones |
| Transcribe.Pieces | nota_bene/app_pages/transcribe.py:38-54 | One text per chunk in listing order, `''` when the result has no text. The OpenAI choice raises AttributeError exactly when there is a chunk |
| Transcribe.TranscriptSplits | nota_bene/app_pages/transcribe.py:57 | When no chunk text holds a space, splitting the transcript at spaces gives each chunk's text in order |
| Transcribe.TranscriptInIndexOrder | nota_bene/app_pages/transcribe.py:35-57 | In a directory without earlier chunks, the transcript joins the texts of segments `0..n-1` in index order |
| Transcribe.StaleChunkTranscribed | nota_bene/app_pages/transcribe.py:36-54 | A chunk file from an earlier, longer recording is transcribed into the new transcript |
| Transcribe.FreshChunksTranscribedInOrder | nota_bene/app_pages/transcribe.py:36-57 | With earlier chunk files removed first, the transcript joins the texts for this run's segment paths `0..n-1`, in index order |
| Transcribe.SameChunkCountSameTranscript | nota_bene/utils.py:69-75 | Because a chunk's text is keyed by its path, two recordings cut into the same number of chunks get the same transcript, even with earlier chunk files removed first |
| Transcribe.ChunkStageGuards | nota_bene/app_pages/transcribe.py:17-36 | Without a key or a press nothing happens. Chunking needs a non-empty audio path, and then exactly one segment command runs on it with segment time 300. The page has no check for the ffmpeg binary, so without it a press raises FileNotFoundError with the disk untouched |
| Transcribe.TranscribeButton | nota_bene/app_pages/transcribe.py:10-57 | Idle changes nothing, and an exception leaves the session unchanged. After chunking, a sorted chunk listing exists, and result and session equal `Transcribed` of it |
| Transcribe.PageOffersButton | nota_bene/app_pages/transcribe.py:60-64 | The button is offered exactly when there is audio and no transcript. The upload link appears exactly when there is no audio. The transcript test is read on the session before the button runs |
| Transcribe.TranscribedOnce | nota_bene/app_pages/transcribe.py:57-70 | After a stored transcription the button is no longer offered, and the transcript is shown exactly when it is not empty |

## Left out

- Audio content is not modelled. ffmpeg's encoding, concatenation and segment durations are abstract, and so is the number of segments; what a command writes is a parameter.
- A failed ffmpeg command is taken to write nothing. ffmpeg can leave a partial output file, which the existence checks of `compress_audio` (utils.py:233) and `combine_audio_files` (utils.py:199) would then reuse on the next call; the model runs the command again instead.
- Utils.CompressResult: a missing ffmpeg binary, for which `subprocess.run` raises FileNotFoundError (utils.py:244), is not modelled. Both callers check `shutil.which("ffmpeg")` first (audio_upload.py:54, audio_preprocessing.py:14).
- Utils.CombineWritesManifest: a missing ffmpeg binary (utils.py:218) is not modelled, for the same reason; the manifest would be written and FileNotFoundError raised.
- Utils.ConvertResult: a missing ffmpeg binary (utils.py:277) is not modelled; nothing in the app calls `convert_wav_to_m4a`.
- Whisper and the OpenAI API are not modelled. A local model's result is a parameter `(chunk path, model) -> optional text`, because its cache is keyed by those two. The OpenAI branch returns a `str` and `.get` on it raises, so it is modelled as AttributeError and not as working.
- Directories are not modelled; `os.makedirs` and the existence check on the temporary directory are left out.
- The UI is not modelled: widgets, `st.rerun`, spinners, progress bars (float percentages) and `switch_page_button`.
  - The uploader, the order selector, the buttons, the recorder and the clock are inputs.
  - `shutil.which("ffmpeg")` is a boolean input, and `st.stop()` is the StopException outcome. The same input, `ffmpegFound`, tells `create_audio_chunks` and the transcribe page, which has no such check, whether `subprocess.run` finds the binary.
- `save_session` is not part of this model; the upload page's call to it is left out.
- `API_LLM`, the minutes pages, `app.py` and the configuration pages are not part of this model.
- The upload page imports `save_session` from `nota_bene/utils.py` (audio_upload.py:8), which does not define it, so that page fails with ImportError when it loads, before `run_main` runs. Past that, its `run_main` reads `project_name` and `project_path`, which `init_session_keys` never sets, and would raise KeyError. The model of that page takes its `audio_processing` on its own.
- Two same-second saves list the key twice, so the listing creates two buttons keyed `up_<k>` (audio_recording.py:43). Streamlit rejects a duplicate widget key; widgets are not modelled, so that error is not.
- A transcript's pieces are keyed by chunk path, as `transcribe_local`'s persistent `st.cache_data` keys them (utils.py:69-75), and the cleanup button in `app.py` clears only `st.cache_resource`. `Utils.CreateFreshAudioChunks` corrects the listing of stale chunk files, not this reuse of cached text (`Transcribe.SameChunkCountSameTranscript`).
- Manifest paths are not quoted or escaped. A path holding `'` would be misread by ffmpeg's concat demuxer; `Paths.ManifestRoundTrip` reads the manifest back line by line and does not cover that.
- A missing secrets file is taken as an empty set of secrets, so it raises the same KeyError as a missing `openai` table.
- Upload.RunUploadPage: takes the directory and the bitrate as parameters, the way `audio_processing` receives them, instead of reading them from the session.
- Session values are a fixed set of kinds. A bitrate or a directory that is not a str is taken to raise TypeError.
- `pathlib` objects and their conversion to `str` are taken to give the same text as `os.path`.
- File contents read back as the `Content` written (bytes or text); text encoding is not modelled.
- Transcribe.TranscriptInIndexOrder: holds up to 1000 chunks only. From segment 1000 on, `%03d` stops padding and string order departs from index order (`Paths.ChunkPathsMisorderedAt1000`). At 300-second segments that is more than 83 hours of audio.
- Utils.CreateFreshAudioChunks: the index-order guarantee is stated for at most 1000 segments, for the same reason.

## Findings

| source | as written | input that shows it | evidently intended | confidence | as-written member | corrected member |
|---|---|---|---|---|---|---|
| nota_bene/app_pages/audio_upload.py:79 | Slot i receives the upload found at the first position of upload i's name in the order list, which is the inverse of the chosen permutation. The same line is at audio_preprocessing.py:33 | Uploads `a.mp3`, `b.mp3`, `c.mp3` ordered `b, c, a`: slot 0 gets `c.mp3`, slot 1 gets `a.mp3`, slot 2 gets `b.mp3` | Slot j receives the upload named by entry j of the order list | not executed; high for any order that is not its own inverse | Upload.RotatedOrderMisplaced | Upload.AudioProcessingInOrder |
| nota_bene/app_pages/audio_recording.py:28-31 | The key is a timestamp to the second, appended to the order even when already saved | Two saves under key `k` within one second, a save under `k2`, then a remove of `k`: the dict is `{k2}` and the order `[k, k2]`, so the guard at line 34 passes and line 41 raises KeyError for `k` | A key is listed once; saving an existing key replaces its data | not executed; medium, needs two saves within one second | Recording.SameSecondSavesThenRemove | Recording.SaveOnceKeepsValid |
| nota_bene/utils.py:183-186 | The chunk listing is a glob of the whole temporary directory, including chunk files of an earlier run | A 3-chunk recording after a 5-chunk one in the same directory: `chunk_003.m4a` and `chunk_004.m4a` of the old run are listed and transcribed | The listing holds exactly the segments of this run (the text cached per chunk path is a separate matter, listed under Left out) | not executed; high when a shorter recording follows a longer one | Transcribe.StaleChunkTranscribed | Utils.CreateFreshAudioChunks |
