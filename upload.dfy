/// The upload pages, nota_bene/app_pages/audio_upload.py and
/// nota_bene/app_pages/audio_preprocessing.py: every uploaded file is written
/// to a numbered slot `audio_<i><ext>` in the temporary directory, compressed,
/// and the compressed slots are concatenated in slot order.
module Upload {
  import opened Outcomes
  import opened Strings
  import opened Paths
  import opened Disk
  import opened Session
  import opened Utils

  /// A file handed over by the uploader widget.
  datatype UploadedFile = UploadedFile(name: string, data: Bytes)

  /// What one slot receives: the extension of its file name and the bytes written.
  datatype Slot = Slot(ext: string, data: Bytes)

  function Names(uploaded: seq<UploadedFile>): (r: seq<string>)
    ensures |r| == |uploaded| && forall i :: 0 <= i < |r| ==> r[i] == uploaded[i].name
  {
    seq(|uploaded|, i requires 0 <= i < |uploaded| => uploaded[i].name)
  }

  /// The order widget offers each uploaded name and returns a selection of
  /// them; when every file stays selected it is a rearrangement of the names.
  predicate IsOrderOf(fileOrder: seq<string>, uploaded: seq<UploadedFile>) {
    && NoDuplicates(Names(uploaded))
    && |fileOrder| == |uploaded|
    && Elems(fileOrder) == Elems(Names(uploaded))
  }

  // ---------------------------------------------------------------------------
  // Which upload goes to which slot

  /// As written: slot i receives the upload at the first position of the
  /// order list that holds the name of upload i. A name missing from the order
  /// list (a deselected file) leaves numpy's match empty and raises
  /// IndexError; so does a position past the end of the uploads.
  function SlotSource(uploaded: seq<UploadedFile>, fileOrder: seq<string>, i: nat): (r: Py<nat>)
    requires i < |uploaded|
    ensures r.Ok? ==> r.value < |uploaded| && r.value < |fileOrder| && fileOrder[r.value] == uploaded[i].name
    ensures r.Ok? ==> uploaded[i].name !in fileOrder[..r.value]
    ensures r.Raised? ==> r.error == IndexError
    ensures uploaded[i].name !in fileOrder ==> r.Raised?
  {
    match IndexOf(fileOrder, uploaded[i].name)
    case Raised(_) => Raised(IndexError)
    case Ok(k) => if k < |uploaded| then Ok(k) else Raised(IndexError)
  }

  /// What was meant: slot j receives the upload named by entry j of the order list.
  function IntendedSource(uploaded: seq<UploadedFile>, fileOrder: seq<string>, j: nat): (r: Py<nat>)
    requires j < |fileOrder|
    ensures r.Ok? ==> r.value < |uploaded| && uploaded[r.value].name == fileOrder[j]
    ensures r.Raised? <==> fileOrder[j] !in Names(uploaded)
  {
    IndexOf(Names(uploaded), fileOrder[j])
  }

  /// For a rearrangement of distinct names, the as-written slot rule never
  /// fails and is the inverse of the intended one: it sends slot i to the
  /// position k of name i in the order list, and the intended rule sends
  /// position k back to upload i.
  lemma SlotSourceInverse(uploaded: seq<UploadedFile>, fileOrder: seq<string>, i: nat)
    requires IsOrderOf(fileOrder, uploaded) && i < |uploaded|
    ensures SlotSource(uploaded, fileOrder, i).Ok?
    ensures IntendedSource(uploaded, fileOrder, SlotSource(uploaded, fileOrder, i).value) == Ok(i)
  {
    var names := Names(uploaded);
    assert names[i] in Elems(names);
    var k := IndexOf(fileOrder, uploaded[i].name).value;
    assert fileOrder[k] == names[i];
    FirstIndexDistinct(names, i);
  }

  /// With the default order (the names as uploaded) both rules agree: slot i
  /// receives upload i.
  lemma DefaultOrderAgrees(uploaded: seq<UploadedFile>, i: nat)
    requires NoDuplicates(Names(uploaded)) && i < |uploaded|
    ensures SlotSource(uploaded, Names(uploaded), i) == Ok(i)
    ensures IntendedSource(uploaded, Names(uploaded), i) == Ok(i)
  {
    FirstIndexDistinct(Names(uploaded), i);
  }

  /// Three uploads reordered as b, c, a: the as-written rule puts c into
  /// slot 0, where b was meant to go, and a into slot 1, where c was meant.
  lemma RotatedOrderMisplaced(a: Bytes, b: Bytes, c: Bytes)
    ensures var uploaded := [UploadedFile("a.mp3", a), UploadedFile("b.mp3", b), UploadedFile("c.mp3", c)];
            var order := ["b.mp3", "c.mp3", "a.mp3"];
            && SlotSource(uploaded, order, 0) == Ok(2)
            && IntendedSource(uploaded, order, 0) == Ok(1)
            && SlotSource(uploaded, order, 1) == Ok(0)
            && IntendedSource(uploaded, order, 1) == Ok(2)
  {
    var uploaded := [UploadedFile("a.mp3", a), UploadedFile("b.mp3", b), UploadedFile("c.mp3", c)];
    var order := ["b.mp3", "c.mp3", "a.mp3"];
    assert "a.mp3" != "b.mp3" && "a.mp3" != "c.mp3" && "b.mp3" != "c.mp3" by {
      assert "a.mp3"[0] != "b.mp3"[0] && "a.mp3"[0] != "c.mp3"[0] && "b.mp3"[0] != "c.mp3"[0];
    }
    assert Names(uploaded) == ["a.mp3", "b.mp3", "c.mp3"];
    IndexOfAt(order, "a.mp3", 2);
    IndexOfAt(order, "b.mp3", 0);
    IndexOfAt(Names(uploaded), "b.mp3", 1);
    IndexOfAt(Names(uploaded), "c.mp3", 2);
  }

  /// The slots as written: the extension comes from upload i, the bytes from
  /// the upload `SlotSource` picks.
  function AsWrittenPlan(uploaded: seq<UploadedFile>, fileOrder: seq<string>): (r: seq<Py<Slot>>)
    ensures |r| == |uploaded|
    ensures forall i :: 0 <= i < |r| ==> (r[i].Raised? <==> SlotSource(uploaded, fileOrder, i).Raised?)
    ensures forall i :: 0 <= i < |r| && r[i].Ok? ==> ExtShape(r[i].value.ext)
  {
    seq(|uploaded|, i requires 0 <= i < |uploaded| =>
      match SlotSource(uploaded, fileOrder, i)
      case Raised(e) => Raised(e)
      case Ok(k) => Ok(Slot(SplitExt(uploaded[i].name).1, uploaded[k].data)))
  }

  /// The slots as meant: one per selected name, in the selected order, each
  /// with the extension and the bytes of the upload of that name.
  function IntendedPlan(uploaded: seq<UploadedFile>, fileOrder: seq<string>): (r: seq<Py<Slot>>)
    ensures |r| == |fileOrder|
    ensures forall j :: 0 <= j < |r| ==> (r[j].Ok? <==> fileOrder[j] in Names(uploaded))
    ensures forall j :: 0 <= j < |r| && r[j].Ok? ==>
      exists k :: 0 <= k < |uploaded| && uploaded[k].name == fileOrder[j] &&
        r[j].value == Slot(SplitExt(fileOrder[j]).1, uploaded[k].data)
    ensures forall j :: 0 <= j < |r| && r[j].Ok? ==> ExtShape(r[j].value.ext)
  {
    seq(|fileOrder|, j requires 0 <= j < |fileOrder| =>
      match IntendedSource(uploaded, fileOrder, j)
      case Raised(e) => Raised(e)
      case Ok(k) => Ok(Slot(SplitExt(uploaded[k].name).1, uploaded[k].data)))
  }

  // ---------------------------------------------------------------------------
  // Writing and compressing one slot

  /// What `os.path.splitext` can return as an extension: nothing, or a dot
  /// followed by neither dots nor slashes.
  predicate ExtShape(ext: string) {
    ext == "" || (ext[0] == '.' && '.' !in ext[1..] && '/' !in ext)
  }

  /// `temp_dir/audio_<i>_compressed_<bitrate><ext>`, what `compress_audio`
  /// makes of slot i.
  function CompressedSlotPath(tempDir: string, i: nat, bitrate: string, ext: string): string {
    Join(tempDir, "audio_" + Decimal(i) + ("_compressed_" + bitrate + ext))
  }

  /// The paths the upload loop can touch: `audio_<digit>...` in the temporary directory.
  predicate SlotFileIn(tempDir: string, p: string) {
    var d := DirPrefix(tempDir);
    |p| > |d| + 6 && p[..|d| + 6] == d + "audio_" && IsDigit(p[|d| + 6])
  }

  lemma SlotFileOf(tempDir: string, i: nat, rest: string)
    ensures SlotFileIn(tempDir, Join(tempDir, "audio_" + Decimal(i) + rest))
  {
    var name := "audio_" + Decimal(i) + rest;
    var d := DirPrefix(tempDir);
    assert name[0] == 'a';
    var p := Join(tempDir, name);
    assert p == d + name;
    assert p[..|d| + 6] == d + "audio_";
    assert p[|d| + 6] == Decimal(i)[0];
  }

  /// One pass of the loop body: write the bytes to the slot path, then
  /// compress it into `target`, the path `compress_audio` derives from the slot
  /// path (or the exception deriving it raises); ffmpeg runs only when the
  /// target does not exist yet.
  function WriteSlot(w: World, tempDir: string, i: nat, slot: Slot, target: Py<string>, bitrate: string, tool: Tool): (Py<string>, World) {
    var path := SlotPath(tempDir, i, slot.ext);
    var written := World(WrittenAudio(w.files, slot.data, Some(path)), w.runs);
    match target
    case Raised(e) => (Raised(e), written)
    case Ok(out) =>
      if out in written.files then (Ok(out), written)
      else (Ok(out), Run(written, Compress(path, bitrate, out), out, tool))
  }

  /// With the target `compress_audio` derives, one pass is exactly the write
  /// followed by `compress_audio`.
  lemma WriteSlotIsCompress(w: World, tempDir: string, i: nat, slot: Slot, bitrate: string, tool: Tool)
    ensures var path := SlotPath(tempDir, i, slot.ext);
            var written := World(WrittenAudio(w.files, slot.data, Some(path)), w.runs);
            var (c, w') := CompressStep(written, Some(path), bitrate, tool);
            && (c.Raised? ==> WriteSlot(w, tempDir, i, slot, CompressedPath(path, bitrate), bitrate, tool) == (Raised(c.error), w'))
            && (c.Ok? ==> c.value.Some? && WriteSlot(w, tempDir, i, slot, CompressedPath(path, bitrate), bitrate, tool) == (Ok(c.value.value), w'))
  {
  }

  /// The pass returns the target or its exception; the slot holds the bytes
  /// unless the target is the slot itself; the disk changes at the slot and
  /// at most at the target, and at most one compression runs.
  lemma WriteSlotResult(w: World, tempDir: string, i: nat, slot: Slot, target: Py<string>, bitrate: string, tool: Tool)
    ensures var (r, w') := WriteSlot(w, tempDir, i, slot, target, bitrate, tool);
            var path := SlotPath(tempDir, i, slot.ext);
            var written := w.files[path := Binary(slot.data)];
            && (target.Raised? ==> r == Raised(target.error) && w' == World(written, w.runs))
            && (target.Ok? ==> r == Ok(target.value))
            && (target.Ok? && target.value != path ==> path in w'.files && w'.files[path] == Binary(slot.data))
            && (w'.files == written || (target.Ok? && target.value in w'.files && w'.files == written[target.value := w'.files[target.value]]))
            && (w'.runs == w.runs || (target.Ok? && w'.runs == w.runs + [Compress(path, bitrate, target.value)]))
  {
  }

  /// A pass changes nothing outside the slot files when its target is one.
  lemma WriteSlotFrame(w: World, tempDir: string, i: nat, slot: Slot, target: Py<string>, bitrate: string, tool: Tool)
    requires target.Ok? ==> SlotFileIn(tempDir, target.value)
    ensures UnchangedOutside(w.files, WriteSlot(w, tempDir, i, slot, target, bitrate, tool).1.files, tempDir)
  {
    var path := SlotPath(tempDir, i, slot.ext);
    var written := w.files[path := Binary(slot.data)];
    var files' := WriteSlot(w, tempDir, i, slot, target, bitrate, tool).1.files;
    WriteSlotResult(w, tempDir, i, slot, target, bitrate, tool);
    SlotFileOf(tempDir, i, slot.ext);
    UpdateSlotFile(w.files, tempDir, path, Binary(slot.data));
    if files' != written {
      UpdateSlotFile(written, tempDir, target.value, files'[target.value]);
      UnchangedOutsideTrans(w.files, written, files', tempDir);
    }
  }

  lemma UpdateSlotFile(files: Files, tempDir: string, p: string, c: Content)
    requires SlotFileIn(tempDir, p)
    ensures UnchangedOutside(files, files[p := c], tempDir)
  {
  }

  lemma UnchangedOutsideTrans(a: Files, b: Files, c: Files, tempDir: string)
    requires UnchangedOutside(a, b, tempDir) && UnchangedOutside(b, c, tempDir)
    ensures UnchangedOutside(a, c, tempDir)
  {
  }

  /// `compress_audio` of a slot path: IndexError without an extension,
  /// otherwise the compressed slot path, which is a different file.
  lemma SlotCompressedPath(tempDir: string, i: nat, ext: string, bitrate: string)
    requires NormalDir(tempDir) && ExtShape(ext)
    ensures ext == "" ==> CompressedPath(SlotPath(tempDir, i, ext), bitrate) == Raised(IndexError)
    ensures ext != "" ==> CompressedPath(SlotPath(tempDir, i, ext), bitrate) == Ok(CompressedSlotPath(tempDir, i, bitrate, ext))
    ensures CompressedSlotPath(tempDir, i, bitrate, ext) != SlotPath(tempDir, i, ext)
    ensures SlotFileIn(tempDir, CompressedSlotPath(tempDir, i, bitrate, ext))
  {
    var stem := "audio_" + Decimal(i);
    SlotFileOf(tempDir, i, "_compressed_" + bitrate + ext);
    SlotStem(i);
    SlotNameSplit(tempDir, i, ext);
    SlotCompressedName(i, ext, bitrate);
    var name := stem + ext;
    var compressed := stem + ("_compressed_" + bitrate + ext);
    assert compressed != name by {
      assert compressed[|stem|] == '_';
      assert |name| > |stem| ==> name[|stem|] == '.';
    }
    assert name[0] == 'a' && compressed[0] == 'a';
    JoinInjective(tempDir, name, compressed);
  }

  lemma SlotStem(i: nat)
    ensures var stem := "audio_" + Decimal(i);
            '.' !in stem && '/' !in stem && |stem| > 6 && stem[0] == 'a'
  {
    var stem := "audio_" + Decimal(i);
    assert forall k :: 6 <= k < |stem| ==> stem[k] == Decimal(i)[k - 6];
  }

  lemma SlotNameSplit(tempDir: string, i: nat, ext: string)
    requires NormalDir(tempDir) && ExtShape(ext)
    ensures Split(SlotPath(tempDir, i, ext)) == (tempDir, "audio_" + Decimal(i) + ext)
  {
    var stem := "audio_" + Decimal(i);
    var name := stem + ext;
    SlotStem(i);
    assert '/' !in name by {
      assert forall k :: |stem| <= k < |name| ==> name[k] == ext[k - |stem|];
      assert forall k :: 0 <= k < |stem| ==> name[k] == stem[k];
    }
    SplitOfJoin(tempDir, name);
  }

  lemma SlotCompressedName(i: nat, ext: string, bitrate: string)
    requires ExtShape(ext)
    ensures var stem := "audio_" + Decimal(i);
            CompressedName(stem + ext, bitrate)
              == if ext == "" then Raised(IndexError) else Ok(stem + ("_compressed_" + bitrate + ext))
  {
    var stem := "audio_" + Decimal(i);
    SlotStem(i);
    if ext == "" {
      assert stem + ext == stem;
    } else {
      var e := ext[1..];
      assert ext == "." + e;
      assert stem + ext == stem + "." + e;
      assert stem + "_compressed_" + bitrate + "." + e == stem + ("_compressed_" + bitrate + ext);
      CompressedNameOf(stem, e, bitrate);
    }
  }

  /// Every path that is not a slot file is present and holds the same
  /// contents before and after.
  ghost predicate UnchangedOutside(before: Files, after: Files, tempDir: string) {
    forall p :: !SlotFileIn(tempDir, p) ==>
      (p in after <==> p in before) && (p in before ==> after[p] == before[p])
  }

  // ---------------------------------------------------------------------------
  // The loop over all slots

  /// The compression target of each slot of a plan.
  function Targets(tempDir: string, plan: seq<Py<Slot>>, bitrate: string): (r: seq<Py<string>>)
    ensures |r| == |plan|
  {
    seq(|plan|, i requires 0 <= i < |plan| =>
      if plan[i].Ok? then CompressedPath(SlotPath(tempDir, i, plan[i].value.ext), bitrate) else Raised(IndexError))
  }

  /// The loop of `audio_processing`: slot after slot, in order; the first
  /// exception ends it, with what the earlier slots wrote left on disk.
  function ProcessSlots(w: World, tempDir: string, plan: seq<Py<Slot>>, targets: seq<Py<string>>, bitrate: string, tool: Tool): (Py<seq<string>>, World)
    requires |targets| == |plan|
    decreases |plan|
  {
    if |plan| == 0 then (Ok([]), w)
    else
      var n := |plan| - 1;
      var (r, w1) := ProcessSlots(w, tempDir, plan[..n], targets[..n], bitrate, tool);
      match r
      case Raised(e) => (Raised(e), w1)
      case Ok(paths) =>
        match plan[n]
        case Raised(e) => (Raised(e), w1)
        case Ok(slot) =>
          var (c, w2) := WriteSlot(w1, tempDir, n, slot, targets[n], bitrate, tool);
          match c
          case Raised(e) => (Raised(e), w2)
          case Ok(p) => (Ok(paths + [p]), w2)
  }

  /// Every slot has a source and its file name has an extension.
  predicate PlanReady(plan: seq<Py<Slot>>) {
    forall i :: 0 <= i < |plan| ==> plan[i].Ok? && plan[i].value.ext != ""
  }

  /// Every slot that has a source has an extension of the shape `splitext` gives.
  predicate PlanShaped(plan: seq<Py<Slot>>) {
    forall i :: 0 <= i < |plan| && plan[i].Ok? ==> ExtShape(plan[i].value.ext)
  }

  /// The compressed slot paths of a ready plan, in slot order.
  function CompressedSlotPaths(tempDir: string, bitrate: string, plan: seq<Py<Slot>>): (r: seq<string>)
    requires PlanReady(plan)
    ensures |r| == |plan|
  {
    seq(|plan|, i requires 0 <= i < |plan| => CompressedSlotPath(tempDir, i, bitrate, plan[i].value.ext))
  }

  /// Each target of a ready plan is its compressed slot path.
  predicate TargetsReady(tempDir: string, bitrate: string, plan: seq<Py<Slot>>, targets: seq<Py<string>>)
    requires PlanReady(plan) && |targets| == |plan|
  {
    forall i :: 0 <= i < |plan| ==> targets[i] == Ok(CompressedSlotPath(tempDir, i, bitrate, plan[i].value.ext))
  }

  /// Every target that is a path is a slot file.
  predicate TargetsInSlotFiles(tempDir: string, targets: seq<Py<string>>) {
    forall i :: 0 <= i < |targets| && targets[i].Ok? ==> SlotFileIn(tempDir, targets[i].value)
  }

  /// In a normal directory the targets are the compressed slot paths, and all
  /// of them are slot files.
  lemma TargetsOf(tempDir: string, plan: seq<Py<Slot>>, bitrate: string)
    requires NormalDir(tempDir) && PlanShaped(plan)
    ensures TargetsInSlotFiles(tempDir, Targets(tempDir, plan, bitrate))
    ensures PlanReady(plan) ==> TargetsReady(tempDir, bitrate, plan, Targets(tempDir, plan, bitrate))
  {
    var targets := Targets(tempDir, plan, bitrate);
    forall i | 0 <= i < |plan| && plan[i].Ok?
      ensures plan[i].value.ext != "" ==> targets[i] == Ok(CompressedSlotPath(tempDir, i, bitrate, plan[i].value.ext))
      ensures targets[i].Ok? ==> SlotFileIn(tempDir, targets[i].value)
    {
      SlotCompressedPath(tempDir, i, plan[i].value.ext, bitrate);
    }
  }

  /// A ready plan is processed without exception, and the file list holds the
  /// compressed slot paths in slot order.
  lemma {:induction false} ProcessSlotsSucceed(w: World, tempDir: string, plan: seq<Py<Slot>>, targets: seq<Py<string>>, bitrate: string, tool: Tool)
    requires PlanReady(plan) && |targets| == |plan| && TargetsReady(tempDir, bitrate, plan, targets)
    ensures ProcessSlots(w, tempDir, plan, targets, bitrate, tool).0 == Ok(CompressedSlotPaths(tempDir, bitrate, plan))
    decreases |plan|
  {
    if |plan| > 0 {
      var n := |plan| - 1;
      ReadyPrefix(tempDir, bitrate, plan, targets);
      ProcessSlotsSucceed(w, tempDir, plan[..n], targets[..n], bitrate, tool);
      assert plan[n].Ok? && targets[n] == Ok(CompressedSlotPath(tempDir, n, bitrate, plan[n].value.ext));
      ProcessSlotsSnoc(w, tempDir, plan, targets, bitrate, tool, CompressedSlotPaths(tempDir, bitrate, plan[..n]));
      CompressedSlotPathsSnoc(tempDir, bitrate, plan);
    }
  }

  /// A ready plan with its targets stays ready without its last slot.
  lemma ReadyPrefix(tempDir: string, bitrate: string, plan: seq<Py<Slot>>, targets: seq<Py<string>>)
    requires PlanReady(plan) && |targets| == |plan| > 0 && TargetsReady(tempDir, bitrate, plan, targets)
    ensures PlanReady(plan[..|plan| - 1])
    ensures TargetsReady(tempDir, bitrate, plan[..|plan| - 1], targets[..|plan| - 1])
  {
    var n := |plan| - 1;
    assert forall i :: 0 <= i < n ==> plan[..n][i] == plan[i] && targets[..n][i] == targets[i];
  }

  /// When the slots before the last succeed, the last adds its target to the list.
  lemma ProcessSlotsSnoc(w: World, tempDir: string, plan: seq<Py<Slot>>, targets: seq<Py<string>>, bitrate: string, tool: Tool, paths: seq<string>)
    requires |targets| == |plan| > 0
    requires ProcessSlots(w, tempDir, plan[..|plan| - 1], targets[..|plan| - 1], bitrate, tool).0 == Ok(paths)
    requires plan[|plan| - 1].Ok? && targets[|plan| - 1].Ok?
    ensures ProcessSlots(w, tempDir, plan, targets, bitrate, tool).0 == Ok(paths + [targets[|plan| - 1].value])
  {
    var n := |plan| - 1;
    var w1 := ProcessSlots(w, tempDir, plan[..n], targets[..n], bitrate, tool).1;
    WriteSlotResult(w1, tempDir, n, plan[n].value, targets[n], bitrate, tool);
  }

  lemma CompressedSlotPathsSnoc(tempDir: string, bitrate: string, plan: seq<Py<Slot>>)
    requires |plan| > 0 && PlanReady(plan)
    ensures PlanReady(plan[..|plan| - 1])
    ensures CompressedSlotPaths(tempDir, bitrate, plan)
         == CompressedSlotPaths(tempDir, bitrate, plan[..|plan| - 1]) + [CompressedSlotPath(tempDir, |plan| - 1, bitrate, plan[|plan| - 1].value.ext)]
  {
    var n := |plan| - 1;
    assert forall i :: 0 <= i < n ==> plan[..n][i] == plan[i];
  }

  /// A slot without a source (a deselected file) makes the loop raise.
  lemma {:induction false} ProcessSlotsFail(w: World, tempDir: string, plan: seq<Py<Slot>>, targets: seq<Py<string>>, bitrate: string, tool: Tool, k: nat)
    requires |targets| == |plan| && k < |plan| && plan[k].Raised?
    ensures ProcessSlots(w, tempDir, plan, targets, bitrate, tool).0.Raised?
    decreases |plan|
  {
    var n := |plan| - 1;
    if k < n {
      assert plan[..n][k] == plan[k];
      ProcessSlotsFail(w, tempDir, plan[..n], targets[..n], bitrate, tool, k);
    }
  }

  /// The loop writes nothing outside the slot files.
  lemma {:induction false} ProcessSlotsFrame(w: World, tempDir: string, plan: seq<Py<Slot>>, targets: seq<Py<string>>, bitrate: string, tool: Tool)
    requires |targets| == |plan| && TargetsInSlotFiles(tempDir, targets)
    ensures UnchangedOutside(w.files, ProcessSlots(w, tempDir, plan, targets, bitrate, tool).1.files, tempDir)
    decreases |plan|
  {
    if |plan| > 0 {
      var n := |plan| - 1;
      assert forall i :: 0 <= i < n ==> targets[..n][i] == targets[i];
      ProcessSlotsFrame(w, tempDir, plan[..n], targets[..n], bitrate, tool);
      var (r, w1) := ProcessSlots(w, tempDir, plan[..n], targets[..n], bitrate, tool);
      if r.Ok? && plan[n].Ok? {
        WriteSlotFrame(w1, tempDir, n, plan[n].value, targets[n], bitrate, tool);
        UnchangedOutsideTrans(w.files, w1.files, WriteSlot(w1, tempDir, n, plan[n].value, targets[n], bitrate, tool).1.files, tempDir);
      }
    }
  }

  /// Once a prefix of the plan has raised, the rest of the plan adds nothing.
  lemma {:induction false} ProcessSlotsStop(w: World, tempDir: string, plan: seq<Py<Slot>>, targets: seq<Py<string>>, bitrate: string, tool: Tool, k: nat)
    requires |targets| == |plan| && k <= |plan|
    requires ProcessSlots(w, tempDir, plan[..k], targets[..k], bitrate, tool).0.Raised?
    ensures ProcessSlots(w, tempDir, plan, targets, bitrate, tool) == ProcessSlots(w, tempDir, plan[..k], targets[..k], bitrate, tool)
    decreases |plan|
  {
    if k < |plan| {
      var n := |plan| - 1;
      assert plan[..n][..k] == plan[..k] && targets[..n][..k] == targets[..k];
      ProcessSlotsStop(w, tempDir, plan[..n], targets[..n], bitrate, tool, k);
    } else {
      assert plan[..k] == plan && targets[..k] == targets;
    }
  }

  /// One more slot after a prefix that succeeded: its source's exception,
  /// or the outcome of writing and compressing it.
  lemma ProcessSlotsNext(w: World, tempDir: string, plan: seq<Py<Slot>>, targets: seq<Py<string>>, bitrate: string, tool: Tool,
                         i: nat, paths: seq<string>, w1: World)
    requires |targets| == |plan| && i < |plan|
    requires ProcessSlots(w, tempDir, plan[..i], targets[..i], bitrate, tool) == (Ok(paths), w1)
    ensures plan[i].Raised? ==> ProcessSlots(w, tempDir, plan[..i + 1], targets[..i + 1], bitrate, tool) == (Raised(plan[i].error), w1)
    ensures plan[i].Ok? ==>
      var (c, w2) := WriteSlot(w1, tempDir, i, plan[i].value, targets[i], bitrate, tool);
      ProcessSlots(w, tempDir, plan[..i + 1], targets[..i + 1], bitrate, tool)
        == (if c.Ok? then Ok(paths + [c.value]) else Raised(c.error), w2)
  {
    assert plan[..i + 1][..i] == plan[..i] && targets[..i + 1][..i] == targets[..i];
  }

  method ProcessSlotsLoop(disk: Disk, tempDir: string, plan: seq<Py<Slot>>, bitrate: string, tool: Tool)
    returns (r: Py<seq<string>>)
    modifies disk
    ensures (r, disk.State()) == ProcessSlots(old(disk.State()), tempDir, plan, Targets(tempDir, plan, bitrate), bitrate, tool)
  {
    ghost var targets := Targets(tempDir, plan, bitrate);
    ghost var start := disk.State();
    var fileList := [];
    var i := 0;
    while i < |plan|
      invariant 0 <= i <= |plan|
      invariant (Ok(fileList), disk.State()) == ProcessSlots(start, tempDir, plan[..i], targets[..i], bitrate, tool)
    {
      ProcessSlotsNext(start, tempDir, plan, targets, bitrate, tool, i, fileList, disk.State());
      if plan[i].Raised? {
        r := Raised(plan[i].error);
        ProcessSlotsStop(start, tempDir, plan, targets, bitrate, tool, i + 1);
        return;
      }
      var slot := plan[i].value;
      var path := SlotPath(tempDir, i, slot.ext);
      assert targets[i] == CompressedPath(path, bitrate);
      WriteSlotIsCompress(disk.State(), tempDir, i, slot, bitrate, tool);
      WriteAudioToDisk(disk, slot.data, Some(path));
      var c := CompressAudio(disk, Some(path), bitrate, tool);
      if c.Raised? {
        r := Raised(c.error);
        ProcessSlotsStop(start, tempDir, plan, targets, bitrate, tool, i + 1);
        return;
      }
      fileList := fileList + [c.value.value];
      i := i + 1;
    }
    assert plan[..i] == plan && targets[..i] == targets;
    r := Ok(fileList);
  }

  // ---------------------------------------------------------------------------
  // audio_processing

  /// `audio_processing(uploaded_files, temp_dir, bitrate)`: st.stop() without
  /// ffmpeg; nothing without uploads or before the button is pressed;
  /// otherwise the slots are written and compressed and the compressed slots
  /// combined into the stacked `.m4a`, whose path is returned.
  function Processing(w: World, ffmpegFound: bool, uploaded: seq<UploadedFile>, pressed: bool, plan: seq<Py<Slot>>,
                      tempDir: string, bitrate: string, tool: Tool): (Py<Option<string>>, World)
  {
    if !ffmpegFound then (Raised(StopException), w)
    else if |uploaded| == 0 || !pressed then (Ok(None), w)
    else
      var (r, w1) := ProcessSlots(w, tempDir, plan, Targets(tempDir, plan, bitrate), bitrate, tool);
      match r
      case Raised(e) => (Raised(e), w1)
      case Ok(paths) =>
        var (out, w2) := CombineStep(w1, paths, tempDir, bitrate, ".m4a", tool);
        (Ok(Some(out)), w2)
  }

  /// Without ffmpeg the run stops, and without uploads or a press nothing
  /// happens; in both cases the disk and the ffmpeg log are untouched.
  lemma ProcessingGuards(w: World, ffmpegFound: bool, uploaded: seq<UploadedFile>, pressed: bool, plan: seq<Py<Slot>>,
                         tempDir: string, bitrate: string, tool: Tool)
    ensures !ffmpegFound ==> Processing(w, ffmpegFound, uploaded, pressed, plan, tempDir, bitrate, tool) == (Raised(StopException), w)
    ensures ffmpegFound && (|uploaded| == 0 || !pressed) ==>
      Processing(w, ffmpegFound, uploaded, pressed, plan, tempDir, bitrate, tool) == (Ok(None), w)
    ensures Processing(w, ffmpegFound, uploaded, pressed, plan, tempDir, bitrate, tool).0.Ok?
            && Processing(w, ffmpegFound, uploaded, pressed, plan, tempDir, bitrate, tool).0.value.Some? ==>
            ffmpegFound && |uploaded| > 0 && pressed
  {
  }

  /// The stacked file lies outside the slot files.
  lemma StackedNotSlot(tempDir: string, bitrate: string, ext: string)
    ensures !SlotFileIn(tempDir, StackedPath(tempDir, bitrate, ext))
  {
    var name := "audio_file_stacked_" + bitrate + ext;
    var d := DirPrefix(tempDir);
    assert name[0] == 'a' && name[6] == 'f';
    assert StackedPath(tempDir, bitrate, ext) == d + name;
    assert (d + name)[|d| + 6] == 'f';
  }

  /// With a ready plan and no stacked file yet, the run returns the stacked
  /// path, the manifest lists the compressed slots in slot order, and the
  /// last ffmpeg run is the concatenation.
  lemma ProcessingCombines(w: World, uploaded: seq<UploadedFile>, plan: seq<Py<Slot>>, tempDir: string, bitrate: string, tool: Tool)
    requires |uploaded| > 0 && NormalDir(tempDir) && PlanReady(plan) && PlanShaped(plan)
    requires StackedPath(tempDir, bitrate, ".m4a") !in w.files
    ensures var (r, w') := Processing(w, true, uploaded, true, plan, tempDir, bitrate, tool);
            && r == Ok(Some(StackedPath(tempDir, bitrate, ".m4a")))
            && ManifestPath(tempDir) in w'.files
            && w'.files[ManifestPath(tempDir)] == Text(Manifest(CompressedSlotPaths(tempDir, bitrate, plan)))
            && |w'.runs| > 0 && w'.runs[|w'.runs| - 1] == Concat(ManifestPath(tempDir), StackedPath(tempDir, bitrate, ".m4a"))
  {
    var targets := Targets(tempDir, plan, bitrate);
    var paths := CompressedSlotPaths(tempDir, bitrate, plan);
    TargetsOf(tempDir, plan, bitrate);
    ProcessSlotsSucceed(w, tempDir, plan, targets, bitrate, tool);
    ProcessSlotsFrame(w, tempDir, plan, targets, bitrate, tool);
    var w1 := ProcessSlots(w, tempDir, plan, targets, bitrate, tool).1;
    StackedNotSlot(tempDir, bitrate, ".m4a");
    assert StackedPath(tempDir, bitrate, ".m4a") !in w1.files;
    CombineFresh(w1, paths, tempDir, bitrate, tool);
    assert Processing(w, true, uploaded, true, plan, tempDir, bitrate, tool)
        == (Ok(Some(StackedPath(tempDir, bitrate, ".m4a"))), CombineStep(w1, paths, tempDir, bitrate, ".m4a", tool).1);
  }

  /// Combining without a stacked file writes the manifest and runs the concatenation last.
  lemma CombineFresh(w: World, paths: seq<string>, tempDir: string, bitrate: string, tool: Tool)
    requires StackedPath(tempDir, bitrate, ".m4a") !in w.files
    ensures var w' := CombineStep(w, paths, tempDir, bitrate, ".m4a", tool).1;
            && ManifestPath(tempDir) in w'.files
            && w'.files[ManifestPath(tempDir)] == Text(Manifest(paths))
            && |w'.runs| > 0 && w'.runs[|w'.runs| - 1] == Concat(ManifestPath(tempDir), StackedPath(tempDir, bitrate, ".m4a"))
  {
    StackedIsNotManifest(tempDir, bitrate, ".m4a");
  }

  /// A stacked file left by an earlier run is returned as it is: the new
  /// uploads are written and compressed but never reach it.
  lemma ProcessingReusesStacked(w: World, uploaded: seq<UploadedFile>, plan: seq<Py<Slot>>, tempDir: string, bitrate: string, tool: Tool)
    requires |uploaded| > 0 && NormalDir(tempDir) && PlanReady(plan) && PlanShaped(plan)
    requires StackedPath(tempDir, bitrate, ".m4a") in w.files
    ensures var (r, w') := Processing(w, true, uploaded, true, plan, tempDir, bitrate, tool);
            && r == Ok(Some(StackedPath(tempDir, bitrate, ".m4a")))
            && StackedPath(tempDir, bitrate, ".m4a") in w'.files
            && w'.files[StackedPath(tempDir, bitrate, ".m4a")] == w.files[StackedPath(tempDir, bitrate, ".m4a")]
  {
    TargetsOf(tempDir, plan, bitrate);
    ProcessSlotsSucceed(w, tempDir, plan, Targets(tempDir, plan, bitrate), bitrate, tool);
    ProcessSlotsFrame(w, tempDir, plan, Targets(tempDir, plan, bitrate), bitrate, tool);
    StackedNotSlot(tempDir, bitrate, ".m4a");
  }

  method ProcessingWith(disk: Disk, ffmpegFound: bool, uploaded: seq<UploadedFile>, pressed: bool, plan: seq<Py<Slot>>,
                        tempDir: string, bitrate: string, tool: Tool) returns (r: Py<Option<string>>)
    modifies disk
    ensures (r, disk.State()) == Processing(old(disk.State()), ffmpegFound, uploaded, pressed, plan, tempDir, bitrate, tool)
  {
    if !ffmpegFound {
      return Raised(StopException);
    }
    if |uploaded| == 0 || !pressed {
      return Ok(None);
    }
    var paths := ProcessSlotsLoop(disk, tempDir, plan, bitrate, tool);
    if paths.Raised? {
      return Raised(paths.error);
    }
    var out := CombineAudioFiles(disk, paths.value, tempDir, bitrate, ".m4a", tool);
    r := Ok(Some(out));
  }

  /// `audio_processing` as written, with the slot rule of `SlotSource`.
  method AudioProcessing(disk: Disk, ffmpegFound: bool, uploaded: seq<UploadedFile>, fileOrder: seq<string>, pressed: bool,
                         tempDir: string, bitrate: string, tool: Tool) returns (r: Py<Option<string>>)
    modifies disk
    ensures (r, disk.State()) == Processing(old(disk.State()), ffmpegFound, uploaded, pressed, AsWrittenPlan(uploaded, fileOrder), tempDir, bitrate, tool)
  {
    r := ProcessingWith(disk, ffmpegFound, uploaded, pressed, AsWrittenPlan(uploaded, fileOrder), tempDir, bitrate, tool);
  }

  /// `audio_processing` as meant: one slot per selected name, in the selected order.
  method AudioProcessingInOrder(disk: Disk, ffmpegFound: bool, uploaded: seq<UploadedFile>, fileOrder: seq<string>, pressed: bool,
                                tempDir: string, bitrate: string, tool: Tool) returns (r: Py<Option<string>>)
    modifies disk
    ensures (r, disk.State()) == Processing(old(disk.State()), ffmpegFound, uploaded, pressed, IntendedPlan(uploaded, fileOrder), tempDir, bitrate, tool)
  {
    r := ProcessingWith(disk, ffmpegFound, uploaded, pressed, IntendedPlan(uploaded, fileOrder), tempDir, bitrate, tool);
  }

  // ---------------------------------------------------------------------------
  // What the pages keep in the session

  /// audio_preprocessing.py `run_main`: a truthy output is read back into
  /// `audio` and then recorded as `audio_filepath`; a failed read raises
  /// before either is set.
  function PreprocessedSession(state: State, files: Files, output: Option<string>): Py<State> {
    if !Truthy(output) then Ok(state)
    else match ReadAudio(files, output)
      case Raised(e) => Raised(e)
      case Ok(c) => Ok(state["audio" := Audio(c.value)]["audio_filepath" := Str(output.value)])
  }

  /// audio_upload.py, after combining: the path is recorded first and, when
  /// truthy, read back into `audio`; a failed read leaves the path recorded.
  function UploadedSession(state: State, files: Files, output: Option<string>): (State, Py<()>) {
    if output.None? then (state, Ok(()))
    else
      var recorded := state["audio_filepath" := Str(output.value)];
      if output.value == "" then (recorded, Ok(()))
      else match ReadAudio(files, output)
        case Raised(e) => (recorded, Raised(e))
        case Ok(c) => (recorded["audio" := Audio(c.value)], Ok(()))
  }

  /// Both pages store the combined file and its path when ffmpeg produced it.
  /// When it did not, the preprocessing page raises with the session
  /// untouched, while the upload page raises with `audio_filepath` already
  /// naming the missing file.
  lemma SessionAfterCombine(state: State, files: Files, out: string)
    requires out != ""
    ensures out in files ==>
      && PreprocessedSession(state, files, Some(out)) == Ok(state["audio" := Audio(files[out])]["audio_filepath" := Str(out)])
      && UploadedSession(state, files, Some(out)).1 == Ok(())
      && UploadedSession(state, files, Some(out)).0 == state["audio_filepath" := Str(out)]["audio" := Audio(files[out])]
    ensures out !in files ==>
      && PreprocessedSession(state, files, Some(out)) == Raised(FileNotFound(out))
      && UploadedSession(state, files, Some(out)) == (state["audio_filepath" := Str(out)], Raised(FileNotFound(out)))
    ensures PreprocessedSession(state, files, None) == Ok(state) && UploadedSession(state, files, None) == (state, Ok(()))
  {
  }

  /// The stacked path is never empty, so both pages always read it back.
  lemma StackedNonEmpty(tempDir: string, bitrate: string, ext: string)
    ensures StackedPath(tempDir, bitrate, ext) != ""
  {
    var name := "audio_file_stacked_" + bitrate + ext;
    assert name[0] == 'a';
    assert |Join(tempDir, name)| >= |name|;
  }

  /// audio_preprocessing.py `run_main`: the temporary directory, then the
  /// bitrate, are read from the session; `audio_processing` runs with the
  /// as-written slot rule; a truthy output is stored in the session.
  function PreprocessPage(state: State, w: World, ffmpegFound: bool, uploaded: seq<UploadedFile>, fileOrder: seq<string>,
                          pressed: bool, tool: Tool): (Py<()>, State, World)
  {
    match StrEntry(state, "temp_dir")
    case Raised(e) => (Raised(e), state, w)
    case Ok(tempDir) =>
      match StrEntry(state, "bitrate")
      case Raised(e) => (Raised(e), state, w)
      case Ok(bitrate) =>
        var (r, w1) := Processing(w, ffmpegFound, uploaded, pressed, AsWrittenPlan(uploaded, fileOrder), tempDir, bitrate, tool);
        match r
        case Raised(e) => (Raised(e), state, w1)
        case Ok(out) =>
          match PreprocessedSession(state, w1.files, out)
          case Raised(e) => (Raised(e), state, w1)
          case Ok(state') => (Ok(()), state', w1)
  }

  /// A run of the preprocessing page changes the session only by storing a
  /// combined file, and only after the button was pressed with uploads.
  lemma PreprocessPageSession(state: State, w: World, ffmpegFound: bool, uploaded: seq<UploadedFile>, fileOrder: seq<string>,
                              pressed: bool, tool: Tool)
    ensures var (r, state', w') := PreprocessPage(state, w, ffmpegFound, uploaded, fileOrder, pressed, tool);
            && (state' == state || (ffmpegFound && pressed && |uploaded| > 0 && r == Ok(())
                                    && "audio_filepath" in state' && state'["audio_filepath"].Str?
                                    && var out := state'["audio_filepath"].s;
                                       out in w'.files && state' == state["audio" := Audio(w'.files[out])]["audio_filepath" := Str(out)]))
            && (!ffmpegFound && "temp_dir" in state && state["temp_dir"].Str? && "bitrate" in state && state["bitrate"].Str? ==>
                  r == Raised(StopException) && w' == w)
  {
    var (r, state', w') := PreprocessPage(state, w, ffmpegFound, uploaded, fileOrder, pressed, tool);
    if StrEntry(state, "temp_dir").Ok? && StrEntry(state, "bitrate").Ok? {
      var tempDir := StrEntry(state, "temp_dir").value;
      var bitrate := StrEntry(state, "bitrate").value;
      ProcessingGuards(w, ffmpegFound, uploaded, pressed, AsWrittenPlan(uploaded, fileOrder), tempDir, bitrate, tool);
    }
  }

  method RunPreprocessPage(disk: Disk, session: SessionState, ffmpegFound: bool, uploaded: seq<UploadedFile>, fileOrder: seq<string>,
                           pressed: bool, tool: Tool) returns (r: Py<()>)
    modifies disk, session
    ensures (r, session.entries, disk.State()) == PreprocessPage(old(session.entries), old(disk.State()), ffmpegFound, uploaded, fileOrder, pressed, tool)
  {
    var tempDir := StrEntry(session.entries, "temp_dir");
    if tempDir.Raised? {
      return Raised(tempDir.error);
    }
    var bitrate := StrEntry(session.entries, "bitrate");
    if bitrate.Raised? {
      return Raised(bitrate.error);
    }
    var out := AudioProcessing(disk, ffmpegFound, uploaded, fileOrder, pressed, tempDir.value, bitrate.value, tool);
    if out.Raised? {
      return Raised(out.error);
    }
    if Truthy(out.value) {
      var audio := FileToBytesIO(disk, out.value);
      if audio.Raised? {
        return Raised(audio.error);
      }
      session.entries := session.entries["audio" := Audio(audio.value.value)];
      session.entries := session.entries["audio_filepath" := Str(out.value.value)];
    }
    r := Ok(());
  }

  /// audio_upload.py `audio_processing`, with the temporary directory and the
  /// bitrate given: the same processing, then the session update of that page.
  function UploadPage(state: State, w: World, ffmpegFound: bool, uploaded: seq<UploadedFile>, fileOrder: seq<string>,
                      pressed: bool, tempDir: string, bitrate: string, tool: Tool): (Py<()>, State, World)
  {
    var (r, w1) := Processing(w, ffmpegFound, uploaded, pressed, AsWrittenPlan(uploaded, fileOrder), tempDir, bitrate, tool);
    match r
    case Raised(e) => (Raised(e), state, w1)
    case Ok(out) =>
      var (state', r') := UploadedSession(state, w1.files, out);
      (r', state', w1)
  }

  method RunUploadPage(disk: Disk, session: SessionState, ffmpegFound: bool, uploaded: seq<UploadedFile>, fileOrder: seq<string>,
                       pressed: bool, tempDir: string, bitrate: string, tool: Tool) returns (r: Py<()>)
    modifies disk, session
    ensures (r, session.entries, disk.State()) == UploadPage(old(session.entries), old(disk.State()), ffmpegFound, uploaded, fileOrder, pressed, tempDir, bitrate, tool)
  {
    var out := AudioProcessing(disk, ffmpegFound, uploaded, fileOrder, pressed, tempDir, bitrate, tool);
    if out.Raised? {
      return Raised(out.error);
    }
    r := Ok(());
    if out.value.Some? {
      session.entries := session.entries["audio_filepath" := Str(out.value.value)];
      if out.value.value != "" {
        var audio := FileToBytesIO(disk, out.value);
        if audio.Raised? {
          return Raised(audio.error);
        }
        session.entries := session.entries["audio" := Audio(audio.value.value)];
      }
    }
  }
}
