/// The saved recordings of nota_bene/app_pages/audio_recording.py: a dict from
/// timestamp key to WAV bytes (`session['audio_recording']`) and the list that
/// orders the keys (`session['audio_order']`).
module Recording {
  import opened Outcomes
  import opened Strings
  import opened Disk
  import opened Session

  /// The two directions `move_audio` is called with.
  datatype Direction = Up | Down

  /// The recordings and their order as values.
  datatype Book = Book(recordings: map<string, Bytes>, order: seq<string>)

  /// Every key listed once, and the listed keys are exactly the saved ones.
  predicate Valid(b: Book) {
    NoDuplicates(b.order) && Elems(b.order) == b.recordings.Keys
  }

  function Swap(s: seq<string>, i: nat, j: nat): (r: seq<string>)
    requires i < |s| && j < |s|
    ensures |r| == |s| && r[i] == s[j] && r[j] == s[i]
    ensures forall k :: 0 <= k < |s| && k != i && k != j ==> r[k] == s[k]
    ensures multiset(r) == multiset(s)
  {
    s[i := s[j]][j := s[i]]
  }

  // ---------------------------------------------------------------------------
  // Saving (the save branch of main)

  /// Saving stores the data under the key and appends the key to the order.
  function Saved(b: Book, key: string, data: Bytes): Book {
    Book(b.recordings[key := data], b.order + [key])
  }

  /// Saving under a fresh key keeps the book valid, stores the data, puts the
  /// key last and leaves the other recordings and their order as they were.
  lemma SaveFresh(b: Book, key: string, data: Bytes)
    requires Valid(b) && key !in b.recordings
    ensures var b' := Saved(b, key, data);
            && Valid(b')
            && b'.recordings[key] == data
            && b'.order[..|b.order|] == b.order && b'.order[|b.order|] == key
            && forall k :: k in b.recordings ==> k in b'.recordings && b'.recordings[k] == b.recordings[k]
  {
    var b' := Saved(b, key, data);
    assert key !in Elems(b.order);
    assert b'.order[..|b.order|] == b.order;
    assert Elems(b'.order) == Elems(b.order) + {key};
  }

  /// Saving under a key that is already saved (two saves within the same
  /// second get the same timestamp) overwrites the data but lists the key twice.
  lemma SaveExistingListsTwice(b: Book, key: string, data: Bytes)
    requires Valid(b) && key in b.recordings
    ensures var b' := Saved(b, key, data);
            && b'.recordings[key] == data
            && multiset(b'.order)[key] == 2
            && !Valid(b')
  {
    var b' := Saved(b, key, data);
    assert key in Elems(b.order);
    var i :| 0 <= i < |b.order| && b.order[i] == key;
    assert b'.order[i] == key == b'.order[|b.order|];
    OnceInDistinct(b.order, i);
  }

  /// The save branch as it should be: a key already listed is not listed again.
  function SavedOnce(b: Book, key: string, data: Bytes): Book {
    if key in b.order then Book(b.recordings[key := data], b.order) else Saved(b, key, data)
  }

  /// With that rule every save keeps the book valid and stores the data.
  lemma SaveOnceKeepsValid(b: Book, key: string, data: Bytes)
    requires Valid(b)
    ensures Valid(SavedOnce(b, key, data))
    ensures SavedOnce(b, key, data).recordings == b.recordings[key := data]
  {
    if key !in b.order {
      SaveFresh(b, key, data);
    }
  }

  // ---------------------------------------------------------------------------
  // remove_audio

  /// `remove_audio(key)`: a saved key is deleted from the dict and then its
  /// first occurrence from the list; `list.remove` raises ValueError when the
  /// key is not listed, after the dict entry is already gone.
  function Removed(b: Book, key: string): (Book, Py<()>) {
    if key !in b.recordings then (b, Ok(()))
    else
      var recordings := b.recordings - {key};
      match IndexOf(b.order, key)
      case Ok(i) => (Book(recordings, b.order[..i] + b.order[i + 1..]), Ok(()))
      case Raised(e) => (Book(recordings, b.order), Raised(e))
  }

  /// Removing an unsaved key changes nothing.
  lemma RemoveAbsent(b: Book, key: string)
    requires key !in b.recordings
    ensures Removed(b, key) == (b, Ok(()))
  {
  }

  /// Removing a saved key from a valid book succeeds, drops the key from both
  /// the dict and the list, keeps the rest in order, and keeps the book valid.
  lemma RemovePresent(b: Book, key: string)
    requires Valid(b) && key in b.recordings
    ensures var (b', r) := Removed(b, key);
            && r == Ok(())
            && Valid(b')
            && b'.recordings == b.recordings - {key}
            && key !in b'.order
            && exists i :: 0 <= i < |b.order| && b.order[i] == key && b'.order == b.order[..i] + b.order[i + 1..]
  {
    assert key in Elems(b.order);
    var i := IndexOf(b.order, key).value;
    RemoveAtDistinct(b.order, i);
  }

  // ---------------------------------------------------------------------------
  // move_audio

  /// `move_audio(key, direction)`: swap with the neighbour above or below,
  /// nothing at the ends; `list.index` raises ValueError for an unlisted key.
  function Moved(b: Book, key: string, direction: Direction): Py<Book> {
    match IndexOf(b.order, key)
    case Raised(e) => Raised(e)
    case Ok(i) =>
      if direction == Up && i > 0 then Ok(Book(b.recordings, Swap(b.order, i, i - 1)))
      else if direction == Down && i < |b.order| - 1 then Ok(Book(b.recordings, Swap(b.order, i, i + 1)))
      else Ok(b)
  }

  /// Moving fails exactly for an unlisted key; otherwise it only permutes the
  /// order (same length, same multiset) and leaves the recordings alone.
  lemma MovePermutes(b: Book, key: string, direction: Direction)
    ensures Moved(b, key, direction).Raised? <==> key !in b.order
    ensures Moved(b, key, direction).Raised? ==> Moved(b, key, direction).error == ValueError
    ensures Moved(b, key, direction).Ok? ==>
      var b' := Moved(b, key, direction).value;
      b'.recordings == b.recordings && |b'.order| == |b.order| && multiset(b'.order) == multiset(b.order)
  {
  }

  /// Up from position i > 0 swaps with the predecessor; up from the top does nothing.
  lemma MoveUp(b: Book, i: nat)
    requires NoDuplicates(b.order) && i < |b.order|
    ensures i > 0 ==> Moved(b, b.order[i], Up) == Ok(Book(b.recordings, Swap(b.order, i, i - 1)))
    ensures i == 0 ==> Moved(b, b.order[i], Up) == Ok(b)
  {
    FirstIndexDistinct(b.order, i);
  }

  /// Down from position i < len-1 swaps with the successor; down from the bottom does nothing.
  lemma MoveDown(b: Book, i: nat)
    requires NoDuplicates(b.order) && i < |b.order|
    ensures i < |b.order| - 1 ==> Moved(b, b.order[i], Down) == Ok(Book(b.recordings, Swap(b.order, i, i + 1)))
    ensures i == |b.order| - 1 ==> Moved(b, b.order[i], Down) == Ok(b)
  {
    FirstIndexDistinct(b.order, i);
  }

  /// Moving up and then down again, from any position but the first, restores the order.
  lemma UpThenDown(b: Book, key: string)
    requires key in b.order && IndexOf(b.order, key).value > 0
    ensures Moved(b, key, Up).Ok?
    ensures Moved(Moved(b, key, Up).value, key, Down) == Ok(b)
  {
    var i := IndexOf(b.order, key).value;
    var o := Swap(b.order, i, i - 1);
    assert Moved(b, key, Up) == Ok(Book(b.recordings, o));
    assert o[..i - 1] == b.order[..i - 1] == b.order[..i][..i - 1];
    IndexOfAt(o, key, i - 1);
    assert Swap(o, i - 1, i) == b.order;
  }

  /// Moving keeps a valid book valid.
  lemma MoveKeepsValid(b: Book, key: string, direction: Direction)
    requires Valid(b) && Moved(b, key, direction).Ok?
    ensures Valid(Moved(b, key, direction).value)
  {
    var i := IndexOf(b.order, key).value;
    var b' := Moved(b, key, direction).value;
    if direction == Up && i > 0 {
      assert b' == Book(b.recordings, Swap(b.order, i, i - 1));
      SwapDistinct(b.order, i, i - 1);
    } else if direction == Down && i < |b.order| - 1 {
      assert b' == Book(b.recordings, Swap(b.order, i, i + 1));
      SwapDistinct(b.order, i, i + 1);
    } else {
      assert b' == b;
    }
  }

  /// Swapping two positions keeps a list free of duplicates and keeps its elements.
  lemma SwapDistinct(s: seq<string>, i: nat, j: nat)
    requires NoDuplicates(s) && i < |s| && j < |s|
    ensures NoDuplicates(Swap(s, i, j)) && Elems(Swap(s, i, j)) == Elems(s)
  {
    var r := Swap(s, i, j);
    forall a | 0 <= a < |s| ensures r[Swapped(a, i, j)] == s[a] && s[Swapped(a, i, j)] == r[a] {}
    forall a, c | 0 <= a < c < |r| ensures r[a] != r[c] {
      var pa, pc := Swapped(a, i, j), Swapped(c, i, j);
      assert r[a] == s[pa] && r[c] == s[pc] && pa != pc;
      if pa < pc { assert s[pa] != s[pc]; } else { assert s[pc] != s[pa]; }
    }
    forall x | x in Elems(s) ensures x in Elems(r) {
      var a :| 0 <= a < |s| && s[a] == x;
      assert r[Swapped(a, i, j)] == x;
    }
    forall x | x in Elems(r) ensures x in Elems(s) {
      var a :| 0 <= a < |r| && r[a] == x;
      assert s[Swapped(a, i, j)] == x;
    }
  }

  /// The position a swap of i and j sends position a to.
  function Swapped(a: nat, i: nat, j: nat): nat {
    if a == i then j else if a == j then i else a
  }

  // ---------------------------------------------------------------------------
  // Listing the saved recordings (the loop at the end of main)

  /// The loop over the order: the audio of each listed key, in order; a
  /// listed key without a recording raises KeyError.
  function ListOrder(recordings: map<string, Bytes>, order: seq<string>): Py<seq<Bytes>>
    decreases |order|
  {
    if |order| == 0 then Ok([])
    else if order[0] !in recordings then Raised(KeyError(order[0]))
    else match ListOrder(recordings, order[1..])
      case Ok(rest) => Ok([recordings[order[0]]] + rest)
      case Raised(e) => Raised(e)
  }

  /// The saved recordings as the page lists them: nothing at all while the
  /// dict is empty, otherwise the loop over the order.
  function Playlist(b: Book): Py<seq<Bytes>> {
    if |b.recordings| == 0 then Ok([]) else ListOrder(b.recordings, b.order)
  }

  /// Every key listed is saved: the loop lists one recording per key, in order.
  lemma {:induction false} ListOrderOfSaved(recordings: map<string, Bytes>, order: seq<string>)
    requires Elems(order) <= recordings.Keys
    ensures ListOrder(recordings, order).Ok?
    ensures |ListOrder(recordings, order).value| == |order|
    ensures forall i :: 0 <= i < |order| ==> ListOrder(recordings, order).value[i] == recordings[order[i]]
    decreases |order|
  {
    if |order| > 0 {
      assert order[0] in Elems(order);
      ListOrderOfSaved(recordings, order[1..]);
    }
  }

  /// A valid book lists one recording per key, in order.
  lemma PlaylistOfValid(recordings: map<string, Bytes>, order: seq<string>)
    requires Elems(order) <= recordings.Keys
    ensures Playlist(Book(recordings, order)).Ok?
    ensures |Playlist(Book(recordings, order)).value| == |order|
    ensures forall i :: 0 <= i < |order| ==> Playlist(Book(recordings, order)).value[i] == recordings[order[i]]
  {
    if |order| > 0 {
      assert order[0] in recordings.Keys by { assert order[0] in Elems(order); }
      assert |recordings| > 0;
    }
    ListOrderOfSaved(recordings, order);
  }

  /// Two saves in the same second, a save under another key and a remove of
  /// the first key leave that key listed without a recording while the dict
  /// is not empty, and listing the recordings then raises KeyError.
  lemma SameSecondSavesThenRemove(key: string, other: string, first: Bytes, second: Bytes, third: Bytes)
    requires key != other
    ensures var b := Saved(Saved(Saved(Book(map[], []), key, first), key, second), other, third);
            var (b', r) := Removed(b, key);
            && r == Ok(())
            && b'.order == [key, other] && key !in b'.recordings && b'.recordings == map[other := third]
            && Playlist(b') == Raised(KeyError(key))
  {
    var b := Saved(Saved(Saved(Book(map[], []), key, first), key, second), other, third);
    assert b.order == [key, key, other];
    assert IndexOf(b.order, key) == Ok(0);
    assert b.order[1..] == [key, other];
    assert b.recordings - {key} == map[other := third];
    assert |map[other := third]| == 1;
  }

  // ---------------------------------------------------------------------------
  // The session-held store and its initialisation

  /// The two session entries the page works on, updated in place.
  class RecordingStore {
    var recordings: map<string, Bytes>
    var order: seq<string>

    /// The state after the page's initialisation: both empty.
    constructor ()
      ensures recordings == map[] && order == []
    {
      recordings := map[];
      order := [];
    }

    function Contents(): Book
      reads this
    {
      Book(recordings, order)
    }

    /// The save branch of `main`: store under the timestamp, append the timestamp.
    method Save(timestamp: string, data: Bytes)
      modifies this
      ensures Contents() == Saved(old(Contents()), timestamp, data)
    {
      recordings := recordings[timestamp := data];
      order := order + [timestamp];
    }

    /// The save branch as it should be (see `SavedOnce`).
    method SaveOnce(timestamp: string, data: Bytes)
      modifies this
      ensures Contents() == SavedOnce(old(Contents()), timestamp, data)
    {
      recordings := recordings[timestamp := data];
      if timestamp !in order {
        order := order + [timestamp];
      }
    }

    /// `remove_audio(key)`.
    method RemoveAudio(key: string) returns (r: Py<()>)
      modifies this
      ensures (Contents(), r) == Removed(old(Contents()), key)
    {
      r := Ok(());
      if key in recordings {
        recordings := recordings - {key};
        var i := 0;
        while i < |order| && order[i] != key
          invariant 0 <= i <= |order|
          invariant key !in order[..i]
        {
          assert order[..i + 1] == order[..i] + [order[i]];
          i := i + 1;
        }
        if i == |order| {
          assert order[..i] == order;
          r := Raised(ValueError);
        } else {
          order := order[..i] + order[i + 1..];
        }
      }
    }

    /// `move_audio(key, direction)`, swapping in place.
    method MoveAudio(key: string, direction: Direction) returns (r: Py<()>)
      modifies this
      ensures var m := Moved(old(Contents()), key, direction);
              && (m.Raised? ==> r == Raised(m.error) && Contents() == old(Contents()))
              && (m.Ok? ==> r == Ok(()) && Contents() == m.value)
    {
      var index := IndexOf(order, key);
      if index.Raised? {
        return Raised(index.error);
      }
      var i := index.value;
      if direction == Up && i > 0 {
        order := order[i := order[i - 1]][i - 1 := order[i]];
      } else if direction == Down && i < |order| - 1 {
        order := order[i := order[i + 1]][i + 1 := order[i]];
      }
      r := Ok(());
    }
  }

  /// The module-level initialisation: both entries are created when the dict is missing.
  method InitRecordingModule(session: SessionState)
    modifies session
    ensures "audio_recording" in old(session.entries) ==> session.entries == old(session.entries)
    ensures "audio_recording" !in old(session.entries) ==>
      session.entries == old(session.entries)["audio_recording" := Clips(map[])]["audio_order" := StrList([])]
  {
    if "audio_recording" !in session.entries {
      session.entries := session.entries["audio_recording" := Clips(map[])];
      session.entries := session.entries["audio_order" := StrList([])];
    }
  }

  /// The initialisation at the top of `main`: each entry is created when missing.
  method InitRecordingPage(session: SessionState)
    modifies session
    ensures session.entries == SetDefault(SetDefault(old(session.entries), "audio_recording", Clips(map[])), "audio_order", StrList([]))
  {
    session.InitSessionKey("audio_recording", Clips(map[]));
    session.InitSessionKey("audio_order", StrList([]));
  }
}
