/** The playback queue and transport state machine of `MusicPlayer` (amp.py:212-687):
    which track is current, what the end of a track leads to under the loop and shuffle
    modes, and how opening a folder, a file or a double-clicked entry replaces or extends
    the queue. The VLC engine is the ghost record `Engine`; Qt widgets appear only as the
    play button's icon and the two mode captions. */
module Transport {
  import opened Wrappers
  import opened Metadata
  import opened QueueBuilder

  /** `loop_mode`: 0 is Off, 1 is All (wrap at the end), 2 is One (repeat the track). */
  type LoopMode = m: int | 0 <= m < 3

  /** `{0: "Off", 1: "All", 2: "One"}[loop_mode]`, the loop button's caption. */
  function LoopLabel(m: LoopMode): string {
    if m == 0 then "Off" else if m == 1 then "All" else "One"
  }

  /** The shuffle button's caption. */
  function ShuffleLabel(on: bool): string {
    if on then "On" else "Off"
  }

  /** `(loop_mode + 1) % 3`: every press changes the mode. */
  function NextLoopMode(m: LoopMode): (r: LoopMode)
    ensures r != m
  {
    (m + 1) % 3
  }

  /** The loop button steps Off, All, One and back to Off, each mode with its own caption. */
  lemma LoopModeCycle(m: LoopMode)
    ensures NextLoopMode(NextLoopMode(NextLoopMode(m))) == m
    ensures NextLoopMode(m) != m && NextLoopMode(NextLoopMode(m)) != m
    ensures LoopLabel(0) == "Off" && LoopLabel(NextLoopMode(0)) == "All"
         && LoopLabel(NextLoopMode(NextLoopMode(0))) == "One"
  {
  }

  lemma LoopLabelInjective(a: LoopMode, b: LoopMode)
    requires LoopLabel(a) == LoopLabel(b)
    ensures a == b
  {
    assert "Off"[1] != "All"[1] && "All"[0] != "One"[0] && "Off"[1] != "One"[1];
  }

  /** The index `next_track` moves to: one on, wrapping from the last track to the first. */
  function NextIndex(i: int, n: int): (r: int)
    requires n > 0
    ensures 0 <= r < n
    ensures 0 <= i < n ==> r == if i + 1 < n then i + 1 else 0
  {
    (i + 1) % n
  }

  /** The index `previous_track` moves to. Python's `%` by a positive `n` is never negative,
      as Dafny's is, so the first track wraps to the last. */
  function PreviousIndex(i: int, n: int): (r: int)
    requires n > 0
    ensures 0 <= r < n
    ensures 0 <= i < n ==> r == if i > 0 then i - 1 else n - 1
  {
    (i - 1) % n
  }

  /** Next and previous undo each other on every valid index. */
  lemma PreviousUndoesNext(i: int, n: int)
    requires 0 <= i < n
    ensures 0 <= NextIndex(i, n) < n && 0 <= PreviousIndex(i, n) < n
    ensures PreviousIndex(NextIndex(i, n), n) == i
    ensures NextIndex(PreviousIndex(i, n), n) == i
  {
  }

  /** The index reached by `k` presses of "next". */
  function Advance(i: int, n: int, k: nat): int
    requires n > 0
  {
    if k == 0 then i else NextIndex(Advance(i, n, k - 1), n)
  }

  lemma {:induction false} AdvanceCompose(i: int, n: int, a: nat, b: nat)
    requires n > 0
    ensures Advance(i, n, a + b) == Advance(Advance(i, n, a), n, b)
  {
    if b > 0 {
      AdvanceCompose(i, n, a, b - 1);
    }
  }

  lemma {:induction false} AdvanceWithin(i: int, n: int, k: nat)
    requires 0 <= i && i + k < n
    ensures Advance(i, n, k) == i + k
  {
    if k > 0 {
      AdvanceWithin(i, n, k - 1);
    }
  }

  /** Pressing "next" as many times as there are tracks comes back to the starting track. */
  lemma NextTrackPeriod(i: int, n: int)
    requires 0 <= i < n
    ensures Advance(i, n, n) == i
  {
    AdvanceCompose(i, n, n - i, i);
    AdvanceWithin(i, n, n - i - 1);
    assert Advance(i, n, n - i) == 0;
    AdvanceWithin(0, n, i);
  }

  /** `s.index(x)`: the first position of `x`, or None where Python raises ValueError. */
  function FirstIndex<T(==)>(s: seq<T>, x: T): (r: Option<nat>)
    ensures r.Some? ==> r.value < |s| && s[r.value] == x && x !in s[..r.value]
    ensures r.None? <==> x !in s
  {
    if s == [] then None
    else if s[0] == x then Some(0)
    else match FirstIndex(s[1..], x)
      case None => None
      case Some(i) =>
        assert s[..i + 1] == [s[0]] + s[1..][..i];
        Some(i + 1)
  }

  /** What the VLC player holds: the media last set and whether it is playing. */
  datatype Engine = Engine(media: Option<string>, playing: bool)

  /** The Python exceptions that can escape a slot; `AttributeError` is the call of a
      method the class does not define. */
  datatype PyError = IndexError | ValueError | AttributeError

  /** How a slot returns: normally, or by an exception escaping it. */
  datatype Outcome = Completed | Raised(error: PyError)

  class Player {
    /** The tag library: what it yields for each path. */
    const readTags: string -> TagFrames
    /** The host's path rules, which `os.path.join` follows. */
    const style: PathStyle
    /** `folderAudioFiles`, the play queue. */
    var queue: seq<string>
    /** `current_index`. */
    var index: nat
    var loopMode: LoopMode
    var shuffle: bool
    /** `trackMetadata`: the metadata read for each queue position. */
    var cache: map<nat, TrackMetadata>
    /** Whether the play button shows the pause icon (else the play icon). */
    var showsPause: bool
    var shuffleText: string
    var loopText: string
    ghost var engine: Engine

    /** `extractMetadata(path)`. */
    function MetadataOf(path: string): TrackMetadata {
      ExtractMetadata(readTags(path))
    }

    /** With a non-empty queue the index is in range, the engine holds the current track
        and the cache holds its metadata; the captions show the modes. */
    ghost predicate Valid()
      reads this
    {
      && (queue != [] ==>
            && index < |queue|
            && engine.media == Some(queue[index])
            && index in cache && cache[index] == MetadataOf(queue[index]))
      && shuffleText == ShuffleLabel(shuffle)
      && loopText == LoopLabel(loopMode)
    }

    /** The transport part of `__init__` (amp.py:222-233). */
    constructor (readTags: string -> TagFrames, style: PathStyle)
      ensures Valid()
      ensures this.readTags == readTags && this.style == style
      ensures queue == [] && index == 0 && loopMode == 0 && !shuffle && cache == map[]
      ensures !showsPause && engine == Engine(None, false)
      ensures shuffleText == "Off" && loopText == "Off"
    {
      this.readTags := readTags;
      this.style := style;
      index := 0;
      loopMode := 0;
      shuffle := false;
      queue := [];
      cache := map[];
      showsPause := false;
      engine := Engine(None, false);
      shuffleText := "Off";
      loopText := "Off";
    }

    /** `updateTrackInfo` (amp.py:410-413): re-read and cache the current track's metadata. */
    method UpdateTrackInfo()
      requires index < |queue|
      modifies this`cache
      ensures cache == old(cache)[index := MetadataOf(queue[index])]
    {
      var currentFile := queue[index];
      var meta := MetadataOf(currentFile);
      cache := cache[index := meta];
    }

    /** `updatePlaybackMode` (amp.py:681-687): the captions follow the modes. */
    method UpdatePlaybackMode()
      modifies this`shuffleText, this`loopText
      ensures shuffleText == ShuffleLabel(shuffle) && loopText == LoopLabel(loopMode)
    {
      if shuffle {
        shuffleText := "On";
      } else {
        shuffleText := "Off";
      }
      loopText := LoopLabel(loopMode);
    }

    /** `next_track` (amp.py:655-662). */
    method NextTrack()
      requires Valid()
      modifies this
      ensures Valid()
      ensures queue == old(queue) && loopMode == old(loopMode) && shuffle == old(shuffle)
      ensures old(queue) == [] ==> unchanged(this)
      ensures old(queue) != [] ==>
        && index == NextIndex(old(index), |queue|)
        && engine == Engine(Some(queue[index]), true) && showsPause
        && cache == old(cache)[index := MetadataOf(queue[index])]
    {
      if queue != [] {
        index := (index + 1) % |queue|;
        var nextFile := queue[index];
        engine := Engine(Some(nextFile), false);
        engine := engine.(playing := true);
        showsPause := true;
        UpdateTrackInfo();
      }
    }

    /** `previous_track` (amp.py:664-671). */
    method PreviousTrack()
      requires Valid()
      modifies this
      ensures Valid()
      ensures queue == old(queue) && loopMode == old(loopMode) && shuffle == old(shuffle)
      ensures old(queue) == [] ==> unchanged(this)
      ensures old(queue) != [] ==>
        && index == PreviousIndex(old(index), |queue|)
        && engine == Engine(Some(queue[index]), true) && showsPause
        && cache == old(cache)[index := MetadataOf(queue[index])]
    {
      if queue != [] {
        index := (index - 1) % |queue|;
        var prevFile := queue[index];
        engine := Engine(Some(prevFile), false);
        engine := engine.(playing := true);
        showsPause := true;
        UpdateTrackInfo();
      }
    }

    /** `toggle_shuffle` (amp.py:673-675). */
    method ToggleShuffle()
      requires Valid()
      modifies this
      ensures Valid()
      ensures shuffle == !old(shuffle) && shuffleText == ShuffleLabel(shuffle)
      ensures queue == old(queue) && index == old(index) && loopMode == old(loopMode)
      ensures cache == old(cache) && engine == old(engine) && showsPause == old(showsPause)
    {
      shuffle := !shuffle;
      UpdatePlaybackMode();
    }

    /** `toggle_loop` (amp.py:677-679). */
    method ToggleLoop()
      requires Valid()
      modifies this
      ensures Valid()
      ensures loopMode == NextLoopMode(old(loopMode)) && loopText == LoopLabel(loopMode)
      ensures queue == old(queue) && index == old(index) && shuffle == old(shuffle)
      ensures cache == old(cache) && engine == old(engine) && showsPause == old(showsPause)
    {
      loopMode := (loopMode + 1) % 3;
      UpdatePlaybackMode();
    }

    /** `handle_media_ended` (amp.py:330-351): what the end of a track leads to. */
    method HandleMediaEnded() returns (outcome: Outcome)
      requires Valid()
      modifies this
      ensures Valid()
      ensures queue == old(queue) && loopMode == old(loopMode) && shuffle == old(shuffle)
      // Loop One: the same track again, whatever the shuffle flag says.
      ensures old(loopMode) == 2 && old(queue) == [] ==> outcome == Raised(IndexError) && unchanged(this)
      ensures old(loopMode) == 2 && old(queue) != [] ==>
        && outcome == Completed && index == old(index)
        && engine == Engine(old(engine).media, true)
        && cache == old(cache) && showsPause == old(showsPause)
      // Shuffle: any track of the queue, possibly the same one.
      ensures old(loopMode) != 2 && old(shuffle) && old(queue) == [] ==>
        outcome == Raised(ValueError) && unchanged(this)
      ensures old(loopMode) != 2 && old(shuffle) && old(queue) != [] ==>
        && outcome == Completed && index < |queue|
        && engine == Engine(Some(queue[index]), true)
        && cache == old(cache)[index := MetadataOf(queue[index])] && showsPause == old(showsPause)
      // In order: the following track, ...
      ensures old(loopMode) != 2 && !old(shuffle) && old(index) + 1 < |old(queue)| ==>
        && outcome == Completed && index == old(index) + 1
        && engine == Engine(Some(queue[index]), true)
        && cache == old(cache)[index := MetadataOf(queue[index])] && showsPause == old(showsPause)
      // ... after the last one under Loop All the first track ...
      ensures old(loopMode) == 1 && !old(shuffle) && old(index) + 1 >= |old(queue)| ==>
        && index == 0 && showsPause == old(showsPause)
        && (old(queue) == [] ==> outcome == Raised(IndexError) && engine == old(engine) && cache == old(cache))
        && (old(queue) != [] ==>
              && outcome == Completed && engine == Engine(Some(queue[0]), true)
              && cache == old(cache)[0 := MetadataOf(queue[0])])
      // ... and under Loop Off a stop on the last track, with the play icon shown.
      ensures old(loopMode) == 0 && !old(shuffle) && old(index) + 1 >= |old(queue)| ==>
        && outcome == Completed && index == old(index)
        && (old(queue) != [] ==> index == |queue| - 1)
        && engine == old(engine).(playing := false) && !showsPause && cache == old(cache)
    {
      if loopMode == 2 {
        if index >= |queue| {
          outcome := Raised(IndexError);
          return;
        }
        engine := Engine(Some(queue[index]), false);
        engine := engine.(playing := true);
      } else if shuffle {
        if |queue| - 1 < 0 {
          outcome := Raised(ValueError);
          return;
        }
        var pick: nat :| pick <= |queue| - 1;
        index := pick;
        engine := Engine(Some(queue[index]), false);
        engine := engine.(playing := true);
      } else {
        index := index + 1;
        if index >= |queue| {
          if loopMode == 1 {
            index := 0;
          } else {
            index := index - 1;
            engine := engine.(playing := false);
            showsPause := false;
            outcome := Completed;
            return;
          }
        }
        if index >= |queue| {
          outcome := Raised(IndexError);
          return;
        }
        engine := Engine(Some(queue[index]), false);
        engine := engine.(playing := true);
      }
      UpdateTrackInfo();
      outcome := Completed;
    }

    /** `onFileTreeDoubleClicked` (amp.py:616-631): play the entry, queueing it at the end
        if it is not queued yet. `isFile` is what `os.path.isfile` says of the path. */
    method OnFileTreeDoubleClicked(path: string, isFile: bool) returns (outcome: Outcome)
      requires Valid()
      modifies this
      ensures Valid()
      ensures loopMode == old(loopMode) && shuffle == old(shuffle)
      ensures isFile && IsAudioName(path) && path in old(queue) ==>
        && outcome == Completed && queue == old(queue)
        && queue[index] == path && path !in queue[..index]
        && engine == Engine(Some(path), true) && showsPause
        && cache == old(cache)[index := MetadataOf(path)]
      ensures isFile && IsAudioName(path) && path !in old(queue) ==>
        && outcome == Completed && queue == old(queue) + [path] && index == |old(queue)|
        && engine == Engine(Some(path), true) && showsPause
        && cache == old(cache)[index := MetadataOf(path)]
      ensures !(isFile && IsAudioName(path)) ==>
        && queue == old(queue) && index == old(index) && engine == old(engine)
        && showsPause == old(showsPause) && cache == old(cache)
        && outcome == (if old(queue) == [] then Raised(IndexError) else Completed)
    {
      if isFile && IsAudioName(path) {
        PlayEntry(path);
      }
      if index >= |queue| {
        outcome := Raised(IndexError);
        return;
      }
      UpdateTrackInfo();
      outcome := Completed;
    }

    /** amp.py:619-630: find the path in the queue, or append it, then make it current,
        start it and cache its metadata. */
    method PlayEntry(path: string)
      requires Valid()
      modifies this`queue, this`index, this`engine, this`showsPause, this`cache
      ensures Valid()
      ensures path in old(queue) ==> queue == old(queue) && queue[index] == path && path !in queue[..index]
      ensures path !in old(queue) ==> queue == old(queue) + [path] && index == |old(queue)|
      ensures engine == Engine(Some(path), true) && showsPause
      ensures cache == old(cache)[index := MetadataOf(path)]
    {
      var idx: nat;
      var found := FirstIndex(queue, path);
      if found.Some? {
        idx := found.value;
      } else {
        idx := |queue|;
        queue := queue + [path];
      }
      index := idx;
      engine := Engine(Some(path), false);
      engine := engine.(playing := true);
      showsPause := true;
      var meta := MetadataOf(path);
      cache := cache[idx := meta];
    }

    /** `open_file` (amp.py:633-644): the chosen file alone becomes the queue and plays.
        An empty path is a cancelled dialog. */
    method OpenFile(path: string)
      requires Valid()
      modifies this
      ensures Valid()
      ensures loopMode == old(loopMode) && shuffle == old(shuffle)
      ensures path == "" ==> unchanged(this)
      ensures path != "" ==>
        && queue == [path] && index == 0
        && engine == Engine(Some(path), true) && showsPause
        && cache == old(cache)[0 := MetadataOf(path)]
    {
      if path != "" {
        queue := [path];
        index := 0;
        engine := Engine(Some(path), false);
        engine := engine.(playing := true);
        showsPause := true;
        UpdateTrackInfo();
      }
    }

    /** `open_folder` (amp.py:573-614), given the folder the dialog returned (empty when
        cancelled) and `os.listdir` of it. The first track is loaded but not started. When
        no audio file is found the slot stops playback, then calls `resetTrackInfo`, which
        the class does not define, so AttributeError escapes it. */
    method OpenFolder(folder: string, listing: seq<string>) returns (outcome: Outcome)
      requires Valid()
      modifies this
      ensures Valid()
      ensures loopMode == old(loopMode) && shuffle == old(shuffle)
      ensures folder == "" ==> outcome == Completed && unchanged(this)
      ensures folder != "" ==> queue == BuildQueue(style, folder, listing, TrackNumbers(readTags))
      ensures folder != "" && queue != [] ==>
        && outcome == Completed
        && index == 0 && engine == Engine(Some(queue[0]), false)
        && cache == map[0 := MetadataOf(queue[0])] && showsPause == old(showsPause)
      ensures folder != "" && queue == [] ==>
        && outcome == Raised(AttributeError)
        && index == old(index) && cache == map[]
        && engine == old(engine).(playing := false) && !showsPause
    {
      outcome := Completed;
      if folder != "" {
        queue := [];
        cache := map[];
        var sorted := SortFolder(style, folder, listing, readTags);
        queue := sorted;
        outcome := CueQueue();
      }
    }

    /** amp.py:606-614: after a new queue is set with an empty cache, load its first track
        without starting it; when there is none, stop, show the play icon and fail on the
        undefined `resetTrackInfo`. */
    method CueQueue() returns (outcome: Outcome)
      requires cache == map[]
      requires shuffleText == ShuffleLabel(shuffle) && loopText == LoopLabel(loopMode)
      modifies this`index, this`engine, this`cache, this`showsPause
      ensures Valid()
      ensures queue != [] ==>
        && outcome == Completed
        && index == 0 && engine == Engine(Some(queue[0]), false)
        && cache == map[0 := MetadataOf(queue[0])] && showsPause == old(showsPause)
      ensures queue == [] ==>
        && outcome == Raised(AttributeError)
        && index == old(index) && cache == map[]
        && engine == old(engine).(playing := false) && !showsPause
    {
      if queue != [] {
        index := 0;
        engine := Engine(Some(queue[0]), false);
        UpdateTrackInfo();
        outcome := Completed;
      } else {
        engine := engine.(playing := false);
        showsPause := false;
        outcome := Raised(AttributeError);
      }
    }
  }
}
