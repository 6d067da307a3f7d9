/** Sequences of user actions on a `Player`, each checked against what the transport
    promises for the whole sequence. */
module Scenarios {
  import opened Wrappers
  import opened Sorting
  import opened PyText
  import opened Metadata
  import opened QueueBuilder
  import opened Transport

  /** "Next" then "previous" comes back to the same track, on the same queue. */
  method NextThenPrevious(p: Player)
    requires p.Valid() && p.queue != []
    modifies p
    ensures p.Valid() && p.queue == old(p.queue) && p.index == old(p.index)
    ensures p.engine == Engine(Some(p.queue[p.index]), true)
  {
    ghost var start := p.index;
    p.NextTrack();
    p.PreviousTrack();
    PreviousUndoesNext(start, |p.queue|);
  }

  /** Shuffle toggled twice and loop toggled three times leave both modes, their captions
      and the queue as they were. */
  method ModesComeBack(p: Player)
    requires p.Valid()
    modifies p
    ensures p.Valid() && p.shuffle == old(p.shuffle) && p.loopMode == old(p.loopMode)
    ensures p.shuffleText == old(p.shuffleText) && p.loopText == old(p.loopText)
    ensures p.queue == old(p.queue) && p.index == old(p.index) && p.engine == old(p.engine)
  {
    p.ToggleShuffle();
    p.ToggleShuffle();
    p.ToggleLoop();
    p.ToggleLoop();
    p.ToggleLoop();
    LoopModeCycle(old(p.loopMode));
  }

  /** Pressing "next" once per queued track comes back to the starting track. */
  method NextAroundQueue(p: Player)
    requires p.Valid() && p.queue != []
    modifies p
    ensures p.Valid() && p.queue == old(p.queue) && p.index == old(p.index)
  {
    var n := |p.queue|;
    var k := 0;
    while k < n
      invariant 0 <= k <= n
      invariant p.Valid() && p.queue == old(p.queue)
      invariant p.index == Advance(old(p.index), n, k)
    {
      p.NextTrack();
      k := k + 1;
    }
    NextTrackPeriod(old(p.index), n);
  }

  /** A single opened file with loop off: when it ends, playback stops on it. */
  method SingleFileStopsAtEnd(readTags: string -> TagFrames, style: PathStyle, path: string) returns (p: Player, outcome: Outcome)
    requires path != ""
    ensures outcome == Completed && p.queue == [path] && p.index == 0
    ensures p.engine == Engine(Some(path), false) && !p.showsPause
  {
    p := new Player(readTags, style);
    p.OpenFile(path);
    outcome := p.HandleMediaEnded();
  }

  /** Loop One replays the track that ended, even with shuffle on. */
  method LoopOneReplays(readTags: string -> TagFrames, style: PathStyle, a: string, b: string) returns (p: Player, outcome: Outcome)
    requires a != "" && a != b && IsAudioName(b)
    ensures p.loopMode == 2 && p.loopText == "One" && p.shuffle && p.shuffleText == "On"
    ensures outcome == Completed && p.queue == [a, b] && p.index == 1
    ensures p.engine == Engine(Some(b), true)
  {
    p := new Player(readTags, style);
    p.OpenFile(a);
    var clicked := p.OnFileTreeDoubleClicked(b, true);
    p.ToggleShuffle();
    p.ToggleLoop();
    p.ToggleLoop();
    outcome := p.HandleMediaEnded();
  }

  /** Double-clicking a queued file plays it where it is; the queue does not grow. */
  method ReplayQueuedFile(readTags: string -> TagFrames, style: PathStyle, a: string, b: string) returns (p: Player)
    requires a != "" && a != b && IsAudioName(a) && IsAudioName(b)
    ensures p.queue == [a, b] && p.index == 0 && p.engine == Engine(Some(a), true)
  {
    p := new Player(readTags, style);
    p.OpenFile(a);
    var first := p.OnFileTreeDoubleClicked(b, true);
    var second := p.OnFileTreeDoubleClicked(a, true);
  }

  /** A folder without audio entries leaves an empty, stopped queue and an empty cache, and
      the slot then fails on the undefined `resetTrackInfo`. */
  method FolderWithoutAudio(readTags: string -> TagFrames, style: PathStyle) returns (p: Player, outcome: Outcome)
    ensures outcome == Raised(AttributeError)
    ensures p.queue == [] && !p.engine.playing && !p.showsPause && p.cache == map[]
  {
    p := new Player(readTags, style);
    NotAudio("cover.bmp");
    NotAudio("notes.txt");
    assert AudioPaths(style, "/music", ["cover.bmp", "notes.txt"]) == [];
    outcome := p.OpenFolder("/music", ["cover.bmp", "notes.txt"]);
  }

  /** With POSIX paths, double-clicking a track of the opened folder in the file tree plays
      it in place. */
  method PosixTreeFindsFolderTrack(readTags: string -> TagFrames) returns (p: Player)
    ensures p.queue == ["/music/a.mp3"] && p.index == 0
    ensures p.engine == Engine(Some("/music/a.mp3"), true)
  {
    p := new Player(readTags, Posix);
    AudioNameMp3();
    WindowsJoinDiffersFromTreePath();
    SingleAudioQueue(Posix, "/music", "a.mp3", TrackNumbers(readTags));
    var loaded := p.OpenFolder("/music", ["a.mp3"]);
    assert p.queue == ["/music/a.mp3"] && p.index == 0;
    var clicked := p.OnFileTreeDoubleClicked("/music/a.mp3", true);
  }

  /** On Windows the folder's track is queued as "C:/Music\\a.mp3" while the tree names it
      "C:/Music/a.mp3", so the double-click queues the same file a second time. */
  method WindowsTreeQueuesFolderTrackTwice(readTags: string -> TagFrames) returns (p: Player)
    ensures |p.queue| == 2 && p.queue[0] == "C:/Music\\a.mp3" && p.queue[1] == "C:/Music/a.mp3" && p.index == 1
    ensures p.engine == Engine(Some("C:/Music/a.mp3"), true)
  {
    p := new Player(readTags, Windows);
    AudioNameMp3();
    WindowsJoinDiffersFromTreePath();
    SingleAudioQueue(Windows, "C:/Music", "a.mp3", TrackNumbers(readTags));
    var loaded := p.OpenFolder("C:/Music", ["a.mp3"]);
    assert p.queue == ["C:/Music\\a.mp3"] && p.index == 0;
    var clicked := p.OnFileTreeDoubleClicked("C:/Music/a.mp3", true);
  }

  lemma AudioNameMp3()
    ensures IsAudioName("a.mp3") && IsAudioName("C:/Music/a.mp3") && IsAudioName("/music/a.mp3")
  {
    assert Lower("a.mp3")[1..] == ".mp3";
    assert Lower("C:/Music/a.mp3")[10..] == ".mp3";
    assert Lower("/music/a.mp3")[8..] == ".mp3";
    assert ".mp3" in AudioExtensions;
  }

  /** A listing of one audio entry gives the queue of its joined path. */
  lemma SingleAudioQueue(style: PathStyle, folder: string, name: string, number: string -> Option<int>)
    requires IsAudioName(name)
    ensures BuildQueue(style, folder, [name], number) == [JoinPath(style, folder, name)]
  {
    assert Filter([name], IsAudioName) == [name] + Filter([name][1..], IsAudioName);
    assert AudioPaths(style, folder, [name]) == [JoinPath(style, folder, name)];
  }

  /** Every audio extension ends in '3', 'v', 'g' or 'c', so no other name is audio. */
  lemma NotAudio(name: string)
    requires |name| > 0 && LowerChar(name[|name| - 1]) !in "3vgc"
    ensures !IsAudioName(name)
  {
    forall e | e in AudioExtensions
      ensures !EndsWith(Lower(name), e)
    {
      assert e[|e| - 1] in "3vgc";
    }
  }
}
