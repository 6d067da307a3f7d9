/** How `open_folder` (amp.py:581-605) turns a directory listing into the play queue:
    keep the audio files, join them to the folder, then sort them by track number when
    every file has one, else by path. The listing and each file's tags are inputs. */
module QueueBuilder {
  import opened Wrappers
  import opened PyText
  import opened Sorting
  import opened Metadata

  const AudioExtensions: seq<string> := [".mp3", ".wav", ".ogg", ".flac"]

  /** `name.lower().endswith(('.mp3', '.wav', '.ogg', '.flac'))`. */
  predicate IsAudioName(name: string) {
    exists e :: e in AudioExtensions && EndsWith(Lower(name), e)
  }

  /** The host's path rules: `posixpath`, or `ntpath` on Windows, where both '/' and '\\'
      separate and '\\' is the one `join` inserts. */
  datatype PathStyle = Posix | Windows

  predicate IsSeparator(style: PathStyle, c: char) {
    c == '/' || (style == Windows && c == '\\')
  }

  /** A name that `join` does not append but takes as the new path. */
  predicate Rooted(style: PathStyle, name: string) {
    |name| > 0 && IsSeparator(style, name[0])
  }

  /** The folder text `join` puts before a relative name: the folder itself when it is
      empty, ends in a separator or (Windows) is a bare drive such as "C:"; else the
      folder followed by the style's separator. */
  function JoinPrefix(style: PathStyle, folder: string): string {
    if folder == [] || IsSeparator(style, folder[|folder| - 1]) then folder
    else if style == Windows && |folder| == 2 && folder[1] == ':' then folder
    else if style == Windows then folder + "\\"
    else folder + "/"
  }

  /** The drive of a Windows folder such as "C:/Music"; UNC shares are not modelled. */
  function Drive(folder: string): string {
    if |folder| >= 2 && folder[1] == ':' then folder[..2] else ""
  }

  /** `os.path.join(folder, name)`. A rooted name replaces the folder, keeping only the
      folder's drive on Windows. */
  function JoinPath(style: PathStyle, folder: string, name: string): string {
    if Rooted(style, name) then (if style == Windows then Drive(folder) + name else name)
    else JoinPrefix(style, folder) + name
  }

  /** Two directory entries (never rooted) join to the same path only if they are equal. */
  lemma JoinPathInjective(style: PathStyle, folder: string, a: string, b: string)
    requires !Rooted(style, a) && !Rooted(style, b)
    requires JoinPath(style, folder, a) == JoinPath(style, folder, b)
    ensures a == b
  {
    var prefix := JoinPrefix(style, folder);
    assert a == (prefix + a)[|prefix|..];
    assert b == (prefix + b)[|prefix|..];
  }

  /** On Windows a file of an opened folder is queued under a '\\' path, while the file tree
      names the same file with '/': the two texts differ, so a double-click does not find it. */
  lemma WindowsJoinDiffersFromTreePath()
    ensures JoinPath(Windows, "C:/Music", "a.mp3") == "C:/Music\\a.mp3"
    ensures JoinPath(Windows, "C:/Music", "a.mp3") != "C:/Music/a.mp3"
    ensures JoinPath(Posix, "/music", "a.mp3") == "/music/a.mp3"
  {
    assert JoinPath(Windows, "C:/Music", "a.mp3")[8] == '\\';
  }

  /** `files_with_path`: the audio entries of the listing, in listing order, joined to the folder. */
  function AudioPaths(style: PathStyle, folder: string, listing: seq<string>): (r: seq<string>)
    ensures |r| == |Filter(listing, IsAudioName)|
  {
    var names := Filter(listing, IsAudioName);
    seq(|names|, i requires 0 <= i < |names| => JoinPath(style, folder, names[i]))
  }

  /** The `int(track)` of amp.py:591-599, or None where the loop gives up on the file:
      no 'track' entry, an empty one, or one `int()` refuses. */
  function TrackNumber(f: TagFrames): Option<int> {
    ParseTrack(ExtractMetadata(f).track)
  }

  function ParseTrack(track: Option<string>): Option<int> {
    if track.None? || track.value == "" then None else PyInt(track.value)
  }

  /** The track number of every path, read through the tag library `tags`. */
  function TrackNumbers(tags: string -> TagFrames): string -> Option<int> {
    p => TrackNumber(tags(p))
  }

  /** `all_have_track` as the loop leaves it when it runs to the end. */
  predicate AllHaveTrack(paths: seq<string>, number: string -> Option<int>) {
    forall p :: p in paths ==> number(p).Some?
  }

  /** `track_info` once every path has a number. */
  function TrackTable(paths: seq<string>, number: string -> Option<int>): (t: map<string, int>)
    requires AllHaveTrack(paths, number)
    ensures forall p :: p in paths <==> p in t
    ensures forall p :: p in t ==> Some(t[p]) == number(p)
  {
    map p | p in paths :: number(p).value
  }

  function TrackKey(table: map<string, int>, p: string): int {
    if p in table then table[p] else 0
  }

  /** The order of `sorted(files, key=lambda fp: track_info[fp])`. */
  function ByTrack(table: map<string, int>): (string, string) -> bool {
    (a, b) => TrackKey(table, a) <= TrackKey(table, b)
  }

  lemma ByTrackPreorder(table: map<string, int>)
    ensures TotalPreorder(ByTrack(table))
  {
  }

  lemma LexPreorder()
    ensures TotalPreorder(LexLe)
  {
    forall a, b
      ensures LexLe(a, b) || LexLe(b, a)
    {
      LexLeTotal(a, b);
    }
    forall a, b, c | LexLe(a, b) && LexLe(b, c)
      ensures LexLe(a, c)
    {
      LexLeTransitive(a, b, c);
    }
  }

  /** The loop of amp.py:587-600: walk the files, stop at the first without a usable track
      number, and record the number of each file passed. */
  method CollectTrackNumbers(paths: seq<string>, tags: string -> TagFrames)
    returns (allHave: bool, info: map<string, int>)
    ensures allHave == AllHaveTrack(paths, TrackNumbers(tags))
    ensures allHave ==> info == TrackTable(paths, TrackNumbers(tags))
  {
    allHave := true;
    info := map[];
    var i := 0;
    while i < |paths|
      invariant 0 <= i <= |paths|
      invariant AllHaveTrack(paths[..i], TrackNumbers(tags))
      invariant info == TrackTable(paths[..i], TrackNumbers(tags))
    {
      var meta := ExtractMetadata(tags(paths[i]));
      var track := meta.track;
      if track.None? || track.value == "" {
        assert TrackNumber(tags(paths[i])) == None && paths[i] in paths;
        allHave := false;
        break;
      }
      var number := PyInt(track.value);
      if number.None? {
        assert TrackNumber(tags(paths[i])) == None && paths[i] in paths;
        allHave := false;
        break;
      }
      assert TrackNumber(tags(paths[i])) == number;
      TrackTableStep(paths, i, TrackNumbers(tags));
      info := info[paths[i] := number.value];
      i := i + 1;
    }
    assert allHave ==> paths[..i] == paths;
  }

  lemma TrackTableStep(paths: seq<string>, i: nat, number: string -> Option<int>)
    requires i < |paths| && AllHaveTrack(paths[..i], number) && number(paths[i]).Some?
    ensures AllHaveTrack(paths[..i + 1], number)
    ensures TrackTable(paths[..i + 1], number)
         == TrackTable(paths[..i], number)[paths[i] := number(paths[i]).value]
  {
    assert paths[..i + 1] == paths[..i] + [paths[i]];
  }

  /** `sorted_files` of amp.py:601-605, given the listing of the folder and each path's
      track number (`TrackNumbers(tags)`). */
  function BuildQueue(style: PathStyle, folder: string, listing: seq<string>, number: string -> Option<int>): (r: seq<string>)
    ensures multiset(r) == multiset(AudioPaths(style, folder, listing))
  {
    var files := AudioPaths(style, folder, listing);
    if AllHaveTrack(files, number) then InsertionSort(files, ByTrack(TrackTable(files, number)))
    else InsertionSort(files, LexLe)
  }

  /** amp.py:583-605 as `open_folder` runs it: filter and join the listing, collect the track
      numbers, then sort by them or, failing that, by path. */
  method SortFolder(style: PathStyle, folder: string, listing: seq<string>, tags: string -> TagFrames)
    returns (sorted: seq<string>)
    ensures sorted == BuildQueue(style, folder, listing, TrackNumbers(tags))
  {
    var files := AudioPaths(style, folder, listing);
    var allHave, info := CollectTrackNumbers(files, tags);
    if allHave {
      sorted := InsertionSort(files, ByTrack(info));
    } else {
      sorted := InsertionSort(files, LexLe);
    }
  }

  /** The paths carrying track number `n`. */
  function HasTrack(number: string -> Option<int>, n: int): string -> bool {
    p => number(p) == Some(n)
  }

  /** The queue holds the folder's audio entries, each as often as the listing has it:
      exactly the entries whose lower-cased name ends in an audio extension. */
  lemma BuildQueueMembers(style: PathStyle, folder: string, listing: seq<string>, number: string -> Option<int>, x: string)
    ensures multiset(BuildQueue(style, folder, listing, number)) == multiset(AudioPaths(style, folder, listing))
    ensures x in BuildQueue(style, folder, listing, number)
        <==> exists name :: name in listing && IsAudioName(name) && x == JoinPath(style, folder, name)
  {
    var q := BuildQueue(style, folder, listing, number);
    assert multiset(q) == multiset(AudioPaths(style, folder, listing));
    assert x in q <==> x in multiset(q);
    assert x in AudioPaths(style, folder, listing) <==> x in multiset(AudioPaths(style, folder, listing));
    AudioPathsMembers(style, folder, listing, x);
  }

  /** `files_with_path` holds a path exactly when the listing has an audio entry joining to it. */
  lemma AudioPathsMembers(style: PathStyle, folder: string, listing: seq<string>, x: string)
    ensures x in AudioPaths(style, folder, listing)
        <==> exists name :: name in listing && IsAudioName(name) && x == JoinPath(style, folder, name)
  {
    var files := AudioPaths(style, folder, listing);
    if x in files {
      var i :| 0 <= i < |files| && files[i] == x;
      var name := AudioPathAt(style, folder, listing, i);
      assert name in listing && IsAudioName(name) && x == JoinPath(style, folder, name);
    }
    if exists name :: name in listing && IsAudioName(name) && x == JoinPath(style, folder, name) {
      var name :| name in listing && IsAudioName(name) && x == JoinPath(style, folder, name);
      AudioPathOf(style, folder, listing, name);
    }
  }

  lemma AudioPathAt(style: PathStyle, folder: string, listing: seq<string>, i: nat) returns (name: string)
    requires i < |AudioPaths(style, folder, listing)|
    ensures name in listing && IsAudioName(name) && AudioPaths(style, folder, listing)[i] == JoinPath(style, folder, name)
  {
    var names := Filter(listing, IsAudioName);
    name := names[i];
    FilterCount(listing, IsAudioName, name);
  }

  lemma AudioPathOf(style: PathStyle, folder: string, listing: seq<string>, name: string)
    requires name in listing && IsAudioName(name)
    ensures JoinPath(style, folder, name) in AudioPaths(style, folder, listing)
  {
    var names := Filter(listing, IsAudioName);
    FilterCount(listing, IsAudioName, name);
    var i :| 0 <= i < |names| && names[i] == name;
    assert AudioPaths(style, folder, listing)[i] == JoinPath(style, folder, name);
  }

  /** Every file of `q` has a track number, and the numbers ascend along `q`. */
  predicate TrackOrdered(q: seq<string>, number: string -> Option<int>) {
    forall i, j :: 0 <= i < j < |q| ==>
      && number(q[i]).Some? && number(q[j]).Some?
      && number(q[i]).value <= number(q[j]).value
  }

  /** When every file has a track number, the queue is in ascending track order. */
  lemma BuildQueueByTrack(style: PathStyle, folder: string, listing: seq<string>, number: string -> Option<int>)
    requires AllHaveTrack(AudioPaths(style, folder, listing), number)
    ensures TrackOrdered(BuildQueue(style, folder, listing, number), number)
  {
    var files := AudioPaths(style, folder, listing);
    assert BuildQueue(style, folder, listing, number) == InsertionSort(files, ByTrack(TrackTable(files, number)));
    SortByTrackOrdered(files, number);
  }

  lemma SortByTrackOrdered(files: seq<string>, number: string -> Option<int>)
    requires AllHaveTrack(files, number)
    ensures TrackOrdered(InsertionSort(files, ByTrack(TrackTable(files, number))), number)
  {
    var table := TrackTable(files, number);
    var q := InsertionSort(files, ByTrack(table));
    ByTrackPreorder(table);
    InsertionSortSorted(files, ByTrack(table));
    forall i, j | 0 <= i < j < |q|
      ensures && number(q[i]).Some? && number(q[j]).Some?
              && number(q[i]).value <= number(q[j]).value
    {
      assert q[i] in multiset(files) && q[j] in multiset(files);
      assert ByTrack(table)(q[i], q[j]);
      TrackOrder(files, number, q[i], q[j]);
    }
  }

  /** Ordered by the table, two files are ordered by their track numbers. */
  lemma TrackOrder(files: seq<string>, number: string -> Option<int>, a: string, b: string)
    requires AllHaveTrack(files, number) && a in files && b in files
    requires ByTrack(TrackTable(files, number))(a, b)
    ensures number(a).Some? && number(b).Some? && number(a).value <= number(b).value
  {
    var table := TrackTable(files, number);
    assert a in table && b in table;
    assert TrackKey(table, a) <= TrackKey(table, b);
  }

  /** Files sharing a track number keep the order of the directory listing. */
  lemma BuildQueueStable(style: PathStyle, folder: string, listing: seq<string>, number: string -> Option<int>, n: int)
    requires AllHaveTrack(AudioPaths(style, folder, listing), number)
    ensures Filter(BuildQueue(style, folder, listing, number), HasTrack(number, n))
         == Filter(AudioPaths(style, folder, listing), HasTrack(number, n))
  {
    var files := AudioPaths(style, folder, listing);
    assert BuildQueue(style, folder, listing, number) == InsertionSort(files, ByTrack(TrackTable(files, number)));
    SortByTrackStable(files, number, n);
  }

  lemma SortByTrackStable(files: seq<string>, number: string -> Option<int>, n: int)
    requires AllHaveTrack(files, number)
    ensures Filter(InsertionSort(files, ByTrack(TrackTable(files, number))), HasTrack(number, n))
         == Filter(files, HasTrack(number, n))
  {
    var table := TrackTable(files, number);
    var le := ByTrack(table);
    var q := InsertionSort(files, le);
    ByTrackPreorder(table);
    forall x | x in q
      ensures x in files
    {
      assert x in multiset(q);
    }
    if k :| k in files && number(k) == Some(n) {
      InsertionSortStable(files, le, k);
      forall x | x in files
        ensures HasTrack(number, n)(x) == Ties(le, k)(x)
      {
        assert x in table && k in table;
        assert Ties(le, k)(x) == (table[x] == table[k]);
      }
      FilterCongruent(q, HasTrack(number, n), Ties(le, k));
      FilterCongruent(files, HasTrack(number, n), Ties(le, k));
    } else {
      FilterCongruent(q, HasTrack(number, n), _ => false);
      FilterCongruent(files, HasTrack(number, n), _ => false);
      FilterNothing(q);
      FilterNothing(files);
    }
  }

  lemma {:induction false} FilterNothing(s: seq<string>)
    ensures Filter(s, _ => false) == []
  {
    if s != [] {
      FilterNothing(s[1..]);
    }
  }

  /** When some file lacks a usable track number, the queue is in ascending path order. */
  lemma BuildQueueByPath(style: PathStyle, folder: string, listing: seq<string>, number: string -> Option<int>)
    requires !AllHaveTrack(AudioPaths(style, folder, listing), number)
    ensures SortedBy(BuildQueue(style, folder, listing, number), LexLe)
  {
    LexPreorder();
    InsertionSortSorted(AudioPaths(style, folder, listing), LexLe);
  }
}
