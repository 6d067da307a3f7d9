# Amp playback core in Dafny

Amp is a desktop music player written in Python on Qt with libVLC for audio. This
project models the part of its `MusicPlayer` window that decides *what plays next*:

- the **play queue** (`folderAudioFiles`), the **current index** (`current_index`),
  the **loop mode** (Off / All / One) and the **shuffle** flag;
- the transport slots: next, previous, end of track, toggle shuffle, toggle loop, and the
  captions those toggles show;
- how a queue is built: opening a folder (filter the listing by audio extension, join the
  names to the folder, sort by track number when every file has one, else by path),
  opening a single file, and double-clicking an entry in the file tree;
- the part of tag reading the queue order depends on (the TRCK frame, "3/12" gives "3");
- the `m:ss` time labels under the seek slider.

Modules, one file each:

| module | file | what it holds |
|---|---|---|
| `Wrappers` | wrappers.dfy | `Option` |
| `Decimal` | decimal.dfy | decimal digits, `str()` of an integer |
| `PyText` | pytext.dfy | the Python `str` operations the core uses: `strip`, `lower`, `endswith`, `split(sep)[0]`, ordering, `int()` |
| `Sorting` | sorting.dfy | list comprehension filter, stable sort, and the proof that every stable sort agrees with it |
| `Metadata` | metadata.dfy | `extractMetadata` over the frames a tag library yields |
| `QueueBuilder` | queue_builder.dfy | the queue `open_folder` builds |
| `TimeFormat` | time_format.dfy | `ms_to_minsec` and the elapsed/total labels |
| `Transport` | transport.dfy | the `Player` class: queue, index, modes, engine, metadata cache |
| `Scenarios` | scenarios.dfy | sequences of slots on one `Player` with their combined outcome |

The player is the class `Transport.Player`. Its fields are the Python attributes it mutates.
The libVLC player is the ghost field `engine`: the media last set and whether it is playing.
The play button appears only as `showsPause`, the icon it shows. The two mode buttons appear
as their caption strings. `Valid()` is the invariant every slot keeps. With a non-empty queue
it says: the index is in range, the engine holds the current track, and the metadata cache
holds that track's metadata. It also says the captions match the modes.

Inputs that come from outside the program are parameters:
- the tag library is the function `readTags` fixed at construction;
- the platform's `os.path` (POSIX `posixpath` or Windows `ntpath`) is the `style` fixed at
  construction;
- `os.listdir` is the `listing` sequence;
- `os.path.isfile` is the `isFile` flag;
- a dialog's answer is a string, empty when cancelled.

A Python exception that escapes a slot is the result `Raised(IndexError)`,
`Raised(ValueError)` or `Raised(AttributeError)`, with the state as it was when the
exception was raised. The program installs no `sys.excepthook`, so under PyQt5 an exception
that escapes a slot calls `qFatal` and ends the application: a `Raised(...)` state is the last
state the program reaches, and nothing is meant to run on it afterwards.

The model keeps these behaviours of the code, which a reader might not expect:
- `open_file` does not clear the metadata cache, so entries cached for other positions of the
  old queue stay; `OpenFile` keeps them.
- The queue is not only replaced wholesale: a double-clicked file that is not queued is appended.
- An empty queue is not always harmless. `handle_media_ended` under Loop One raises
  IndexError on it. Under shuffle, `random.randint(0, -1)` raises ValueError. Under Loop All
  the wrap to index 0 raises IndexError. A double-click on a non-audio entry still calls
  `updateTrackInfo`, which raises IndexError when the queue is empty.
- `open_folder` loads the first track but does not start it; the play icon is left as it was.
- `open_folder` on a folder without audio files ends by calling `self.resetTrackInfo()`
  (amp.py:614), a method `MusicPlayer` does not define. The slot therefore raises
  AttributeError after it has emptied the queue and the cache, stopped the engine and shown
  the play icon; `OpenFolder` and `CueQueue` return `Raised(AttributeError)` in that state.
- On Windows `os.path.join` puts a backslash between the folder and the name, while the file
  tree names the same file with a forward slash. Unless the folder already ends in a
  separator, as a drive root such as `C:/` does, `list.index` then does not find a folder
  track that is double-clicked in the tree, and the file is queued a second time
  (`Scenarios.WindowsTreeQueuesFolderTrackTwice`). With POSIX paths the track is found in
  place (`Scenarios.PosixTreeFindsFolderTrack`).

## Model

| member | source | states |
|---|---|---|
| Decimal.IntToString | amp.py:713 | `str()` of an integer: non-empty, a leading '-' exactly for negatives, then the digits of the magnitude without leading zeros |
| Decimal.NatToStringValue | amp.py:713 | the decimal text of a whole number reads back as that number |
| Decimal.IntToStringInjective | amp.py:713 | two integers with the same decimal text are equal |
| PyText.StripSpec | amp.py:389 | `strip()` leaves no whitespace at either end, is idempotent, and changes nothing when both ends are already non-space |
| PyText.BeforeFirstSplit | amp.py:389 | `split('/')[0]` of `pre + "/" + post` is `pre` when `pre` has no '/', and of a text without '/' is the text itself |
| PyText.BeforeFirst | amp.py:389 | the result is a prefix without the separator, followed in the input by the separator unless it is all of it |
| PyText.LexLeTotal | amp.py:604 | any two paths compare under Python's string `<=` |
| PyText.LexLeTransitive | amp.py:604 | string `<=` is transitive |
| PyText.LexLeAntisymmetric | amp.py:604 | two strings each `<=` the other are equal |
| PyText.PyInt | amp.py:596 | `int()` of a text: the value of an optional sign and a digit group inside `int()`'s own whitespace, refused (None) past 4300 digits, and refused for blank text |
| PyText.PyIntAccepts | amp.py:596 | `int()` accepts exactly an optional sign followed by a digit group of at most 4300 digits once the whitespace `int()` skips (Unicode whitespace except U+001C-U+001F) is removed from both ends, and refuses everything else, blank text included |
| PyText.PyIntOfStripped | amp.py:596 | on a text already passed through `strip()` `int()` skips nothing more, so the track field is accepted exactly when it is a literal of at most 4300 digits |
| PyText.PyIntKeepsSeparators | amp.py:596 | a digit group led by one of U+001C-U+001F is stripped to the group by `strip()` but refused by `int()` |
| PyText.PyIntRefuses | amp.py:596-599 | each of "A1", "3a", "1__0", "- 5" and "_1" is refused, so a file with such a track number sends the folder to path order |
| PyText.PyIntOfGroup | amp.py:596 | a digit group (single underscores between digits allowed) reads as its value when it has at most 4300 digits, and is refused otherwise |
| PyText.PyIntOfNegatedGroup | amp.py:596 | a minus sign before a digit group reads as the negated value when the group has at most 4300 digits, and is refused otherwise |
| PyText.PyIntOfPlusGroup | amp.py:596 | a plus sign before a digit group reads as the group's value when the group has at most 4300 digits, and is refused otherwise |
| PyText.PyIntOfIntToString | amp.py:596 | `int(str(i)) == i` for every integer of at most 4300 digits; longer ones are refused |
| PyText.ParseSignedOfIntToString | amp.py:713 | the signed digits of `str(i)` read back as `i`, whatever its length |
| PyText.Strip | amp.py:389 | `str.strip()`: whitespace removed from both ends (its properties are `StripSpec`) |
| PyText.Lower | amp.py:585 | `str.lower()` keeps the length and lower-cases each letter in place |
| PyText.EndsWith | amp.py:585 | `str.endswith`: the last characters of the text are the suffix |
| PyText.LexLe | amp.py:604 | Python's string `<=`: lexicographic by code point, a proper prefix first (its order properties are the three lemmas below) |
| Sorting.FilterCount | amp.py:585 | the comprehension keeps every occurrence of a selected value and no other value |
| Sorting.FilterCongruent | amp.py:585 | two conditions that agree on the elements select the same subsequence |
| Sorting.InsertionSort | amp.py:602-604 | the sorted list is a permutation of its input |
| Sorting.InsertionSortSorted | amp.py:602-604 | under a total preorder the result is in ascending order |
| Sorting.InsertionSortStable | amp.py:602 | elements with equal keys keep their input order |
| Sorting.StableSortUnique | amp.py:602-604 | two sorted sequences with the same elements in each tie class, in the same order, are equal |
| Sorting.StableSortIsInsertionSort | amp.py:602-604 | any sorted, stable rearrangement (Python's `sorted` is one) equals this sort's result |
| Metadata.ExtractMetadata | amp.py:353-408 | `extract_metadata`: the frames' texts, the TRCK frame's number part as 'track', and no metadata at all for unreadable tags (stated by `ExtractedTrack`) |
| Metadata.TrackField | amp.py:389-391 | the 'track' entry has no '/' and no whitespace at either end |
| Metadata.TrackFieldSplit | amp.py:389-391 | "n/total" yields the stripped n; a frame without '/' is only stripped |
| Metadata.ExtractedTrack | amp.py:353-408 | a file with a TRCK frame gets that frame's number part as its 'track' entry; unreadable tags or no TRCK frame give none |
| QueueBuilder.JoinPath | amp.py:586 | `os.path.join(folder, name)` under POSIX or Windows rules (its properties are `JoinPathInjective` and `WindowsJoinDiffersFromTreePath`) |
| QueueBuilder.IsAudioName | amp.py:583-585 | the lower-cased name ends in .mp3, .wav, .ogg or .flac |
| QueueBuilder.AudioPaths | amp.py:583-586 | `files_with_path`: one joined path per audio entry of the listing, in listing order (membership is `AudioPathsMembers`) |
| QueueBuilder.ParseTrack | amp.py:591-599 | a missing or empty 'track' entry gives no number, anything else is `int()` of it |
| QueueBuilder.TrackNumber | amp.py:590-599 | a file's track number: its extracted 'track' entry read by `int()` |
| QueueBuilder.JoinPathInjective | amp.py:586 | under either platform's rules, two relative directory entries join to the same path only if they are the same entry |
| QueueBuilder.WindowsJoinDiffersFromTreePath | amp.py:586 | on Windows `C:/Music` joined with `a.mp3` is `C:/Music\a.mp3`, not the tree's `C:/Music/a.mp3`; on POSIX `/music` joined with `a.mp3` is `/music/a.mp3` |
| QueueBuilder.AudioPathsMembers | amp.py:583-586 | `files_with_path` holds a path exactly when the listing has an entry with an audio extension (any case) that joins to it |
| QueueBuilder.TrackTable | amp.py:587-600 | `track_info` has a key for each file and maps it to the file's track number |
| QueueBuilder.CollectTrackNumbers | amp.py:587-600 | the loop reports whether every file has a usable track number and, if so, returns the table of them |
| QueueBuilder.SortFolder | amp.py:583-605 | the sorted file list equals the folder's queue `BuildQueue` |
| QueueBuilder.BuildQueue | amp.py:601-605 | the queue is a permutation of `files_with_path` |
| QueueBuilder.BuildQueueMembers | amp.py:583-605 | the queue is a permutation of the joined audio entries: exactly the entries whose lower-cased name ends in .mp3, .wav, .ogg or .flac |
| QueueBuilder.BuildQueueByTrack | amp.py:601-602 | when every file has a track number, track numbers ascend along the queue |
| QueueBuilder.SortByTrackOrdered | amp.py:601-602 | sorting by the table puts track numbers in ascending order |
| QueueBuilder.BuildQueueStable | amp.py:602 | files sharing a track number keep their listing order |
| QueueBuilder.SortByTrackStable | amp.py:602 | sorting by the table keeps the listing order within each track number |
| QueueBuilder.BuildQueueByPath | amp.py:603-604 | when some file lacks a usable track number, the queue is in ascending path order |
| TimeFormat.TwoDigits | amp.py:713 | `{s:02d}` for a second count under 100 is two digits worth that count |
| TimeFormat.MsToMinSec | amp.py:709-713 | the label is `str()` of the whole minutes, a colon, and two digits worth the leftover whole seconds |
| TimeFormat.WholeMinutes | amp.py:710-711 | whole minutes of whole seconds are the milliseconds' whole minutes, as Python's floor division gives |
| TimeFormat.MinSecRoundTrip | amp.py:709-713 | reading a label back gives the whole second the time falls in |
| TimeFormat.MinSecSameLabel | amp.py:709-713 | two times get the same label exactly when they fall in the same whole second |
| TimeFormat.TimeLabels | amp.py:714-718 | the elapsed label of the position and the total label of a positive duration, "0:00" otherwise |
| TimeFormat.TotalLabelZero | amp.py:714-718 | the total label reads "0:00" exactly when the duration is not positive or under one second |
| Transport.NextLoopMode | amp.py:678 | `(loop_mode + 1) % 3`: every press changes the loop mode |
| Transport.LoopLabel | amp.py:686 | the loop caption: "Off", "All" or "One" |
| Transport.ShuffleLabel | amp.py:682-685 | the shuffle caption: "On" or "Off" |
| Transport.LoopModeCycle | amp.py:677-687 | the loop button steps Off, All, One and back to Off |
| Transport.LoopLabelInjective | amp.py:686 | each loop mode has its own caption |
| Transport.NextIndex | amp.py:657 | on a valid index, next moves one on and wraps from the last track to the first |
| Transport.PreviousIndex | amp.py:666 | on a valid index, previous moves one back and wraps from the first track to the last, never negative |
| Transport.PreviousUndoesNext | amp.py:655-671 | next and previous stay in range and undo each other |
| Transport.AdvanceCompose | amp.py:657 | `a` presses of next then `b` more are `a + b` presses |
| Transport.NextTrackPeriod | amp.py:657 | as many presses of next as there are tracks come back to the start |
| Transport.FirstIndex | amp.py:620 | `list.index` finds the first position holding the value, and fails exactly when the value is absent |
| Transport.Player.constructor | amp.py:222-233 | empty queue, index 0, loop Off, shuffle off, empty cache, both captions "Off" |
| Transport.Player.UpdateTrackInfo | amp.py:410-413 | the current track's metadata is cached at the current index |
| Transport.Player.UpdatePlaybackMode | amp.py:681-687 | the captions show the shuffle flag and the loop mode |
| Transport.Player.NextTrack | amp.py:655-662 | with a queue, the index moves to `(i + 1) mod n` and that track loads and plays; with none, nothing changes |
| Transport.Player.PreviousTrack | amp.py:664-671 | with a queue, the index moves to `(i - 1) mod n`, never negative, and that track loads and plays; with none, nothing changes |
| Transport.Player.ToggleShuffle | amp.py:673-675 | shuffle flips and its caption follows; queue, index, loop mode and playback are untouched |
| Transport.Player.ToggleLoop | amp.py:677-679 | the loop mode steps to the next one and its caption follows; nothing else changes |
| Transport.Player.HandleMediaEnded | amp.py:330-351 | Loop One replays the same track whatever shuffle says; shuffle picks any index of the queue; otherwise the following track plays, the last wraps to the first under Loop All and stops on itself with the play icon under Loop Off; the empty-queue exceptions |
| Transport.Player.OnFileTreeDoubleClicked | amp.py:616-631 | an audio file already queued plays at its first position with the queue unchanged; a new one is appended and plays as the last track; any other entry changes nothing, and raises IndexError on an empty queue |
| Transport.Player.PlayEntry | amp.py:619-630 | the path becomes current at its first position or at the end of the queue, plays, and its metadata is cached |
| Transport.Player.OpenFile | amp.py:633-644 | the chosen file alone becomes the queue at index 0 and plays; a cancelled dialog changes nothing |
| Transport.Player.OpenFolder | amp.py:573-614 | the queue becomes the folder's sorted audio files and the cache is cleared; a non-empty queue loads its first track without playing; an empty one stops with the play icon and raises AttributeError from the undefined `resetTrackInfo`; a cancelled dialog changes nothing |
| Transport.Player.CueQueue | amp.py:606-614 | a non-empty new queue loads its first track at index 0 with its metadata cached; an empty one stops playback, shows the play icon and raises AttributeError |
| Scenarios.NextThenPrevious | amp.py:655-671 | next then previous returns to the same track on the same queue |
| Scenarios.NextAroundQueue | amp.py:655-662 | pressing next once per queued track returns to the starting track |
| Scenarios.ModesComeBack | amp.py:673-687 | shuffle toggled twice and loop toggled three times restore both modes and captions |
| Scenarios.SingleFileStopsAtEnd | amp.py:330-351 | a single opened file under Loop Off stops on itself when it ends |
| Scenarios.LoopOneReplays | amp.py:330-333 | under Loop One with shuffle on, the ended track plays again |
| Scenarios.ReplayQueuedFile | amp.py:616-631 | double-clicking a queued file plays it in place without growing the queue |
| Scenarios.FolderWithoutAudio | amp.py:573-614 | opening a folder without audio entries raises AttributeError and leaves an empty, stopped queue and an empty cache |
| Scenarios.PosixTreeFindsFolderTrack | amp.py:573-631 | with POSIX paths, double-clicking the folder's only track in the tree plays it in place |
| Scenarios.WindowsTreeQueuesFolderTrackTwice | amp.py:573-631 | with Windows paths, double-clicking the folder's only track in the tree queues it a second time and plays the copy |
| Scenarios.SingleAudioQueue | amp.py:583-605 | a listing of one audio entry gives the queue of its joined path |

## Left out

- Audio output: libVLC setup and download (amp.py:12-75), the `VLCMediaPlayer` wrapper (amp.py:97-156), volume, seeking and the float position of `set_position`. The engine is the record `Engine`.
- `set_media` is modelled as loading the media with playback stopped, as libVLC does when it replaces the current input.
- `play_pause`, `seek`, the slider and the polling timers are left out: they do not change the queue, the index or the modes.
- Reading tags with mutagen (amp.py:364-385): the tag library is the input `readTags`. For each file it yields the text of the last frame of each kind in the tag order. A frame whose `str()` raises is not modelled.
- Artwork display, the title/artist/album labels and the placeholder image (amp.py:414-437), the status bar text (amp.py:724-748) apart from its time labels, window, tray, style, icons, settings and plugins.
- PyText.Lower: lower-cases ASCII letters only, whereas Python's `str.lower` also maps other Unicode letters.
- PyText.PyInt: accepts ASCII digits only, whereas Python's `int()` also accepts other Unicode decimal digits. Its 4300-digit limit is the default of Python 3.11 and later; older Pythons have none, and `PYTHONINTMAXSTRDIGITS` or `sys.set_int_max_str_digits` can change it.
- Decimal.IntToString: renders an integer of any length, whereas `str()` raises ValueError past 4300 digits; the minutes `ms_to_minsec` renders come from libVLC's 64-bit millisecond times and stay far below.
- QueueBuilder.JoinPath: follows `posixpath.join` and `ntpath.join` for two parts. A rooted name keeps only a `C:` drive of the folder, not a UNC share (`\\server\share`); names with a drive of their own (`D:x`) are not modelled. Neither occurs for the entries of a directory listing.
- Transport.Player.HandleMediaEnded: shuffle's `random.randint` is a nondeterministic choice of a valid index; its distribution is not modelled.
- The Qt event loop, threads and the libVLC end-of-media callback thread are left out; every slot runs to completion before the next.
- `mediaPlayer` is always present (the window creates it), so the `if self.mediaPlayer` branches are not modelled.
- The order of `os.listdir` is whatever order the input listing has.
- `os.listdir` failing (a `PermissionError` or `FileNotFoundError` for a folder that vanished or cannot be read) is not modelled: `listing` is always a list, so the state in which that exception would escape, with queue and cache already emptied by amp.py:581-582, is not represented.
