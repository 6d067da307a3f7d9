/** `extractMetadata` (amp.py:353-408): what the player keeps of a file's tags.
    Reading the tags is foreign (the mutagen library); its result is the input `TagFrames`. */
module Metadata {
  import opened Wrappers
  import opened PyText

  /** What the tag library yields for one file: `Unreadable` when the library is missing,
      the file has no tags or reading raises; otherwise the text of the last frame of each
      kind (TIT2, TPE1, TALB, TDRC/TYER, APIC, TRCK) met while walking the tag keys. */
  datatype TagFrames =
    | Unreadable
    | Frames(title: Option<string>, artist: Option<string>, album: Option<string>,
             year: Option<string>, artwork: Option<seq<bv8>>, trck: Option<string>)

  /** The dictionary `extractMetadata` returns. */
  datatype TrackMetadata = TrackMetadata(
    title: Option<string>, artist: Option<string>, album: Option<string>,
    year: Option<string>, artwork: Option<seq<bv8>>, track: Option<string>)

  const NoMetadata := TrackMetadata(None, None, None, None, None, None)

  /** The 'track' entry made from a TRCK frame such as "3/12": the text before the first
      '/', with surrounding whitespace removed. */
  function TrackField(trck: string): (r: string)
    ensures '/' !in r
    ensures r != [] ==> !IsSpace(r[0]) && !IsSpace(r[|r| - 1])
  {
    var before := BeforeFirst(trck, '/');
    StripSpec(before);
    Strip(before)
  }

  /** "n/total" yields the stripped n; a frame without '/' is only stripped. */
  lemma TrackFieldSplit(number: string, total: string)
    requires '/' !in number
    ensures TrackField(number + "/" + total) == Strip(number)
    ensures TrackField(number) == Strip(number)
  {
    BeforeFirstSplit(number, '/', total);
  }

  function ExtractMetadata(f: TagFrames): TrackMetadata {
    match f
    case Unreadable => NoMetadata
    case Frames(title, artist, album, year, artwork, trck) =>
      TrackMetadata(title, artist, album, year, artwork,
                    if trck.Some? then Some(TrackField(trck.value)) else None)
  }

  /** A file with a TRCK frame gets that frame's number part as its 'track' entry (what the
      number part is, TrackFieldSplit says); a file without a TRCK frame, or with unreadable
      tags, gets none. */
  lemma ExtractedTrack(f: TagFrames)
    ensures f.Frames? && f.trck.Some? ==> ExtractMetadata(f).track == Some(TrackField(f.trck.value))
    ensures ExtractMetadata(f).track.None? <==> f.Unreadable? || f.trck.None?
  {
  }
}
