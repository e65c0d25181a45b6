/** The instrumental resolver of `MediaPlayerVlc.manage_instrumental`: when an
    entry asks for the instrumental version of a song, either an instrumental
    audio file found next to the song is attached to the song's media (and the
    new audio track is selected), or the second audio track embedded in the song
    file is selected, or nothing changes and a warning is logged. */
module Instrumental {
  import opened Results

  type Path = string

  /** What the resolver learns from its collaborators about one song. */
  datatype Probe = Probe(
    instrumentalFile: Option<Path>,  // get_instrumental_file(song path)
    slavesSupported: bool,           // false when the engine refuses media.slaves_add
    numberTracks: int,               // get_number_tracks(media), once the file is attached
    audioTrackIds: seq<int>)         // get_audio_tracks_id(media), in declaration order

  /** Which of the two track queries the resolver made. */
  datatype Query = NumberTracks | AudioTrackIds

  /** The branch taken, each one marked by its own log message in the source. */
  datatype Branch =
    | FileAttached     // "Requesting to play instrumental file ..."
    | SlavesRefused    // "This version of VLC does not support slaves ..."
    | TrackSelected    // "Requesting to play instrumental track of ..."
    | NothingFound     // "Cannot find instrumental file or track for file ..."

  datatype Decision = Decision(
    branch: Branch,
    slave: Option<Path>,       // audio file attached to the song media
    audioTrackId: Option<int>, // track to select when the song starts
    queries: set<Query>)

  /** manage_instrumental's decision. */
  function Resolve(p: Probe): (d: Decision)
    // an instrumental file wins, and the embedded tracks are then never listed
    ensures p.instrumentalFile.Some? ==> AudioTrackIds !in d.queries
    ensures p.instrumentalFile.Some? && p.slavesSupported ==>
              d.slave == p.instrumentalFile && d.audioTrackId == Some(p.numberTracks)
    ensures p.instrumentalFile.Some? && !p.slavesSupported ==>
              d.slave == None && d.audioTrackId == None
    // without a file the number of tracks is never asked, and the second track is chosen
    ensures p.instrumentalFile.None? ==> NumberTracks !in d.queries && d.slave == None
    ensures p.instrumentalFile.None? ==>
              d.audioTrackId == (if |p.audioTrackIds| > 1 then Some(p.audioTrackIds[1]) else None)
  {
    match p.instrumentalFile
    case Some(file) =>
      if p.slavesSupported then Decision(FileAttached, Some(file), Some(p.numberTracks), {NumberTracks})
      // whether the track count is asked before the engine refuses the
      // attachment is not known; no contract states the queries of this branch
      else Decision(SlavesRefused, None, None, {})
    case None =>
      if |p.audioTrackIds| > 1 then Decision(TrackSelected, None, Some(p.audioTrackIds[1]), {AudioTrackIds})
      else Decision(NothingFound, None, None, {AudioTrackIds})
  }

  /** The branch taken and the outcome agree: a track is selected exactly in the
      two successful branches, and a file is attached exactly in the first. */
  lemma BranchMatchesOutcome(p: Probe)
    ensures var d := Resolve(p);
            (d.audioTrackId.Some? <==> d.branch in {FileAttached, TrackSelected})
            && (d.slave.Some? <==> d.branch == FileAttached)
  {
  }

  /** The four cases of the tests. */
  lemma ResolverExamples(file: Path)
    ensures Resolve(Probe(Some(file), true, 2, [])).audioTrackId == Some(2)
    ensures Resolve(Probe(Some(file), false, 2, [])).audioTrackId == None
    ensures Resolve(Probe(None, true, 0, [0, 99, 42])).audioTrackId == Some(99)
    ensures Resolve(Probe(None, true, 0, [99])).audioTrackId == None
  {
  }
}
