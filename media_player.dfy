/** The playback state machine of `MediaPlayerVlc`.

    The player holds the current playlist entry, one record per stage
    (transition, song) with the stage's media, a "started" flag and the audio
    track to select, the stop flag and error queue it shares with its owner, and
    the callback registry. It reacts to four engine events (end reached,
    playing, paused, error) and to three commands (set a playlist entry, pause,
    play a stage).

    The engine is reduced to what the player asks of it: which stage's media it
    has loaded (`loaded`, so that `is_playing_this` is a lookup), whether it is
    paused, and the calls the player makes on it (`engine`). Every
    `is_playing_this` question is appended to `probes`, every callback the
    player fires to `notes`, every fire-and-forget thread it starts to
    `actions`, every text screen it asks for to `texts`, every instrumental
    lookup to `instrumentalLookups` and every song-file existence check to
    `existenceChecks`.

    The specification is a set of functions from one `PlayerState` to the
    next; the class `MediaPlayerVlc` updates its fields in place and each of
    its methods is proved to agree with its function. */
module MediaPlayer {
  import opened Results
  import Instrumental
  import Paths

  type Path = string
  type EntryId = nat
  type Timing = int

  /** A user-supplied callback, known only by its identity. */
  type Handler = nat

  datatype Stage = Transition | Song | Idle

  /** What the engine currently has loaded: the media of one of the three
      stages, or something else (nothing at all, or a stale media). */
  datatype Loaded = Playing(stage: Stage) | Other

  datatype PlaylistEntry = PlaylistEntry(
    id: EntryId, title: string, filePath: Path, owner: string, useInstrumental: bool)

  /** A media handle: the file it plays and an extra audio file attached to it. */
  datatype Media = Media(path: Path, slave: Option<Path>)

  /** PlaylistEntryData: the per-stage record. */
  datatype StageData = StageData(media: Option<Media>, started: bool, audioTrackId: Option<int>)

  const EmptyData := StageData(None, false, None)

  /** The callbacks delivered to the orchestrator, with their arguments. */
  datatype Notification =
    | StartedTransition(id: EntryId)
    | StartedSong(id: EntryId)
    | CouldNotPlay(id: EntryId)
    | Finished(id: EntryId)
    | Paused(id: EntryId, timing: Timing)
    | Resumed(id: EntryId, timing: Timing)
    | Error(id: EntryId, message: string)

  /** Name under which the registry stores the handler of a notification. */
  function CallbackName(n: Notification): string
  {
    match n
    case StartedTransition(_) => "started_transition"
    case StartedSong(_) => "started_song"
    case CouldNotPlay(_) => "could_not_play"
    case Finished(_) => "finished"
    case Paused(_, _) => "paused"
    case Resumed(_, _) => "resumed"
    case Error(_, _) => "error"
  }

  /** Work handed on by an event handler: `play(stage)` started on a new
      thread, or a direct call of `skip()` after an engine error. */
  datatype Action = ScheduledPlay(stage: Stage) | SkipRequested

  datatype EngineCall =
    | SetMediaAndPlay(stage: Stage, media: Option<Media>)
    | PausePlayer
    | ResumePlayer
    | AudioSetTrack(trackId: int)

  datatype TextRequest = TransitionText(entry: Option<PlaylistEntry>) | IdleText

  /** Errors the event handlers hand to the owner through the error queue:
      an event matching no stage, or an event needing the id of an entry when
      none is set. */
  datatype FatalError = InvalidState | NoEntry

  /** ValueError raised by `play` and `generate_text` on an unknown name. */
  datatype NameError = UnexpectedPlay(name: string) | UnexpectedText(name: string)

  /** Read-only configuration: the karaoke folder and the two resolved backgrounds. */
  datatype Config = Config(karaFolder: Path, transitionBackground: Path, idleBackground: Path)

  datatype PlayerState = PlayerState(
    entry: Option<PlaylistEntry>,
    transition: StageData,
    song: StageData,
    loaded: Loaded,
    enginePaused: bool,
    stop: bool,
    errors: seq<FatalError>,
    callbacks: map<string, Handler>,
    notes: seq<Notification>,
    actions: seq<Action>,
    engine: seq<EngineCall>,
    texts: seq<TextRequest>,
    probes: seq<Stage>,
    instrumentalLookups: seq<Path>,
    existenceChecks: seq<Path>)

  const InitialState := PlayerState(None, EmptyData, EmptyData, Other, false, false, [], map[],
                                    [], [], [], [], [], [], [])

  const FileNotFoundMessage := "File not found"
  const PlaybackErrorMessage := "Unable to play current song"

  /** The song file: the entry's path taken relative to the karaoke folder. */
  function SongPath(cfg: Config, e: PlaylistEntry): Path { Paths.JoinPath(cfg.karaFolder, e.filePath) }

  // ---------------------------------------------------------------------------
  // Stage names

  /** The names `play` accepts. */
  function PlayTarget(name: string): (r: Result<Stage, NameError>)
    ensures r.Success? <==> name in {"transition", "song", "idle"}
    ensures r.Failure? ==> r.error == UnexpectedPlay(name)
    ensures r == Success(Transition) <==> name == "transition"
    ensures r == Success(Song) <==> name == "song"
    ensures r == Success(Idle) <==> name == "idle"
  {
    if name == "transition" then Success(Transition)
    else if name == "song" then Success(Song)
    else if name == "idle" then Success(Idle)
    else Failure(UnexpectedPlay(name))
  }

  /** The names `generate_text` accepts: there is no text screen for the song. */
  function TextTarget(name: string): (r: Result<Stage, NameError>)
    ensures r.Success? <==> name in {"transition", "idle"}
    ensures r.Failure? ==> r.error == UnexpectedText(name)
    ensures r.Success? ==> r.value != Song && (r.value == Transition <==> name == "transition")
  {
    if name == "transition" then Success(Transition)
    else if name == "idle" then Success(Idle)
    else Failure(UnexpectedText(name))
  }

  // ---------------------------------------------------------------------------
  // Specification: one function per operation

  function Probe(s: PlayerState, stage: Stage): PlayerState
  {
    s.(probes := s.probes + [stage])
  }

  function Notify(s: PlayerState, n: Notification): PlayerState
  {
    s.(notes := s.notes + [n])
  }

  /** An exception escaping an event handler: the stop flag is set and the
      error is queued for the owner. */
  function Fatal(s: PlayerState, e: FatalError): PlayerState
  {
    s.(stop := true, errors := s.errors + [e])
  }

  function ClearEntry(s: PlayerState): PlayerState
  {
    s.(entry := None, transition := EmptyData, song := EmptyData)
  }

  function SetCallbackSpec(s: PlayerState, name: string, h: Handler): PlayerState
  {
    s.(callbacks := s.callbacks[name := h])
  }

  function GenerateTextSpec(s: PlayerState, stage: Stage): PlayerState
  {
    if stage == Idle then s.(texts := s.texts + [IdleText])
    else s.(texts := s.texts + [TransitionText(s.entry)])
  }

  /** play(stage) for a valid stage: the idle screen is built afresh with its
      text; the other two stages play the media already prepared. */
  function PlayStage(s: PlayerState, cfg: Config, stage: Stage): PlayerState
  {
    var s1 := if stage == Idle then GenerateTextSpec(s, Idle) else s;
    var media := match stage
      case Transition => s.transition.media
      case Song => s.song.media
      case Idle => Some(Media(cfg.idleBackground, None));
    s1.(engine := s1.engine + [SetMediaAndPlay(stage, media)], loaded := Playing(stage),
        enginePaused := false)
  }

  /** manage_instrumental applied to the song record. */
  function ManageInstrumentalSpec(s: PlayerState, songPath: Path, p: Instrumental.Probe): PlayerState
    requires s.song.media.Some?
  {
    var d := Instrumental.Resolve(p);
    var media := if d.slave.Some? then Some(s.song.media.value.(slave := d.slave)) else s.song.media;
    var track := if d.audioTrackId.Some? then d.audioTrackId else s.song.audioTrackId;
    s.(song := s.song.(media := media, audioTrackId := track),
       instrumentalLookups := s.instrumentalLookups + [songPath])
  }

  /** The entry is stored with fresh records for its two stages. */
  function LoadEntry(s: PlayerState, cfg: Config, e: PlaylistEntry, path: Path): PlayerState
  {
    s.(entry := Some(e),
       transition := StageData(Some(Media(cfg.transitionBackground, None)), false, None),
       song := StageData(Some(Media(path, None)), false, None))
  }

  /** The entry whose song file exists is stored with its two stage records,
      its transition text is asked for, the instrumental resolver runs if the
      entry asks for it, and the transition is played. */
  function StartEntrySpec(s: PlayerState, cfg: Config, e: PlaylistEntry, path: Path,
                          p: Instrumental.Probe): PlayerState
  {
    var s2 := GenerateTextSpec(LoadEntry(s, cfg, e, path), Transition);
    var s3 := if e.useInstrumental then ManageInstrumentalSpec(s2, path, p) else s2;
    PlayStage(s3, cfg, Transition)
  }

  /** set_playlist_entry: `files` are the files that exist, `p` what the
      instrumental resolver would learn about the song. */
  function SetPlaylistEntrySpec(s: PlayerState, cfg: Config, e: PlaylistEntry, files: set<Path>,
                                p: Instrumental.Probe): PlayerState
  {
    var path := SongPath(cfg, e);
    var s0 := s.(existenceChecks := s.existenceChecks + [path]);
    if path !in files then
      Notify(Notify(s0, CouldNotPlay(e.id)), Error(e.id, FileNotFoundMessage))
    else StartEntrySpec(s0, cfg, e, path, p)
  }

  /** The end of the song: finished is fired and the entry is forgotten. */
  function SongEnded(s: PlayerState): PlayerState
  {
    match s.entry
    case None => Fatal(s, NoEntry)
    case Some(e) => ClearEntry(Notify(s, Finished(e.id)))
  }

  /** The end of the transition: the entry's song is announced and its play
      is scheduled. */
  function TransitionEnded(s: PlayerState): PlayerState
  {
    match s.entry
    case None => Fatal(s, NoEntry)
    case Some(_) => s.(actions := s.actions + [ScheduledPlay(Song)])
  }

  /** handle_end_reached: probes transition, song, idle in this order. */
  function EndReached(s: PlayerState): PlayerState
  {
    var s1 := Probe(s, Transition);
    if s.loaded == Playing(Transition) then TransitionEnded(s1)
    else
      var s2 := Probe(s1, Song);
      if s.loaded == Playing(Song) then SongEnded(s2)
      else
        var s3 := Probe(s2, Idle);
        if s.loaded == Playing(Idle) then s3.(actions := s3.actions + [ScheduledPlay(Idle)])
        else Fatal(s3, InvalidState)
  }

  /** Whether a playing event is a resume: the loaded stage has already started. */
  predicate IsResume(s: PlayerState)
  {
    (s.loaded == Playing(Transition) && s.transition.started)
    || (s.loaded == Playing(Song) && s.song.started)
  }

  /** The questions asked to tell a resume: the song is asked about only when
      the transition is not a started, loaded stage. */
  function ResumeProbes(s: PlayerState): PlayerState
  {
    if s.loaded == Playing(Transition) && s.transition.started then Probe(s, Transition)
    else Probe(Probe(s, Transition), Song)
  }

  function ResumedEvent(s: PlayerState, timing: Timing): PlayerState
  {
    match s.entry
    case None => Fatal(s, NoEntry)
    case Some(e) => Notify(s, Resumed(e.id, timing))
  }

  function TransitionStarted(s: PlayerState): PlayerState
  {
    match s.entry
    case None => Fatal(s, NoEntry)
    case Some(e) => Notify(s.(transition := s.transition.(started := true)), StartedTransition(e.id))
  }

  /** The song starts: the audio track chosen for it, if any, is selected. */
  function SongStarted(s: PlayerState): PlayerState
  {
    match s.entry
    case None => Fatal(s, NoEntry)
    case Some(e) =>
      var s1 := s.(song := s.song.(started := true));
      var s2 := if s.song.audioTrackId.Some? then s1.(engine := s1.engine + [AudioSetTrack(s.song.audioTrackId.value)])
                else s1;
      Notify(s2, StartedSong(e.id))
  }

  /** A stage playing for the first time: transition, song, idle in this order. */
  function FirstPlaying(s: PlayerState): PlayerState
  {
    var s1 := Probe(s, Transition);
    if s.loaded == Playing(Transition) then TransitionStarted(s1)
    else
      var s2 := Probe(s1, Song);
      if s.loaded == Playing(Song) then SongStarted(s2)
      else
        var s3 := Probe(s2, Idle);
        if s.loaded == Playing(Idle) then s3 else Fatal(s3, InvalidState)
  }

  /** handle_playing: first asks whether a started stage is resuming
      (transition, then song), then which stage starts (transition, song, idle). */
  function PlayingEvent(s: PlayerState, timing: Timing): PlayerState
  {
    var s1 := ResumeProbes(s);
    if IsResume(s) then ResumedEvent(s1, timing) else FirstPlaying(s1)
  }

  /** handle_paused. */
  function PausedEvent(s: PlayerState, timing: Timing): PlayerState
  {
    match s.entry
    case None => Fatal(s, NoEntry)
    case Some(e) => Notify(s, Paused(e.id, timing))
  }

  /** handle_encountered_error: report, then skip the failed media. */
  function ErrorEvent(s: PlayerState): PlayerState
  {
    match s.entry
    case None => Fatal(s, NoEntry)
    case Some(e) =>
      var s1 := Notify(s, Error(e.id, PlaybackErrorMessage));
      s1.(actions := s1.actions + [SkipRequested])
  }

  /** pause(paused): the idle screen is never paused; otherwise the engine is
      asked only when its state differs from the request. */
  function PauseSpec(s: PlayerState, paused: bool): PlayerState
  {
    var s1 := Probe(s, Idle);
    if s.loaded == Playing(Idle) || s.enginePaused == paused then s1
    else s1.(engine := s1.engine + [if paused then PausePlayer else ResumePlayer], enginePaused := paused)
  }

  // ---------------------------------------------------------------------------
  // The player object

  class MediaPlayerVlc {
    const config: Config
    var playlistEntry: Option<PlaylistEntry>
    var transitionData: StageData
    var songData: StageData
    var loaded: Loaded
    var enginePaused: bool
    var stop: bool
    var errors: seq<FatalError>
    var callbacks: map<string, Handler>
    var notes: seq<Notification>
    var actions: seq<Action>
    var engine: seq<EngineCall>
    var texts: seq<TextRequest>
    var probes: seq<Stage>
    var instrumentalLookups: seq<Path>
    var existenceChecks: seq<Path>

    function State(): PlayerState
      reads this
    {
      PlayerState(playlistEntry, transitionData, songData, loaded, enginePaused, stop, errors,
                  callbacks, notes, actions, engine, texts, probes, instrumentalLookups, existenceChecks)
    }

    constructor (cfg: Config)
      ensures config == cfg && State() == InitialState
    {
      config := cfg;
      playlistEntry, transitionData, songData := None, EmptyData, EmptyData;
      loaded, enginePaused, stop, errors := Other, false, false, [];
      callbacks, notes, actions, engine := map[], [], [], [];
      texts, probes, instrumentalLookups, existenceChecks := [], [], [], [];
    }

    /** set_callback: the registry keeps the last handler given for a name. */
    method SetCallback(name: string, h: Handler)
      modifies this
      ensures State() == SetCallbackSpec(old(State()), name, h)
      ensures name in callbacks && callbacks[name] == h
    {
      callbacks := callbacks[name := h];
    }

    /** is_playing_this: a lookup of what the engine has loaded, recorded. */
    method IsPlayingThis(stage: Stage) returns (b: bool)
      modifies this
      ensures b == (old(loaded) == Playing(stage))
      ensures State() == Probe(old(State()), stage)
    {
      probes := probes + [stage];
      b := loaded == Playing(stage);
    }

    method RaiseFatal(e: FatalError)
      modifies this
      ensures State() == Fatal(old(State()), e)
    {
      stop := true;
      errors := errors + [e];
    }

    /** Records the notification `n` as delivered to the owner. */
    method Emit(n: Notification)
      modifies this
      ensures State() == Notify(old(State()), n)
    {
      notes := notes + [n];
    }

    method GenerateText(name: string) returns (r: Result<Stage, NameError>)
      modifies this
      ensures r == TextTarget(name)
      ensures r.Success? ==> State() == GenerateTextSpec(old(State()), r.value)
      ensures r.Failure? ==> State() == old(State())
    {
      r := TextTarget(name);
      if r.Success? {
        if r.value == Idle {
          texts := texts + [IdleText];
        } else {
          texts := texts + [TransitionText(playlistEntry)];
        }
      }
    }

    method Play(name: string) returns (r: Result<Stage, NameError>)
      modifies this
      ensures r == PlayTarget(name)
      ensures r.Success? ==> State() == PlayStage(old(State()), config, r.value)
      ensures r.Failure? ==> State() == old(State())
    {
      r := PlayTarget(name);
      if r.Failure? {
        return;
      }
      var media;
      match r.value {
        case Transition => media := transitionData.media;
        case Song => media := songData.media;
        case Idle =>
          var _ := GenerateText("idle");
          media := Some(Media(config.idleBackground, None));
      }
      engine := engine + [SetMediaAndPlay(r.value, media)];
      loaded := Playing(r.value);
      enginePaused := false;
    }

    method ManageInstrumental(songPath: Path, p: Instrumental.Probe)
      requires songData.media.Some?
      modifies this
      ensures State() == ManageInstrumentalSpec(old(State()), songPath, p)
    {
      instrumentalLookups := instrumentalLookups + [songPath];
      var d := Instrumental.Resolve(p);
      match p.instrumentalFile
      case Some(file) =>
        if d.slave.Some? {
          songData := songData.(media := Some(songData.media.value.(slave := Some(file))),
                                audioTrackId := Some(p.numberTracks));
        }
      case None =>
        if |p.audioTrackIds| > 1 {
          songData := songData.(audioTrackId := Some(p.audioTrackIds[1]));
        }
    }

    method StoreEntry(e: PlaylistEntry, path: Path)
      modifies this
      ensures State() == LoadEntry(old(State()), config, e, path)
    {
      playlistEntry := Some(e);
      transitionData := StageData(Some(Media(config.transitionBackground, None)), false, None);
      songData := StageData(Some(Media(path, None)), false, None);
    }

    method StartEntry(e: PlaylistEntry, path: Path, p: Instrumental.Probe)
      modifies this
      ensures State() == StartEntrySpec(old(State()), config, e, path, p)
    {
      StoreEntry(e, path);
      var _ := GenerateText("transition");
      if e.useInstrumental {
        ManageInstrumental(path, p);
      }
      var _ := Play("transition");
    }

    method SetPlaylistEntry(e: PlaylistEntry, files: set<Path>, p: Instrumental.Probe)
      modifies this
      ensures State() == SetPlaylistEntrySpec(old(State()), config, e, files, p)
    {
      var path := SongPath(config, e);
      existenceChecks := existenceChecks + [path];
      ghost var s0 := State();
      assert s0 == old(State()).(existenceChecks := old(State()).existenceChecks + [path]);
      if path !in files {
        Emit(CouldNotPlay(e.id));
        Emit(Error(e.id, FileNotFoundMessage));
        return;
      }
      StartEntry(e, path, p);
      assert State() == StartEntrySpec(s0, config, e, path, p);
    }

    method EndSong()
      modifies this
      ensures State() == SongEnded(old(State()))
    {
      match playlistEntry {
        case None => RaiseFatal(NoEntry);
        case Some(e) =>
          Emit(Finished(e.id));
          playlistEntry, transitionData, songData := None, EmptyData, EmptyData;
      }
    }

    method EndTransition()
      modifies this
      ensures State() == TransitionEnded(old(State()))
    {
      match playlistEntry {
        case None => RaiseFatal(NoEntry);
        case Some(_) => actions := actions + [ScheduledPlay(Song)];
      }
    }

    method HandleEndReached()
      modifies this
      ensures State() == EndReached(old(State()))
    {
      var onTransition := IsPlayingThis(Transition);
      if onTransition {
        EndTransition();
        return;
      }
      var onSong := IsPlayingThis(Song);
      if onSong {
        EndSong();
        return;
      }
      var onIdle := IsPlayingThis(Idle);
      if onIdle {
        actions := actions + [ScheduledPlay(Idle)];
        return;
      }
      RaiseFatal(InvalidState);
    }

    method StartTransition()
      modifies this
      ensures State() == TransitionStarted(old(State()))
    {
      match playlistEntry {
        case None => RaiseFatal(NoEntry);
        case Some(e) =>
          transitionData := transitionData.(started := true);
          Emit(StartedTransition(e.id));
      }
    }

    method StartSong()
      modifies this
      ensures State() == SongStarted(old(State()))
    {
      match playlistEntry {
        case None => RaiseFatal(NoEntry);
        case Some(e) =>
          songData := songData.(started := true);
          if songData.audioTrackId.Some? {
            engine := engine + [AudioSetTrack(songData.audioTrackId.value)];
          }
          Emit(StartedSong(e.id));
      }
    }

    /** The second half of handle_playing, once no resume was found. */
    method HandleFirstPlaying()
      modifies this
      ensures State() == FirstPlaying(old(State()))
    {
      var onTransition := IsPlayingThis(Transition);
      if onTransition {
        StartTransition();
        return;
      }
      var onSong := IsPlayingThis(Song);
      if onSong {
        StartSong();
        return;
      }
      var onIdle := IsPlayingThis(Idle);
      if !onIdle {
        RaiseFatal(InvalidState);
      }
    }

    method HandlePlaying(timing: Timing)
      modifies this
      ensures State() == PlayingEvent(old(State()), timing)
    {
      ghost var s0 := State();
      var resuming := IsPlayingThis(Transition);
      resuming := resuming && transitionData.started;
      if !resuming {
        var onSong := IsPlayingThis(Song);
        resuming := onSong && songData.started;
      }
      assert State() == ResumeProbes(s0) && resuming == IsResume(s0);
      if resuming {
        match playlistEntry {
          case None => RaiseFatal(NoEntry);
          case Some(e) => Emit(Resumed(e.id, timing));
        }
        return;
      }
      HandleFirstPlaying();
    }

    method HandlePaused(timing: Timing)
      modifies this
      ensures State() == PausedEvent(old(State()), timing)
    {
      match playlistEntry
      case None => RaiseFatal(NoEntry);
      case Some(e) => Emit(Paused(e.id, timing));
    }

    method HandleEncounteredError()
      modifies this
      ensures State() == ErrorEvent(old(State()))
    {
      match playlistEntry
      case None => RaiseFatal(NoEntry);
      case Some(e) =>
        Emit(Error(e.id, PlaybackErrorMessage));
        actions := actions + [SkipRequested];
    }

    method Pause(paused: bool)
      modifies this
      ensures State() == PauseSpec(old(State()), paused)
    {
      var idle := IsPlayingThis(Idle);
      if idle || enginePaused == paused {
        return;
      }
      engine := engine + [if paused then PausePlayer else ResumePlayer];
      enginePaused := paused;
    }
  }
}
