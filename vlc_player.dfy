/** The earlier player, `VlcPlayer`: one engine plays, for each playlist
    entry, a transition screen and then the song; an idle screen is played
    when there is nothing to play.

    The player keeps the id of the entry it plays (`playingId`), the song
    media waiting for the transition to end (`mediaPending`) and whether the
    transition is on (`inTransition`). The engine is reduced to what it has
    loaded (`screen`), whether it is paused, and the calls made on it
    (`engine`). Callbacks fired are appended to `notes`, threads started to
    `actions`, text screens asked for to `texts` and song-file lookups to
    `fileChecks`. */
module VlcPlayer {
  import opened Results
  import Paths

  type Path = Paths.Path
  type EntryId = nat
  type Timing = int

  /** A user-supplied callback, known only by its identity. */
  type Handler = nat

  /** What the engine has loaded. */
  datatype Screen = NothingLoaded | TransitionScreen | SongScreen | IdleScreen

  datatype PlaylistEntry = PlaylistEntry(id: EntryId, filePath: Path)

  /** The callbacks, with the id they receive: the entry's own id, or the
      player's `playingId` (which may be None). */
  datatype Note =
    | StartedTransition(id: EntryId)
    | StartedSong(playing: Option<EntryId>)
    | CouldNotPlay(id: EntryId)
    | Finished(playing: Option<EntryId>)
    | Paused(playing: Option<EntryId>, timing: Timing)
    | Resumed(playing: Option<EntryId>, timing: Timing)
    | Error(playing: Option<EntryId>, message: string)

  /** Work started on a new thread: `play_media(media_pending)` or `play_idle_screen()`. */
  datatype Action = PlayMediaLater(media: Option<Path>) | PlayIdleScreenLater

  datatype EngineCall = PlayMedia(media: Path) | PausePlayer | ResumePlayer

  datatype TextRequest = TransitionText(id: EntryId) | IdleText

  /** The seven callback slots. */
  datatype Callbacks = Callbacks(
    startedTransition: Handler, startedSong: Handler, couldNotPlay: Handler,
    finished: Handler, paused: Handler, resumed: Handler, error: Handler)

  /** Read-only configuration: the karaoke folder and the two resolved backgrounds. */
  datatype Config = Config(karaFolder: Path, transitionBackground: Path, idleBackground: Path)

  datatype PlayerState = PlayerState(
    inTransition: bool,
    playingId: Option<EntryId>,
    mediaPending: Option<Path>,
    screen: Screen,
    paused: bool,
    callbacks: Callbacks,
    notes: seq<Note>,
    actions: seq<Action>,
    engine: seq<EngineCall>,
    texts: seq<TextRequest>,
    fileChecks: seq<Path>)

  const NoCallbacks := Callbacks(0, 0, 0, 0, 0, 0, 0)

  const InitialState := PlayerState(false, None, None, NothingLoaded, false, NoCallbacks,
                                    [], [], [], [], [])

  /** The song file: the entry's path taken relative to the karaoke folder. */
  function SongPath(cfg: Config, e: PlaylistEntry): Path { Paths.JoinPath(cfg.karaFolder, e.filePath) }

  // ---------------------------------------------------------------------------
  // Specification: one function per operation

  /** The transition is on only while an entry is being played and its song waits. */
  predicate Valid(s: PlayerState)
  {
    s.inTransition ==> s.playingId.Some? && s.mediaPending.Some?
  }

  /** play_media: the engine plays a new media, and is no longer paused. */
  function PlayMediaSpec(s: PlayerState, media: Path, screen: Screen): PlayerState
  {
    s.(engine := s.engine + [PlayMedia(media)], screen := screen, paused := false)
  }

  /** The entry becomes the one playing, its song waits and its transition
      text is asked for. */
  function EnterTransition(s: PlayerState, e: PlaylistEntry, path: Path): PlayerState
  {
    s.(playingId := Some(e.id), mediaPending := Some(path),
       texts := s.texts + [TransitionText(e.id)], inTransition := true)
  }

  /** The transition of an entry whose song file exists: the entry becomes the
      one playing, its song waits, the transition screen is played and
      started_transition is fired. */
  function StartEntrySpec(s: PlayerState, cfg: Config, e: PlaylistEntry, path: Path): PlayerState
  {
    var s2 := PlayMediaSpec(EnterTransition(s, e, path), cfg.transitionBackground, TransitionScreen);
    s2.(notes := s2.notes + [StartedTransition(e.id)])
  }

  /** play_playlist_entry: `files` are the files that exist. */
  function PlayPlaylistEntrySpec(s: PlayerState, cfg: Config, e: PlaylistEntry, files: set<Path>)
    : PlayerState
  {
    var path := SongPath(cfg, e);
    var s0 := s.(fileChecks := s.fileChecks + [path]);
    if path !in files then s0.(notes := s0.notes + [CouldNotPlay(e.id)])
    else StartEntrySpec(s0, cfg, e, path)
  }

  /** play_idle_screen. */
  function PlayIdleScreenSpec(s: PlayerState, cfg: Config): PlayerState
  {
    PlayMediaSpec(s.(texts := s.texts + [IdleText]), cfg.idleBackground, IdleScreen)
  }

  /** end_reached_callback: the end of the transition starts the song, the
      end of the idle screen restarts it, the end of a song finishes it. */
  function EndReachedSpec(s: PlayerState): PlayerState
  {
    if s.inTransition then
      s.(inTransition := false, actions := s.actions + [PlayMediaLater(s.mediaPending)],
         notes := s.notes + [StartedSong(s.playingId)])
    else if s.screen == IdleScreen then s.(actions := s.actions + [PlayIdleScreenLater])
    else s.(notes := s.notes + [Finished(s.playingId)])
  }

  /** encountered_error_callback: `message` is the engine's last error message. */
  function ErrorSpec(s: PlayerState, message: string): PlayerState
  {
    s.(notes := s.notes + [Error(s.playingId, message)], playingId := None, inTransition := false)
  }

  /** set_pause: only a request that changes the engine's state has an effect. */
  function SetPauseSpec(s: PlayerState, pause: bool, timing: Timing): PlayerState
  {
    if pause == s.paused then s
    else if pause then
      s.(engine := s.engine + [PausePlayer], paused := true,
         notes := s.notes + [Paused(s.playingId, timing)])
    else
      s.(engine := s.engine + [ResumePlayer], paused := false,
         notes := s.notes + [Resumed(s.playingId, timing)])
  }

  // ---------------------------------------------------------------------------
  // The player object

  class VlcPlayer {
    const config: Config
    var inTransition: bool
    var playingId: Option<EntryId>
    var mediaPending: Option<Path>
    var screen: Screen
    var paused: bool
    var startedTransitionCallback: Handler
    var startedSongCallback: Handler
    var couldNotPlayCallback: Handler
    var finishedCallback: Handler
    var pausedCallback: Handler
    var resumedCallback: Handler
    var errorCallback: Handler
    var notes: seq<Note>
    var actions: seq<Action>
    var engine: seq<EngineCall>
    var texts: seq<TextRequest>
    var fileChecks: seq<Path>

    function CallbackSlots(): Callbacks
      reads this
    {
      Callbacks(startedTransitionCallback, startedSongCallback, couldNotPlayCallback,
                finishedCallback, pausedCallback, resumedCallback, errorCallback)
    }

    function State(): PlayerState
      reads this
    {
      PlayerState(inTransition, playingId, mediaPending, screen, paused, CallbackSlots(),
                  notes, actions, engine, texts, fileChecks)
    }

    constructor (cfg: Config)
      ensures config == cfg && State() == InitialState && Valid(State())
    {
      config := cfg;
      inTransition, playingId, mediaPending, screen, paused := false, None, None, NothingLoaded, false;
      startedTransitionCallback, startedSongCallback, couldNotPlayCallback := 0, 0, 0;
      finishedCallback, pausedCallback, resumedCallback, errorCallback := 0, 0, 0, 0;
      notes, actions, engine, texts, fileChecks := [], [], [], [], [];
    }

    // The seven setters: each stores its handler in its own slot and touches nothing else.

    method SetStartedTransitionCallback(h: Handler)
      modifies this
      ensures State() == old(State()).(callbacks := old(CallbackSlots()).(startedTransition := h))
    {
      startedTransitionCallback := h;
    }

    method SetStartedSongCallback(h: Handler)
      modifies this
      ensures State() == old(State()).(callbacks := old(CallbackSlots()).(startedSong := h))
    {
      startedSongCallback := h;
    }

    method SetCouldNotPlayCallback(h: Handler)
      modifies this
      ensures State() == old(State()).(callbacks := old(CallbackSlots()).(couldNotPlay := h))
    {
      couldNotPlayCallback := h;
    }

    method SetFinishedCallback(h: Handler)
      modifies this
      ensures State() == old(State()).(callbacks := old(CallbackSlots()).(finished := h))
    {
      finishedCallback := h;
    }

    method SetPausedCallback(h: Handler)
      modifies this
      ensures State() == old(State()).(callbacks := old(CallbackSlots()).(paused := h))
    {
      pausedCallback := h;
    }

    method SetResumedCallback(h: Handler)
      modifies this
      ensures State() == old(State()).(callbacks := old(CallbackSlots()).(resumed := h))
    {
      resumedCallback := h;
    }

    method SetErrorCallback(h: Handler)
      modifies this
      ensures State() == old(State()).(callbacks := old(CallbackSlots()).(error := h))
    {
      errorCallback := h;
    }

    method PlayMediaOn(media: Path, loaded: Screen)
      modifies this
      ensures State() == PlayMediaSpec(old(State()), media, loaded)
    {
      engine := engine + [PlayMedia(media)];
      screen := loaded;
      paused := false;
    }

    method Enter(e: PlaylistEntry, path: Path)
      modifies this
      ensures State() == EnterTransition(old(State()), e, path)
    {
      playingId, mediaPending, inTransition := Some(e.id), Some(path), true;
      texts := texts + [TransitionText(e.id)];
    }

    method StartEntry(e: PlaylistEntry, path: Path)
      modifies this
      ensures State() == StartEntrySpec(old(State()), config, e, path)
    {
      Enter(e, path);
      PlayMediaOn(config.transitionBackground, TransitionScreen);
      notes := notes + [StartedTransition(e.id)];
    }

    method PlayPlaylistEntry(e: PlaylistEntry, files: set<Path>)
      modifies this
      ensures State() == PlayPlaylistEntrySpec(old(State()), config, e, files)
    {
      var path := SongPath(config, e);
      fileChecks := fileChecks + [path];
      if path !in files {
        notes := notes + [CouldNotPlay(e.id)];
        return;
      }
      StartEntry(e, path);
    }

    method PlayIdleScreen()
      modifies this
      ensures State() == PlayIdleScreenSpec(old(State()), config)
    {
      texts := texts + [IdleText];
      PlayMediaOn(config.idleBackground, IdleScreen);
    }

    method EndReachedCallback()
      modifies this
      ensures State() == EndReachedSpec(old(State()))
    {
      if inTransition {
        inTransition := false;
        actions := actions + [PlayMediaLater(mediaPending)];
        notes := notes + [StartedSong(playingId)];
        return;
      }
      if screen == IdleScreen {
        actions := actions + [PlayIdleScreenLater];
        return;
      }
      notes := notes + [Finished(playingId)];
    }

    method EncounteredErrorCallback(message: string)
      modifies this
      ensures State() == ErrorSpec(old(State()), message)
    {
      notes := notes + [Error(playingId, message)];
      playingId := None;
      inTransition := false;
    }

    method SetPause(pause: bool, timing: Timing)
      modifies this
      ensures State() == SetPauseSpec(old(State()), pause, timing)
      ensures paused == pause
    {
      if pause {
        if paused {
          return;
        }
        engine := engine + [PausePlayer];
        paused := true;
        notes := notes + [Paused(playingId, timing)];
      } else {
        if !paused {
          return;
        }
        engine := engine + [ResumePlayer];
        paused := false;
        notes := notes + [Resumed(playingId, timing)];
      }
    }
  }
}
