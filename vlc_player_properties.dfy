/** What the earlier `VlcPlayer` guarantees, stated on its specification
    functions: the outcome of each command and event, the idempotence of
    pause and resume, an invariant kept by every step, and a whole entry. */
module VlcPlayerProperties {
  import opened Results
  import opened VlcPlayer

  // ---------------------------------------------------------------------------
  // play_playlist_entry

  /** A song file that does not exist: nothing is played, the playing id, the
      pending media and the transition flag are unchanged, the file was looked
      up once and could_not_play is fired; the model fires no error callback
      here. */
  lemma MissingSongFile(s: PlayerState, cfg: Config, e: PlaylistEntry, files: set<Path>)
    requires SongPath(cfg, e) !in files
    ensures PlayPlaylistEntrySpec(s, cfg, e, files)
            == s.(fileChecks := s.fileChecks + [SongPath(cfg, e)],
                  notes := s.notes + [CouldNotPlay(e.id)])
  {
  }

  /** An existing song file: the entry is playing its transition, its song
      waits, and started_transition is fired with its id. */
  lemma ExistingSongFile(s: PlayerState, cfg: Config, e: PlaylistEntry, files: set<Path>)
    requires SongPath(cfg, e) in files
    ensures var t := PlayPlaylistEntrySpec(s, cfg, e, files);
            && t.inTransition && t.playingId == Some(e.id) && t.mediaPending == Some(SongPath(cfg, e))
            && t.screen == TransitionScreen && !t.paused
            && t.engine == s.engine + [PlayMedia(cfg.transitionBackground)]
            && t.texts == s.texts + [TransitionText(e.id)]
            && t.notes == s.notes + [StartedTransition(e.id)]
            && t.actions == s.actions && t.callbacks == s.callbacks
  {
  }

  // ---------------------------------------------------------------------------
  // end_reached_callback and encountered_error_callback

  lemma EndReachedCases(s: PlayerState)
    ensures var t := EndReachedSpec(s);
            s.inTransition ==>
              && !t.inTransition
              && t.actions == s.actions + [PlayMediaLater(s.mediaPending)]
              && t.notes == s.notes + [StartedSong(s.playingId)]
              && t.playingId == s.playingId
    ensures var t := EndReachedSpec(s);
            !s.inTransition && s.screen == IdleScreen ==>
              t == s.(actions := s.actions + [PlayIdleScreenLater])
    ensures var t := EndReachedSpec(s);
            !s.inTransition && s.screen != IdleScreen ==>
              t == s.(notes := s.notes + [Finished(s.playingId)])
  {
  }

  /** An engine error is reported with the playing id, which is then forgotten. */
  lemma ErrorResets(s: PlayerState, message: string)
    ensures var t := ErrorSpec(s, message);
            && t.notes == s.notes + [Error(s.playingId, message)]
            && t.playingId == None && !t.inTransition && Valid(t)
            && t.actions == s.actions && t.engine == s.engine
  {
  }

  // ---------------------------------------------------------------------------
  // set_pause

  /** A second identical request has no effect at all, and the pause state
      is always the last request. */
  lemma PauseIdempotent(s: PlayerState, pause: bool, t1: Timing, t2: Timing)
    ensures SetPauseSpec(SetPauseSpec(s, pause, t1), pause, t2) == SetPauseSpec(s, pause, t1)
    ensures SetPauseSpec(s, pause, t1).paused == pause
  {
  }

  /** Pause, pause again, resume, resume again: exactly one paused and one
      resumed callback, and the engine is paused then resumed once. */
  lemma DoublePauseAndResume(s: PlayerState, t1: Timing, t2: Timing, t3: Timing, t4: Timing)
    requires !s.paused
    ensures var t := SetPauseSpec(SetPauseSpec(SetPauseSpec(SetPauseSpec(s, true, t1), true, t2),
                                               false, t3), false, t4);
            && t.notes == s.notes + [Paused(s.playingId, t1), Resumed(s.playingId, t3)]
            && t.engine == s.engine + [PausePlayer, ResumePlayer]
            && !t.paused
  {
    PauseIdempotent(s, true, t1, t2);
    var u := SetPauseSpec(s, true, t1);
    PauseIdempotent(u.(engine := u.engine + [ResumePlayer], paused := false,
                       notes := u.notes + [Resumed(s.playingId, t3)]), false, t3, t4);
  }

  // ---------------------------------------------------------------------------
  // Runs of commands and events

  datatype Step =
    | PlayEntry(e: PlaylistEntry, files: set<Path>)
    | PlaySong(media: Path)        // a scheduled play_media running
    | PlayIdle                     // play_idle_screen, scheduled or not
    | EndReachedStep
    | ErrorStep(message: string)
    | PauseStep(pause: bool, timing: Timing)

  function Apply(s: PlayerState, cfg: Config, step: Step): PlayerState
  {
    match step
    case PlayEntry(e, files) => PlayPlaylistEntrySpec(s, cfg, e, files)
    case PlaySong(media) => PlayMediaSpec(s, media, SongScreen)
    case PlayIdle => PlayIdleScreenSpec(s, cfg)
    case EndReachedStep => EndReachedSpec(s)
    case ErrorStep(message) => ErrorSpec(s, message)
    case PauseStep(pause, timing) => SetPauseSpec(s, pause, timing)
  }

  function Run(s: PlayerState, cfg: Config, steps: seq<Step>): PlayerState
    decreases |steps|
  {
    if |steps| == 0 then s else Run(Apply(s, cfg, steps[0]), cfg, steps[1..])
  }

  /** Valid, and every song play ever scheduled carries a media and every
      started_song carries an id: the song that follows a transition is
      always known. */
  predicate WellFormed(s: PlayerState)
  {
    && Valid(s)
    && (forall i :: 0 <= i < |s.actions| && s.actions[i].PlayMediaLater? ==> s.actions[i].media.Some?)
    && (forall i :: 0 <= i < |s.notes| && s.notes[i].StartedSong? ==> s.notes[i].playing.Some?)
  }

  lemma StepKeepsWellFormed(s: PlayerState, cfg: Config, step: Step)
    requires WellFormed(s)
    ensures WellFormed(Apply(s, cfg, step))
  {
    match step
    case PlayEntry(e, files) =>
      if SongPath(cfg, e) in files {
        ExistingSongFile(s, cfg, e, files);
      } else {
        MissingSongFile(s, cfg, e, files);
      }
    case PlaySong(media) =>
    case PlayIdle =>
    case EndReachedStep => EndReachedCases(s);
    case ErrorStep(message) =>
    case PauseStep(pause, timing) =>
  }

  lemma {:induction false} RunKeepsWellFormed(s: PlayerState, cfg: Config, steps: seq<Step>)
    requires WellFormed(s)
    ensures WellFormed(Run(s, cfg, steps))
    decreases |steps|
  {
    if |steps| > 0 {
      StepKeepsWellFormed(s, cfg, steps[0]);
      RunKeepsWellFormed(Apply(s, cfg, steps[0]), cfg, steps[1..]);
    }
  }

  /** The player starts well formed, so every run of it stays so. */
  lemma EveryRunWellFormed(cfg: Config, steps: seq<Step>)
    ensures WellFormed(Run(InitialState, cfg, steps))
  {
    RunKeepsWellFormed(InitialState, cfg, steps);
  }

  // ---------------------------------------------------------------------------
  // A whole entry

  lemma RunCons(s: PlayerState, cfg: Config, step: Step, rest: seq<Step>)
    ensures Run(s, cfg, [step] + rest) == Run(Apply(s, cfg, step), cfg, rest)
  {
    assert ([step] + rest)[1..] == rest;
  }

  /** One entry played through: the transition is on while its screen plays;
      its end schedules the song and fires started_song; once the scheduled
      song plays the transition is off, and the end of the song fires
      finished, all with the entry's id. */
  lemma FullEntry(s: PlayerState, cfg: Config, e: PlaylistEntry, files: set<Path>)
    requires SongPath(cfg, e) in files
    ensures var u1 := Run(s, cfg, [PlayEntry(e, files)]);
            u1.inTransition && u1.screen == TransitionScreen
    ensures var u2 := Run(s, cfg, [PlayEntry(e, files), EndReachedStep]);
            && !u2.inTransition
            && u2.actions == s.actions + [PlayMediaLater(Some(SongPath(cfg, e)))]
    ensures var u3 := Run(s, cfg, [PlayEntry(e, files), EndReachedStep, PlaySong(SongPath(cfg, e))]);
            && !u3.inTransition && u3.screen == SongScreen
            && u3.engine == s.engine + [PlayMedia(cfg.transitionBackground), PlayMedia(SongPath(cfg, e))]
    ensures var u4 := Run(s, cfg, [PlayEntry(e, files), EndReachedStep, PlaySong(SongPath(cfg, e)),
                                   EndReachedStep]);
            u4.notes == s.notes + [StartedTransition(e.id), StartedSong(Some(e.id)), Finished(Some(e.id))]
  {
    var path := SongPath(cfg, e);
    var u1 := PlayPlaylistEntrySpec(s, cfg, e, files);
    ExistingSongFile(s, cfg, e, files);
    var u2 := EndReachedSpec(u1);
    EndReachedCases(u1);
    var u3 := PlayMediaSpec(u2, path, SongScreen);
    var u4 := EndReachedSpec(u3);
    EndReachedCases(u3);
    RunCons(s, cfg, PlayEntry(e, files), []);
    RunCons(s, cfg, PlayEntry(e, files), [EndReachedStep]);
    RunCons(u1, cfg, EndReachedStep, []);
    RunCons(s, cfg, PlayEntry(e, files), [EndReachedStep, PlaySong(path)]);
    RunCons(u1, cfg, EndReachedStep, [PlaySong(path)]);
    RunCons(u2, cfg, PlaySong(path), []);
    RunCons(s, cfg, PlayEntry(e, files), [EndReachedStep, PlaySong(path), EndReachedStep]);
    RunCons(u1, cfg, EndReachedStep, [PlaySong(path), EndReachedStep]);
    RunCons(u2, cfg, PlaySong(path), [EndReachedStep]);
    RunCons(u3, cfg, EndReachedStep, []);
  }
}
