/** What the playback state machine of `MediaPlayerVlc` guarantees, stated on
    its specification functions: the outcome of each command and event, an
    invariant kept by every step, and whole runs. */
module MediaPlayerProperties {
  import opened Results
  import opened MediaPlayer
  import Instrumental

  // ---------------------------------------------------------------------------
  // set_playlist_entry

  /** A song file that does not exist: the entry and both stage records stay
      as they were, nothing is played or generated, the file was looked up
      once, and could_not_play then error are fired with the entry's id. */
  lemma MissingSongFile(s: PlayerState, cfg: Config, e: PlaylistEntry, files: set<Path>,
                        p: Instrumental.Probe)
    requires SongPath(cfg, e) !in files
    ensures var t := SetPlaylistEntrySpec(s, cfg, e, files, p);
            && t.entry == s.entry && t.transition == s.transition && t.song == s.song
            && t.loaded == s.loaded && t.engine == s.engine && t.texts == s.texts
            && t.actions == s.actions && t.instrumentalLookups == s.instrumentalLookups
            && t.existenceChecks == s.existenceChecks + [SongPath(cfg, e)]
            && t.notes == s.notes + [CouldNotPlay(e.id), Error(e.id, FileNotFoundMessage)]
  {
  }

  /** With an existing song file, set_playlist_entry looks the file up once
      and then starts the entry. */
  lemma ExistingSongFileStarts(s: PlayerState, cfg: Config, e: PlaylistEntry, files: set<Path>,
                               p: Instrumental.Probe)
    requires SongPath(cfg, e) in files
    ensures SetPlaylistEntrySpec(s, cfg, e, files, p)
            == StartEntrySpec(s.(existenceChecks := s.existenceChecks + [SongPath(cfg, e)]),
                              cfg, e, SongPath(cfg, e), p)
  {
  }

  /** An existing song file: the entry is stored, the transition media is the
      transition background, neither stage has started, the song media is the
      song file, and the transition text is generated for the entry. */
  lemma ExistingSongFileStores(s: PlayerState, cfg: Config, e: PlaylistEntry, files: set<Path>,
                               p: Instrumental.Probe)
    requires SongPath(cfg, e) in files
    ensures var t := SetPlaylistEntrySpec(s, cfg, e, files, p);
            && t.entry == Some(e)
            && t.transition == StageData(Some(Media(cfg.transitionBackground, None)), false, None)
            && !t.song.started && t.song.media.Some? && t.song.media.value.path == SongPath(cfg, e)
            && t.texts == s.texts + [TransitionText(Some(e))]
            && t.existenceChecks == s.existenceChecks + [SongPath(cfg, e)]
  {
    ExistingSongFileStarts(s, cfg, e, files, p);
    var path := SongPath(cfg, e);
    var s1 := LoadEntry(s.(existenceChecks := s.existenceChecks + [path]), cfg, e, path);
    var s2 := GenerateTextSpec(s1, Transition);
    assert s2.texts == s.texts + [TransitionText(Some(e))];
    var s3 := if e.useInstrumental then ManageInstrumentalSpec(s2, path, p) else s2;
    assert s3.entry == Some(e) && s3.transition == s1.transition && s3.texts == s2.texts;
    assert !s3.song.started && s3.song.media.Some? && s3.song.media.value.path == path;
    assert s3.existenceChecks == s.existenceChecks + [path];
  }

  /** An existing song file: the transition, and only it, is played, and no
      callback fires, nothing is scheduled and no error is raised. */
  lemma ExistingSongFilePlays(s: PlayerState, cfg: Config, e: PlaylistEntry, files: set<Path>,
                              p: Instrumental.Probe)
    requires SongPath(cfg, e) in files
    ensures var t := SetPlaylistEntrySpec(s, cfg, e, files, p);
            && t.engine == s.engine + [SetMediaAndPlay(Transition, t.transition.media)]
            && t.loaded == Playing(Transition) && !t.enginePaused
            && t.notes == s.notes && t.actions == s.actions && t.stop == s.stop && t.errors == s.errors
  {
    ExistingSongFileStarts(s, cfg, e, files, p);
  }

  /** An existing song file: the instrumental resolver runs on the song file
      only when the entry asks for it; otherwise the song record is the bare
      song file. */
  lemma ExistingSongFileInstrumental(s: PlayerState, cfg: Config, e: PlaylistEntry,
                                     files: set<Path>, p: Instrumental.Probe)
    requires SongPath(cfg, e) in files
    ensures var t := SetPlaylistEntrySpec(s, cfg, e, files, p);
            && (e.useInstrumental ==> t.instrumentalLookups == s.instrumentalLookups + [SongPath(cfg, e)])
            && (!e.useInstrumental ==> t.instrumentalLookups == s.instrumentalLookups
                                       && t.song == StageData(Some(Media(SongPath(cfg, e), None)), false, None))
  {
    ExistingSongFileStarts(s, cfg, e, files, p);
  }

  // ---------------------------------------------------------------------------
  // handle_end_reached

  /** The end of the transition schedules the song. */
  lemma EndOfTransition(s: PlayerState)
    requires s.loaded == Playing(Transition) && s.entry.Some?
    ensures EndReached(s) == s.(probes := s.probes + [Transition],
                                actions := s.actions + [ScheduledPlay(Song)])
  {
  }

  /** The end of a transition with no entry set is fatal: there is no song to play. */
  lemma EndOfTransitionWithoutEntry(s: PlayerState)
    requires s.loaded == Playing(Transition) && s.entry.None?
    ensures EndReached(s) == s.(probes := s.probes + [Transition],
                                stop := true, errors := s.errors + [NoEntry])
  {
  }

  /** The end of the song fires finished and forgets the entry and its records. */
  lemma EndOfSong(s: PlayerState)
    requires s.loaded == Playing(Song) && s.entry.Some?
    ensures EndReached(s) == s.(probes := s.probes + [Transition, Song],
                                notes := s.notes + [Finished(s.entry.value.id)],
                                entry := None, transition := EmptyData, song := EmptyData)
  {
    assert s.probes + [Transition] + [Song] == s.probes + [Transition, Song];
  }

  /** The end of a song with no entry set is fatal. */
  lemma EndOfSongWithoutEntry(s: PlayerState)
    requires s.loaded == Playing(Song) && s.entry.None?
    ensures EndReached(s) == s.(probes := s.probes + [Transition, Song],
                                stop := true, errors := s.errors + [NoEntry])
  {
    assert s.probes + [Transition] + [Song] == s.probes + [Transition, Song];
  }

  /** The end of the idle screen schedules it again. */
  lemma EndOfIdle(s: PlayerState)
    requires s.loaded == Playing(Idle)
    ensures EndReached(s) == s.(probes := s.probes + [Transition, Song, Idle],
                                actions := s.actions + [ScheduledPlay(Idle)])
  {
    assert s.probes + [Transition] + [Song] + [Idle] == s.probes + [Transition, Song, Idle];
  }

  /** An end matching no stage is fatal. */
  lemma EndOfOther(s: PlayerState)
    requires s.loaded == Other
    ensures EndReached(s) == s.(probes := s.probes + [Transition, Song, Idle],
                                stop := true, errors := s.errors + [InvalidState])
  {
    assert s.probes + [Transition] + [Song] + [Idle] == s.probes + [Transition, Song, Idle];
  }

  // ---------------------------------------------------------------------------
  // handle_playing, handle_paused, handle_encountered_error

  /** A playing event on a stage that has already started is a resume. */
  lemma PlayingResumes(s: PlayerState, timing: Timing)
    requires IsResume(s) && s.entry.Some?
    ensures var t := PlayingEvent(s, timing);
            && t.notes == s.notes + [Resumed(s.entry.value.id, timing)]
            && t.probes == s.probes + (if s.loaded == Playing(Transition) then [Transition]
                                       else [Transition, Song])
            && t.transition == s.transition && t.song == s.song && t.engine == s.engine
            && t.entry == s.entry && t.loaded == s.loaded && t.stop == s.stop
            && t.errors == s.errors && t.actions == s.actions
  {
  }

  /** The first playing event of the transition marks it started and fires
      started_transition. */
  lemma PlayingStartsTransition(s: PlayerState, timing: Timing)
    requires s.loaded == Playing(Transition) && !s.transition.started && s.entry.Some?
    ensures var t := PlayingEvent(s, timing);
            && t.transition == s.transition.(started := true) && t.song == s.song
            && t.notes == s.notes + [StartedTransition(s.entry.value.id)]
            && t.probes == s.probes + [Transition, Song, Transition]
            && t.entry == s.entry && t.loaded == s.loaded && t.stop == s.stop
            && t.errors == s.errors && t.actions == s.actions && t.engine == s.engine
  {
  }

  /** The first playing event of the song marks it started, selects its audio
      track when one was chosen and fires started_song. */
  lemma PlayingStartsSong(s: PlayerState, timing: Timing)
    requires s.loaded == Playing(Song) && !s.song.started && s.entry.Some?
    ensures var t := PlayingEvent(s, timing);
            && t.song == s.song.(started := true) && t.transition == s.transition
            && t.engine == s.engine + (if s.song.audioTrackId.Some?
                                       then [AudioSetTrack(s.song.audioTrackId.value)] else [])
            && t.notes == s.notes + [StartedSong(s.entry.value.id)]
            && t.probes == s.probes + [Transition, Song, Transition, Song]
            && t.entry == s.entry && t.loaded == s.loaded && t.stop == s.stop
            && t.errors == s.errors && t.actions == s.actions
  {
  }

  /** The idle screen playing changes nothing but the probes. */
  lemma PlayingOnIdle(s: PlayerState, timing: Timing)
    requires s.loaded == Playing(Idle)
    ensures PlayingEvent(s, timing) == s.(probes := s.probes + [Transition, Song, Transition, Song, Idle])
  {
  }

  /** A playing event matching no stage is fatal. */
  lemma PlayingOnOther(s: PlayerState, timing: Timing)
    requires s.loaded == Other
    ensures PlayingEvent(s, timing)
            == s.(probes := s.probes + [Transition, Song, Transition, Song, Idle],
                  stop := true, errors := s.errors + [InvalidState])
  {
  }

  /** A playing event needing the entry's id when no entry is set is fatal. */
  lemma PlayingWithoutEntry(s: PlayerState, timing: Timing)
    requires s.entry.None? && (s.loaded == Playing(Transition) || s.loaded == Playing(Song))
    ensures var t := PlayingEvent(s, timing);
            && t.stop && t.errors == s.errors + [NoEntry] && t.notes == s.notes
            && t.transition == s.transition && t.song == s.song && t.engine == s.engine
  {
    var s1 := ResumeProbes(s);
    if IsResume(s) {
      assert PlayingEvent(s, timing) == Fatal(s1, NoEntry);
    } else if s.loaded == Playing(Transition) {
      assert FirstPlaying(s1) == Fatal(Probe(s1, Transition), NoEntry);
    } else {
      assert FirstPlaying(s1) == Fatal(Probe(Probe(s1, Transition), Song), NoEntry);
    }
  }

  lemma PausedAndErrorEvents(s: PlayerState, timing: Timing)
    requires s.entry.Some?
    ensures PausedEvent(s, timing) == s.(notes := s.notes + [Paused(s.entry.value.id, timing)])
    ensures ErrorEvent(s) == s.(notes := s.notes + [Error(s.entry.value.id, PlaybackErrorMessage)],
                                actions := s.actions + [SkipRequested])
  {
  }

  // ---------------------------------------------------------------------------
  // pause

  /** The idle screen is never paused, and a request matching the engine's
      state does nothing but ask which stage is loaded. */
  lemma PauseNoOp(s: PlayerState, paused: bool)
    requires s.loaded == Playing(Idle) || s.enginePaused == paused
    ensures PauseSpec(s, paused) == s.(probes := s.probes + [Idle])
  {
  }

  /** Pausing twice is pausing once: the second request calls the engine no more. */
  lemma PauseIdempotent(s: PlayerState, paused: bool)
    ensures var t := PauseSpec(s, paused);
            PauseSpec(t, paused) == t.(probes := t.probes + [Idle])
    ensures s.loaded != Playing(Idle) ==> PauseSpec(s, paused).enginePaused == paused
  {
  }

  // ---------------------------------------------------------------------------
  // Runs of commands and events

  /** One command or engine event. */
  datatype Step =
    | SetEntry(e: PlaylistEntry, files: set<Path>, probe: Instrumental.Probe)
    | PlayStep(stage: Stage)
    | PauseStep(paused: bool)
    | EndReachedStep
    | PlayingStep(timing: Timing)
    | PausedStep(timing: Timing)
    | ErrorStep

  function Apply(s: PlayerState, cfg: Config, step: Step): PlayerState
  {
    match step
    case SetEntry(e, files, probe) => SetPlaylistEntrySpec(s, cfg, e, files, probe)
    case PlayStep(stage) => PlayStage(s, cfg, stage)
    case PauseStep(paused) => PauseSpec(s, paused)
    case EndReachedStep => EndReached(s)
    case PlayingStep(timing) => PlayingEvent(s, timing)
    case PausedStep(timing) => PausedEvent(s, timing)
    case ErrorStep => ErrorEvent(s)
  }

  function Run(s: PlayerState, cfg: Config, steps: seq<Step>): PlayerState
    decreases |steps|
  {
    if |steps| == 0 then s else Run(Apply(s, cfg, steps[0]), cfg, steps[1..])
  }

  /** The stage records belong to the current entry: without an entry both
      are empty, and with one the transition plays the transition background
      and the song has a media. In particular a stage is only ever marked
      started while an entry is set. */
  predicate Consistent(s: PlayerState, cfg: Config)
  {
    && (s.entry.None? ==> s.transition == EmptyData && s.song == EmptyData)
    && (s.entry.Some? ==> s.transition.media == Some(Media(cfg.transitionBackground, None))
                          && s.song.media.Some?)
  }

  /** The traces only grow and the stop flag is never cleared. */
  predicate Extends(s: PlayerState, t: PlayerState)
  {
    && s.notes <= t.notes && s.errors <= t.errors && s.actions <= t.actions
    && s.engine <= t.engine && s.probes <= t.probes && (s.stop ==> t.stop)
  }

  lemma StepKeepsConsistent(s: PlayerState, cfg: Config, step: Step)
    requires Consistent(s, cfg)
    ensures Consistent(Apply(s, cfg, step), cfg)
    ensures Extends(s, Apply(s, cfg, step))
  {
    match step
    case SetEntry(e, files, probe) => SetEntryKeepsConsistent(s, cfg, e, files, probe);
    case PlayStep(stage) => PlayKeepsConsistent(s, cfg, stage);
    case PauseStep(paused) => PauseKeepsConsistent(s, cfg, paused);
    case EndReachedStep => EndReachedKeepsConsistent(s, cfg);
    case PlayingStep(timing) => PlayingKeepsConsistent(s, cfg, timing);
    case PausedStep(timing) => PausedKeepsConsistent(s, cfg, timing);
    case ErrorStep => ErrorKeepsConsistent(s, cfg);
  }

  lemma SetEntryKeepsConsistent(s: PlayerState, cfg: Config, e: PlaylistEntry, files: set<Path>,
                                p: Instrumental.Probe)
    requires Consistent(s, cfg)
    ensures Consistent(SetPlaylistEntrySpec(s, cfg, e, files, p), cfg)
    ensures Extends(s, SetPlaylistEntrySpec(s, cfg, e, files, p))
  {
    if SongPath(cfg, e) in files {
      ExistingSongFileStores(s, cfg, e, files, p);
      ExistingSongFilePlays(s, cfg, e, files, p);
    } else {
      MissingSongFile(s, cfg, e, files, p);
    }
  }

  lemma PlayKeepsConsistent(s: PlayerState, cfg: Config, stage: Stage)
    requires Consistent(s, cfg)
    ensures Consistent(PlayStage(s, cfg, stage), cfg)
    ensures Extends(s, PlayStage(s, cfg, stage))
  {
  }

  lemma PauseKeepsConsistent(s: PlayerState, cfg: Config, paused: bool)
    requires Consistent(s, cfg)
    ensures Consistent(PauseSpec(s, paused), cfg)
    ensures Extends(s, PauseSpec(s, paused))
  {
  }

  lemma EndReachedKeepsConsistent(s: PlayerState, cfg: Config)
    requires Consistent(s, cfg)
    ensures Consistent(EndReached(s), cfg)
    ensures Extends(s, EndReached(s))
  {
    match s.loaded {
      case Other => EndOfOther(s);
      case Playing(stage) =>
        match stage {
          case Transition =>
            if s.entry.Some? {
              EndOfTransition(s);
            } else {
              EndOfTransitionWithoutEntry(s);
            }
          case Song =>
            if s.entry.Some? {
              EndOfSong(s);
            } else {
              EndOfSongWithoutEntry(s);
            }
          case Idle => EndOfIdle(s);
        }
    }
  }

  lemma PlayingKeepsConsistent(s: PlayerState, cfg: Config, timing: Timing)
    requires Consistent(s, cfg)
    ensures Consistent(PlayingEvent(s, timing), cfg)
    ensures Extends(s, PlayingEvent(s, timing))
  {
    match s.loaded {
      case Other => PlayingOnOther(s, timing);
      case Playing(stage) =>
        if stage == Idle {
          PlayingOnIdle(s, timing);
        } else if s.entry.None? {
          PlayingWithoutEntry(s, timing);
        } else if IsResume(s) {
          PlayingResumes(s, timing);
        } else if stage == Transition {
          PlayingStartsTransition(s, timing);
        } else {
          PlayingStartsSong(s, timing);
        }
    }
  }

  lemma PausedKeepsConsistent(s: PlayerState, cfg: Config, timing: Timing)
    requires Consistent(s, cfg)
    ensures Consistent(PausedEvent(s, timing), cfg)
    ensures Extends(s, PausedEvent(s, timing))
  {
  }

  lemma ErrorKeepsConsistent(s: PlayerState, cfg: Config)
    requires Consistent(s, cfg)
    ensures Consistent(ErrorEvent(s), cfg)
    ensures Extends(s, ErrorEvent(s))
  {
  }

  /** Every run from a consistent state stays consistent and only extends the
      traces; the player starts consistent. */
  lemma {:induction false} RunKeepsConsistent(s: PlayerState, cfg: Config, steps: seq<Step>)
    requires Consistent(s, cfg)
    ensures Consistent(Run(s, cfg, steps), cfg)
    ensures Extends(s, Run(s, cfg, steps))
    decreases |steps|
  {
    if |steps| > 0 {
      var s1 := Apply(s, cfg, steps[0]);
      StepKeepsConsistent(s, cfg, steps[0]);
      RunKeepsConsistent(s1, cfg, steps[1..]);
    }
  }

  lemma InitialStateConsistent(cfg: Config)
    ensures Consistent(InitialState, cfg)
    ensures forall steps :: Consistent(Run(InitialState, cfg, steps), cfg)
  {
    forall steps ensures Consistent(Run(InitialState, cfg, steps), cfg) {
      RunKeepsConsistent(InitialState, cfg, steps);
    }
  }

  // ---------------------------------------------------------------------------
  // Repeated playing events: the transition starts once, then only resumes

  function PlayingSteps(timings: seq<Timing>): (steps: seq<Step>)
    ensures |steps| == |timings|
    ensures forall i :: 0 <= i < |timings| ==> steps[i] == PlayingStep(timings[i])
  {
    if |timings| == 0 then [] else [PlayingStep(timings[0])] + PlayingSteps(timings[1..])
  }

  function ResumedNotes(id: EntryId, timings: seq<Timing>): (ns: seq<Notification>)
    ensures |ns| == |timings|
    ensures forall i :: 0 <= i < |timings| ==> ns[i] == Resumed(id, timings[i])
  {
    if |timings| == 0 then [] else [Resumed(id, timings[0])] + ResumedNotes(id, timings[1..])
  }

  /** Once the loaded stage has started, every playing event is a resume. */
  lemma {:induction false} ResumesOnly(s: PlayerState, cfg: Config, timings: seq<Timing>)
    requires s.loaded == Playing(Transition) && s.transition.started && s.entry.Some?
    ensures var t := Run(s, cfg, PlayingSteps(timings));
            && t.notes == s.notes + ResumedNotes(s.entry.value.id, timings)
            && t.loaded == s.loaded && t.entry == s.entry && t.transition == s.transition
            && t.stop == s.stop
    decreases |timings|
  {
    if |timings| > 0 {
      var s1 := PlayingEvent(s, timings[0]);
      assert PlayingSteps(timings)[1..] == PlayingSteps(timings[1..]);
      ResumesOnly(s1, cfg, timings[1..]);
    }
  }

  /** However many playing events reach a fresh transition, started_transition
      is fired exactly once, by the first, and the others are resumes. */
  lemma StartedTransitionOnce(s: PlayerState, cfg: Config, timings: seq<Timing>)
    requires s.loaded == Playing(Transition) && !s.transition.started && s.entry.Some?
    requires |timings| >= 1
    ensures var t := Run(s, cfg, PlayingSteps(timings));
            && t.notes == s.notes + [StartedTransition(s.entry.value.id)]
                          + ResumedNotes(s.entry.value.id, timings[1..])
            && t.transition.started && t.song == s.song && t.stop == s.stop
  {
    var s1 := PlayingEvent(s, timings[0]);
    assert PlayingSteps(timings)[1..] == PlayingSteps(timings[1..]);
    ResumesOnly(s1, cfg, timings[1..]);
    var t := Run(s1, cfg, PlayingSteps(timings[1..]));
    assert t.song == s.song by {
      ResumedSongUnchanged(s1, cfg, timings[1..]);
    }
  }

  lemma {:induction false} ResumedSongUnchanged(s: PlayerState, cfg: Config, timings: seq<Timing>)
    requires s.loaded == Playing(Transition) && s.transition.started && s.entry.Some?
    ensures Run(s, cfg, PlayingSteps(timings)).song == s.song
    decreases |timings|
  {
    if |timings| > 0 {
      assert PlayingSteps(timings)[1..] == PlayingSteps(timings[1..]);
      ResumedSongUnchanged(PlayingEvent(s, timings[0]), cfg, timings[1..]);
    }
  }

  // ---------------------------------------------------------------------------
  // A whole entry

  lemma RunTwo(s: PlayerState, cfg: Config, a: Step, b: Step)
    ensures Run(s, cfg, [a, b]) == Apply(Apply(s, cfg, a), cfg, b)
  {
    var s1 := Apply(s, cfg, a);
    assert [a, b][1..] == [b];
    assert Run(s1, cfg, [b]) == Apply(s1, cfg, b) by {
      assert [b][1..] == [];
    }
  }

  lemma RunOne(s: PlayerState, cfg: Config, a: Step)
    ensures Run(s, cfg, [a]) == Apply(s, cfg, a)
  {
    assert [a][1..] == [];
  }

  lemma RunThree(s: PlayerState, cfg: Config, a: Step, b: Step, c: Step)
    ensures Run(s, cfg, [a, b, c]) == Apply(Apply(Apply(s, cfg, a), cfg, b), cfg, c)
  {
    var s1 := Apply(s, cfg, a);
    var s2 := Apply(s1, cfg, b);
    assert [a, b, c][1..] == [b, c];
    assert [b, c][1..] == [c];
    assert Run(s2, cfg, [c]) == Apply(s2, cfg, c) by {
      assert [c][1..] == [];
    }
    assert Run(s1, cfg, [b, c]) == Run(s2, cfg, [c]);
  }

  /** Running two lists of steps one after the other is running their concatenation. */
  lemma {:induction false} RunAppend(s: PlayerState, cfg: Config, a: seq<Step>, b: seq<Step>)
    ensures Run(s, cfg, a + b) == Run(Run(s, cfg, a), cfg, b)
    decreases |a|
  {
    if |a| > 0 {
      assert (a + b)[1..] == a[1..] + b;
      RunAppend(Apply(s, cfg, a[0]), cfg, a[1..], b);
    } else {
      assert a + b == b;
    }
  }

  /** A fresh transition starting and ending: started_transition is fired and
      the song is scheduled. */
  lemma TransitionPhase(u: PlayerState, cfg: Config, t1: Timing)
    requires u.loaded == Playing(Transition) && !u.transition.started && u.entry.Some?
    ensures var w := Run(u, cfg, [PlayingStep(t1), EndReachedStep]);
            && w.notes == u.notes + [StartedTransition(u.entry.value.id)]
            && w.actions == u.actions + [ScheduledPlay(Song)]
            && w.stop == u.stop && w.errors == u.errors
            && w.entry == u.entry && w.song == u.song
  {
    RunTwo(u, cfg, PlayingStep(t1), EndReachedStep);
    PlayingStartsTransition(u, t1);
    EndOfTransition(PlayingEvent(u, t1));
  }

  /** The scheduled play of the song, the song starting and ending:
      started_song then finished are fired and the entry is cleared. */
  lemma SongPhase(u: PlayerState, cfg: Config, t2: Timing)
    requires u.entry.Some? && !u.song.started
    ensures var w := Run(u, cfg, [PlayStep(Song), PlayingStep(t2), EndReachedStep]);
            && w.notes == u.notes + [StartedSong(u.entry.value.id), Finished(u.entry.value.id)]
            && w.actions == u.actions && w.stop == u.stop && w.errors == u.errors
            && w.entry == None && w.loaded == Playing(Song)
  {
    RunThree(u, cfg, PlayStep(Song), PlayingStep(t2), EndReachedStep);
    var u4 := PlayStage(u, cfg, Song);
    var u5 := PlayingEvent(u4, t2);
    PlayingStartsSong(u4, t2);
    EndOfSong(u5);
  }

  /** Playing the song of an entry whose song has not started, then its
      playing event: started_song is the only callback. */
  lemma SongWithoutTransition(u: PlayerState, cfg: Config, t: Timing)
    requires u.entry.Some? && !u.song.started
    ensures Run(u, cfg, [PlayStep(Song), PlayingStep(t)]).notes
            == u.notes + [StartedSong(u.entry.value.id)]
  {
    RunTwo(u, cfg, PlayStep(Song), PlayingStep(t));
    PlayingStartsSong(PlayStage(u, cfg, Song), t);
  }

  /** The order started_transition before started_song is a property of the
      protocol, not of the commands: `play("song")` given directly after an
      entry is set starts the song with no transition seen. */
  lemma SongPlayedDirectly(s: PlayerState, cfg: Config, e: PlaylistEntry, files: set<Path>,
                           p: Instrumental.Probe, t: Timing)
    requires SongPath(cfg, e) in files
    ensures Run(s, cfg, [SetEntry(e, files, p), PlayStep(Song), PlayingStep(t)]).notes
            == s.notes + [StartedSong(e.id)]
  {
    var a := [SetEntry(e, files, p)];
    var b := [PlayStep(Song), PlayingStep(t)];
    var u1 := Run(s, cfg, a);
    assert Run(s, cfg, [SetEntry(e, files, p), PlayStep(Song), PlayingStep(t)]) == Run(u1, cfg, b) by {
      assert a + b == [SetEntry(e, files, p), PlayStep(Song), PlayingStep(t)];
      RunAppend(s, cfg, a, b);
    }
    assert u1.entry == Some(e) && !u1.song.started && u1.notes == s.notes by {
      RunOne(s, cfg, SetEntry(e, files, p));
      ExistingSongFileStores(s, cfg, e, files, p);
      ExistingSongFilePlays(s, cfg, e, files, p);
    }
    SongWithoutTransition(u1, cfg, t);
  }

  /** The run of one entry: set it, the transition starts, ends, the scheduled
      play of the song runs, the song starts and ends. The owner sees exactly
      started_transition, started_song and finished for the entry, the only
      work scheduled is the song, no error is raised and the entry is
      cleared at the end. */
  lemma FullEntry(s: PlayerState, cfg: Config, e: PlaylistEntry, files: set<Path>,
                  p: Instrumental.Probe, t1: Timing, t2: Timing)
    requires SongPath(cfg, e) in files
    ensures var t := Run(s, cfg, [SetEntry(e, files, p), PlayingStep(t1), EndReachedStep,
                                  PlayStep(Song), PlayingStep(t2), EndReachedStep]);
            && t.notes == s.notes + [StartedTransition(e.id), StartedSong(e.id), Finished(e.id)]
            && t.actions == s.actions + [ScheduledPlay(Song)]
            && t.stop == s.stop && t.errors == s.errors
            && t.entry == None && t.loaded == Playing(Song)
  {
    var a := [SetEntry(e, files, p)];
    var b := [PlayingStep(t1), EndReachedStep];
    var c := [PlayStep(Song), PlayingStep(t2), EndReachedStep];
    var u1 := Run(s, cfg, a);
    var u2 := Run(u1, cfg, b);
    assert Run(s, cfg, [SetEntry(e, files, p), PlayingStep(t1), EndReachedStep,
                        PlayStep(Song), PlayingStep(t2), EndReachedStep]) == Run(u2, cfg, c) by {
      assert a + b + c == [SetEntry(e, files, p), PlayingStep(t1), EndReachedStep,
                           PlayStep(Song), PlayingStep(t2), EndReachedStep];
      RunAppend(s, cfg, a + b, c);
      RunAppend(s, cfg, a, b);
    }
    assert && u1.notes == s.notes && u1.actions == s.actions && u1.stop == s.stop
           && u1.errors == s.errors && u1.entry == Some(e) && u1.loaded == Playing(Transition)
           && !u1.transition.started && !u1.song.started by {
      RunOne(s, cfg, SetEntry(e, files, p));
      ExistingSongFileStores(s, cfg, e, files, p);
      ExistingSongFilePlays(s, cfg, e, files, p);
    }
    TransitionPhase(u1, cfg, t1);
    SongPhase(u2, cfg, t2);
    assert s.notes + [StartedTransition(e.id)] + [StartedSong(e.id), Finished(e.id)]
           == s.notes + [StartedTransition(e.id), StartedSong(e.id), Finished(e.id)];
  }
}
