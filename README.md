# Dakara player: playback state machines and font loader in Dafny

This project models the decision logic of the Dakara karaoke player (VLC flavour)
and proves properties about it. It has three parts.

* **`MediaPlayerVlc`**, the current playback state machine (`media_player.dfy`,
  properties in `media_player_properties.dfy`).
  - **State.** The player holds the current playlist entry, and one record per
    stage (transition, song) with its media, a "started" flag and the audio track
    to select. It also holds the stop flag and error queue it shares with its
    owner, and the callback registry.
  - **Behaviour.** It answers four engine events (end reached, playing, paused,
    error) and three commands (`set_playlist_entry`, `pause`, `play`). It works
    out which stage the engine has loaded by asking `is_playing_this` for
    transition, then song, then idle.
  - **Supporting modules.** The instrumental resolver of `manage_instrumental` is
    in `instrumental.dfy`. Parsing and checking the VLC version is in
    `vlc_version.dfy`.
* **`VlcPlayer`**, the earlier player (`vlc_player.dfy`, properties in
  `vlc_player_properties.dfy`).
  - **State.** An `in_transition` flag, the playing entry's id and the song media
    waiting for the transition to end.
  - **Behaviour.** Idempotent pause and resume, and the seven callback setters.
  - **Supporting modules.** Background resolution with its fallbacks is in
    `backgrounds.dfy`. `mrl_to_path` is in `mrl.dfy`.
* **The font loader** (`font_loader.dfy`, properties in
  `font_loader_properties.dfy`).
  - **Platform dispatch.** `get_font_loader_class` chooses the loader for the
    platform.
  - **Linux loader.** `FontLoaderLinux` installs a font by a symbolic link in
    `~/.fonts`, unless the font is already in `/usr/share/fonts` or in `~/.fonts`.
    It records every link in `fonts_loaded`, and removes them again on `unload`.

Each stateful component has the same shape.

* **Specification.** A datatype holds the whole state. A pure function per
  operation maps one state to the next.
* **Class.** A class updates the same fields in place. Each method is proved to
  produce exactly its function's new state.
* **Properties.** These are lemmas about the functions. They cover single
  operations, invariants kept by every run of steps, and whole scenarios, such as
  one entry played from start to end, or a font loaded and then unloaded.

The environment is reduced to values:

* **Engine.** The VLC engine is reduced to the stage it has loaded, whether it is
  paused, and a trace of the calls made on it.
* **Recorded traces.** Callbacks fired, threads started (`create_thread`),
  text-screen requests, `is_playing_this` questions and existence checks are each
  appended to their own trace.
* **Filesystem.** It is a set of existing files, or for the font loader a map from
  paths to regular files, directories and symbolic links.
* **Other inputs.** Timings, error messages from the engine and the result of
  instrumental lookups are parameters.

`paths.dfy` gives `os.path.join` and `basename`. `results.dfy` gives `Option` and
`Result`.

## Model

The lemmas about `load_font` are stated for any pair of looked-up paths: the
system path `sys` and the user path `user`. `load_font` itself looks in
`FontLoader.SystemFontPath` and `FontLoader.UserFontPath`, which
`FontLoaderProperties.FontPathsOfFile` describes.

| member | source | states |
|---|---|---|
| MediaPlayer.PlayTarget | tests/unit/test_media_player_vlc.py:1117-1126 | `play` accepts exactly "transition", "song" and "idle", each naming its own stage; any other name is the ValueError "unexpected action to play" carrying the name |
| MediaPlayer.TextTarget | tests/unit/test_media_player_vlc.py:1100-1115 | `generate_text` accepts exactly "transition" and "idle" (never the song); any other name is the ValueError carrying the name |
| MediaPlayer.MediaPlayerVlc.constructor | tests/unit/test_media_player_vlc.py:34-47 | a new player keeps its configuration, has no entry, empty stage records, no callback and no error, and the stop flag is clear |
| MediaPlayer.MediaPlayerVlc.SetCallback | tests/unit/test_media_player_vlc.py:158-173 | the registry maps the name to the given handler afterwards, and nothing else in the player changes |
| MediaPlayer.MediaPlayerVlc.IsPlayingThis | tests/unit/test_media_player_vlc.py:641-677 | answers whether the engine has the given stage loaded, and records the question |
| MediaPlayer.MediaPlayerVlc.RaiseFatal | tests/unit/test_media_player_vlc.py:732-757 | an exception in an event handler sets the stop flag and queues the error, and nothing else changes |
| MediaPlayer.MediaPlayerVlc.Emit | tests/unit/test_media_player_vlc.py:641-677 | a callback fired is appended to the callback trace, and nothing else changes |
| MediaPlayer.MediaPlayerVlc.GenerateText | tests/unit/test_media_player_vlc.py:1100-1115 | an invalid name is rejected with no text generated and no state change; a valid one asks for exactly that text screen |
| MediaPlayer.MediaPlayerVlc.Play | tests/unit/test_media_player_vlc.py:1117-1126 | an invalid name is rejected with the engine untouched; a valid one sets that stage's media and plays it, building the idle screen's text first |
| MediaPlayer.MediaPlayerVlc.ManageInstrumental | tests/unit/test_media_player_vlc.py:441-621 | the song record gets the instrumental file as its attached audio and the track decided by the resolver, and the lookup is recorded |
| MediaPlayer.MediaPlayerVlc.StoreEntry | tests/unit/test_media_player_vlc.py:388-439 | the entry is stored, the transition media is the transition background and the song media is the song file, both not yet started |
| MediaPlayer.MediaPlayerVlc.StartEntry | tests/unit/test_media_player_vlc.py:388-439 | after the entry is stored the transition text is asked for, the instrumental lookup is made only if the entry asks for it, and the transition is played |
| MediaPlayer.MediaPlayerVlc.SetPlaylistEntry | tests/unit/test_media_player_vlc.py:347-439 | the new state is the one `set_playlist_entry` specifies for a missing or an existing song file |
| MediaPlayer.MediaPlayerVlc.EndSong | tests/unit/test_media_player_vlc.py:679-704 | the end of the song fires finished(id) and clears the entry and both stage records |
| MediaPlayer.MediaPlayerVlc.EndTransition | tests/unit/test_media_player_vlc.py:641-677 | the end of the transition schedules the song when an entry is set; with no entry there is no song to announce and the handler fails: stop flag set, `NoEntry` queued |
| MediaPlayer.MediaPlayerVlc.HandleEndReached | tests/unit/test_media_player_vlc.py:641-757 | the new state is the one the end-reached dispatch specifies, including the failure of the transition and song branches when no entry is set |
| MediaPlayer.MediaPlayerVlc.StartTransition | tests/unit/test_media_player_vlc.py:824-861 | the transition is marked started and started_transition(id) fires |
| MediaPlayer.MediaPlayerVlc.StartSong | tests/unit/test_media_player_vlc.py:864-938 | the song is marked started, its audio track selected when one was chosen, and started_song(id) fires |
| MediaPlayer.MediaPlayerVlc.HandleFirstPlaying | tests/unit/test_media_player_vlc.py:824-991 | a first playing event starts the transition or the song, does nothing on idle, and is fatal on anything else |
| MediaPlayer.MediaPlayerVlc.HandlePlaying | tests/unit/test_media_player_vlc.py:792-991 | the new state is the one the playing-event dispatch specifies |
| MediaPlayer.MediaPlayerVlc.HandlePaused | tests/unit/test_media_player_vlc.py:993-1019 | the new state is the one `handle_paused` specifies |
| MediaPlayer.MediaPlayerVlc.HandleEncounteredError | tests/unit/test_media_player_vlc.py:759-790 | the new state is the one `handle_encountered_error` specifies |
| MediaPlayer.MediaPlayerVlc.Pause | tests/unit/test_media_player_vlc.py:623-639 | the new state is the one `pause` specifies |
| MediaPlayerProperties.MissingSongFile | tests/unit/test_media_player_vlc.py:347-386 | with no song file, the entry and both stage records are unchanged and nothing is played or generated; the file is checked exactly once; could_not_play(id) then error(id, "File not found") are fired |
| MediaPlayerProperties.ExistingSongFileStarts | tests/unit/test_media_player_vlc.py:388-439 | with a song file, the file is looked up once and the entry is then started |
| MediaPlayerProperties.ExistingSongFileStores | tests/unit/test_media_player_vlc.py:388-439 | with a song file, the entry is stored, the transition media is the transition background, the song media is the song file, neither stage has started, and the transition text is asked for |
| MediaPlayerProperties.ExistingSongFilePlays | tests/unit/test_media_player_vlc.py:388-439 | with a song file, the transition and only it is played; no callback fires, nothing is scheduled and no error is raised |
| MediaPlayerProperties.ExistingSongFileInstrumental | tests/unit/test_media_player_vlc.py:388-439 | with a song file, the instrumental lookup happens exactly when the entry asks for it; otherwise the song record is the bare song file |
| MediaPlayerProperties.EndOfTransition | tests/unit/test_media_player_vlc.py:641-677 | the end of the transition of an entry asks only whether the transition is loaded and schedules the song; no callback fires and nothing else changes |
| MediaPlayerProperties.EndOfTransitionWithoutEntry | tests/unit/test_media_player_vlc.py:641-677 | the end of a transition with no entry set sets the stop flag and queues a missing-entry error; nothing is scheduled |
| MediaPlayerProperties.EndOfSong | tests/unit/test_media_player_vlc.py:679-704 | the end of the song asks about the transition then the song, fires finished(id), clears the entry and both stage records, and schedules nothing |
| MediaPlayerProperties.EndOfSongWithoutEntry | tests/unit/test_media_player_vlc.py:679-704 | the end of the song with no entry set sets the stop flag and queues a missing-entry error, and fires nothing |
| MediaPlayerProperties.EndOfIdle | tests/unit/test_media_player_vlc.py:706-730 | the end of the idle screen asks transition, song, idle and schedules the idle screen again; nothing else changes |
| MediaPlayerProperties.EndOfOther | tests/unit/test_media_player_vlc.py:732-757 | an end matching no stage sets the stop flag and queues exactly one InvalidState, with no callback |
| MediaPlayerProperties.PlayingResumes | tests/unit/test_media_player_vlc.py:792-822 | a playing event on a stage that has already started fires only resumed(id, timing); no record, engine call, entry or error changes |
| MediaPlayerProperties.PlayingStartsTransition | tests/unit/test_media_player_vlc.py:824-861 | the first playing event of the transition marks it started, leaves the song untouched and fires only started_transition(id) |
| MediaPlayerProperties.PlayingStartsSong | tests/unit/test_media_player_vlc.py:864-938 | the first playing event of the song marks it started, selects its audio track exactly when one was chosen, and fires only started_song(id) |
| MediaPlayerProperties.PlayingOnIdle | tests/unit/test_media_player_vlc.py:940-972 | the idle screen playing changes nothing but the probes transition, song, transition, song, idle; no callback |
| MediaPlayerProperties.PlayingOnOther | tests/unit/test_media_player_vlc.py:974-991 | a playing event matching no stage sets the stop flag and queues exactly one InvalidState |
| MediaPlayerProperties.PlayingWithoutEntry | tests/unit/test_media_player_vlc.py:792-938 | a playing event on the transition or the song with no entry set is fatal: stop flag, a missing-entry error, no callback, no record or engine change |
| MediaPlayerProperties.PausedAndErrorEvents | tests/unit/test_media_player_vlc.py:759-790 | an engine error fires error(id, "Unable to play current song") and then asks for a skip; a paused event fires paused(id, timing) (lines 993-1019) |
| MediaPlayerProperties.PauseNoOp | tests/unit/test_media_player_vlc.py:623-639 | while idle is loaded, or when the engine already has the requested state, pause only asks which stage is loaded and never calls the engine |
| MediaPlayerProperties.PauseIdempotent | tests/unit/test_media_player_vlc.py:623-639 | a second identical pause request calls the engine no more; outside idle, the engine's pause state is the last request |
| MediaPlayerProperties.StepKeepsConsistent | tests/unit/test_media_player_vlc.py:347-439 | every command or event keeps the stage records consistent with the entry (no entry: no media; an entry: transition background and song media set); traces only grow; the stop flag is never cleared |
| MediaPlayerProperties.SetEntryKeepsConsistent | tests/unit/test_media_player_vlc.py:347-439 | `set_playlist_entry` keeps that consistency and only extends the traces |
| MediaPlayerProperties.PlayKeepsConsistent | tests/unit/test_media_player_vlc.py:1117-1126 | `play` keeps that consistency and only extends the traces |
| MediaPlayerProperties.PauseKeepsConsistent | tests/unit/test_media_player_vlc.py:623-639 | `pause` keeps that consistency and only extends the traces |
| MediaPlayerProperties.EndReachedKeepsConsistent | tests/unit/test_media_player_vlc.py:641-757 | an end-reached event keeps that consistency and only extends the traces |
| MediaPlayerProperties.PlayingKeepsConsistent | tests/unit/test_media_player_vlc.py:792-991 | a playing event keeps that consistency and only extends the traces |
| MediaPlayerProperties.PausedKeepsConsistent | tests/unit/test_media_player_vlc.py:993-1019 | a paused event keeps that consistency and only extends the traces |
| MediaPlayerProperties.ErrorKeepsConsistent | tests/unit/test_media_player_vlc.py:759-790 | an engine error keeps that consistency and only extends the traces |
| MediaPlayerProperties.RunKeepsConsistent | tests/unit/test_media_player_vlc.py:347-1019 | any sequence of commands and events from a consistent state stays consistent and only extends the traces |
| MediaPlayerProperties.InitialStateConsistent | tests/unit/test_media_player_vlc.py:347-1019 | the player starts consistent, so every run from the start is consistent |
| MediaPlayerProperties.ResumesOnly | tests/unit/test_media_player_vlc.py:792-822 | once the transition has started, any number of playing events fire only resumed(id, timing), one per event, in order |
| MediaPlayerProperties.StartedTransitionOnce | tests/unit/test_media_player_vlc.py:824-861 | however many playing events reach a fresh transition, started_transition fires once, followed only by resumes |
| MediaPlayerProperties.ResumedSongUnchanged | tests/unit/test_media_player_vlc.py:824-861 | playing events on a started transition never touch the song record |
| MediaPlayerProperties.RunAppend | tests/unit/test_media_player_vlc.py:347-1019 | running two lists of steps one after the other is running their concatenation |
| MediaPlayerProperties.TransitionPhase | tests/unit/test_media_player_vlc.py:388-677 | from a freshly loaded transition with an entry, its first playing event and its end fire only started_transition(id) and schedule only the song; the entry, the song record, the stop flag and the errors are untouched |
| MediaPlayerProperties.SongPhase | tests/unit/test_media_player_vlc.py:679-704 | the scheduled song playing, starting and ending: started_song(id) then finished(id) are fired and the entry is cleared |
| MediaPlayerProperties.FullEntry | tests/unit/test_media_player_vlc.py:388-704 | a whole entry fires exactly started_transition, started_song, finished with its id; it schedules exactly the song; the stop flag and error queue are untouched; the entry is cleared at the end |
| MediaPlayerProperties.SongPlayedDirectly | tests/unit/test_media_player_vlc.py:864-901 | `play("song")` given right after an entry is set, then a playing event, fires started_song with no started_transition before it; the order holds only when the song is played as scheduled by the transition's end |
| Instrumental.Resolve | tests/unit/test_media_player_vlc.py:441-621 | A found instrumental file is attached and its track count becomes the audio track; the embedded tracks are never listed. Attaching refused: no track. No file: the track count is never asked and the second embedded track id is chosen when there are at least two, else none |
| Instrumental.BranchMatchesOutcome | tests/unit/test_media_player_vlc.py:441-621 | a track is selected exactly in the two successful branches, and a file attached exactly in the first |
| Instrumental.ResolverExamples | tests/unit/test_media_player_vlc.py:441-621 | the four tests' probes give track 2, none, 99 (tracks `[0, 99, 42]`), none |
| VlcVersion.LeadingDigits | tests/unit/test_media_player_vlc.py:211-235 | the length of the longest run of digits at the start of a string |
| VlcVersion.ParseVersion | tests/unit/test_media_player_vlc.py:211-246 | a version is found exactly when the string starts with a digit, and then has at least one component; otherwise VersionNotFound |
| VlcVersion.ParseFormatRoundTrip | tests/unit/test_media_player_vlc.py:211-235 | any dotted version, written out and followed by a code name, parses back to itself |
| VlcVersion.LongVersionWithCodeName | tests/unit/test_media_player_vlc.py:211-235 | "3.0.11.1 Vetinari" parses to 3.0.11.1 and passes the check |
| VlcVersion.CheckVersion | tests/unit/test_media_player_vlc.py:248-272 | a version passes, unchanged, exactly when its major number is at least 3; otherwise VlcTooOld carrying it |
| VlcVersion.CheckVersionIsComparison | tests/unit/test_media_player_vlc.py:248-272 | a version is rejected exactly when it is less than 3.0.0 in dotted-number order, missing components counting as 0 |
| VlcVersion.CheckEngineVersion | tests/unit/test_media_player_vlc.py:237-272 | VersionNotFound exactly when the version string has no version; success only with the parsed version and a major of at least 3 |
| VlcVersion.VersionExamples | tests/unit/test_media_player_vlc.py:237-272 | "none" has no version; 2.0.0 is too old; 3.0.0 passes |
| VlcPlayer.VlcPlayer.constructor | dakara_player_vlc/tests/tests_vlc_player.py:28-76 | a new player keeps its configuration, is not in a transition, has no playing id and no waiting song, and is well formed |
| VlcPlayer.VlcPlayer.SetStartedTransitionCallback | dakara_player_vlc/tests/tests_vlc_player.py:95-122 | stores the handler in its own slot and changes nothing else |
| VlcPlayer.VlcPlayer.SetStartedSongCallback | dakara_player_vlc/tests/tests_vlc_player.py:95-122 | stores the handler in its own slot and changes nothing else |
| VlcPlayer.VlcPlayer.SetCouldNotPlayCallback | dakara_player_vlc/tests/tests_vlc_player.py:95-122 | stores the handler in its own slot and changes nothing else |
| VlcPlayer.VlcPlayer.SetFinishedCallback | dakara_player_vlc/tests/tests_vlc_player.py:95-122 | stores the handler in its own slot and changes nothing else |
| VlcPlayer.VlcPlayer.SetPausedCallback | dakara_player_vlc/tests/tests_vlc_player.py:95-122 | stores the handler in its own slot and changes nothing else |
| VlcPlayer.VlcPlayer.SetResumedCallback | dakara_player_vlc/tests/tests_vlc_player.py:95-122 | stores the handler in its own slot and changes nothing else |
| VlcPlayer.VlcPlayer.SetErrorCallback | dakara_player_vlc/tests/tests_vlc_player.py:95-122 | stores the handler in its own slot and changes nothing else |
| VlcPlayer.VlcPlayer.PlayMediaOn | dakara_player_vlc/tests/tests_vlc_player.py:166-239 | the engine plays the media and is no longer paused |
| VlcPlayer.VlcPlayer.Enter | dakara_player_vlc/tests/tests_vlc_player.py:166-239 | the transition is on for the entry, its id is the one playing, its song waits, and the transition text is asked for |
| VlcPlayer.VlcPlayer.StartEntry | dakara_player_vlc/tests/tests_vlc_player.py:166-239 | the entry becomes the one playing, its song waits, and the transition text is asked for; the transition background is played and started_transition(id) fired |
| VlcPlayer.VlcPlayer.PlayPlaylistEntry | dakara_player_vlc/tests/tests_vlc_player.py:166-274 | the new state is the one `play_playlist_entry` specifies for a missing or an existing song file |
| VlcPlayer.VlcPlayer.PlayIdleScreen | dakara_player_vlc/tests/tests_vlc_player.py:124-164 | the idle text is asked for and the idle background played |
| VlcPlayer.VlcPlayer.EndReachedCallback | dakara_player_vlc/tests/tests_vlc_player.py:276-342 | the new state is the one `end_reached_callback` specifies |
| VlcPlayer.VlcPlayer.EncounteredErrorCallback | dakara_player_vlc/tests/tests_vlc_player.py:344-361 | the new state is the one `encountered_error_callback` specifies |
| VlcPlayer.VlcPlayer.SetPause | dakara_player_vlc/tests/tests_vlc_player.py:363-422 | the new state is the one `set_pause` specifies, and the pause state is the request |
| VlcPlayerProperties.MissingSongFile | dakara_player_vlc/tests/tests_vlc_player.py:241-274 | with no song file, the whole state is unchanged except that the file was checked once and could_not_play(id) was fired; nothing is played and no started callback fires |
| VlcPlayerProperties.ExistingSongFile | dakara_player_vlc/tests/tests_vlc_player.py:166-239 | with a song file, the transition is on for that entry with its song waiting; only the transition background is played; started_transition(id) is fired |
| VlcPlayerProperties.EndReachedCases | dakara_player_vlc/tests/tests_vlc_player.py:276-342 | In a transition: the flag is cleared, play_media(media_pending) is scheduled and started_song(playing_id) fires. Idle: play_idle_screen is scheduled and nothing else changes. Otherwise: finished(playing_id) fires and nothing else changes |
| VlcPlayerProperties.ErrorResets | dakara_player_vlc/tests/tests_vlc_player.py:344-361 | an engine error fires error(playing_id, message), then forgets the playing id and leaves the transition |
| VlcPlayerProperties.PauseIdempotent | dakara_player_vlc/tests/tests_vlc_player.py:363-505 | a second identical pause or resume request changes nothing at all; the pause state is always the last request |
| VlcPlayerProperties.DoublePauseAndResume | dakara_player_vlc/tests/tests_vlc_player.py:424-505 | pause, pause, resume, resume fires exactly paused then resumed, and pauses and resumes the engine once each |
| VlcPlayerProperties.StepKeepsWellFormed | dakara_player_vlc/tests/tests_vlc_player.py:166-361 | every command or event keeps the transition flag only with a playing id and a waiting song, every scheduled song play with a media, and every started_song with an id |
| VlcPlayerProperties.RunKeepsWellFormed | dakara_player_vlc/tests/tests_vlc_player.py:166-361 | any sequence of commands and events keeps that invariant |
| VlcPlayerProperties.EveryRunWellFormed | dakara_player_vlc/tests/tests_vlc_player.py:166-361 | every run from a fresh player keeps that invariant |
| VlcPlayerProperties.FullEntry | dakara_player_vlc/tests/tests_vlc_player.py:166-342 | The transition is on while its screen plays. Its end schedules the song and clears the flag. The engine then plays exactly the transition background and the song. The whole entry fires started_transition, started_song, finished with its id |
| Backgrounds.ResolveBackground | dakara_player_vlc/tests/tests_vlc_player.py:508-622 | No custom directory: the bundled default. An existing custom file always wins. A custom directory is used only for files that exist in it. Its default name is used when the custom name is absent or missing |
| Backgrounds.FirstExisting | dakara_player_vlc/tests/tests_vlc_player.py:508-622 | the candidate returned exists and no earlier candidate does; none only when no candidate exists |
| Backgrounds.ResolveIsFirstExisting | dakara_player_vlc/tests/tests_vlc_player.py:508-622 | a background is the first existing candidate (custom name, then default name in the custom directory), else the bundled default |
| Backgrounds.BackgroundExamples | dakara_player_vlc/tests/tests_vlc_player.py:522-622 | the five tests: no configuration, an existing or missing custom directory, existing or missing custom names |
| Mrl.MrlToPath | dakara_player_vlc/tests/tests_vlc_player.py:625-634 | a path results exactly for a `file://` locator; the locator written for any path (not itself "/X:...") reads back as that path; a locator without escapes reads as its text after the scheme, less the slash before a drive letter |
| Mrl.PathToMrl | tests/unit/test_media_player_vlc.py:144-147 | `path_to_mrl` always gives a `file://` locator; that it reads back is stated by `Mrl.MrlToPath` |
| Mrl.DecodeEncode | dakara_player_vlc/tests/tests_vlc_player.py:625-634 | percent-decoding undoes percent-encoding on every string |
| Mrl.PathMrlReadsBack | dakara_player_vlc/tests/tests_vlc_player.py:625-634 | the text after the scheme of a path's locator decodes back to the path (paths not themselves of the form "/X:...") |
| Mrl.PlainMrl | dakara_player_vlc/tests/tests_vlc_player.py:632 | "file:///a/b/c" gives "/a/b/c" |
| Mrl.EscapedSpaceMrl | dakara_player_vlc/tests/tests_vlc_player.py:633 | "file:///a/b%20b/c" gives "/a/b b/c" |
| Mrl.DriveLetterMrl | dakara_player_vlc/tests/tests_vlc_player.py:634 | "file:///C:/a/b" gives "C:/a/b" |
| FontLoader.GetFontLoaderClass | tests/unit/test_font_loader.py:15-38 | the Linux loader exactly for platforms starting with "linux", the Windows loader exactly for "win32", otherwise NotImplementedError naming the platform |
| FontLoader.PlatformExamples | tests/unit/test_font_loader.py:19-38 | "linux", "win32" and "other" as in the test |
| FontLoader.FontLoaderLinux.constructor | tests/unit/test_font_loader.py:45-60 | a new loader has no font loaded |
| FontLoader.FontLoaderLinux.MakeSymlink | tests/unit/test_font_loader.py:291-338 | `os.symlink`: fails on a taken path; otherwise the link exists and is recorded in `fonts_loaded` |
| FontLoader.FontLoaderLinux.LoadFont | tests/unit/test_font_loader.py:116-338 | the new state and error are those `load_font` specifies |
| FontLoader.FontLoaderLinux.LoadFromList | tests/unit/test_font_loader.py:99-114 | the same as `load_font` on each path in turn, stopping at an error |
| FontLoader.FontLoaderLinux.Load | tests/unit/test_font_loader.py:340-362 | `~/.fonts` is created unless it exists (tolerated), then the resource fonts are loaded |
| FontLoader.FontLoaderLinux.UnloadFont | tests/unit/test_font_loader.py:379-425 | the new state and error are those `unload_font` specifies |
| FontLoader.FontLoaderLinux.Unload | tests/unit/test_font_loader.py:364-377 | the same as `unload_font` on each path of the list as it was before, in order, and no error escapes |
| FontLoader.IndexOf | tests/unit/test_font_loader.py:379-403 | the position of the first occurrence of a path: it holds the path and no earlier position does |
| FontLoader.RemoveFirst | tests/unit/test_font_loader.py:379-403 | `list.remove`: the first occurrence of a loaded path is cut out and the rest keeps its order (hence one occurrence fewer); a path not loaded leaves the list as it was |
| FontLoader.UnloadNeverFails | tests/unit/test_font_loader.py:364-377 | unloading the recorded fonts, even while the list shrinks, never meets a path to remove that is no longer recorded |
| FontLoaderProperties.FontPathsKeepName | tests/unit/test_font_loader.py:116-190 | the system and user paths looked at carry the font's own file name |
| FontLoaderProperties.FontPathsOfFile | tests/unit/test_font_loader.py:116-190 | a font file "dir/name" is looked for as "/usr/share/fonts/name" and as "~/.fonts/name" in the home directory |
| FontLoaderProperties.FontInSystem | tests/unit/test_font_loader.py:116-150 | a font in the system directory: only that file is checked; no link, no unlink; nothing recorded |
| FontLoaderProperties.FontInUser | tests/unit/test_font_loader.py:152-190 | a font in the user directory: the system file then the user file are checked; no link check, no link, no unlink; nothing recorded |
| FontLoaderProperties.ValidLinkKept | tests/unit/test_font_loader.py:192-242 | a valid link in the user directory: the link is checked, read and its target checked; nothing is changed or recorded |
| FontLoaderProperties.DeadLinkReplaced | tests/unit/test_font_loader.py:244-289 | a dead link is unlinked, then a link to the font is made in its place, and `fonts_loaded` grows by exactly that path |
| FontLoaderProperties.FontInstalled | tests/unit/test_font_loader.py:291-338 | a font found nowhere: exactly the checks system file, user file, user link, then one link into `~/.fonts`, and `fonts_loaded` grows by exactly that path; the link fails only on a directory in the way |
| FontLoaderProperties.LoadFontCallsGrow | tests/unit/test_font_loader.py:116-338 | `load_font` only appends to the recorded filesystem calls, and makes at least one |
| FontLoaderProperties.LoadFontOutcomes | tests/unit/test_font_loader.py:116-338 | `load_font` has three outcomes: nothing to do when the font is available; a link made and recorded; the user path taken |
| FontLoaderProperties.LoadFontTwice | tests/unit/test_font_loader.py:116-338 | loading an existing font a second time installs and records nothing more |
| FontLoaderProperties.LoadFontKeepsLinks | tests/unit/test_font_loader.py:244-338 | after `load_font`, every recorded font is still a symbolic link |
| FontLoaderProperties.LoadListKeepsLinks | tests/unit/test_font_loader.py:99-114 | after `load_from_list`, every recorded font is still a symbolic link |
| FontLoaderProperties.LoadKeepsLinks | tests/unit/test_font_loader.py:340-362 | after `load`, every recorded font is still a symbolic link |
| FontLoaderProperties.LoadListExtends | tests/unit/test_font_loader.py:99-114 | `load_from_list` only appends to `fonts_loaded` |
| FontLoaderProperties.UnloadUnlinksInOrder | tests/unit/test_font_loader.py:364-377 | unloading a list unlinks each of its paths once, in its order |
| FontLoaderProperties.UnloadAll | tests/unit/test_font_loader.py:364-377 | `unload` unlinks every recorded font, in the original order, and raises nothing |
| FontLoaderProperties.UnloadRecordedHead | tests/unit/test_font_loader.py:379-403 | unloading the first of the recorded fonts, when it can be unlinked, removes it from the filesystem and leaves exactly the others recorded, with no error |
| FontLoaderProperties.TailUnlinkable | tests/unit/test_font_loader.py:364-377 | once the first of distinct recorded fonts is unlinked, every other one can still be unlinked |
| FontLoaderProperties.UnloadDistinctEmpties | tests/unit/test_font_loader.py:364-403 | when the recorded fonts are distinct and every one of them can be unlinked, unloading them raises nothing and leaves nothing recorded |
| FontLoaderProperties.UnloadDistinctRemoves | tests/unit/test_font_loader.py:364-403 | under the same conditions, exactly the recorded paths are gone from the filesystem and nothing else changes in it |
| FontLoaderProperties.InstallThenUnload | tests/unit/test_font_loader.py:291-403 | a font installed by `load_font` and then unloaded leaves the filesystem as it was and nothing recorded |

## Left out

- The VLC engine is reduced to its loaded stage and paused flag. Media creation, event attachment (`set_vlc_callback`), `libvlc_get_version` and `libvlc_errmsg` are not modelled. The error message and the version string are parameters.
- Threads: `create_thread` is recorded as a scheduled action and not run. The slow close of `exit_worker` and any cross-thread ordering are not modelled.
- The text generator and the background loader are recorded as requests only. The constructor's background and duration configuration (tests/unit/test_media_player_vlc.py:1021-1082) and `MediaPlayerVlc.load` are left out. The same holds for `check_kara_folder_path`, a single existence check.
- Log messages are left out. The branch each message marks is modelled (for example `Instrumental.Branch`).
- `Mrl.MrlToPath`: `normpath` is not applied. Percent-escapes decode to one character per escape, with no UTF-8 multi-byte sequences. A path of the form "/X:..." is excluded from the round trip of `Mrl.MrlToPath`, because the drive-letter rule strips its slash.
- The filesystem follows at most one level of symbolic link in `isfile` and `exists`. Parent directories are not required to exist for `os.symlink`.
- `FontLoaderWindows` is left out; it consists of console prompts and `input()`.
- The font loader's context manager is left out. Leaving it only calls `unload`, which is modelled.
- `load_from_resources_directory` is left out: its list of resource fonts is the `resources` parameter of `FontLoader.FontLoaderLinux.Load`.
- The integration tests of `play_idle_screen` with a real engine (dakara_player_vlc/tests/tests_vlc_player.py:124-164) are left out. Only the state change they imply is modelled.
- `MediaPlayerProperties.MissingSongFile`: the order could_not_play then error is chosen. The test checks both calls but not their order.
- `VlcPlayerProperties.MissingSongFile`: the test does not settle whether the earlier player also fires error for a missing song file, as `MediaPlayerVlc` does. Its error callback is a no-op there. The model fires could_not_play only.
- An event handler that needs the current entry while none is set is not covered by the tests: the end of the transition (its "Will play" message reads the song media, which is then unset), the end of the song, and the playing, paused and error events. The Python code then fails on the missing entry. The model treats that failure like the other handler exceptions: the stop flag is set and the `NoEntry` error is queued.
- The stop flag is only set, and the error queued, for the owner. What the owner does with them is not modelled. The model goes on handling engine events and `set_playlist_entry` after the flag is set.
- `skip()` after an engine error is recorded as a `SkipRequested` action and not run. The call is direct, not on a new thread.
- `Mrl.PathToMrl`: the encoding of `path_to_mrl` is chosen, not taken from the source. Every character outside the unreserved set of RFC 3986 and the separators '/' and ':' is percent-escaped, and a drive-letter path gets a slash in front, as in RFC 8089.
- The order started_transition before started_song is not a property of arbitrary command sequences: `play("song")` may be called directly (`MediaPlayerProperties.SongPlayedDirectly`). It is proved for the scheduled run of one entry (`MediaPlayerProperties.FullEntry`).
- `Instrumental.Resolve`: when the engine refuses to attach the instrumental file, whether the track count was asked first is not known; no contract states the queries of that branch.
