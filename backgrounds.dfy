/** Resolution of the idle and transition backgrounds of `VlcPlayer` from its
    configuration: a custom directory may be given, and in it custom file
    names. A background is the custom name in the custom directory when that
    file exists, else the default name in the custom directory when that file
    exists, else the default name in the bundled backgrounds directory. The
    filesystem is reduced to the set of files that exist. */
module Backgrounds {
  import opened Results
  import Paths

  type Path = Paths.Path

  const IdleBackgroundName: string := "idle.png"
  const TransitionBackgroundName: string := "transition.png"

  /** The `backgrounds` section of the configuration; every key is optional. */
  datatype BackgroundsConfig = BackgroundsConfig(
    directory: Option<Path>,
    idleName: Option<string>,
    transitionName: Option<string>)

  const NoBackgroundsConfig := BackgroundsConfig(None, None, None)

  /** One background: `defaultDir` is the bundled backgrounds directory. */
  function ResolveBackground(directory: Option<Path>, customName: Option<string>,
                             defaultName: string, defaultDir: Path, files: set<Path>): (r: Path)
    // without a custom directory, the bundled default
    ensures directory.None? ==> r == Paths.JoinPath(defaultDir, defaultName)
    // an existing custom file always wins
    ensures directory.Some? && customName.Some?
            && Paths.JoinPath(directory.value, customName.value) in files
            ==> r == Paths.JoinPath(directory.value, customName.value)
    // the custom directory is used only for files that exist in it
    ensures r != Paths.JoinPath(defaultDir, defaultName) ==> r in files && directory.Some?
    ensures directory.Some? && Paths.JoinPath(directory.value, defaultName) in files
            && (customName.None? || Paths.JoinPath(directory.value, customName.value) !in files)
            ==> r == Paths.JoinPath(directory.value, defaultName)
  {
    match directory
    case None => Paths.JoinPath(defaultDir, defaultName)
    case Some(dir) =>
      if customName.Some? && Paths.JoinPath(dir, customName.value) in files then
        Paths.JoinPath(dir, customName.value)
      else if Paths.JoinPath(dir, defaultName) in files then Paths.JoinPath(dir, defaultName)
      else Paths.JoinPath(defaultDir, defaultName)
  }

  function IdleBackground(cfg: BackgroundsConfig, defaultDir: Path, files: set<Path>): Path
  {
    ResolveBackground(cfg.directory, cfg.idleName, IdleBackgroundName, defaultDir, files)
  }

  function TransitionBackground(cfg: BackgroundsConfig, defaultDir: Path, files: set<Path>): Path
  {
    ResolveBackground(cfg.directory, cfg.transitionName, TransitionBackgroundName, defaultDir, files)
  }

  // ---------------------------------------------------------------------------
  // The same rule as a list of candidates in order of preference

  function Candidates(directory: Option<Path>, customName: Option<string>, defaultName: string)
    : seq<Path>
  {
    match directory
    case None => []
    case Some(dir) =>
      (if customName.Some? then [Paths.JoinPath(dir, customName.value)] else [])
      + [Paths.JoinPath(dir, defaultName)]
  }

  /** The first candidate that exists, if any. */
  function FirstExisting(candidates: seq<Path>, files: set<Path>): (r: Option<Path>)
    ensures r.Some? ==> r.value in files
    ensures r.Some? ==> exists i :: 0 <= i < |candidates| && candidates[i] == r.value
                                    && forall j :: 0 <= j < i ==> candidates[j] !in files
    ensures r.None? ==> forall i :: 0 <= i < |candidates| ==> candidates[i] !in files
  {
    if |candidates| == 0 then None
    else if candidates[0] in files then Some(candidates[0])
    else
      var r := FirstExisting(candidates[1..], files);
      assert r.Some? ==> exists i :: 0 <= i < |candidates| && candidates[i] == r.value
                                     && forall j :: 0 <= j < i ==> candidates[j] !in files by {
        if r.Some? {
          var k :| 0 <= k < |candidates[1..]| && candidates[1..][k] == r.value
                   && forall j :: 0 <= j < k ==> candidates[1..][j] !in files;
          assert candidates[k + 1] == r.value;
          assert forall j :: 0 <= j < k + 1 ==> candidates[j] !in files by {
            forall j | 0 <= j < k + 1 ensures candidates[j] !in files {
              if j > 0 { assert candidates[j] == candidates[1..][j - 1]; }
            }
          }
        }
      }
      r
  }

  /** The background is the first existing candidate, and the bundled default
      when none exists. */
  lemma ResolveIsFirstExisting(directory: Option<Path>, customName: Option<string>,
                               defaultName: string, defaultDir: Path, files: set<Path>)
    ensures ResolveBackground(directory, customName, defaultName, defaultDir, files)
            == match FirstExisting(Candidates(directory, customName, defaultName), files)
               case Some(p) => p
               case None => Paths.JoinPath(defaultDir, defaultName)
  {
    if directory.Some? && customName.Some? {
      var c := Candidates(directory, customName, defaultName);
      assert c[1..] == [Paths.JoinPath(directory.value, defaultName)];
    }
  }

  /** The configurations of the tests: no configuration, an existing or a
      missing custom directory, and existing or missing custom names. */
  lemma BackgroundExamples(defaultDir: Path, custom: Path, files: set<Path>)
    requires Paths.JoinPath(custom, IdleBackgroundName) in files
    requires Paths.JoinPath(custom, "song.png") in files
    requires Paths.JoinPath(custom, "nothing") !in files
    requires Paths.JoinPath("nowhere", IdleBackgroundName) !in files
    ensures IdleBackground(NoBackgroundsConfig, defaultDir, files)
            == Paths.JoinPath(defaultDir, IdleBackgroundName)
    ensures IdleBackground(BackgroundsConfig(Some(custom), None, None), defaultDir, files)
            == Paths.JoinPath(custom, IdleBackgroundName)
    ensures IdleBackground(BackgroundsConfig(Some("nowhere"), None, None), defaultDir, files)
            == Paths.JoinPath(defaultDir, IdleBackgroundName)
    ensures IdleBackground(BackgroundsConfig(Some(custom), Some("song.png"), Some("song.png")),
                           defaultDir, files)
            == Paths.JoinPath(custom, "song.png")
    ensures IdleBackground(BackgroundsConfig(Some(custom), Some("nothing"), Some("nothing")),
                           defaultDir, files)
            == Paths.JoinPath(custom, IdleBackgroundName)
  {
  }
}
