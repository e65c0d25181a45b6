/** The font loader: which loader the platform gets, and the Linux loader's
    bookkeeping. A font is installed for the user by a symbolic link in
    `~/.fonts`, unless it is already in the system fonts directory or in the
    user's directory; every link created is remembered in `fontsLoaded` so
    that `unload` can remove it again.

    The filesystem is a map from paths to nodes; `isfile` and `exists`
    follow one symbolic link. Every filesystem call the loader makes is
    appended to `calls`. */
module FontLoader {
  import opened Results
  import Paths

  type Path = Paths.Path

  // ---------------------------------------------------------------------------
  // Platform dispatch

  datatype LoaderKind = LinuxLoader | WindowsLoader

  /** NotImplementedError, naming the platform. */
  datatype PlatformError = UnsupportedPlatform(platform: string)

  predicate StartsWith(s: string, prefix: string)
  {
    |s| >= |prefix| && s[..|prefix|] == prefix
  }

  /** get_font_loader_class. */
  function GetFontLoaderClass(platform: string): (r: Result<LoaderKind, PlatformError>)
    ensures r == Success(LinuxLoader) <==> StartsWith(platform, "linux")
    ensures r == Success(WindowsLoader) <==> platform == "win32"
    ensures r.Failure? <==> !StartsWith(platform, "linux") && platform != "win32"
    ensures r.Failure? ==> r.error == UnsupportedPlatform(platform)
  {
    assert !StartsWith("win32", "linux") by { assert "win32"[0] != "linux"[0]; }
    if StartsWith(platform, "linux") then Success(LinuxLoader)
    else if platform == "win32" then Success(WindowsLoader)
    else Failure(UnsupportedPlatform(platform))
  }

  lemma PlatformExamples()
    ensures GetFontLoaderClass("linux") == Success(LinuxLoader)
    ensures GetFontLoaderClass("win32") == Success(WindowsLoader)
    ensures GetFontLoaderClass("other") == Failure(UnsupportedPlatform("other"))
  {
  }

  // ---------------------------------------------------------------------------
  // The filesystem

  datatype Node = RegularFile | Directory | Symlink(target: Path)

  type FileSystem = map<Path, Node>

  /** The node a path leads to, following one symbolic link. */
  function Follow(fs: FileSystem, p: Path): (n: Option<Node>)
    ensures n.Some? ==> p in fs
  {
    if p !in fs then None
    else match fs[p]
      case Symlink(t) => if t in fs then Some(fs[t]) else None
      case other => Some(other)
  }

  predicate IsFile(fs: FileSystem, p: Path) { Follow(fs, p) == Some(RegularFile) }

  predicate Exists(fs: FileSystem, p: Path) { Follow(fs, p).Some? }

  predicate IsLink(fs: FileSystem, p: Path) { p in fs && fs[p].Symlink? }

  /** `os.unlink` succeeds on anything but a directory. */
  predicate CanUnlink(fs: FileSystem, p: Path) { p in fs && !fs[p].Directory? }

  datatype Call =
    | IsFileCall(path: Path)
    | IsLinkCall(path: Path)
    | ReadLinkCall(path: Path)
    | ExistsCall(path: Path)
    | UnlinkCall(path: Path)
    | SymlinkCall(target: Path, link: Path)
    | MkdirCall(path: Path)

  const SystemFontsDirectory: Path := "/usr/share/fonts"

  function UserFontsDirectory(home: Path): Path { Paths.JoinPath(home, ".fonts") }

  // ---------------------------------------------------------------------------
  // Specification of the Linux loader

  datatype LoaderState = LoaderState(fs: FileSystem, fontsLoaded: seq<Path>, calls: seq<Call>)

  /** Exceptions that escape the loader: `os.symlink` onto an existing path,
      and `list.remove` of a path that was never loaded. */
  datatype FontError = SymlinkFailed(link: Path) | NotLoaded(path: Path)

  datatype Outcome = Outcome(state: LoaderState, error: Option<FontError>)

  /** Where a font is installed: `~/.fonts` followed by its base name. */
  function UserFontPath(home: Path, fontPath: Path): Path
  {
    Paths.JoinPath(UserFontsDirectory(home), Paths.Basename(fontPath))
  }

  function SystemFontPath(fontPath: Path): Path
  {
    Paths.JoinPath(SystemFontsDirectory, Paths.Basename(fontPath))
  }

  /** `os.symlink(target, link)` after the calls `before`. */
  function SymlinkSpec(s: LoaderState, before: seq<Call>, target: Path, link: Path): Outcome
  {
    var calls := s.calls + before + [SymlinkCall(target, link)];
    if link in s.fs then Outcome(s.(calls := calls), Some(SymlinkFailed(link)))
    else Outcome(LoaderState(s.fs[link := Symlink(target)], s.fontsLoaded + [link], calls), None)
  }

  /** load_font, with the font looked for as `sys` in the system directory and
      as `user` in the user directory: the system file first, then the user
      file, then a link at `user`, which is kept when valid and replaced when
      dead; otherwise the font is linked at `user`. */
  function LoadFontAt(s: LoaderState, fontPath: Path, sys: Path, user: Path): Outcome
  {
    if IsFile(s.fs, sys) then Outcome(s.(calls := s.calls + [IsFileCall(sys)]), None)
    else if IsFile(s.fs, user) then
      Outcome(s.(calls := s.calls + [IsFileCall(sys), IsFileCall(user)]), None)
    else if IsLink(s.fs, user) then
      var target := s.fs[user].target;
      var probes := [IsFileCall(sys), IsFileCall(user), IsLinkCall(user), ReadLinkCall(user),
                     ExistsCall(target)];
      if Exists(s.fs, target) then Outcome(s.(calls := s.calls + probes), None)
      else SymlinkSpec(s.(fs := s.fs - {user}), probes + [UnlinkCall(user)], fontPath, user)
    else SymlinkSpec(s, [IsFileCall(sys), IsFileCall(user), IsLinkCall(user)], fontPath, user)
  }

  function LoadFontSpec(s: LoaderState, home: Path, fontPath: Path): Outcome
  {
    LoadFontAt(s, fontPath, SystemFontPath(fontPath), UserFontPath(home, fontPath))
  }

  /** load_from_list: load_font on every path in turn, stopping at an exception. */
  function LoadListSpec(s: LoaderState, home: Path, fonts: seq<Path>): Outcome
    decreases |fonts|
  {
    if |fonts| == 0 then Outcome(s, None)
    else
      var o := LoadFontSpec(s, home, fonts[0]);
      if o.error.Some? then o else LoadListSpec(o.state, home, fonts[1..])
  }

  /** The position of the first occurrence of `x`. */
  function IndexOf(xs: seq<Path>, x: Path): (i: nat)
    requires x in xs
    ensures i < |xs| && xs[i] == x && x !in xs[..i]
  {
    if xs[0] == x then 0
    else
      assert x in xs[1..];
      var k := IndexOf(xs[1..], x);
      assert xs[..k + 1] == [xs[0]] + xs[1..][..k];
      k + 1
  }

  /** The first occurrence of `x` removed, as `list.remove` does. */
  function RemoveFirst(xs: seq<Path>, x: Path): (r: seq<Path>)
    ensures x in xs ==> r == xs[..IndexOf(xs, x)] + xs[IndexOf(xs, x) + 1..]
    ensures x in xs ==> multiset(r) == multiset(xs) - multiset{x}
    ensures x !in xs ==> r == xs
  {
    if |xs| == 0 then xs
    else if xs[0] == x then
      assert multiset(xs) == multiset{x} + multiset(xs[1..]) by {
        assert xs == [x] + xs[1..];
      }
      xs[1..]
    else
      var rest := RemoveFirst(xs[1..], x);
      if x in xs then
        RemoveAfterHead(xs, x, rest);
        CountAfterHead(xs, x, rest);
        [xs[0]] + rest
      else
        assert xs == [xs[0]] + xs[1..];
        [xs[0]] + rest
  }

  /** Removing `x` after a head that differs from it moves its position by one. */
  lemma RemoveAfterHead(xs: seq<Path>, x: Path, rest: seq<Path>)
    requires |xs| > 0 && xs[0] != x && x in xs
    requires rest == xs[1..][..IndexOf(xs[1..], x)] + xs[1..][IndexOf(xs[1..], x) + 1..]
    ensures [xs[0]] + rest == xs[..IndexOf(xs, x)] + xs[IndexOf(xs, x) + 1..]
  {
    assert x in xs[1..] by {
      assert xs == [xs[0]] + xs[1..];
    }
    var k := IndexOf(xs[1..], x);
    assert IndexOf(xs, x) == k + 1;
    assert xs[..k + 1] == [xs[0]] + xs[1..][..k];
    assert xs[k + 2..] == xs[1..][k + 1..];
  }

  /** ... and drops the count of `x` by one. */
  lemma CountAfterHead(xs: seq<Path>, x: Path, rest: seq<Path>)
    requires |xs| > 0 && xs[0] != x && x in xs
    requires multiset(rest) == multiset(xs[1..]) - multiset{x}
    ensures multiset([xs[0]] + rest) == multiset(xs) - multiset{x}
  {
    assert xs == [xs[0]] + xs[1..];
    assert multiset(xs) == multiset{xs[0]} + multiset(xs[1..]);
  }

  /** unload_font: a failed unlink is only logged. */
  function UnloadFontSpec(s: LoaderState, p: Path): Outcome
  {
    var s1 := s.(calls := s.calls + [UnlinkCall(p)]);
    if !CanUnlink(s.fs, p) then Outcome(s1, None)
    else if p !in s.fontsLoaded then Outcome(s1.(fs := s.fs - {p}), Some(NotLoaded(p)))
    else Outcome(s1.(fs := s.fs - {p}, fontsLoaded := RemoveFirst(s.fontsLoaded, p)), None)
  }

  /** unload_font on every path of `paths` in turn, stopping at an exception. */
  function UnloadListSpec(s: LoaderState, paths: seq<Path>): Outcome
    decreases |paths|
  {
    if |paths| == 0 then Outcome(s, None)
    else
      var o := UnloadFontSpec(s, paths[0]);
      if o.error.Some? then o else UnloadListSpec(o.state, paths[1..])
  }

  /** `os.mkdir` of the user fonts directory; an existing path is tolerated. */
  function MakeUserDirectorySpec(s: LoaderState, home: Path): LoaderState
  {
    var dir := UserFontsDirectory(home);
    var s1 := s.(calls := s.calls + [MkdirCall(dir)]);
    if dir in s.fs then s1 else s1.(fs := s.fs[dir := Directory])
  }

  // ---------------------------------------------------------------------------
  // The Linux loader object

  class FontLoaderLinux {
    const home: Path
    var fs: FileSystem
    var fontsLoaded: seq<Path>
    var calls: seq<Call>

    function State(): LoaderState
      reads this
    {
      LoaderState(fs, fontsLoaded, calls)
    }

    /** `fs0` is the filesystem the loader starts on. */
    constructor (home: Path, fs0: FileSystem)
      ensures this.home == home && State() == LoaderState(fs0, [], [])
    {
      this.home := home;
      fs := fs0;
      fontsLoaded := [];
      calls := [];
    }

    method MakeSymlink(before: seq<Call>, target: Path, link: Path) returns (error: Option<FontError>)
      modifies this
      ensures Outcome(State(), error) == SymlinkSpec(old(State()), before, target, link)
    {
      calls := calls + before + [SymlinkCall(target, link)];
      if link in fs {
        return Some(SymlinkFailed(link));
      }
      fs := fs[link := Symlink(target)];
      fontsLoaded := fontsLoaded + [link];
      error := None;
    }

    method LoadFont(fontPath: Path) returns (error: Option<FontError>)
      modifies this
      ensures Outcome(State(), error) == LoadFontSpec(old(State()), home, fontPath)
    {
      var sys := SystemFontPath(fontPath);
      var user := UserFontPath(home, fontPath);
      if IsFile(fs, sys) {
        calls := calls + [IsFileCall(sys)];
        return None;
      }
      if IsFile(fs, user) {
        calls := calls + [IsFileCall(sys), IsFileCall(user)];
        return None;
      }
      if IsLink(fs, user) {
        var target := fs[user].target;
        var probes := [IsFileCall(sys), IsFileCall(user), IsLinkCall(user), ReadLinkCall(user),
                       ExistsCall(target)];
        if Exists(fs, target) {
          calls := calls + probes;
          return None;
        }
        fs := fs - {user};
        error := MakeSymlink(probes + [UnlinkCall(user)], fontPath, user);
        return;
      }
      error := MakeSymlink([IsFileCall(sys), IsFileCall(user), IsLinkCall(user)], fontPath, user);
    }

    method LoadFromList(fonts: seq<Path>) returns (error: Option<FontError>)
      modifies this
      ensures Outcome(State(), error) == LoadListSpec(old(State()), home, fonts)
    {
      var i := 0;
      while i < |fonts|
        invariant 0 <= i <= |fonts|
        invariant LoadListSpec(old(State()), home, fonts) == LoadListSpec(State(), home, fonts[i..])
      {
        assert fonts[i..][1..] == fonts[i + 1..];
        error := LoadFont(fonts[i]);
        if error.Some? {
          return;
        }
        i := i + 1;
      }
      error := None;
    }

    /** load: create `~/.fonts` if needed, then load the fonts found in the
        resources directory. */
    method Load(resources: seq<Path>) returns (error: Option<FontError>)
      modifies this
      ensures Outcome(State(), error)
              == LoadListSpec(MakeUserDirectorySpec(old(State()), home), home, resources)
    {
      var dir := UserFontsDirectory(home);
      calls := calls + [MkdirCall(dir)];
      if dir !in fs {
        fs := fs[dir := Directory];
      }
      error := LoadFromList(resources);
    }

    method UnloadFont(p: Path) returns (error: Option<FontError>)
      modifies this
      ensures Outcome(State(), error) == UnloadFontSpec(old(State()), p)
    {
      calls := calls + [UnlinkCall(p)];
      if !CanUnlink(fs, p) {
        return None;
      }
      fs := fs - {p};
      if p !in fontsLoaded {
        return Some(NotLoaded(p));
      }
      fontsLoaded := RemoveFirst(fontsLoaded, p);
      error := None;
    }

    /** unload: unload_font on a copy of `fontsLoaded`, which unload_font
        shortens as it goes. */
    method Unload()
      modifies this
      ensures Outcome(State(), None) == UnloadListSpec(old(State()), old(fontsLoaded))
    {
      var copy := fontsLoaded;
      var i := 0;
      UnloadNeverFails(State(), copy);
      while i < |copy|
        invariant 0 <= i <= |copy|
        invariant UnloadListSpec(old(State()), copy) == UnloadListSpec(State(), copy[i..])
        invariant UnloadListSpec(State(), copy[i..]).error == None
      {
        assert copy[i..][1..] == copy[i + 1..];
        var error := UnloadFont(copy[i]);
        if error.Some? {
          assert false;
        }
        i := i + 1;
      }
    }
  }

  // ---------------------------------------------------------------------------
  // Unloading never raises

  /** Every path still to unload that can be unlinked occurs at least as
      often in `fontsLoaded`. */
  predicate LoadedCovers(s: LoaderState, paths: seq<Path>)
  {
    forall x :: x in multiset(paths) && CanUnlink(s.fs, x) ==>
      multiset(paths)[x] <= multiset(s.fontsLoaded)[x]
  }

  /** unload cannot meet the `list.remove` error: a path is removed only after
      it was unlinked, and it cannot be unlinked twice. */
  lemma {:induction false} UnloadNeverFails(s: LoaderState, paths: seq<Path>)
    requires LoadedCovers(s, paths)
    ensures UnloadListSpec(s, paths).error == None
    decreases |paths|
  {
    if |paths| > 0 {
      if CanUnlink(s.fs, paths[0]) {
        UnlinkedStep(s, paths);
      } else {
        FailedUnlinkStep(s, paths);
      }
      UnloadNeverFails(UnloadFontSpec(s, paths[0]).state, paths[1..]);
    }
  }

  /** A path that can be unlinked is recorded, and once it is unlinked and
      removed the rest of the paths are still covered. */
  lemma UnlinkedStep(s: LoaderState, paths: seq<Path>)
    requires |paths| > 0 && LoadedCovers(s, paths) && CanUnlink(s.fs, paths[0])
    ensures UnloadFontSpec(s, paths[0]).error == None
    ensures LoadedCovers(UnloadFontSpec(s, paths[0]).state, paths[1..])
  {
    var p := paths[0];
    assert paths == [p] + paths[1..];
    assert multiset(paths) == multiset{p} + multiset(paths[1..]);
    assert p in multiset(paths);
    assert p in s.fontsLoaded by {
      assert multiset(paths)[p] <= multiset(s.fontsLoaded)[p];
    }
    var t := UnloadFontSpec(s, p).state;
    assert t.fs == s.fs - {p} && t.fontsLoaded == RemoveFirst(s.fontsLoaded, p);
    forall x | x in multiset(paths[1..]) && CanUnlink(t.fs, x)
      ensures multiset(paths[1..])[x] <= multiset(t.fontsLoaded)[x]
    {
      assert multiset(paths)[x] <= multiset(s.fontsLoaded)[x];
    }
  }

  /** A path that cannot be unlinked changes nothing but the calls. */
  lemma FailedUnlinkStep(s: LoaderState, paths: seq<Path>)
    requires |paths| > 0 && LoadedCovers(s, paths) && !CanUnlink(s.fs, paths[0])
    ensures UnloadFontSpec(s, paths[0]).error == None
    ensures LoadedCovers(UnloadFontSpec(s, paths[0]).state, paths[1..])
  {
    var p := paths[0];
    assert paths == [p] + paths[1..];
    assert multiset(paths) == multiset{p} + multiset(paths[1..]);
    forall x | x in multiset(paths[1..]) && CanUnlink(s.fs, x)
      ensures multiset(paths[1..])[x] <= multiset(s.fontsLoaded)[x]
    {
      assert multiset(paths)[x] <= multiset(s.fontsLoaded)[x];
    }
  }
}
