/** What the Linux font loader guarantees, stated on its specification
    functions: the outcome of each branch of load_font, that loading twice
    installs nothing more, that the loaded fonts are links, and that unload
    removes what load installed. */
module FontLoaderProperties {
  import opened Results
  import opened FontLoader
  import Paths

  // ---------------------------------------------------------------------------
  // Where a font is looked for

  /** The font is looked for, and linked, under its own file name. */
  lemma FontPathsKeepName(home: Path, fontPath: Path)
    requires Paths.Basename(fontPath) != ""
    ensures Paths.Basename(SystemFontPath(fontPath)) == Paths.Basename(fontPath)
    ensures Paths.Basename(UserFontPath(home, fontPath)) == Paths.Basename(fontPath)
  {
    Paths.BasenameOfJoin(SystemFontsDirectory, Paths.Basename(fontPath));
    Paths.BasenameOfJoin(UserFontsDirectory(home), Paths.Basename(fontPath));
  }

  /** A font file `dir/name` is looked for as `/usr/share/fonts/name`, and
      then as `name` in the `.fonts` directory of the home directory. */
  lemma FontPathsOfFile(home: Path, dir: Path, name: Path)
    requires name != "" && forall i :: 0 <= i < |name| ==> name[i] != '/'
    requires home != "" && home[|home| - 1] != '/'
    ensures SystemFontPath(dir + "/" + name) == "/usr/share/fonts/" + name
    ensures UserFontPath(home, dir + "/" + name) == home + "/.fonts/" + name
  {
    var p := dir + "/" + name;
    assert Paths.Basename(p) == name by {
      assert p[|p| - |name|..] == name;
      assert p[|p| - |name| - 1] == '/';
      Paths.BasenameOfSuffix(p, name);
    }
    assert SystemFontsDirectory + "/" + name == "/usr/share/fonts/" + name;
    assert UserFontsDirectory(home) == home + "/" + ".fonts";
    assert home + "/" + ".fonts" + "/" + name == home + "/.fonts/" + name;
  }

  // ---------------------------------------------------------------------------
  // load_font, branch by branch
  //
  // Stated for any pair of paths the font is looked for at: load_font uses
  // SystemFontPath and UserFontPath.

  /** A font already in the system directory: only that file was looked at. */
  lemma FontInSystem(s: LoaderState, fontPath: Path, sys: Path, user: Path)
    requires IsFile(s.fs, sys)
    ensures LoadFontAt(s, fontPath, sys, user) == Outcome(s.(calls := s.calls + [IsFileCall(sys)]), None)
  {
  }

  /** A font already in the user directory: the two files were looked at. */
  lemma FontInUser(s: LoaderState, fontPath: Path, sys: Path, user: Path)
    requires !IsFile(s.fs, sys) && IsFile(s.fs, user)
    ensures LoadFontAt(s, fontPath, sys, user)
            == Outcome(s.(calls := s.calls + [IsFileCall(sys), IsFileCall(user)]), None)
  {
  }

  /** A link in the user directory whose target exists is kept: the link is
      looked at, read, and its target looked up. */
  lemma ValidLinkKept(s: LoaderState, fontPath: Path, sys: Path, user: Path)
    requires !IsFile(s.fs, sys) && !IsFile(s.fs, user)
    requires IsLink(s.fs, user) && Exists(s.fs, s.fs[user].target)
    ensures LoadFontAt(s, fontPath, sys, user)
            == Outcome(s.(calls := s.calls + [IsFileCall(sys), IsFileCall(user), IsLinkCall(user),
                                              ReadLinkCall(user), ExistsCall(s.fs[user].target)]), None)
  {
  }

  /** A dead link in the user directory is unlinked and replaced by a link to
      the font, which is then recorded as loaded. */
  lemma DeadLinkReplaced(s: LoaderState, fontPath: Path, sys: Path, user: Path)
    requires !IsFile(s.fs, sys) && !IsFile(s.fs, user)
    requires IsLink(s.fs, user) && !Exists(s.fs, s.fs[user].target)
    ensures var o := LoadFontAt(s, fontPath, sys, user);
            && o.error == None
            && o.state.fs == s.fs[user := Symlink(fontPath)]
            && o.state.fontsLoaded == s.fontsLoaded + [user]
            && o.state.calls == s.calls + [IsFileCall(sys), IsFileCall(user), IsLinkCall(user),
                                           ReadLinkCall(user), ExistsCall(s.fs[user].target),
                                           UnlinkCall(user), SymlinkCall(fontPath, user)]
  {
    var probes := [IsFileCall(sys), IsFileCall(user), IsLinkCall(user), ReadLinkCall(user),
                   ExistsCall(s.fs[user].target)];
    var r := s.(fs := s.fs - {user});
    assert LoadFontAt(s, fontPath, sys, user) == SymlinkSpec(r, probes + [UnlinkCall(user)], fontPath, user);
    assert user !in r.fs;
    RemoveThenSet(s.fs, user, Symlink(fontPath));
    assert r.calls + (probes + [UnlinkCall(user)]) + [SymlinkCall(fontPath, user)]
           == s.calls + (probes + [UnlinkCall(user), SymlinkCall(fontPath, user)]);
  }

  lemma SetThenRemove(m: FileSystem, k: Path, v: Node)
    requires k !in m
    ensures m[k := v] - {k} == m
  {
  }

  lemma RemoveThenSet(m: FileSystem, k: Path, v: Node)
    ensures (m - {k})[k := v] == m[k := v]
  {
  }

  /** A font found nowhere is linked into the user directory and recorded as
      loaded; the link fails only when the user path is taken (a directory). */
  lemma FontInstalled(s: LoaderState, fontPath: Path, sys: Path, user: Path)
    requires !IsFile(s.fs, sys) && !IsFile(s.fs, user) && !IsLink(s.fs, user)
    ensures var o := LoadFontAt(s, fontPath, sys, user);
            && o.state.calls == s.calls + [IsFileCall(sys), IsFileCall(user), IsLinkCall(user),
                                           SymlinkCall(fontPath, user)]
            && (user !in s.fs ==>
                  o.error == None && o.state.fs == s.fs[user := Symlink(fontPath)]
                  && o.state.fontsLoaded == s.fontsLoaded + [user])
            && (user in s.fs ==>
                  o.error == Some(SymlinkFailed(user)) && o.state.fs == s.fs
                  && o.state.fontsLoaded == s.fontsLoaded && s.fs[user] == Directory)
  {
    var probes := [IsFileCall(sys), IsFileCall(user), IsLinkCall(user)];
    assert LoadFontAt(s, fontPath, sys, user) == SymlinkSpec(s, probes, fontPath, user);
    assert s.calls + probes + [SymlinkCall(fontPath, user)]
           == s.calls + [IsFileCall(sys), IsFileCall(user), IsLinkCall(user), SymlinkCall(fontPath, user)];
    if user in s.fs {
      assert !s.fs[user].Symlink? && !s.fs[user].RegularFile?;
    }
  }

  /** The font can already be used: in the system directory, in the user
      directory, or through a valid link there. */
  predicate Available(fs: FileSystem, sys: Path, user: Path)
  {
    || IsFile(fs, sys) || IsFile(fs, user)
    || (IsLink(fs, user) && Exists(fs, fs[user].target))
  }

  /** load_font only appends to the calls, and makes at least one. */
  lemma LoadFontCallsGrow(s: LoaderState, fontPath: Path, sys: Path, user: Path)
    ensures var o := LoadFontAt(s, fontPath, sys, user);
            |s.calls| < |o.state.calls| && o.state.calls[..|s.calls|] == s.calls
  {
    var o := LoadFontAt(s, fontPath, sys, user);
    var added: seq<Call>;
    if IsFile(s.fs, sys) {
      added := [IsFileCall(sys)];
    } else if IsFile(s.fs, user) {
      added := [IsFileCall(sys), IsFileCall(user)];
    } else if IsLink(s.fs, user) {
      if Exists(s.fs, s.fs[user].target) {
        ValidLinkKept(s, fontPath, sys, user);
        added := [IsFileCall(sys), IsFileCall(user), IsLinkCall(user), ReadLinkCall(user),
                  ExistsCall(s.fs[user].target)];
      } else {
        DeadLinkReplaced(s, fontPath, sys, user);
        added := [IsFileCall(sys), IsFileCall(user), IsLinkCall(user), ReadLinkCall(user),
                  ExistsCall(s.fs[user].target), UnlinkCall(user), SymlinkCall(fontPath, user)];
      }
    } else {
      FontInstalled(s, fontPath, sys, user);
      added := [IsFileCall(sys), IsFileCall(user), IsLinkCall(user), SymlinkCall(fontPath, user)];
    }
    assert o.state.calls == s.calls + added;
    PrefixOfAppend(s.calls, added);
  }

  lemma PrefixOfAppend(a: seq<Call>, b: seq<Call>)
    requires |b| > 0
    ensures |a| < |a + b| && (a + b)[..|a|] == a
  {
  }

  /** load_font in three outcomes: nothing to do, a link to the font made in
      the user directory, or the user path taken. */
  lemma LoadFontOutcomes(s: LoaderState, fontPath: Path, sys: Path, user: Path)
    ensures var o := LoadFontAt(s, fontPath, sys, user);
            && |s.calls| < |o.state.calls| && o.state.calls[..|s.calls|] == s.calls
            && (Available(s.fs, sys, user) ==>
                  o.error == None && o.state.fs == s.fs && o.state.fontsLoaded == s.fontsLoaded)
            && (!Available(s.fs, sys, user) && (user !in s.fs || IsLink(s.fs, user)) ==>
                  && o.error == None && o.state.fs == s.fs[user := Symlink(fontPath)]
                  && o.state.fontsLoaded == s.fontsLoaded + [user])
            && (!Available(s.fs, sys, user) && user in s.fs && !IsLink(s.fs, user) ==>
                  && o.error == Some(SymlinkFailed(user))
                  && o.state.fs == s.fs && o.state.fontsLoaded == s.fontsLoaded)
  {
    LoadFontCallsGrow(s, fontPath, sys, user);
    var o := LoadFontAt(s, fontPath, sys, user);
    if Available(s.fs, sys, user) {
      assert o.error == None && o.state.fs == s.fs && o.state.fontsLoaded == s.fontsLoaded by {
        if IsFile(s.fs, sys) {
          FontInSystem(s, fontPath, sys, user);
        } else if IsFile(s.fs, user) {
          FontInUser(s, fontPath, sys, user);
        } else {
          ValidLinkKept(s, fontPath, sys, user);
        }
      }
    } else if IsLink(s.fs, user) {
      DeadLinkReplaced(s, fontPath, sys, user);
    } else {
      FontInstalled(s, fontPath, sys, user);
    }
  }

  /** Loading a font that exists a second time changes nothing. */
  lemma LoadFontTwice(s: LoaderState, fontPath: Path, sys: Path, user: Path)
    requires fontPath in s.fs && s.fs[fontPath] == RegularFile && fontPath != user
    requires LoadFontAt(s, fontPath, sys, user).error == None
    ensures var t := LoadFontAt(s, fontPath, sys, user).state;
            var u := LoadFontAt(t, fontPath, sys, user);
            u.error == None && u.state.fs == t.fs && u.state.fontsLoaded == t.fontsLoaded
  {
    var t := LoadFontAt(s, fontPath, sys, user).state;
    assert Available(t.fs, sys, user) by {
      LoadFontOutcomes(s, fontPath, sys, user);
      if !Available(s.fs, sys, user) {
        assert t.fs[user] == Symlink(fontPath) && t.fs[fontPath] == RegularFile;
        assert IsFile(t.fs, user);
      }
    }
    LoadFontOutcomes(t, fontPath, sys, user);
  }

  // ---------------------------------------------------------------------------
  // The loaded fonts are links

  /** Every font recorded as loaded is a symbolic link. */
  predicate LoadedAreLinks(s: LoaderState)
  {
    forall i :: 0 <= i < |s.fontsLoaded| ==> IsLink(s.fs, s.fontsLoaded[i])
  }

  lemma LoadFontKeepsLinks(s: LoaderState, fontPath: Path, sys: Path, user: Path)
    requires LoadedAreLinks(s)
    ensures LoadedAreLinks(LoadFontAt(s, fontPath, sys, user).state)
  {
    var t := LoadFontAt(s, fontPath, sys, user).state;
    LoadFontOutcomes(s, fontPath, sys, user);
    forall i | 0 <= i < |t.fontsLoaded|
      ensures IsLink(t.fs, t.fontsLoaded[i])
    {
      if i < |s.fontsLoaded| {
        assert t.fontsLoaded[i] == s.fontsLoaded[i];
        assert IsLink(s.fs, s.fontsLoaded[i]);
      }
    }
  }

  lemma {:induction false} LoadListKeepsLinks(s: LoaderState, home: Path, fonts: seq<Path>)
    requires LoadedAreLinks(s)
    ensures LoadedAreLinks(LoadListSpec(s, home, fonts).state)
    decreases |fonts|
  {
    if |fonts| > 0 {
      LoadFontKeepsLinks(s, fonts[0], SystemFontPath(fonts[0]), UserFontPath(home, fonts[0]));
      LoadListKeepsLinks(LoadFontSpec(s, home, fonts[0]).state, home, fonts[1..]);
    }
  }

  /** load: after creating the user directory, every recorded font is still a link. */
  lemma LoadKeepsLinks(s: LoaderState, home: Path, resources: seq<Path>)
    requires LoadedAreLinks(s)
    ensures LoadedAreLinks(LoadListSpec(MakeUserDirectorySpec(s, home), home, resources).state)
  {
    var dir := UserFontsDirectory(home);
    var s1 := MakeUserDirectorySpec(s, home);
    forall i | 0 <= i < |s1.fontsLoaded|
      ensures IsLink(s1.fs, s1.fontsLoaded[i])
    {
      assert IsLink(s.fs, s.fontsLoaded[i]);
    }
    LoadListKeepsLinks(s1, home, resources);
  }

  /** load_from_list only adds to the recorded fonts. */
  lemma {:induction false} LoadListExtends(s: LoaderState, home: Path, fonts: seq<Path>)
    ensures var t := LoadListSpec(s, home, fonts).state;
            |s.fontsLoaded| <= |t.fontsLoaded| && t.fontsLoaded[..|s.fontsLoaded|] == s.fontsLoaded
    decreases |fonts|
  {
    if |fonts| > 0 {
      var o := LoadFontSpec(s, home, fonts[0]);
      assert |s.fontsLoaded| <= |o.state.fontsLoaded| && o.state.fontsLoaded[..|s.fontsLoaded|] == s.fontsLoaded by {
        LoadFontOutcomes(s, fonts[0], SystemFontPath(fonts[0]), UserFontPath(home, fonts[0]));
      }
      if o.error.None? {
        assert LoadListSpec(s, home, fonts) == LoadListSpec(o.state, home, fonts[1..]);
        LoadListExtends(o.state, home, fonts[1..]);
        var t := LoadListSpec(o.state, home, fonts[1..]).state;
        PrefixOfPrefix(s.fontsLoaded, o.state.fontsLoaded, t.fontsLoaded);
      }
    }
  }

  lemma PrefixOfPrefix(a: seq<Path>, b: seq<Path>, c: seq<Path>)
    requires |a| <= |b| && b[..|a|] == a
    requires |b| <= |c| && c[..|b|] == b
    ensures |a| <= |c| && c[..|a|] == a
  {
    assert c[..|a|] == c[..|b|][..|a|];
  }

  // ---------------------------------------------------------------------------
  // unload

  function UnlinkCalls(paths: seq<Path>): (r: seq<Call>)
    ensures |r| == |paths|
    ensures forall i :: 0 <= i < |paths| ==> r[i] == UnlinkCall(paths[i])
  {
    if |paths| == 0 then [] else [UnlinkCall(paths[0])] + UnlinkCalls(paths[1..])
  }

  /** unload_font always tries the unlink, and calls nothing else. */
  lemma UnloadFontCalls(s: LoaderState, p: Path)
    ensures UnloadFontSpec(s, p).state.calls == s.calls + [UnlinkCall(p)]
  {
  }

  lemma UnlinkCallsCons(c: seq<Call>, paths: seq<Path>)
    requires |paths| > 0
    ensures c + [UnlinkCall(paths[0])] + UnlinkCalls(paths[1..]) == c + UnlinkCalls(paths)
  {
  }

  /** Unloading unlinks every path, in order, once. */
  lemma {:induction false} UnloadUnlinksInOrder(s: LoaderState, paths: seq<Path>)
    ensures var o := UnloadListSpec(s, paths);
            o.error == None ==> o.state.calls == s.calls + UnlinkCalls(paths)
    decreases |paths|
  {
    if |paths| > 0 {
      var o := UnloadFontSpec(s, paths[0]);
      if o.error.None? {
        UnloadUnlinksInOrder(o.state, paths[1..]);
        UnloadFontCalls(s, paths[0]);
        UnlinkCallsCons(s.calls, paths);
      }
    }
  }

  /** unload on the recorded fonts: they are unlinked in order, and no error escapes. */
  lemma UnloadAll(s: LoaderState)
    ensures var o := UnloadListSpec(s, s.fontsLoaded);
            o.error == None && o.state.calls == s.calls + UnlinkCalls(s.fontsLoaded)
  {
    UnloadNeverFails(s, s.fontsLoaded);
    UnloadUnlinksInOrder(s, s.fontsLoaded);
  }

  /** No path occurs twice. */
  predicate Distinct(paths: seq<Path>)
    decreases |paths|
  {
    |paths| == 0 || (paths[0] !in paths[1..] && Distinct(paths[1..]))
  }

  predicate AllUnlinkable(fs: FileSystem, paths: seq<Path>)
  {
    forall x :: x in paths ==> CanUnlink(fs, x)
  }

  lemma ElementsOfCons(paths: seq<Path>)
    requires |paths| > 0
    ensures (set x | x in paths) == {paths[0]} + (set x | x in paths[1..])
  {
    assert paths == [paths[0]] + paths[1..];
  }

  /** The first of the recorded paths, when it can be unlinked, is unlinked
      and removed, and the rest are exactly what stays recorded. */
  lemma UnloadRecordedHead(s: LoaderState, paths: seq<Path>)
    requires |paths| > 0 && multiset(paths) == multiset(s.fontsLoaded) && CanUnlink(s.fs, paths[0])
    ensures var o := UnloadFontSpec(s, paths[0]);
            && o.error == None && o.state.fs == s.fs - {paths[0]}
            && multiset(o.state.fontsLoaded) == multiset(paths[1..])
  {
    var p := paths[0];
    assert paths == [p] + paths[1..];
    assert p in multiset(s.fontsLoaded);
  }

  /** Once the first of distinct paths is unlinked, the others still can be. */
  lemma TailUnlinkable(fs: FileSystem, paths: seq<Path>)
    requires |paths| > 0 && Distinct(paths) && AllUnlinkable(fs, paths)
    ensures AllUnlinkable(fs - {paths[0]}, paths[1..])
  {
    forall x | x in paths[1..]
      ensures CanUnlink(fs - {paths[0]}, x)
    {
      assert x in paths;
    }
  }

  /** Distinct paths that can all be unlinked, and are exactly the recorded
      fonts: unloading them raises nothing and leaves nothing recorded. */
  lemma {:induction false} UnloadDistinctEmpties(s: LoaderState, paths: seq<Path>)
    requires Distinct(paths) && multiset(paths) == multiset(s.fontsLoaded)
    requires AllUnlinkable(s.fs, paths)
    ensures var o := UnloadListSpec(s, paths);
            o.error == None && o.state.fontsLoaded == []
    decreases |paths|
  {
    if |paths| == 0 {
      assert |multiset(s.fontsLoaded)| == 0;
    } else {
      var o := UnloadFontSpec(s, paths[0]);
      assert paths[0] in paths;
      UnloadRecordedHead(s, paths);
      TailUnlinkable(s.fs, paths);
      UnloadDistinctEmpties(o.state, paths[1..]);
    }
  }

  /** The same paths: exactly they are gone from the filesystem. */
  lemma {:induction false} UnloadDistinctRemoves(s: LoaderState, paths: seq<Path>)
    requires Distinct(paths) && multiset(paths) == multiset(s.fontsLoaded)
    requires AllUnlinkable(s.fs, paths)
    ensures UnloadListSpec(s, paths).state.fs == s.fs - (set x | x in paths)
    decreases |paths|
  {
    if |paths| == 0 {
      assert s.fs - (set x | x in paths) == s.fs;
    } else {
      var p := paths[0];
      var o := UnloadFontSpec(s, p);
      assert p in paths;
      UnloadRecordedHead(s, paths);
      TailUnlinkable(s.fs, paths);
      UnloadDistinctRemoves(o.state, paths[1..]);
      assert (s.fs - {p}) - (set x | x in paths[1..]) == s.fs - (set x | x in paths) by {
        ElementsOfCons(paths);
        RemoveInTwoSteps(s.fs, p, set x | x in paths[1..]);
      }
    }
  }

  lemma RemoveInTwoSteps(m: FileSystem, p: Path, rest: set<Path>)
    ensures (m - {p}) - rest == m - ({p} + rest)
  {
  }

  /** A font installed by load_font and then unloaded: the filesystem is as
      before and nothing is recorded. */
  lemma InstallThenUnload(s: LoaderState, fontPath: Path, sys: Path, user: Path)
    requires s.fontsLoaded == []
    requires !IsFile(s.fs, sys) && user !in s.fs
    ensures var t := LoadFontAt(s, fontPath, sys, user).state;
            var u := UnloadListSpec(t, t.fontsLoaded);
            u.error == None && u.state.fs == s.fs && u.state.fontsLoaded == []
  {
    FontInstalled(s, fontPath, sys, user);
    var t := LoadFontAt(s, fontPath, sys, user).state;
    assert t.fontsLoaded == [user] && t.fs == s.fs[user := Symlink(fontPath)];
    var o := UnloadFontSpec(t, user);
    assert o.error == None && o.state.fontsLoaded == [] && o.state.fs == t.fs - {user};
    SetThenRemove(s.fs, user, Symlink(fontPath));
    assert UnloadListSpec(t, [user]) == UnloadListSpec(o.state, []) by {
      assert [user][1..] == [];
    }
  }
}
