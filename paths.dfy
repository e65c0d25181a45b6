/** Slash-separated paths, as the player joins and splits them: joining a
    directory and a name gives the name itself when it is absolute, and the
    base name of a path is what follows its last slash. */
module Paths {

  type Path = string

  predicate IsAbsolute(p: Path) { |p| > 0 && p[0] == '/' }

  predicate EndsWith(s: string, suffix: string)
  {
    |s| >= |suffix| && s[|s| - |suffix|..] == suffix
  }

  /** `os.path.join(dir, name)` for two components. */
  function JoinPath(dir: Path, name: Path): (r: Path)
    ensures EndsWith(r, name)
    ensures IsAbsolute(name) ==> r == name
    ensures !IsAbsolute(name) ==> |r| >= |dir| && r[..|dir|] == dir
    ensures !IsAbsolute(name) && dir != "" && dir[|dir| - 1] != '/' ==> r == dir + "/" + name
  {
    if IsAbsolute(name) then name
    else if dir == "" || dir[|dir| - 1] == '/' then dir + name
    else dir + "/" + name
  }

  /** The last component of a path. */
  function Basename(p: Path): (r: Path)
    ensures EndsWith(p, r)
    ensures forall i :: 0 <= i < |r| ==> r[i] != '/'
    ensures |r| < |p| ==> p[|p| - |r| - 1] == '/'
  {
    if |p| == 0 || p[|p| - 1] == '/' then ""
    else Basename(p[..|p| - 1]) + [p[|p| - 1]]
  }

  /** The base name of a name joined under a directory is that name, whatever
      the directory: the font loader relies on it to place a font under the
      same name in another directory. */
  lemma {:induction false} BasenameOfJoin(dir: Path, name: Path)
    requires name != "" && forall i :: 0 <= i < |name| ==> name[i] != '/'
    ensures Basename(JoinPath(dir, name)) == name
  {
    var r := JoinPath(dir, name);
    BasenameOfSuffix(r, name);
  }

  /** A path ending with a slash-free name after a slash (or made of the name
      alone) has that name as base name. */
  lemma {:induction false} BasenameOfSuffix(p: Path, name: Path)
    requires EndsWith(p, name)
    requires forall i :: 0 <= i < |name| ==> name[i] != '/'
    requires |p| > |name| ==> p[|p| - |name| - 1] == '/'
    ensures Basename(p) == name
    decreases |name|
  {
    if |name| > 0 {
      var p' := p[..|p| - 1];
      var name' := name[..|name| - 1];
      assert p[|p| - 1] == name[|name| - 1];
      assert p'[|p'| - |name'|..] == name';
      BasenameOfSuffix(p', name');
      assert Basename(p) == name' + [name[|name| - 1]];
    }
  }
}
