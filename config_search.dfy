/**
 * `getConfigPath`: look for `.csscomb.json` in the current directory, then
 * in each directory above it, up to and including HOME or the root, and fall
 * back to the configuration shipped with the package.
 */
module ConfigSearch {
  import opened JsValues
  import opened Paths
  import opened CliWorld

  const ConfigName := ".csscomb.json"

  predicate IsSet(env: map<string, string>, name: string) {
    name in env && env[name] != ""
  }

  /** `process.env.HOME || process.env.HOMEPATH || process.env.USERPROFILE` */
  function Home(env: map<string, string>): (h: Option<string>)
    ensures IsSet(env, "HOME") ==> h == Some(env["HOME"])
    ensures !IsSet(env, "HOME") && IsSet(env, "HOMEPATH") ==> h == Some(env["HOMEPATH"])
    ensures !IsSet(env, "HOME") && !IsSet(env, "HOMEPATH") && "USERPROFILE" in env ==>
      h == Some(env["USERPROFILE"])
    ensures h == None <==> !IsSet(env, "HOME") && !IsSet(env, "HOMEPATH") && "USERPROFILE" !in env
  {
    if IsSet(env, "HOME") then Some(env["HOME"])
    else if IsSet(env, "HOMEPATH") then Some(env["HOMEPATH"])
    else if "USERPROFILE" in env then Some(env["USERPROFILE"])
    else None
  }

  /** `dirname === HOME`: the text of the directory is the HOME value. */
  predicate IsHome(w: World, dir: Path)
    ensures IsHome(w, dir) ==> Home(w.env) != None && Home(w.env) != Some("")
  {
    Home(w.env) == Some(Render(dir))
  }

  /** `dirname === parentDirname`: the directory is its own parent. */
  predicate IsRoot(dir: Path)
    ensures IsRoot(dir) <==> dir == [] || dir == [""]
  {
    RootIsItsOwnParent(dir);
    Render(dir) == Render(Dirname(dir))
  }

  /** The search ends after looking in `dir`. */
  predicate Stops(w: World, dir: Path)
    ensures Stops(w, dir) <==> IsHome(w, dir) || dir == [] || dir == [""]
  {
    IsHome(w, dir) || IsRoot(dir)
  }

  /** `path.join(dir, '.csscomb.json')` */
  function Candidate(dir: Path): (r: string)
    ensures |r| > 0 && r[0] == '/' && EndsWith(r, "/.csscomb.json")
  {
    var suffix := "/.csscomb.json";
    var r := Render(Join(dir, ConfigName));
    var s := Slashed(dir);
    RenderJoin(dir, ConfigName);
    assert "/" + ConfigName == suffix;
    assert r == s + suffix;
    assert r[|s|..] == suffix;
    r
  }

  /** `fs.existsSync(configPath)` for the candidate in `dir`. */
  predicate HasConfig(w: World, dir: Path)
    ensures HasConfig(w, dir) ==> exists f :: f in w.files && EndsWith(f, "/.csscomb.json")
  {
    Candidate(dir) in w.files
  }

  /** `path.join(__dirname, '../config/csscomb.json')` */
  function DefaultPath(w: World): (r: string)
    ensures |r| > 0 && r[0] == '/' && EndsWith(r, "/config/csscomb.json")
  {
    var dir := Dirname(w.libDir);
    var suffix := "/config/csscomb.json";
    RenderTwoBelow(dir, "config", "csscomb.json");
    assert "/" + "config" + "/" + "csscomb.json" == suffix;
    var s := Slashed(dir);
    assert (s + suffix)[|s|..] == suffix;
    Render(dir + ["config", "csscomb.json"])
  }

  /**
   * One call of `getConfigPath` whose candidate lies in `dir`, with the
   * recursive call one level up.
   */
  function SearchFrom(w: World, dir: Path): (r: string)
    ensures HasConfig(w, dir) ==> r == Candidate(dir)
    ensures r in w.files || r == DefaultPath(w)
    decreases |dir|
  {
    if HasConfig(w, dir) then Candidate(dir)
    else if Stops(w, dir) then DefaultPath(w)
    else SearchFrom(w, Dirname(dir))
  }

  /** `getConfigPath()` as `run` calls it: the first candidate is in the current directory. */
  function GetConfigPath(w: World): (r: string)
    ensures HasConfig(w, w.cwd) ==> r == Candidate(w.cwd)
    ensures r in w.files || r == DefaultPath(w)
  {
    SearchFrom(w, w.cwd)
  }

  /** The search consults only the file system, the environment and the package location. */
  lemma {:induction false} SearchOnlyReadsFilesAndEnv(w: World, other: World, dir: Path)
    requires other.files == w.files && other.env == w.env && other.libDir == w.libDir
    ensures SearchFrom(other, dir) == SearchFrom(w, dir)
    decreases |dir|
  {
    if !HasConfig(w, dir) && !Stops(w, dir) {
      SearchOnlyReadsFilesAndEnv(w, other, Dirname(dir));
    }
  }

  /**
   * The ancestor `dir[..j]` is looked in: no directory strictly between it
   * and `dir` ends the search.
   */
  ghost predicate Searched(w: World, dir: Path, j: int) {
    0 <= j <= |dir| && forall k :: j < k <= |dir| ==> !Stops(w, dir[..k])
  }

  /** `dir[..j]` is the nearest searched ancestor that holds a `.csscomb.json`. */
  ghost predicate Nearest(w: World, dir: Path, j: int) {
    && Searched(w, dir, j)
    && HasConfig(w, dir[..j])
    && forall k :: j < k <= |dir| ==> !HasConfig(w, dir[..k])
  }

  lemma {:induction false} SearchFindsNearest(w: World, dir: Path, j: int)
    requires Nearest(w, dir, j)
    ensures SearchFrom(w, dir) == Candidate(dir[..j])
    decreases |dir|
  {
    assert dir[..|dir|] == dir;
    if j < |dir| {
      assert !HasConfig(w, dir) && !Stops(w, dir);
      var up := Dirname(dir);
      assert forall k :: 0 <= k <= |up| ==> up[..k] == dir[..k];
      assert Nearest(w, up, j);
      SearchFindsNearest(w, up, j);
    }
  }

  lemma {:induction false} SearchFallsBack(w: World, dir: Path)
    requires NoneSearchedHasConfig(w, dir)
    ensures SearchFrom(w, dir) == DefaultPath(w)
    decreases |dir|
  {
    assert dir[..|dir|] == dir;
    assert Searched(w, dir, |dir|);
    if !Stops(w, dir) {
      var up := Dirname(dir);
      forall j | Searched(w, up, j)
        ensures !HasConfig(w, up[..j])
      {
        SearchedOneLevelUp(w, dir, j);
        assert up[..j] == dir[..j];
      }
      SearchFallsBack(w, up);
    }
  }

  /** A directory searched from the parent of `dir` is searched from `dir` too. */
  lemma SearchedOneLevelUp(w: World, dir: Path, j: int)
    requires dir != [] && !Stops(w, dir) && Searched(w, Dirname(dir), j)
    ensures Searched(w, dir, j)
  {
    var up := Dirname(dir);
    forall k | j < k <= |dir|
      ensures !Stops(w, dir[..k])
    {
      if k == |dir| {
        assert dir[..k] == dir;
      } else {
        assert dir[..k] == up[..k];
      }
    }
  }

  /** A directory searched from `dir`, other than `dir` itself, is searched from its parent. */
  lemma SearchedFromParent(w: World, dir: Path, j: int)
    requires Searched(w, dir, j) && j < |dir|
    ensures Searched(w, Dirname(dir), j)
  {
    var up := Dirname(dir);
    forall k | j < k <= |up|
      ensures !Stops(w, up[..k])
    {
      assert up[..k] == dir[..k];
    }
  }

  ghost predicate NoneSearchedHasConfig(w: World, dir: Path) {
    forall j :: Searched(w, dir, j) ==> !HasConfig(w, dir[..j])
  }

  /** The nearest configuration seen from the parent is the nearest one seen from `dir`. */
  lemma NearestOneLevelUp(w: World, dir: Path, j: int)
    requires dir != [] && !HasConfig(w, dir) && !Stops(w, dir) && Nearest(w, Dirname(dir), j)
    ensures Nearest(w, dir, j)
  {
    var up := Dirname(dir);
    SearchedOneLevelUp(w, dir, j);
    assert up[..j] == dir[..j];
    NoConfigOneLevelUp(w, dir, up, j);
  }

  /** No configuration strictly above `dir[..j]` as seen from the parent, nor in `dir`: none above it from `dir`. */
  lemma NoConfigOneLevelUp(w: World, dir: Path, up: Path, j: int)
    requires 0 <= j && dir != [] && !HasConfig(w, dir) && up == Dirname(dir)
    requires forall k :: j < k <= |up| ==> !HasConfig(w, up[..k])
    ensures forall k :: j < k <= |dir| ==> !HasConfig(w, dir[..k])
  {
    forall k | j < k <= |dir|
      ensures !HasConfig(w, dir[..k])
    {
      if k < |dir| {
        assert dir[..k] == up[..k];
      } else {
        assert dir[..k] == dir;
      }
    }
  }

  lemma NoneOneLevelUp(w: World, dir: Path)
    requires dir != [] && !HasConfig(w, dir) && NoneSearchedHasConfig(w, Dirname(dir))
    ensures NoneSearchedHasConfig(w, dir)
  {
    var up := Dirname(dir);
    forall j | Searched(w, dir, j)
      ensures !HasConfig(w, dir[..j])
    {
      if j < |dir| {
        SearchedFromParent(w, dir, j);
        assert up[..j] == dir[..j];
      } else {
        assert dir[..j] == dir;
      }
    }
  }

  /**
   * Every search ends in one of two ways: with the nearest searched
   * `.csscomb.json`, or with the package default when no searched directory
   * has one.
   */
  lemma {:induction false} SearchIsNearestOrDefault(w: World, dir: Path)
    ensures || (exists j :: Nearest(w, dir, j) && SearchFrom(w, dir) == Candidate(dir[..j]))
            || (NoneSearchedHasConfig(w, dir) && SearchFrom(w, dir) == DefaultPath(w))
    decreases |dir|
  {
    assert dir[..|dir|] == dir;
    if HasConfig(w, dir) {
      assert Nearest(w, dir, |dir|);
    } else if Stops(w, dir) {
      forall j | Searched(w, dir, j)
        ensures !HasConfig(w, dir[..j])
      {
        assert j == |dir|;
      }
    } else {
      var up := Dirname(dir);
      assert SearchFrom(w, dir) == SearchFrom(w, up);
      SearchIsNearestOrDefault(w, up);
      if j :| Nearest(w, up, j) && SearchFrom(w, up) == Candidate(up[..j]) {
        NearestOneLevelUp(w, dir, j);
        assert up[..j] == dir[..j];
      } else {
        NoneOneLevelUp(w, dir);
      }
    }
  }

  /** How many candidates `getConfigPath` checks with `fs.existsSync` before it returns. */
  ghost function Probes(w: World, dir: Path): (n: nat)
    ensures 1 <= n <= |dir| + 1
    decreases |dir|
  {
    if HasConfig(w, dir) || Stops(w, dir) then 1 else 1 + Probes(w, Dirname(dir))
  }

  /** Starting `depth` levels below HOME, the search checks at most `depth + 1` candidates. */
  lemma {:induction false} ProbesBelowHome(w: World, dir: Path, h: nat)
    requires h <= |dir| && IsHome(w, dir[..h])
    ensures Probes(w, dir) <= |dir| - h + 1
    decreases |dir|
  {
    assert dir[..|dir|] == dir;
    if !HasConfig(w, dir) && !Stops(w, dir) {
      var up := Dirname(dir);
      assert h < |dir|;
      assert up[..h] == dir[..h];
      ProbesBelowHome(w, up, h);
    }
  }
}
