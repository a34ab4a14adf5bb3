/**
 * Absolute POSIX paths as sequences of segments below the root, with the two
 * operations of Node's `path` module the configuration search uses:
 * `path.join(dir, name)` and `path.dirname(p)`, and the text of a path.
 */
module Paths {

  /** Segments below the root; `[]` is the root `/`. */
  type Path = seq<string>

  /** `path.join(dir, name)` for a single file name. */
  function Join(dir: Path, name: string): (p: Path)
    ensures |p| == |dir| + 1 && p[|dir|] == name
  {
    dir + [name]
  }

  /** `path.dirname(p)`: drop the last segment; the root is its own parent. */
  function Dirname(p: Path): (q: Path)
    ensures p == [] ==> q == []
    ensures p != [] ==> |q| == |p| - 1 && Join(q, p[|p| - 1]) == p
  {
    if p == [] then [] else p[..|p| - 1]
  }

  lemma DirnameOfJoin(dir: Path, name: string)
    ensures Dirname(Join(dir, name)) == dir
  {
    assert Join(dir, name)[..|dir|] == dir;
  }

  /** The text of a path: `/` for the root, `/a/b` for `["a", "b"]`. */
  function Render(p: Path): (s: string)
    ensures 1 <= |s| && s[0] == '/'
  {
    if p == [] then "/" else Slashed(p)
  }

  /** `"/" + p[0] + "/" + p[1] ...`, the empty string for no segment. */
  function Slashed(p: Path): (s: string)
    ensures p != [] ==> 1 <= |s| && s[0] == '/'
  {
    if p == [] then "" else "/" + p[0] + Slashed(p[1..])
  }

  lemma {:induction false} SlashedJoin(dir: Path, name: string)
    ensures Slashed(Join(dir, name)) == Slashed(dir) + "/" + name
    decreases |dir|
  {
    if dir == [] {
      assert Join(dir, name) == [name];
      assert Slashed([name][1..]) == "";
    } else {
      assert Join(dir, name)[1..] == Join(dir[1..], name);
      SlashedJoin(dir[1..], name);
    }
  }

  /** The text of a path one segment below `dir`. */
  lemma {:induction false} RenderJoin(dir: Path, name: string)
    ensures Render(Join(dir, name)) == Slashed(dir) + ("/" + name)
  {
    SlashedJoin(dir, name);
    assert Slashed(dir) + "/" + name == Slashed(dir) + ("/" + name);
  }

  /** The text of a path two segments below `dir`. */
  lemma {:induction false} RenderTwoBelow(dir: Path, a: string, b: string)
    ensures Render(dir + [a, b]) == Slashed(dir) + ("/" + a + "/" + b)
  {
    var q := Join(dir, a);
    var p := Join(q, b);
    assert p == dir + [a, b];
    SlashedJoin(dir, a);
    SlashedJoin(q, b);
    var s := Slashed(dir);
    var t := Slashed(q);
    assert t == s + "/" + a;
    assert Slashed(p) == t + "/" + b;
    assert (s + "/" + a) + "/" + b == s + ("/" + a + "/" + b);
  }

  /**
   * Comparing the text of a directory with the text of its parent finds the
   * root and, among paths with non-empty segments, only the root.
   */
  lemma RootIsItsOwnParent(p: Path)
    ensures Render(p) == Render(Dirname(p)) <==> p == [] || p == [""]
  {
    if |p| >= 2 {
      var q := Dirname(p);
      SlashedJoin(q, p[|p| - 1]);
      assert |Render(p)| > |Render(q)|;
    } else if |p| == 1 {
      assert Slashed(p[1..]) == "";
      assert Render(p) == "/" + p[0] + "";
      assert "/" + p[0] + "" == "/" + p[0];
      assert Dirname(p) == [];
    }
  }
}
