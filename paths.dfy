/**
 * POSIX paths as pathlib sees them (backend/app/tools.py:20-37). A path is a
 * flag for the leading '/' and its list of components; pathlib drops empty
 * and "." components when it parses a string but keeps "..", which only
 * `resolve()` removes.
 */
module Paths {
  import opened Text

  datatype Path = Path(absolute: bool, parts: seq<string>)

  /** A component pathlib can keep: not empty, not ".", no separator. */
  predicate IsComponent(c: string) {
    c != "" && c != "." && '/' !in c
  }

  predicate WellFormed(p: Path) {
    forall i :: 0 <= i < |p.parts| ==> IsComponent(p.parts[i])
  }

  // ---------------------------------------------------------------------------
  // From text to path and back

  /** The pieces of `s` between its '/' separators (`s.split("/")`). */
  function Split(s: string): (r: seq<string>)
    ensures |r| >= 1
    ensures forall i :: 0 <= i < |r| ==> '/' !in r[i]
    decreases |s|
  {
    var i := IndexOf(s, '/');
    if i == |s| then [s] else [s[..i]] + Split(s[i + 1..])
  }

  /** The pieces joined with '/' between them (`"/".join(parts)`). */
  function JoinParts(parts: seq<string>): (s: string)
    ensures parts == [] ==> s == ""
  {
    if parts == [] then ""
    else if |parts| == 1 then parts[0]
    else parts[0] + "/" + JoinParts(parts[1..])
  }

  /** The pieces pathlib keeps as components. */
  function Components(pieces: seq<string>): (r: seq<string>)
    ensures forall i :: 0 <= i < |r| ==> IsComponent(r[i])
    ensures |r| <= |pieces|
  {
    if pieces == [] then []
    else if IsComponent(pieces[0]) then [pieces[0]] + Components(pieces[1..])
    else Components(pieces[1..])
  }

  /** `Path(s)`. */
  function FromString(s: string): (p: Path)
    ensures WellFormed(p)
    ensures p.absolute <==> |s| > 0 && s[0] == '/'
  {
    Path(|s| > 0 && s[0] == '/', Components(Split(s)))
  }

  /** `str(p)`: the empty relative path prints as ".". */
  function ToString(p: Path): string {
    if p.absolute then "/" + JoinParts(p.parts)
    else if p.parts == [] then "."
    else JoinParts(p.parts)
  }

  /** The first separator of `a + "/" + b` is the one after `a`. */
  lemma {:induction false} SeparatorAfter(a: string, b: string)
    requires '/' !in a
    ensures IndexOf(a + "/" + b, '/') == |a|
    decreases |a|
  {
    if a != [] {
      assert (a + "/" + b)[1..] == a[1..] + "/" + b;
      SeparatorAfter(a[1..], b);
    }
  }

  lemma {:induction false} SplitJoin(parts: seq<string>)
    requires |parts| >= 1
    requires forall i :: 0 <= i < |parts| ==> '/' !in parts[i]
    ensures Split(JoinParts(parts)) == parts
    decreases |parts|
  {
    if |parts| == 1 {
      assert IndexOf(parts[0], '/') == |parts[0]|;
    } else {
      var s := JoinParts(parts);
      var rest := JoinParts(parts[1..]);
      assert s == parts[0] + "/" + rest;
      SeparatorAfter(parts[0], rest);
      assert s[..|parts[0]|] == parts[0];
      assert s[|parts[0]| + 1..] == rest;
      SplitJoin(parts[1..]);
    }
  }

  lemma {:induction false} ComponentsKeep(parts: seq<string>)
    requires forall i :: 0 <= i < |parts| ==> IsComponent(parts[i])
    ensures Components(parts) == parts
    decreases |parts|
  {
    if parts != [] {
      ComponentsKeep(parts[1..]);
    }
  }

  /** Printing a parsed path and parsing it again gives the same path. */
  lemma ParsePrinted(p: Path)
    requires WellFormed(p)
    ensures FromString(ToString(p)) == p
  {
    if p.parts == [] {
      if p.absolute {
        RootPrinted();
      } else {
        assert Split(".") == ["."];
      }
    } else {
      SplitJoin(p.parts);
      ComponentsKeep(p.parts);
      if p.absolute {
        AbsolutePrinted(p.parts);
      } else {
        RelativePrinted(p.parts);
      }
    }
  }

  lemma RootPrinted()
    ensures FromString("/") == Path(true, [])
  {
    assert IndexOf("/", '/') == 0;
    assert "/"[1..] == "";
    assert Split("") == [""];
    assert Split("/") == ["", ""];
  }

  lemma AbsolutePrinted(parts: seq<string>)
    requires parts != [] && Split(JoinParts(parts)) == parts && Components(parts) == parts
    ensures Split("/" + JoinParts(parts)) == [""] + parts
    ensures Components([""] + parts) == parts
  {
    var s := "/" + JoinParts(parts);
    assert IndexOf(s, '/') == 0;
    assert s[1..] == JoinParts(parts);
    assert ([""] + parts)[1..] == parts;
  }

  /** A relative path prints with its first component first, so not with '/'. */
  lemma RelativePrinted(parts: seq<string>)
    requires parts != [] && IsComponent(parts[0])
    ensures |JoinParts(parts)| > 0 && JoinParts(parts)[0] == parts[0][0]
  {
    var j := JoinParts(parts);
    assert j == parts[0] + j[|parts[0]|..] by {
      if |parts| > 1 {
        assert j == parts[0] + "/" + JoinParts(parts[1..]);
      }
    }
  }

  // ---------------------------------------------------------------------------
  // Lexical resolution

  /** One step of `resolve()`: ".." leaves a directory, the root has no parent. */
  function Step(acc: seq<string>, c: string): (r: seq<string>)
    ensures c == ".." ==> r <= acc && |r| == if acc == [] then 0 else |acc| - 1
    ensures c != ".." ==> |r| == |acc| + 1 && r[..|acc|] == acc && r[|acc|] == c
  {
    if c == ".." then (if acc == [] then [] else acc[..|acc| - 1]) else acc + [c]
  }

  /** Resolves every ".." of an absolute component list from left to right. */
  function Collapse(parts: seq<string>): (r: seq<string>)
    ensures ".." !in r
    ensures |r| <= |parts|
    decreases |parts|
  {
    if parts == [] then [] else Step(Collapse(parts[..|parts| - 1]), parts[|parts| - 1])
  }

  /** Entering a directory and leaving it again comes back to where one was. */
  lemma StepBack(acc: seq<string>, c: string)
    requires c != ".."
    ensures Step(Step(acc, c), "..") == acc
  {
  }

  /** Components without ".." are kept after what came before them. */
  lemma {:induction false} CollapseAppend(xs: seq<string>, ys: seq<string>)
    requires ".." !in ys
    ensures Collapse(xs + ys) == Collapse(xs) + ys
    decreases |ys|
  {
    if ys != [] {
      var n := |ys| - 1;
      assert (xs + ys)[..|xs + ys| - 1] == xs + ys[..n];
      assert ys[n] in ys;
      CollapseAppend(xs, ys[..n]);
      assert ys == ys[..n] + [ys[n]];
    } else {
      assert xs + ys == xs;
    }
  }

  lemma CollapseIdentity(parts: seq<string>)
    requires ".." !in parts
    ensures Collapse(parts) == parts
  {
    CollapseAppend([], parts);
    assert [] + parts == parts;
  }

  /** Resolving a prefix first changes nothing about the whole. */
  lemma {:induction false} CollapseThrough(xs: seq<string>, ys: seq<string>)
    ensures Collapse(xs + ys) == Collapse(Collapse(xs) + ys)
    decreases |ys|
  {
    if ys == [] {
      assert xs + ys == xs;
      assert Collapse(xs) + ys == Collapse(xs);
      CollapseIdentity(Collapse(xs));
    } else {
      var n := |ys| - 1;
      assert (xs + ys)[..|xs + ys| - 1] == xs + ys[..n];
      assert (Collapse(xs) + ys)[..|Collapse(xs) + ys| - 1] == Collapse(xs) + ys[..n];
      CollapseThrough(xs, ys[..n]);
    }
  }

  /** `resolve()` on a path: a relative one is first put under `cwd`. */
  function Resolve(p: Path, cwd: seq<string>): (r: Path)
    ensures r.absolute
    ensures ".." !in r.parts
  {
    var parts := if p.absolute then p.parts else cwd + p.parts;
    Path(true, Collapse(parts))
  }

  /** `root / rel` for a relative `rel`. */
  function Join(root: Path, rel: Path): (r: Path)
    ensures r.absolute == root.absolute
    ensures r.parts == root.parts + rel.parts
  {
    Path(root.absolute, root.parts + rel.parts)
  }

  /** `p.parent`: the last component dropped; the root and "." are their own parents. */
  function Parent(p: Path): (r: Path)
    ensures r.absolute == p.absolute
    ensures r.parts <= p.parts
    ensures p.parts != [] ==> |r.parts| == |p.parts| - 1
  {
    Path(p.absolute, if p.parts == [] then [] else p.parts[..|p.parts| - 1])
  }

  /** `expanduser()`: a leading "~" component becomes the home directory. */
  function ExpandUser(p: Path, home: seq<string>): (r: Path)
    ensures (!p.absolute && p.parts != [] && p.parts[0] == "~") ==> r == Path(true, home + p.parts[1..])
    ensures (p.absolute || p.parts == [] || p.parts[0] != "~") ==> r == p
  {
    if !p.absolute && p.parts != [] && p.parts[0] == "~" then Path(true, home + p.parts[1..]) else p
  }

  // ---------------------------------------------------------------------------
  // The executor's path rules

  /** `get_full_path`: an absolute name as it is, a relative one under the root, resolved. */
  function GetFullPath(root: Path, cwd: seq<string>, filename: string): (r: Path)
    ensures r.absolute
    ensures FromString(filename).absolute ==> r == FromString(filename)
    ensures !FromString(filename).absolute ==> r == Resolve(Join(root, FromString(filename)), cwd)
  {
    var p := FromString(filename);
    if p.absolute then p else Resolve(Join(root, p), cwd)
  }

  /** `is_safe_path`: `p.relative_to(root)` succeeds, component by component. */
  predicate IsSafePath(root: Path, p: Path): (b: bool)
    ensures b <==> exists rest :: p == Path(root.absolute, root.parts + rest)
  {
    var b := p.absolute == root.absolute && root.parts <= p.parts;
    assert b ==> p == Path(root.absolute, root.parts + p.parts[|root.parts|..]);
    b
  }

  /** Resolution of a relative name with no ".." keeps it under a resolved root. */
  lemma RelativeNameStaysInside(root: Path, cwd: seq<string>, filename: string)
    requires root.absolute && ".." !in root.parts
    requires !FromString(filename).absolute && ".." !in FromString(filename).parts
    ensures GetFullPath(root, cwd, filename) == Path(true, root.parts + FromString(filename).parts)
    ensures IsSafePath(root, GetFullPath(root, cwd, filename))
  {
    var rel := FromString(filename).parts;
    CollapseIdentity(root.parts);
    CollapseAppend(root.parts, rel);
  }

  /** A name with no '/' other than "." and ".." is a single component. */
  lemma PlainName(name: string)
    requires IsComponent(name) && name != ".."
    ensures FromString(name) == Path(false, [name])
  {
    assert IndexOf(name, '/') == |name|;
    assert name[0] != '/' by { assert name[0] in name; }
  }

  /** A plain file name resolves to a file directly inside the root. */
  lemma PlainNameInsideRoot(root: Path, cwd: seq<string>, name: string)
    requires root.absolute && ".." !in root.parts
    requires IsComponent(name) && name != ".."
    ensures GetFullPath(root, cwd, name) == Path(true, root.parts + [name])
  {
    PlainName(name);
    RelativeNameStaysInside(root, cwd, name);
  }

  /** ".." resolves to the root's parent, which is not safe. */
  lemma ParentEscapes(root: Path, cwd: seq<string>)
    requires root == Path(true, ["sandbox"])
    ensures GetFullPath(root, cwd, "..") == Path(true, [])
    ensures !IsSafePath(root, GetFullPath(root, cwd, ".."))
  {
    assert IndexOf("..", '/') == 2;
    assert Split("..") == [".."];
    assert Components([".."]) == [".."];
    assert Collapse(["sandbox", ".."]) == Step(Collapse(["sandbox"]), "..");
    assert Collapse(["sandbox"]) == Step(Collapse([]), "sandbox");
  }

  /** An absolute name is taken as it is, wherever it points. */
  lemma AbsoluteBypassesRoot(root: Path, cwd: seq<string>)
    requires root == Path(true, ["sandbox"])
    ensures GetFullPath(root, cwd, "/etc") == Path(true, ["etc"])
    ensures !IsSafePath(root, GetFullPath(root, cwd, "/etc"))
  {
    assert IndexOf("/etc", '/') == 0;
    assert "/etc"[1..] == "etc";
    assert IndexOf("etc", '/') == 3;
    assert Split("/etc") == ["", "etc"];
    assert Components(["", "etc"]) == Components(["etc"]);
  }

  /** The check compares components: "/sandboxed/x" is not under "/sandbox". */
  lemma ComponentwiseNotTextual()
    ensures StartsWith(ToString(Path(true, ["sandboxed", "x"])), ToString(Path(true, ["sandbox"])))
    ensures !IsSafePath(Path(true, ["sandbox"]), Path(true, ["sandboxed", "x"]))
  {
    assert ToString(Path(true, ["sandbox"])) == "/sandbox";
    assert JoinParts(["sandboxed", "x"]) == "sandboxed" + "/" + "x";
    assert ToString(Path(true, ["sandboxed", "x"])) == "/sandboxed/x";
    assert "/sandbox" <= "/sandboxed/x";
    assert ["sandbox"] != ["sandboxed"];
  }
}
