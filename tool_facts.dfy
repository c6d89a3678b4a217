/**
 * What the tools promise (backend/app/tools.py:39-162), proved of the
 * functions in `Tools`: a write is read back, a delete removes one file, copy
 * and move carry content, listing has its three outcomes, and the tools that
 * only read leave the disk as it was.
 */
module ToolFacts {
  import opened Wrappers
  import opened Models
  import opened Text
  import opened Paths
  import opened FileSystem
  import opened Tools
  import Parser

  /** The sandbox is a resolved absolute directory. */
  predicate ResolvedRoot(s: Sandbox) {
    s.root.absolute && ".." !in s.root.parts
  }

  /** A plain name is a file directly inside the root, which the kernel reaches on any disk. */
  lemma PlainTargets(s: Sandbox, name: string, d: DiskState)
    requires ResolvedRoot(s)
    requires IsComponent(name) && name != ".."
    ensures FullPath(s, name) == Path(true, s.root.parts + [name])
    ensures Parent(FullPath(s, name)) == Path(true, s.root.parts)
    ensures Reach(d, FullPath(s, name), s.cwd) == Ok(s.root.parts + [name])
  {
    PlainNameInsideRoot(s.root, s.cwd, name);
    assert ".." !in s.root.parts + [name];
    assert Origin(FullPath(s, name), s.cwd) == [];
    assert [] + (s.root.parts + [name]) == s.root.parts + [name];
  }

  /** Whatever was written is what a read of the same name returns, up to newline translation. */
  lemma WriteThenRead(s: Sandbox, d: DiskState, name: string, content: string)
    requires Write(s, Some(Str(name)), Some(Str(content)), d).result.Ok?
    ensures Read(s, Some(Str(name)), Write(s, Some(Str(name)), Some(Str(content)), d).disk)
      == Ok(Text(UniversalNewlines(content)))
    ensures '\r' !in content ==>
      Read(s, Some(Str(name)), Write(s, Some(Str(name)), Some(Str(content)), d).disk) == Ok(Text(content))
  {
    var o := Write(s, Some(Str(name)), Some(Str(content)), d);
    var path := FullPath(s, name);
    var d1 := MakePath(d, Parent(path), s.cwd).disk;
    var l := Reach(d1, path, s.cwd).value;
    var d2 := OpenForWrite(d1, l).value;
    assert o.disk == DiskState(d2.files[l := content], d2.dirs);
    ReachMoreDirs(d1, o.disk, path, s.cwd);
  }

  /** "\r" in written text comes back as "\n". */
  lemma CarriageReturnReadBack(s: Sandbox, d: DiskState, name: string)
    requires Write(s, Some(Str(name)), Some(Str("a\rb")), d).result.Ok?
    ensures Read(s, Some(Str(name)), Write(s, Some(Str(name)), Some(Str("a\rb")), d).disk) == Ok(Text("a\nb"))
  {
    WriteThenRead(s, d, name, "a\rb");
    LoneCarriageReturn();
  }

  lemma LoneCarriageReturn()
    ensures UniversalNewlines("a\rb") == "a\nb"
  {
    assert "a\rb"[1..] == "\rb";
    assert "\rb"[1..] == "b";
    assert UniversalNewlines("b") == "b";
    assert UniversalNewlines("\rb") == "\n" + "b";
    assert UniversalNewlines("a\rb") == "a" + UniversalNewlines("\rb");
  }

  /**
   * A plain name whose way is clear is written directly inside the root: the
   * directories down to the root are made, one file gets the content, and
   * nothing else changes.
   */
  lemma WriteInsideRoot(s: Sandbox, d: DiskState, name: string, content: string)
    requires Wellformed(d) && ResolvedRoot(s)
    requires IsComponent(name) && name != ".."
    requires s.root.parts + [name] !in d.dirs && !FileOnTheWay(d, s.root.parts + [name])
    ensures Write(s, Some(Str(name)), Some(Str(content)), d) ==
      Outcome(Ok(BytesWritten(|content|)),
              DiskState(d.files[s.root.parts + [name] := content], d.dirs + Prefixes(s.root.parts)))
  {
    var l := s.root.parts + [name];
    var d1 := DiskState(d.files, d.dirs + Prefixes(s.root.parts));
    RootMade(s, d, name);
    ClearWay(d, s.root.parts, name);
    WriteSteps(s, d, d1, l, DiskState(d.files[l := ""], d1.dirs), name, Some(Str(content)));
    Overwrite(d.files, l, "", content);
  }

  lemma Overwrite(m: map<Loc, string>, l: Loc, a: string, b: string)
    ensures m[l := a][l := b] == m[l := b]
  {
  }

  /** Making the root's directories for a plain name is making every directory down to the root at once. */
  lemma RootMade(s: Sandbox, d: DiskState, name: string)
    requires Wellformed(d) && ResolvedRoot(s)
    requires IsComponent(name) && name != ".."
    requires !FileOnTheWay(d, s.root.parts + [name])
    ensures MakePath(d, Parent(FullPath(s, name)), s.cwd) == Effect(None, DiskState(d.files, d.dirs + Prefixes(s.root.parts)))
    ensures Reach(DiskState(d.files, d.dirs + Prefixes(s.root.parts)), FullPath(s, name), s.cwd) == Ok(s.root.parts + [name])
  {
    var l := s.root.parts + [name];
    PlainTargets(s, name, DiskState(d.files, d.dirs + Prefixes(s.root.parts)));
    MakePathPlain(d, Path(true, s.root.parts), s.cwd);
    assert [] + s.root.parts == s.root.parts;
    WayIsClear(d, l);
    assert l[..|l| - 1] == s.root.parts;
  }

  /** A write whose directories and file open succeed ends as its content says. */
  lemma WriteSteps(s: Sandbox, d: DiskState, d1: DiskState, l: Loc, d2: DiskState, name: string, content: Option<Value>)
    requires MakePath(d, Parent(FullPath(s, name)), s.cwd) == Effect(None, d1)
    requires Reach(d1, FullPath(s, name), s.cwd) == Ok(l)
    requires OpenForWrite(d1, l) == Ok(d2)
    ensures content.Some? && content.value.Str? ==>
      Write(s, Some(Str(name)), content, d) ==
        Outcome(Ok(BytesWritten(|content.value.s|)), DiskState(d2.files[l := content.value.s], d2.dirs))
    ensures !(content.Some? && content.value.Str?) ==>
      Write(s, Some(Str(name)), content, d) == Outcome(Err(NotText("content")), d2)
  {
  }

  /** Making the parent and opening a clear location for writing both succeed. */
  lemma ClearWay(d: DiskState, parent: Loc, name: string)
    requires Wellformed(d)
    requires parent + [name] !in d.dirs && !FileOnTheWay(d, parent + [name])
    ensures MakeDirs(d, parent) == Ok(DiskState(d.files, d.dirs + Prefixes(parent)))
    ensures OpenForWrite(DiskState(d.files, d.dirs + Prefixes(parent)), parent + [name])
      == Ok(DiskState(d.files[parent + [name] := ""], d.dirs + Prefixes(parent)))
  {
    var l := parent + [name];
    assert l[..|l| - 1] == parent;
    WayIsClear(d, l);
    assert |l| > |parent|;
    assert l !in Prefixes(parent);
  }

  /** Nothing strictly above `l` is a file, so neither is its parent or anything above that. */
  lemma WayIsClear(d: DiskState, l: Loc)
    requires l != [] && !FileOnTheWay(d, l)
    ensures l[..|l| - 1] !in d.files && !FileOnTheWay(d, l[..|l| - 1])
  {
    var p := l[..|l| - 1];
    assert l[..|p|] == p;
    forall i | 0 <= i < |p| ensures p[..i] !in d.files {
      assert p[..i] == l[..i];
    }
  }

  /** Content that is not a string still empties the file: it is opened before the write fails. */
  lemma WriteOfNonTextEmptiesFile(s: Sandbox, d: DiskState, name: string, content: Value)
    requires Wellformed(d) && ResolvedRoot(s)
    requires IsComponent(name) && name != ".."
    requires s.root.parts + [name] !in d.dirs && !FileOnTheWay(d, s.root.parts + [name])
    requires !content.Str?
    ensures Write(s, Some(Str(name)), Some(content), d) ==
      Outcome(Err(NotText("content")),
              DiskState(d.files[s.root.parts + [name] := ""], d.dirs + Prefixes(s.root.parts)))
  {
    var l := s.root.parts + [name];
    var d1 := DiskState(d.files, d.dirs + Prefixes(s.root.parts));
    RootMade(s, d, name);
    ClearWay(d, s.root.parts, name);
    WriteSteps(s, d, d1, l, DiskState(d.files[l := ""], d1.dirs), name, Some(content));
  }

  /** Read, delete, copy and move of a missing name fail with the source's message and change nothing. */
  lemma MissingNamesFail(s: Sandbox, d: DiskState, name: string, dest: string)
    requires !PathExists(d, FullPath(s, name), s.cwd)
    ensures Read(s, Some(Str(name)), d) == Err(FileNotFound("File not found: " + name))
    ensures Delete(s, Some(Str(name)), d) == Outcome(Err(FileNotFound("File not found: " + name)), d)
    ensures Copy(s, Some(Str(name)), Some(Str(dest)), d) ==
      Outcome(Err(FileNotFound("Source file not found: " + name)), d)
    ensures MoveFile(s, Some(Str(name)), Some(Str(dest)), d) ==
      Outcome(Err(FileNotFound("Source file not found: " + name)), d)
  {
  }

  /** A delete that succeeds removed exactly one file and no directory. */
  lemma DeleteRemovesOnlyThatFile(s: Sandbox, d: DiskState, name: string)
    requires Delete(s, Some(Str(name)), d).result.Ok?
    ensures Delete(s, Some(Str(name)), d).result == Ok(Deleted)
    ensures Reach(d, FullPath(s, name), s.cwd).Ok? && Reach(d, FullPath(s, name), s.cwd).value in d.files
    ensures Delete(s, Some(Str(name)), d).disk == DiskState(d.files - {Reach(d, FullPath(s, name), s.cwd).value}, d.dirs)
  {
  }

  /** A directory is not deleted: the call fails and the disk stays as it was. */
  lemma DeleteOfDirectoryFails(s: Sandbox, d: DiskState, name: string)
    requires Wellformed(d) && IsDirAt(d, FullPath(s, name), s.cwd)
    ensures Delete(s, Some(Str(name)), d) == Outcome(Err(Os(IsADirectory)), d)
  {
  }

  /**
   * A copy that succeeds gives the destination the source's content and leaves
   * every other file, the source among them, as it was.
   */
  lemma CopyKeepsSource(s: Sandbox, d: DiskState, source: string, dest: string)
    requires Copy(s, Some(Str(source)), Some(Str(dest)), d).result.Ok?
    ensures Reach(d, FullPath(s, source), s.cwd).Ok? && Reach(d, FullPath(s, source), s.cwd).value in d.files
    ensures MakePath(d, Parent(FullPath(s, dest)), s.cwd).error.None?
    ensures Reach(MakePath(d, Parent(FullPath(s, dest)), s.cwd).disk, FullPath(s, dest), s.cwd).Ok?
    ensures
      var made := MakePath(d, Parent(FullPath(s, dest)), s.cwd);
      var from := Reach(d, FullPath(s, source), s.cwd).value;
      var to := Reach(made.disk, FullPath(s, dest), s.cwd).value;
      var o := Copy(s, Some(Str(source)), Some(Str(dest)), d);
      var t := Destination(o.disk, from, to);
      && t != from
      && o.result == Ok(Copied)
      && o.disk.files == d.files[t := d.files[from]]
      && o.disk.files[from] == d.files[from]
      && o.disk.dirs == made.disk.dirs
  {
    var made := MakePath(d, Parent(FullPath(s, dest)), s.cwd);
    ReachMoreDirs(d, made.disk, FullPath(s, source), s.cwd);
  }

  /**
   * A move between two different places that succeeds takes the source away
   * and gives its content to the destination; other files are unchanged.
   */
  lemma MoveTransfersContent(s: Sandbox, d: DiskState, source: string, dest: string)
    requires MoveFile(s, Some(Str(source)), Some(Str(dest)), d).result.Ok?
    ensures Reach(d, FullPath(s, source), s.cwd).Ok?
    ensures MakePath(d, Parent(FullPath(s, dest)), s.cwd).error.None?
    ensures Reach(MakePath(d, Parent(FullPath(s, dest)), s.cwd).disk, FullPath(s, dest), s.cwd).Ok?
    ensures
      var made := MakePath(d, Parent(FullPath(s, dest)), s.cwd);
      var from := Reach(d, FullPath(s, source), s.cwd).value;
      var to := Reach(made.disk, FullPath(s, dest), s.cwd).value;
      var o := MoveFile(s, Some(Str(source)), Some(Str(dest)), d);
      var t := Destination(o.disk, from, to);
      && o.result == Ok(Moved)
      && o.disk.dirs == made.disk.dirs
      && (from != to ==>
          && from in d.files
          && from !in o.disk.files
          && o.disk.files == (d.files - {from})[t := d.files[from]])
  {
    var made := MakePath(d, Parent(FullPath(s, dest)), s.cwd);
    ReachMoreDirs(d, made.disk, FullPath(s, source), s.cwd);
  }

  // ---------------------------------------------------------------------------
  // Listing

  /** Without a "path" argument the listing is that of the root. */
  lemma ListDefaultsToRoot(s: Sandbox, d: DiskState, clock: ClockReading)
    ensures Dispatch(s, "files.list", map[], clock, d) == Outcome(List(s, Some(Str("")), d), d)
    ensures List(s, Some(Str("")), d) == List(s, None, d)
    ensures ListTarget(s, Some(Str(""))) == Ok(s.root)
  {
  }

  /** A listing of something missing is empty. */
  lemma ListOfMissingIsEmpty(s: Sandbox, d: DiskState, path: string)
    requires path != "" && !PathExists(d, FullPath(s, path), s.cwd)
    ensures List(s, Some(Str(path)), d) == Ok(Entries([]))
  {
  }

  /** A listing of a file fails with "Not a directory". */
  lemma ListOfFileFails(s: Sandbox, d: DiskState, path: string)
    requires Wellformed(d)
    requires path != "" && Reach(d, FullPath(s, path), s.cwd).Ok? && Reach(d, FullPath(s, path), s.cwd).value in d.files
    ensures List(s, Some(Str(path)), d) == Err(NotADirectoryValue("Not a directory: " + path))
  {
  }

  /** A listing of a directory holds each of its entries once, in sorted order. */
  lemma ListOfDirectory(s: Sandbox, d: DiskState, path: string)
    requires path != "" && IsDirAt(d, FullPath(s, path), s.cwd)
    ensures List(s, Some(Str(path)), d).Ok?
    ensures StrictlySorted(List(s, Some(Str(path)), d).value.names)
    ensures forall name :: name in List(s, Some(Str(path)), d).value.names <==>
      Exists(d, Reach(d, FullPath(s, path), s.cwd).value + [name])
  {
    var names := List(s, Some(Str(path)), d).value.names;
    var l := Reach(d, FullPath(s, path), s.cwd).value;
    forall name ensures name in names <==> Exists(d, l + [name]) {
      ChildMeansEntry(d, l, name);
      assert name in names <==> name in Elems(names);
    }
  }

  // ---------------------------------------------------------------------------
  // Dispatch

  /** Time, read, list, app launch and privilege requests never touch the disk; neither does an unknown tool. */
  lemma ReadOnlyTools(s: Sandbox, tool: string, args: Args, clock: ClockReading, d: DiskState)
    requires tool in {"system.time", "files.read", "files.list", "apps.open", "privilege.request"} || tool !in KnownTools
    ensures Dispatch(s, tool, args, clock, d).disk == d
  {
  }

  /** A privilege request is not executed: it reports that approval is pending. */
  lemma PrivilegeRequestPending(s: Sandbox, args: Args, clock: ClockReading, d: DiskState)
    ensures Dispatch(s, "privilege.request", args, clock, d) == Outcome(Ok(PendingApproval), d)
  {
  }

  /** Opening an app is simulated: it echoes the app argument. */
  lemma OpenAppEchoes(s: Sandbox, args: Args, clock: ClockReading, d: DiskState)
    ensures Dispatch(s, "apps.open", args, clock, d) == Outcome(Ok(Opened(Get(args, "app"), AppNote)), d)
    ensures "app" in args ==> Dispatch(s, "apps.open", args, clock, d).result.value.app == Some(args["app"])
  {
  }

  // ---------------------------------------------------------------------------
  // The sandbox boundary

  /** A file name the parser captures, other than "..", resolves inside the root. */
  lemma ParsedNameStaysInside(root: Path, cwd: Loc, name: string)
    requires root.absolute && ".." !in root.parts
    requires Parser.IsName(name) && name != ".."
    ensures IsSafePath(root, GetFullPath(root, cwd, name))
  {
    assert forall i :: 0 <= i < |name| ==> name[i] != '/';
    if name == "." {
      assert Split(".") == ["."];
      CollapseIdentity(root.parts);
      assert root.parts + [] == root.parts;
    } else {
      PlainNameInsideRoot(root, cwd, name);
    }
  }

  /** An absolute path given to the list tool is listed wherever it is. */
  lemma ListReachesOutsideRoot(s: Sandbox, args: Args, clock: ClockReading, d: DiskState)
    requires s.root == Path(true, ["sandbox"]) && args == map["path" := Str("/etc")]
    requires ["etc"] in d.dirs
    ensures !IsSafePath(s.root, GetFullPath(s.root, s.cwd, "/etc"))
    ensures Dispatch(s, "files.list", args, clock, d) == Outcome(Ok(Entries(SortedNames(Children(d, ["etc"])))), d)
  {
    AbsoluteBypassesRoot(s.root, s.cwd);
    ListOfEtc(s, d);
    assert "path" in args && args["path"] == Str("/etc");
  }

  lemma ListOfEtc(s: Sandbox, d: DiskState)
    requires s.root == Path(true, ["sandbox"])
    requires ["etc"] in d.dirs
    ensures List(s, Some(Str("/etc")), d) == Ok(Entries(SortedNames(Children(d, ["etc"]))))
  {
    AbsoluteBypassesRoot(s.root, s.cwd);
    assert Collapse(["etc"]) == Step(Collapse([]), "etc");
    assert ListTarget(s, Some(Str("/etc"))) == Ok(Path(true, ["etc"]));
    assert ".." !in ["etc"];
    assert [] + ["etc"] == ["etc"];
  }

  /**
   * An absolute path is walked, not resolved: "/nope/../etc" with "/nope"
   * missing lists nothing, whatever "/etc" holds.
   */
  lemma ListThroughMissing(s: Sandbox, d: DiskState)
    requires !Exists(d, ["nope"])
    ensures List(s, Some(Str("/nope/../etc")), d) == Ok(Entries([]))
    ensures Resolve(FromString("/nope/../etc"), s.cwd) == Path(true, ["etc"])
  {
    var p := NopeEtc();
    assert ListTarget(s, Some(Str("/nope/../etc"))) == Ok(p);
    assert p.parts[1..] == ["..", "etc"];
    assert Walk(d, ["nope"], ["..", "etc"]).Err?;
    NopeEtcResolves(s.cwd);
  }

  lemma NopeEtc() returns (p: Path)
    ensures p == Path(true, ["nope", "..", "etc"])
    ensures FromString("/nope/../etc") == p
  {
    p := Path(true, ["nope", "..", "etc"]);
    assert JoinParts(["etc"]) == "etc";
    assert JoinParts(["..", "etc"]) == ".." + "/" + "etc";
    assert JoinParts(p.parts) == "nope" + "/" + "../etc";
    assert ToString(p) == "/nope/../etc";
    assert WellFormed(p) by {
      assert IsComponent("nope") && IsComponent("..") && IsComponent("etc");
    }
    ParsePrinted(p);
  }

  lemma NopeEtcResolves(cwd: Loc)
    ensures Resolve(Path(true, ["nope", "..", "etc"]), cwd) == Path(true, ["etc"])
  {
    assert ["nope", "..", "etc"][..2] == ["nope", ".."];
    assert ["nope", ".."][..1] == ["nope"];
    assert ["nope"][..0] == [];
    assert Collapse(["nope"]) == ["nope"];
    assert Collapse(["nope", ".."]) == [];
  }
}
