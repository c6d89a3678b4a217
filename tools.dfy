/**
 * The tool executor of backend/app/tools.py. The functions give, for each
 * tool, the result and the disk afterwards; `ToolExecutor` runs the same steps
 * against a `Disk` and is proved to agree with them.
 */
module Tools {
  import opened Wrappers
  import opened Models
  import opened Text
  import opened Paths
  import opened FileSystem

  /** The root an executor works under and the process's working directory. */
  datatype Sandbox = Sandbox(root: Path, cwd: Loc)

  /** What a tool raises; `str(e)` of each is given by `ErrorText`. */
  datatype Failure =
    | FileNotFound(message: string)
    | NotADirectoryValue(message: string)
    | UnknownTool(message: string)
    | NotText(argument: string)
    | Os(error: OsError)

  /** A tool's result together with the disk it leaves behind. */
  datatype Outcome = Outcome(result: Result<Payload, Failure>, disk: DiskState)

  /** The nine tool names `execute` dispatches on. */
  const KnownTools: set<string> := {
    "system.time", "files.write", "files.read", "files.delete", "files.copy",
    "files.move", "files.list", "apps.open", "privilege.request"
  }

  const AppNote: string := "Application opening is simulated in this version"

  /** The text of an error as it is recorded; operating-system texts are abstracted to their kind. */
  function ErrorText(f: Failure): (t: string)
    ensures f.FileNotFound? || f.NotADirectoryValue? || f.UnknownTool? ==> t == f.message
    ensures f.Os? || f.NotText? ==> t != ""
  {
    match f
    case FileNotFound(m) => m
    case NotADirectoryValue(m) => m
    case UnknownTool(m) => m
    case NotText(_) => "expected str, bytes or os.PathLike object"
    case Os(e) =>
      match e
      case NoSuchFile => "No such file or directory"
      case IsADirectory => "Is a directory"
      case NotADirectory => "Not a directory"
      case FileExists => "File exists"
      case SameFile => "are the same file"
      case DestinationExists => "Destination path already exists"
      case DirectoryMove => "moving a directory is not modelled"
  }

  /** The recorded text of an operating-system error tells which error it was. */
  lemma OsTextsDistinct(e1: OsError, e2: OsError)
    ensures ErrorText(Os(e1)) == ErrorText(Os(e2)) ==> e1 == e2
  {
  }

  /** `args.get(key)`. */
  function Get(args: Args, key: string): (r: Option<Value>)
    ensures r.Some? <==> key in args
    ensures r.Some? ==> r.value == args[key]
  {
    if key in args then Some(args[key]) else None
  }

  /** The argument as a string, when it is one; `Path` raises on anything else. */
  function TextArg(v: Option<Value>): (r: Option<string>)
    ensures r.Some? <==> v.Some? && v.value.Str?
    ensures r.Some? ==> v == Some(Str(r.value))
  {
    match v
    case Some(Str(s)) => Some(s)
    case _ => None
  }

  /** Python truthiness of an argument value. */
  predicate Truthy(v: Value) {
    match v
    case Str(s) => s != ""
    case Int(i) => i != 0
    case Bool(b) => b
    case StrList(xs) => xs != []
  }

  /** `str(v)` for a string or a value that is false. */
  function Shown(v: Value): string
    requires v.Str? || !Truthy(v)
  {
    match v
    case Str(s) => s
    case Int(_) => "0"
    case Bool(_) => "False"
    case StrList(_) => "[]"
  }

  /** `get_full_path(name)` in this sandbox. */
  function FullPath(s: Sandbox, name: string): Path {
    GetFullPath(s.root, s.cwd, name)
  }

  /** `ToolExecutor(root_path)`: an empty root path means the configured sandbox. */
  function RootOf(rootPath: string, sandboxPath: string, home: Loc): (r: Path)
    ensures rootPath != "" ==> r == ExpandUser(FromString(rootPath), home)
    ensures rootPath == "" ==> r == ExpandUser(FromString(sandboxPath), home)
  {
    ExpandUser(FromString(if rootPath != "" then rootPath else sandboxPath), home)
  }

  /** The names in a set, in Python's sorted order. */
  ghost function SortedNames(names: set<string>): (r: seq<string>)
    ensures StrictlySorted(r)
    ensures Elems(r) == names
    decreases |names|
  {
    if names == {} then []
    else
      var x :| x in names;
      Insert(SortedNames(names - {x}), x)
  }

  // ---------------------------------------------------------------------------
  // One function per tool

  function SystemTime(clock: ClockReading): (r: Payload)
    ensures r.TimeNow? && r.nowIso == clock.nowIso && r.unix == clock.unix
  {
    TimeNow(clock.nowIso, clock.unix)
  }

  /** `files_write`: make the parent directories, open for writing, write. */
  function Write(s: Sandbox, filename: Option<Value>, content: Option<Value>, d: DiskState): (o: Outcome)
    ensures Wellformed(d) ==> Wellformed(o.disk)
    ensures o.result.Ok? ==> o.result.value.BytesWritten? && content.Some? && content.value.Str?
    ensures o.result.Ok? ==> o.result.value.count == |content.value.s|
  {
    match TextArg(filename)
    case None => Outcome(Err(NotText("filename")), d)
    case Some(f) =>
      var path := FullPath(s, f);
      var made := MakePath(d, Parent(path), s.cwd);
      if made.error.Some? then Outcome(Err(Os(made.error.value)), made.disk)
      else
        var d1 := made.disk;
        match Reach(d1, path, s.cwd)
        case Err(e) => Outcome(Err(Os(e)), d1)
        case Ok(l) =>
          match OpenForWrite(d1, l)
          case Err(e) => Outcome(Err(Os(e)), d1)
          case Ok(d2) =>
            match TextArg(content)
            case None => Outcome(Err(NotText("content")), d2)
            case Some(c) =>
              assert Wellformed(d2) ==> Wellformed(DiskState(d2.files[l := c], d2.dirs)) by {
                if Wellformed(d2) { assert l in d2.files; }
              }
              Outcome(Ok(BytesWritten(|c|)), DiskState(d2.files[l := c], d2.dirs))
  }

  /** `files_read`. */
  function Read(s: Sandbox, filename: Option<Value>, d: DiskState): (r: Result<Payload, Failure>)
    ensures r.Ok? ==> r.value.Text?
  {
    match TextArg(filename)
    case None => Err(NotText("filename"))
    case Some(f) =>
      var path := FullPath(s, f);
      if !PathExists(d, path, s.cwd) then Err(FileNotFound("File not found: " + f))
      else
        match ReadText(d, Reach(d, path, s.cwd).value)
        case Err(e) => Err(Os(e))
        case Ok(text) => Ok(Text(text))
  }

  /** `files_delete`. */
  function Delete(s: Sandbox, filename: Option<Value>, d: DiskState): (o: Outcome)
    ensures Wellformed(d) ==> Wellformed(o.disk)
    ensures o.result.Err? ==> o.disk == d
  {
    match TextArg(filename)
    case None => Outcome(Err(NotText("filename")), d)
    case Some(f) =>
      var path := FullPath(s, f);
      if !PathExists(d, path, s.cwd) then Outcome(Err(FileNotFound("File not found: " + f)), d)
      else
        match Unlink(d, Reach(d, path, s.cwd).value)
        case Err(e) => Outcome(Err(Os(e)), d)
        case Ok(d1) => Outcome(Ok(Deleted), d1)
  }

  /** `files_copy`. */
  function Copy(s: Sandbox, source: Option<Value>, dest: Option<Value>, d: DiskState): (o: Outcome)
    ensures Wellformed(d) ==> Wellformed(o.disk)
  {
    match (TextArg(source), TextArg(dest))
    case (None, _) => Outcome(Err(NotText("source")), d)
    case (_, None) => Outcome(Err(NotText("dest")), d)
    case (Some(src), Some(dst)) =>
      var from := FullPath(s, src);
      var to := FullPath(s, dst);
      if !PathExists(d, from, s.cwd) then Outcome(Err(FileNotFound("Source file not found: " + src)), d)
      else
        var made := MakePath(d, Parent(to), s.cwd);
        if made.error.Some? then Outcome(Err(Os(made.error.value)), made.disk)
        else
          var d1 := made.disk;
          match (Reach(d1, from, s.cwd), Reach(d1, to, s.cwd))
          case (Err(e), _) => Outcome(Err(Os(e)), d1)
          case (_, Err(e)) => Outcome(Err(Os(e)), d1)
          case (Ok(a), Ok(b)) =>
            match Copy2(d1, a, b)
            case Err(e) => Outcome(Err(Os(e)), d1)
            case Ok(d2) => Outcome(Ok(Copied), d2)
  }

  /** `files_move`. */
  function MoveFile(s: Sandbox, source: Option<Value>, dest: Option<Value>, d: DiskState): (o: Outcome)
    ensures Wellformed(d) ==> Wellformed(o.disk)
  {
    match (TextArg(source), TextArg(dest))
    case (None, _) => Outcome(Err(NotText("source")), d)
    case (_, None) => Outcome(Err(NotText("dest")), d)
    case (Some(src), Some(dst)) =>
      var from := FullPath(s, src);
      var to := FullPath(s, dst);
      if !PathExists(d, from, s.cwd) then Outcome(Err(FileNotFound("Source file not found: " + src)), d)
      else
        var made := MakePath(d, Parent(to), s.cwd);
        if made.error.Some? then Outcome(Err(Os(made.error.value)), made.disk)
        else
          var d1 := made.disk;
          match (Reach(d1, from, s.cwd), Reach(d1, to, s.cwd))
          case (Err(e), _) => Outcome(Err(Os(e)), d1)
          case (_, Err(e)) => Outcome(Err(Os(e)), d1)
          case (Ok(a), Ok(b)) =>
            match Move(d1, a, b)
            case Err(e) => Outcome(Err(Os(e)), d1)
            case Ok(d2) => Outcome(Ok(Moved), d2)
  }

  /** The directory `files_list` looks at, or the error raised on the way. */
  function ListTarget(s: Sandbox, path: Option<Value>): (r: Result<Path, Failure>)
    ensures r.Err? ==> r.error.NotText?
  {
    var v := if path.Some? then path.value else Str("");
    if !Truthy(v) then Ok(s.root)
    else if v.Str? then Ok(GetFullPath(s.root, s.cwd, v.s))
    else Err(NotText("path"))
  }

  /** `files_list`. */
  ghost function List(s: Sandbox, path: Option<Value>, d: DiskState): (r: Result<Payload, Failure>)
    ensures r.Ok? ==> r.value.Entries? && StrictlySorted(r.value.names)
  {
    match ListTarget(s, path)
    case Err(e) => Err(e)
    case Ok(target) =>
      var v := if path.Some? then path.value else Str("");
      if !PathExists(d, target, s.cwd) then Ok(Entries([]))
      else
        var l := Reach(d, target, s.cwd).value;
        if l !in d.dirs then Err(NotADirectoryValue("Not a directory: " + Shown(v)))
        else Ok(Entries(SortedNames(Children(d, l))))
  }

  function OpenApp(app: Option<Value>): (r: Payload)
    ensures r.Opened? && r.app == app && r.note == AppNote
  {
    Opened(app, AppNote)
  }

  /** `execute`: dispatch on the tool name. */
  ghost function Dispatch(s: Sandbox, tool: string, args: Args, clock: ClockReading, d: DiskState): (o: Outcome)
    ensures Wellformed(d) ==> Wellformed(o.disk)
    ensures tool !in KnownTools <==> o.result.Err? && o.result.error.UnknownTool?
    ensures tool !in KnownTools ==> o == Outcome(Err(UnknownTool("Unknown tool: " + tool)), d)
  {
    if tool in KnownTools then RunKnown(s, tool, args, clock, d)
    else Outcome(Err(UnknownTool("Unknown tool: " + tool)), d)
  }

  /** The branches of `execute` for the nine tools it knows. */
  ghost function RunKnown(s: Sandbox, tool: string, args: Args, clock: ClockReading, d: DiskState): (o: Outcome)
    requires tool in KnownTools
    ensures Wellformed(d) ==> Wellformed(o.disk)
    ensures !(o.result.Err? && o.result.error.UnknownTool?)
  {
    if tool == "system.time" then Outcome(Ok(SystemTime(clock)), d)
    else if tool == "files.write" then Write(s, Get(args, "filename"), Get(args, "content"), d)
    else if tool == "files.read" then Outcome(Read(s, Get(args, "filename"), d), d)
    else if tool == "files.delete" then Delete(s, Get(args, "filename"), d)
    else if tool == "files.copy" then Copy(s, Get(args, "source"), Get(args, "dest"), d)
    else if tool == "files.move" then MoveFile(s, Get(args, "source"), Get(args, "dest"), d)
    else if tool == "files.list" then
      Outcome(List(s, if "path" in args then Some(args["path"]) else Some(Str("")), d), d)
    else if tool == "apps.open" then Outcome(Ok(OpenApp(Get(args, "app"))), d)
    else Outcome(Ok(PendingApproval), d)
  }

  /** An entry directly inside `l` is `l` and its name. */
  lemma LastComponent(e: Loc, l: Loc)
    requires |e| == |l| + 1 && e[..|l|] == l
    ensures e == l + [e[|l|]]
  {
    assert e == e[..|l|] + [e[|l|]];
  }

  /** The names `iterdir` yields are exactly the children of the directory. */
  lemma NamesOfEntries(d: DiskState, l: Loc, items: seq<Loc>, names: seq<string>)
    requires forall k :: 0 <= k < |items| ==> Exists(d, items[k]) && |items[k]| == |l| + 1 && items[k][..|l|] == l
    requires forall e :: Exists(d, e) && |e| == |l| + 1 && e[..|l|] == l ==> e in items
    requires |names| == |items|
    requires forall k :: 0 <= k < |items| ==> names[k] == items[k][|l|]
    ensures Elems(names) == Children(d, l)
  {
    forall name | name in Children(d, l) ensures name in Elems(names) {
      ChildMeansEntry(d, l, name);
      var e := l + [name];
      assert e[..|l|] == l;
      var k :| 0 <= k < |items| && items[k] == e;
      assert names[k] == name;
    }
    forall name | name in Elems(names) ensures name in Children(d, l) {
      var k :| 0 <= k < |names| && names[k] == name;
      LastComponent(items[k], l);
      ChildMeansEntry(d, l, name);
    }
  }

  /** The `entry.name` of each directory entry, in the order the entries came. */
  method EntryNames(l: Loc, items: seq<Loc>) returns (names: seq<string>)
    requires forall k :: 0 <= k < |items| ==> |items[k]| == |l| + 1
    ensures |names| == |items|
    ensures forall k :: 0 <= k < |items| ==> names[k] == items[k][|l|]
  {
    names := [];
    var i := 0;
    while i < |items|
      invariant 0 <= i <= |items|
      invariant |names| == i
      invariant forall k :: 0 <= k < i ==> names[k] == items[k][|l|]
    {
      names := names + [items[i][|l|]];
      i := i + 1;
    }
  }

  /** Listing a directory yields its children's names, sorted, whichever order they were found in. */
  lemma ListedDirectory(s: Sandbox, path: Option<Value>, d: DiskState, names: seq<string>)
    requires ListTarget(s, path).Ok? && IsDirAt(d, ListTarget(s, path).value, s.cwd)
    requires Elems(names) == Children(d, Reach(d, ListTarget(s, path).value, s.cwd).value)
    ensures List(s, path, d) == Ok(Entries(Sorted(names)))
  {
    var l := Reach(d, ListTarget(s, path).value, s.cwd).value;
    SortedUnique(Sorted(names), SortedNames(Children(d, l)));
  }

  // ---------------------------------------------------------------------------
  // The executor

  class ToolExecutor {
    const root: Path
    const cwd: Loc
    const disk: Disk

    function At(): Sandbox {
      Sandbox(root, cwd)
    }

    /** `__init__` without its call to `ensure_sandbox`, which the caller makes next. */
    constructor (rootPath: string, sandboxPath: string, home: Loc, cwd: Loc, disk: Disk)
      ensures root == RootOf(rootPath, sandboxPath, home)
      ensures this.cwd == cwd && this.disk == disk
    {
      root := RootOf(rootPath, sandboxPath, home);
      this.cwd := cwd;
      this.disk := disk;
    }

    /** `ensure_sandbox`: the root, as it was given, is made with pathlib's `mkdir`. */
    method EnsureSandbox() returns (err: Option<OsError>)
      modifies disk
      ensures err == MakePath(old(disk.State()), root, cwd).error
      ensures disk.State() == MakePath(old(disk.State()), root, cwd).disk
    {
      err := disk.MkdirParents(root, cwd);
    }

    method Execute(tool: string, args: Args, clock: ClockReading) returns (r: Result<Payload, Failure>)
      modifies disk
      ensures r == Dispatch(At(), tool, args, clock, old(disk.State())).result
      ensures disk.State() == Dispatch(At(), tool, args, clock, old(disk.State())).disk
    {
      if tool == "system.time" {
        r := Ok(SystemTime(clock));
      } else if tool == "files.write" {
        r := FilesWrite(Get(args, "filename"), Get(args, "content"));
      } else if tool == "files.read" {
        r := FilesRead(Get(args, "filename"));
      } else if tool == "files.delete" {
        r := FilesDelete(Get(args, "filename"));
      } else if tool == "files.copy" {
        r := FilesCopy(Get(args, "source"), Get(args, "dest"));
      } else if tool == "files.move" {
        r := FilesMove(Get(args, "source"), Get(args, "dest"));
      } else if tool == "files.list" {
        r := FilesList(if "path" in args then Some(args["path"]) else Some(Str("")));
      } else if tool == "apps.open" {
        r := Ok(OpenApp(Get(args, "app")));
      } else if tool == "privilege.request" {
        r := Ok(PendingApproval);
      } else {
        r := Err(UnknownTool("Unknown tool: " + tool));
      }
    }

    method FilesWrite(filename: Option<Value>, content: Option<Value>) returns (r: Result<Payload, Failure>)
      modifies disk
      ensures r == Write(At(), filename, content, old(disk.State())).result
      ensures disk.State() == Write(At(), filename, content, old(disk.State())).disk
    {
      var f := TextArg(filename);
      if f.None? {
        return Err(NotText("filename"));
      }
      var path := FullPath(At(), f.value);
      var err := disk.MkdirParents(Parent(path), cwd);
      if err.Some? {
        return Err(Os(err.value));
      }
      var l := Reach(disk.State(), path, cwd);
      if l.Err? {
        return Err(Os(l.error));
      }
      err := disk.Truncate(l.value);
      if err.Some? {
        return Err(Os(err.value));
      }
      var c := TextArg(content);
      if c.None? {
        return Err(NotText("content"));
      }
      disk.Store(l.value, c.value);
      return Ok(BytesWritten(|c.value|));
    }

    method FilesRead(filename: Option<Value>) returns (r: Result<Payload, Failure>)
      ensures r == Read(At(), filename, disk.State())
    {
      var f := TextArg(filename);
      if f.None? {
        return Err(NotText("filename"));
      }
      var l := Reach(disk.State(), FullPath(At(), f.value), cwd);
      if l.Err? || !(l.value in disk.files || l.value in disk.dirs) {
        return Err(FileNotFound("File not found: " + f.value));
      }
      var text := disk.Read(l.value);
      if text.Err? {
        return Err(Os(text.error));
      }
      return Ok(Text(text.value));
    }

    method FilesDelete(filename: Option<Value>) returns (r: Result<Payload, Failure>)
      modifies disk
      ensures r == Delete(At(), filename, old(disk.State())).result
      ensures disk.State() == Delete(At(), filename, old(disk.State())).disk
    {
      var f := TextArg(filename);
      if f.None? {
        return Err(NotText("filename"));
      }
      var l := Reach(disk.State(), FullPath(At(), f.value), cwd);
      if l.Err? || !(l.value in disk.files || l.value in disk.dirs) {
        return Err(FileNotFound("File not found: " + f.value));
      }
      var err := disk.Remove(l.value);
      if err.Some? {
        return Err(Os(err.value));
      }
      return Ok(Deleted);
    }

    method FilesCopy(source: Option<Value>, dest: Option<Value>) returns (r: Result<Payload, Failure>)
      modifies disk
      ensures r == Copy(At(), source, dest, old(disk.State())).result
      ensures disk.State() == Copy(At(), source, dest, old(disk.State())).disk
    {
      var src := TextArg(source);
      if src.None? {
        return Err(NotText("source"));
      }
      var dst := TextArg(dest);
      if dst.None? {
        return Err(NotText("dest"));
      }
      var from := FullPath(At(), src.value);
      var to := FullPath(At(), dst.value);
      var found := Reach(disk.State(), from, cwd);
      if found.Err? || !(found.value in disk.files || found.value in disk.dirs) {
        return Err(FileNotFound("Source file not found: " + src.value));
      }
      var err := disk.MkdirParents(Parent(to), cwd);
      if err.Some? {
        return Err(Os(err.value));
      }
      var a := Reach(disk.State(), from, cwd);
      if a.Err? {
        return Err(Os(a.error));
      }
      var b := Reach(disk.State(), to, cwd);
      if b.Err? {
        return Err(Os(b.error));
      }
      err := disk.CopyFile(a.value, b.value);
      if err.Some? {
        return Err(Os(err.value));
      }
      return Ok(Copied);
    }

    method FilesMove(source: Option<Value>, dest: Option<Value>) returns (r: Result<Payload, Failure>)
      modifies disk
      ensures r == MoveFile(At(), source, dest, old(disk.State())).result
      ensures disk.State() == MoveFile(At(), source, dest, old(disk.State())).disk
    {
      var src := TextArg(source);
      if src.None? {
        return Err(NotText("source"));
      }
      var dst := TextArg(dest);
      if dst.None? {
        return Err(NotText("dest"));
      }
      var from := FullPath(At(), src.value);
      var to := FullPath(At(), dst.value);
      var found := Reach(disk.State(), from, cwd);
      if found.Err? || !(found.value in disk.files || found.value in disk.dirs) {
        return Err(FileNotFound("Source file not found: " + src.value));
      }
      var err := disk.MkdirParents(Parent(to), cwd);
      if err.Some? {
        return Err(Os(err.value));
      }
      var a := Reach(disk.State(), from, cwd);
      if a.Err? {
        return Err(Os(a.error));
      }
      var b := Reach(disk.State(), to, cwd);
      if b.Err? {
        return Err(Os(b.error));
      }
      err := disk.MoveFile(a.value, b.value);
      if err.Some? {
        return Err(Os(err.value));
      }
      return Ok(Moved);
    }

    /** `files_list`: collect the names `iterdir` yields, then sort them. */
    method FilesList(path: Option<Value>) returns (r: Result<Payload, Failure>)
      ensures r == List(At(), path, disk.State())
    {
      var target := ListTarget(At(), path);
      if target.Err? {
        return Err(target.error);
      }
      var v := if path.Some? then path.value else Str("");
      var found := Reach(disk.State(), target.value, cwd);
      if found.Err? || !(found.value in disk.files || found.value in disk.dirs) {
        return Ok(Entries([]));
      }
      var l := found.value;
      if l !in disk.dirs {
        return Err(NotADirectoryValue("Not a directory: " + Shown(v)));
      }
      var items := disk.IterDir(l);
      var entries := EntryNames(l, items);
      NamesOfEntries(disk.State(), l, items, entries);
      ListedDirectory(At(), path, disk.State(), entries);
      return Ok(Entries(Sorted(entries)));
    }
  }
}
