/**
 * The filesystem the executor acts on (backend/app/tools.py:12-153), as a map
 * from locations to file contents plus a set of directories. A path reaches
 * its location the way the kernel walks it, component by component. Each
 * operating-system call the tools make is a function from one disk to a
 * result; `Disk` holds the disk the calls change in place.
 */
module FileSystem {
  import opened Wrappers
  import opened Text
  import opened Paths

  /** A resolved absolute location: its components from the filesystem root. */
  type Loc = seq<string>

  datatype DiskState = DiskState(files: map<Loc, string>, dirs: set<Loc>)

  /** Errors the calls raise; `DirectoryMove` marks a move of a directory, which the model does not follow. */
  datatype OsError =
    | NoSuchFile
    | IsADirectory
    | NotADirectory
    | FileExists
    | SameFile
    | DestinationExists
    | DirectoryMove

  /** The root is a directory, every entry lives in a directory, and no location is both. */
  predicate Wellformed(d: DiskState) {
    && [] in d.dirs
    && (forall l :: l in d.files ==> l != [] && l !in d.dirs && l[..|l| - 1] in d.dirs)
    && (forall l :: l in d.dirs && l != [] ==> l[..|l| - 1] in d.dirs)
  }

  /** An empty disk: the root directory alone. */
  const EmptyDisk: DiskState := DiskState(map[], {[]})

  predicate Exists(d: DiskState, l: Loc) {
    l in d.files || l in d.dirs
  }

  /** Some directory on the way to `l` (strictly above it) is a file. */
  predicate FileOnTheWay(d: DiskState, l: Loc) {
    exists i :: 0 <= i < |l| && l[..i] in d.files
  }

  /** What the kernel reports when it cannot reach `l`. */
  function WalkError(d: DiskState, l: Loc): (e: OsError)
    ensures e == NotADirectory <==> FileOnTheWay(d, l)
    ensures e == NotADirectory || e == NoSuchFile
  {
    if FileOnTheWay(d, l) then NotADirectory else NoSuchFile
  }

  /** `l` and every directory above it. */
  function Prefixes(l: Loc): (r: set<Loc>)
    ensures forall i :: 0 <= i <= |l| ==> l[..i] in r
    ensures forall k :: k in r ==> k <= l
  {
    set i | 0 <= i <= |l| :: l[..i]
  }

  /** A new entry can be made at `l`: it is not the root, not a directory, and its parent is one. */
  predicate CanCreate(d: DiskState, l: Loc) {
    l != [] && l !in d.dirs && l[..|l| - 1] in d.dirs
  }

  /** Why an entry cannot be made at `l`. */
  function CreateError(d: DiskState, l: Loc): OsError {
    if l == [] || l in d.dirs then IsADirectory else WalkError(d, l)
  }

  lemma CreateKeepsWellformed(d: DiskState, l: Loc, content: string)
    requires Wellformed(d) && CanCreate(d, l)
    ensures Wellformed(DiskState(d.files[l := content], d.dirs))
  {
  }

  // ---------------------------------------------------------------------------
  // The calls, one function each

  /**
   * Making `l` and every directory above it at once: what
   * `mkdir(parents=True, exist_ok=True)` amounts to on a path with no ".."
   * (`MakePathPlain`).
   */
  function MakeDirs(d: DiskState, l: Loc): (r: Result<DiskState, OsError>)
    ensures r.Ok? <==> l !in d.files && !FileOnTheWay(d, l)
    ensures r.Err? ==> r.error == (if l in d.files then FileExists else NotADirectory)
    ensures r.Ok? ==> r.value.files == d.files && r.value.dirs == d.dirs + Prefixes(l)
    ensures r.Ok? && Wellformed(d) ==> Wellformed(r.value) && l in r.value.dirs
  {
    if l in d.files then Err(FileExists)
    else if FileOnTheWay(d, l) then Err(NotADirectory)
    else
      var d' := DiskState(d.files, d.dirs + Prefixes(l));
      assert Wellformed(d) ==> Wellformed(d') by {
        if Wellformed(d) {
          forall k | k in d'.dirs && k != [] ensures k[..|k| - 1] in d'.dirs {
            if k in Prefixes(l) {
              assert k[..|k| - 1] == l[..|k| - 1];
            }
          }
          assert forall i :: 0 <= i <= |l| ==> l[..i] !in d.files by {
            assert l[..|l|] == l;
          }
        }
      }
      assert l[..|l|] == l;
      Ok(d')
  }

  /** `open(l, 'w')`: creates the file or empties it. */
  function OpenForWrite(d: DiskState, l: Loc): (r: Result<DiskState, OsError>)
    ensures r.Ok? <==> CanCreate(d, l) || l in d.files
    ensures r.Ok? ==> r.value == DiskState(d.files[l := ""], d.dirs)
    ensures r.Ok? && Wellformed(d) ==> Wellformed(r.value)
  {
    if l in d.files then Ok(DiskState(d.files[l := ""], d.dirs))
    else if CanCreate(d, l) then Ok(DiskState(d.files[l := ""], d.dirs))
    else Err(CreateError(d, l))
  }

  /**
   * Text-mode reading with universal newlines: "\r\n" and a lone "\r" both
   * come back as "\n".
   */
  function UniversalNewlines(s: string): (r: string)
    ensures '\r' !in r
    ensures '\r' !in s ==> r == s
    ensures |r| <= |s|
  {
    if s == [] then []
    else if s[0] == '\r' then
      if |s| > 1 && s[1] == '\n' then "\n" + UniversalNewlines(s[2..])
      else "\n" + UniversalNewlines(s[1..])
    else
      assert '\r' !in s ==> '\r' !in s[1..] by {
        if '\r' in s[1..] { var k :| 0 <= k < |s[1..]| && s[1..][k] == '\r'; assert s[k + 1] == '\r'; }
      }
      [s[0]] + UniversalNewlines(s[1..])
  }

  /** `open(l, 'r').read()`. */
  function ReadText(d: DiskState, l: Loc): (r: Result<string, OsError>)
    ensures l in d.files ==> r == Ok(UniversalNewlines(d.files[l]))
    ensures l in d.dirs && l !in d.files ==> r == Err(IsADirectory)
    ensures !Exists(d, l) ==> r == Err(WalkError(d, l))
  {
    if l in d.files then Ok(UniversalNewlines(d.files[l]))
    else if l in d.dirs then Err(IsADirectory)
    else Err(WalkError(d, l))
  }

  /** `unlink()`: files only. */
  function Unlink(d: DiskState, l: Loc): (r: Result<DiskState, OsError>)
    ensures r.Ok? <==> l in d.files && l !in d.dirs
    ensures r.Ok? ==> r.value == DiskState(d.files - {l}, d.dirs)
    ensures r.Ok? && Wellformed(d) ==> Wellformed(r.value)
  {
    if l in d.dirs then Err(IsADirectory)
    else if l in d.files then Ok(DiskState(d.files - {l}, d.dirs))
    else Err(WalkError(d, l))
  }

  /** Where `shutil` puts `src` when asked to put it at `dst`: inside `dst` when that is a directory. */
  function Destination(d: DiskState, src: Loc, dst: Loc): (target: Loc)
    ensures dst in d.dirs && src != [] ==> target == dst + [src[|src| - 1]]
    ensures dst !in d.dirs || src == [] ==> target == dst
  {
    if dst in d.dirs && src != [] then dst + [src[|src| - 1]] else dst
  }

  /** `shutil.copy2(src, dst)` on contents (metadata is not modelled). */
  function Copy2(d: DiskState, src: Loc, dst: Loc): (r: Result<DiskState, OsError>)
    ensures r.Ok? <==>
      && Destination(d, src, dst) != src
      && src in d.files && src !in d.dirs
      && (CanCreate(d, Destination(d, src, dst)) || Destination(d, src, dst) in d.files)
    ensures r.Ok? ==> r.value == DiskState(d.files[Destination(d, src, dst) := d.files[src]], d.dirs)
    ensures r.Ok? && Wellformed(d) ==> Wellformed(r.value)
  {
    var target := Destination(d, src, dst);
    if Exists(d, src) && target == src then Err(SameFile)
    else if src in d.dirs then Err(IsADirectory)
    else if src !in d.files then Err(WalkError(d, src))
    else if target in d.files || CanCreate(d, target) then
      Ok(DiskState(d.files[target := d.files[src]], d.dirs))
    else Err(CreateError(d, target))
  }

  /** `shutil.move(src, dst)` for a file; a directory source is reported, not moved. */
  function Move(d: DiskState, src: Loc, dst: Loc): (r: Result<DiskState, OsError>)
    ensures dst in d.dirs && src == dst ==> r == Ok(d)
    ensures src in d.files && src !in d.dirs && src == dst ==> r == Ok(d)
    ensures dst in d.dirs && src != dst && (src == [] || Exists(d, Destination(d, src, dst))) ==>
      r == Err(DestinationExists)
    ensures r.Ok? && src != dst ==>
      && src in d.files && src !in d.dirs
      && Destination(d, src, dst) != src
      && r.value == DiskState((d.files - {src})[Destination(d, src, dst) := d.files[src]], d.dirs)
    ensures r.Ok? && Wellformed(d) ==> Wellformed(r.value)
  {
    if dst in d.dirs && src == dst then Ok(d)
    else if dst in d.dirs && (src == [] || Exists(d, Destination(d, src, dst))) then Err(DestinationExists)
    else
      var target := Destination(d, src, dst);
      if src in d.dirs then Err(DirectoryMove)
      else if src !in d.files then Err(WalkError(d, src))
      else if target == src then Ok(d)
      else if target in d.dirs then Err(IsADirectory)
      else if target in d.files || CanCreate(d, target) then
        var d' := DiskState((d.files - {src})[target := d.files[src]], d.dirs);
        assert Wellformed(d) ==> Wellformed(d') by {
          if Wellformed(d) {
            assert target != [] && target !in d.dirs;
            assert target[..|target| - 1] in d.dirs;
          }
        }
        Ok(d')
      else Err(CreateError(d, target))
  }

  /** The names directly inside the directory `l`. */
  function Children(d: DiskState, l: Loc): set<string> {
    (set k | k in d.files && |k| == |l| + 1 && k[..|l|] == l :: k[|l|])
    + (set k | k in d.dirs && |k| == |l| + 1 && k[..|l|] == l :: k[|l|])
  }

  lemma ChildMeansEntry(d: DiskState, l: Loc, name: string)
    ensures name in Children(d, l) <==> Exists(d, l + [name])
  {
    if Exists(d, l + [name]) {
      var k := l + [name];
      assert k[..|l|] == l && k[|l|] == name;
    }
    if name in Children(d, l) {
      var k :| (k in d.files || k in d.dirs) && |k| == |l| + 1 && k[..|l|] == l && k[|l|] == name;
      assert k == l + [name];
    }
  }

  // ---------------------------------------------------------------------------
  // Walking a path

  /** Why the kernel cannot step from `l` to its parent: `l` is a file, a file lies above it, or it is missing. */
  function LookupError(d: DiskState, l: Loc): (e: OsError)
    ensures e == NotADirectory <==> l in d.files || FileOnTheWay(d, l)
    ensures e == NotADirectory || e == NoSuchFile
  {
    if l in d.files then NotADirectory else WalkError(d, l)
  }

  /**
   * The kernel's walk of `parts` from `at`: a name steps down without looking,
   * ".." steps up (the root is its own parent) and only from a directory.
   */
  function Walk(d: DiskState, at: Loc, parts: seq<string>): (r: Result<Loc, OsError>)
    ensures r.Err? ==> r.error == NotADirectory || r.error == NoSuchFile
    decreases |parts|
  {
    if parts == [] then Ok(at)
    else if parts[0] == ".." && at !in d.dirs then Err(LookupError(d, at))
    else Walk(d, Step(at, parts[0]), parts[1..])
  }

  /** Where a walk starts: the root for an absolute path, the working directory otherwise. */
  function Origin(p: Path, cwd: Loc): Loc {
    if p.absolute then [] else cwd
  }

  /** The location the kernel finds a path at, or why it cannot get there. */
  function Reach(d: DiskState, p: Path, cwd: Loc): (r: Result<Loc, OsError>)
    ensures ".." !in p.parts ==> r == Ok(Origin(p, cwd) + p.parts)
    ensures r.Ok? && ".." !in cwd ==> r.value == Resolve(p, cwd).parts
  {
    WalkPlain(d, Origin(p, cwd), p.parts);
    WalkResolves(d, Origin(p, cwd), p.parts);
    assert p.absolute ==> Origin(p, cwd) + p.parts == p.parts;
    Walk(d, Origin(p, cwd), p.parts)
  }

  /** `Path.exists()`: the walk succeeds and something is there; a failed walk counts as absent. */
  predicate PathExists(d: DiskState, p: Path, cwd: Loc) {
    Reach(d, p, cwd).Ok? && Exists(d, Reach(d, p, cwd).value)
  }

  /** `Path.is_dir()`. */
  predicate IsDirAt(d: DiskState, p: Path, cwd: Loc) {
    Reach(d, p, cwd).Ok? && Reach(d, p, cwd).value in d.dirs
  }

  /** Without "..", a walk only appends. */
  lemma {:induction false} WalkPlain(d: DiskState, at: Loc, parts: seq<string>)
    ensures ".." !in parts ==> Walk(d, at, parts) == Ok(at + parts)
    decreases |parts|
  {
    if parts == [] {
      assert at + parts == at;
    } else if ".." !in parts {
      assert parts == [parts[0]] + parts[1..];
      WalkPlain(d, at + [parts[0]], parts[1..]);
      assert at + [parts[0]] + parts[1..] == at + parts;
    }
  }

  /** A walk that gets through lands where lexical resolution (`resolve()`) does. */
  lemma {:induction false} WalkResolves(d: DiskState, at: Loc, parts: seq<string>)
    ensures ".." !in at && Walk(d, at, parts).Ok? ==> Walk(d, at, parts).value == Collapse(at + parts)
    decreases |parts|
  {
    if ".." !in at && Walk(d, at, parts).Ok? {
      if parts == [] {
        assert at + parts == at;
        CollapseIdentity(at);
      } else {
        var c := parts[0];
        StepResolved(at, c);
        WalkResolves(d, Step(at, c), parts[1..]);
        assert at + parts == (at + [c]) + parts[1..];
        CollapseThrough(at + [c], parts[1..]);
      }
    }
  }

  /** One step from a resolved location is the resolution of one more component. */
  lemma StepResolved(at: Loc, c: string)
    requires ".." !in at
    ensures Step(at, c) == Collapse(at + [c])
    ensures ".." !in Step(at, c)
  {
    assert (at + [c])[..|at + [c]| - 1] == at;
    CollapseIdentity(at);
  }

  /** The walk of one more component continues from where the shorter walk ended. */
  lemma {:induction false} WalkLast(d: DiskState, at: Loc, xs: seq<string>, c: string)
    ensures Walk(d, at, xs + [c]) ==
      match Walk(d, at, xs)
      case Err(e) => Err(e)
      case Ok(l) => if c == ".." && l !in d.dirs then Err(LookupError(d, l)) else Ok(Step(l, c))
    decreases |xs|
  {
    if xs == [] {
      assert xs + [c] == [c];
      assert [c][1..] == [];
    } else {
      assert (xs + [c])[0] == xs[0];
      assert (xs + [c])[1..] == xs[1..] + [c];
      if !(xs[0] == ".." && at !in d.dirs) {
        WalkLast(d, Step(at, xs[0]), xs[1..], c);
      }
    }
  }

  /** A path's location is its parent's location and one more step. */
  lemma ReachLast(d: DiskState, p: Path, cwd: Loc)
    requires p.parts != []
    ensures Reach(d, p, cwd) ==
      match Reach(d, Parent(p), cwd)
      case Err(e) => Err(e)
      case Ok(l) =>
        var c := p.parts[|p.parts| - 1];
        if c == ".." && l !in d.dirs then Err(LookupError(d, l)) else Ok(Step(l, c))
  {
    var n := |p.parts| - 1;
    assert p.parts == p.parts[..n] + [p.parts[n]];
    WalkLast(d, Origin(p, cwd), p.parts[..n], p.parts[n]);
  }

  /** New directories do not block a walk that got through. */
  lemma {:induction false} WalkMoreDirs(d: DiskState, e: DiskState, at: Loc, parts: seq<string>)
    requires d.dirs <= e.dirs && Walk(d, at, parts).Ok?
    ensures Walk(e, at, parts) == Walk(d, at, parts)
    decreases |parts|
  {
    if parts != [] {
      WalkMoreDirs(d, e, Step(at, parts[0]), parts[1..]);
    }
  }

  lemma ReachMoreDirs(d: DiskState, e: DiskState, p: Path, cwd: Loc)
    requires d.dirs <= e.dirs && Reach(d, p, cwd).Ok?
    ensures Reach(e, p, cwd) == Reach(d, p, cwd)
  {
    WalkMoreDirs(d, e, Origin(p, cwd), p.parts);
  }

  // ---------------------------------------------------------------------------
  // Making directories along a path

  /** What a call that can fail part-way leaves: its error, if any, and the disk as it then is. */
  datatype Effect = Effect(error: Option<OsError>, disk: DiskState)

  /** `os.mkdir(p)`: one new directory, in a parent that is already one. */
  function MakeDir(d: DiskState, p: Path, cwd: Loc): (r: Result<DiskState, OsError>)
    ensures r.Ok? ==> r.value.files == d.files && Reach(r.value, p, cwd).Ok?
    ensures r.Ok? ==> !Exists(d, Reach(r.value, p, cwd).value) && r.value.dirs == d.dirs + {Reach(r.value, p, cwd).value}
    ensures r.Ok? && Wellformed(d) ==> Wellformed(r.value)
    ensures Wellformed(d) && PathExists(d, p, cwd) ==> r == Err(FileExists)
  {
    if p.parts == [] then Err(FileExists)
    else
      var last := p.parts[|p.parts| - 1];
      ReachLast(d, p, cwd);
      match Reach(d, Parent(p), cwd)
      case Err(e) => Err(e)
      case Ok(at) =>
        if at !in d.dirs then Err(LookupError(d, at))
        else if last == ".." || Exists(d, at + [last]) then Err(FileExists)
        else
          var d' := DiskState(d.files, d.dirs + {at + [last]});
          ReachMoreDirs(d, d', Parent(p), cwd);
          ReachLast(d', p, cwd);
          assert (at + [last])[..|at + [last]| - 1] == at;
          Ok(d')
  }

  /**
   * `p.mkdir(parents=True, exist_ok=True)`: `os.mkdir`; when the parent is
   * missing, the parent is made the same way and `os.mkdir` is tried once
   * more; any other error is forgiven when a directory is there after all.
   * Directories made before a later step fails stay made.
   */
  function MakePath(d: DiskState, p: Path, cwd: Loc): (m: Effect)
    ensures m.disk.files == d.files && d.dirs <= m.disk.dirs
    ensures Wellformed(d) ==> Wellformed(m.disk)
    ensures m.error.None? ==> IsDirAt(m.disk, p, cwd)
    ensures Wellformed(d) && IsDirAt(d, p, cwd) ==> m == Effect(None, d)
    decreases |p.parts|
  {
    match MakeDir(d, p, cwd)
    case Ok(d1) => Effect(None, d1)
    case Err(e) =>
      if e == NoSuchFile && p.parts != [] then
        var up := MakePath(d, Parent(p), cwd);
        if up.error.Some? then up
        else
          match MakeDir(up.disk, p, cwd)
          case Ok(d2) => Effect(None, d2)
          case Err(e2) =>
            if e2 != NoSuchFile && IsDirAt(up.disk, p, cwd) then Effect(None, up.disk) else Effect(Some(e2), up.disk)
      else if e != NoSuchFile && IsDirAt(d, p, cwd) then Effect(None, d)
      else Effect(Some(e), d)
  }

  /** Every directory above a directory is one, so no file lies on its way. */
  lemma {:induction false} DirectoriesAbove(d: DiskState, l: Loc)
    requires Wellformed(d) && l in d.dirs
    ensures Prefixes(l) <= d.dirs
    ensures !FileOnTheWay(d, l)
    decreases |l|
  {
    if l != [] {
      var up := l[..|l| - 1];
      DirectoriesAbove(d, up);
      forall k | k in Prefixes(l) ensures k in d.dirs {
        var i :| 0 <= i <= |l| && k == l[..i];
        if i < |l| {
          assert k == up[..i];
          assert up[..i] in Prefixes(up);
        } else {
          assert k == l;
        }
      }
    }
    forall i | 0 <= i < |l| ensures l[..i] !in d.files {
      assert l[..i] in Prefixes(l);
    }
  }

  lemma PrefixesLast(l: Loc, c: string)
    ensures Prefixes(l + [c]) == Prefixes(l) + {l + [c]}
  {
    var m := l + [c];
    forall k | k in Prefixes(m) ensures k in Prefixes(l) + {m} {
      var i :| 0 <= i <= |m| && k == m[..i];
      if i < |m| {
        assert k == l[..i];
      }
    }
    forall k | k in Prefixes(l) ensures k in Prefixes(m) {
      var i :| 0 <= i <= |l| && k == l[..i];
      assert k == m[..i];
    }
    assert m[..|m|] == m;
  }

  lemma OnTheWayLast(d: DiskState, l: Loc, c: string)
    ensures FileOnTheWay(d, l + [c]) <==> l in d.files || FileOnTheWay(d, l)
  {
    var m := l + [c];
    assert m[..|l|] == l;
    if FileOnTheWay(d, m) {
      var i :| 0 <= i < |m| && m[..i] in d.files;
      if i < |l| {
        assert m[..i] == l[..i];
      }
    }
    if FileOnTheWay(d, l) {
      var i :| 0 <= i < |l| && l[..i] in d.files;
      assert m[..i] == l[..i];
    }
  }

  /** `os.mkdir` on a path with no "..": its outcome depends on the parent's location and its own. */
  lemma MakeDirPlain(d: DiskState, p: Path, cwd: Loc)
    requires ".." !in p.parts && p.parts != []
    ensures
      var L := Origin(p, cwd) + Parent(p).parts;
      var l := Origin(p, cwd) + p.parts;
      && l == L + [p.parts[|p.parts| - 1]]
      && MakeDir(d, p, cwd) ==
        (if L !in d.dirs then Err(LookupError(d, L))
         else if Exists(d, l) then Err(FileExists)
         else Ok(DiskState(d.files, d.dirs + {l})))
      && (IsDirAt(d, p, cwd) <==> l in d.dirs)
  {
    var q := Parent(p);
    var c := p.parts[|p.parts| - 1];
    assert p.parts == q.parts + [c];
    assert c in p.parts;
    assert forall x :: x in q.parts ==> x in p.parts;
    assert Origin(p, cwd) + p.parts == Origin(p, cwd) + q.parts + [c];
  }

  /** The equation `MakePathPlain` proves, for one path. */
  predicate AgreesWithMakeDirs(d: DiskState, p: Path, cwd: Loc) {
    var l := Origin(p, cwd) + p.parts;
    MakePath(d, p, cwd) ==
      match MakeDirs(d, l)
      case Ok(d') => Effect(None, d')
      case Err(e) => Effect(Some(e), d)
  }

  /**
   * On a path with no "..", whose walk starts in a directory, pathlib's
   * component-by-component mkdir agrees with making the location and every
   * directory above it at once.
   */
  lemma {:induction false} MakePathPlain(d: DiskState, p: Path, cwd: Loc)
    requires Wellformed(d) && ".." !in p.parts && Origin(p, cwd) in d.dirs
    ensures MakeDirs(d, Origin(p, cwd) + p.parts).Ok? ==>
      MakePath(d, p, cwd) == Effect(None, MakeDirs(d, Origin(p, cwd) + p.parts).value)
    ensures MakeDirs(d, Origin(p, cwd) + p.parts).Err? ==>
      MakePath(d, p, cwd) == Effect(Some(MakeDirs(d, Origin(p, cwd) + p.parts).error), d)
    decreases |p.parts|
  {
    var base := Origin(p, cwd);
    if p.parts == [] {
      assert base + p.parts == base;
      DirectoriesAbove(d, base);
      assert d.dirs + Prefixes(base) == d.dirs;
      assert MakeDir(d, p, cwd) == Err(FileExists);
    } else {
      var q := Parent(p);
      var L := base + q.parts;
      assert forall x :: x in q.parts ==> x in p.parts;
      if L in d.dirs {
        PlainUnderDirectory(d, p, cwd);
      } else if L in d.files || FileOnTheWay(d, L) {
        PlainBlocked(d, p, cwd);
      } else {
        MakePathPlain(d, q, cwd);
        assert Origin(q, cwd) == base;
        var l := base + p.parts;
        MakeDirPlain(d, p, cwd);
        assert l[..|l| - 1] == L;
        PlainMissingParent(d, p, cwd);
      }
    }
  }

  lemma PlainUnderDirectory(d: DiskState, p: Path, cwd: Loc)
    requires Wellformed(d) && ".." !in p.parts && p.parts != []
    requires Origin(p, cwd) + Parent(p).parts in d.dirs
    ensures AgreesWithMakeDirs(d, p, cwd)
  {
    var L := Origin(p, cwd) + Parent(p).parts;
    var c := p.parts[|p.parts| - 1];
    var l := Origin(p, cwd) + p.parts;
    MakeDirPlain(d, p, cwd);
    if l in d.dirs {
      DirectoriesAbove(d, l);
      PlainExisting(d, p, cwd);
    } else if l !in d.files {
      DirectoriesAbove(d, L);
      PrefixesLast(L, c);
      OnTheWayLast(d, L, c);
      PlainFresh(d, p, cwd);
    }
  }

  /** A directory that is already there is made again without complaint. */
  lemma PlainExisting(d: DiskState, p: Path, cwd: Loc)
    requires ".." !in p.parts && p.parts != []
    requires Origin(p, cwd) + Parent(p).parts in d.dirs
    requires Origin(p, cwd) + p.parts in d.dirs && Origin(p, cwd) + p.parts !in d.files
    requires Prefixes(Origin(p, cwd) + p.parts) <= d.dirs && !FileOnTheWay(d, Origin(p, cwd) + p.parts)
    ensures AgreesWithMakeDirs(d, p, cwd)
  {
    MakeDirPlain(d, p, cwd);
    assert d.dirs + Prefixes(Origin(p, cwd) + p.parts) == d.dirs;
  }

  /** A missing entry in a directory is made by one `os.mkdir`. */
  lemma PlainFresh(d: DiskState, p: Path, cwd: Loc)
    requires ".." !in p.parts && p.parts != []
    requires Origin(p, cwd) + Parent(p).parts in d.dirs
    requires !Exists(d, Origin(p, cwd) + p.parts)
    requires Prefixes(Origin(p, cwd) + Parent(p).parts) <= d.dirs
    requires Origin(p, cwd) + Parent(p).parts !in d.files && !FileOnTheWay(d, Origin(p, cwd) + Parent(p).parts)
    requires Prefixes(Origin(p, cwd) + p.parts) == Prefixes(Origin(p, cwd) + Parent(p).parts) + {Origin(p, cwd) + p.parts}
    requires FileOnTheWay(d, Origin(p, cwd) + p.parts) <==>
      Origin(p, cwd) + Parent(p).parts in d.files || FileOnTheWay(d, Origin(p, cwd) + Parent(p).parts)
    ensures AgreesWithMakeDirs(d, p, cwd)
  {
    MakeDirPlain(d, p, cwd);
    var l := Origin(p, cwd) + p.parts;
    assert d.dirs + Prefixes(l) == d.dirs + {l};
  }

  lemma PlainBlocked(d: DiskState, p: Path, cwd: Loc)
    requires Wellformed(d) && ".." !in p.parts && p.parts != []
    requires Origin(p, cwd) + Parent(p).parts !in d.dirs
    requires Origin(p, cwd) + Parent(p).parts in d.files || FileOnTheWay(d, Origin(p, cwd) + Parent(p).parts)
    ensures AgreesWithMakeDirs(d, p, cwd)
  {
    var L := Origin(p, cwd) + Parent(p).parts;
    var c := p.parts[|p.parts| - 1];
    var l := Origin(p, cwd) + p.parts;
    MakeDirPlain(d, p, cwd);
    OnTheWayLast(d, L, c);
    assert l[..|l| - 1] == L;
    assert MakeDir(d, p, cwd) == Err(NotADirectory);
    assert MakeDirs(d, l) == Err(NotADirectory);
  }

  lemma PlainMissingParent(d: DiskState, p: Path, cwd: Loc)
    requires ".." !in p.parts && p.parts != []
    requires Origin(p, cwd) + Parent(p).parts !in d.dirs
    requires Origin(p, cwd) + Parent(p).parts !in d.files && !FileOnTheWay(d, Origin(p, cwd) + Parent(p).parts)
    requires !Exists(d, Origin(p, cwd) + p.parts)
    requires MakePath(d, Parent(p), cwd) == Effect(None, DiskState(d.files, d.dirs + Prefixes(Origin(p, cwd) + Parent(p).parts)))
    ensures MakeDirs(d, Origin(p, cwd) + p.parts) == Ok(DiskState(d.files, d.dirs + Prefixes(Origin(p, cwd) + p.parts)))
    ensures MakePath(d, p, cwd) == Effect(None, DiskState(d.files, d.dirs + Prefixes(Origin(p, cwd) + p.parts)))
  {
    var L := Origin(p, cwd) + Parent(p).parts;
    var c := p.parts[|p.parts| - 1];
    var l := Origin(p, cwd) + p.parts;
    var up := DiskState(d.files, d.dirs + Prefixes(L));
    MakeDirPlain(d, p, cwd);
    MakeDirPlain(up, p, cwd);
    PrefixesLast(L, c);
    OnTheWayLast(d, L, c);
    assert MakeDir(d, p, cwd) == Err(NoSuchFile);
    assert L[..|L|] == L;
    assert l !in Prefixes(L) by {
      assert |l| > |L|;
    }
    assert MakeDir(up, p, cwd) == Ok(DiskState(d.files, up.dirs + {l}));
    assert up.dirs + {l} == d.dirs + Prefixes(l);
  }

  /**
   * "/tmp/f/../box" with "/tmp/f" a file cannot be made: the kernel stops at
   * the file, although resolving the path first would give "/tmp/box".
   */
  lemma MakePathThroughFile(d: DiskState, cwd: Loc)
    requires ["tmp", "f"] in d.files && ["tmp", "f"] !in d.dirs
    ensures MakePath(d, Path(true, ["tmp", "f", "..", "box"]), cwd) == Effect(Some(NotADirectory), d)
    ensures Collapse(["tmp", "f", "..", "box"]) == ["tmp", "box"]
  {
    var p := Path(true, ["tmp", "f", "..", "box"]);
    assert Parent(p) == Path(true, ["tmp", "f", ".."]);
    UpFromFile(d, cwd);
    ReachLast(d, p, cwd);
    TmpFBox();
  }

  /** ".." after the file "/tmp/f" fails with "not a directory". */
  lemma UpFromFile(d: DiskState, cwd: Loc)
    requires ["tmp", "f"] in d.files && ["tmp", "f"] !in d.dirs
    ensures Reach(d, Path(true, ["tmp", "f", ".."]), cwd) == Err(NotADirectory)
  {
    var up := Path(true, ["tmp", "f", ".."]);
    assert Parent(up) == Path(true, ["tmp", "f"]);
    assert Reach(d, Parent(up), cwd) == Ok(["tmp", "f"]) by {
      assert [] + ["tmp", "f"] == ["tmp", "f"];
    }
    ReachLast(d, up, cwd);
  }

  /** Resolving "/tmp/f/../box" first would give "/tmp/box". */
  lemma TmpFBox()
    ensures Collapse(["tmp", "f", "..", "box"]) == ["tmp", "box"]
  {
    assert ["tmp", "f", "..", "box"][..3] == ["tmp", "f", ".."];
    assert ["tmp", "f", ".."][..2] == ["tmp", "f"];
    assert Collapse(["tmp", "f"]) == ["tmp", "f"] by {
      assert ["tmp", "f"][..1] == ["tmp"];
      assert ["tmp"][..0] == [];
    }
  }

  /** Making "/tmp/nope/../box" makes "/tmp/nope" on the way, and then "/tmp/box". */
  lemma MakePathThroughMissing(d: DiskState, cwd: Loc)
    requires Wellformed(d) && ["tmp"] in d.dirs
    requires !Exists(d, ["tmp", "nope"]) && !Exists(d, ["tmp", "box"])
    ensures MakePath(d, Path(true, ["tmp", "nope", "..", "box"]), cwd) ==
      Effect(None, DiskState(d.files, d.dirs + {["tmp", "nope"], ["tmp", "box"]}))
  {
    NopeIsMissing(d);
    BoxThroughNope(d, cwd);
  }

  /** `MakePathThroughMissing` once "/tmp/nope" is known to be simply missing. */
  lemma BoxThroughNope(d: DiskState, cwd: Loc)
    requires ["tmp"] in d.dirs && !Exists(d, ["tmp", "nope"]) && !Exists(d, ["tmp", "box"])
    requires LookupError(d, ["tmp", "nope"]) == NoSuchFile
    ensures MakePath(d, Path(true, ["tmp", "nope", "..", "box"]), cwd) ==
      Effect(None, DiskState(d.files, d.dirs + {["tmp", "nope"], ["tmp", "box"]}))
  {
    var d1 := DiskState(d.files, d.dirs + {["tmp", "nope"]});
    var d2 := DiskState(d.files, d1.dirs + {["tmp", "box"]});
    MissingMadeOnTheWay(d, cwd, d1);
    ThenBoxIsMade(d, cwd, d1, d2);
    assert d2.dirs == d.dirs + {["tmp", "nope"], ["tmp", "box"]};
  }

  /** Below a directory of a well-formed tree, a missing name is simply not there. */
  lemma NopeIsMissing(d: DiskState)
    requires Wellformed(d) && ["tmp"] in d.dirs && !Exists(d, ["tmp", "nope"])
    ensures LookupError(d, ["tmp", "nope"]) == NoSuchFile
  {
    DirectoriesAbove(d, ["tmp"]);
    OnTheWayLast(d, ["tmp"], "nope");
    assert ["tmp"] + ["nope"] == ["tmp", "nope"];
  }

  /** The first steps of `MakePathThroughMissing`: "/tmp/nope/.." is made by making "/tmp/nope". */
  lemma MissingMadeOnTheWay(d: DiskState, cwd: Loc, d1: DiskState)
    requires ["tmp"] in d.dirs && !Exists(d, ["tmp", "nope"])
    requires LookupError(d, ["tmp", "nope"]) == NoSuchFile
    requires d1 == DiskState(d.files, d.dirs + {["tmp", "nope"]})
    ensures MakePath(d, Path(true, ["tmp", "nope", ".."]), cwd) == Effect(None, d1)
    ensures MakeDir(d, Path(true, ["tmp", "nope", "..", "box"]), cwd) == Err(NoSuchFile)
  {
    var q := Path(true, ["tmp", "nope"]);
    var p := Path(true, ["tmp", "nope", ".."]);
    NopeMade(d, cwd, d1);
    UpFromNope(d, cwd, d1);
    assert Parent(p) == q;
    assert MakeDir(d, p, cwd) == Err(NoSuchFile);
    assert MakeDir(d1, p, cwd) == Err(FileExists);
    var r := Path(true, ["tmp", "nope", "..", "box"]);
    assert Parent(r) == p;
  }

  /** Making "/tmp/nope" under the directory "/tmp". */
  lemma NopeMade(d: DiskState, cwd: Loc, d1: DiskState)
    requires ["tmp"] in d.dirs && !Exists(d, ["tmp", "nope"])
    requires d1 == DiskState(d.files, d.dirs + {["tmp", "nope"]})
    ensures MakeDir(d, Path(true, ["tmp", "nope"]), cwd) == Ok(d1)
    ensures MakePath(d, Path(true, ["tmp", "nope"]), cwd) == Effect(None, d1)
    ensures Reach(d, Path(true, ["tmp", "nope"]), cwd) == Ok(["tmp", "nope"])
  {
    var q := Path(true, ["tmp", "nope"]);
    assert Parent(q) == Path(true, ["tmp"]);
    assert Origin(q, cwd) + Parent(q).parts == ["tmp"];
    assert Origin(q, cwd) + q.parts == ["tmp", "nope"];
    assert ".." !in q.parts;
    MakeDirPlain(d, q, cwd);
  }

  /** ".." after "/tmp/nope": not found while it is missing, "/tmp" once it is made. */
  lemma UpFromNope(d: DiskState, cwd: Loc, d1: DiskState)
    requires ["tmp"] in d.dirs && !Exists(d, ["tmp", "nope"])
    requires LookupError(d, ["tmp", "nope"]) == NoSuchFile
    requires d1 == DiskState(d.files, d.dirs + {["tmp", "nope"]})
    ensures Reach(d, Path(true, ["tmp", "nope", ".."]), cwd) == Err(NoSuchFile)
    ensures Reach(d1, Path(true, ["tmp", "nope", ".."]), cwd) == Ok(["tmp"])
  {
    var q := Path(true, ["tmp", "nope"]);
    var p := Path(true, ["tmp", "nope", ".."]);
    assert Parent(p) == q;
    assert Origin(q, cwd) + q.parts == ["tmp", "nope"];
    assert ".." !in q.parts;
    ReachLast(d, p, cwd);
    ReachLast(d1, p, cwd);
    assert ["tmp", "nope"][..1] == ["tmp"];
  }

  /** The last step of `MakePathThroughMissing`: "/tmp/nope/.." is "/tmp", where "box" is made. */
  lemma ThenBoxIsMade(d: DiskState, cwd: Loc, d1: DiskState, d2: DiskState)
    requires ["tmp"] in d.dirs && !Exists(d, ["tmp", "box"]) && !Exists(d, ["tmp", "nope"])
    requires LookupError(d, ["tmp", "nope"]) == NoSuchFile
    requires d1 == DiskState(d.files, d.dirs + {["tmp", "nope"]})
    requires d2 == DiskState(d.files, d1.dirs + {["tmp", "box"]})
    requires MakePath(d, Path(true, ["tmp", "nope", ".."]), cwd) == Effect(None, d1)
    requires MakeDir(d, Path(true, ["tmp", "nope", "..", "box"]), cwd) == Err(NoSuchFile)
    ensures MakePath(d, Path(true, ["tmp", "nope", "..", "box"]), cwd) == Effect(None, d2)
  {
    var p := Path(true, ["tmp", "nope", ".."]);
    var r := Path(true, ["tmp", "nope", "..", "box"]);
    assert Parent(r) == p;
    UpFromNope(d, cwd, d1);
    BoxUnderTmp(d1, cwd, d2, p);
  }

  /** "box" is made in the directory that "/tmp/nope/.." reaches. */
  lemma BoxUnderTmp(d1: DiskState, cwd: Loc, d2: DiskState, p: Path)
    requires p == Path(true, ["tmp", "nope", ".."])
    requires Reach(d1, p, cwd) == Ok(["tmp"]) && ["tmp"] in d1.dirs && !Exists(d1, ["tmp", "box"])
    requires d2 == DiskState(d1.files, d1.dirs + {["tmp", "box"]})
    ensures MakeDir(d1, Path(true, ["tmp", "nope", "..", "box"]), cwd) == Ok(d2)
  {
    var r := Path(true, ["tmp", "nope", "..", "box"]);
    assert Parent(r) == p;
    assert ["tmp"] + ["box"] == ["tmp", "box"];
  }

  // ---------------------------------------------------------------------------
  // The disk the tools change in place

  class Disk {
    var files: map<Loc, string>
    var dirs: set<Loc>

    function State(): DiskState
      reads this
    {
      DiskState(files, dirs)
    }

    constructor (initial: DiskState)
      ensures State() == initial
    {
      files := initial.files;
      dirs := initial.dirs;
    }

    /** `os.mkdir(p)`. */
    method Mkdir(p: Path, cwd: Loc) returns (err: Option<OsError>)
      modifies this
      ensures MakeDir(old(State()), p, cwd).Ok? ==>
        err == None && State() == MakeDir(old(State()), p, cwd).value
      ensures MakeDir(old(State()), p, cwd).Err? ==>
        err == Some(MakeDir(old(State()), p, cwd).error) && State() == old(State())
    {
      if p.parts == [] {
        return Some(FileExists);
      }
      var at := Reach(State(), Parent(p), cwd);
      if at.Err? {
        return Some(at.error);
      }
      if at.value !in dirs {
        return Some(LookupError(State(), at.value));
      }
      var last := p.parts[|p.parts| - 1];
      if last == ".." || at.value + [last] in files || at.value + [last] in dirs {
        return Some(FileExists);
      }
      dirs := dirs + {at.value + [last]};
      return None;
    }

    /** `p.mkdir(parents=True, exist_ok=True)`, recursing on the parent as pathlib does. */
    method MkdirParents(p: Path, cwd: Loc) returns (err: Option<OsError>)
      modifies this
      ensures err == MakePath(old(State()), p, cwd).error
      ensures State() == MakePath(old(State()), p, cwd).disk
      decreases |p.parts|
    {
      err := Mkdir(p, cwd);
      if err == Some(NoSuchFile) && p.parts != [] {
        err := MkdirParents(Parent(p), cwd);
        if err.Some? {
          return;
        }
        err := Mkdir(p, cwd);
        if err.Some? && err.value != NoSuchFile && IsDirAt(State(), p, cwd) {
          err := None;
        }
      } else if err.Some? && err.value != NoSuchFile && IsDirAt(State(), p, cwd) {
        err := None;
      }
    }

    method Truncate(l: Loc) returns (err: Option<OsError>)
      modifies this
      ensures OpenForWrite(old(State()), l).Ok? ==>
        err == None && State() == OpenForWrite(old(State()), l).value
      ensures OpenForWrite(old(State()), l).Err? ==>
        err == Some(OpenForWrite(old(State()), l).error) && State() == old(State())
    {
      if l in files || CanCreate(State(), l) {
        files := files[l := ""];
        return None;
      }
      return Some(CreateError(State(), l));
    }

    /** `f.write(content)` on a file opened for writing. */
    method Store(l: Loc, content: string)
      modifies this
      ensures State() == DiskState(old(files)[l := content], old(dirs))
    {
      files := files[l := content];
    }

    method Read(l: Loc) returns (r: Result<string, OsError>)
      ensures r == ReadText(State(), l)
    {
      if l in files {
        return Ok(UniversalNewlines(files[l]));
      } else if l in dirs {
        return Err(IsADirectory);
      }
      return Err(WalkError(State(), l));
    }

    method Remove(l: Loc) returns (err: Option<OsError>)
      modifies this
      ensures Unlink(old(State()), l).Ok? ==>
        err == None && State() == Unlink(old(State()), l).value
      ensures Unlink(old(State()), l).Err? ==>
        err == Some(Unlink(old(State()), l).error) && State() == old(State())
    {
      if l in dirs {
        return Some(IsADirectory);
      } else if l in files {
        files := files - {l};
        return None;
      }
      return Some(WalkError(State(), l));
    }

    method CopyFile(src: Loc, dst: Loc) returns (err: Option<OsError>)
      modifies this
      ensures Copy2(old(State()), src, dst).Ok? ==>
        err == None && State() == Copy2(old(State()), src, dst).value
      ensures Copy2(old(State()), src, dst).Err? ==>
        err == Some(Copy2(old(State()), src, dst).error) && State() == old(State())
    {
      var r := Copy2(State(), src, dst);
      if r.Err? {
        return Some(r.error);
      }
      var target := Destination(State(), src, dst);
      files := files[target := files[src]];
      return None;
    }

    method MoveFile(src: Loc, dst: Loc) returns (err: Option<OsError>)
      modifies this
      ensures Move(old(State()), src, dst).Ok? ==>
        err == None && State() == Move(old(State()), src, dst).value
      ensures Move(old(State()), src, dst).Err? ==>
        err == Some(Move(old(State()), src, dst).error) && State() == old(State())
    {
      var r := Move(State(), src, dst);
      if r.Err? {
        return Some(r.error);
      }
      files := r.value.files;
      return None;
    }

    /** `iterdir()`: every entry directly inside `l`, in no particular order. */
    method IterDir(l: Loc) returns (items: seq<Loc>)
      ensures forall k :: 0 <= k < |items| ==> Exists(State(), items[k]) && |items[k]| == |l| + 1 && items[k][..|l|] == l
      ensures forall e :: Exists(State(), e) && |e| == |l| + 1 && e[..|l|] == l ==> e in items
    {
      items := [];
      var rest := set e | e in files.Keys + dirs && |e| == |l| + 1 && e[..|l|] == l;
      while rest != {}
        invariant forall k :: 0 <= k < |items| ==> Exists(State(), items[k]) && |items[k]| == |l| + 1 && items[k][..|l|] == l
        invariant forall e :: Exists(State(), e) && |e| == |l| + 1 && e[..|l|] == l ==> e in items || e in rest
        invariant forall e :: e in rest ==> Exists(State(), e) && |e| == |l| + 1 && e[..|l|] == l
        decreases rest
      {
        var e :| e in rest;
        items := items + [e];
        rest := rest - {e};
      }
    }
  }
}
