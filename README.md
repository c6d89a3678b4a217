# Axion backend core, modelled in Dafny

Axion is a local voice/text assistant with a safety gate.

- **Parsing.** A user in a session types an utterance. The parser (`backend/app/parser.py`) turns it into an intent, its arguments and a confidence. A fixed table of eight rules comes first, and an optional LLM fallback follows.
- **Proposal.** The plan handler of `backend/app/main.py` turns a recognised intent into one proposed `Action`. The action's risk is `low`, `medium` or `high`, by tool namespace. Whether it needs the user's approval depends on that risk and on the session's mode (`paranoid`, `normal`, `hands_free`).
- **Execution.** An action that needs no approval runs at once in a `ToolExecutor` (`backend/app/tools.py`), under the session's root directory. Every other action waits in the store until the user allows or denies it.
- **Outcome.** A successful run is logged for the session, and the action is dropped.
- **State.** The store (`backend/app/storage.py`) keeps sessions, pending actions, per-session logs and two settings (`root_path`, `first_run`).

The model covers those four files and the records of `backend/app/models.py`:

| File | Modelled as |
|---|---|
| `wrappers.dfy` | `Option`/`Result` |
| `models.dfy` | the records as datatypes; argument values as a `Value` datatype |
| `settings.dfy` | the configuration defaults |
| `text.dfy` | ASCII lower-casing, stripping and Python's string order |
| `parser.dfy` | the rule table as hand-written matchers over the normalised text; `parse_with_rules`, `parse_with_llm`, `parse` |
| `policy.dfy` | `get_allowed_scopes`, `assess_risk`, `needs_approval` |
| `paths.dfy` | `pathlib` paths as components; `get_full_path` and `is_safe_path` |
| `filesystem.dfy` | the directory tree as a value `DiskState`; the `mkdir`, `open`, `unlink`, `copy2`, `move` and `iterdir` calls as functions on it; a `Disk` class whose methods change it |
| `tools.dfy` | each tool as a function from arguments and disk to outcome and new disk; the class `ToolExecutor`, whose methods are proved to agree with those functions |
| `storage.dfy` | the class `Storage` over its four dictionaries |
| `gate.dfy` | the handlers |

In `gate.dfy`, each handler is specified by a function from the store and disk before the call to the reply and the store and disk after it. The handler methods drive a `Storage` and a `Disk` and are proved to agree with those functions.

`parser_facts.dfy`, `tool_facts.dfy` and `gate_facts.dfy` hold the properties. Among them:

- **The rules are exclusive.** The rules are mutually exclusive, so the first match is the only one. Rule matching ignores case and surrounding blanks, and a blank utterance is unknown; an utterance the rules do not recognise keeps its raw text.
- **Approval policy.** High-risk tools always wait for approval. A paranoid session never runs anything on its own. Outside hands-free mode every file tool waits.
- **Sandbox boundary.** A name the parser can capture, other than `..`, stays inside the sandbox root. An absolute path such as `/etc` does not, and `files.list` lists it all the same.
- **Plan and approve.** A plan saves exactly one action or none. Logs only grow, by at most one entry per call. A resolved action is gone, while an approval that failed leaves its action pending. The store's ids and log owners stay consistent across every handler.

## Model

| member | source | states |
|---|---|---|
| Models.NewPrivilegeRequest | backend/app/models.py:63-67 | a privilege request keeps the given need, target and reason, and defaults to a 15-minute expiry |
| Settings.Defaults | backend/app/config.py:17-29 | the default configuration: rules mode, no LLM key, thresholds 0.55 and 0.80, 60-minute sessions |
| Policy.AllowedScopes | backend/app/main.py:45-52 | every mode may read the system; sandbox file access and app launching are granted exactly outside paranoid mode; access outside the sandbox exactly in hands-free mode |
| Policy.ScopesNested | backend/app/main.py:45-52 | paranoid scopes are strictly fewer than normal ones, which are strictly fewer than hands-free ones; hands-free adds only outside-sandbox access |
| Policy.NamespacesDisjoint | backend/app/main.py:54-65 | a tool cannot be both in the `files.` and the `system.` namespace, so the branch order of `assess_risk` does not matter |
| Policy.AssessRisk | backend/app/main.py:54-65 | high exactly for `system.` tools other than `system.time` and for `privilege.request`; medium exactly for `files.` tools; low otherwise |
| Policy.KnownToolRisks | backend/app/main.py:54-65 | the risk of each of the nine known tools |
| Policy.RiskIgnoresArgs | backend/app/main.py:54-65 | the risk does not depend on the arguments |
| Policy.NeedsApproval | backend/app/main.py:67-74 | approval is needed exactly when the risk reaches the mode's floor: any risk in paranoid, medium in normal, high in hands-free |
| Policy.ApprovalMatrix | backend/app/main.py:67-74 | the full table of risk against mode |
| Policy.ApprovalMonotone | backend/app/main.py:67-74 | a stricter mode or a higher risk never removes the need for approval |
| Policy.HighRiskAlwaysGated | backend/app/main.py:54-74 | a high-risk tool needs approval in every mode |
| Policy.NormalModeGate | backend/app/main.py:54-74 | in normal mode the time query runs at once and the file tools wait |
| Parser.MatchWrite | backend/app/parser.py:14-15 | the write rule only matches text that begins with "write file ", and yields exactly a text `filename` and a text `content` |
| Parser.MatchTime | backend/app/parser.py:10-11 | the time rule matches exactly one of its four phrases, with or without a trailing "?", and yields no arguments |
| Parser.MatchOneName | backend/app/parser.py:18-23 | the read and delete rules only match text that begins with their words, and yield exactly a text `filename` |
| Parser.MatchTwoNames | backend/app/parser.py:26-31 | the copy and move rules only match text that begins with their words, and yield exactly a text `source` and `dest` |
| Parser.MatchListAfter | backend/app/parser.py:34-35 | one list keyword: the text begins with it and yields only a text `path`; the bare keyword yields the empty path; otherwise the path is path text, shorter than what follows the keyword, that ends the utterance |
| Parser.PathClause | backend/app/parser.py:34-35 | the optional ` in <path>` clause captures path text that ends the text after the keyword and is shorter than it |
| Parser.MatchListKeywords | backend/app/parser.py:34-35 | the keyword group matches only as one of its keywords does, and yields only a text `path` |
| Parser.KeywordsFail | backend/app/parser.py:34-35 | the keyword group fails exactly when every keyword fails |
| Parser.MatchOpen | backend/app/parser.py:38-39 | the open rule only matches text that begins with "open ", and yields exactly a text `app` |
| Parser.MatchArgNames | backend/app/parser.py:8-40 | a rule of the table that matches yields exactly its own argument names (none for the time rule), each bound to text |
| Parser.FirstMatch | backend/app/parser.py:46-58 | nothing is reported exactly when no rule matches; otherwise the intent, arguments and confidence of the first rule that matches |
| Parser.RuleTableBounds | backend/app/parser.py:8-40 | every rule's confidence lies between 0.90 and 1.0 and no rule yields "unknown" |
| Parser.Normalize | backend/app/parser.py:44 | the text the rules see has no upper-case letter and no surrounding blanks, and is no longer than the utterance |
| Parser.ParseWithRules | backend/app/parser.py:42-58 | a recognised utterance has confidence of at least 0.90 and a real intent |
| Parser.ParseWithLlm | backend/app/parser.py:60-69 | the fallback answers "unknown" with confidence 0.3, carrying the utterance |
| Parser.Parse | backend/app/parser.py:71-155 | confidence stays within 0..1; the LLM answers only outside rules mode and with a key; the intent is unknown exactly when no rule matched or the LLM answered |
| ParserFacts.CaseAndPaddingInvariant | backend/app/parser.py:44 | utterances that agree up to case and surrounding blanks parse alike |
| ParserFacts.CaseInsensitive | backend/app/parser.py:44 | lower-casing an utterance does not change its parse |
| ParserFacts.EmptyMatchesNothing | backend/app/parser.py:8-40 | no rule matches the empty text |
| ParserFacts.BlankMatchesNothing | backend/app/parser.py:42-58 | a blank utterance matches no rule |
| ParserFacts.UnmatchedIsUnknown | backend/app/parser.py:71-155 | an utterance no rule matches parses as unknown, with the rules' own unknown result when no LLM answers |
| ParserFacts.BlankIsUnknown | backend/app/parser.py:71-155 | a blank utterance parses as unknown |
| ParserFacts.MatchLead | backend/app/parser.py:8-40 | each rule only matches text with that rule's first two letters |
| ParserFacts.RulesExclusive | backend/app/parser.py:8-40 | no text matches two different rules |
| ParserFacts.FirstHitReported | backend/app/parser.py:46-58 | the first matching rule is what `parse_with_rules` reports |
| ParserFacts.PatternsDistinct | backend/app/parser.py:8-40 | the eight rules have distinct patterns (example) |
| ParserFacts.RuleTableEntries | backend/app/parser.py:8-40 | the rule table in its order, with each rule's intent and confidence (example) |
| ParserFacts.Decides | backend/app/parser.py:46-58 | whichever rule matches alone decides the outcome, wherever it sits in the table |
| ParserFacts.CapturesAreLowercase | backend/app/parser.py:44 | every captured argument is lower-case |
| ParserFacts.MatchCaptures | backend/app/parser.py:8-40 | every capture is taken from the normalised text |
| ParserFacts.WriteCaptures | backend/app/parser.py:14-15 | "write file N: C" yields `files.write` with filename N and content C at 0.95 |
| ParserFacts.ReadCaptures | backend/app/parser.py:18-19 | "read file N" yields `files.read` with filename N |
| ParserFacts.DeleteCaptures | backend/app/parser.py:22-23 | "delete file N" yields `files.delete` with filename N |
| ParserFacts.CopyCaptures | backend/app/parser.py:26-27 | "copy file S to D" yields `files.copy` with source S and dest D |
| ParserFacts.MoveCaptures | backend/app/parser.py:30-31 | "move file S to D" yields `files.move` with source S and dest D |
| ParserFacts.ListWithoutPath | backend/app/parser.py:34-35 | a bare list keyword lists with an empty path |
| ParserFacts.ListInPath | backend/app/parser.py:34-35 | "<keyword> in P" lists path P |
| ParserFacts.KeywordPrefixes | backend/app/parser.py:34-35 | no list keyword is a prefix of another, so at most one keyword alternative applies |
| ParserFacts.OpenCaptures | backend/app/parser.py:38-39 | "open A", for one of the listed apps, yields `apps.open` with app A |
| ParserFacts.TimeCaptures | backend/app/parser.py:10-11 | a time question yields `system.time` with no arguments |
| ParserFacts.HighConfidenceBypass | backend/app/parser.py:78-85 | a rule hit at or above the high threshold is returned without consulting the LLM |
| ParserFacts.NoFallbackParse | backend/app/parser.py:88-103 | in rules mode, or without a key, the rules' answer or their unknown result is returned |
| ParserFacts.HybridParse | backend/app/parser.py:105-134 | in hybrid mode a hit above the low threshold is kept; otherwise the LLM answers when a key is set |
| ParserFacts.LlmModeParse | backend/app/parser.py:136-155 | in LLM mode with a key, anything below the high threshold goes to the LLM |
| ParserFacts.HitsBypassUnderDefaults | backend/app/parser.py:78-85 | with a high threshold of at most 0.90, every rule hit is returned as the rules gave it |
| ParserFacts.TimeScenario | backend/app/parser.py:10-11 | under the defaults "what time is it?" parses to `system.time` with confidence 1.0 from the rules (example) |
| ParserFacts.WriteScenario | backend/app/parser.py:14-15 | "write file notes.txt: hello" parses to a write of "hello" to notes.txt (example) |
| ParserFacts.MixedCaseScenario | backend/app/parser.py:44 | "Write File Notes.TXT: Hello" parses to a write of "hello" to notes.txt (example) |
| Paths.Split | backend/app/tools.py:23 | splitting on "/" yields pieces without separators |
| Paths.FromString | backend/app/tools.py:23 | a path is absolute exactly when its text starts with "/" |
| Paths.SplitJoin | backend/app/tools.py:23 | splitting the joined components gives them back |
| Paths.ParsePrinted | backend/app/tools.py:23 | a path printed and parsed again is the same path |
| Paths.Step | backend/app/tools.py:27 | ".." moves to the parent, one component shorter (the root stays the root); any other name is appended |
| Paths.StepBack | backend/app/tools.py:27 | entering a directory and taking ".." comes back to where one was |
| Paths.Collapse | backend/app/tools.py:27 | resolution leaves no ".." and never lengthens the path |
| Paths.CollapseIdentity | backend/app/tools.py:27 | a component list without ".." resolves to itself |
| Paths.CollapseThrough | backend/app/tools.py:27 | resolving a prefix first does not change the result |
| Paths.CollapseAppend | backend/app/tools.py:27 | components without ".." are kept as they are after a resolved prefix |
| Paths.Resolve | backend/app/tools.py:27 | a resolved path is absolute and holds no ".." |
| Paths.Join | backend/app/tools.py:27 | joining appends the components of the second path |
| Paths.Parent | backend/app/tools.py:84 | the parent drops the last component |
| Paths.ExpandUser | backend/app/tools.py:13 | a leading "~" is replaced by the home directory and nothing else changes |
| Paths.GetFullPath | backend/app/tools.py:20-27 | an absolute name is returned as given; any other name is joined to the root and resolved |
| Paths.IsSafePath | backend/app/tools.py:29-37 | `is_safe_path` holds exactly when the path is the root's components followed by more |
| Paths.RelativeNameStaysInside | backend/app/tools.py:20-37 | a relative name without ".." resolves to root plus its components, which is safe |
| Paths.PlainNameInsideRoot | backend/app/tools.py:20-27 | a single name lands directly inside the root |
| Paths.ParentEscapes | backend/app/tools.py:20-37 | ".." from the sandbox lands outside it (example) |
| Paths.AbsoluteBypassesRoot | backend/app/tools.py:20-37 | "/etc" is used as given and is not safe (example) |
| Paths.ComponentwiseNotTextual | backend/app/tools.py:29-37 | containment is by components: "/sandboxed/x" is not inside "/sandbox" although its text starts with it (example) |
| FileSystem.WalkError | backend/app/tools.py:95-99 | a missing location reports "not a directory" exactly when a file sits on the way |
| FileSystem.LookupError | backend/app/tools.py:20-25 | ".." cannot be taken from a location that is not a directory: "not a directory" exactly when it is a file or a file lies above it, otherwise "no such file" |
| FileSystem.Walk | backend/app/tools.py:20-25 | a walk of a path as given fails only with "not a directory" or "no such file" |
| FileSystem.Reach | backend/app/tools.py:20-25 | a path without ".." is found at its components, after the root or the working directory; a path that is reached is found where `resolve()` would put it |
| FileSystem.WalkPlain | backend/app/tools.py:20-27 | a walk without ".." only appends, on any disk |
| FileSystem.WalkResolves | backend/app/tools.py:20-27 | a walk that gets through lands where lexical resolution does |
| FileSystem.StepResolved | backend/app/tools.py:27 | one step from a resolved location is the resolution of one more component |
| FileSystem.WalkLast | backend/app/tools.py:20-25 | the walk of one more component continues from where the shorter walk ended, and ".." fails there unless that is a directory |
| FileSystem.ReachLast | backend/app/tools.py:20-25 | a path is reached as its parent is, and one more step |
| FileSystem.WalkMoreDirs | backend/app/tools.py:84 | new directories never change a walk that got through |
| FileSystem.ReachMoreDirs | backend/app/tools.py:84 | the same for a whole path |
| FileSystem.MakeDir | backend/app/tools.py:18 | `os.mkdir`: a success adds exactly the reached location, which did not exist, and keeps files and the tree well formed; an existing path fails with "file exists" |
| FileSystem.MakePath | backend/app/tools.py:16-18 | `mkdir(parents=True, exist_ok=True)`: files never change and directories are only added, the tree stays well formed, a success leaves a directory at the path, and an existing directory changes nothing |
| FileSystem.DirectoriesAbove | backend/app/tools.py:16-18 | in a well-formed tree every location above a directory is a directory, so no file lies on its way |
| FileSystem.MakeDirPlain | backend/app/tools.py:18 | on a path with no "..", `os.mkdir` fails on a missing parent or an existing entry and otherwise adds the entry |
| FileSystem.MakePathPlain | backend/app/tools.py:16-18 | on a path with no ".." that starts from a directory, `mkdir(parents=True)` gives what `MakeDirs` gives: the same new directories, or the same error with the disk unchanged |
| FileSystem.MakePathThroughFile | backend/app/tools.py:16-18 | "/tmp/f/../box" with "/tmp/f" a file fails with "not a directory" and changes nothing, although it resolves to "/tmp/box" (example) |
| FileSystem.MakePathThroughMissing | backend/app/tools.py:16-18 | making "/tmp/nope/../box" makes "/tmp/nope" on the way and then "/tmp/box" (example) |
| FileSystem.MakeDirs | backend/app/tools.py:18 | making a location and every directory above it at once (what `mkdir(parents=True, exist_ok=True)` amounts to on a path with no ".."): it succeeds exactly when no file occupies the location or lies on the way, and then adds the location and all above it |
| FileSystem.OpenForWrite | backend/app/tools.py:86 | opening for writing succeeds on a creatable location or an existing file and leaves it empty |
| FileSystem.UniversalNewlines | backend/app/tools.py:98-99 | text read back has no carriage returns, and text without them is unchanged |
| FileSystem.ReadText | backend/app/tools.py:98-99 | a file reads as its content with newlines translated; a directory and a missing location fail with their errors |
| FileSystem.Unlink | backend/app/tools.py:110 | unlinking succeeds exactly on a file and removes only it |
| FileSystem.Destination | backend/app/tools.py:113-137 | copying or moving into a directory targets the source's name inside it |
| FileSystem.Copy2 | backend/app/tools.py:122 | a successful copy gives the target the source's content and changes nothing else |
| FileSystem.Move | backend/app/tools.py:135 | moving a file onto itself changes nothing; a successful move removes the source and gives the target its content |
| FileSystem.ChildMeansEntry | backend/app/tools.py:150-151 | a name is among a directory's children (`Children`) exactly when that entry exists |
| FileSystem.CreateKeepsWellformed | backend/app/tools.py:86-87 | creating a file where it can be created keeps the tree well formed |
| FileSystem.Disk.Mkdir | backend/app/tools.py:18 | `os.mkdir`: changes the disk exactly as `MakeDir`, or reports its error and changes nothing |
| FileSystem.Disk.MkdirParents | backend/app/tools.py:16-18 | returns the error and leaves the disk as `MakePath` says |
| FileSystem.Disk.Truncate | backend/app/tools.py:86 | changes the disk exactly as `OpenForWrite`, or reports its error |
| FileSystem.Disk.Store | backend/app/tools.py:87 | the file's content becomes the text |
| FileSystem.Disk.Read | backend/app/tools.py:98-99 | returns `ReadText` of the current disk |
| FileSystem.Disk.Remove | backend/app/tools.py:110 | changes the disk exactly as `Unlink`, or reports its error |
| FileSystem.Disk.CopyFile | backend/app/tools.py:122 | changes the disk exactly as `Copy2`, or reports its error |
| FileSystem.Disk.MoveFile | backend/app/tools.py:135 | changes the disk exactly as `Move`, or reports its error |
| FileSystem.Disk.IterDir | backend/app/tools.py:150 | yields every entry directly inside the directory and nothing else |
| Tools.RootOf | backend/app/tools.py:12-13 | the executor's root is the given path, or the sandbox path when none is given, with "~" expanded |
| Tools.ErrorText | backend/app/main.py:169-176 | the recorded text of a message the source builds is that message; every other error has a non-empty text |
| Tools.OsTextsDistinct | backend/app/main.py:169-176 | the recorded text of an operating-system error tells which error it was |
| Tools.Get | backend/app/tools.py:39-71 | `args.get` has a value exactly when the key is present, and it is that key's argument |
| Tools.SortedNames | backend/app/tools.py:153 | the names of a set in strictly ascending order, each once |
| Tools.SystemTime | backend/app/tools.py:73-79 | the reply carries the clock's ISO time and Unix time |
| Tools.Write | backend/app/tools.py:81-89 | a successful write reports the length of the string content; the tree stays well formed |
| Tools.Read | backend/app/tools.py:91-101 | a successful read returns text |
| Tools.Delete | backend/app/tools.py:103-111 | a failed delete leaves the disk as it was; the tree stays well formed |
| Tools.Copy | backend/app/tools.py:113-124 | the tree stays well formed |
| Tools.MoveFile | backend/app/tools.py:126-137 | the tree stays well formed |
| Tools.ListTarget | backend/app/tools.py:141 | the directory to list is found unless the path argument is not text |
| Tools.List | backend/app/tools.py:139-153 | a listing is strictly sorted |
| Tools.OpenApp | backend/app/tools.py:155-162 | the reply echoes the app and carries the fixed note |
| Tools.Dispatch | backend/app/tools.py:39-71 | an unknown tool fails with "Unknown tool: " and its name and changes nothing, and only an unknown tool fails that way; the tree stays well formed |
| Tools.RunKnown | backend/app/tools.py:42-68 | the nine known tools never fail as unknown, and keep the tree well formed |
| Tools.NamesOfEntries | backend/app/tools.py:149-151 | the names collected from `iterdir` are exactly the directory's children |
| Tools.EntryNames | backend/app/tools.py:149-151 | the loop collects the last component of each entry, in order |
| Tools.ListedDirectory | backend/app/tools.py:149-153 | listing a directory yields its children sorted, whatever order `iterdir` gave them in |
| Tools.ToolExecutor.constructor | backend/app/tools.py:12-13 | the executor's root is `RootOf` the given root path |
| Tools.ToolExecutor.EnsureSandbox | backend/app/tools.py:16-18 | returns the error and leaves the disk as `MakePath` of the root, as given, says |
| Tools.ToolExecutor.Execute | backend/app/tools.py:39-71 | returns and leaves the disk as `Dispatch` says |
| Tools.ToolExecutor.FilesWrite | backend/app/tools.py:81-89 | returns and leaves the disk as `Write` says |
| Tools.ToolExecutor.FilesRead | backend/app/tools.py:91-101 | returns what `Read` says |
| Tools.ToolExecutor.FilesDelete | backend/app/tools.py:103-111 | returns and leaves the disk as `Delete` says |
| Tools.ToolExecutor.FilesCopy | backend/app/tools.py:113-124 | returns and leaves the disk as `Copy` says |
| Tools.ToolExecutor.FilesMove | backend/app/tools.py:126-137 | returns and leaves the disk as `MoveFile` says |
| Tools.ToolExecutor.FilesList | backend/app/tools.py:139-153 | returns what `List` says |
| ToolFacts.PlainTargets | backend/app/tools.py:20-27 | under a resolved root, a plain name's full path is the root plus the name, its parent is the root, and the walk reaches it on any disk |
| ToolFacts.WriteThenRead | backend/app/tools.py:81-101 | reading back a successful write gives the content, with newlines translated, and exactly the content when it has no carriage return |
| ToolFacts.CarriageReturnReadBack | backend/app/tools.py:81-101 | "a\rb" written reads back as "a\nb" (example) |
| ToolFacts.WriteInsideRoot | backend/app/tools.py:81-89 | writing a plain name on a clear way creates the directories to the root and gives exactly that file the content |
| ToolFacts.RootMade | backend/app/tools.py:84 | on a clear way, making the parent of a plain name makes exactly the root and every directory above it, and the name is then reached inside the root |
| ToolFacts.WriteOfNonTextEmptiesFile | backend/app/tools.py:84-87 | content that is not a string fails the write but leaves the file created and empty |
| ToolFacts.MissingNamesFail | backend/app/tools.py:91-137 | read, delete, copy and move of a name that does not exist, or cannot be reached, fail with the source's messages and change nothing |
| ToolFacts.DeleteRemovesOnlyThatFile | backend/app/tools.py:103-111 | a successful delete removed exactly that file |
| ToolFacts.DeleteOfDirectoryFails | backend/app/tools.py:103-111 | deleting a directory fails with "is a directory" and changes nothing |
| ToolFacts.CopyKeepsSource | backend/app/tools.py:113-124 | a successful copy keeps the source and gives the destination its content |
| ToolFacts.MoveTransfersContent | backend/app/tools.py:126-137 | a successful move between two places removes the source and gives the destination its content |
| ToolFacts.ListDefaultsToRoot | backend/app/tools.py:60-61 | without a path argument the root is listed |
| ToolFacts.ListOfMissingIsEmpty | backend/app/tools.py:143-144 | a target that does not exist, or cannot be reached, lists as empty |
| ToolFacts.ListOfFileFails | backend/app/tools.py:146-147 | a target reached at a file fails with "Not a directory: " and the path |
| ToolFacts.ListOfDirectory | backend/app/tools.py:139-153 | a target reached at a directory lists each of its entries exactly, sorted |
| ToolFacts.ReadOnlyTools | backend/app/tools.py:39-71 | time, read, list, app and privilege tools and unknown tools never change the disk |
| ToolFacts.PrivilegeRequestPending | backend/app/tools.py:66-68 | a privilege request only reports that approval is pending |
| ToolFacts.OpenAppEchoes | backend/app/tools.py:155-162 | opening an app echoes the `app` argument |
| ToolFacts.ParsedNameStaysInside | backend/app/tools.py:20-37 | any file name the parser can capture, except "..", resolves inside the root |
| ToolFacts.ListReachesOutsideRoot | backend/app/tools.py:139-153 | listing "/etc" is not safe and is listed all the same (example) |
| ToolFacts.ListThroughMissing | backend/app/tools.py:139-144 | "/nope/../etc" with "/nope" missing lists as empty, although it resolves to "/etc" (example) |
| Store.InitialSettings | backend/app/storage.py:21-24 | a fresh store's settings are the sandbox root and "first run" |
| Store.LogsOf | backend/app/storage.py:198-200 | a session that never logged has no entries |
| Store.AppendLog | backend/app/storage.py:173-177 | the entry goes last in its session's list; every other list is unchanged |
| Store.Storage.constructor | backend/app/storage.py:13-24 | a fresh store: no sessions, actions or logs, and the initial settings |
| Store.Storage.SaveSetting | backend/app/storage.py:99-101 | overwrites that one setting |
| Store.Storage.GetSetting | backend/app/storage.py:112-114 | the stored value, or the default when absent |
| Store.Storage.SaveSession | backend/app/storage.py:116-118 | files the session under its id, nothing else changes |
| Store.Storage.GetSession | backend/app/storage.py:137-139 | the session exactly when its id is stored |
| Store.Storage.SaveAction | backend/app/storage.py:141-143 | files the action under its id, nothing else changes |
| Store.Storage.GetAction | backend/app/storage.py:164-166 | the action exactly when its id is pending |
| Store.Storage.DeleteAction | backend/app/storage.py:168-171 | removes the id if present and is silent otherwise |
| Store.Storage.SaveLog | backend/app/storage.py:173-177 | appends as `AppendLog` says, nothing else changes |
| Store.Storage.GetLogs | backend/app/storage.py:198-200 | the session's entries in saving order, or none |
| Gate.Proposed | backend/app/main.py:114-124 | the proposed action carries the parse, the session and the policy's risk; it waits exactly when the risk reaches the mode's floor, always when high or paranoid |
| Gate.Run | backend/app/main.py:131-135 | building the executor fails exactly when making its root, as given, fails, and then no file has changed; otherwise the tool runs on the disk `mkdir` left; the tree stays well formed; an unknown tool fails with "Unknown tool: " |
| Gate.Entry | backend/app/main.py:144-152 | the entry records the action's id, tool and arguments under the session's id |
| Gate.SessionKey | backend/app/main.py:192-196 | an action belongs to a session exactly when its session id is present and non-empty |
| Gate.LogFor | backend/app/main.py:200-210 | the outcome is logged only when there is a session |
| Gate.RootSetting | backend/app/main.py:88 | the stored root path, or the configured sandbox when none was ever stored |
| Gate.Start | backend/app/main.py:81-93 | a session of the requested mode, with its scopes, the configured length and the stored root, is filed under its id; a root that is not text fails and changes nothing |
| Gate.Plan | backend/app/main.py:95-181 | a missing session is a 404 that changes nothing; sessions and settings never change; the tree stays well formed |
| Gate.AutoRun | backend/app/main.py:131-176 | auto-execution leaves sessions and settings unchanged |
| Gate.Approve | backend/app/main.py:183-283 | a missing action is a 404 that changes nothing; a denial leaves the disk alone; sessions and settings never change |
| Gate.PrivilegeArgs | backend/app/main.py:318-325 | the four request fields become the action's arguments |
| Gate.PrivilegeAction | backend/app/main.py:314-333 | a high-risk `privilege.request` action with no session that waits; its risk and flag agree with the policy in every mode |
| Gate.ChosenRoot | backend/app/main.py:302-312 | the stripped path, or the sandbox path when the request's path is empty |
| Gate.RootSettings | backend/app/main.py:291-300 | the stored root and first-run flag, defaulting to the sandbox and true |
| Gate.StartSession | backend/app/main.py:81-93 | replies and changes the store as `Start` says |
| Gate.CreatePlan | backend/app/main.py:95-181 | replies and changes the store and disk as `Plan` says |
| Gate.RunNow | backend/app/main.py:131-176 | replies and changes the store and disk as `AutoRun` says |
| Gate.ApproveAction | backend/app/main.py:183-283 | replies and changes the store and disk as `Approve` says |
| Gate.RequestPrivilege | backend/app/main.py:314-333 | saves and returns `PrivilegeAction`, nothing else changes |
| Gate.SetRootPath | backend/app/main.py:302-312 | stores the chosen root and ends the first run |
| Gate.GetRootSettings | backend/app/main.py:291-300 | returns `RootSettings` of the store |
| Gate.GetLogs | backend/app/main.py:285-289 | returns the session's log |
| GateFacts.FreshStoreConsistent | backend/app/storage.py:13-24 | a fresh store is consistent: records under their own ids, logs only for existing sessions |
| GateFacts.AppendKeepsConsistent | backend/app/storage.py:173-177 | logging for an existing session keeps the store consistent |
| GateFacts.StartKeepsConsistent | backend/app/main.py:81-93 | starting a session keeps the store consistent |
| GateFacts.PlanKeepsConsistent | backend/app/main.py:95-181 | planning keeps the store consistent |
| GateFacts.ApproveKeepsConsistent | backend/app/main.py:183-283 | resolving an action keeps the store consistent |
| GateFacts.RequestKeepsConsistent | backend/app/main.py:314-333 | a privilege request keeps the store consistent |
| GateFacts.PlanLogsOnlyGrow | backend/app/main.py:95-181 | every session's old log is a prefix of its new one, at most one entry shorter |
| GateFacts.ApproveLogsOnlyGrow | backend/app/main.py:183-283 | the same for resolving an action |
| GateFacts.UnknownIntentChangesNothing | backend/app/main.py:109-111 | an unrecognised utterance proposes nothing and changes nothing |
| GateFacts.BlankUtteranceChangesNothing | backend/app/main.py:104-111 | a blank utterance proposes nothing and changes nothing |
| GateFacts.KnownIntentProposesOne | backend/app/main.py:114-128 | a recognised utterance proposes exactly one action, and no other pending action is touched |
| GateFacts.GatedPlanWaits | backend/app/main.py:126-132 | an action that needs approval is saved and returned and nothing runs |
| GateFacts.AutoRunSuccess | backend/app/main.py:131-176 | a successful auto-run is logged, reported and leaves no pending action |
| GateFacts.AutoRunFailure | backend/app/main.py:131-176 | a failed auto-run is reported, not logged, and the action stays pending |
| GateFacts.AutoRunWithoutSandbox | backend/app/main.py:127-133 | when the root cannot be created the plan fails after the action was saved, nothing is logged, and the directories made before the failure stay made |
| GateFacts.ParanoidNeverAutoRuns | backend/app/main.py:124-132 | a paranoid session's plan never touches the disk |
| GateFacts.FileToolsWait | backend/app/main.py:114-132 | outside hands-free mode a file tool is saved as medium risk and waits |
| GateFacts.TimeQueryRunsAtOnce | backend/app/main.py:131-176 | in normal mode a time question runs at once, is logged and is not left pending |
| GateFacts.UnresolvableIsNotFound | backend/app/main.py:186-196 | an unknown action, or one whose session is gone, is a 404 that changes nothing |
| GateFacts.DenyDropsAction | backend/app/main.py:198-218 | a denial runs nothing, logs the denial for the session and drops the action |
| GateFacts.AllowOutcome | backend/app/main.py:221-283 | an approval runs the tool under the session's root, logs the outcome and drops the action only on success |
| GateFacts.AllowWithoutSandbox | backend/app/main.py:221-222 | an approval whose root cannot be created fails, leaves the store as it was and the disk as `mkdir` left it |
| GateFacts.ResolvedActionIsGone | backend/app/main.py:198-283 | after a denial or a successful approval, resolving the same id is a 404 |
| GateFacts.FailedApprovalCanRetry | backend/app/main.py:221-283 | a failed approval leaves the action pending |
| GateFacts.ApprovedPrivilegeStaysPending | backend/app/main.py:314-333 | approving a privilege request grants nothing: once the sandbox exists it succeeds with the "pending approval" status and drops the action |
| GateFacts.FreshRootSettings | backend/app/main.py:291-300 | a fresh store reports the sandbox and a first run |
| GateFacts.RootSettingsAfterSet | backend/app/main.py:291-312 | after setting the root, the chosen root is reported and the first run is over |
| GateFacts.SessionUsesChosenRoot | backend/app/main.py:302-312 | a session started after setting the root works under it |
| GateFacts.BlankRootMeansSandbox | backend/app/main.py:302-312 | a root path of blanks is stored empty, and an executor then works in the sandbox |
| GateFacts.RootThroughFile | backend/app/main.py:131-135 | a root "/tmp/f/../box" with "/tmp/f" a file fails before the tool runs and changes nothing (example) |
| Text.Lower | backend/app/parser.py:44 | lower-casing keeps the length and lower-cases each character |
| Text.Strip | backend/app/parser.py:44 | stripping leaves no surrounding blanks, never lengthens, gives nothing exactly for a blank string, and keeps lower-case text lower-case |
| Text.TrimLeftAppend | backend/app/parser.py:44 | leading blanks before text are dropped by stripping |
| Text.StripPadded | backend/app/parser.py:44 | stripping removes exactly the blank padding around text |
| Text.LowerIdempotent | backend/app/parser.py:44 | lower-casing twice is lower-casing once |
| Text.SortedUnique | backend/app/tools.py:153 | two strictly sorted sequences of the same names are equal |

## Left out

- The HTTP and WebSocket layer is left out: FastAPI routing, request validation errors, CORS, the `/api` and health endpoints, the websocket endpoint and its notifications. Each handler is modelled from its arguments to its reply.
- SQLite persistence is left out: `init_db`, `load_settings` and the database mirror of each `save_*`. Only the in-memory dictionaries are modelled, which the handlers read.
- Concurrency and the interleaving of `async` handlers are left out. Each handler runs to completion on its own.
- Clocks and identifiers are parameters. The current time, `uuid4` ids and timestamps are passed in rather than read.
- Configuration is loaded from the environment and `.env`, which the model does not do. `Config` is a parameter, and `Settings.Defaults` gives its default values.
- The home directory and the working directory are parameters. `expanduser` handles only a leading `~`, not `~user`.
- Symbolic links are not modelled. Only `resolve()`, applied to relative names in `get_full_path`, collapses ".." lexically (`Paths.Collapse`). Every path handed to the operating system as it stands (an absolute name, the root listed by `files_list("")` and made by `ensure_sandbox`, and the paths given to `mkdir`, `open`, `unlink`, `copy2` and `move`) is walked component by component on the disk (`FileSystem.Walk`, `FileSystem.Reach`), where ".." needs the directory it leaves to exist.
- The working directory is taken to exist; it matters only for a root path that is relative.
- When a copy or move targets a directory, the new entry's name is the last component of the location the source was found at, which is the name `shutil` uses for every source without "..".
- Regular expressions are hand-written matchers for the eight rules. `\w` and `\s` are taken as ASCII, and `str.lower` and `str.strip` are ASCII.
- The parser lower-cases the utterance before matching, so captured file names and contents are lower-case. The model follows the code here, and `ParserFacts.CapturesAreLowercase` states it.
- The LLM fallback is modelled as the stub that exists: "unknown", confidence 0.3. No model call is made.
- Operating-system error messages are abstracted to their kind (no such file, not a directory, is a directory, file exists). Only the messages the source builds itself are kept as text.
- `shutil.copy2` metadata is left out: timestamps and permission bits.
- Moving a directory with `shutil.move` is not modelled. It fails in the model as an operating-system error.
- Byte counts are not modelled: `len(content)` counts characters, as in the source, and no encoding is applied.
- `args.get` returning `None` for a missing key is modelled as an absent argument. A missing or non-string file name or content fails the way `Path(None)` or `write(None)` would: a type error kept as `NotText`.
- The text of the server error raised when the stored root path is not a string is abstracted. Only the fact that it fails is kept.
- Tools.Copy: states only that the tree stays well formed; what a successful copy does to the disk is stated by `ToolFacts.CopyKeepsSource`.
- Tools.MoveFile: states only that the tree stays well formed; what a successful move does is stated by `ToolFacts.MoveTransfersContent`, for a source and destination that differ.
