/**
 * What the interpreter of backend/app/parser.py promises: normalisation,
 * first-match-wins, the decision tree for each mode, the arguments each rule
 * captures, and the scenarios the backend tests exercise.
 */
module ParserFacts {
  import opened Wrappers
  import opened Models
  import opened Settings
  import opened Text
  import opened Parser

  // ---------------------------------------------------------------------------
  // Normalisation

  /** Case and surrounding whitespace do not change what the rules find. */
  lemma CaseAndPaddingInvariant(u: string, v: string, w1: string, w2: string)
    requires AllSpace(w1) && AllSpace(w2)
    requires Lower(u) == Lower(v)
    ensures ParseWithRules(w1 + u + w2) == ParseWithRules(v)
  {
    LowerAppend(w1 + u, w2);
    LowerAppend(w1, u);
    LowerKeepsSpaces(w1);
    LowerKeepsSpaces(w2);
    StripPadded(w1, Lower(u), w2);
  }

  /** Lowercasing an utterance first changes nothing. */
  lemma CaseInsensitive(u: string)
    ensures ParseWithRules(Lower(u)) == ParseWithRules(u)
  {
    LowerIdempotent(u);
  }

  lemma {:induction false} ListKeywordsNeedText(keywords: seq<string>)
    requires forall k :: k in keywords ==> k != []
    ensures MatchListKeywords(keywords, "") == None
    decreases |keywords|
  {
    if keywords != [] {
      assert keywords[0] in keywords;
      assert !StartsWith("", keywords[0]);
      assert forall k :: k in keywords[1..] ==> k in keywords;
      ListKeywordsNeedText(keywords[1..]);
    }
  }

  /** No pattern accepts the empty text. */
  lemma EmptyMatchesNothing(p: Pattern)
    ensures Match(p, "") == None
  {
    if p == ListFiles { ListKeywordsNeedText(ListKeywords); }
  }

  /** A blank utterance (empty or only whitespace) matches no rule. */
  lemma BlankMatchesNothing(u: string)
    requires AllSpace(u)
    ensures ParseWithRules(u) == NoMatch
  {
    LowerKeepsSpaces(u);
    forall i | 0 <= i < |RuleTable| ensures Match(RuleTable[i].pattern, Normalize(u)).None? {
      EmptyMatchesNothing(RuleTable[i].pattern);
    }
  }

  /** Whatever the configuration, a blank utterance is interpreted as `"unknown"`. */
  lemma BlankIsUnknown(cfg: Config, u: string)
    requires AllSpace(u)
    ensures Parse(cfg, u).intent == "unknown"
    ensures Parse(cfg, u).source == Rules ==> Parse(cfg, u) == Unknown(u)
  {
    BlankMatchesNothing(u);
    UnmatchedIsUnknown(cfg, u);
  }

  /** An utterance no rule matches is `"unknown"`, unless the model was asked. */
  lemma UnmatchedIsUnknown(cfg: Config, u: string)
    requires ParseWithRules(u).intent.None?
    ensures Parse(cfg, u).intent == "unknown"
    ensures Parse(cfg, u).source == Rules ==> Parse(cfg, u) == Unknown(u)
  {
  }

  // ---------------------------------------------------------------------------
  // Rules are tried in order, but no two of them accept the same text

  /**
   * The pattern whose accepted texts begin with the characters `a`, `b`, if
   * any: each pair of leading characters belongs to at most one pattern.
   */
  function LeadOf(a: char, b: char): Option<Pattern> {
    if (a == 'w' && b == 'h') || (a == 'c' && b == 'u') || (a == 't' && b == 'i') then Some(TimeQuery)
    else if a == 'w' && b == 'r' then Some(WriteFile)
    else if a == 'r' && b == 'e' then Some(ReadFile)
    else if a == 'd' && b == 'e' then Some(DeleteFile)
    else if a == 'c' && b == 'o' then Some(CopyFile)
    else if a == 'm' && b == 'o' then Some(MoveFile)
    else if (a == 'l' && b == 'i') || (a == 'l' && b == 's') || (a == 'd' && b == 'i') || (a == 's' && b == 'h') then Some(ListFiles)
    else if a == 'o' && b == 'p' then Some(OpenApp)
    else None
  }

  predicate Lead(p: Pattern, a: char, b: char) {
    LeadOf(a, b) == Some(p)
  }

  lemma StartsWithLead(text: string, prefix: string)
    requires |prefix| >= 2 && StartsWith(text, prefix)
    ensures |text| >= 2 && text[0] == prefix[0] && text[1] == prefix[1]
  {
    assert text[..|prefix|] == prefix;
  }

  lemma {:induction false} ListKeywordsLead(keywords: seq<string>, text: string)
    requires forall k :: k in keywords ==> |k| >= 2 && Lead(ListFiles, k[0], k[1])
    requires MatchListKeywords(keywords, text).Some?
    ensures |text| >= 2 && Lead(ListFiles, text[0], text[1])
    decreases |keywords|
  {
    assert keywords[0] in keywords;
    if MatchListAfter(keywords[0], text).None? {
      assert forall k :: k in keywords[1..] ==> k in keywords;
      ListKeywordsLead(keywords[1..], text);
    } else {
      StartsWithLead(text, keywords[0]);
    }
  }

  lemma TimeLead(text: string)
    requires MatchTime(text).Some?
    ensures |text| >= 2 && Lead(TimeQuery, text[0], text[1])
  {
    var t := if text in TimePhrases then text else text[..|text| - 1];
    assert t in TimePhrases;
    assert t == "what time is it" || t == "current time" || t == "time" || t == "what's the time";
    assert t[0] == text[0] && t[1] == text[1];
  }

  /** The command word a pattern's texts begin with; the time query and the listing have several. */
  function Word(p: Pattern): (w: string)
    ensures w == "" <==> p == TimeQuery || p == ListFiles
  {
    match p
    case WriteFile => "write file "
    case ReadFile => "read file "
    case DeleteFile => "delete file "
    case CopyFile => "copy file "
    case MoveFile => "move file "
    case OpenApp => "open "
    case _ => ""
  }

  /** A pattern only accepts texts that begin with one of its leads. */
  lemma MatchLead(p: Pattern, text: string)
    requires Match(p, text).Some?
    ensures |text| >= 2 && Lead(p, text[0], text[1])
  {
    if p == TimeQuery {
      TimeLead(text);
    } else if p == ListFiles {
      ListFilesMatch(text, ListKeywords);
      ListLead(text, ListKeywords);
    } else {
      MatchWord(p, text);
      WordLead(p, text);
    }
  }

  /** The other patterns only accept texts that begin with their command word. */
  lemma MatchWord(p: Pattern, text: string)
    requires Word(p) != "" && Match(p, text).Some?
    ensures StartsWith(text, Word(p))
  {
  }

  lemma WordLead(p: Pattern, text: string)
    requires Word(p) != "" && StartsWith(text, Word(p))
    ensures |text| >= 2 && Lead(p, text[0], text[1])
  {
    StartsWithLead(text, Word(p));
  }

  lemma ListLead(text: string, keywords: seq<string>)
    requires keywords == ListKeywords
    requires MatchListKeywords(keywords, text).Some?
    ensures |text| >= 2 && Lead(ListFiles, text[0], text[1])
  {
    KeywordLeads();
    ListKeywordsLead(keywords, text);
  }

  lemma KeywordLeads()
    ensures forall k :: k in ListKeywords ==> |k| >= 2 && Lead(ListFiles, k[0], k[1])
  {
    forall k | k in ListKeywords ensures |k| >= 2 && Lead(ListFiles, k[0], k[1]) {
      assert k == "list files" || k == "ls" || k == "dir" || k == "show files";
    }
  }

  /**
   * At most one rule accepts any text, so for this table the first-match order
   * never changes the outcome: whichever rule matches is the only one.
   */
  lemma RulesExclusive(text: string, p: Pattern, q: Pattern)
    requires p != q
    requires Match(p, text).Some?
    ensures Match(q, text).None?
  {
    MatchLead(p, text);
    if Match(q, text).Some? {
      MatchLead(q, text);
      assert false;
    }
  }

  /** When rule `i` matches and none before it does, the search reports rule `i`. */
  lemma {:induction false} FirstHitReported(rules: seq<Rule>, text: string, i: int)
    requires FirstHit(rules, text, i)
    ensures FirstMatch(rules, text) ==
      RuleOutcome(Some(rules[i].intent), Match(rules[i].pattern, text).value, rules[i].confidence)
  {
    var r := FirstMatch(rules, text);
    var k :| FirstHit(rules, text, k) && Reports(rules, text, k, r);
    assert k == i;
  }

  lemma PatternsDistinct()
    ensures forall i, j :: 0 <= i < j < |RuleTable| ==> RuleTable[i].pattern != RuleTable[j].pattern
  {
  }

  /** The entries of the table, one by one. */
  lemma RuleTableEntries()
    ensures |RuleTable| == 8
    ensures RuleTable[0] == Rule(TimeQuery, IntentOf(TimeQuery), ConfidenceOf(TimeQuery))
    ensures RuleTable[1] == Rule(WriteFile, IntentOf(WriteFile), ConfidenceOf(WriteFile))
    ensures RuleTable[2] == Rule(ReadFile, IntentOf(ReadFile), ConfidenceOf(ReadFile))
    ensures RuleTable[3] == Rule(DeleteFile, IntentOf(DeleteFile), ConfidenceOf(DeleteFile))
    ensures RuleTable[4] == Rule(CopyFile, IntentOf(CopyFile), ConfidenceOf(CopyFile))
    ensures RuleTable[5] == Rule(MoveFile, IntentOf(MoveFile), ConfidenceOf(MoveFile))
    ensures RuleTable[6] == Rule(ListFiles, IntentOf(ListFiles), ConfidenceOf(ListFiles))
    ensures RuleTable[7] == Rule(OpenApp, IntentOf(OpenApp), ConfidenceOf(OpenApp))
  {
  }

  /** The intent the table attaches to each pattern. */
  function IntentOf(p: Pattern): string {
    match p
    case TimeQuery => "system.time"
    case WriteFile => "files.write"
    case ReadFile => "files.read"
    case DeleteFile => "files.delete"
    case CopyFile => "files.copy"
    case MoveFile => "files.move"
    case ListFiles => "files.list"
    case OpenApp => "apps.open"
  }

  /** The confidence the table attaches to each pattern. */
  function ConfidenceOf(p: Pattern): real {
    match p
    case TimeQuery => 1.0
    case WriteFile | ReadFile | DeleteFile | CopyFile | MoveFile => 0.95
    case ListFiles | OpenApp => 0.90
  }

  /** The place of each pattern in the table. */
  function PlaceOf(p: Pattern): nat {
    match p
    case TimeQuery => 0
    case WriteFile => 1
    case ReadFile => 2
    case DeleteFile => 3
    case CopyFile => 4
    case MoveFile => 5
    case ListFiles => 6
    case OpenApp => 7
  }

  /**
   * Whichever pattern accepts the text decides the search, with the intent and
   * confidence the table gives it, wherever it stands in the table.
   */
  lemma Decides(text: string, p: Pattern, args: Args)
    requires Match(p, text) == Some(args)
    ensures FirstMatch(RuleTable, text) == RuleOutcome(Some(IntentOf(p)), args, ConfidenceOf(p))
  {
    PatternsDistinct();
    RuleTableEntries();
    var i := PlaceOf(p);
    forall j | 0 <= j < i ensures Match(RuleTable[j].pattern, text).None? {
      RulesExclusive(text, RuleTable[i].pattern, RuleTable[j].pattern);
    }
    FirstHitReported(RuleTable, text, i);
  }

  // ---------------------------------------------------------------------------
  // Captured arguments

  lemma NoUpperSlice(s: string, i: int, j: int)
    requires NoUpper(s) && 0 <= i <= j <= |s|
    ensures NoUpper(s[i..j])
  {
  }

  lemma NormalizedHasNoUpper(u: string)
    ensures NoUpper(Normalize(u))
  {
    LowerHasNoUpper(u);
    var t := TrimLeft(Lower(u));
    NoUpperSlice(Lower(u), |Lower(u)| - |t|, |Lower(u)|);
    NoUpperSlice(t, 0, |TrimRight(t)|);
  }

  /** Every argument a rule captures is a string, in lower case when the text is. */
  predicate CapturedFrom(args: Args, text: string) {
    forall k :: k in args ==> args[k].Str? && (NoUpper(text) ==> NoUpper(args[k].s))
  }

  lemma {:induction false} ListKeywordsCapture(keywords: seq<string>, text: string)
    requires MatchListKeywords(keywords, text).Some?
    ensures CapturedFrom(MatchListKeywords(keywords, text).value, text)
    decreases |keywords|
  {
    if MatchListAfter(keywords[0], text).None? {
      ListKeywordsCapture(keywords[1..], text);
    } else {
      ListAfterCapture(keywords[0], text);
    }
  }

  lemma ListAfterCapture(keyword: string, text: string)
    requires MatchListAfter(keyword, text).Some?
    ensures CapturedFrom(MatchListAfter(keyword, text).value, text)
  {
    var path := ListAfterPath(keyword, text);
    if NoUpper(text) {
      ListAfterPathLower(text, |keyword|);
    }
  }

  /** What the list pattern captures after its keyword. */
  lemma ListAfterPath(keyword: string, text: string) returns (path: string)
    requires MatchListAfter(keyword, text).Some?
    ensures |keyword| <= |text|
    ensures MatchListAfter(keyword, text).value == map["path" := Str(path)]
    ensures path == [] || (|TrimLeft(text[|keyword|..])| >= 2 && path == TrimLeft(TrimLeft(text[|keyword|..])[2..]))
  {
    var rest := text[|keyword|..];
    if rest == [] {
      path := [];
    } else {
      path := TrimLeft(TrimLeft(rest)[2..]);
    }
  }

  lemma ListAfterPathLower(text: string, n: int)
    requires 0 <= n <= |text| && NoUpper(text)
    ensures NoUpper(TrimLeft(text[n..]))
    ensures |TrimLeft(text[n..])| >= 2 ==> NoUpper(TrimLeft(TrimLeft(text[n..])[2..]))
  {
    var rest := text[n..];
    NoUpperSlice(text, n, |text|);
    NoUpperTrimLeft(rest);
    var a := TrimLeft(rest);
    if |a| >= 2 {
      NoUpperSlice(a, 2, |a|);
      NoUpperTrimLeft(a[2..]);
    }
  }

  lemma NoUpperTrimLeft(s: string)
    requires NoUpper(s)
    ensures NoUpper(TrimLeft(s))
  {
    NoUpperSlice(s, |s| - |TrimLeft(s)|, |s|);
  }

  lemma WriteCapture(text: string)
    requires MatchWrite(text).Some?
    ensures CapturedFrom(MatchWrite(text).value, text)
  {
    var name, content := WriteParts(text);
    if NoUpper(text) {
      WritePartsLower(text, IndexOf(text[11..], ':'));
    }
    PairCaptured(text, "filename", name, "content", content);
  }

  /** What the write pattern captures: the text up to the first colon, and what follows it without leading blanks. */
  lemma WriteParts(text: string) returns (name: string, content: string)
    requires MatchWrite(text).Some?
    ensures 11 <= |text| && IndexOf(text[11..], ':') < |text[11..]|
    ensures name == text[11..][..IndexOf(text[11..], ':')]
    ensures content == TrimLeft(text[11..][IndexOf(text[11..], ':') + 1..])
    ensures MatchWrite(text).value == map["filename" := Str(name), "content" := Str(content)]
  {
    var rest := text[11..];
    var i := IndexOf(rest, ':');
    name := rest[..i];
    content := TrimLeft(rest[i + 1..]);
  }

  lemma WritePartsLower(text: string, i: int)
    requires 11 <= |text| && 0 <= i < |text[11..]| && NoUpper(text)
    ensures NoUpper(text[11..][..i]) && NoUpper(TrimLeft(text[11..][i + 1..]))
  {
    var rest := text[11..];
    NoUpperSlice(text, 11, |text|);
    NoUpperSlice(rest, 0, i);
    NoUpperSlice(rest, i + 1, |rest|);
    NoUpperTrimLeft(rest[i + 1..]);
  }

  lemma PairCaptured(text: string, k1: string, v1: string, k2: string, v2: string)
    requires NoUpper(text) ==> NoUpper(v1) && NoUpper(v2)
    ensures CapturedFrom(map[k1 := Str(v1), k2 := Str(v2)], text)
  {
  }

  lemma OneNameCapture(prefix: string, key: string, text: string)
    requires MatchOneName(prefix, key, text).Some?
    ensures CapturedFrom(MatchOneName(prefix, key, text).value, text)
  {
    if NoUpper(text) { NoUpperSlice(text, |prefix|, |text|); }
  }

  lemma TwoNamesCapture(prefix: string, text: string)
    requires MatchTwoNames(prefix, text).Some?
    ensures CapturedFrom(MatchTwoNames(prefix, text).value, text)
  {
    if NoUpper(text) {
      var rest := text[|prefix|..];
      var i := IndexOf(rest, ' ');
      NoUpperSlice(text, |prefix|, |text|);
      NoUpperSlice(rest, 0, i);
      NoUpperSlice(rest, i, |rest|);
      NoUpperSlice(rest[i..], 4, |rest[i..]|);
    }
  }

  lemma MatchCaptures(p: Pattern, text: string)
    requires Match(p, text).Some?
    ensures CapturedFrom(Match(p, text).value, text)
  {
    match p
    case TimeQuery =>
    case WriteFile => WriteCapture(text);
    case ReadFile => OneNameCapture("read file ", "filename", text);
    case DeleteFile => OneNameCapture("delete file ", "filename", text);
    case CopyFile => TwoNamesCapture("copy file ", text);
    case MoveFile => TwoNamesCapture("move file ", text);
    case ListFiles => ListKeywordsCapture(ListKeywords, text);
    case OpenApp => if NoUpper(text) { NoUpperSlice(text, 5, |text|); }
  }

  /**
   * The rules match the lowercased utterance, so every captured file name,
   * content, path or application name comes out in lower case.
   */
  lemma CapturesAreLowercase(u: string)
    ensures forall k :: k in ParseWithRules(u).args ==>
      ParseWithRules(u).args[k].Str? && NoUpper(ParseWithRules(u).args[k].s)
  {
    var text := Normalize(u);
    var r := ParseWithRules(u);
    NormalizedHasNoUpper(u);
    if r.intent.Some? {
      var i :| FirstHit(RuleTable, text, i) && Reports(RuleTable, text, i, r);
      MatchCaptures(RuleTable[i].pattern, text);
    }
  }

  /** Splitting `name + sep + tail` at the first `c` gives back `name` when `name` has no `c`. */
  lemma IndexOfAfterName(name: string, sep: char, tail: string)
    requires IsName(name) && !IsNameChar(sep)
    ensures IndexOf(name + [sep] + tail, sep) == |name|
  {
    var s := name + [sep] + tail;
    var i := IndexOf(s, sep);
    assert s[|name|] == sep;
    assert i <= |name|;
  }

  lemma WriteMatches(name: string, gap: string, content: string)
    requires IsName(name) && AllSpace(gap)
    requires content != [] && !IsSpace(content[0]) && '\n' !in content
    ensures MatchWrite("write file " + name + ":" + gap + content) ==
      Some(map["filename" := Str(name), "content" := Str(content)])
  {
    var text := "write file " + name + ":" + gap + content;
    var rest := text[11..];
    assert rest == name + [':'] + (gap + content);
    IndexOfAfterName(name, ':', gap + content);
    assert rest[..|name|] == name;
    assert rest[|name| + 1..] == gap + content;
    TrimLeftSpaces(gap, content);
  }

  /**
   * `files.write` captures the name as `filename` and what follows the colon
   * and any blanks as `content`.
   */
  lemma WriteCaptures(text: string, name: string, gap: string, content: string)
    requires text == "write file " + name + ":" + gap + content
    requires IsName(name) && AllSpace(gap)
    requires content != [] && !IsSpace(content[0]) && '\n' !in content
    ensures FirstMatch(RuleTable, text) ==
      RuleOutcome(Some(IntentOf(WriteFile)), map["filename" := Str(name), "content" := Str(content)], ConfidenceOf(WriteFile))
  {
    WriteMatches(name, gap, content);
    Decides(text, WriteFile, map["filename" := Str(name), "content" := Str(content)]);
  }

  lemma OneNameMatches(prefix: string, key: string, name: string)
    requires IsName(name)
    ensures MatchOneName(prefix, key, prefix + name) == Some(map[key := Str(name)])
  {
    assert (prefix + name)[|prefix|..] == name;
  }

  /** `files.read` captures the file name. */
  lemma ReadCaptures(text: string, name: string)
    requires text == "read file " + name && IsName(name)
    ensures FirstMatch(RuleTable, text) ==
      RuleOutcome(Some(IntentOf(ReadFile)), map["filename" := Str(name)], ConfidenceOf(ReadFile))
  {
    OneNameMatches("read file ", "filename", name);
    Decides(text, ReadFile, map["filename" := Str(name)]);
  }

  /** `files.delete` captures the file name. */
  lemma DeleteCaptures(text: string, name: string)
    requires text == "delete file " + name && IsName(name)
    ensures FirstMatch(RuleTable, text) ==
      RuleOutcome(Some(IntentOf(DeleteFile)), map["filename" := Str(name)], ConfidenceOf(DeleteFile))
  {
    OneNameMatches("delete file ", "filename", name);
    Decides(text, DeleteFile, map["filename" := Str(name)]);
  }

  lemma TwoNamesMatch(prefix: string, source: string, dest: string)
    requires IsName(source) && IsName(dest)
    ensures MatchTwoNames(prefix, prefix + source + " to " + dest) ==
      Some(map["source" := Str(source), "dest" := Str(dest)])
  {
    var text := prefix + source + " to " + dest;
    var rest := text[|prefix|..];
    assert rest == source + [' '] + ("to " + dest);
    IndexOfAfterName(source, ' ', "to " + dest);
    assert rest[..|source|] == source;
    assert rest[|source|..] == " to " + dest;
    assert (" to " + dest)[4..] == dest;
  }

  /** `files.copy` captures `source` and `dest`. */
  lemma CopyCaptures(text: string, source: string, dest: string)
    requires text == "copy file " + source + " to " + dest && IsName(source) && IsName(dest)
    ensures FirstMatch(RuleTable, text) ==
      RuleOutcome(Some(IntentOf(CopyFile)), map["source" := Str(source), "dest" := Str(dest)], ConfidenceOf(CopyFile))
  {
    TwoNamesMatch("copy file ", source, dest);
    Decides(text, CopyFile, map["source" := Str(source), "dest" := Str(dest)]);
  }

  /** `files.move` captures `source` and `dest`. */
  lemma MoveCaptures(text: string, source: string, dest: string)
    requires text == "move file " + source + " to " + dest && IsName(source) && IsName(dest)
    ensures FirstMatch(RuleTable, text) ==
      RuleOutcome(Some(IntentOf(MoveFile)), map["source" := Str(source), "dest" := Str(dest)], ConfidenceOf(MoveFile))
  {
    TwoNamesMatch("move file ", source, dest);
    Decides(text, MoveFile, map["source" := Str(source), "dest" := Str(dest)]);
  }

  /** The keyword alternatives, when every one that matches gives the same arguments. */
  lemma {:induction false} KeywordsMatch(keywords: seq<string>, text: string, args: Args)
    requires exists i :: 0 <= i < |keywords| && MatchListAfter(keywords[i], text) == Some(args)
    requires forall i :: 0 <= i < |keywords| ==>
      MatchListAfter(keywords[i], text) == None || MatchListAfter(keywords[i], text) == Some(args)
    ensures MatchListKeywords(keywords, text) == Some(args)
    decreases |keywords|
  {
    if MatchListAfter(keywords[0], text).None? {
      var i :| 0 <= i < |keywords| && MatchListAfter(keywords[i], text) == Some(args);
      assert keywords[1..][i - 1] == keywords[i];
      forall j | 0 <= j < |keywords[1..]|
        ensures MatchListAfter(keywords[1..][j], text) == None || MatchListAfter(keywords[1..][j], text) == Some(args)
      {
        assert keywords[1..][j] == keywords[j + 1];
      }
      KeywordsMatch(keywords[1..], text, args);
    }
  }

  /** A text starts with at most one of the list keywords. */
  lemma KeywordPrefixes(text: string, k: string, kw: string)
    requires k in ListKeywords && kw in ListKeywords && k != kw
    requires StartsWith(text, k)
    ensures !StartsWith(text, kw)
  {
    assert k == "list files" || k == "ls" || k == "dir" || k == "show files";
    assert kw == "list files" || kw == "ls" || kw == "dir" || kw == "show files";
    StartsWithLead(text, k);
    if StartsWith(text, kw) {
      StartsWithLead(text, kw);
    }
  }

  lemma ListAfterOnly(text: string, keyword: string, args: Args)
    requires keyword in ListKeywords && MatchListAfter(keyword, text) == Some(args)
    ensures MatchListKeywords(ListKeywords, text) == Some(args)
  {
    var i :| 0 <= i < |ListKeywords| && ListKeywords[i] == keyword;
    forall j | 0 <= j < |ListKeywords|
      ensures MatchListAfter(ListKeywords[j], text) == None || MatchListAfter(ListKeywords[j], text) == Some(args)
    {
      if ListKeywords[j] != keyword {
        KeywordPrefixes(text, keyword, ListKeywords[j]);
      }
    }
    KeywordsMatch(ListKeywords, text, args);
  }

  lemma ListFilesMatch(text: string, keywords: seq<string>)
    requires keywords == ListKeywords
    ensures Match(ListFiles, text) == MatchListKeywords(keywords, text)
  {
  }

  /** `files.list` without an `in` clause lists with the empty path. */
  lemma ListWithoutPath(text: string)
    requires text in ListKeywords
    ensures FirstMatch(RuleTable, text) ==
      RuleOutcome(Some(IntentOf(ListFiles)), map["path" := Str("")], ConfidenceOf(ListFiles))
  {
    assert text[|text|..] == [];
    ListAfterOnly(text, text, map["path" := Str("")]);
    ListFilesMatch(text, ListKeywords);
    Decides(text, ListFiles, map["path" := Str("")]);
  }

  lemma TrimOneSpace(x: string)
    requires x != [] && !IsSpace(x[0])
    ensures TrimLeft(" " + x) == x
  {
    assert (" " + x)[1..] == x;
  }

  lemma ListAfterIn(keyword: string, path: string)
    requires IsPathText(path)
    ensures MatchListAfter(keyword, keyword + " in " + path) == Some(map["path" := Str(path)])
  {
    var text := keyword + " in " + path;
    assert IsPathChar(path[0]);
    InClause(path);
    assert text[|keyword|..] == " in " + path;
  }

  /** The clause ` in <path>` of the list rule. */
  lemma InClause(path: string)
    requires path != [] && !IsSpace(path[0])
    ensures TrimLeft(" in " + path) == "in " + path
    ensures ("in " + path)[2..] == " " + path && TrimLeft(" " + path) == path
  {
    InClauseShape(path);
    TrimOneSpace("in " + path);
    TrimOneSpace(path);
  }

  lemma InClauseShape(path: string)
    ensures " in " + path == " " + ("in " + path)
    ensures ("in " + path)[2..] == " " + path
    ensures ("in " + path)[0] == 'i'
  {
  }

  /** `files.list ... in <path>` captures the path. */
  lemma ListInPath(text: string, keyword: string, path: string)
    requires keyword in ListKeywords && IsPathText(path)
    requires text == keyword + " in " + path
    ensures FirstMatch(RuleTable, text) ==
      RuleOutcome(Some(IntentOf(ListFiles)), map["path" := Str(path)], ConfidenceOf(ListFiles))
  {
    ListAfterIn(keyword, path);
    ListAfterOnly(text, keyword, map["path" := Str(path)]);
    ListFilesMatch(text, ListKeywords);
    Decides(text, ListFiles, map["path" := Str(path)]);
  }

  /** `apps.open` captures the application name. */
  lemma OpenCaptures(text: string, app: string)
    requires app in AppNames && text == "open " + app
    ensures FirstMatch(RuleTable, text) ==
      RuleOutcome(Some(IntentOf(OpenApp)), map["app" := Str(app)], ConfidenceOf(OpenApp))
  {
    assert text[5..] == app;
    Decides(text, OpenApp, map["app" := Str(app)]);
  }

  /** `system.time` takes no arguments. */
  lemma TimeCaptures(text: string)
    requires MatchTime(text).Some?
    ensures FirstMatch(RuleTable, text) == RuleOutcome(Some(IntentOf(TimeQuery)), map[], ConfidenceOf(TimeQuery))
  {
    Decides(text, TimeQuery, map[]);
  }

  // ---------------------------------------------------------------------------
  // The decision tree of `parse`

  /** A rule hit at or above the high threshold is returned as is, in every mode. */
  lemma HighConfidenceBypass(cfg: Config, u: string)
    requires ParseWithRules(u).intent.Some? && ParseWithRules(u).confidence >= cfg.confidenceHigh
    ensures Parse(cfg, u) == FromRules(ParseWithRules(u))
  {
  }

  /**
   * Without a usable fallback (rules mode, or no API key) a hit is returned
   * unchanged and a miss becomes the `"unknown"` sentinel with confidence 0.
   */
  lemma NoFallbackParse(cfg: Config, u: string)
    requires cfg.parserMode == RulesMode || !HasLlmKey(cfg)
    ensures ParseWithRules(u).intent.Some? ==> Parse(cfg, u) == FromRules(ParseWithRules(u))
    ensures ParseWithRules(u).intent.None? ==>
      Parse(cfg, u) == ParseResult("unknown", map["utterance" := Str(u)], 0.0, Rules)
  {
  }

  /**
   * In hybrid mode a hit at or above the low threshold comes from the rules;
   * below it, or on a miss, the fallback answers when an API key is set.
   */
  lemma HybridParse(cfg: Config, u: string)
    requires cfg.parserMode == HybridMode
    ensures ParseWithRules(u).intent.Some? && ParseWithRules(u).confidence >= cfg.confidenceLow ==>
      Parse(cfg, u) == FromRules(ParseWithRules(u))
    ensures (HasLlmKey(cfg)
              && !(ParseWithRules(u).intent.Some? && ParseWithRules(u).confidence >= cfg.confidenceLow)
              && !(ParseWithRules(u).intent.Some? && ParseWithRules(u).confidence >= cfg.confidenceHigh)) ==>
      Parse(cfg, u) == ParseWithLlm(u)
  {
  }

  /** In llm mode with a key the fallback answers unless the rules are highly confident. */
  lemma LlmModeParse(cfg: Config, u: string)
    requires cfg.parserMode == LlmMode && HasLlmKey(cfg)
    ensures !(ParseWithRules(u).intent.Some? && ParseWithRules(u).confidence >= cfg.confidenceHigh) ==>
      Parse(cfg, u) == ParseWithLlm(u)
  {
  }

  /**
   * Every rule confidence is at least 0.90, so with a high threshold of at most
   * 0.90 (the default is 0.80) every hit is returned from the rules in every mode.
   */
  lemma HitsBypassUnderDefaults(cfg: Config, u: string)
    requires cfg.confidenceHigh <= 0.90
    requires ParseWithRules(u).intent.Some?
    ensures Parse(cfg, u) == FromRules(ParseWithRules(u))
    ensures Parse(cfg, u).source == Rules
  {
  }

  // ---------------------------------------------------------------------------
  // Scenarios of the backend tests

  /** Text already in normal form: no capitals and no surrounding whitespace. */
  lemma NormalizeFixed(s: string)
    requires NoUpper(s) && s != [] && !IsSpace(s[0]) && !IsSpace(s[|s| - 1])
    ensures Normalize(s) == s
  {
    assert Lower(s) == s;
  }

  lemma TimeUtteranceNormal(u: string)
    requires u == "what time is it?"
    ensures Normalize(u) == u
  {
    NormalizeFixed(u);
  }

  lemma TimeUtteranceMatches(u: string)
    requires u == "what time is it?"
    ensures MatchTime(u).Some?
  {
    assert u[..|u| - 1] == "what time is it";
  }

  /** "what time is it?" is the time query, answered from the rules with confidence 1. */
  lemma TimeScenario(cfg: Config, u: string)
    requires cfg == Defaults(cfg.sandboxPath)
    requires u == "what time is it?"
    ensures Parse(cfg, u) == ParseResult(IntentOf(TimeQuery), map[], ConfidenceOf(TimeQuery), Rules)
  {
    TimeUtteranceNormal(u);
    TimeUtteranceMatches(u);
    TimeCaptures(u);
  }

  lemma WriteUtteranceNormal(u: string)
    requires u == "write file notes.txt: hello"
    ensures Normalize(u) == u
  {
    NormalizeFixed(u);
  }

  lemma WriteUtteranceRule(u: string)
    requires u == "write file notes.txt: hello"
    ensures FirstMatch(RuleTable, u) ==
      RuleOutcome(Some(IntentOf(WriteFile)), map["filename" := Str("notes.txt"), "content" := Str("hello")], ConfidenceOf(WriteFile))
  {
    assert u == "write file " + "notes.txt" + ":" + " " + "hello";
    WriteCaptures(u, "notes.txt", " ", "hello");
  }

  /** "write file notes.txt: hello" writes "hello" to "notes.txt". */
  lemma WriteScenario(u: string)
    requires u == "write file notes.txt: hello"
    ensures ParseWithRules(u) ==
      RuleOutcome(Some(IntentOf(WriteFile)), map["filename" := Str("notes.txt"), "content" := Str("hello")], ConfidenceOf(WriteFile))
  {
    WriteUtteranceNormal(u);
    WriteUtteranceRule(u);
  }

  /** Capitals in the utterance reach the file name and the content lowercased. */
  lemma MixedCaseScenario(u: string)
    requires u == "Write File Notes.TXT: Hello"
    ensures ParseWithRules(u) ==
      RuleOutcome(Some(IntentOf(WriteFile)), map["filename" := Str("notes.txt"), "content" := Str("hello")], ConfidenceOf(WriteFile))
  {
    var v := "write file notes.txt: hello";
    assert Lower(u) == v;
    LowerIdempotent(u);
    WriteScenario(v);
  }
}
