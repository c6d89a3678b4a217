/**
 * The command interpreter of backend/app/parser.py: an ordered table of
 * rules, tried first to last against the lowercased and stripped utterance,
 * and the decision tree that picks between the rule result, the language-model
 * fallback and the `"unknown"` sentinel.
 *
 * Each regular expression of the table is written out as a matcher over the
 * normalised text. Such text never starts or ends with whitespace, and on it
 * each matcher accepts exactly what its pattern accepts and captures the same
 * groups.
 */
module Parser {
  import opened Wrappers
  import opened Models
  import opened Settings
  import opened Text

  /** `[\w\.\-]`: word characters, dot and hyphen. */
  predicate IsNameChar(c: char) {
    'a' <= c <= 'z' || 'A' <= c <= 'Z' || '0' <= c <= '9' || c == '_' || c == '.' || c == '-'
  }

  /** `[\w\.\-/]`: a name character or a slash. */
  predicate IsPathChar(c: char) {
    IsNameChar(c) || c == '/'
  }

  /** `[\w\.\-]+` */
  predicate IsName(s: string) {
    |s| > 0 && forall i :: 0 <= i < |s| ==> IsNameChar(s[i])
  }

  /** `[\w\.\-/]+` */
  predicate IsPathText(s: string) {
    |s| > 0 && forall i :: 0 <= i < |s| ==> IsPathChar(s[i])
  }

  /** One regular expression of the table, by what it recognises. */
  datatype Pattern = TimeQuery | WriteFile | ReadFile | DeleteFile | CopyFile | MoveFile | ListFiles | OpenApp

  datatype Rule = Rule(pattern: Pattern, intent: string, confidence: real)

  /** `RULES`, in its order. */
  const RuleTable: seq<Rule> := [
    Rule(TimeQuery, "system.time", 1.0),
    Rule(WriteFile, "files.write", 0.95),
    Rule(ReadFile, "files.read", 0.95),
    Rule(DeleteFile, "files.delete", 0.95),
    Rule(CopyFile, "files.copy", 0.95),
    Rule(MoveFile, "files.move", 0.95),
    Rule(ListFiles, "files.list", 0.90),
    Rule(OpenApp, "apps.open", 0.90)
  ]

  const TimePhrases: seq<string> := ["what time is it", "current time", "time", "what's the time"]

  const ListKeywords: seq<string> := ["list files", "ls", "dir", "show files"]

  const AppNames: seq<string> := ["chrome", "firefox", "safari", "edge", "browser", "notepad", "calculator", "terminal"]

  /** `^(what time is it|current time|time|what\'s the time)\??$` */
  function MatchTime(text: string): (r: Option<Args>)
    ensures r.Some? ==> r.value == map[]
    ensures r.Some? <==> exists k :: 0 <= k < |TimePhrases| && (text == TimePhrases[k] || text == TimePhrases[k] + "?")
  {
    TimeTextIsPhrase(text);
    if text in TimePhrases || (|text| > 0 && text[|text| - 1] == '?' && text[..|text| - 1] in TimePhrases)
    then Some(map[])
    else None
  }

  /** The text is one of the phrases, with or without a question mark after it. */
  lemma TimeTextIsPhrase(text: string)
    ensures (text in TimePhrases || (|text| > 0 && text[|text| - 1] == '?' && text[..|text| - 1] in TimePhrases))
        <==> exists k :: 0 <= k < |TimePhrases| && (text == TimePhrases[k] || text == TimePhrases[k] + "?")
  {
    if |text| > 0 && text[|text| - 1] == '?' && text[..|text| - 1] in TimePhrases {
      assert text == text[..|text| - 1] + "?";
    }
    if exists k :: 0 <= k < |TimePhrases| && text == TimePhrases[k] + "?" {
      var k :| 0 <= k < |TimePhrases| && text == TimePhrases[k] + "?";
      assert text[..|text| - 1] == TimePhrases[k];
    }
  }

  /** `^write file ([\w\.\-]+):\s*(.+)$`, capturing the name and the content. */
  function MatchWrite(text: string): (r: Option<Args>)
    ensures r.Some? ==> StartsWith(text, "write file ")
    ensures r.Some? ==> r.value.Keys == {"filename", "content"} && r.value["filename"].Str? && r.value["content"].Str?
  {
    if !StartsWith(text, "write file ") then None
    else
      var rest := text[11..];
      var i := IndexOf(rest, ':');
      if i == |rest| then None
      else
        var name := rest[..i];
        var content := TrimLeft(rest[i + 1..]);
        if IsName(name) && content != [] && '\n' !in content
        then Some(map["filename" := Str(name), "content" := Str(content)])
        else None
  }

  /** `^<prefix>([\w\.\-]+)$`, capturing the name under `key`. */
  function MatchOneName(prefix: string, key: string, text: string): (r: Option<Args>)
    ensures r.Some? ==> StartsWith(text, prefix)
    ensures r.Some? ==> r.value.Keys == {key} && r.value[key].Str?
  {
    if StartsWith(text, prefix) && IsName(text[|prefix|..])
    then Some(map[key := Str(text[|prefix|..])])
    else None
  }

  /** `^<prefix>([\w\.\-]+) to ([\w\.\-]+)$`, capturing source and destination. */
  function MatchTwoNames(prefix: string, text: string): (r: Option<Args>)
    ensures r.Some? ==> StartsWith(text, prefix)
    ensures r.Some? ==> r.value.Keys == {"source", "dest"} && r.value["source"].Str? && r.value["dest"].Str?
  {
    if !StartsWith(text, prefix) then None
    else
      var rest := text[|prefix|..];
      var i := IndexOf(rest, ' ');
      var source := rest[..i];
      var tail := rest[i..];
      if IsName(source) && StartsWith(tail, " to ") && IsName(tail[4..])
      then Some(map["source" := Str(source), "dest" := Str(tail[4..])])
      else None
  }

  /** `^<keyword>(\s+in\s+([\w\.\-/]+))?$`; the path is `""` without the clause. */
  function MatchListAfter(keyword: string, text: string): (r: Option<Args>)
    ensures r.Some? ==> StartsWith(text, keyword) && r.value.Keys == {"path"} && r.value["path"].Str?
    ensures text == keyword ==> r == Some(PathArg(""))
    ensures r.Some? && text != keyword ==>
      IsPathText(r.value["path"].s) && |r.value["path"].s| < |text| - |keyword| && EndsWith(text, r.value["path"].s)
  {
    if !StartsWith(text, keyword) then None
    else
      var rest := text[|keyword|..];
      if rest == [] then
        assert text == keyword by { assert text == text[..|keyword|] + rest; }
        Some(PathArg(""))
      else
        match PathClause(rest)
        case Some(path) =>
          EndsWithTransitive(text, rest, path);
          Some(PathArg(path))
        case None => None
  }

  /** The arguments of the list rule. */
  function PathArg(path: string): (args: Args)
    ensures args.Keys == {"path"} && args["path"] == Str(path)
  {
    map["path" := Str(path)]
  }

  /** `\s+in\s+([\w\.\-/]+)` after the keyword: the captured path, a tail of the text. */
  function PathClause(rest: string): (r: Option<string>)
    ensures r.Some? ==> IsPathText(r.value) && |r.value| < |rest| && EndsWith(rest, r.value)
  {
    var a := TrimLeft(rest);
    if |a| < |rest| && StartsWith(a, "in") then
      var b := a[2..];
      var path := TrimLeft(b);
      if |path| < |b| && IsPathText(path) then
        assert EndsWith(a, b);
        EndsWithTransitive(rest, a, b);
        EndsWithTransitive(rest, b, path);
        Some(path)
      else None
    else None
  }

  /** The alternatives of the keyword group, tried in order. */
  function MatchListKeywords(keywords: seq<string>, text: string): (r: Option<Args>)
    ensures r.Some? ==> exists k :: 0 <= k < |keywords| && MatchListAfter(keywords[k], text) == r
    ensures r.Some? ==> r.value.Keys == {"path"} && r.value["path"].Str?
    decreases |keywords|
  {
    if keywords == [] then None
    else match MatchListAfter(keywords[0], text)
      case Some(args) => Some(args)
      case None => MatchListKeywords(keywords[1..], text)
  }

  /** The group fails exactly when every alternative fails. */
  lemma {:induction false} KeywordsFail(keywords: seq<string>, text: string)
    ensures MatchListKeywords(keywords, text).None? <==>
      forall k :: 0 <= k < |keywords| ==> MatchListAfter(keywords[k], text).None?
    decreases |keywords|
  {
    if keywords != [] {
      KeywordsFail(keywords[1..], text);
      forall k | 0 < k < |keywords| ensures keywords[k] == keywords[1..][k - 1] { }
    }
  }

  /** `^open (chrome|firefox|safari|edge|browser|notepad|calculator|terminal)$` */
  function MatchOpen(text: string): (r: Option<Args>)
    ensures r.Some? ==> StartsWith(text, "open ")
    ensures r.Some? ==> r.value.Keys == {"app"} && r.value["app"].Str?
  {
    if StartsWith(text, "open ") && text[5..] in AppNames
    then Some(map["app" := Str(text[5..])])
    else None
  }

  /** The argument names each rule's extraction produces. */
  function ArgNames(p: Pattern): set<string> {
    match p
    case TimeQuery => {}
    case WriteFile => {"filename", "content"}
    case ReadFile => {"filename"}
    case DeleteFile => {"filename"}
    case CopyFile => {"source", "dest"}
    case MoveFile => {"source", "dest"}
    case ListFiles => {"path"}
    case OpenApp => {"app"}
  }

  /** `re.match(pattern, text)` followed by the rule's argument extraction. */
  function Match(p: Pattern, text: string): Option<Args> {
    match p
    case TimeQuery => MatchTime(text)
    case WriteFile => MatchWrite(text)
    case ReadFile => MatchOneName("read file ", "filename", text)
    case DeleteFile => MatchOneName("delete file ", "filename", text)
    case CopyFile => MatchTwoNames("copy file ", text)
    case MoveFile => MatchTwoNames("move file ", text)
    case ListFiles => MatchListKeywords(ListKeywords, text)
    case OpenApp => MatchOpen(text)
  }

  /** A rule that matches yields exactly its own argument names, each bound to text. */
  lemma MatchArgNames(p: Pattern, text: string)
    ensures Match(p, text).Some? ==> Match(p, text).value.Keys == ArgNames(p)
    ensures Match(p, text).Some? ==> forall k :: k in Match(p, text).value ==> Match(p, text).value[k].Str?
  {
    match p
    case TimeQuery =>
    case WriteFile =>
    case ReadFile =>
    case DeleteFile =>
    case CopyFile =>
    case MoveFile =>
    case ListFiles =>
    case OpenApp =>
  }

  /** The `(intent, args, confidence)` triple of `parse_with_rules`. */
  datatype RuleOutcome = RuleOutcome(intent: Option<string>, args: Args, confidence: real)

  const NoMatch: RuleOutcome := RuleOutcome(None, map[], 0.0)

  /** Rule `i` matches `text` and no rule before it does. */
  predicate FirstHit(rules: seq<Rule>, text: string, i: int) {
    && 0 <= i < |rules|
    && Match(rules[i].pattern, text).Some?
    && forall j :: 0 <= j < i ==> Match(rules[j].pattern, text).None?
  }

  /** `r` is what rule `i` produces on `text`. */
  predicate Reports(rules: seq<Rule>, text: string, i: int, r: RuleOutcome)
    requires 0 <= i < |rules| && Match(rules[i].pattern, text).Some?
  {
    r == RuleOutcome(Some(rules[i].intent), Match(rules[i].pattern, text).value, rules[i].confidence)
  }

  /** The loop of `parse_with_rules`: the first matching rule decides. */
  function FirstMatch(rules: seq<Rule>, text: string): (r: RuleOutcome)
    ensures r.intent.None? <==> forall i :: 0 <= i < |rules| ==> Match(rules[i].pattern, text).None?
    ensures r.intent.None? ==> r == NoMatch
    ensures r.intent.Some? ==> exists i :: FirstHit(rules, text, i) && Reports(rules, text, i, r)
    decreases |rules|
  {
    if rules == [] then NoMatch
    else match Match(rules[0].pattern, text)
      case Some(args) =>
        assert FirstHit(rules, text, 0);
        RuleOutcome(Some(rules[0].intent), args, rules[0].confidence)
      case None =>
        var r := FirstMatch(rules[1..], text);
        assert r.intent.Some? ==> exists i :: FirstHit(rules, text, i) && Reports(rules, text, i, r) by {
          if r.intent.Some? {
            var k :| FirstHit(rules[1..], text, k) && Reports(rules[1..], text, k, r);
            assert rules[1..][k] == rules[k + 1];
            assert FirstHit(rules, text, k + 1) by {
              forall j | 0 <= j < k + 1 ensures Match(rules[j].pattern, text).None? {
                if j > 0 { assert rules[j] == rules[1..][j - 1]; }
              }
            }
          }
        }
        assert r.intent.None? ==> forall i :: 0 <= i < |rules| ==> Match(rules[i].pattern, text).None? by {
          if r.intent.None? {
            forall i | 0 <= i < |rules| ensures Match(rules[i].pattern, text).None? {
              if i > 0 { assert rules[i] == rules[1..][i - 1]; }
            }
          }
        }
        r
  }

  /** Every rule of the table has a confidence in [0.90, 1.0] and a real intent. */
  lemma RuleTableBounds()
    ensures forall i :: 0 <= i < |RuleTable| ==>
      0.90 <= RuleTable[i].confidence <= 1.0 && RuleTable[i].intent != "unknown"
  {
  }

  /** What the rules see: the utterance lowercased, then stripped. */
  function Normalize(utterance: string): (t: string)
    ensures NoUpper(t)
    ensures t == [] || (!IsSpace(t[0]) && !IsSpace(t[|t| - 1]))
    ensures |t| <= |utterance|
  {
    LowerHasNoUpper(utterance);
    Strip(Lower(utterance))
  }

  /** `parse_with_rules`: a matched rule gives a confidence from the table, in [0.90, 1.0]. */
  function ParseWithRules(utterance: string): (r: RuleOutcome)
    ensures r.intent.Some? ==> 0.90 <= r.confidence <= 1.0
    ensures r.intent.Some? ==> r.intent.value != "unknown"
  {
    var r := FirstMatch(RuleTable, Normalize(utterance));
    RuleTableBounds();
    r
  }

  /** `parse_with_llm` as it stands: a fixed low-confidence `"unknown"`. */
  function ParseWithLlm(utterance: string): (r: ParseResult)
    ensures r.source == Llm && r.intent == "unknown" && r.confidence == 0.3
    ensures r.args == map["utterance" := Str(utterance)]
  {
    ParseResult("unknown", map["utterance" := Str(utterance)], 0.3, Llm)
  }

  /** A rule hit reported as the parse result. */
  function FromRules(m: RuleOutcome): ParseResult
    requires m.intent.Some?
  {
    ParseResult(m.intent.value, m.args, m.confidence, Rules)
  }

  /** The `"unknown"` sentinel the rules path returns when nothing matched. */
  function Unknown(utterance: string): ParseResult {
    ParseResult("unknown", map["utterance" := Str(utterance)], 0.0, Rules)
  }

  /** `parse`: rules first, then the mode and threshold decision tree. */
  function Parse(cfg: Config, utterance: string): (r: ParseResult)
    ensures 0.0 <= r.confidence <= 1.0
    ensures r.source == Llm ==> cfg.parserMode != RulesMode && HasLlmKey(cfg)
    ensures r.intent == "unknown" <==> ParseWithRules(utterance).intent.None? || r.source == Llm
  {
    var m := ParseWithRules(utterance);
    if m.intent.Some? && m.confidence >= cfg.confidenceHigh then FromRules(m)
    else match cfg.parserMode
      case RulesMode =>
        if m.intent.Some? then FromRules(m) else Unknown(utterance)
      case HybridMode =>
        if m.intent.Some? && m.confidence >= cfg.confidenceLow then FromRules(m)
        else if HasLlmKey(cfg) then ParseWithLlm(utterance)
        else if m.intent.Some? then FromRules(m)
        else Unknown(utterance)
      case LlmMode =>
        if HasLlmKey(cfg) then ParseWithLlm(utterance)
        else if m.intent.Some? then FromRules(m)
        else Unknown(utterance)
  }
}
