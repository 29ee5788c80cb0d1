/**
 * The signature scanner (src/utils/scanner.ts): one file's text becomes the list
 * of rule matches, line by line, under a file-size ceiling, a line-length ceiling
 * and a per-file match cap consulted before each line.
 *
 * Testing a rule's regular expression against a line is not modelled: the
 * caller supplies `test`, whose result for a rule and a line says whether the
 * case-insensitive pattern matched, did not match, or threw.
 */
module Scanner {
  import opened ScanTypes
  import opened Strings
  import opened RuleCatalog

  /** Content longer than this many UTF-16 units is skipped (2 MiB). */
  const MaxContentLength: nat := 2 * 1024 * 1024
  /** Lines longer than this many UTF-16 units are skipped. */
  const MaxLineLength: nat := 2000
  /** No further line is scanned once this many matches were emitted. */
  const MaxMatchesPerFile: nat := 50
  /** Snippets keep at most this many UTF-16 units of the trimmed line. */
  const SnippetLength: nat := 200

  const ExtensionMap: map<string, Language> := map[
    "js" := JavaScript, "tjs" := JavaScript, "jsx" := JavaScript, "ts" := JavaScript,
    "tsx" := JavaScript,
    "py" := Python,
    "ps1" := PowerShell,
    "sh" := Bash, "bash" := Bash,
    "c" := C, "cpp" := C, "h" := C,
    "go" := Go,
    "php" := Php,
    "bat" := Batch, "cmd" := Batch
  ]

  /** The outcome of running one rule's compiled pattern on one line. */
  datatype TestOutcome = Matched | NoMatch | Threw

  type RegexTest = (RuleId, string) -> TestOutcome

  /**
   * `fileName.split('.').pop().toLowerCase()`: the lowercased text after the last
   * dot, or the whole lowercased name when it has no dot.
   */
  function Extension(fileName: string): (ext: string)
    ensures '.' !in ext
    ensures |ext| <= |fileName| && ext == ToLower(fileName[|fileName| - |ext|..])
    ensures |ext| < |fileName| ==> fileName[|fileName| - |ext| - 1] == '.'
  {
    var piece := LastPiece(fileName, '.');
    assert forall i :: 0 <= i < |piece| ==> LowerChar(piece[i]) != '.';
    ToLower(piece)
  }

  /** `EXTENSION_MAP[extension] || 'unknown'` */
  function LanguageOf(fileName: string): (language: Language)
    ensures Extension(fileName) !in ExtensionMap ==> language == UnknownLanguage
    ensures Extension(fileName) in ExtensionMap ==> language == ExtensionMap[Extension(fileName)]
  {
    var ext := Extension(fileName);
    if ext in ExtensionMap then ExtensionMap[ext] else UnknownLanguage
  }

  /** The pre-filter: rules of the generic tier or of `language`, in the given order. */
  function ApplicableRules(rules: seq<Rule>, language: Language): (r: seq<Rule>)
    ensures |r| <= |rules|
    ensures forall x :: x in r <==> x in rules && (x.language == All || x.language == language)
    decreases |rules|
  {
    if |rules| == 0 then []
    else if rules[0].language == All || rules[0].language == language then
      [rules[0]] + ApplicableRules(rules[1..], language)
    else ApplicableRules(rules[1..], language)
  }

  /** `line.trim().substring(0, 200)` */
  function Snippet(line: string): (r: string)
    ensures |r| <= |Trim(line)| && r == Trim(line)[..|r|]
    ensures Utf16Length(r) <= SnippetLength
  {
    Utf16Prefix(Trim(line), SnippetLength)
  }

  /** The match pushed when `rule` fires on line number `lineNo`. */
  function MatchOf(rule: Rule, lineNo: int, line: string, fileName: string): ThreatMatch
  {
    ThreatMatch(rule.id, rule.severity, lineNo, Snippet(line), fileName, rule.capability, Description(rule.id))
  }

  /** The matches one line yields: one per rule whose test matched, in rule order. */
  function LineMatches(rules: seq<Rule>, line: string, lineNo: int, fileName: string, test: RegexTest)
    : (r: seq<ThreatMatch>)
    ensures |r| <= |rules|
    decreases |rules|
  {
    if |rules| == 0 then []
    else
      var earlier := LineMatches(rules[..|rules| - 1], line, lineNo, fileName, test);
      var rule := rules[|rules| - 1];
      if test(rule.id, line) == Matched then earlier + [MatchOf(rule, lineNo, line, fileName)]
      else earlier
  }

  /**
   * The line loop from line index `i` on, with `acc` the matches emitted so far:
   * stop at the end or once the cap is reached, skip over-long lines.
   */
  function ScanLines(lines: seq<string>, i: nat, rules: seq<Rule>, fileName: string, test: RegexTest,
                     acc: seq<ThreatMatch>): seq<ThreatMatch>
    requires i <= |lines|
    decreases |lines| - i
  {
    if i == |lines| || |acc| >= MaxMatchesPerFile then acc
    else if Utf16Length(lines[i]) > MaxLineLength then ScanLines(lines, i + 1, rules, fileName, test, acc)
    else ScanLines(lines, i + 1, rules, fileName, test, acc + LineMatches(rules, lines[i], i + 1, fileName, test))
  }

  /** The lines of a file: `content.split('\n')`. */
  function Lines(content: string): seq<string>
  {
    Split(content, '\n')
  }

  /** The rules of `catalog` that scanFile applies to a file. */
  function RulesFor(catalog: seq<Rule>, fileName: string): seq<Rule>
  {
    ApplicableRules(catalog, LanguageOf(fileName))
  }

  /** What `scanFile(fileName, content)` returns when its rule table is `catalog`. */
  function Scan(catalog: seq<Rule>, fileName: string, content: string, test: RegexTest): seq<ThreatMatch>
  {
    if Utf16Length(content) > MaxContentLength then []
    else ScanLines(Lines(content), 0, RulesFor(catalog, fileName), fileName, test, [])
  }

  /**
   * `scanFile`: the size check, the extension lookup and rule pre-filter, the
   * split into lines, then the line loop.
   */
  method ScanFile(fileName: string, content: string, test: RegexTest) returns (matches: seq<ThreatMatch>)
    ensures matches == Scan(Rules, fileName, content, test)
    ensures Utf16Length(content) > MaxContentLength ==> matches == []
  {
    if Utf16Length(content) > MaxContentLength {
      return [];
    }
    var language := LanguageOf(fileName);
    var rulesToApply := ApplicableRules(Rules, language);
    var lines := Split(content, '\n');
    matches := ScanLineLoop(fileName, lines, rulesToApply, test);
  }

  /**
   * The nested loop of `scanFile`: lines in order, the cap consulted before each
   * line, over-long lines skipped, every rule tried on every other line.
   */
  method ScanLineLoop(fileName: string, lines: seq<string>, rulesToApply: seq<Rule>, test: RegexTest)
    returns (matches: seq<ThreatMatch>)
    ensures matches == ScanLines(lines, 0, rulesToApply, fileName, test, [])
  {
    matches := [];
    var i := 0;
    while i < |lines|
      invariant 0 <= i <= |lines|
      invariant ScanLines(lines, 0, rulesToApply, fileName, test, []) == ScanLines(lines, i, rulesToApply, fileName, test, matches)
    {
      if |matches| >= MaxMatchesPerFile {
        break;
      }
      var line := lines[i];
      if Utf16Length(line) > MaxLineLength {
        i := i + 1;
        continue;
      }
      var found := MatchLine(rulesToApply, line, i + 1, fileName, test);
      matches := matches + found;
      i := i + 1;
    }
  }

  /** The rule loop of `scanFile` on one line: every rule tried in order, a throw skipping the rule. */
  method MatchLine(rules: seq<Rule>, line: string, lineNo: int, fileName: string, test: RegexTest)
    returns (found: seq<ThreatMatch>)
    ensures found == LineMatches(rules, line, lineNo, fileName, test)
  {
    found := [];
    var j := 0;
    while j < |rules|
      invariant 0 <= j <= |rules|
      invariant found == LineMatches(rules[..j], line, lineNo, fileName, test)
    {
      var rule := rules[j];
      assert rules[..j + 1][..j] == rules[..j];
      match test(rule.id, line) {
        case Matched =>
          found := found + [MatchOf(rule, lineNo, line, fileName)];
        case NoMatch =>
        case Threw =>
          // the exception is caught and the rule counts as not matching
      }
      j := j + 1;
    }
    assert rules[..j] == rules;
  }
}
