/**
 * What `scanFile` promises about the matches it returns: where each one comes
 * from, when nothing was missed, the true size of the cap, the order of the
 * list, and that a rule whose test throws behaves like one that does not match.
 */
module ScannerFacts {
  import opened ScanTypes
  import opened Strings
  import opened RuleCatalog
  import opened Scanner

  /**
   * The matches the line loop would emit from line index `i` on if there were no
   * cap: over-long lines still contribute nothing.
   */
  function AllMatches(lines: seq<string>, i: nat, rules: seq<Rule>, fileName: string, test: RegexTest)
    : seq<ThreatMatch>
    requires i <= |lines|
    decreases |lines| - i
  {
    if i == |lines| then []
    else if Utf16Length(lines[i]) > MaxLineLength then AllMatches(lines, i + 1, rules, fileName, test)
    else LineMatches(rules, lines[i], i + 1, fileName, test) + AllMatches(lines, i + 1, rules, fileName, test)
  }

  predicate IsPrefix<T(==)>(p: seq<T>, s: seq<T>)
  {
    |p| <= |s| && s[..|p|] == p
  }

  /** `rule` fired on `line` (number `lineNo`) and `m` is the match it pushed. */
  predicate Fires(m: ThreatMatch, rule: Rule, line: string, lineNo: int, fileName: string, test: RegexTest)
  {
    test(rule.id, line) == Matched && m == MatchOf(rule, lineNo, line, fileName)
  }

  /** `m` is what `rule` emits on the line at index `k`, a line short enough to be scanned. */
  predicate EmittedBy(m: ThreatMatch, lines: seq<string>, k: int, rule: Rule, fileName: string, test: RegexTest)
  {
    0 <= k < |lines| && Utf16Length(lines[k]) <= MaxLineLength && Fires(m, rule, lines[k], k + 1, fileName, test)
  }

  /** `m` carries the data of `rule`, a catalog rule that applies to `fileName`. */
  predicate FromCatalogRule(m: ThreatMatch, rule: Rule, catalog: seq<Rule>, fileName: string)
  {
    rule in catalog && (rule.language == All || rule.language == LanguageOf(fileName))
    && m.ruleId == rule.id && m.severity == rule.severity
    && m.capability == rule.capability && m.description == Description(rule.id)
  }

  /** The position of the first rule with identifier `id` in `catalog`, `|catalog|` if none. */
  function IdIndex(catalog: seq<Rule>, id: RuleId): (k: nat)
    ensures k <= |catalog|
    ensures k < |catalog| ==> catalog[k].id == id
  {
    if |catalog| == 0 then 0
    else if catalog[0].id == id then 0
    else 1 + IdIndex(catalog[1..], id)
  }

  predicate IdsDistinct(rules: seq<Rule>)
  {
    forall i, j :: 0 <= i < j < |rules| ==> rules[i].id != rules[j].id
  }

  /** The rules of `rules` appear in the order of `catalog`. */
  predicate OrderedBy(rules: seq<Rule>, catalog: seq<Rule>)
  {
    forall a, b :: 0 <= a < b < |rules| ==> IdIndex(catalog, rules[a].id) < IdIndex(catalog, rules[b].id)
  }

  /** Matches on a common line appear in the order of their rules in `catalog`. */
  predicate MatchesOrderedBy(ms: seq<ThreatMatch>, catalog: seq<Rule>)
  {
    forall a, b :: 0 <= a < b < |ms| && ms[a].line == ms[b].line ==>
      IdIndex(catalog, ms[a].ruleId) < IdIndex(catalog, ms[b].ruleId)
  }

  /** All matches appear in the order of their rules in `catalog`. */
  predicate IdsOrderedBy(ms: seq<ThreatMatch>, catalog: seq<Rule>)
  {
    forall a, b :: 0 <= a < b < |ms| ==> IdIndex(catalog, ms[a].ruleId) < IdIndex(catalog, ms[b].ruleId)
  }

  predicate LinesAscending(ms: seq<ThreatMatch>)
  {
    forall a, b :: 0 <= a < b < |ms| ==> ms[a].line <= ms[b].line
  }

  // ---------------------------------------------------------------------------
  // The extension lookup and the rule pre-filter
  // ---------------------------------------------------------------------------

  /** Every extension of the map names a real language. */
  lemma {:induction false} ExtensionMapLanguages()
    ensures forall ext :: ext in ExtensionMap ==> ExtensionMap[ext] != All && ExtensionMap[ext] != UnknownLanguage
  {
  }

  /** A file is `unknown` exactly when its extension is not in the map, and never `all`. */
  lemma {:induction false} LanguageOfUnknown(fileName: string)
    ensures LanguageOf(fileName) != All
    ensures LanguageOf(fileName) == UnknownLanguage <==> Extension(fileName) !in ExtensionMap
  {
    ExtensionMapLanguages();
  }

  /** A file is `python` exactly when its lowercased extension is `py`. */
  lemma {:induction false} LanguageOfPython(fileName: string)
    ensures LanguageOf(fileName) == Python <==> Extension(fileName) == "py"
  {
    var ext := Extension(fileName);
    if ext in ExtensionMap && ExtensionMap[ext] == Python {
      assert ext == "py";
    }
  }

  lemma {:induction false} OrderedTail(rules: seq<Rule>, catalog: seq<Rule>)
    requires |rules| > 0 && OrderedBy(rules, catalog)
    ensures OrderedBy(rules[1..], catalog)
  {
    var tail := rules[1..];
    forall a, b | 0 <= a < b < |tail|
      ensures IdIndex(catalog, tail[a].id) < IdIndex(catalog, tail[b].id)
    {
      assert tail[a] == rules[a + 1] && tail[b] == rules[b + 1];
    }
  }

  lemma {:induction false} OrderedCons(x: Rule, rest: seq<Rule>, catalog: seq<Rule>)
    requires OrderedBy(rest, catalog)
    requires forall y :: y in rest ==> IdIndex(catalog, x.id) < IdIndex(catalog, y.id)
    ensures OrderedBy([x] + rest, catalog)
  {
    var r := [x] + rest;
    forall a, b | 0 <= a < b < |r|
      ensures IdIndex(catalog, r[a].id) < IdIndex(catalog, r[b].id)
    {
      assert r[b] == rest[b - 1] && rest[b - 1] in rest;
      if a > 0 {
        assert r[a] == rest[a - 1];
      }
    }
  }

  /** The pre-filter keeps the rules' relative order. */
  lemma {:induction false} ApplicableRulesOrdered(rules: seq<Rule>, language: Language, catalog: seq<Rule>)
    requires OrderedBy(rules, catalog)
    ensures OrderedBy(ApplicableRules(rules, language), catalog)
    decreases |rules|
  {
    if |rules| > 0 {
      var tail := rules[1..];
      OrderedTail(rules, catalog);
      ApplicableRulesOrdered(tail, language, catalog);
      var rest := ApplicableRules(tail, language);
      if rules[0].language == All || rules[0].language == language {
        forall y | y in rest
          ensures IdIndex(catalog, rules[0].id) < IdIndex(catalog, y.id)
        {
          var k :| 0 <= k < |tail| && tail[k] == y;
          assert rules[k + 1] == y;
        }
        OrderedCons(rules[0], rest, catalog);
      }
    }
  }

  /** In a catalog with distinct identifiers, a rule's first occurrence is its own position. */
  lemma {:induction false} IdIndexOfDistinct(catalog: seq<Rule>, k: nat)
    requires IdsDistinct(catalog) && k < |catalog|
    ensures IdIndex(catalog, catalog[k].id) == k
  {
    if k > 0 {
      var tail := catalog[1..];
      assert catalog[0].id != catalog[k].id;
      assert IdsDistinct(tail) by {
        forall i, j | 0 <= i < j < |tail|
          ensures tail[i].id != tail[j].id
        {
          assert tail[i] == catalog[i + 1] && tail[j] == catalog[j + 1];
        }
      }
      IdIndexOfDistinct(tail, k - 1);
      assert tail[k - 1] == catalog[k];
    }
  }

  lemma {:induction false} DistinctOrdered(catalog: seq<Rule>)
    requires IdsDistinct(catalog)
    ensures OrderedBy(catalog, catalog)
  {
    forall a, b | 0 <= a < b < |catalog|
      ensures IdIndex(catalog, catalog[a].id) < IdIndex(catalog, catalog[b].id)
    {
      IdIndexOfDistinct(catalog, a);
      IdIndexOfDistinct(catalog, b);
    }
  }

  /** The rules scanFile applies to a file are distinct catalog rules, in catalog order. */
  lemma {:induction false} RulesForInCatalogOrder(catalog: seq<Rule>, fileName: string)
    requires IdsDistinct(catalog)
    ensures OrderedBy(RulesFor(catalog, fileName), catalog)
  {
    DistinctOrdered(catalog);
    ApplicableRulesOrdered(catalog, LanguageOf(fileName), catalog);
  }

  // ---------------------------------------------------------------------------
  // One line
  // ---------------------------------------------------------------------------

  /**
   * The matches of one line: exactly the rules that fired, each match stamped
   * with the line number, the file and the snippet, in the rules' order.
   */
  lemma {:induction false} LineMatchesFacts(rules: seq<Rule>, line: string, lineNo: int, fileName: string,
                                            test: RegexTest)
    ensures forall m :: m in LineMatches(rules, line, lineNo, fileName, test) <==>
      exists rule :: rule in rules && Fires(m, rule, line, lineNo, fileName, test)
    ensures forall m :: m in LineMatches(rules, line, lineNo, fileName, test) ==>
      m.line == lineNo && m.file == fileName && m.content == Snippet(line)
    decreases |rules|
  {
    if |rules| > 0 {
      var init := rules[..|rules| - 1];
      LineMatchesFacts(init, line, lineNo, fileName, test);
      var last := rules[|rules| - 1];
      var earlier := LineMatches(init, line, lineNo, fileName, test);
      var ms := LineMatches(rules, line, lineNo, fileName, test);
      assert rules == init + [last];
      assert ms == if test(last.id, line) == Matched then earlier + [MatchOf(last, lineNo, line, fileName)] else earlier;
      forall m | m in ms
        ensures exists rule :: rule in rules && Fires(m, rule, line, lineNo, fileName, test)
      {
        if m in earlier {
          var rule :| rule in init && Fires(m, rule, line, lineNo, fileName, test);
          assert rule in rules;
        } else {
          assert Fires(m, last, line, lineNo, fileName, test);
        }
      }
      forall m | exists rule :: rule in rules && Fires(m, rule, line, lineNo, fileName, test)
        ensures m in ms
      {
        var rule :| rule in rules && Fires(m, rule, line, lineNo, fileName, test);
        if rule != last {
          assert rule in init;
        }
      }
    }
  }

  lemma {:induction false} AppendOrdered(earlier: seq<ThreatMatch>, x: ThreatMatch, catalog: seq<Rule>)
    requires IdsOrderedBy(earlier, catalog)
    requires forall m :: m in earlier ==> IdIndex(catalog, m.ruleId) < IdIndex(catalog, x.ruleId)
    ensures IdsOrderedBy(earlier + [x], catalog)
  {
    var ms := earlier + [x];
    forall a, b | 0 <= a < b < |ms|
      ensures IdIndex(catalog, ms[a].ruleId) < IdIndex(catalog, ms[b].ruleId)
    {
      assert ms[a] == earlier[a] && earlier[a] in earlier;
      if b < |earlier| {
        assert ms[b] == earlier[b];
      }
    }
  }

  lemma {:induction false} OrderedInit(rules: seq<Rule>, catalog: seq<Rule>)
    requires |rules| > 0 && OrderedBy(rules, catalog)
    ensures OrderedBy(rules[..|rules| - 1], catalog)
  {
    var init := rules[..|rules| - 1];
    forall a, b | 0 <= a < b < |init|
      ensures IdIndex(catalog, init[a].id) < IdIndex(catalog, init[b].id)
    {
      assert init[a] == rules[a] && init[b] == rules[b];
    }
  }

  /** A line's matches follow the order of the rules that produced them. */
  lemma {:induction false} LineMatchesOrdered(rules: seq<Rule>, line: string, lineNo: int, fileName: string,
                                              test: RegexTest, catalog: seq<Rule>)
    requires OrderedBy(rules, catalog)
    ensures IdsOrderedBy(LineMatches(rules, line, lineNo, fileName, test), catalog)
    decreases |rules|
  {
    if |rules| > 0 {
      var n := |rules| - 1;
      var init := rules[..n];
      var last := rules[n];
      OrderedInit(rules, catalog);
      LineMatchesOrdered(init, line, lineNo, fileName, test, catalog);
      var earlier := LineMatches(init, line, lineNo, fileName, test);
      if test(last.id, line) == Matched {
        EarlierPrecede(rules, line, lineNo, fileName, test, catalog);
        AppendOrdered(earlier, MatchOf(last, lineNo, line, fileName), catalog);
      }
    }
  }

  /** The matches of all rules but the last come from rules before it in `catalog`. */
  lemma {:induction false} EarlierPrecede(rules: seq<Rule>, line: string, lineNo: int, fileName: string, test: RegexTest,
                       catalog: seq<Rule>)
    requires |rules| > 0 && OrderedBy(rules, catalog)
    ensures forall m :: m in LineMatches(rules[..|rules| - 1], line, lineNo, fileName, test) ==>
      IdIndex(catalog, m.ruleId) < IdIndex(catalog, rules[|rules| - 1].id)
  {
    var n := |rules| - 1;
    var init := rules[..n];
    LineMatchesFacts(init, line, lineNo, fileName, test);
    forall m | m in LineMatches(init, line, lineNo, fileName, test)
      ensures IdIndex(catalog, m.ruleId) < IdIndex(catalog, rules[n].id)
    {
      var rule :| rule in init && Fires(m, rule, line, lineNo, fileName, test);
      BeforeLast(rules, catalog, rule);
    }
  }

  lemma {:induction false} BeforeLast(rules: seq<Rule>, catalog: seq<Rule>, rule: Rule)
    requires |rules| > 0 && OrderedBy(rules, catalog) && rule in rules[..|rules| - 1]
    ensures IdIndex(catalog, rule.id) < IdIndex(catalog, rules[|rules| - 1].id)
  {
    var k :| 0 <= k < |rules| - 1 && rules[..|rules| - 1][k] == rule;
    assert rules[k] == rule;
  }

  // ---------------------------------------------------------------------------
  // All lines, without and with the cap
  // ---------------------------------------------------------------------------

  /** `m` is emitted by some rule on some scanned line from index `i` on. */
  ghost predicate EmittedFrom(m: ThreatMatch, lines: seq<string>, i: int, rules: seq<Rule>, fileName: string,
                        test: RegexTest)
  {
    exists k, rule :: i <= k && rule in rules && EmittedBy(m, lines, k, rule, fileName, test)
  }

  predicate LinesWithin(ms: seq<ThreatMatch>, lo: int, hi: int)
  {
    forall m :: m in ms ==> lo <= m.line <= hi
  }

  /** `r` is what a capped loop keeps of `full`: a prefix, all of it unless the cap was reached. */
  predicate CutOf(r: seq<ThreatMatch>, full: seq<ThreatMatch>)
  {
    IsPrefix(r, full) && (|r| >= MaxMatchesPerFile || r == full)
  }

  lemma {:induction false} PrefixMembers(p: seq<ThreatMatch>, s: seq<ThreatMatch>)
    requires IsPrefix(p, s)
    ensures forall m :: m in p ==> m in s
  {
    forall m | m in p
      ensures m in s
    {
      var k :| 0 <= k < |p| && p[k] == m;
      assert s[k] == m;
    }
  }

  lemma {:induction false} PrefixOrdered(p: seq<ThreatMatch>, s: seq<ThreatMatch>, catalog: seq<Rule>)
    requires IsPrefix(p, s) && LinesAscending(s) && MatchesOrderedBy(s, catalog)
    ensures LinesAscending(p) && MatchesOrderedBy(p, catalog)
  {
    forall a, b | 0 <= a < b < |p|
      ensures p[a].line <= p[b].line
      ensures p[a].line == p[b].line ==> IdIndex(catalog, p[a].ruleId) < IdIndex(catalog, p[b].ruleId)
    {
      assert p[a] == s[a] && p[b] == s[b];
    }
  }

  /** Without the cap, the matches are exactly those emitted by some rule on some scanned line. */
  lemma {:induction false} AllMatchesMembers(lines: seq<string>, i: nat, rules: seq<Rule>, fileName: string,
                                             test: RegexTest)
    requires i <= |lines|
    ensures forall m :: m in AllMatches(lines, i, rules, fileName, test) <==>
      EmittedFrom(m, lines, i, rules, fileName, test)
    decreases |lines| - i
  {
    if i < |lines| {
      AllMatchesMembers(lines, i + 1, rules, fileName, test);
      var rest := AllMatches(lines, i + 1, rules, fileName, test);
      var ms := AllMatches(lines, i, rules, fileName, test);
      forall m | EmittedFrom(m, lines, i, rules, fileName, test)
        ensures m in ms
      {
        var k, rule :| i <= k && rule in rules && EmittedBy(m, lines, k, rule, fileName, test);
        if k == i {
          LineMatchesFacts(rules, lines[i], i + 1, fileName, test);
        } else {
          assert EmittedFrom(m, lines, i + 1, rules, fileName, test);
        }
      }
      forall m | m in ms
        ensures EmittedFrom(m, lines, i, rules, fileName, test)
      {
        if m !in rest {
          LineMatchesFacts(rules, lines[i], i + 1, fileName, test);
          var rule :| rule in rules && Fires(m, rule, lines[i], i + 1, fileName, test);
          assert EmittedBy(m, lines, i, rule, fileName, test);
        } else {
          var k, rule :| i + 1 <= k && rule in rules && EmittedBy(m, lines, k, rule, fileName, test);
        }
      }
    }
  }

  /** One line's matches followed by the matches of later lines keep both orders. */
  lemma {:induction false} ConcatOrdered(lm: seq<ThreatMatch>, rest: seq<ThreatMatch>, lineNo: int, hi: int, catalog: seq<Rule>)
    requires lineNo <= hi
    requires forall m :: m in lm ==> m.line == lineNo
    requires IdsOrderedBy(lm, catalog)
    requires LinesWithin(rest, lineNo + 1, hi) && LinesAscending(rest) && MatchesOrderedBy(rest, catalog)
    ensures LinesWithin(lm + rest, lineNo, hi) && LinesAscending(lm + rest) && MatchesOrderedBy(lm + rest, catalog)
  {
    var ms := lm + rest;
    forall a, b | 0 <= a < b < |ms|
      ensures ms[a].line <= ms[b].line
      ensures ms[a].line == ms[b].line ==> IdIndex(catalog, ms[a].ruleId) < IdIndex(catalog, ms[b].ruleId)
    {
      if b < |lm| {
        assert ms[a] == lm[a] && ms[b] == lm[b];
        assert lm[a] in lm && lm[b] in lm;
      } else if a < |lm| {
        assert ms[a] == lm[a] && lm[a] in lm;
        assert ms[b] == rest[b - |lm|] && rest[b - |lm|] in rest;
      } else {
        assert ms[a] == rest[a - |lm|] && ms[b] == rest[b - |lm|];
      }
    }
  }

  /**
   * Without the cap, the matches are numbered within the file, ascend by line
   * and follow the rules' order within a line.
   */
  lemma {:induction false} AllMatchesOrder(lines: seq<string>, i: nat, rules: seq<Rule>, fileName: string,
                                           test: RegexTest, catalog: seq<Rule>)
    requires i <= |lines|
    requires OrderedBy(rules, catalog)
    ensures LinesWithin(AllMatches(lines, i, rules, fileName, test), i + 1, |lines|)
    ensures LinesAscending(AllMatches(lines, i, rules, fileName, test))
    ensures MatchesOrderedBy(AllMatches(lines, i, rules, fileName, test), catalog)
    decreases |lines| - i
  {
    if i < |lines| {
      AllMatchesOrder(lines, i + 1, rules, fileName, test, catalog);
      if Utf16Length(lines[i]) <= MaxLineLength {
        LineMatchesFacts(rules, lines[i], i + 1, fileName, test);
        LineMatchesOrdered(rules, lines[i], i + 1, fileName, test, catalog);
        ConcatOrdered(LineMatches(rules, lines[i], i + 1, fileName, test),
                      AllMatches(lines, i + 1, rules, fileName, test), i + 1, |lines|, catalog);
      }
    }
  }

  /**
   * The line loop keeps a prefix of what it had plus the uncapped matches; it
   * stops short only once the cap is reached.
   */
  lemma {:induction false} ScanLinesCut(lines: seq<string>, i: nat, rules: seq<Rule>, fileName: string,
                                        test: RegexTest, acc: seq<ThreatMatch>)
    requires i <= |lines|
    ensures CutOf(ScanLines(lines, i, rules, fileName, test, acc), acc + AllMatches(lines, i, rules, fileName, test))
    decreases |lines| - i
  {
    var all := AllMatches(lines, i, rules, fileName, test);
    if i == |lines| {
      assert acc + all == acc;
    } else if |acc| >= MaxMatchesPerFile {
      CutAtCap(acc, all);
    } else if Utf16Length(lines[i]) > MaxLineLength {
      ScanLinesCut(lines, i + 1, rules, fileName, test, acc);
    } else {
      var lm := LineMatches(rules, lines[i], i + 1, fileName, test);
      var rest := AllMatches(lines, i + 1, rules, fileName, test);
      ScanLinesCut(lines, i + 1, rules, fileName, test, acc + lm);
      assert all == lm + rest;
      CutRegroup(ScanLines(lines, i + 1, rules, fileName, test, acc + lm), acc, lm, rest);
    }
  }

  lemma {:induction false} CutAtCap(acc: seq<ThreatMatch>, rest: seq<ThreatMatch>)
    requires |acc| >= MaxMatchesPerFile
    ensures CutOf(acc, acc + rest)
  {
    assert (acc + rest)[..|acc|] == acc;
  }

  lemma {:induction false} CutRegroup(r: seq<ThreatMatch>, acc: seq<ThreatMatch>, lm: seq<ThreatMatch>, rest: seq<ThreatMatch>)
    requires CutOf(r, acc + lm + rest)
    ensures CutOf(r, acc + (lm + rest))
  {
    assert acc + lm + rest == acc + (lm + rest);
  }

  /**
   * The cap is consulted before each line only: the list stops at most one line
   * past the 50th match, so it holds at most 49 plus the number of rules, and
   * every match from the 50th on comes from the line of the 50th.
   */
  lemma {:induction false} ScanLinesCap(lines: seq<string>, i: nat, rules: seq<Rule>, fileName: string,
                                        test: RegexTest, acc: seq<ThreatMatch>)
    requires i <= |lines|
    requires |acc| < MaxMatchesPerFile
    ensures var r := ScanLines(lines, i, rules, fileName, test, acc);
      |r| <= MaxMatchesPerFile - 1 + |rules|
      && forall k :: MaxMatchesPerFile - 1 <= k < |r| ==> r[k].line == r[MaxMatchesPerFile - 1].line
    decreases |lines| - i
  {
    if i == |lines| {
    } else if Utf16Length(lines[i]) > MaxLineLength {
      ScanLinesCap(lines, i + 1, rules, fileName, test, acc);
    } else {
      var lm := LineMatches(rules, lines[i], i + 1, fileName, test);
      if |acc + lm| < MaxMatchesPerFile {
        ScanLinesCap(lines, i + 1, rules, fileName, test, acc + lm);
      } else {
        LineMatchesFacts(rules, lines[i], i + 1, fileName, test);
        var r := acc + lm;
        assert ScanLines(lines, i + 1, rules, fileName, test, r) == r;
        forall k | MaxMatchesPerFile - 1 <= k < |r|
          ensures r[k].line == i + 1
        {
          assert r[k] == lm[k - |acc|] && lm[k - |acc|] in lm;
        }
      }
    }
  }

  // ---------------------------------------------------------------------------
  // scanFile
  // ---------------------------------------------------------------------------

  /** The full match list of a file within the size ceiling, before the cap. */
  function Uncapped(catalog: seq<Rule>, fileName: string, content: string, test: RegexTest): seq<ThreatMatch>
  {
    AllMatches(Lines(content), 0, RulesFor(catalog, fileName), fileName, test)
  }

  lemma {:induction false} ScanIsCut(catalog: seq<Rule>, fileName: string, content: string, test: RegexTest)
    requires Utf16Length(content) <= MaxContentLength
    ensures CutOf(Scan(catalog, fileName, content, test), Uncapped(catalog, fileName, content, test))
  {
    ScanLinesCut(Lines(content), 0, RulesFor(catalog, fileName), fileName, test, []);
    assert [] + Uncapped(catalog, fileName, content, test) == Uncapped(catalog, fileName, content, test);
  }

  /**
   * Every match of `scanFile` was emitted by an applicable rule that fired on a
   * line of at most 2000 UTF-16 units: its line number is within the file, its
   * file is the scanned file, its snippet is that line's.
   */
  lemma {:induction false} ScanSound(catalog: seq<Rule>, fileName: string, content: string, test: RegexTest)
    ensures forall m :: m in Scan(catalog, fileName, content, test) ==>
      EmittedFrom(m, Lines(content), 0, RulesFor(catalog, fileName), fileName, test)
    ensures forall m :: m in Scan(catalog, fileName, content, test) ==> 1 <= m.line <= |Lines(content)|
  {
    if Utf16Length(content) <= MaxContentLength {
      ScanIsCut(catalog, fileName, content, test);
      PrefixMembers(Scan(catalog, fileName, content, test), Uncapped(catalog, fileName, content, test));
      AllMatchesMembers(Lines(content), 0, RulesFor(catalog, fileName), fileName, test);
      forall m | m in Scan(catalog, fileName, content, test)
        ensures 1 <= m.line <= |Lines(content)|
      {
        var k, rule :| 0 <= k && rule in RulesFor(catalog, fileName) && EmittedBy(m, Lines(content), k, rule, fileName, test);
      }
    }
  }

  /**
   * Below the cap nothing is lost: when a file within the size ceiling yields
   * fewer than 50 matches, every applicable rule firing on every short line is
   * among them.
   */
  lemma {:induction false} ScanComplete(catalog: seq<Rule>, fileName: string, content: string, test: RegexTest)
    requires Utf16Length(content) <= MaxContentLength
    requires |Scan(catalog, fileName, content, test)| < MaxMatchesPerFile
    ensures forall m :: EmittedFrom(m, Lines(content), 0, RulesFor(catalog, fileName), fileName, test) ==>
      m in Scan(catalog, fileName, content, test)
  {
    ScanIsCut(catalog, fileName, content, test);
    AllMatchesMembers(Lines(content), 0, RulesFor(catalog, fileName), fileName, test);
  }

  /** The true size of the cap, and where the list stops. */
  lemma {:induction false} ScanCap(catalog: seq<Rule>, fileName: string, content: string, test: RegexTest)
    ensures var r := Scan(catalog, fileName, content, test);
      |r| <= MaxMatchesPerFile - 1 + |RulesFor(catalog, fileName)|
      && forall k :: MaxMatchesPerFile - 1 <= k < |r| ==> r[k].line == r[MaxMatchesPerFile - 1].line
  {
    if Utf16Length(content) <= MaxContentLength {
      ScanLinesCap(Lines(content), 0, RulesFor(catalog, fileName), fileName, test, []);
    }
  }

  /** Matches come by ascending line and, within a line, in catalog order. */
  lemma {:induction false} ScanOrdered(catalog: seq<Rule>, fileName: string, content: string, test: RegexTest)
    requires IdsDistinct(catalog)
    ensures LinesAscending(Scan(catalog, fileName, content, test))
    ensures MatchesOrderedBy(Scan(catalog, fileName, content, test), catalog)
  {
    if Utf16Length(content) <= MaxContentLength {
      ScanIsCut(catalog, fileName, content, test);
      RulesForInCatalogOrder(catalog, fileName);
      AllMatchesOrder(Lines(content), 0, RulesFor(catalog, fileName), fileName, test, catalog);
      PrefixOrdered(Scan(catalog, fileName, content, test), Uncapped(catalog, fileName, content, test), catalog);
    }
  }

  /**
   * A test that throws counts as one that does not match: two tests that agree
   * on which rules match which lines give the same scan.
   */
  lemma {:induction false} ScanLinesIgnoresThrow(lines: seq<string>, i: nat, rules: seq<Rule>, fileName: string,
                                                 t1: RegexTest, t2: RegexTest, acc: seq<ThreatMatch>)
    requires i <= |lines|
    requires forall id, line :: (t1(id, line) == Matched) == (t2(id, line) == Matched)
    ensures ScanLines(lines, i, rules, fileName, t1, acc) == ScanLines(lines, i, rules, fileName, t2, acc)
    decreases |lines| - i
  {
    if i < |lines| && |acc| < MaxMatchesPerFile {
      LineMatchesIgnoresThrow(rules, lines[i], i + 1, fileName, t1, t2);
      ScanLinesIgnoresThrow(lines, i + 1, rules, fileName, t1, t2, acc);
      ScanLinesIgnoresThrow(lines, i + 1, rules, fileName, t1, t2,
                            acc + LineMatches(rules, lines[i], i + 1, fileName, t1));
    }
  }

  lemma {:induction false} LineMatchesIgnoresThrow(rules: seq<Rule>, line: string, lineNo: int, fileName: string,
                                                   t1: RegexTest, t2: RegexTest)
    requires forall id, line :: (t1(id, line) == Matched) == (t2(id, line) == Matched)
    ensures LineMatches(rules, line, lineNo, fileName, t1) == LineMatches(rules, line, lineNo, fileName, t2)
    decreases |rules|
  {
    if |rules| > 0 {
      LineMatchesIgnoresThrow(rules[..|rules| - 1], line, lineNo, fileName, t1, t2);
    }
  }

  lemma {:induction false} ScanIgnoresThrow(catalog: seq<Rule>, fileName: string, content: string, t1: RegexTest, t2: RegexTest)
    requires forall id, line :: (t1(id, line) == Matched) == (t2(id, line) == Matched)
    ensures Scan(catalog, fileName, content, t1) == Scan(catalog, fileName, content, t2)
  {
    if Utf16Length(content) <= MaxContentLength {
      ScanLinesIgnoresThrow(Lines(content), 0, RulesFor(catalog, fileName), fileName, t1, t2, []);
    }
  }

  /**
   * Every match carries the identifier, severity, capability and description of
   * a catalog rule of the generic tier or of the file's language.
   */
  lemma {:induction false} ScanFromCatalog(catalog: seq<Rule>, fileName: string, content: string, test: RegexTest)
    ensures forall m :: m in Scan(catalog, fileName, content, test) ==>
      exists rule :: FromCatalogRule(m, rule, catalog, fileName)
  {
    ScanSound(catalog, fileName, content, test);
    forall m | m in Scan(catalog, fileName, content, test)
      ensures exists rule :: FromCatalogRule(m, rule, catalog, fileName)
    {
      var k, rule :| 0 <= k && rule in RulesFor(catalog, fileName) && EmittedBy(m, Lines(content), k, rule, fileName, test);
      CatalogRuleOf(catalog, m, rule, fileName, Lines(content)[k], k + 1, test);
    }
  }

  lemma {:induction false} CatalogRuleOf(catalog: seq<Rule>, m: ThreatMatch, rule: Rule, fileName: string, line: string, lineNo: int, test: RegexTest)
    requires rule in RulesFor(catalog, fileName) && Fires(m, rule, line, lineNo, fileName, test)
    ensures FromCatalogRule(m, rule, catalog, fileName)
  {
  }

  // ---------------------------------------------------------------------------
  // Counting the pre-filter and the matches of a line
  // ---------------------------------------------------------------------------

  /** A run of rules that all pass the pre-filter is kept whole. */
  lemma {:induction false} ApplicableRunKept(rules: seq<Rule>, lo: nat, hi: nat, language: Language)
    requires lo <= hi <= |rules|
    requires forall i :: lo <= i < hi ==> rules[i].language == All || rules[i].language == language
    ensures |ApplicableRules(rules[lo..], language)| == hi - lo + |ApplicableRules(rules[hi..], language)|
    decreases hi - lo
  {
    if lo < hi {
      assert rules[lo..][1..] == rules[lo + 1..];
      ApplicableRunKept(rules, lo + 1, hi, language);
    }
  }

  /** A run of rules that all fail the pre-filter is dropped whole. */
  lemma {:induction false} ApplicableRunDropped(rules: seq<Rule>, lo: nat, hi: nat, language: Language)
    requires lo <= hi <= |rules|
    requires forall i :: lo <= i < hi ==> rules[i].language != All && rules[i].language != language
    ensures |ApplicableRules(rules[lo..], language)| == |ApplicableRules(rules[hi..], language)|
    decreases hi - lo
  {
    if lo < hi {
      assert rules[lo..][1..] == rules[lo + 1..];
      ApplicableRunDropped(rules, lo + 1, hi, language);
    }
  }

  /** A line on which every rule's test matches yields one match per rule. */
  lemma {:induction false} LineMatchesAllFire(rules: seq<Rule>, line: string, lineNo: int, fileName: string,
                                              test: RegexTest)
    requires forall rule :: rule in rules ==> test(rule.id, line) == Matched
    ensures |LineMatches(rules, line, lineNo, fileName, test)| == |rules|
    decreases |rules|
  {
    if |rules| > 0 {
      var init := rules[..|rules| - 1];
      assert forall rule :: rule in init ==> rule in rules;
      assert rules[|rules| - 1] in rules;
      LineMatchesAllFire(init, line, lineNo, fileName, test);
    }
  }
}
