/**
 * What the rule table means for the scanner's output: which matches a file can
 * ever yield, given the languages and capabilities the table uses.
 */
module CatalogFacts {
  import opened ScanTypes
  import opened Strings
  import opened RuleCatalog
  import opened Scanner
  import opened ScannerFacts

  /** Every language a per-language rule names is reachable from some extension. */
  lemma {:induction false} RuleLanguagesReachable()
    ensures forall l :: l in RuleLanguages ==> exists ext :: ext in ExtensionMap && ExtensionMap[ext] == l
  {
    assert ExtensionMap["js"] == JavaScript && ExtensionMap["py"] == Python;
    assert ExtensionMap["ps1"] == PowerShell && ExtensionMap["sh"] == Bash;
    assert ExtensionMap["go"] == Go && ExtensionMap["c"] == C;
  }

  /**
   * A file whose language no rule names (`php`, `batch` and `unknown` files) is
   * scanned with the generic tier only.
   */
  lemma {:induction false} OnlyGenericRules(fileName: string)
    requires LanguageOf(fileName) !in RuleLanguages
    ensures forall r :: r in RulesFor(Rules, fileName) <==> r in Rules && IsGeneric(r)
  {
    GenericRulesApply(LanguageOf(fileName));
    OtherRulesExcluded(LanguageOf(fileName));
  }

  lemma {:induction false} GenericRulesApply(language: Language)
    ensures forall r :: r in Rules && IsGeneric(r) ==> r in ApplicableRules(Rules, language)
  {
  }

  lemma {:induction false} OtherRulesExcluded(language: Language)
    requires language !in RuleLanguages
    ensures forall r :: r in ApplicableRules(Rules, language) ==> IsGeneric(r)
  {
    MembersSpecific();
  }

  /** `php` and `batch` files, which have extensions of their own, get the generic tier only. */
  lemma {:induction false} PhpAndBatchGeneric(language: Language)
    requires language == Php || language == Batch
    ensures forall r :: r in ApplicableRules(Rules, language) <==> r in Rules && IsGeneric(r)
  {
    GenericRulesApply(language);
    OtherRulesExcluded(language);
  }

  /**
   * No match of the scanner reads files, spawns a process, mines or escalates
   * privileges, and none has severity `safe`.
   */
  lemma {:induction false} ScanCapabilities(fileName: string, content: string, test: RegexTest)
    ensures forall m :: m in Scan(Rules, fileName, content, test) ==>
      !NeverReported(m.capability) && m.severity != Safe
  {
    ScanFromCatalog(Rules, fileName, content, test);
    MembersReportable();
  }

  /** A listener match can only be `py_socket_bind`, found in a Python file. */
  lemma {:induction false} ListenerNeedsPython(fileName: string, content: string, test: RegexTest)
    ensures forall m :: m in Scan(Rules, fileName, content, test) && m.capability == NetworkListen ==>
      m.ruleId == PySocketBind && LanguageOf(fileName) == Python
  {
    ScanFromCatalog(Rules, fileName, content, test);
    forall m | m in Scan(Rules, fileName, content, test) && m.capability == NetworkListen
      ensures m.ruleId == PySocketBind && LanguageOf(fileName) == Python
    {
      var rule :| FromCatalogRule(m, rule, Rules, fileName);
      ListenerRule(m, rule, fileName);
    }
  }

  lemma {:induction false} ListenerRule(m: ThreatMatch, rule: Rule, fileName: string)
    requires FromCatalogRule(m, rule, Rules, fileName) && m.capability == NetworkListen
    ensures m.ruleId == PySocketBind && LanguageOf(fileName) == Python
  {
    ListenerIs(rule);
  }

  lemma {:induction false} ListenerIs(rule: Rule)
    requires rule in Rules && rule.capability == NetworkListen
    ensures rule == Rule(PySocketBind, Python, Critical, NetworkListen)
  {
    MembersListener();
  }

  /** An injection match can only be `c_injection`, found in a C file. */
  lemma {:induction false} InjectorNeedsC(fileName: string, content: string, test: RegexTest)
    ensures forall m :: m in Scan(Rules, fileName, content, test) && m.capability == ProcessInject ==>
      m.ruleId == CInjection && LanguageOf(fileName) == C
  {
    ScanFromCatalog(Rules, fileName, content, test);
    forall m | m in Scan(Rules, fileName, content, test) && m.capability == ProcessInject
      ensures m.ruleId == CInjection && LanguageOf(fileName) == C
    {
      var rule :| FromCatalogRule(m, rule, Rules, fileName);
      InjectorRule(m, rule, fileName);
    }
  }

  lemma {:induction false} InjectorRule(m: ThreatMatch, rule: Rule, fileName: string)
    requires FromCatalogRule(m, rule, Rules, fileName) && m.capability == ProcessInject
    ensures m.ruleId == CInjection && LanguageOf(fileName) == C
  {
    InjectorIs(rule);
  }

  lemma {:induction false} InjectorIs(rule: Rule)
    requires rule in Rules && rule.capability == ProcessInject
    ensures rule == Rule(CInjection, C, Critical, ProcessInject)
  {
    MembersInjector();
  }

  // ---------------------------------------------------------------------------
  // The match cap is consulted before each line, not before each push
  // ---------------------------------------------------------------------------

  /** A test under which every rule matches every line. */
  const EveryRuleMatches: RegexTest := (id: RuleId, line: string) => Matched

  lemma {:induction false} PythonExtension()
    ensures Extension("x.py") == "py" && LanguageOf("x.py") == Python
  {
    var ext := Extension("x.py");
    if |ext| != 2 {
      assert false;
    }
    assert "x.py"[2..] == "py";
  }

  /** A Python file is scanned with the 5 generic rules and the 7 Python rules. */
  lemma {:induction false} PythonRuleCount()
    ensures |ApplicableRules(Rules, Python)| == 12
  {
    assert Rules[0..] == Rules;
    GenericRun();
    JavaScriptRun();
    PythonRun();
    LaterRuns();
  }

  lemma {:induction false} GenericRun()
    ensures |ApplicableRules(Rules[0..], Python)| == 5 + |ApplicableRules(Rules[5..], Python)|
  {
    assert forall i :: 0 <= i < 5 ==> Rules[i].language == All;
    ApplicableRunKept(Rules, 0, 5, Python);
  }

  lemma {:induction false} JavaScriptRun()
    ensures |ApplicableRules(Rules[5..], Python)| == |ApplicableRules(Rules[10..], Python)|
  {
    assert forall i :: 5 <= i < 10 ==> Rules[i].language == JavaScript;
    ApplicableRunDropped(Rules, 5, 10, Python);
  }

  lemma {:induction false} PythonRun()
    ensures |ApplicableRules(Rules[10..], Python)| == 7 + |ApplicableRules(Rules[17..], Python)|
  {
    assert forall i :: 10 <= i < 17 ==> Rules[i].language == Python;
    ApplicableRunKept(Rules, 10, 17, Python);
  }

  lemma {:induction false} LaterRuns()
    ensures |ApplicableRules(Rules[17..], Python)| == 0
  {
    assert forall i :: 17 <= i < 26 ==> Rules[i].language != All && Rules[i].language != Python;
    ApplicableRunDropped(Rules, 17, 26, Python);
    assert Rules[26..] == [];
  }

  /**
   * The cap is only consulted before a line, so the line that crosses it is kept
   * whole: five empty lines of a Python file on which every rule matches give
   * 12 + 12 + 12 + 12 + 12 = 60 matches, not 50.
   */
  lemma {:induction false} CapOvershoot()
    ensures |Scan(Rules, "x.py", "\n\n\n\n", EveryRuleMatches)| == 60
  {
    PythonExtension();
    PythonRuleCount();
    FourNewlines();
    FiveEmptyLines(RulesFor(Rules, "x.py"), "x.py");
  }

  lemma {:induction false} FourNewlines()
    ensures Lines("\n\n\n\n") == ["", "", "", "", ""]
    ensures Utf16Length("\n\n\n\n") == 4
  {
  }

  lemma {:induction false} FiveEmptyLines(rules: seq<Rule>, fileName: string)
    requires |rules| == 12
    ensures |ScanLines(["", "", "", "", ""], 0, rules, fileName, EveryRuleMatches, [])| == 60
  {
    var lines := ["", "", "", "", ""];
    var t := EveryRuleMatches;
    var m1 := LineMatches(rules, "", 1, fileName, t);
    var m2 := LineMatches(rules, "", 2, fileName, t);
    var m3 := LineMatches(rules, "", 3, fileName, t);
    var m4 := LineMatches(rules, "", 4, fileName, t);
    var m5 := LineMatches(rules, "", 5, fileName, t);
    LineMatchesAllFire(rules, "", 1, fileName, t);
    LineMatchesAllFire(rules, "", 2, fileName, t);
    LineMatchesAllFire(rules, "", 3, fileName, t);
    LineMatchesAllFire(rules, "", 4, fileName, t);
    LineMatchesAllFire(rules, "", 5, fileName, t);
    assert Utf16Length("") == 0;
    assert ScanLines(lines, 0, rules, fileName, t, []) == ScanLines(lines, 1, rules, fileName, t, m1);
    assert ScanLines(lines, 1, rules, fileName, t, m1) == ScanLines(lines, 2, rules, fileName, t, m1 + m2);
    assert ScanLines(lines, 2, rules, fileName, t, m1 + m2) == ScanLines(lines, 3, rules, fileName, t, m1 + m2 + m3);
    assert ScanLines(lines, 3, rules, fileName, t, m1 + m2 + m3)
      == ScanLines(lines, 4, rules, fileName, t, m1 + m2 + m3 + m4);
    assert ScanLines(lines, 4, rules, fileName, t, m1 + m2 + m3 + m4)
      == ScanLines(lines, 5, rules, fileName, t, m1 + m2 + m3 + m4 + m5);
  }
}
