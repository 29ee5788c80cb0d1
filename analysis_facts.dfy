/**
 * What the analysis engine guarantees: the filters partition the evidence, the
 * static-site override, the context cascade, the raw score and its
 * monotonicity, the verdict and score invariants, a RAT-chain repository and
 * a listener-plus-shell repository, and independence from the order of the
 * evidence.
 */
module AnalysisFacts {
  import opened ScanTypes
  import opened Strings
  import opened Analysis

  // ---------------------------------------------------------------------------
  // The two filters
  // ---------------------------------------------------------------------------

  /** A filter and its complement split the input: no match is lost, added or kept twice. */
  lemma {:induction false} FilterSplit(matches: seq<ThreatMatch>, keep: ThreatMatch -> bool,
                                       drop: ThreatMatch -> bool)
    requires forall m :: drop(m) == !keep(m)
    ensures multiset(Filter(matches, keep)) + multiset(Filter(matches, drop)) == multiset(matches)
  {
    if |matches| > 0 {
      FilterSplit(matches[1..], keep, drop);
      assert matches == [matches[0]] + matches[1..];
    }
  }

  /** Every match is either suspicious or dismissed, never both, and none is lost or added. */
  lemma {:induction false} Partition(matches: seq<ThreatMatch>, context: ProjectContext)
    ensures multiset(SuspiciousMatches(matches, context)) + multiset(DismissedMatches(matches, context))
      == multiset(matches)
    ensures |SuspiciousMatches(matches, context)| + |DismissedMatches(matches, context)| == |matches|
    ensures forall m :: m in matches ==>
      (m in SuspiciousMatches(matches, context) <==> m !in DismissedMatches(matches, context))
  {
    FilterSplit(matches, m => !Legitimate(m, context), m => Legitimate(m, context));
    assert |multiset(matches)| == |matches|;
  }

  /** A filter keeps every copy of an accepted match and no copy of a rejected one. */
  lemma {:induction false} FilterCount(matches: seq<ThreatMatch>, keep: ThreatMatch -> bool, m: ThreatMatch)
    ensures multiset(Filter(matches, keep))[m] == if keep(m) then multiset(matches)[m] else 0
  {
    if |matches| > 0 {
      FilterCount(matches[1..], keep, m);
      assert matches == [matches[0]] + matches[1..];
    }
  }

  /** A filter commutes with concatenation: it picks a subsequence. */
  lemma {:induction false} FilterConcat(a: seq<ThreatMatch>, b: seq<ThreatMatch>, keep: ThreatMatch -> bool)
    ensures Filter(a + b, keep) == Filter(a, keep) + Filter(b, keep)
  {
    if |a| == 0 {
      assert a + b == b;
    } else {
      assert (a + b)[0] == a[0];
      assert (a + b)[1..] == a[1..] + b;
      FilterConcat(a[1..], b, keep);
    }
  }

  // ---------------------------------------------------------------------------
  // File categories
  // ---------------------------------------------------------------------------

  /** The category of a path does not depend on the case of its letters. */
  lemma {:induction false} CategorizeIgnoresCase(path: string)
    ensures CategorizeFile(ToLower(path)) == CategorizeFile(path)
  {
    ToLowerIdempotent(path);
  }

  lemma {:induction false} EndsWithAnyAt(s: string, suffixes: seq<string>)
    ensures EndsWithAny(s, suffixes) <==> exists k :: 0 <= k < |suffixes| && EndsWith(s, suffixes[k])
  {
    if |suffixes| > 0 {
      EndsWithAnyAt(s, suffixes[1..]);
      if exists k :: 0 <= k < |suffixes| && EndsWith(s, suffixes[k]) {
        var k :| 0 <= k < |suffixes| && EndsWith(s, suffixes[k]);
        if k > 0 {
          assert suffixes[1..][k - 1] == suffixes[k];
        }
      }
    }
  }

  lemma {:induction false} ContainsAnyAt(s: string, parts: seq<string>)
    ensures ContainsAny(s, parts) <==> exists k :: 0 <= k < |parts| && Contains(s, parts[k])
  {
    if |parts| > 0 {
      ContainsAnyAt(s, parts[1..]);
      if exists k :: 0 <= k < |parts| && Contains(s, parts[k]) {
        var k :| 0 <= k < |parts| && Contains(s, parts[k]);
        if k > 0 {
          assert parts[1..][k - 1] == parts[k];
        }
      }
    }
  }

  /**
   * The CONFIG test comes before the BUILD test: a path that mentions `vite` or
   * `config` is CONFIG even when it ends in `.test.ts`.
   */
  lemma {:induction false} ConfigBeforeBuild(path: string)
    requires !EndsWithAny(ToLower(path), UiExtensions) && !ContainsAny(ToLower(path), UiFragments)
    requires Contains(ToLower(path), "vite") || Contains(ToLower(path), "config")
    ensures CategorizeFile(path) == Config
  {
    ContainsAnyAt(ToLower(path), ConfigFragments);
    assert ConfigFragments[1] == "vite" && ConfigFragments[3] == "config";
  }

  /** A path that mentions `vite` and ends like a test file. */
  const ViteTestConfig: string := "vite.config.test.ts"

  /** `vite.config.test.ts` is a configuration file, not a test. */
  lemma {:induction false} ViteConfigTest()
    ensures CategorizeFile(ViteTestConfig) == Config
  {
    ViteLower();
    ViteNotUiExtension();
    ViteNotUiFragment();
    ViteMentioned();
    ConfigBeforeBuild(ViteTestConfig);
  }

  lemma {:induction false} ViteLower()
    ensures ToLower(ViteTestConfig) == ViteTestConfig
  {
    ToLowerOfLower(ViteTestConfig);
  }

  lemma {:induction false} ViteNotUiExtension()
    ensures !EndsWithAny(ViteTestConfig, UiExtensions)
  {
    var p := ViteTestConfig;
    EndsWithAnyAt(p, UiExtensions);
    assert p[|p| - 4..] == "t.ts" && p[|p| - 5..] == "st.ts";
    forall k | 0 <= k < |UiExtensions|
      ensures !EndsWith(p, UiExtensions[k])
    {
    }
  }

  lemma {:induction false} Lacks(s: string, sub: string, c: char)
    requires c in sub && c !in s
    ensures !Contains(s, sub)
  {
    if Contains(s, sub) {
      ContainsChars(s, sub, c);
    }
  }

  lemma {:induction false} ViteChars()
    ensures 'h' !in ViteTestConfig && 'y' !in ViteTestConfig && '/' !in ViteTestConfig
  {
  }

  lemma {:induction false} ViteNotUiFragment()
    ensures !ContainsAny(ViteTestConfig, UiFragments)
  {
    var p := ViteTestConfig;
    ViteChars();
    forall k | 0 <= k < |UiFragments|
      ensures !Contains(p, UiFragments[k])
    {
      Lacks(p, UiFragments[k], if k == 0 then 'h' else if k < 3 then 'y' else '/');
    }
    NoneContained(p, UiFragments);
  }

  lemma {:induction false} NoneContained(s: string, parts: seq<string>)
    requires forall k :: 0 <= k < |parts| ==> !Contains(s, parts[k])
    ensures !ContainsAny(s, parts)
  {
    if |parts| > 0 {
      assert forall k :: 0 <= k < |parts| - 1 ==> parts[1..][k] == parts[k + 1];
      NoneContained(s, parts[1..]);
    }
  }

  lemma {:induction false} ViteMentioned()
    ensures Contains(ViteTestConfig, "vite")
  {
    assert OccursAt(ViteTestConfig, "vite", 0);
    OccursContains(ViteTestConfig, "vite", 0);
  }

  // ---------------------------------------------------------------------------
  // Project context
  // ---------------------------------------------------------------------------

  /**
   * The context cascade is first-match-wins and never yields `unknown`: the
   * static-site branch gives an application at 99 with the static labels, then
   * frontend (90), command-line tool (70), security research (85) and
   * application (40); only the frontend branch adds framework labels, React
   * before TailwindCSS.
   */
  lemma {:induction false} ContextCascade(repoName: string, files: int, matches: seq<ThreatMatch>)
    ensures var c := Context(repoName, files, matches);
      c.kind != Unknown
      && (c.confidence == 99 <==> StaticTrigger(repoName, files, matches))
      && (c.kind == FrontendFramework <==>
            !StaticTrigger(repoName, files, matches) && (HasReact(matches) || HasTailwind(matches)))
      && (c.kind == CliTool <==>
            !StaticTrigger(repoName, files, matches) && !HasReact(matches) && !HasTailwind(matches) &&
            HasArgparse(matches))
      && (c.kind == SecurityResearch <==>
            !StaticTrigger(repoName, files, matches) && !HasReact(matches) && !HasTailwind(matches) &&
            !HasArgparse(matches) && MentionsExploit(ToLower(repoName), matches))
      && (|c.detectedFrameworks| > 0 <==>
            StaticTrigger(repoName, files, matches) || HasReact(matches) || HasTailwind(matches))
      && (!StaticTrigger(repoName, files, matches) && HasReact(matches) ==> c.detectedFrameworks[0] == ReactLabel)
      && (StaticTrigger(repoName, files, matches) ==> c == ProjectContext(Application, 99, StaticLabels))
      && (c.kind == FrontendFramework ==> c.confidence == 90)
      && (c.kind == CliTool ==> c.confidence == 70)
      && (c.kind == SecurityResearch ==> c.confidence == 85)
      && (!StaticTrigger(repoName, files, matches) && c.kind == Application ==> c.confidence == 40)
      && (!StaticTrigger(repoName, files, matches) && !HasReact(matches) && !HasTailwind(matches) &&
          !HasArgparse(matches) && !MentionsExploit(ToLower(repoName), matches) ==>
            c == ProjectContext(Application, 40, []))
      && (!StaticTrigger(repoName, files, matches) ==>
            c.detectedFrameworks == (if HasReact(matches) then [ReactLabel] else []) +
                                    (if HasTailwind(matches) then [TailwindLabel] else []))
  {
  }

  /** With no matches at all, a repository of fewer than 15 files takes the static-site branch. */
  lemma {:induction false} NoEvidenceSmallRepo(repoName: string, files: int)
    requires files < 15
    ensures StaticTrigger(repoName, files, [])
  {
  }

  // ---------------------------------------------------------------------------
  // Capabilities, chains and the raw score
  // ---------------------------------------------------------------------------

  /** The chains fire independently, each in its place in `CHAINS`. */
  lemma {:induction false} DetectedChainsIndependent(capabilities: seq<CapabilityType>)
    ensures DetectedChains(capabilities) ==
      (if ChainFires(DropperChain, capabilities) then [DropperChain] else []) +
      (if ChainFires(RatChain, capabilities) then [RatChain] else []) +
      (if ChainFires(StealerChain, capabilities) then [StealerChain] else [])
  {
    var firstTwo := [DropperChain, RatChain];
    assert Chains[..2] == firstTwo && firstTwo[..1] == [DropperChain] && [DropperChain][..0] == [];
    var none := FiringAmong([], capabilities);
    var one := FiringAmong([DropperChain], capabilities);
    var two := FiringAmong(firstTwo, capabilities);
    assert none == [];
    assert one == none + (if ChainFires(DropperChain, capabilities) then [DropperChain] else []);
    assert two == one + (if ChainFires(RatChain, capabilities) then [RatChain] else []);
  }

  /** Only the present capabilities matter to the chains, not their order or repetitions. */
  lemma {:induction false} FiringAmongSameSet(ks: seq<ChainKind>, c1: seq<CapabilityType>, c2: seq<CapabilityType>)
    requires forall c :: c in c1 <==> c in c2
    ensures FiringAmong(ks, c1) == FiringAmong(ks, c2)
  {
    if |ks| > 0 {
      FiringAmongSameSet(ks[..|ks| - 1], c1, c2);
    }
  }

  /** More capabilities never complete fewer chains. */
  lemma {:induction false} BonusMonotone(ks: seq<ChainKind>, c1: seq<CapabilityType>, c2: seq<CapabilityType>)
    requires forall c :: c in c1 ==> c in c2
    ensures BonusSum(FiringAmong(ks, c1)) <= BonusSum(FiringAmong(ks, c2))
  {
    if |ks| > 0 {
      var init := ks[..|ks| - 1];
      var k := ks[|ks| - 1];
      BonusMonotone(init, c1, c2);
      var f1, f2 := FiringAmong(init, c1), FiringAmong(init, c2);
      if ChainFires(k, c1) {
        assert (f1 + [k])[..|f1|] == f1;
        assert (f2 + [k])[..|f2|] == f2;
      } else if ChainFires(k, c2) {
        assert (f2 + [k])[..|f2|] == f2;
      }
    }
  }

  lemma {:induction false} WeightSumConcat(a: seq<ThreatMatch>, b: seq<ThreatMatch>)
    ensures WeightSum(a + b) == WeightSum(a) + WeightSum(b)
    decreases |b|
  {
    if |b| == 0 {
      assert a + b == a;
    } else {
      var init := b[..|b| - 1];
      assert (a + b)[..|a + b| - 1] == a + init;
      WeightSumConcat(a, init);
    }
  }

  lemma {:induction false} MultisetCancel<T>(p: multiset<T>, q: multiset<T>, x: T)
    requires p + multiset{x} == q + multiset{x}
    ensures p == q
  {
    forall y
      ensures p[y] == q[y]
    {
      assert (p + multiset{x})[y] == (q + multiset{x})[y];
    }
  }

  /** The weight sum does not depend on the order of the matches. */
  lemma {:induction false} WeightSumPermutation(a: seq<ThreatMatch>, b: seq<ThreatMatch>)
    requires multiset(a) == multiset(b)
    ensures WeightSum(a) == WeightSum(b)
    decreases |a|
  {
    if |a| == 0 {
      assert |b| == |multiset(b)| == 0;
    } else {
      var x := a[|a| - 1];
      var init := a[..|a| - 1];
      assert a == init + [x];
      assert x in multiset(b);
      var k :| 0 <= k < |b| && b[k] == x;
      var rest := b[..k] + b[k + 1..];
      assert b == b[..k] + [x] + b[k + 1..];
      assert multiset(b) == multiset(b[..k]) + multiset{x} + multiset(b[k + 1..]);
      assert multiset(rest) == multiset(b[..k]) + multiset(b[k + 1..]);
      assert multiset(a) == multiset(init) + multiset{x};
      MultisetCancel(multiset(init), multiset(rest), x);
      WeightSumPermutation(init, rest);
      WeightSumConcat(b[..k] + [x], b[k + 1..]);
      WeightSumConcat(b[..k], [x]);
      WeightSumConcat(b[..k], b[k + 1..]);
      assert WeightSum([x]) == Weight(x.capability) by {
        assert [x][..0] == [];
      }
    }
  }

  /** Adding a suspicious match never lowers the raw score. */
  lemma {:induction false} RawScoreMonotone(suspicious: seq<ThreatMatch>, m: ThreatMatch)
    ensures RawScore(suspicious) < RawScore(suspicious + [m])
  {
    var more := suspicious + [m];
    assert more[..|more| - 1] == suspicious;
    assert forall c :: HasCapability(suspicious, c) ==> HasCapability(more, c) by {
      forall c | HasCapability(suspicious, c)
        ensures HasCapability(more, c)
      {
        var x :| x in suspicious && x.capability == c;
        assert x in more;
      }
    }
    BonusMonotone(Chains, CapabilitiesOf(suspicious), CapabilitiesOf(more));
  }

  // ---------------------------------------------------------------------------
  // Verdict, score and family
  // ---------------------------------------------------------------------------

  /** A chain always survives the guard: the verdict is then MALICIOUS with confidence 95. */
  lemma {:induction false} ChainMeansMalicious(suspicious: seq<ThreatMatch>, context: ProjectContext)
    requires |DetectedChains(CapabilitiesOf(suspicious))| > 0
    ensures Assess(suspicious, context) == Assessment(MALICIOUS, 95, RawScore(suspicious))
  {
  }

  /** Every verdict other than SAFE carries a positive score. */
  lemma {:induction false} AssessPositive(suspicious: seq<ThreatMatch>, context: ProjectContext)
    ensures var a := Assess(suspicious, context);
      a.verdict != SAFE ==> a.score > 0
  {
    var chains := DetectedChains(CapabilitiesOf(suspicious));
    assert BonusSum(chains) >= 40 * |chains|;
  }

  /**
   * The final score lies in [0, 100]; it is 0 exactly when the verdict is SAFE,
   * so the risk tier is `safe` exactly then, and the family is NONE exactly then.
   */
  lemma {:induction false} ScoreInvariants(matches: seq<ThreatMatch>, repoName: string, totalFiles: int)
    ensures var r := Analyze(matches, repoName, totalFiles);
      0 <= r.score <= 100
      && (r.score == 0 <==> r.verdict == SAFE)
      && (r.riskLevel == Safe <==> r.verdict == SAFE)
      && (r.primaryType == None <==> r.verdict == SAFE)
      && (r.verdict == SAFE ==> r.confidence == 99)
  {
    var context := Context(repoName, totalFiles, matches);
    var suspicious := SuspiciousMatches(matches, context);
    AssessPositive(suspicious, context);
    AssessClean(suspicious, context);
    AnalyzeFields(matches, repoName, totalFiles);
  }

  /** A clean assessment always has confidence 99. */
  lemma {:induction false} AssessClean(suspicious: seq<ThreatMatch>, context: ProjectContext)
    ensures Assess(suspicious, context).verdict == SAFE ==> Assess(suspicious, context).confidence == 99
  {
  }

  /** A clean verdict's explanation, and only a clean one, opens with `Verdict: CLEAN`. */
  lemma {:induction false} ExplanationHeadline(verdict: Verdict, context: ProjectContext, primary: Option<MalwareType>,
                            chains: seq<ChainKind>, capabilities: seq<CapabilityType>, dismissed: nat)
    ensures StartsWith(Explanation(verdict, context, primary, chains, capabilities, dismissed), CleanHeadline)
      <==> verdict == SAFE
  {
    if verdict == SAFE {
      OpensWith(CleanHeadline, CleanDetail(context, dismissed));
    } else {
      VerdictInitial(verdict);
      OtherHeadline(VerdictName(verdict), ThreatDetail(context, primary, chains, capabilities));
    }
  }

  lemma {:induction false} OpensWith(head: string, rest: string)
    ensures StartsWith(head + rest, head)
  {
    StartsWithIsPrefix(head + rest, head);
    assert (head + rest)[..|head|] == head;
  }

  lemma {:induction false} VerdictInitial(verdict: Verdict)
    ensures |VerdictName(verdict)| > 0 && VerdictName(verdict)[0] != 'C'
  {
  }

  /** A verdict name that does not start with `C` cannot spell `CLEAN`. */
  lemma {:induction false} OtherHeadline(name: string, rest: string)
    requires |name| > 0 && name[0] != 'C'
    ensures !StartsWith(VerdictPrefix + name + rest, CleanHeadline)
  {
    var e := VerdictPrefix + name + rest;
    StartsWithIsPrefix(e, CleanHeadline);
    assert |VerdictPrefix| == 9 && CleanHeadline[9] == 'C';
    assert e[9] == name[0];
  }

  /** The fields of the result, each in terms of the context, the surviving evidence and the assessment. */
  lemma {:induction false} AnalyzeFields(matches: seq<ThreatMatch>, repoName: string, totalFiles: int)
    ensures var r := Analyze(matches, repoName, totalFiles);
      var context := Context(repoName, totalFiles, matches);
      var suspicious := SuspiciousMatches(matches, context);
      var capabilities := CapabilitiesOf(suspicious);
      var a := Assess(suspicious, context);
      r.repoName == repoName && r.projectContext == context && r.verdict == a.verdict
      && r.confidence == a.confidence && r.score == FinalScore(a) && r.riskLevel == GetRiskLevel(FinalScore(a))
      && r.matches == suspicious
      && r.primaryType == DetermineStrictType(capabilities, DetectedChains(capabilities), a.verdict)
      && r.attackChain == ChainNames(DetectedChains(capabilities))
      && r.scannedFiles == (if |matches| > 0 then totalFiles else 0)
  {
  }

  /** Without evidence there is no chain and the verdict is clean. */
  lemma {:induction false} NoEvidence(context: ProjectContext)
    ensures DetectedChains(CapabilitiesOf([])) == []
    ensures Assess([], context) == Assessment(SAFE, 99, 0)
  {
    DetectedChainsIndependent(CapabilitiesOf([]));
    assert NetworkConnect in Required(DropperChain) && NetworkConnect in Required(RatChain) &&
      NetworkConnect in Required(StealerChain);
  }

  /** A repository without matches is clean, with confidence 99 and no scanned-file count. */
  lemma {:induction false} NoMatches(repoName: string, totalFiles: int)
    ensures var r := Analyze([], repoName, totalFiles);
      r.verdict == SAFE && r.score == 0 && r.confidence == 99 && r.matches == [] && r.scannedFiles == 0
      && r.primaryType == None && r.attackChain == []
  {
    var context := Context(repoName, totalFiles, []);
    assert SuspiciousMatches([], context) == [];
    AnalyzeFields([], repoName, totalFiles);
    NoEvidence(context);
  }

  /**
   * The static-site override: every match is dismissed, so the result is SAFE
   * with score 0, confidence 99, no evidence and no chain.
   */
  lemma {:induction false} StaticOverride(matches: seq<ThreatMatch>, repoName: string, totalFiles: int)
    requires StaticTrigger(repoName, totalFiles, matches)
    ensures var r := Analyze(matches, repoName, totalFiles);
      r.projectContext == ProjectContext(Application, 99, StaticLabels)
      && r.verdict == SAFE && r.score == 0 && r.confidence == 99 && r.riskLevel == Safe
      && r.matches == [] && r.attackChain == [] && r.primaryType == None
      && DismissedMatches(matches, r.projectContext) == matches
  {
    var context := Context(repoName, totalFiles, matches);
    assert context == ProjectContext(Application, 99, StaticLabels);
    StaticLabelsPortfolio();
    AllDismissed(matches, context);
    AnalyzeFields(matches, repoName, totalFiles);
    NoEvidence(context);
  }

  lemma {:induction false} StaticLabelsPortfolio()
    ensures IsPortfolio(StaticLabels)
  {
    assert StaticLabels[1] == PortfolioLabel;
  }

  lemma {:induction false} AllDismissed(matches: seq<ThreatMatch>, context: ProjectContext)
    requires IsPortfolio(context.detectedFrameworks)
    ensures SuspiciousMatches(matches, context) == []
    ensures DismissedMatches(matches, context) == matches
  {
    if |matches| > 0 {
      AllDismissed(matches[1..], context);
    }
  }

  /**
   * Evidence whose capabilities are exactly network_connect, command_exec and
   * persistence completes the RAT chain alone: MALICIOUS, confidence 95, RAT.
   */
  lemma {:induction false} RatScenario(matches: seq<ThreatMatch>, repoName: string, totalFiles: int)
    requires var context := Context(repoName, totalFiles, matches);
      forall c :: HasCapability(SuspiciousMatches(matches, context), c) <==>
        c == NetworkConnect || c == CommandExec || c == Persistence
    ensures var r := Analyze(matches, repoName, totalFiles);
      r.attackChain == [ChainName(RatChain)] && r.verdict == MALICIOUS && r.confidence == 95
      && r.primaryType == Some(RAT)
  {
    var context := Context(repoName, totalFiles, matches);
    var suspicious := SuspiciousMatches(matches, context);
    var capabilities := CapabilitiesOf(suspicious);
    assert forall c :: c in capabilities <==> c == NetworkConnect || c == CommandExec || c == Persistence;
    RatEvidence(capabilities);
    ChainMeansMalicious(suspicious, context);
    AnalyzeFields(matches, repoName, totalFiles);
  }

  /** The RAT capabilities complete the RAT chain and no other, and name the RAT family. */
  lemma {:induction false} RatEvidence(capabilities: seq<CapabilityType>)
    requires forall c :: c in capabilities <==> c == NetworkConnect || c == CommandExec || c == Persistence
    ensures DetectedChains(capabilities) == [RatChain]
    ensures DetermineStrictType(capabilities, [RatChain], MALICIOUS) == Some(RAT)
  {
    DetectedChainsIndependent(capabilities);
    assert !ChainFires(DropperChain, capabilities) by {
      assert FileWrite in Required(DropperChain);
    }
    assert !ChainFires(StealerChain, capabilities) by {
      assert FileRead in Required(StealerChain);
    }
    assert ChainFires(RatChain, capabilities);
    assert NetworkListen !in capabilities;
  }

  /**
   * A listening socket and a shell command, one match each, outside a static or
   * security-research context: no chain, raw score 30 + 20 = 50, hence
   * SUSPICIOUS with confidence 60, family Backdoor, risk `high`.
   */
  lemma {:induction false} BackdoorScenario(matches: seq<ThreatMatch>, repoName: string, totalFiles: int)
    requires var context := Context(repoName, totalFiles, matches);
      var s := SuspiciousMatches(matches, context);
      |s| == 2 && s[0].capability == NetworkListen && s[1].capability == CommandExec
      && context.kind != SecurityResearch && !IsStaticContext(context)
    ensures var r := Analyze(matches, repoName, totalFiles);
      r.verdict == SUSPICIOUS && r.score == 50 && r.confidence == 60 && r.riskLevel == High
      && r.primaryType == Some(Backdoor) && r.attackChain == []
  {
    var context := Context(repoName, totalFiles, matches);
    var s := SuspiciousMatches(matches, context);
    BackdoorEvidence(s);
    assert Assess(s, context) == Assessment(SUSPICIOUS, 60, 50);
    AnalyzeFields(matches, repoName, totalFiles);
  }

  /** A listener and a shell command weigh 30 + 20, complete no chain and name the Backdoor family. */
  lemma {:induction false} BackdoorEvidence(s: seq<ThreatMatch>)
    requires |s| == 2 && s[0].capability == NetworkListen && s[1].capability == CommandExec
    ensures RawScore(s) == 50
    ensures DetectedChains(CapabilitiesOf(s)) == []
    ensures DetermineStrictType(CapabilitiesOf(s), [], SUSPICIOUS) == Some(Backdoor)
  {
    BackdoorCapabilities(s);
    ListenerShellEvidence(CapabilitiesOf(s));
    assert s[..1][..0] == [] && s[..1] == [s[0]];
    assert WeightSum(s) == 50;
  }

  lemma {:induction false} BackdoorCapabilities(s: seq<ThreatMatch>)
    requires |s| == 2 && s[0].capability == NetworkListen && s[1].capability == CommandExec
    ensures forall c :: c in CapabilitiesOf(s) <==> c == NetworkListen || c == CommandExec
  {
    forall c
      ensures HasCapability(s, c) <==> c == NetworkListen || c == CommandExec
    {
      assert s[0] in s && s[1] in s;
      if HasCapability(s, c) {
        var m :| m in s && m.capability == c;
        var i :| 0 <= i < |s| && s[i] == m;
      }
    }
  }

  /** A listener and a shell command complete no chain and name the Backdoor family. */
  lemma {:induction false} ListenerShellEvidence(capabilities: seq<CapabilityType>)
    requires forall c :: c in capabilities <==> c == NetworkListen || c == CommandExec
    ensures DetectedChains(capabilities) == []
    ensures DetermineStrictType(capabilities, [], SUSPICIOUS) == Some(Backdoor)
  {
    DetectedChainsIndependent(capabilities);
    assert NetworkConnect in Required(DropperChain) && NetworkConnect in Required(RatChain) &&
      NetworkConnect in Required(StealerChain);
  }

  // ---------------------------------------------------------------------------
  // Independence from the order of the evidence
  // ---------------------------------------------------------------------------

  /** The context only asks which matches are present. */
  lemma {:induction false} ContextSameMembers(repoName: string, files: int, a: seq<ThreatMatch>, b: seq<ThreatMatch>)
    requires forall m :: m in a <==> m in b
    ensures Context(repoName, files, a) == Context(repoName, files, b)
  {
    assert UiOnly(a) == UiOnly(b);
    assert HasReact(a) == HasReact(b);
    assert HasTailwind(a) == HasTailwind(b);
    assert HasArgparse(a) == HasArgparse(b);
    assert MentionsExploit(ToLower(repoName), a) == MentionsExploit(ToLower(repoName), b);
  }

  /**
   * Reordering the matches changes neither the context, the verdict, the score,
   * the confidence, the risk tier, the family, the chains nor the file count;
   * the retained evidence is the same up to order.
   */
  lemma {:induction false} OrderIndependent(a: seq<ThreatMatch>, b: seq<ThreatMatch>, repoName: string, totalFiles: int)
    requires multiset(a) == multiset(b)
    ensures var ra, rb := Analyze(a, repoName, totalFiles), Analyze(b, repoName, totalFiles);
      ra.projectContext == rb.projectContext && ra.verdict == rb.verdict && ra.score == rb.score
      && ra.confidence == rb.confidence && ra.riskLevel == rb.riskLevel && ra.primaryType == rb.primaryType
      && ra.attackChain == rb.attackChain && ra.scannedFiles == rb.scannedFiles
      && multiset(ra.matches) == multiset(rb.matches)
  {
    ContextPermutation(repoName, totalFiles, a, b);
    var context := Context(repoName, totalFiles, a);
    var sa, sb := SuspiciousMatches(a, context), SuspiciousMatches(b, context);
    FilterPermutation(a, b, m => !Legitimate(m, context));
    SameEvidence(sa, sb, context);
    var ca, cb := CapabilitiesOf(sa), CapabilitiesOf(sb);
    var chains := DetectedChains(ca);
    StrictTypeSameSet(ca, cb, chains, Assess(sa, context).verdict);
    assert |a| == |multiset(a)| == |b|;
    AnalyzeFields(a, repoName, totalFiles);
    AnalyzeFields(b, repoName, totalFiles);
  }

  lemma {:induction false} ContextPermutation(repoName: string, files: int, a: seq<ThreatMatch>, b: seq<ThreatMatch>)
    requires multiset(a) == multiset(b)
    ensures Context(repoName, files, a) == Context(repoName, files, b)
  {
    assert forall m :: m in a <==> m in multiset(a);
    assert forall m :: m in b <==> m in multiset(b);
    ContextSameMembers(repoName, files, a, b);
  }

  /** The family only asks which capabilities are present. */
  lemma {:induction false} StrictTypeSameSet(c1: seq<CapabilityType>, c2: seq<CapabilityType>, chains: seq<ChainKind>, verdict: Verdict)
    requires forall c :: c in c1 <==> c in c2
    ensures DetermineStrictType(c1, chains, verdict) == DetermineStrictType(c2, chains, verdict)
  {
  }

  /** Filtering permuted inputs gives permuted outputs. */
  lemma {:induction false} FilterPermutation(a: seq<ThreatMatch>, b: seq<ThreatMatch>, keep: ThreatMatch -> bool)
    requires multiset(a) == multiset(b)
    ensures multiset(Filter(a, keep)) == multiset(Filter(b, keep))
  {
    forall m
      ensures multiset(Filter(a, keep))[m] == multiset(Filter(b, keep))[m]
    {
      FilterCount(a, keep, m);
      FilterCount(b, keep, m);
    }
  }

  lemma {:induction false} SameEvidence(sa: seq<ThreatMatch>, sb: seq<ThreatMatch>, context: ProjectContext)
    requires multiset(sa) == multiset(sb)
    ensures Assess(sa, context) == Assess(sb, context)
    ensures DetectedChains(CapabilitiesOf(sa)) == DetectedChains(CapabilitiesOf(sb))
    ensures forall c :: c in CapabilitiesOf(sa) <==> c in CapabilitiesOf(sb)
  {
    assert forall m :: m in sa <==> m in multiset(sa);
    assert forall m :: m in sb <==> m in multiset(sb);
    assert forall c :: HasCapability(sa, c) <==> HasCapability(sb, c);
    WeightSumPermutation(sa, sb);
    FiringAmongSameSet(Chains, CapabilitiesOf(sa), CapabilitiesOf(sb));
  }
}
