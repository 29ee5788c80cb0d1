/**
 * The analysis engine (src/utils/analysis.ts): project-context inference, the
 * contextual legitimacy filter, capability aggregation and chain detection, the
 * verdict cascade with its static-site guard, family classification, the risk
 * tier and the explanation text.
 */
module Analysis {
  import opened ScanTypes
  import opened Strings

  // ---------------------------------------------------------------------------
  // Knowledge base
  // ---------------------------------------------------------------------------

  /**
   * `CAPABILITY_WEIGHTS`. Every weight is non-zero, so the `|| 5` fallback of
   * the scoring loop never applies.
   */
  function Weight(c: CapabilityType): (w: nat)
    ensures 5 <= w <= 50
    ensures w == 50 <==> c == ProcessInject || c == PrivilegeEscalation
    ensures w == 5 <==> c == FileRead
  {
    match c
    case NetworkConnect => 10
    case NetworkListen => 30
    case FileRead => 5
    case FileWrite => 10
    case ProcessCreate => 20
    case ProcessInject => 50
    case Persistence => 30
    case Obfuscation => 15
    case CryptoMining => 40
    case InfoStealing => 40
    case Evasion => 30
    case PrivilegeEscalation => 50
    case CommandExec => 20
    case DynamicCodeLoading => 20
  }

  /** The three entries of `CHAINS`, in their order there. */
  datatype ChainKind = DropperChain | RatChain | StealerChain

  const Chains: seq<ChainKind> := [DropperChain, RatChain, StealerChain]

  function ChainName(k: ChainKind): string
  {
    match k
    case DropperChain => "Dropper Chain"
    case RatChain => "RAT Chain"
    case StealerChain => "Stealer Chain"
  }

  function Required(k: ChainKind): seq<CapabilityType>
  {
    match k
    case DropperChain => [NetworkConnect, FileWrite, ProcessCreate]
    case RatChain => [NetworkConnect, CommandExec, Persistence]
    case StealerChain => [FileRead, NetworkConnect, InfoStealing]
  }

  function Bonus(k: ChainKind): (b: nat)
    ensures b >= 40
  {
    match k
    case DropperChain => 40
    case RatChain => 60
    case StealerChain => 50
  }

  // ---------------------------------------------------------------------------
  // File categories
  // ---------------------------------------------------------------------------

  /** `FileCategory`; `DATA` is declared in the source but never produced. */
  datatype FileCategory = Ui | Build | Logic | Config | Data | UnknownCategory

  /** `s.endsWith(suffixes[0]) || s.endsWith(suffixes[1]) || ...` */
  predicate EndsWithAny(s: string, suffixes: seq<string>)
  {
    |suffixes| > 0 && (EndsWith(s, suffixes[0]) || EndsWithAny(s, suffixes[1..]))
  }

  /** `s.includes(parts[0]) || s.includes(parts[1]) || ...` */
  predicate ContainsAny(s: string, parts: seq<string>)
  {
    |parts| > 0 && (Contains(s, parts[0]) || ContainsAny(s, parts[1..]))
  }

  const UiExtensions: seq<string> := [".css", ".scss", ".less", ".html", ".svg", ".png", ".ico", ".jpg"]
  const UiFragments: seq<string> := ["theme", "style", "layout", "public/", "assets/"]
  const ConfigFragments: seq<string> := ["webpack", "vite", "rollup", "config"]
  const TestSuffixes: seq<string> := [".test.ts", ".spec.ts"]
  const CodeExtensions: seq<string> := [".ts", ".js", ".py", ".go", ".c"]

  /** `categorizeFile`: a first-match-wins cascade over the lowercased path. */
  function CategorizeFile(path: string): (c: FileCategory)
    ensures c != Data
  {
    var p := ToLower(path);
    if EndsWithAny(p, UiExtensions) || ContainsAny(p, UiFragments) then Ui
    else if ContainsAny(p, ConfigFragments) || EndsWith(p, ".json") then Config
    else if EndsWithAny(p, TestSuffixes) then Build
    else if EndsWithAny(p, CodeExtensions) then Logic
    else UnknownCategory
  }

  // ---------------------------------------------------------------------------
  // Project context
  // ---------------------------------------------------------------------------

  /** The names and labels that mark a CV, portfolio or static site. */
  predicate NamesPortfolio(lowerRepo: string)
  {
    Contains(lowerRepo, "cv") || Contains(lowerRepo, "portfolio") || Contains(lowerRepo, "resume") ||
    Contains(lowerRepo, "profile")
  }

  predicate NamesStaticSite(lowerRepo: string)
  {
    Contains(lowerRepo, "css") || Contains(lowerRepo, "html") || Contains(lowerRepo, "theme")
  }

  /** `matches.every(...)`: every match sits in a UI file or mentions `localStorage`. */
  predicate UiOnly(matches: seq<ThreatMatch>)
  {
    forall m :: m in matches ==> CategorizeFile(m.file) == Ui || Contains(m.content, "localStorage")
  }

  /** The condition of the high-priority static-site branch. */
  predicate StaticTrigger(repoName: string, files: int, matches: seq<ThreatMatch>)
  {
    var lowerRepo := ToLower(repoName);
    NamesPortfolio(lowerRepo) || NamesStaticSite(lowerRepo) || (files < 15 && UiOnly(matches))
  }

  predicate HasReact(matches: seq<ThreatMatch>)
  {
    exists m :: m in matches && (Contains(m.file, "tsx") || Contains(m.file, "jsx"))
  }

  predicate HasTailwind(matches: seq<ThreatMatch>)
  {
    exists m :: m in matches && Contains(m.file, "tailwind")
  }

  predicate HasArgparse(matches: seq<ThreatMatch>)
  {
    exists m :: m in matches && Contains(m.content, "argparse")
  }

  predicate MentionsExploit(lowerRepo: string, matches: seq<ThreatMatch>)
  {
    (exists m :: m in matches && Contains(ToLower(m.content), "exploit")) || Contains(lowerRepo, "exploit")
  }

  const StaticSiteLabel: string := "Static Site"
  const PortfolioLabel: string := "Portfolio"
  const ReactLabel: string := "React"
  const TailwindLabel: string := "TailwindCSS"
  const StaticLabels: seq<string> := [StaticSiteLabel, PortfolioLabel]

  /** The framework labels of a frontend project, React first. */
  function FrameworkLabels(react: bool, tailwind: bool): seq<string>
  {
    (if react then [ReactLabel] else []) + (if tailwind then [TailwindLabel] else [])
  }

  /** The context cascade on the outcomes of its tests, in their order of priority. */
  function ContextFrom(staticSite: bool, react: bool, tailwind: bool, argparse: bool, exploit: bool)
    : ProjectContext
  {
    if staticSite then ProjectContext(Application, 99, StaticLabels)
    else if react || tailwind then ProjectContext(FrontendFramework, 90, FrameworkLabels(react, tailwind))
    else if argparse then ProjectContext(CliTool, 70, [])
    else if exploit then ProjectContext(SecurityResearch, 85, [])
    else ProjectContext(Application, 40, [])
  }

  /** What `detectProjectContext(repoName, files, matches)` returns. */
  function Context(repoName: string, files: int, matches: seq<ThreatMatch>): ProjectContext
  {
    ContextFrom(StaticTrigger(repoName, files, matches), HasReact(matches), HasTailwind(matches),
                HasArgparse(matches), MentionsExploit(ToLower(repoName), matches))
  }

  /**
   * `detectProjectContext`: the static-site branch returns early; otherwise the
   * kind and confidence are set by the first matching branch, and a frontend
   * project pushes its framework labels.
   */
  method DetectProjectContext(repoName: string, files: int, matches: seq<ThreatMatch>)
    returns (context: ProjectContext)
    ensures context == Context(repoName, files, matches)
  {
    var kind := Unknown;
    var confidence := 0;
    var frameworks: seq<string> := [];
    var lowerRepo := ToLower(repoName);
    var isCv := NamesPortfolio(lowerRepo);
    var isStatic := NamesStaticSite(lowerRepo);
    var hasUiOnly := UiOnly(matches);
    assert (isCv || isStatic || (files < 15 && hasUiOnly)) == StaticTrigger(repoName, files, matches);
    if isCv || isStatic || (files < 15 && hasUiOnly) {
      return ProjectContext(Application, 99, StaticLabels);
    }
    var hasReact := HasReact(matches);
    var hasTailwind := HasTailwind(matches);
    var hasArgparse := HasArgparse(matches);
    var mentionsExploit := MentionsExploit(lowerRepo, matches);
    if hasReact || hasTailwind {
      kind := FrontendFramework;
      confidence := 90;
      if hasReact {
        frameworks := frameworks + [ReactLabel];
      }
      assert frameworks == if hasReact then [ReactLabel] else [];
      if hasTailwind {
        frameworks := frameworks + [TailwindLabel];
      }
      assert frameworks == FrameworkLabels(hasReact, hasTailwind);
    } else if hasArgparse {
      kind := CliTool;
      confidence := 70;
    } else if mentionsExploit {
      kind := SecurityResearch;
      confidence := 85;
    } else {
      kind := Application;
      confidence := 40;
    }
    context := ProjectContext(kind, confidence, frameworks);
  }

  // ---------------------------------------------------------------------------
  // The legitimacy filter
  // ---------------------------------------------------------------------------

  predicate IsPortfolio(frameworks: seq<string>)
  {
    PortfolioLabel in frameworks || StaticSiteLabel in frameworks
  }

  /** The capabilities that some rule of the filter can dismiss outside UI files and portfolios. */
  predicate Excusable(c: CapabilityType)
  {
    c == NetworkConnect || c == ProcessCreate || c == FileWrite || c == InfoStealing || c == FileRead
  }

  /** What a frontend project excuses: fetches, build scripts, build output and `localStorage` reads. */
  predicate FrontendExcuses(m: ThreatMatch)
  {
    var c := m.capability;
    c == NetworkConnect || (c == ProcessCreate && Contains(m.file, "build")) ||
    (c == FileWrite && (Contains(m.file, "dist") || Contains(m.file, "build"))) ||
    (c == InfoStealing && Contains(m.content, "localStorage"))
  }

  /** What configuration and build files excuse: spawning a process and reading files. */
  predicate BuildExcuses(c: CapabilityType)
  {
    c == ProcessCreate || c == FileRead
  }

  /**
   * `isBehaviorLegitimate`. In a UI file or a portfolio every branch returns
   * true; a frontend project excuses fetches, build scripts and build output and
   * `localStorage` reads; configuration and build files excuse spawning a
   * process and reading files.
   */
  function IsBehaviorLegitimate(m: ThreatMatch, kind: ProjectType, category: FileCategory,
                                frameworks: seq<string>): (legitimate: bool)
    ensures category == Ui || IsPortfolio(frameworks) ==> legitimate
    ensures legitimate && category != Ui && !IsPortfolio(frameworks) ==> Excusable(m.capability)
    ensures (kind != FrontendFramework && category != Ui && category != Config && category != Build &&
             !IsPortfolio(frameworks)) ==> !legitimate
    ensures category != Ui && !IsPortfolio(frameworks) ==>
      (legitimate <==> (kind == FrontendFramework && FrontendExcuses(m)) ||
                       ((category == Config || category == Build) && BuildExcuses(m.capability)))
  {
    var c := m.capability;
    if category == Ui || IsPortfolio(frameworks) then true
    else if kind == FrontendFramework && c == NetworkConnect then true
    else if kind == FrontendFramework && c == ProcessCreate && Contains(m.file, "build") then true
    else if kind == FrontendFramework && c == FileWrite && (Contains(m.file, "dist") || Contains(m.file, "build")) then true
    else if kind == FrontendFramework && c == InfoStealing && Contains(m.content, "localStorage") then true
    else if (category == Config || category == Build) && (c == ProcessCreate || c == FileRead) then true
    else false
  }

  /** The filter applied to a match in a given context, with the match's own file category. */
  predicate Legitimate(m: ThreatMatch, context: ProjectContext)
  {
    IsBehaviorLegitimate(m, context.kind, CategorizeFile(m.file), context.detectedFrameworks)
  }

  /** `matches.filter(keep)`: the matches `keep` accepts, in input order. */
  function Filter(matches: seq<ThreatMatch>, keep: ThreatMatch -> bool): (r: seq<ThreatMatch>)
    ensures |r| <= |matches|
    ensures forall m :: m in r <==> m in matches && keep(m)
  {
    if |matches| == 0 then []
    else (if keep(matches[0]) then [matches[0]] else []) + Filter(matches[1..], keep)
  }

  /** `processedMatches.filter(m => !isBehaviorLegitimate(...))` */
  function SuspiciousMatches(matches: seq<ThreatMatch>, context: ProjectContext): (r: seq<ThreatMatch>)
    ensures forall m :: m in r <==> m in matches && !Legitimate(m, context)
  {
    Filter(matches, m => !Legitimate(m, context))
  }

  /** `processedMatches.filter(m => isBehaviorLegitimate(...))` */
  function DismissedMatches(matches: seq<ThreatMatch>, context: ProjectContext): (r: seq<ThreatMatch>)
    ensures forall m :: m in r <==> m in matches && Legitimate(m, context)
  {
    Filter(matches, m => Legitimate(m, context))
  }

  // ---------------------------------------------------------------------------
  // Evidence aggregation and chains
  // ---------------------------------------------------------------------------

  predicate NoDuplicates<T(==)>(s: seq<T>)
  {
    forall i, j :: 0 <= i < j < |s| ==> s[i] != s[j]
  }

  /** The index of the first occurrence of `x` in `s`. */
  function FirstIndex<T(==)>(s: seq<T>, x: T): (k: nat)
    requires x in s
    ensures k < |s| && s[k] == x && x !in s[..k]
  {
    if s[0] == x then 0
    else
      var k := FirstIndex(s[1..], x);
      assert s[..k + 1] == [s[0]] + s[1..][..k];
      1 + k
  }

  /** Any index of `x` that no earlier occurrence precedes is the first. */
  lemma {:induction false} FirstIndexUnique<T>(s: seq<T>, x: T, k: nat)
    requires k < |s| && s[k] == x && x !in s[..k]
    ensures FirstIndex(s, x) == k
  {
  }

  /** A prefix that holds `x` has the same first occurrence of `x`. */
  lemma {:induction false} FirstIndexPrefix<T>(s: seq<T>, n: nat, x: T)
    requires n <= |s| && x in s[..n]
    ensures FirstIndex(s, x) == FirstIndex(s[..n], x)
  {
    var k := FirstIndex(s[..n], x);
    assert s[..n][..k] == s[..k];
    FirstIndexUnique(s, x, k);
  }

  /** `Array.from(new Set(s))`: each element once, in order of first occurrence. */
  function Distinct(s: seq<CapabilityType>): (r: seq<CapabilityType>)
    ensures forall x :: x in r <==> x in s
    ensures NoDuplicates(r)
    ensures |r| <= |s|
  {
    if |s| == 0 then []
    else
      var d := Distinct(s[..|s| - 1]);
      if s[|s| - 1] in d then d else d + [s[|s| - 1]]
  }

  /**
   * `Distinct` lists the elements in the order of their first occurrence; with
   * its membership and no-duplicates clauses this fixes the result uniquely.
   */
  lemma {:induction false} DistinctOrder(s: seq<CapabilityType>)
    ensures forall i, j :: 0 <= i < j < |Distinct(s)| ==>
      FirstIndex(s, Distinct(s)[i]) < FirstIndex(s, Distinct(s)[j])
  {
    if |s| > 0 {
      var n := |s| - 1;
      var p := s[..n];
      var d := Distinct(p);
      DistinctOrder(p);
      forall x | x in d
        ensures FirstIndex(s, x) == FirstIndex(p, x) < n
      {
        FirstIndexPrefix(s, n, x);
      }
      var r := Distinct(s);
      if s[n] in d {
        assert r == d;
        forall i, j | 0 <= i < j < |r|
          ensures FirstIndex(s, r[i]) < FirstIndex(s, r[j])
        {
          assert r[i] == d[i] && d[i] in d && r[j] == d[j] && d[j] in d;
          assert FirstIndex(p, d[i]) < FirstIndex(p, d[j]);
        }
      } else {
        FirstIndexUnique(s, s[n], n);
        assert r == d + [s[n]];
        forall i, j | 0 <= i < j < |r|
          ensures FirstIndex(s, r[i]) < FirstIndex(s, r[j])
        {
          assert r[i] == d[i] && d[i] in d;
          if j < |d| {
            assert r[j] == d[j] && d[j] in d;
            assert FirstIndex(p, d[i]) < FirstIndex(p, d[j]);
          } else {
            assert r[j] == s[n];
          }
        }
      }
    }
  }

  predicate HasCapability(matches: seq<ThreatMatch>, c: CapabilityType)
  {
    exists m :: m in matches && m.capability == c
  }

  /** `matches.map(m => m.capability)` */
  function CapabilitySeq(matches: seq<ThreatMatch>): (r: seq<CapabilityType>)
    ensures |r| == |matches|
    ensures forall i :: 0 <= i < |matches| ==> r[i] == matches[i].capability
    ensures forall c :: c in r <==> HasCapability(matches, c)
  {
    if |matches| == 0 then [] else [matches[0].capability] + CapabilitySeq(matches[1..])
  }

  /** The distinct capabilities of `matches`, in order of first occurrence. */
  function CapabilitiesOf(matches: seq<ThreatMatch>): (r: seq<CapabilityType>)
    ensures forall c :: c in r <==> HasCapability(matches, c)
    ensures NoDuplicates(r)
    ensures forall i, j :: 0 <= i < j < |r| ==>
      FirstIndex(CapabilitySeq(matches), r[i]) < FirstIndex(CapabilitySeq(matches), r[j])
  {
    var cs := CapabilitySeq(matches);
    DistinctOrder(cs);
    Distinct(cs)
  }

  /** The sum of the capability weights of `matches`. */
  function WeightSum(matches: seq<ThreatMatch>): (w: nat)
    ensures 5 * |matches| <= w <= 50 * |matches|
  {
    if |matches| == 0 then 0
    else WeightSum(matches[..|matches| - 1]) + Weight(matches[|matches| - 1].capability)
  }

  /** `chain.required.every(req => capabilities.includes(req))` */
  predicate ChainFires(k: ChainKind, capabilities: seq<CapabilityType>)
  {
    forall c :: c in Required(k) ==> c in capabilities
  }

  /** The chains of `ks` that fire, in the order of `ks`. */
  function FiringAmong(ks: seq<ChainKind>, capabilities: seq<CapabilityType>): (r: seq<ChainKind>)
    ensures |r| <= |ks|
    ensures forall k :: k in r <==> k in ks && ChainFires(k, capabilities)
  {
    if |ks| == 0 then []
    else
      var earlier := FiringAmong(ks[..|ks| - 1], capabilities);
      if ChainFires(ks[|ks| - 1], capabilities) then earlier + [ks[|ks| - 1]] else earlier
  }

  function DetectedChains(capabilities: seq<CapabilityType>): seq<ChainKind>
  {
    FiringAmong(Chains, capabilities)
  }

  /** The sum of the bonuses of `ks`. */
  function BonusSum(ks: seq<ChainKind>): (b: nat)
    ensures b >= 40 * |ks|
  {
    if |ks| == 0 then 0 else BonusSum(ks[..|ks| - 1]) + Bonus(ks[|ks| - 1])
  }

  /** The raw score of the surviving evidence: weights plus the bonuses of the chains it completes. */
  function RawScore(suspicious: seq<ThreatMatch>): nat
  {
    WeightSum(suspicious) + BonusSum(DetectedChains(CapabilitiesOf(suspicious)))
  }

  // ---------------------------------------------------------------------------
  // Verdict, guard, score, risk tier, family
  // ---------------------------------------------------------------------------

  /** The verdict, the confidence and the score as the verdict cascade leaves them. */
  datatype Assessment = Assessment(verdict: Verdict, confidence: int, score: int)

  /**
   * The verdict cascade: a chain, a high score, an authorised security tool
   * (its score set to 30), a moderate score, a low score, or clean.
   */
  function Grade(raw: int, kind: ProjectType, chained: bool): (a: Assessment)
    ensures a.verdict == SAFE <==> !chained && raw <= 10
    ensures a.verdict == MALICIOUS <==> chained || raw > 60
    ensures a.verdict == SUSPICIOUS <==> !chained && 35 < raw <= 60 && kind != SecurityResearch
    ensures a.verdict == DUAL_USE <==> !chained && 10 < raw <= 60 && (kind == SecurityResearch || raw <= 35)
    ensures a.verdict == MALICIOUS ==> a.confidence == (if chained then 95 else 85)
    ensures a.verdict == SUSPICIOUS ==> a.confidence == 60
    ensures a.verdict == DUAL_USE ==> a.confidence == (if kind == SecurityResearch && raw > 20 then 90 else 40)
    ensures a.verdict == SAFE ==> a.confidence == 99
    ensures a.score == if a.verdict == DUAL_USE && kind == SecurityResearch && raw > 20 then 30 else raw
  {
    if chained then Assessment(MALICIOUS, 95, raw)
    else if raw > 60 then Assessment(MALICIOUS, 85, raw)
    else if kind == SecurityResearch && raw > 20 then Assessment(DUAL_USE, 90, 30)
    else if raw > 35 then Assessment(SUSPICIOUS, 60, raw)
    else if raw > 10 then Assessment(DUAL_USE, 40, raw)
    else Assessment(SAFE, 99, raw)
  }

  predicate IsStaticContext(context: ProjectContext)
  {
    context.kind == FrontendFramework || StaticSiteLabel in context.detectedFrameworks ||
    PortfolioLabel in context.detectedFrameworks
  }

  /** The hallucination guard: a static context without a chain is forced clean. */
  function Guard(a: Assessment, context: ProjectContext, chained: bool): (g: Assessment)
    ensures IsStaticContext(context) && !chained ==> g == Assessment(SAFE, 99, 0)
    ensures !(IsStaticContext(context) && !chained) ==> g == a
  {
    if IsStaticContext(context) && !chained then Assessment(SAFE, 99, 0) else a
  }

  /** `Math.min(100, verdict === 'SAFE' ? 0 : rawScore)` */
  function FinalScore(a: Assessment): (s: int)
    ensures s <= 100
    ensures a.verdict == SAFE ==> s == 0
    ensures a.verdict != SAFE ==> s <= a.score && (s == a.score || s == 100)
  {
    if a.verdict == SAFE then 0 else if a.score < 100 then a.score else 100
  }

  /** `getRiskLevel`: zero is safe, then tiers below 25, 50 and 75, else critical. */
  function GetRiskLevel(score: int): (r: Severity)
    ensures r == Safe <==> score == 0
    ensures r == Low <==> score != 0 && score < 25
    ensures r == Medium <==> 25 <= score < 50
    ensures r == High <==> 50 <= score < 75
    ensures r == Critical <==> score >= 75
  {
    if score == 0 then Safe
    else if score < 25 then Low
    else if score < 50 then Medium
    else if score < 75 then High
    else Critical
  }

  /** The strict definition of a backdoor: a listener together with command execution or a spawned process. */
  predicate BackdoorCapable(capabilities: seq<CapabilityType>)
  {
    NetworkListen in capabilities && (CommandExec in capabilities || ProcessCreate in capabilities)
  }

  /** None of the evidence that names a family before the verdict fallback is present. */
  predicate NoFamilyEvidence(capabilities: seq<CapabilityType>, chains: seq<ChainKind>)
  {
    !BackdoorCapable(capabilities) && RatChain !in chains && StealerChain !in chains &&
    CryptoMining !in capabilities && DropperChain !in chains && ProcessInject !in capabilities
  }

  /**
   * `determineStrictType`: `NONE` for a clean verdict, else the first family
   * whose strict evidence is present, in the priority Backdoor, RAT, Stealer,
   * Cryptominer, Dropper, Trojan (injection), else a label that follows the verdict.
   */
  function DetermineStrictType(capabilities: seq<CapabilityType>, chains: seq<ChainKind>, verdict: Verdict)
    : (t: Option<MalwareType>)
    ensures t == None <==> verdict == SAFE
    ensures t == Some(Backdoor) <==> verdict != SAFE && BackdoorCapable(capabilities)
    ensures t == Some(RAT) <==> verdict != SAFE && !BackdoorCapable(capabilities) && RatChain in chains
    ensures t == Some(Stealer) <==>
      verdict != SAFE && !BackdoorCapable(capabilities) && RatChain !in chains && StealerChain in chains
    ensures t == Some(Cryptominer) <==>
      verdict != SAFE && !BackdoorCapable(capabilities) && RatChain !in chains && StealerChain !in chains &&
      CryptoMining in capabilities
    ensures t == Some(Dropper) <==>
      verdict != SAFE && !BackdoorCapable(capabilities) && RatChain !in chains && StealerChain !in chains &&
      CryptoMining !in capabilities && DropperChain in chains
    ensures t == Some(Trojan) <==>
      verdict != SAFE && !BackdoorCapable(capabilities) && RatChain !in chains && StealerChain !in chains &&
      CryptoMining !in capabilities && DropperChain !in chains &&
      (ProcessInject in capabilities || verdict == MALICIOUS)
    ensures t == Some(DualUse) <==> verdict == DUAL_USE && NoFamilyEvidence(capabilities, chains)
    ensures t == Some(Suspicious) <==> verdict == SUSPICIOUS && NoFamilyEvidence(capabilities, chains)
    ensures t in {None, Some(Backdoor), Some(RAT), Some(Stealer), Some(Cryptominer), Some(Dropper),
                  Some(Trojan), Some(DualUse), Some(Suspicious)}
  {
    if verdict == SAFE then None
    else if BackdoorCapable(capabilities) then Some(Backdoor)
    else if RatChain in chains then Some(RAT)
    else if StealerChain in chains then Some(Stealer)
    else if CryptoMining in capabilities then Some(Cryptominer)
    else if DropperChain in chains then Some(Dropper)
    else if ProcessInject in capabilities then Some(Trojan)
    else
      match verdict
      case DUAL_USE => Some(DualUse)
      case MALICIOUS => Some(Trojan)
      case SUSPICIOUS => Some(Suspicious)
      case SAFE => None
  }

  // ---------------------------------------------------------------------------
  // Labels and the explanation
  // ---------------------------------------------------------------------------

  function ChainNames(ks: seq<ChainKind>): (r: seq<string>)
    ensures |r| == |ks|
    ensures forall i :: 0 <= i < |ks| ==> r[i] == ChainName(ks[i])
  {
    seq(|ks|, i requires 0 <= i < |ks| => ChainName(ks[i]))
  }

  function CapabilityNames(cs: seq<CapabilityType>): (r: seq<string>)
    ensures |r| == |cs|
    ensures forall i :: 0 <= i < |cs| ==> r[i] == CapabilityName(cs[i])
  {
    seq(|cs|, i requires 0 <= i < |cs| => CapabilityName(cs[i]))
  }

  /** `c.replace('_', ' ').toUpperCase()`: only the first underscore becomes a space. */
  function BehaviorLabel(c: CapabilityType): string
  {
    ToUpper(ReplaceFirst(CapabilityName(c), '_', ' '))
  }

  function Behaviors(cs: seq<CapabilityType>): (r: seq<string>)
    ensures |r| == |cs|
    ensures forall i :: 0 <= i < |cs| ==> r[i] == BehaviorLabel(cs[i])
  {
    seq(|cs|, i requires 0 <= i < |cs| => BehaviorLabel(cs[i]))
  }

  /** The label of a clean project: its framework labels joined by `/`, or its kind. */
  function TypeLabel(context: ProjectContext): string
  {
    if |context.detectedFrameworks| > 0 then Join(context.detectedFrameworks, "/")
    else ReplaceFirst(ProjectTypeName(context.kind), '_', ' ')
  }

  /** `detectedChains.join(', ') || 'Heuristic Match'` */
  function ChainText(chains: seq<ChainKind>): string
  {
    var joined := Join(ChainNames(chains), ", ");
    if joined == "" then "Heuristic Match" else joined
  }

  const VerdictPrefix: string := "Verdict: "
  const CleanHeadline: string := "Verdict: CLEAN"

  /** The explanation template of each verdict branch. */
  function Explanation(verdict: Verdict, context: ProjectContext, primary: Option<MalwareType>,
                       chains: seq<ChainKind>, capabilities: seq<CapabilityType>, dismissed: nat): string
  {
    if verdict == SAFE then CleanHeadline + CleanDetail(context, dismissed)
    else VerdictPrefix + VerdictName(verdict) + ThreatDetail(context, primary, chains, capabilities)
  }

  /** The reason and the number of dismissed indicators of a clean verdict. */
  function CleanDetail(context: ProjectContext, dismissed: nat): string
  {
    "\nReason: Recognized as a legitimate " + TypeLabel(context) + ".\n" +
    "Analysis: " + NatToString(dismissed) +
    " indicators (likely theming, UI logic, or build tools) were automatically verified as safe."
  }

  /** The family, the chains and the first three capabilities of any other verdict. */
  function ThreatDetail(context: ProjectContext, primary: Option<MalwareType>, chains: seq<ChainKind>,
                        capabilities: seq<CapabilityType>): string
  {
    "\nType: " + PrimaryTypeName(primary) + "\n" +
    "Reasoning: A high-confidence attack chain (" + ChainText(chains) +
    ") was identified which contradict legitimate usage.\n" +
    "Context: Although identified as " + ProjectTypeName(context.kind) + ", the presence of " +
    Join(CapabilityNames(Take(capabilities, 3)), ", ") + " is highly anomalous."
  }

  // ---------------------------------------------------------------------------
  // analyzeMatches
  // ---------------------------------------------------------------------------

  /** The assessment after the verdict cascade and the guard, for surviving evidence `suspicious`. */
  function Assess(suspicious: seq<ThreatMatch>, context: ProjectContext): Assessment
  {
    var chained := |DetectedChains(CapabilitiesOf(suspicious))| > 0;
    Guard(Grade(RawScore(suspicious), context.kind, chained), context, chained)
  }

  /** What `analyzeMatches(matches, repoName, totalFiles)` returns. */
  function Analyze(matches: seq<ThreatMatch>, repoName: string, totalFiles: int): AnalysisResult
  {
    var context := Context(repoName, totalFiles, matches);
    var suspicious := SuspiciousMatches(matches, context);
    var a := Assess(suspicious, context);
    Report(repoName, context, suspicious, a, FinalScore(a), |DismissedMatches(matches, context)|,
           if |matches| > 0 then totalFiles else 0)
  }

  /** The result record of an assessment `a` with final score `score`. */
  function Report(repoName: string, context: ProjectContext, suspicious: seq<ThreatMatch>, a: Assessment,
                  score: int, dismissed: nat, scannedFiles: int): AnalysisResult
  {
    var capabilities := CapabilitiesOf(suspicious);
    var chains := DetectedChains(capabilities);
    var primary := DetermineStrictType(capabilities, chains, a.verdict);
    AnalysisResult(
      repoName, score, GetRiskLevel(score), a.verdict, a.confidence, context, primary, [],
      Behaviors(capabilities), ChainNames(chains), suspicious,
      Explanation(a.verdict, context, primary, chains, capabilities, dismissed), scannedFiles)
  }

  /**
   * `analyzeMatches`: the context, the two filters, the scoring loop, the chain
   * loop, the verdict cascade, the guard and the final record.
   */
  method AnalyzeMatches(matches: seq<ThreatMatch>, repoName: string, totalFiles: int)
    returns (result: AnalysisResult)
    ensures result == Analyze(matches, repoName, totalFiles)
  {
    var context := DetectProjectContext(repoName, totalFiles, matches);
    var suspicious := SuspiciousMatches(matches, context);
    var dismissed := DismissedMatches(matches, context);
    var capabilities := CapabilitiesOf(suspicious);

    var rawScore := SumWeights(suspicious);
    var detected;
    detected, rawScore := AddChainBonuses(capabilities, rawScore);
    var verdict, confidence;
    verdict, confidence, rawScore := DetermineVerdict(rawScore, context, |detected| > 0);
    var assessed := Assessment(verdict, confidence, rawScore);
    assert assessed == Assess(suspicious, context);
    var finalScore := if verdict == SAFE then 0 else rawScore;
    if finalScore > 100 {
      finalScore := 100;
    }
    assert finalScore == FinalScore(assessed);
    result := Report(repoName, context, suspicious, assessed, finalScore, |dismissed|,
                     if |matches| > 0 then totalFiles else 0);
  }

  /** `suspiciousMatches.forEach(m => rawScore += CAPABILITY_WEIGHTS[m.capability] || 5)` from zero. */
  method SumWeights(suspicious: seq<ThreatMatch>) returns (rawScore: int)
    ensures rawScore == WeightSum(suspicious)
  {
    rawScore := 0;
    var i := 0;
    while i < |suspicious|
      invariant 0 <= i <= |suspicious|
      invariant rawScore == WeightSum(suspicious[..i])
    {
      assert suspicious[..i + 1][..i] == suspicious[..i];
      rawScore := rawScore + Weight(suspicious[i].capability);
      i := i + 1;
    }
    assert suspicious[..i] == suspicious;
  }

  /** The chain loop: each chain whose requirements are all present is pushed and adds its bonus. */
  method AddChainBonuses(capabilities: seq<CapabilityType>, score: int)
    returns (detected: seq<ChainKind>, rawScore: int)
    ensures detected == DetectedChains(capabilities)
    ensures rawScore == score + BonusSum(detected)
  {
    detected := [];
    rawScore := score;
    var j := 0;
    while j < |Chains|
      invariant 0 <= j <= |Chains|
      invariant detected == FiringAmong(Chains[..j], capabilities)
      invariant rawScore == score + BonusSum(detected)
    {
      var chain := Chains[j];
      var prefix := Chains[..j + 1];
      assert prefix[..j] == Chains[..j] && prefix[j] == chain;
      if ChainFires(chain, capabilities) {
        assert (detected + [chain])[..|detected|] == detected;
        detected := detected + [chain];
        rawScore := rawScore + Bonus(chain);
      }
      j := j + 1;
    }
    assert Chains[..j] == Chains;
  }

  /** Steps 5 and 6 of `analyzeMatches`: the verdict cascade, then the hallucination guard. */
  method DetermineVerdict(score: int, context: ProjectContext, chained: bool)
    returns (verdict: Verdict, confidence: int, rawScore: int)
    ensures Assessment(verdict, confidence, rawScore) == Guard(Grade(score, context.kind, chained), context, chained)
  {
    rawScore := score;
    verdict := SAFE;
    confidence := 0;
    if chained {
      verdict := MALICIOUS;
      confidence := 95;
    } else if rawScore > 60 {
      verdict := MALICIOUS;
      confidence := 85;
    } else if context.kind == SecurityResearch && rawScore > 20 {
      verdict := DUAL_USE;
      confidence := 90;
      rawScore := 30;
    } else if rawScore > 35 {
      verdict := SUSPICIOUS;
      confidence := 60;
    } else if rawScore > 10 {
      verdict := DUAL_USE;
      confidence := 40;
    } else {
      verdict := SAFE;
      confidence := 99;
    }
    var isStaticContext := context.kind == FrontendFramework ||
      StaticSiteLabel in context.detectedFrameworks || PortfolioLabel in context.detectedFrameworks;
    if isStaticContext {
      if !chained {
        verdict := SAFE;
        rawScore := 0;
        confidence := 99;
      }
    }
  }
}
