# sentinel-ai detection pipeline in Dafny

This project models the detection-and-classification core of sentinel-ai, a
browser extension that triages a source repository for malicious intent:

- **Rule catalog** (`rules.dfy`, module `RuleCatalog`): the 26 ordered
  detection rules of `src/utils/rules.ts`, each with its id, language scope,
  severity, capability tag and description.
- **Scanner** (`scanner.dfy`, module `Scanner`): `scanFile` of
  `src/utils/scanner.ts` as an imperative method with its two nested loops,
  proved equal to the function `Scan`. It covers:
  - the 2 MiB content ceiling;
  - the extension lookup (`EXTENSION_MAP`) and the rule pre-filter;
  - the split into lines and the 2000-unit line ceiling;
  - the per-file match cap, consulted before each line;
  - the trimmed 200-unit snippet;
  - the caught pattern exception.
- **Analysis engine** (`analysis.dfy`, module `Analysis`): `analyzeMatches` of
  `src/utils/analysis.ts` as a method, proved equal to the function `Analyze`.
  Its steps are methods for the scoring loop, the chain loop and the verdict
  cascade. It covers:
  - project-context inference (`detectProjectContext`);
  - file categorisation (`categorizeFile`);
  - the legitimacy filter (`isBehaviorLegitimate`);
  - capability aggregation and the weights (`CAPABILITY_WEIGHTS`);
  - chain detection (`CHAINS`);
  - the verdict cascade and the static-site guard;
  - the score cap and the risk tier (`getRiskLevel`);
  - family classification (`determineStrictType`);
  - the explanation template.
- **Pipeline** (`pipeline.dfy`, module `Pipeline`): the scan loop of
  `src/App.tsx`. It scans every file, concatenates the matches in file order,
  then analyses them with the file count.
- Shared records and tags of `src/types/scanner.ts` are in `types.dfy` (module
  `ScanTypes`).
- The JavaScript string built-ins the core relies on are in `strings.dfy`
  (module `Strings`): `split`, `pop`, `toLowerCase`, `toUpperCase`, `trim`,
  `substring`, `includes`, `endsWith`, `replace` with a string pattern, `join`,
  `slice` and number-to-text.

The proofs about these are in `scanner_facts.dfy`, `catalog_facts.dfy` and
`analysis_facts.dfy`, and at the end of `pipeline.dfy`. The main results:

- the scanner is sound and complete with respect to the rules that fire;
- its output is ordered by line, then by catalog position;
- it is a prefix-cut of the uncapped output;
- a pattern that throws counts exactly as one that does not match;
- the two legitimacy filters partition the evidence;
- verdict, score, risk tier and family agree: a clean verdict has score 0, risk
  `safe`, family `NONE`, and every other verdict a positive score;
- a repository whose retained capabilities are exactly network_connect,
  command_exec and persistence is MALICIOUS with family RAT, and a
  portfolio-like repository is SAFE whatever its evidence;
- reordering the matches, or the files of the whole pipeline, changes nothing
  in the result except the order of the retained evidence, of `behaviors` and of
  the capabilities named in the explanation;
- with this catalog, the Dropper and Stealer chains can never fire;
- a Backdoor classification needs a Python file.

Regular-expression matching is not modelled. Every scanning member takes a
parameter `test: (RuleId, string) -> TestOutcome`, which says for a rule and a
line whether its case-insensitive pattern matched, did not match, or threw.
All properties hold for every such `test`.

### Two behaviours of the code worth knowing

- **Match cap.** The per-file limit of 50 matches (`src/utils/scanner.ts:36-39`)
  is consulted only before each line, so the line that crosses it is kept whole.
  A file can therefore yield up to 49 + (number of applicable rules) matches.
  - `ScannerFacts.ScanCap` proves that bound.
  - `CatalogFacts.CapOvershoot` exhibits 60 matches for a five-line Python
    file.
- **Listener plus shell.** One socket-bind match and one shell-command match
  score `network_listen` (30) plus `command_exec` (20) = 50, which completes no
  chain and does not exceed 60. The verdict is therefore SUSPICIOUS, not
  MALICIOUS, with family Backdoor; `AnalysisFacts.BackdoorScenario` proves this.

## Model

| member | source | states |
|---|---|---|
| Strings.ContainsAt | src/utils/analysis.ts:43 | `includes` holds exactly when the fragment occurs at some index |
| Strings.ToLower | src/utils/scanner.ts:22 | lowercasing keeps the length and maps each character independently |
| Strings.ToLowerIdempotent | src/utils/analysis.ts:41 | lowercasing twice is lowercasing once |
| Strings.ToLowerConcat | src/utils/analysis.ts:41 | lowercasing distributes over concatenation |
| Strings.ToUpper | src/utils/analysis.ts:243 | uppercasing keeps the length and maps each character independently |
| Strings.Split | src/utils/scanner.ts:32 | `split` yields at least one piece and no piece contains the separator |
| Strings.JoinSplit | src/utils/scanner.ts:32 | joining the pieces of `split` with the separator gives the text back |
| Strings.SplitCount | src/utils/scanner.ts:32 | `split` yields one more piece than there are separators |
| Strings.Join | src/utils/analysis.ts:222 | `join` of no parts is empty, of one part is that part |
| Strings.LastPiece | src/utils/scanner.ts:22 | `split(sep).pop()` is a separator-free suffix, preceded by the separator unless it is the whole text |
| Strings.LastPieceSuffix | src/utils/scanner.ts:22 | the last piece of `split` is such a suffix |
| Strings.TrimStart | src/utils/scanner.ts:56 | the result is a suffix with only whitespace removed, and it does not start with whitespace |
| Strings.TrimEnd | src/utils/scanner.ts:56 | the result is a prefix with only whitespace removed, and it does not end with whitespace |
| Strings.TrimIsSlice | src/utils/scanner.ts:56 | `trim` returns a slice with only whitespace around it, with no whitespace at either end |
| Strings.TrimIdempotent | src/utils/scanner.ts:56 | trimming twice is trimming once |
| Strings.Utf16Length | src/utils/scanner.ts:17 | `length` counts between one and two UTF-16 units per character |
| Strings.Utf16LengthBmp | src/utils/scanner.ts:44 | for text in the Basic Multilingual Plane, `length` is the character count |
| Strings.Utf16Prefix | src/utils/scanner.ts:56 | `substring(0, n)` is the longest prefix of whole characters within n units |
| Strings.Utf16PrefixBmp | src/utils/scanner.ts:56 | for Basic Multilingual Plane text, `substring(0, n)` is the first n characters |
| Strings.ReplaceFirst | src/utils/analysis.ts:243 | `replace` keeps the length and leaves text without the character unchanged |
| Strings.ReplaceFirstAt | src/utils/analysis.ts:243 | `replace` changes exactly the first occurrence |
| Strings.Take | src/utils/analysis.ts:228 | `slice(0, n)` is the prefix of length min(n, length) |
| Strings.NatToString | src/utils/analysis.ts:224 | a count renders as decimal digits without a leading zero |
| Strings.NatToStringRoundTrip | src/utils/analysis.ts:224 | reading the rendered digits back gives the count |
| RuleCatalog.RuleCount | src/utils/rules.ts:3-225 | the catalog holds 26 rules |
| RuleCatalog.IdTextInjective | src/utils/rules.ts:3-225 | distinct rule ids have distinct id strings |
| RuleCatalog.RuleIdsDistinct | src/utils/rules.ts:3-225 | no two catalog entries share an id or an id string |
| RuleCatalog.RuleOrdinals | src/utils/rules.ts:3-225 | each rule sits at its declaration position |
| RuleCatalog.GenericTierFirst | src/utils/rules.ts:4-44 | the rules scoped to `all` are exactly the first five |
| RuleCatalog.SpecificLanguages | src/utils/rules.ts:46-224 | every later rule names one of JavaScript, Python, PowerShell, Bash, Go or C |
| RuleCatalog.AbsentCapabilities | src/utils/rules.ts:3-225 | no rule reports file_read, process_create, crypto_mining or privilege_escalation |
| RuleCatalog.UniqueListenerAndInjector | src/utils/rules.ts:106-224 | the only network_listen rule is `py_socket_bind` and the only process_inject rule is `c_injection`, both critical |
| RuleCatalog.SeveritiesNotSafe | src/utils/rules.ts:3-225 | no rule has severity `safe` |
| RuleCatalog.MembersReportable | src/utils/rules.ts:3-225 | the same facts as AbsentCapabilities and SeveritiesNotSafe, for catalog membership |
| RuleCatalog.MembersListener | src/utils/rules.ts:106-112 | a catalog rule with network_listen is the Python socket-bind rule |
| RuleCatalog.MembersInjector | src/utils/rules.ts:217-224 | a catalog rule with process_inject is the C injection rule |
| RuleCatalog.MembersSpecific | src/utils/rules.ts:46-224 | a catalog rule outside the generic tier names a per-language scope |
| Scanner.Extension | src/utils/scanner.ts:22 | the extension is the lowercased text after the last dot, or the whole lowercased name when there is no dot |
| Scanner.LanguageOf | src/utils/scanner.ts:23 | the language is `EXTENSION_MAP` of the lowercased extension when the map has it, and `unknown` otherwise |
| Scanner.ApplicableRules | src/utils/scanner.ts:26 | the pre-filter keeps exactly the rules scoped to `all` or to the file's language |
| Scanner.Snippet | src/utils/scanner.ts:56 | the snippet is a prefix of the trimmed line of at most 200 UTF-16 units |
| Scanner.LineMatches | src/utils/scanner.ts:47-67 | one line yields at most one match per applicable rule |
| Scanner.ScanFile | src/utils/scanner.ts:15-71 | `scanFile` returns `Scan` of the catalog, and nothing for content over 2 MiB |
| Scanner.ScanLineLoop | src/utils/scanner.ts:38-68 | the line loop, with its `break` at the cap and its `continue` on long lines, computes `ScanLines` |
| Scanner.MatchLine | src/utils/scanner.ts:47-67 | the rule loop on one line, a thrown pattern skipped, computes `LineMatches` |
| ScannerFacts.ExtensionMapLanguages | src/utils/scanner.ts:4-13 | the map never yields `all` or `unknown` |
| ScannerFacts.LanguageOfUnknown | src/utils/scanner.ts:23 | a file's language is `unknown` exactly when its extension is not in the map, and never `all` |
| ScannerFacts.LanguageOfPython | src/utils/scanner.ts:6 | a file is Python exactly when its extension is `py` |
| ScannerFacts.ApplicableRulesOrdered | src/utils/scanner.ts:26 | the pre-filter keeps the catalog order |
| ScannerFacts.RulesForInCatalogOrder | src/utils/scanner.ts:26 | the rules applied to a file are in catalog order |
| ScannerFacts.LineMatchesFacts | src/utils/scanner.ts:52-60 | a line's matches are exactly the matches of the rules whose pattern matched, carrying the line number, the file and the snippet |
| ScannerFacts.LineMatchesOrdered | src/utils/scanner.ts:47 | a line's matches follow rule order |
| ScannerFacts.LineMatchesAllFire | src/utils/scanner.ts:47-63 | when every pattern matches, a line yields one match per rule |
| ScannerFacts.AllMatchesMembers | src/utils/scanner.ts:38-68 | without the cap, a match is emitted exactly when some rule fires on some short line |
| ScannerFacts.AllMatchesOrder | src/utils/scanner.ts:38-68 | uncapped matches lie within the line range and ascend by line, then by catalog position |
| ScannerFacts.ScanLinesCut | src/utils/scanner.ts:39 | the capped loop yields an initial run of whole lines of the uncapped output |
| ScannerFacts.ScanLinesCap | src/utils/scanner.ts:39 | the capped loop yields at most 49 + (number of rules) matches, all past the 49th from one line |
| ScannerFacts.ScanIsCut | src/utils/scanner.ts:36-39 | `scanFile` returns a line-aligned prefix of the uncapped output |
| ScannerFacts.ScanSound | src/utils/scanner.ts:52-60 | every returned match comes from an applicable rule firing on a scanned line, and its line number is within 1 and the line count |
| ScannerFacts.ScanComplete | src/utils/scanner.ts:38-68 | below the cap and the size ceiling, every firing of an applicable rule on a short line is returned |
| ScannerFacts.ScanCap | src/utils/scanner.ts:36-39 | a file yields at most 49 + (applicable rules) matches |
| ScannerFacts.ScanOrdered | src/utils/scanner.ts:38-47 | returned matches ascend by line, and within a line by catalog position |
| ScannerFacts.LineMatchesIgnoresThrow | src/utils/scanner.ts:64-66 | on one line, a pattern that throws counts exactly as one that does not match |
| ScannerFacts.ScanLinesIgnoresThrow | src/utils/scanner.ts:64-66 | the same for the line loop |
| ScannerFacts.ScanIgnoresThrow | src/utils/scanner.ts:64-66 | two tests that agree on "matched" give the same scan |
| ScannerFacts.ScanFromCatalog | src/utils/scanner.ts:26 | every match copies the fields of an applicable catalog rule |
| ScannerFacts.ApplicableRunKept | src/utils/scanner.ts:26 | a run of applicable rules is kept whole by the pre-filter |
| ScannerFacts.ApplicableRunDropped | src/utils/scanner.ts:26 | a run of inapplicable rules is dropped whole |
| CatalogFacts.RuleLanguagesReachable | src/utils/scanner.ts:4-13 | every language a rule names is reachable from some extension |
| CatalogFacts.OnlyGenericRules | src/utils/scanner.ts:23-26 | a file whose language no rule names gets exactly the generic tier |
| CatalogFacts.GenericRulesApply | src/utils/scanner.ts:26 | the generic tier applies to every language |
| CatalogFacts.OtherRulesExcluded | src/utils/scanner.ts:26 | a language no rule names gets no per-language rule |
| CatalogFacts.PhpAndBatchGeneric | src/utils/scanner.ts:11-12 | `php` and `batch` files get exactly the generic tier |
| CatalogFacts.ScanCapabilities | src/utils/scanner.ts:52-60 | no scanned match reports file_read, process_create, crypto_mining or privilege_escalation, or has severity `safe` |
| CatalogFacts.ListenerNeedsPython | src/utils/rules.ts:106-112 | a network_listen match is a `py_socket_bind` match in a Python file |
| CatalogFacts.ListenerIs | src/utils/rules.ts:106-112 | the catalog's network_listen rule is `py_socket_bind` |
| CatalogFacts.InjectorNeedsC | src/utils/rules.ts:217-224 | a process_inject match is a `c_injection` match in a C file |
| CatalogFacts.InjectorIs | src/utils/rules.ts:217-224 | the catalog's process_inject rule is `c_injection` |
| CatalogFacts.PythonExtension | src/utils/scanner.ts:22-23 | `x.py` has extension `py` and language Python |
| CatalogFacts.PythonRuleCount | src/utils/scanner.ts:26 | a Python file is scanned with 12 rules |
| CatalogFacts.CapOvershoot | src/utils/scanner.ts:36-39 | five empty lines of a Python file on which every pattern matches yield 60 matches |
| Analysis.Weight | src/utils/analysis.ts:13-28 | weights range over 5 to 50; 50 exactly for process_inject and privilege_escalation, 5 exactly for file_read |
| Analysis.Bonus | src/utils/analysis.ts:30-34 | every chain bonus is at least 40 |
| Analysis.CategorizeFile | src/utils/analysis.ts:40-48 | the cascade never yields DATA |
| Analysis.DetectProjectContext | src/utils/analysis.ts:50-88 | the method, with its early return and framework pushes, computes `Context` |
| Analysis.IsBehaviorLegitimate | src/utils/analysis.ts:92-123 | UI files and portfolios always pass; otherwise a match passes exactly when a frontend project excuses it (any network_connect, process_create with `build` in the path, file_write with `dist` or `build`, info_stealing mentioning `localStorage`) or a CONFIG/BUILD file excuses it (process_create, file_read) |
| Analysis.Filter | src/utils/analysis.ts:157 | `filter` keeps exactly the accepted matches |
| Analysis.SuspiciousMatches | src/utils/analysis.ts:157 | the retained matches are exactly the input matches the filter does not excuse |
| Analysis.DismissedMatches | src/utils/analysis.ts:158 | the dismissed matches are exactly the input matches the filter excuses |
| Analysis.Distinct | src/utils/analysis.ts:161 | `Array.from(new Set(...))` has the same members and no duplicates; `Analysis.DistinctOrder` adds their first-occurrence order |
| Analysis.DistinctOrder | src/utils/analysis.ts:161 | the deduplicated list keeps the order in which each element first occurs, so with membership and no duplicates it is fixed uniquely |
| Analysis.CapabilitySeq | src/utils/analysis.ts:161 | `matches.map(m => m.capability)`: position i holds the capability of match i |
| Analysis.CapabilitiesOf | src/utils/analysis.ts:161 | the capability list holds each capability of the retained evidence exactly once, in the order in which the matches first show them (the order `behaviors` and the explanation use) |
| Analysis.WeightSum | src/utils/analysis.ts:163-164 | the weight sum lies between 5 and 50 per match |
| Analysis.FiringAmong | src/utils/analysis.ts:166-173 | a chain is detected exactly when all its required capabilities are present |
| Analysis.BonusSum | src/utils/analysis.ts:168-172 | the chain bonuses add at least 40 per detected chain |
| Analysis.Grade | src/utils/analysis.ts:176-198 | the verdict cascade, as an if-and-only-if for each verdict, with confidence 95 for a chain, 85 for a high score, 90 for an authorised security tool, 60 for SUSPICIOUS, 40 for a low score and 99 for SAFE; the score is reset to 30 exactly for the security tool and kept otherwise |
| Analysis.Guard | src/utils/analysis.ts:201-211 | a static context without a chain is forced to SAFE, 99, 0; otherwise nothing changes |
| Analysis.FinalScore | src/utils/analysis.ts:214 | the final score is zero for SAFE and otherwise the smaller of the raw score and 100 |
| Analysis.GetRiskLevel | src/utils/analysis.ts:251-257 | the risk tier is `safe` exactly at 0, `low` exactly for other scores below 25, `medium` exactly for 25..49, `high` exactly for 50..74 and `critical` exactly from 75 |
| Analysis.DetermineStrictType | src/utils/analysis.ts:127-144 | NONE exactly for SAFE; otherwise each family exactly when its evidence is present and that of every earlier family is absent, in the priority Backdoor, RAT, Stealer, Cryptominer, Dropper, Trojan (injection or a MALICIOUS fallback), Dual-Use, Suspicious |
| Analysis.ChainNames | src/utils/analysis.ts:244 | `attackChain` lists the detected chains' names in order |
| Analysis.CapabilityNames | src/utils/analysis.ts:228 | the capability list renders tag by tag |
| Analysis.Behaviors | src/utils/analysis.ts:243 | `behaviors` holds one label per capability, in order |
| Analysis.AnalyzeMatches | src/utils/analysis.ts:148-249 | the method computes `Analyze` |
| Analysis.SumWeights | src/utils/analysis.ts:163-164 | the scoring loop computes the weight sum |
| Analysis.AddChainBonuses | src/utils/analysis.ts:166-173 | the chain loop detects the firing chains in `CHAINS` order and adds their bonuses |
| Analysis.DetermineVerdict | src/utils/analysis.ts:175-211 | the verdict cascade followed by the guard |
| AnalysisFacts.FilterSplit | src/utils/analysis.ts:157-158 | a filter and its negation split the input as a multiset |
| AnalysisFacts.Partition | src/utils/analysis.ts:157-158 | retained and dismissed evidence partition the matches, in count and as multisets |
| AnalysisFacts.FilterCount | src/utils/analysis.ts:157 | `filter` keeps every copy of an accepted match and none of a rejected one |
| AnalysisFacts.FilterConcat | src/utils/analysis.ts:157 | `filter` distributes over concatenation |
| AnalysisFacts.CategorizeIgnoresCase | src/utils/analysis.ts:41 | the category does not depend on letter case |
| AnalysisFacts.EndsWithAnyAt | src/utils/analysis.ts:42 | a chain of `endsWith` tests holds exactly when one suffix matches |
| AnalysisFacts.ContainsAnyAt | src/utils/analysis.ts:43 | a chain of `includes` tests holds exactly when one fragment occurs |
| AnalysisFacts.ConfigBeforeBuild | src/utils/analysis.ts:44-45 | outside UI paths, a path naming vite or config is CONFIG, even if it is a test file |
| AnalysisFacts.ViteConfigTest | src/utils/analysis.ts:44-45 | `vite.config.test.ts` is CONFIG, not BUILD |
| AnalysisFacts.ContextCascade | src/utils/analysis.ts:50-88 | the context is never `unknown`; each kind holds exactly when its branch is the first to apply; the static branch gives application, 99, the static labels; the others give 90, 70, 85 and 40, and when no test applies the context is exactly application, 40, no labels; outside the static branch the labels are React if a tsx/jsx file occurs, then TailwindCSS if a tailwind file occurs |
| AnalysisFacts.NoEvidenceSmallRepo | src/utils/analysis.ts:59-61 | with no matches, a repository of fewer than 15 files takes the static-site branch |
| AnalysisFacts.DetectedChainsIndependent | src/utils/analysis.ts:166-173 | the chains fire independently, in `CHAINS` order |
| AnalysisFacts.FiringAmongSameSet | src/utils/analysis.ts:169 | chain detection depends only on the set of capabilities |
| AnalysisFacts.BonusMonotone | src/utils/analysis.ts:166-173 | more capabilities never lower the chain bonus |
| AnalysisFacts.WeightSumConcat | src/utils/analysis.ts:163-164 | the weight sum is additive |
| AnalysisFacts.WeightSumPermutation | src/utils/analysis.ts:163-164 | the weight sum does not depend on evidence order |
| AnalysisFacts.RawScoreMonotone | src/utils/analysis.ts:163-173 | one more retained match strictly raises the raw score |
| AnalysisFacts.ChainMeansMalicious | src/utils/analysis.ts:179-181 | a detected chain gives MALICIOUS with confidence 95 and the raw score, whatever the context |
| AnalysisFacts.AssessPositive | src/utils/analysis.ts:176-211 | every verdict other than SAFE carries a positive score |
| AnalysisFacts.AssessClean | src/utils/analysis.ts:195-209 | a SAFE verdict has confidence 99 |
| AnalysisFacts.ScoreInvariants | src/utils/analysis.ts:176-248 | the score lies within 0..100; score 0, risk `safe` and family NONE each hold exactly for SAFE, whose confidence is 99 |
| AnalysisFacts.ExplanationHeadline | src/utils/analysis.ts:220-229 | the explanation opens with "Verdict: CLEAN" exactly for a SAFE verdict |
| AnalysisFacts.AnalyzeFields | src/utils/analysis.ts:234-248 | each field of the result record comes from its step of the analysis |
| AnalysisFacts.NoEvidence | src/utils/analysis.ts:163-198 | empty retained evidence detects no chain and grades SAFE, 99, 0 |
| AnalysisFacts.NoMatches | src/utils/analysis.ts:148-249 | no matches give a SAFE, zero-score result with no evidence, no chain, family NONE and 0 files scanned |
| AnalysisFacts.StaticOverride | src/utils/analysis.ts:56-211 | a portfolio-like repository is SAFE with score 0 and all its evidence dismissed, whatever the evidence |
| AnalysisFacts.StaticLabelsPortfolio | src/utils/analysis.ts:64 | the static-site labels mark a portfolio |
| AnalysisFacts.AllDismissed | src/utils/analysis.ts:94-106 | in a portfolio context, every match is dismissed |
| AnalysisFacts.RatScenario | src/utils/analysis.ts:166-217 | retained capabilities exactly {network_connect, command_exec, persistence} give the RAT chain, MALICIOUS, 95, RAT |
| AnalysisFacts.RatEvidence | src/utils/analysis.ts:127-132 | those capabilities fire only the RAT chain and classify as RAT |
| AnalysisFacts.BackdoorScenario | src/utils/analysis.ts:176-217 | one listener and one exec match, outside security-research and static contexts, give SUSPICIOUS, 50, 60, Backdoor |
| AnalysisFacts.BackdoorEvidence | src/utils/analysis.ts:163-173 | that evidence scores 50, fires no chain and classifies as Backdoor |
| AnalysisFacts.ListenerShellEvidence | src/utils/analysis.ts:131 | a listener and an exec, and nothing else, fire no chain and classify as Backdoor |
| AnalysisFacts.ContextSameMembers | src/utils/analysis.ts:57-79 | the context depends only on which matches occur |
| AnalysisFacts.ContextPermutation | src/utils/analysis.ts:50-88 | the context does not depend on match order |
| AnalysisFacts.StrictTypeSameSet | src/utils/analysis.ts:127-144 | the family depends only on the set of capabilities |
| AnalysisFacts.FilterPermutation | src/utils/analysis.ts:157 | filtering reordered matches gives a reordering of the result |
| AnalysisFacts.SameEvidence | src/utils/analysis.ts:161-211 | reordered retained evidence gives the same assessment, chains and capability set |
| AnalysisFacts.OrderIndependent | src/utils/analysis.ts:148-249 | reordering the matches leaves context, verdict, score, confidence, risk, family and chains unchanged, and the retained evidence a reordering; `behaviors` and the explanation's capability list may change order |
| Pipeline.ScanRepository | src/App.tsx:50-57 | the loop over files concatenates each file's scan and analyses the result with the file count |
| Pipeline.ScanAllMembers | src/App.tsx:50-55 | a match is in the repository scan exactly when it is in some file's scan |
| Pipeline.ConcatMembers | src/App.tsx:50-55 | concatenated scans contain exactly the matches of the parts |
| Pipeline.ConcatAppend | src/App.tsx:53 | scanning two lists of files concatenates their scans |
| Pipeline.ScanAllReportable | src/App.tsx:50-55 | no match of a repository scan reports an absent capability or severity `safe` |
| Pipeline.ReportableOnly | src/utils/analysis.ts:127-173 | evidence without absent capabilities never yields the Dropper or Stealer chain, nor the Dropper, Stealer or Cryptominer family |
| Pipeline.OnlyRatChain | src/utils/analysis.ts:30-34 | without process_create and file_read, only the RAT chain can fire |
| Pipeline.DeadChains | src/utils/analysis.ts:30-34 | no repository scan ever reports the Dropper or Stealer chain, nor the Dropper, Stealer or Cryptominer family |
| Pipeline.BackdoorListener | src/utils/analysis.ts:131 | a Backdoor classification has a network_listen match in its input |
| Pipeline.BackdoorNeedsPython | src/utils/analysis.ts:131 | a repository classified Backdoor has a Python file |
| Pipeline.ScanAllPermutation | src/App.tsx:50-55 | reordering the files reorders the concatenated matches |
| Pipeline.FileOrderIrrelevant | src/App.tsx:50-57 | reordering the files leaves context, verdict, score, confidence, risk, family and chains unchanged, and the retained evidence a reordering; `behaviors` and the explanation's capability list may change order |

## Left out

- Regular expressions: each rule's pattern and the `i` flag are not modelled. The outcome of a pattern on a line is the parameter `test`, so every result holds for any matcher. Which patterns really match which text is therefore outside the model.
- Letter case: `toLowerCase` and `toUpperCase` change only ASCII letters. JavaScript's full Unicode case mapping, including length-changing cases, is not modelled.
- Lone surrogates: Dafny characters are Unicode scalar values. `substring(0, 200)` therefore never splits a character, and a lone surrogate left by a JavaScript cut cannot arise.
- The `category` property that `analyzeMatches` adds to each match is not stored. The filter recomputes `categorizeFile` from the file path, which gives the same value.
- Rule ids are an enumeration. `IdText` gives their source strings, and ids that are not in the catalog cannot be expressed.
- The `DATA` file category is declared but never produced (`Analysis.CategorizeFile` proves this).
- Prototype keys of `EXTENSION_MAP` are not modelled. In JavaScript, `constructor` or `__proto__` as an extension finds an inherited object, not a language string. No rule names that object, so only the generic tier applies, the same as for `unknown`. The model maps every key outside the table to `unknown`.
- Analysis.WeightSum: the `|| 5` fallback of the scoring loop is not modelled, because every weight is non-zero and the fallback cannot apply.
- `console.warn`: the warning for an over-sized file is output only and is not modelled.
- The user interface of `src/App.tsx` is not modelled:
  - fetching the repository (`src/utils/github.ts`);
  - the mock files used when fetching fails;
  - the progress counter and the delay between files.
- Out of scope:
  - the report generator (`src/utils/report.ts`);
  - the background and content scripts;
  - the build configuration.
- Analysis.AnalyzeMatches: the record assembly is shared with `Analyze` through `Report`, so the method's contract ties it to `Analyze`. Its properties are proved about `Analyze`, in `AnalysisFacts`.
- `secondaryTypes` is always empty, as in the source.
- `isPopular` in the project context is never set by the core and is not modelled.
- Numbers are unbounded integers. The scores and counts in the core stay far below 2^53, so JavaScript's floating-point number behaves the same.
