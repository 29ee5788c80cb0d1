/**
 * The scan of a whole repository as the popup runs it: every file through the
 * scanner, the matches concatenated in file order, then one analysis with the
 * number of files. What this guarantees about the catalog, the scanner and the
 * engine together: where a match comes from, the two chains that can never
 * fire, where a backdoor verdict must come from, and that the order of the
 * files does not matter.
 */
module Pipeline {
  import opened ScanTypes
  import opened RuleCatalog
  import opened Scanner
  import opened ScannerFacts
  import opened CatalogFacts
  import opened Analysis
  import opened AnalysisFacts

  /** A file of the repository: its path and its text. */
  datatype SourceFile = SourceFile(path: string, content: string)

  /** The matches of one file, as `scanFile` returns them. */
  function FileMatches(file: SourceFile, test: RegexTest): seq<ThreatMatch>
  {
    Scan(Rules, file.path, file.content, test)
  }

  /** `FileMatches` as a value, for the generic lemmas below. */
  function FileScanner(test: RegexTest): SourceFile -> seq<ThreatMatch>
  {
    file => FileMatches(file, test)
  }

  /** The per-file results of `scan`, concatenated in file order. */
  function Concat(files: seq<SourceFile>, scan: SourceFile -> seq<ThreatMatch>): seq<ThreatMatch>
  {
    if |files| == 0 then [] else Concat(files[..|files| - 1], scan) + scan(files[|files| - 1])
  }

  /** The matches of every file, in file order. */
  function ScanAll(files: seq<SourceFile>, test: RegexTest): seq<ThreatMatch>
  {
    Concat(files, FileScanner(test))
  }

  /** The loop of the popup: scan each file, append its matches, then analyse them all. */
  method ScanRepository(files: seq<SourceFile>, repoName: string, test: RegexTest) returns (result: AnalysisResult)
    ensures result == Analyze(ScanAll(files, test), repoName, |files|)
  {
    var allMatches: seq<ThreatMatch> := [];
    for i := 0 to |files|
      invariant allMatches == ScanAll(files[..i], test)
    {
      var matches := ScanFile(files[i].path, files[i].content, test);
      assert files[..i + 1][..i] == files[..i];
      assert FileScanner(test)(files[i]) == matches;
      allMatches := allMatches + matches;
    }
    assert files[..|files|] == files;
    result := AnalyzeMatches(allMatches, repoName, |files|);
  }

  // ---------------------------------------------------------------------------
  // Where a match comes from
  // ---------------------------------------------------------------------------

  /** `m` is one of the matches of `file`. */
  predicate InFile(m: ThreatMatch, file: SourceFile, test: RegexTest)
  {
    m in FileMatches(file, test)
  }

  /** A match of the repository is exactly a match of one of its files. */
  lemma {:induction false} ScanAllMembers(files: seq<SourceFile>, test: RegexTest)
    ensures forall m :: m in ScanAll(files, test) <==> exists i :: 0 <= i < |files| && InFile(m, files[i], test)
  {
    ConcatMembers(files, FileScanner(test));
  }

  lemma {:induction false} ConcatMembers(files: seq<SourceFile>, scan: SourceFile -> seq<ThreatMatch>)
    ensures forall m :: m in Concat(files, scan) <==> exists i :: 0 <= i < |files| && m in scan(files[i])
  {
    if |files| > 0 {
      var init := files[..|files| - 1];
      ConcatMembers(init, scan);
      assert files == init + [files[|files| - 1]];
      ConcatStep(init, files[|files| - 1], scan);
    }
  }

  /** One step of the membership proof: the last file's matches follow the others'. */
  lemma {:induction false} ConcatStep(init: seq<SourceFile>, last: SourceFile, scan: SourceFile -> seq<ThreatMatch>)
    requires forall m :: m in Concat(init, scan) <==> exists i :: 0 <= i < |init| && m in scan(init[i])
    ensures forall m :: m in Concat(init + [last], scan) <==>
      exists i :: 0 <= i < |init + [last]| && m in scan((init + [last])[i])
  {
    var files := init + [last];
    assert files[..|files| - 1] == init;
    assert forall i :: 0 <= i < |init| ==> files[i] == init[i];
    assert forall m :: m in Concat(files, scan) <==> m in Concat(init, scan) || m in scan(last);
  }

  /** Every match of the repository lacks the four unreported capabilities and has a severity. */
  lemma {:induction false} ScanAllReportable(files: seq<SourceFile>, test: RegexTest)
    ensures forall m :: m in ScanAll(files, test) ==> !NeverReported(m.capability) && m.severity != Safe
  {
    ScanAllMembers(files, test);
    forall m | m in ScanAll(files, test)
      ensures !NeverReported(m.capability) && m.severity != Safe
    {
      var i :| 0 <= i < |files| && InFile(m, files[i], test);
      ScanCapabilities(files[i].path, files[i].content, test);
    }
  }

  // ---------------------------------------------------------------------------
  // What the catalog allows the engine to conclude
  // ---------------------------------------------------------------------------

  /**
   * No rule reports `process_create` or `file_read`, so the dropper and stealer
   * chains never fire, and no repository is ever given the Dropper, Stealer or
   * Cryptominer family.
   */
  lemma {:induction false} DeadChains(files: seq<SourceFile>, repoName: string, test: RegexTest)
    ensures var r := Analyze(ScanAll(files, test), repoName, |files|);
      ChainName(DropperChain) !in r.attackChain && ChainName(StealerChain) !in r.attackChain
      && r.primaryType != Some(Dropper) && r.primaryType != Some(Stealer) && r.primaryType != Some(Cryptominer)
  {
    ScanAllReportable(files, test);
    ReportableOnly(ScanAll(files, test), repoName, |files|);
  }

  /** The engine's side of `DeadChains`: it holds for any matches the catalog can produce. */
  lemma {:induction false} ReportableOnly(matches: seq<ThreatMatch>, repoName: string, totalFiles: int)
    requires forall m :: m in matches ==> !NeverReported(m.capability)
    ensures var r := Analyze(matches, repoName, totalFiles);
      ChainName(DropperChain) !in r.attackChain && ChainName(StealerChain) !in r.attackChain
      && r.primaryType != Some(Dropper) && r.primaryType != Some(Stealer) && r.primaryType != Some(Cryptominer)
  {
    var context := Context(repoName, totalFiles, matches);
    var capabilities := CapabilitiesOf(SuspiciousMatches(matches, context));
    assert ProcessCreate !in capabilities && FileRead !in capabilities && CryptoMining !in capabilities;
    OnlyRatChain(capabilities);
    AnalyzeFields(matches, repoName, totalFiles);
  }

  /** Without `process_create` and `file_read`, only the RAT chain can fire. */
  lemma {:induction false} OnlyRatChain(capabilities: seq<CapabilityType>)
    requires ProcessCreate !in capabilities && FileRead !in capabilities
    ensures DetectedChains(capabilities) == if ChainFires(RatChain, capabilities) then [RatChain] else []
    ensures ChainName(DropperChain) !in ChainNames(DetectedChains(capabilities))
    ensures ChainName(StealerChain) !in ChainNames(DetectedChains(capabilities))
  {
    DetectedChainsIndependent(capabilities);
    assert ProcessCreate in Required(DropperChain) && FileRead in Required(StealerChain);
    assert ChainName(RatChain) != ChainName(DropperChain) && ChainName(RatChain) != ChainName(StealerChain);
  }

  /**
   * A Backdoor verdict needs a listening socket, and only `py_socket_bind` in a
   * Python file reports one: the repository has a Python file.
   */
  lemma {:induction false} BackdoorNeedsPython(files: seq<SourceFile>, repoName: string, test: RegexTest)
    requires Analyze(ScanAll(files, test), repoName, |files|).primaryType == Some(Backdoor)
    ensures exists i :: 0 <= i < |files| && LanguageOf(files[i].path) == Python
  {
    var m := BackdoorListener(ScanAll(files, test), repoName, |files|);
    ScanAllMembers(files, test);
    var i :| 0 <= i < |files| && InFile(m, files[i], test);
    ListenerNeedsPython(files[i].path, files[i].content, test);
  }

  /** A Backdoor family is only named when some match reports a listening socket. */
  lemma {:induction false} BackdoorListener(matches: seq<ThreatMatch>, repoName: string, totalFiles: int)
    returns (m: ThreatMatch)
    requires Analyze(matches, repoName, totalFiles).primaryType == Some(Backdoor)
    ensures m in matches && m.capability == NetworkListen
  {
    var context := Context(repoName, totalFiles, matches);
    var suspicious := SuspiciousMatches(matches, context);
    AnalyzeFields(matches, repoName, totalFiles);
    assert NetworkListen in CapabilitiesOf(suspicious);
    m :| m in suspicious && m.capability == NetworkListen;
  }

  // ---------------------------------------------------------------------------
  // The order of the files
  // ---------------------------------------------------------------------------

  lemma {:induction false} ConcatAppend(a: seq<SourceFile>, b: seq<SourceFile>, scan: SourceFile -> seq<ThreatMatch>)
    ensures Concat(a + b, scan) == Concat(a, scan) + Concat(b, scan)
    decreases |b|
  {
    if |b| == 0 {
      assert a + b == a;
    } else {
      var init := b[..|b| - 1];
      assert (a + b)[..|a + b| - 1] == a + init;
      ConcatAppend(a, init, scan);
    }
  }

  /** Scanning the files in another order gives the same matches, in another order. */
  lemma {:induction false} ScanAllPermutation(a: seq<SourceFile>, b: seq<SourceFile>, test: RegexTest)
    requires multiset(a) == multiset(b)
    ensures multiset(ScanAll(a, test)) == multiset(ScanAll(b, test))
  {
    ConcatPermutation(a, b, FileScanner(test));
  }

  lemma {:induction false} ConcatPermutation(a: seq<SourceFile>, b: seq<SourceFile>, scan: SourceFile -> seq<ThreatMatch>)
    requires multiset(a) == multiset(b)
    ensures multiset(Concat(a, scan)) == multiset(Concat(b, scan))
    decreases |a|
  {
    if |a| == 0 {
      assert |b| == |multiset(b)| == 0;
    } else {
      var init := a[..|a| - 1];
      var k := PickOut(a, b);
      ConcatPermutation(init, b[..k] + b[k + 1..], scan);
      ConcatRemove(b, k, scan);
    }
  }

  /** The last file of `a` sits somewhere in its permutation `b`; the rest are permutations too. */
  lemma {:induction false} PickOut(a: seq<SourceFile>, b: seq<SourceFile>) returns (k: int)
    requires |a| > 0 && multiset(a) == multiset(b)
    ensures 0 <= k < |b| && b[k] == a[|a| - 1]
    ensures multiset(a[..|a| - 1]) == multiset(b[..k] + b[k + 1..])
  {
    var x := a[|a| - 1];
    var init := a[..|a| - 1];
    assert a == init + [x];
    assert x in multiset(b);
    k :| 0 <= k < |b| && b[k] == x;
    var rest := b[..k] + b[k + 1..];
    assert b == b[..k] + [x] + b[k + 1..];
    assert multiset(b) == multiset(b[..k]) + multiset{x} + multiset(b[k + 1..]);
    assert multiset(rest) == multiset(b[..k]) + multiset(b[k + 1..]);
    assert multiset(a) == multiset(init) + multiset{x};
    MultisetCancel(multiset(init), multiset(rest), x);
  }

  /** Taking file `k` out of `b` takes its matches out of the concatenation. */
  lemma {:induction false} ConcatRemove(b: seq<SourceFile>, k: int, scan: SourceFile -> seq<ThreatMatch>)
    requires 0 <= k < |b|
    ensures multiset(Concat(b, scan)) == multiset(Concat(b[..k] + b[k + 1..], scan)) + multiset(scan(b[k]))
  {
    assert b == b[..k] + [b[k]] + b[k + 1..];
    ConcatAppend(b[..k] + [b[k]], b[k + 1..], scan);
    ConcatAppend(b[..k], [b[k]], scan);
    ConcatAppend(b[..k], b[k + 1..], scan);
    assert Concat([b[k]], scan) == scan(b[k]) by {
      assert [b[k]][..0] == [];
    }
  }

  /**
   * The order in which the files are scanned changes neither the context, the
   * verdict, the score, the confidence, the risk tier, the family nor the chains.
   */
  lemma {:induction false} FileOrderIrrelevant(a: seq<SourceFile>, b: seq<SourceFile>, repoName: string, test: RegexTest)
    requires multiset(a) == multiset(b)
    ensures var ra, rb := Analyze(ScanAll(a, test), repoName, |a|), Analyze(ScanAll(b, test), repoName, |b|);
      ra.projectContext == rb.projectContext && ra.verdict == rb.verdict && ra.score == rb.score
      && ra.confidence == rb.confidence && ra.riskLevel == rb.riskLevel && ra.primaryType == rb.primaryType
      && ra.attackChain == rb.attackChain && ra.scannedFiles == rb.scannedFiles
      && multiset(ra.matches) == multiset(rb.matches)
  {
    assert |a| == |multiset(a)| == |b|;
    ScanAllPermutation(a, b, test);
    OrderIndependent(ScanAll(a, test), ScanAll(b, test), repoName, |a|);
  }
}
