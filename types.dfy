/**
 * The records and tag enumerations shared by the scanner and the analysis engine
 * (src/types/scanner.ts), with the text each tag has in the source.
 */
module ScanTypes {

  datatype Option<T> = None | Some(value: T)

  /** Severity tiers of a rule, reused as the risk level of a result. */
  datatype Severity = Safe | Low | Medium | High | Critical

  datatype MalwareType =
    | Trojan | Backdoor | RAT | Stealer | Spyware | Cryptominer | Dropper | Loader
    | Rootkit | Worm | Adware | Ransomware | Botnet | DualUse | Benign | Suspicious

  function MalwareTypeName(t: MalwareType): string
  {
    match t
    case Trojan => "Trojan"
    case Backdoor => "Backdoor"
    case RAT => "RAT"
    case Stealer => "Stealer"
    case Spyware => "Spyware"
    case Cryptominer => "Cryptominer"
    case Dropper => "Dropper"
    case Loader => "Loader"
    case Rootkit => "Rootkit"
    case Worm => "Worm"
    case Adware => "Adware"
    case Ransomware => "Ransomware"
    case Botnet => "Botnet"
    case DualUse => "Dual-Use"
    case Benign => "Safe"
    case Suspicious => "Suspicious"
  }

  /** `primaryType`: a malware family or `'NONE'`. */
  function PrimaryTypeName(p: Option<MalwareType>): string
  {
    match p
    case None => "NONE"
    case Some(t) => MalwareTypeName(t)
  }

  datatype CapabilityType =
    | NetworkConnect | NetworkListen | FileRead | FileWrite | ProcessCreate | ProcessInject
    | Persistence | Obfuscation | CryptoMining | InfoStealing | Evasion | PrivilegeEscalation
    | CommandExec | DynamicCodeLoading

  function CapabilityName(c: CapabilityType): string
  {
    match c
    case NetworkConnect => "network_connect"
    case NetworkListen => "network_listen"
    case FileRead => "file_read"
    case FileWrite => "file_write"
    case ProcessCreate => "process_create"
    case ProcessInject => "process_inject"
    case Persistence => "persistence"
    case Obfuscation => "obfuscation"
    case CryptoMining => "crypto_mining"
    case InfoStealing => "info_stealing"
    case Evasion => "evasion"
    case PrivilegeEscalation => "privilege_escalation"
    case CommandExec => "command_exec"
    case DynamicCodeLoading => "dynamic_code_loading"
  }

  /**
   * One rule firing on one line of one file. `line` is 1-based; `ruleId` names
   * the rule by its identifier, whose text is `RuleCatalog.IdText(ruleId)`.
   */
  datatype ThreatMatch = ThreatMatch(
    ruleId: RuleId,
    severity: Severity,
    line: int,
    content: string,
    file: string,
    capability: CapabilityType,
    description: string)

  /**
   * The language tags of rules and of `EXTENSION_MAP`: `all` marks the generic
   * tier, `unknown` a file whose extension the map does not know.
   */
  datatype Language = All | JavaScript | Python | PowerShell | Bash | Go | C | Php | Batch | UnknownLanguage

  function LanguageName(l: Language): string
  {
    match l
    case All => "all"
    case JavaScript => "javascript"
    case Python => "python"
    case PowerShell => "powershell"
    case Bash => "bash"
    case Go => "go"
    case C => "c"
    case Php => "php"
    case Batch => "batch"
    case UnknownLanguage => "unknown"
  }

  /** The identifiers of the catalog rules; their text is `RuleCatalog.IdText`. */
  datatype RuleId =
    | GenIpAddr | GenDiscordWebhook | GenTelegramBot | GenPastebin | GenCryptoWallet | JsEval
    | JsChildProcess | JsObfuscationHex | JsBrowserStealer | JsProcessEnv | PyEvalExec | PySubprocess
    | PySocketBind | PyReverseShell | PyBrowserSteal | PyKeylogger | PyRansomEncrypt | PsIex
    | PsDownloadRun | PsHidden | PsAmsiBypass | BashCurlBash | BashReverseTcp | BashPersistence
    | GoExec | CInjection

  /**
   * A detection rule. The pattern is not a field, and the description is
   * `RuleCatalog.Description` of the identifier.
   */
  datatype Rule = Rule(
    id: RuleId,
    language: Language,
    severity: Severity,
    capability: CapabilityType)

  datatype ProjectType =
    | FrontendFramework | BackendFramework | CliTool | SecurityResearch | Application | Library | Unknown

  function ProjectTypeName(t: ProjectType): string
  {
    match t
    case FrontendFramework => "frontend_framework"
    case BackendFramework => "backend_framework"
    case CliTool => "cli_tool"
    case SecurityResearch => "security_research"
    case Application => "application"
    case Library => "library"
    case Unknown => "unknown"
  }

  datatype Verdict = SAFE | SUSPICIOUS | MALICIOUS | DUAL_USE

  function VerdictName(v: Verdict): string
  {
    match v
    case SAFE => "SAFE"
    case SUSPICIOUS => "SUSPICIOUS"
    case MALICIOUS => "MALICIOUS"
    case DUAL_USE => "DUAL-USE"
  }

  /** `projectContext` of a result (the optional `isPopular` is never set). */
  datatype ProjectContext = ProjectContext(kind: ProjectType, confidence: int, detectedFrameworks: seq<string>)

  datatype AnalysisResult = AnalysisResult(
    repoName: string,
    score: int,
    riskLevel: Severity,
    verdict: Verdict,
    confidence: int,
    projectContext: ProjectContext,
    primaryType: Option<MalwareType>,
    secondaryTypes: seq<MalwareType>,
    behaviors: seq<string>,
    attackChain: seq<string>,
    matches: seq<ThreatMatch>,
    explanation: string,
    scannedFiles: int)
}
