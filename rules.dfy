/**
 * The static, ordered detection-rule table (src/utils/rules.ts). Each rule's
 * regular expression is not part of the record: the scanner receives the
 * outcome of testing a rule against a line as a parameter (see module Scanner).
 */
module RuleCatalog {
  import opened ScanTypes

  const Rules: seq<Rule> := [
    // Generic tier: every language
    Rule(GenIpAddr, All, Medium, NetworkConnect),
    Rule(GenDiscordWebhook, All, High, InfoStealing),
    Rule(GenTelegramBot, All, High, InfoStealing),
    Rule(GenPastebin, All, Medium, DynamicCodeLoading),
    Rule(GenCryptoWallet, All, Medium, InfoStealing),
    // JavaScript / TypeScript
    Rule(JsEval, JavaScript, High, DynamicCodeLoading),
    Rule(JsChildProcess, JavaScript, Medium, CommandExec),
    Rule(JsObfuscationHex, JavaScript, Medium, Obfuscation),
    Rule(JsBrowserStealer, JavaScript, Low, InfoStealing),
    Rule(JsProcessEnv, JavaScript, Low, InfoStealing),
    // Python
    Rule(PyEvalExec, Python, High, DynamicCodeLoading),
    Rule(PySubprocess, Python, Medium, CommandExec),
    Rule(PySocketBind, Python, Critical, NetworkListen),
    Rule(PyReverseShell, Python, High, NetworkConnect),
    Rule(PyBrowserSteal, Python, Critical, InfoStealing),
    Rule(PyKeylogger, Python, High, InfoStealing),
    Rule(PyRansomEncrypt, Python, High, FileWrite),
    // PowerShell
    Rule(PsIex, PowerShell, Critical, DynamicCodeLoading),
    Rule(PsDownloadRun, PowerShell, Critical, NetworkConnect),
    Rule(PsHidden, PowerShell, High, Evasion),
    Rule(PsAmsiBypass, PowerShell, Critical, Evasion),
    // Bash / shell
    Rule(BashCurlBash, Bash, Critical, DynamicCodeLoading),
    Rule(BashReverseTcp, Bash, Critical, NetworkConnect),
    Rule(BashPersistence, Bash, Medium, Persistence),
    // Go
    Rule(GoExec, Go, Medium, CommandExec),
    // C / C++
    Rule(CInjection, C, Critical, ProcessInject)
  ]

  /** The position of a rule's identifier in the catalog. */
  function Ordinal(id: RuleId): nat
  {
    match id
    case GenIpAddr => 0
    case GenDiscordWebhook => 1
    case GenTelegramBot => 2
    case GenPastebin => 3
    case GenCryptoWallet => 4
    case JsEval => 5
    case JsChildProcess => 6
    case JsObfuscationHex => 7
    case JsBrowserStealer => 8
    case JsProcessEnv => 9
    case PyEvalExec => 10
    case PySubprocess => 11
    case PySocketBind => 12
    case PyReverseShell => 13
    case PyBrowserSteal => 14
    case PyKeylogger => 15
    case PyRansomEncrypt => 16
    case PsIex => 17
    case PsDownloadRun => 18
    case PsHidden => 19
    case PsAmsiBypass => 20
    case BashCurlBash => 21
    case BashReverseTcp => 22
    case BashPersistence => 23
    case GoExec => 24
    case CInjection => 25
  }

  /** The identifier text of a rule. */
  function IdText(id: RuleId): string
  {
    match id
    case GenIpAddr => "gen_ip_addr"
    case GenDiscordWebhook => "gen_discord_webhook"
    case GenTelegramBot => "gen_telegram_bot"
    case GenPastebin => "gen_pastebin"
    case GenCryptoWallet => "gen_crypto_wallet"
    case JsEval => "js_eval"
    case JsChildProcess => "js_child_process"
    case JsObfuscationHex => "js_obfuscation_hex"
    case JsBrowserStealer => "js_browser_stealer"
    case JsProcessEnv => "js_process_env"
    case PyEvalExec => "py_eval_exec"
    case PySubprocess => "py_subprocess"
    case PySocketBind => "py_socket_bind"
    case PyReverseShell => "py_reverse_shell"
    case PyBrowserSteal => "py_browser_steal"
    case PyKeylogger => "py_keylogger"
    case PyRansomEncrypt => "py_ransom_encrypt"
    case PsIex => "ps_iex"
    case PsDownloadRun => "ps_download_run"
    case PsHidden => "ps_hidden"
    case PsAmsiBypass => "ps_amsi_bypass"
    case BashCurlBash => "bash_curl_bash"
    case BashReverseTcp => "bash_reverse_tcp"
    case BashPersistence => "bash_persistence"
    case GoExec => "go_exec"
    case CInjection => "c_injection"
  }

  /** The description a rule attaches to its matches. */
  function Description(id: RuleId): string
  {
    match id
    case GenIpAddr => "Hardcoded public IP address. Potential C2 communication."
    case GenDiscordWebhook => "Discord Webhook URL found. Common in stealers for exfiltration."
    case GenTelegramBot => "Telegram Bot API. Common for C2 or exfiltration."
    case GenPastebin => "Reference to raw code hosting sites. Often used for payload downloading (Droppers)."
    case GenCryptoWallet => "References to crypto wallets."
    case JsEval => "Usage of eval(). Allows arbitrary code execution."
    case JsChildProcess => "Executing system commands via child_process."
    case JsObfuscationHex => "Hex string obfuscation detected."
    case JsBrowserStealer => "Accessing local storage. Could be stealing tokens."
    case JsProcessEnv => "Accessing environment variables. Check if used to steal secrets."
    case PyEvalExec => "Dynamic code execution via eval/exec."
    case PySubprocess => "Spawning shell commands."
    case PySocketBind => "Binding to 0.0.0.0. Evidence of a listener/backdoor."
    case PyReverseShell => "Potential reverse shell code."
    case PyBrowserSteal => "Accessing browser SQLite DBs or decrypting passwords (Stealer)."
    case PyKeylogger => "Keylogging library usage detected."
    case PyRansomEncrypt => "Looping through files and encrypting them (Ransomware behavior)."
    case PsIex => "Invoke-Expression (IEX) is a hallmark of fileless malware."
    case PsDownloadRun => "Download and Execute chain in a single line."
    case PsHidden => "Attempting to hide the PowerShell window."
    case PsAmsiBypass => "Attempting to bypass AMSI (Anti-Malware Scan Interface)."
    case BashCurlBash => "Piping web content to shell (Dropper)."
    case BashReverseTcp => "Bash reverse shell via /dev/tcp."
    case BashPersistence => "Modifying startup files for persistence."
    case GoExec => "Executing system commands."
    case CInjection => "Windows API usage for Process Injection."
  }

  const RuleLanguages: set<Language> := {JavaScript, Python, PowerShell, Bash, Go, C}

  /** A rule of the generic tier applies to files of every language. */
  predicate IsGeneric(r: Rule)
  {
    r.language == All
  }

  /** Capabilities that no rule of the catalog reports. */
  predicate NeverReported(c: CapabilityType)
  {
    c == FileRead || c == ProcessCreate || c == CryptoMining || c == PrivilegeEscalation
  }

  lemma {:induction false} RuleCount()
    ensures |Rules| == 26
  {
  }

  /** Distinct identifiers have distinct text. */
  lemma {:induction false} IdTextInjective()
    ensures forall a, b :: IdText(a) == IdText(b) ==> a == b
  {
  }

  /** Rule identifiers, and so their texts, are pairwise distinct. */
  lemma {:induction false} RuleIdsDistinct()
    ensures forall i, j :: 0 <= i < j < |Rules| ==> Rules[i].id != Rules[j].id
    ensures forall i, j :: 0 <= i < j < |Rules| ==> IdText(Rules[i].id) != IdText(Rules[j].id)
  {
    RuleOrdinals();
    IdTextInjective();
  }

  /** The rules are listed in the order of their identifiers. */
  lemma {:induction false} RuleOrdinals()
    ensures forall i :: 0 <= i < |Rules| ==> Ordinal(Rules[i].id) == i
  {
    FirstOrdinals();
    LastOrdinals();
  }

  lemma {:induction false} FirstOrdinals()
    ensures forall i :: 0 <= i < 13 ==> Ordinal(Rules[i].id) == i
  {
  }

  lemma {:induction false} LastOrdinals()
    ensures forall i :: 13 <= i < |Rules| ==> Ordinal(Rules[i].id) == i
  {
  }

  /** The first five rules form the generic tier; no later rule is generic. */
  lemma {:induction false} GenericTierFirst()
    ensures forall i :: 0 <= i < |Rules| ==> (IsGeneric(Rules[i]) <==> i < 5)
  {
  }

  /** Every per-language rule names one of six languages. */
  lemma {:induction false} SpecificLanguages()
    ensures forall i :: 5 <= i < |Rules| ==> Rules[i].language in RuleLanguages
  {
  }

  /** No rule reports reading files, spawning processes, mining or escalating privileges. */
  lemma {:induction false} AbsentCapabilities()
    ensures forall i :: 0 <= i < |Rules| ==> !NeverReported(Rules[i].capability)
  {
  }

  /** `py_socket_bind` is the only listener rule and `c_injection` the only injection rule. */
  lemma {:induction false} UniqueListenerAndInjector()
    ensures forall i :: 0 <= i < |Rules| && Rules[i].capability == NetworkListen ==>
      Rules[i] == Rule(PySocketBind, Python, Critical, NetworkListen)
    ensures forall i :: 0 <= i < |Rules| && Rules[i].capability == ProcessInject ==>
      Rules[i] == Rule(CInjection, C, Critical, ProcessInject)
  {
  }

  /** No rule has severity `safe`. */
  lemma {:induction false} SeveritiesNotSafe()
    ensures forall i :: 0 <= i < |Rules| ==> Rules[i].severity != Safe
  {
  }

  // The same facts stated for members of the table rather than for positions in it.

  lemma {:induction false} MembersReportable()
    ensures forall r :: r in Rules ==> !NeverReported(r.capability) && r.severity != Safe
  {
    AbsentCapabilities();
    SeveritiesNotSafe();
    forall r | r in Rules
      ensures !NeverReported(r.capability) && r.severity != Safe
    {
      var i :| 0 <= i < |Rules| && Rules[i] == r;
    }
  }

  lemma {:induction false} MembersListener()
    ensures forall r :: r in Rules && r.capability == NetworkListen ==>
      r == Rule(PySocketBind, Python, Critical, NetworkListen)
  {
    UniqueListenerAndInjector();
    forall r | r in Rules && r.capability == NetworkListen
      ensures r == Rule(PySocketBind, Python, Critical, NetworkListen)
    {
      var i :| 0 <= i < |Rules| && Rules[i] == r;
    }
  }

  lemma {:induction false} MembersInjector()
    ensures forall r :: r in Rules && r.capability == ProcessInject ==>
      r == Rule(CInjection, C, Critical, ProcessInject)
  {
    UniqueListenerAndInjector();
    forall r | r in Rules && r.capability == ProcessInject
      ensures r == Rule(CInjection, C, Critical, ProcessInject)
    {
      var i :| 0 <= i < |Rules| && Rules[i] == r;
    }
  }

  lemma {:induction false} MembersSpecific()
    ensures forall r :: r in Rules && !IsGeneric(r) ==> r.language in RuleLanguages
  {
    SpecificLanguages();
    GenericTierFirst();
    forall r | r in Rules && !IsGeneric(r)
      ensures r.language in RuleLanguages
    {
      var i :| 0 <= i < |Rules| && Rules[i] == r;
    }
  }
}
