/** The module record the lateral-movement composers and the DTO projection
    work on, and the `main_menu` collaborators they call, as oracles. */
module ModuleModels {
  import opened Wrappers
  import opened Text

  datatype Author = Author(name: string, handle: string, link: string)

  /** One entry of a module's `options` list. */
  datatype ModuleOption = ModuleOption(
    name: string,
    description: string,
    required: bool,
    value: string,
    strict: bool,
    suggestedValues: seq<string>,
    kind: Option<string>)

  /** `EmpireModule`: the declared metadata of a module. */
  datatype EmpireModule = EmpireModule(
    name: string,
    enabled: bool,
    authors: seq<Author>,
    description: string,
    background: bool,
    language: string,
    minLanguageVersion: Option<string>,
    needsAdmin: bool,
    opsecSafe: bool,
    techniques: seq<string>,
    software: Option<string>,
    tactics: seq<string>,
    comments: seq<string>,
    options: seq<ModuleOption>,
    scriptPath: Option<string>)

  /** A stored credential, each field already in its `str(...)` form. */
  datatype Credential = Credential(domain: string, username: string, password: string)

  /** The keyword arguments of `stagers.generate_launcher`. */
  datatype LauncherRequest = LauncherRequest(
    listenerName: string,
    language: string,
    encode: bool,
    obfuscate: bool,
    obfuscationCommand: string,
    userAgent: string,
    proxy: string,
    proxyCreds: string,
    bypasses: string)

  /** The `(script, err)` pair of `modulesv2.get_module_source`. */
  datatype SourceFetch = SourceFetch(script: string, err: Option<string>)

  /** The collaborators reached through `main_menu`. */
  datatype MainMenu = MainMenu(
    isCredentialValid: string -> bool,
    getCredential: string -> Credential,
    isListenerValid: string -> bool,
    generateLauncher: LauncherRequest -> string,
    getModuleSource: (Option<string>, bool, string) -> SourceFetch,
    finalizeModule: (string, string, bool, string) -> string)

  /** `params["Obfuscate"].lower() == "true"`. */
  predicate ObfuscateFlag(value: string) {
    Lower(value) == "true"
  }

  /** `params`: the module's option values, a dictionary the caller keeps
      and the composer may write into. */
  class Params {
    var values: map<string, string>

    constructor (values: map<string, string>)
      ensures this.values == values
    {
      this.values := values;
    }
  }

  // Messages of the error path. A long literal is written in two pieces so
  // that the verifier can tell messages apart by their first characters.
  const ListenerOrCommandRequired: string := "[!] Listener or Command required"
  const ListenerAndCommandExclusive: string := "[!] Cannot use Listener" + " and Command at the same time"

  function InvalidListener(name: string): string {
    "[!] Invalid listener: " + name
  }

  /** The shared opening check: exactly one of a listener name and a command
      must be given. */
  function SelectionError(listener: string, command: string): (r: Option<string>)
    ensures r == Some(ListenerOrCommandRequired) <==> listener == [] && command == []
    ensures r == Some(ListenerAndCommandExclusive) <==> listener != [] && command != []
    ensures r.None? <==> (listener == []) != (command == [])
  {
    assert ListenerOrCommandRequired[4] == 'L' && ListenerAndCommandExclusive[4] == 'C';
    if listener == "" && command == "" then Some(ListenerOrCommandRequired)
    else if listener != "" && command != "" then Some(ListenerAndCommandExclusive)
    else None
  }

  /** The launcher request both composers send: a PowerShell, encoded
      launcher for the named listener, with the staging options taken from
      `params`. */
  function LauncherRequestFor(params: map<string, string>, listener: string): (r: LauncherRequest)
    requires {"UserAgent", "Proxy", "ProxyCreds", "Obfuscate", "ObfuscateCommand", "Bypasses"} <= params.Keys
    ensures r.listenerName == listener && r.language == "powershell" && r.encode
    ensures r.obfuscate <==> Lower(params["Obfuscate"]) == "true"
    ensures r.userAgent == params["UserAgent"] && r.proxy == params["Proxy"] && r.proxyCreds == params["ProxyCreds"]
    ensures r.obfuscationCommand == params["ObfuscateCommand"] && r.bypasses == params["Bypasses"]
  {
    LauncherRequest(listener, "powershell", true, ObfuscateFlag(params["Obfuscate"]), params["ObfuscateCommand"],
      params["UserAgent"], params["Proxy"], params["ProxyCreds"], params["Bypasses"])
  }
}
