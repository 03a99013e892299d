/** `invoke_psremoting`: runs a stager launcher, or a given command, on remote
    hosts through `Invoke-Command`, optionally with a stored credential. */
module InvokePsRemoting {
  import opened Wrappers
  import opened Text
  import opened ModuleModels

  /** The option keys `generate` reads. */
  const ReadKeys: set<string> := {"Listener", "Command", "UserAgent", "Proxy", "ProxyCreds", "Obfuscate",
    "ObfuscateCommand", "CredID", "Bypasses", "ComputerName", "UserName", "Password"}

  const CredIdInvalid: string := "[!] CredID is invalid!"
  const LauncherFailed: string := "[!] Error creating launcher"

  /** `command.replace('"', '`"')`: every double quote gets a backtick in
      front of it, in one pass; the text grows by one per quote. */
  function EscapeQuotes(command: string): (r: string)
    ensures |r| == |command| + Count(command, '"')
  {
    ReplaceLength(command, '"', "`\"");
    ReplaceChar(command, '"', "`\"")
  }

  /** Reading PowerShell's backtick escape back: `` `" `` becomes `"`. */
  function UnescapeQuotes(s: string): string
    decreases |s|
  {
    if s == [] then []
    else if |s| >= 2 && s[0] == '`' && s[1] == '"' then "\"" + UnescapeQuotes(s[2..])
    else [s[0]] + UnescapeQuotes(s[1..])
  }

  /** An escaped text never starts with a bare quote. */
  lemma EscapedHead(s: string)
    ensures EscapeQuotes(s) == [] || EscapeQuotes(s)[0] != '"'
  {
  }

  /** Escaping loses nothing: unescaping gives the command back. */
  lemma {:induction false} UnescapeEscape(s: string)
    ensures UnescapeQuotes(EscapeQuotes(s)) == s
  {
    if s != [] {
      var e := EscapeQuotes(s[1..]);
      UnescapeEscape(s[1..]);
      if s[0] == '"' {
        var t := "`\"" + e;
        assert EscapeQuotes(s) == t;
        assert t[2..] == e;
        assert UnescapeQuotes(t) == "\"" + UnescapeQuotes(e);
        assert s == "\"" + s[1..];
      } else {
        var t := [s[0]] + e;
        assert EscapeQuotes(s) == t;
        assert t[1..] == e;
        EscapedHead(s[1..]);
        assert UnescapeQuotes(t) == [s[0]] + UnescapeQuotes(e);
        assert s == [s[0]] + s[1..];
      }
    }
  }

  /** Every quote of the escaped text is preceded by a backtick. */
  lemma {:induction false} EscapedQuotesPreceded(s: string)
    ensures forall i :: 0 <= i < |EscapeQuotes(s)| && EscapeQuotes(s)[i] == '"' ==> 0 < i && EscapeQuotes(s)[i - 1] == '`'
  {
    if s != [] {
      EscapedQuotesPreceded(s[1..]);
      var e := EscapeQuotes(s[1..]);
      var h := if s[0] == '"' then "`\"" else [s[0]];
      assert EscapeQuotes(s) == h + e;
      forall i | 0 <= i < |h + e| && (h + e)[i] == '"' ensures 0 < i && (h + e)[i - 1] == '`' {
        if i >= |h| {
          assert (h + e)[i] == e[i - |h|];
          EscapedHead(s[1..]);
          if i == |h| {
            assert false;
          }
          assert (h + e)[i - 1] == e[i - 1 - |h|];
        }
      }
    }
  }

  function Quote(s: string): string {
    "\"" + s + "\""
  }

  function QuoteAll(parts: seq<string>): (r: seq<string>)
    ensures |r| == |parts|
    ensures forall i :: 0 <= i < |parts| ==> r[i] == Quote(parts[i])
  {
    if parts == [] then [] else [Quote(parts[0])] + QuoteAll(parts[1..])
  }

  /** `'"' + '","'.join(names.split(",")) + '"'`. */
  function ComputerNames(computerName: string): string {
    "\"" + Join(Split(computerName, ","), "\",\"") + "\""
  }

  lemma {:induction false} QuotedJoin(parts: seq<string>)
    requires |parts| >= 1
    ensures "\"" + Join(parts, "\",\"") + "\"" == Join(QuoteAll(parts), ",")
  {
    if |parts| == 1 {
      assert QuoteAll(parts) == [Quote(parts[0])];
    } else {
      QuotedJoin(parts[1..]);
      var rest := Join(parts[1..], "\",\"");
      assert QuoteAll(parts)[1..] == QuoteAll(parts[1..]);
      calc {
        "\"" + Join(parts, "\",\"") + "\"";
        "\"" + (parts[0] + "\",\"" + rest) + "\"";
        Quote(parts[0]) + "," + ("\"" + rest + "\"");
        Join(QuoteAll(parts), ",");
      }
    }
  }

  /** The host list is each comma-separated entry of `ComputerName`, in
      order, wrapped in double quotes and joined by commas. */
  lemma ComputerNamesQuoted(computerName: string)
    ensures ComputerNames(computerName) == Join(QuoteAll(Split(computerName, ",")), ",")
    ensures forall h :: h in Split(computerName, ",") ==> ',' !in h
  {
    QuotedJoin(Split(computerName, ","));
    SplitCharFree(computerName, ',');
  }

  const CredentialMiddle: string :=
    "\" | ConvertTo-SecureString -asPlainText -Force;$Credential = New-Object System.Management.Automation.PSCredential(\""

  /** The PowerShell statements that build `$Credential` from the password
      and the user name. */
  function CredentialPrefix(password: string, userName: string): string {
    "$PSPassword = \"" + password + CredentialMiddle + userName + "\",$PSPassword);"
  }

  const CredentialSuffix: string := " -Credential $Credential"

  function ExecutedTail(names: string): string {
    ";'Invoke-PSRemoting executed on " + names + "'"
  }

  function InvokeCommand(names: string, launcher: string): string {
    "Invoke-Command " + " -ComputerName @(" + names + ")" + " -ScriptBlock {" + launcher + "}"
  }

  predicate HasCredential(params: map<string, string>)
    requires {"UserName", "Password"} <= params.Keys
  {
    params["UserName"] != "" && params["Password"] != ""
  }

  /** The script handed to `finalize_module`. */
  function RemotingScript(params: map<string, string>, launcher: string): string
    requires {"ComputerName", "UserName", "Password"} <= params.Keys
  {
    var names := ComputerNames(params["ComputerName"]);
    ScriptFor(params, names, launcher)
  }

  function ScriptFor(params: map<string, string>, names: string, launcher: string): string
    requires {"UserName", "Password"} <= params.Keys
  {
    var call := InvokeCommand(names, launcher);
    var withCredential :=
      if HasCredential(params) then CredentialPrefix(params["Password"], params["UserName"]) + call + CredentialSuffix
      else call;
    withCredential + ExecutedTail(names)
  }

  /** `params` after a stored credential has been resolved into it. */
  function WithCredential(params: map<string, string>, cred: Credential): (r: map<string, string>)
    ensures r.Keys == params.Keys + {"UserName", "Password"}
    ensures r["UserName"] == cred.domain + "\\" + cred.username && r["Password"] == cred.password
    ensures forall k :: k in params && k != "UserName" && k != "Password" ==> r[k] == params[k]
  {
    params["UserName" := cred.domain + "\\" + cred.username]["Password" := cred.password]
  }

  /** What `generate` returns, together with `params` as the caller sees it
      afterwards. */
  function Generation(menu: MainMenu, params: map<string, string>, obfuscate: bool, obfuscationCommand: string)
    : (r: (Result<string>, map<string, string>))
    requires ReadKeys <= params.Keys
    ensures r.1.Keys == params.Keys
  {
    var listener := params["Listener"];
    var command := params["Command"];
    var credId := params["CredID"];
    if SelectionError(listener, command).Some? then (Err(SelectionError(listener, command).value), params)
    else if credId != "" && !menu.isCredentialValid(credId) then (Err(CredIdInvalid), params)
    else
      var p := if credId != "" then WithCredential(params, menu.getCredential(credId)) else params;
      if !menu.isListenerValid(listener) && command == "" then (Err(InvalidListener(listener)), p)
      else if listener != "" then
        var launcher := menu.generateLauncher(LauncherRequestFor(p, listener));
        if launcher == "" then (Err(LauncherFailed), p)
        else (Ok(menu.finalizeModule(RemotingScript(p, launcher), "", obfuscate, obfuscationCommand)), p)
      else (Ok(menu.finalizeModule(RemotingScript(p, EscapeQuotes(command)), "", obfuscate, obfuscationCommand)), p)
  }

  /** `Module.generate`. A resolved credential is written into the caller's
      `params`, and stays there even when a later check fails. */
  method Generate(menu: MainMenu, empireModule: EmpireModule, params: Params, obfuscate: bool, obfuscationCommand: string)
    returns (r: Result<string>)
    requires ReadKeys <= params.values.Keys
    modifies params
    ensures (r, params.values) == Generation(menu, old(params.values), obfuscate, obfuscationCommand)
  {
    var listenerName := params.values["Listener"];
    var command := params.values["Command"];
    var userAgent := params.values["UserAgent"];
    var proxy := params.values["Proxy"];
    var proxyCreds := params.values["ProxyCreds"];
    var launcherObfuscate: bool;
    if Lower(params.values["Obfuscate"]) == "true" {
      launcherObfuscate := true;
    } else {
      launcherObfuscate := false;
    }
    var launcherObfuscateCommand := params.values["ObfuscateCommand"];

    if listenerName == "" && command == "" {
      return Err(ListenerOrCommandRequired);
    }
    if listenerName != "" && command != "" {
      return Err(ListenerAndCommandExclusive);
    }

    var credId := params.values["CredID"];
    if credId != "" {
      if !menu.isCredentialValid(credId) {
        return Err(CredIdInvalid);
      }
      var cred := menu.getCredential(credId);
      params.values := params.values["UserName" := cred.domain + "\\" + cred.username];
      params.values := params.values["Password" := cred.password];
    }

    var launcher: string;
    if !menu.isListenerValid(listenerName) && command == "" {
      return Err(InvalidListener(listenerName));
    } else if listenerName != "" {
      launcher := menu.generateLauncher(LauncherRequest(listenerName, "powershell", true, launcherObfuscate,
        launcherObfuscateCommand, userAgent, proxy, proxyCreds, params.values["Bypasses"]));
      if launcher == "" {
        return Err(LauncherFailed);
      }
    } else {
      launcher := EscapeQuotes(command);
    }

    var script := ComposeScript(params.values, launcher);
    script := menu.finalizeModule(script, "", obfuscate, obfuscationCommand);
    return Ok(script);
  }

  /** The execution string built onto `Invoke-Command`: hosts, script block,
      the credential when both parts of it are set, and the closing report. */
  method ComposeScript(params: map<string, string>, launcher: string) returns (script: string)
    requires {"ComputerName", "UserName", "Password"} <= params.Keys
    ensures script == RemotingScript(params, launcher)
  {
    script := "Invoke-Command ";
    var computerNames := ComputerNames(params["ComputerName"]);
    script := script + " -ComputerName @(" + computerNames + ")";
    script := script + " -ScriptBlock {" + launcher + "}";

    if params["UserName"] != "" && params["Password"] != "" {
      script := CredentialPrefix(params["Password"], params["UserName"]) + script + CredentialSuffix;
    }

    script := script + ExecutedTail(computerNames);

    return script;
  }

  /** The two selection errors, each exactly when its condition holds. */
  lemma SelectionErrors(menu: MainMenu, params: map<string, string>, obfuscate: bool, obfuscationCommand: string)
    requires ReadKeys <= params.Keys
    ensures var r := Generation(menu, params, obfuscate, obfuscationCommand).0;
      (r == Err(ListenerOrCommandRequired) <==> params["Listener"] == [] && params["Command"] == []) &&
      (r == Err(ListenerAndCommandExclusive) <==> params["Listener"] != [] && params["Command"] != [])
  {
    assert ListenerOrCommandRequired[4] == 'L' && ListenerAndCommandExclusive[4] == 'C';
    assert ListenerAndCommandExclusive[5] == 'a' && CredIdInvalid[4] == 'C' && CredIdInvalid[5] == 'r';
    assert InvalidListener(params["Listener"])[4] == 'I' && LauncherFailed[4] == 'E';
  }

  /** Once the selection is sound, a non-empty CredID fails exactly when the
      credential is unknown, before the listener or launcher oracles are
      asked: replacing them changes nothing. */
  lemma CredentialRejected(menu: MainMenu, params: map<string, string>, obfuscate: bool, obfuscationCommand: string,
    isListenerValid: string -> bool, generateLauncher: LauncherRequest -> string)
    requires ReadKeys <= params.Keys
    requires SelectionError(params["Listener"], params["Command"]).None? && params["CredID"] != ""
    ensures Generation(menu, params, obfuscate, obfuscationCommand).0 == Err(CredIdInvalid)
      <==> !menu.isCredentialValid(params["CredID"])
    ensures !menu.isCredentialValid(params["CredID"]) ==>
      Generation(menu.(isListenerValid := isListenerValid, generateLauncher := generateLauncher), params, obfuscate, obfuscationCommand)
      == Generation(menu, params, obfuscate, obfuscationCommand)
  {
    assert CredIdInvalid[4] == 'C';
    assert InvalidListener(params["Listener"])[4] == 'I' && LauncherFailed[4] == 'E';
  }

  /** The caller's `params` change only by a resolved credential. */
  lemma CredentialWritten(menu: MainMenu, params: map<string, string>, obfuscate: bool, obfuscationCommand: string)
    requires ReadKeys <= params.Keys
    ensures var after := Generation(menu, params, obfuscate, obfuscationCommand).1;
      var credId := params["CredID"];
      if SelectionError(params["Listener"], params["Command"]).None? && credId != "" && menu.isCredentialValid(credId) then
        after["UserName"] == menu.getCredential(credId).domain + "\\" + menu.getCredential(credId).username &&
        after["Password"] == menu.getCredential(credId).password &&
        forall k :: k in params && k != "UserName" && k != "Password" ==> after[k] == params[k]
      else after == params
  {
  }

  /** With the selection and the credential sound, an unknown listener is
      reported exactly when no command was given. */
  lemma ListenerRejected(menu: MainMenu, params: map<string, string>, obfuscate: bool, obfuscationCommand: string)
    requires ReadKeys <= params.Keys
    requires SelectionError(params["Listener"], params["Command"]).None?
    requires params["CredID"] == [] || menu.isCredentialValid(params["CredID"])
    ensures Generation(menu, params, obfuscate, obfuscationCommand).0 == Err(InvalidListener(params["Listener"]))
      <==> !menu.isListenerValid(params["Listener"]) && params["Command"] == []
  {
    assert InvalidListener(params["Listener"])[4] == 'I' && LauncherFailed[4] == 'E';
  }

  /** On the listener path an empty launcher is the only launcher failure,
      and otherwise the finalised script is returned verbatim. */
  lemma ListenerPath(menu: MainMenu, params: map<string, string>, obfuscate: bool, obfuscationCommand: string)
    requires ReadKeys <= params.Keys
    requires SelectionError(params["Listener"], params["Command"]).None?
    requires params["CredID"] == [] || menu.isCredentialValid(params["CredID"])
    requires params["Listener"] != [] && menu.isListenerValid(params["Listener"])
    ensures var (r, after) := Generation(menu, params, obfuscate, obfuscationCommand);
      var launcher := menu.generateLauncher(LauncherRequestFor(after, params["Listener"]));
      (r == Err(LauncherFailed) <==> launcher == []) &&
      (launcher != [] ==> r == Ok(menu.finalizeModule(RemotingScript(after, launcher), "", obfuscate, obfuscationCommand)))
  {
  }

  /** On the command path the script block is the escaped command. */
  lemma CommandPath(menu: MainMenu, params: map<string, string>, obfuscate: bool, obfuscationCommand: string)
    requires ReadKeys <= params.Keys
    requires params["Listener"] == [] && params["Command"] != []
    requires params["CredID"] == [] || menu.isCredentialValid(params["CredID"])
    ensures var (r, after) := Generation(menu, params, obfuscate, obfuscationCommand);
      r == Ok(menu.finalizeModule(RemotingScript(after, EscapeQuotes(params["Command"])), "", obfuscate, obfuscationCommand))
  {
  }

  /** The credential prefix opens the script exactly when both
      `UserName` and `Password` are set. */
  lemma CredentialPrefixIff(params: map<string, string>, launcher: string)
    requires {"ComputerName", "UserName", "Password"} <= params.Keys
    ensures StartsWith(RemotingScript(params, launcher), "$PSPassword = \"" + params["Password"]) <==> HasCredential(params)
  {
    PrefixFor(params, ComputerNames(params["ComputerName"]), launcher);
  }

  lemma PrefixFor(params: map<string, string>, names: string, launcher: string)
    requires {"UserName", "Password"} <= params.Keys
    ensures StartsWith(ScriptFor(params, names, launcher), "$PSPassword = \"" + params["Password"]) <==> HasCredential(params)
  {
    var s := ScriptFor(params, names, launcher);
    var head := "$PSPassword = \"" + params["Password"];
    var call := InvokeCommand(names, launcher);
    if HasCredential(params) {
      var pre := CredentialPrefix(params["Password"], params["UserName"]);
      assert pre == head + (CredentialMiddle + params["UserName"] + "\",$PSPassword);");
      assert s == pre + (call + CredentialSuffix + ExecutedTail(names));
      StartsWithAppend(head, CredentialMiddle + params["UserName"] + "\",$PSPassword);");
      StartsWithAppend(pre, call + CredentialSuffix + ExecutedTail(names));
    } else {
      assert s == call + ExecutedTail(names);
      assert call == "Invoke-Command " + (" -ComputerName @(" + names + ")" + " -ScriptBlock {" + launcher + "}");
      assert s[0] == 'I' && head[0] == '$';
      DifferentFirst(s, head);
    }
  }

  lemma StartsWithAppend(a: string, b: string)
    ensures StartsWith(a + b, a)
  {
    assert (a + b)[..|a|] == a;
  }

  lemma DifferentFirst(s: string, head: string)
    requires s != [] && head != [] && s[0] != head[0]
    ensures !StartsWith(s, head)
  {
  }

  /** The ` -Credential $Credential` argument closes the call exactly when
      both `UserName` and `Password` are set, and the script always ends
      with the report naming the hosts. */
  lemma CredentialSuffixIff(params: map<string, string>, launcher: string)
    requires {"ComputerName", "UserName", "Password"} <= params.Keys
    ensures var names := ComputerNames(params["ComputerName"]);
      EndsWith(RemotingScript(params, launcher), ExecutedTail(names)) &&
      (EndsWith(RemotingScript(params, launcher), CredentialSuffix + ExecutedTail(names)) <==> HasCredential(params))
  {
    SuffixFor(params, ComputerNames(params["ComputerName"]), launcher);
  }

  lemma SuffixFor(params: map<string, string>, names: string, launcher: string)
    requires {"UserName", "Password"} <= params.Keys
    ensures EndsWith(ScriptFor(params, names, launcher), ExecutedTail(names))
    ensures EndsWith(ScriptFor(params, names, launcher), CredentialSuffix + ExecutedTail(names)) <==> HasCredential(params)
  {
    var s := ScriptFor(params, names, launcher);
    var call := InvokeCommand(names, launcher);
    var tail := ExecutedTail(names);
    if HasCredential(params) {
      assert s == CredentialPrefix(params["Password"], params["UserName"]) + call + (CredentialSuffix + tail);
      assert s == (CredentialPrefix(params["Password"], params["UserName"]) + call + CredentialSuffix) + tail;
    } else {
      assert s == call + tail;
      assert call[|call| - 1] == '}';
      assert CredentialSuffix[|CredentialSuffix| - 1] == 'l';
    }
  }
}
