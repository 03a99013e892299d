/** The listener template: the default option table a listener starts with,
    option validation, launcher and comms generation, and the stubbed
    lifecycle hooks every listener provides. */
module ListenerTemplate {
  import opened Wrappers
  import opened Text

  /** One entry of the listener's `options` dict; `value` is `str(Value)`,
      so the numeric defaults appear as their text. */
  datatype ListenerOption = ListenerOption(name: string, description: string, required: bool, value: string)

  datatype Author = Author(name: string, handle: string, link: string)

  datatype ListenerInfo = ListenerInfo(
    name: string,
    authors: seq<Author>,
    description: string,
    category: string,
    comments: seq<string>,
    software: string,
    techniques: seq<string>,
    tactics: seq<string>)

  const TemplateInfo: ListenerInfo :=
    ListenerInfo("Template", [Author("Will Schroeder", "@harmj0y", "https://twitter.com/harmj0y")],
                 "Listener template", "client_server", [], "", [], [])

  const DefaultProfile: string :=
    "/admin/get.php,/news.php,/login/process.php|Mozilla/5.0 (Windows NT 6.1; WOW64; Trident/7.0; rv:11.0) like Gecko"

  /** The option table `__init__` builds, in declaration order, before the
      staging key is replaced; `lhost` is what `helpers.lhost()` returned. */
  function DefaultOptions(lhost: string): (r: seq<ListenerOption>)
    ensures Names(r) == DefaultNames
  {
    [ ListenerOption("Name", "Name for the listener.", true, "http"),
      ListenerOption("Host", "Hostname/IP for staging.", true, "http://" + lhost),
      ListenerOption("BindIP", "The IP to bind to on the control server.", true, "0.0.0.0"),
      ListenerOption("Port", "Port for the listener.", true, ""),
      ListenerOption("Launcher", "Launcher string.", true, "powershell -noP -sta -w 1 -enc "),
      ListenerOption("StagingKey", "Staging key for initial agent negotiation.", true, "2c103f2c4ed1e59c0b4e2e01821770fa"),
      ListenerOption("DefaultDelay", "Agent delay/reach back interval (in seconds).", true, "5"),
      ListenerOption("DefaultJitter", "Jitter in agent reachback interval (0.0-1.0).", true, "0.0"),
      ListenerOption("DefaultLostLimit", "Number of missed checkins before exiting", true, "60"),
      ListenerOption("DefaultProfile", "Default communication profile for the agent.", true, DefaultProfile),
      ListenerOption("CertPath", "Certificate path for https listeners.", false, ""),
      ListenerOption("KillDate", "Date for the listener to exit (MM/dd/yyyy).", false, ""),
      ListenerOption("WorkingHours", "Hours for the agent to operate (09:00-17:00).", false, ""),
      ListenerOption("ServerVersion", "Server header for the control server.", true, "Microsoft-IIS/7.5"),
      ListenerOption("StagerURI", "URI for the stager. Example: stager.php", false, ""),
      ListenerOption("UserAgent", "User-agent string to use for the staging request (default, none, or other).", false, "default"),
      ListenerOption("Proxy", "Proxy to use for request (default, none, or other).", false, "default"),
      ListenerOption("ProxyCreds", "Proxy credentials ([domain\\]username:password) to use for request (default, none, or other).", false, "default"),
      ListenerOption("SlackURL", "Your Slack Incoming Webhook URL to communicate with your Slack instance.", false, "")
    ]
  }

  const DefaultNames: seq<string> := [
    "Name", "Host", "BindIP", "Port", "Launcher", "StagingKey", "DefaultDelay", "DefaultJitter",
    "DefaultLostLimit", "DefaultProfile", "CertPath", "KillDate", "WorkingHours", "ServerVersion",
    "StagerURI", "UserAgent", "Proxy", "ProxyCreds", "SlackURL"
  ]

  function Names(opts: seq<ListenerOption>): seq<string> {
    seq(|opts|, i requires 0 <= i < |opts| => opts[i].name)
  }

  /** `options[name]["Value"]`, or None for a missing key. */
  function Lookup(opts: seq<ListenerOption>, name: string): (r: Option<string>)
    ensures r.None? <==> forall i :: 0 <= i < |opts| ==> opts[i].name != name
    ensures r.Some? ==> exists i :: 0 <= i < |opts| && opts[i].name == name && opts[i].value == r.value
  {
    if opts == [] then None
    else if opts[0].name == name then Some(opts[0].value)
    else Lookup(opts[1..], name)
  }

  lemma {:induction false} LookupAt(opts: seq<ListenerOption>, name: string, i: nat)
    requires i < |opts| && opts[i].name == name
    requires forall j :: 0 <= j < i ==> opts[j].name != name
    ensures Lookup(opts, name) == Some(opts[i].value)
  {
    if i > 0 {
      LookupAt(opts[1..], name, i - 1);
    }
  }

  /** `options[name]["Value"] = value`. */
  function WithValue(opts: seq<ListenerOption>, name: string, value: string): (r: seq<ListenerOption>)
    ensures Names(r) == Names(opts)
    ensures forall i :: 0 <= i < |r| && opts[i].name == name ==> r[i] == opts[i].(value := value)
    ensures forall i :: 0 <= i < |r| && opts[i].name != name ==> r[i] == opts[i]
  {
    seq(|opts|, i requires 0 <= i < |opts| => if opts[i].name == name then opts[i].(value := value) else opts[i])
  }

  datatype Validation = Passed | Failed(message: string)

  /** A required option whose value, trimmed, is empty. */
  predicate Missing(o: ListenerOption) {
    o.required && Trim(o.value) == []
  }

  function RequiredMessage(name: string): string {
    "[!] Option \"" + name + "\" is required."
  }

  /** The outcome of `validate_options` on a table. */
  function Validate(opts: seq<ListenerOption>): (r: Validation)
    ensures r.Passed? <==> forall i :: 0 <= i < |opts| ==> !Missing(opts[i])
    ensures r.Failed? ==>
      exists i :: (0 <= i < |opts| && Missing(opts[i]) &&
        (forall j :: 0 <= j < i ==> !Missing(opts[j])) && r.message == RequiredMessage(opts[i].name))
  {
    if opts == [] then Passed
    else if Missing(opts[0]) then Failed(RequiredMessage(opts[0].name))
    else
      var rest := Validate(opts[1..]);
      assert forall i :: 1 <= i < |opts| ==> opts[i] == opts[1..][i - 1];
      rest
  }

  /** An option is missing exactly when it is required and its value is all whitespace. */
  lemma MissingIff(o: ListenerOption)
    ensures Missing(o) <==> o.required && forall k :: 0 <= k < |o.value| ==> o.value[k] in Whitespace
  {
    StripEmptyIff(o.value, Whitespace);
  }

  /** Options that are not required never decide validation: their values
      can be anything. */
  lemma {:induction false} OptionalNeverFails(opts: seq<ListenerOption>, i: nat, value: string)
    requires i < |opts| && !opts[i].required
    ensures Validate(opts[i := opts[i].(value := value)]) == Validate(opts)
  {
    var changed := opts[i := opts[i].(value := value)];
    if i > 0 && !Missing(opts[0]) {
      assert changed[1..] == opts[1..][i - 1 := opts[i].(value := value)];
      OptionalNeverFails(opts[1..], i - 1, value);
    } else if i == 0 {
      assert changed[1..] == opts[1..];
    }
  }

  lemma {:induction false} ValidateSkip(opts: seq<ListenerOption>, n: nat)
    requires n <= |opts|
    requires forall j :: 0 <= j < n ==> !Missing(opts[j])
    ensures Validate(opts) == Validate(opts[n..])
  {
    if n > 0 {
      assert opts[1..][n - 1..] == opts[n..];
      ValidateSkip(opts[1..], n - 1);
    }
  }

  lemma PresentValue(s: string)
    requires s != [] && s[0] !in Whitespace
    ensures Trim(s) != []
  {
    StripEmptyIff(s, Whitespace);
  }

  lemma DefaultHead(lhost: string, stagingKey: string)
    ensures var opts := WithValue(DefaultOptions(lhost), "StagingKey", stagingKey);
      |opts| == 19 &&
      opts[0].value == "http" && opts[1].value == "http://" + lhost && opts[2].value == "0.0.0.0" &&
      opts[3].name == "Port" && opts[3].required && opts[3].value == ""
  {
    var d := DefaultOptions(lhost);
    var opts := WithValue(d, "StagingKey", stagingKey);
    assert d[0].name == "Name" && d[1].name == "Host" && d[2].name == "BindIP" && d[3].name == "Port";
    assert opts[0] == d[0] && opts[1] == d[1] && opts[2] == d[2] && opts[3] == d[3];
  }

  /** Validation stops at the first required option left blank, whatever follows it. */
  lemma FailsAtFirstBlank(opts: seq<ListenerOption>, k: nat)
    requires k < |opts| && Missing(opts[k])
    requires forall j :: 0 <= j < k ==> !Missing(opts[j])
    ensures Validate(opts) == Failed(RequiredMessage(opts[k].name))
  {
    ValidateSkip(opts, k);
  }

  /** The first four default entries: three filled in, then a blank required `Port`. */
  lemma DefaultHeadMissing(opts: seq<ListenerOption>, lhost: string)
    requires |opts| >= 4
    requires opts[0].value == "http" && opts[1].value == "http://" + lhost && opts[2].value == "0.0.0.0"
    requires opts[3].required && opts[3].value == ""
    ensures forall j :: 0 <= j < 3 ==> !Missing(opts[j])
    ensures Missing(opts[3])
  {
    StartsWithLetter(opts[0], "http");
    assert ("http://" + lhost)[0] == 'h';
    StartsWithLetter(opts[1], "http://" + lhost);
    StartsWithLetter(opts[2], "0.0.0.0");
    BlankMissing(opts[3]);
  }

  /** A freshly built listener fails validation naming `Port`: it is the first
      required option whose default is empty. */
  lemma DefaultTableFailsOnPort(lhost: string, stagingKey: string)
    ensures Validate(WithValue(DefaultOptions(lhost), "StagingKey", stagingKey)) == Failed(RequiredMessage("Port"))
  {
    var opts := WithValue(DefaultOptions(lhost), "StagingKey", stagingKey);
    DefaultHead(lhost, stagingKey);
    DefaultHeadMissing(opts, lhost);
    FailsAtFirstBlank(opts, 3);
    SameMessage(Validate(opts), opts[3].name, "Port");
  }

  lemma SameMessage(v: Validation, n: string, m: string)
    requires v == Failed(RequiredMessage(n)) && n == m
    ensures v == Failed(RequiredMessage(m))
  {
  }

  lemma BlankMissing(o: ListenerOption)
    requires o.required && o.value == ""
    ensures Missing(o)
  {
  }

  lemma StartsWithLetter(o: ListenerOption, v: string)
    requires o.value == v && |v| > 0 && (v[0] == 'h' || v[0] == '0')
    ensures !Missing(o)
  {
    PresentValue(v);
  }

  /** The entry paths of a communication profile: the first `|`-field, split
      on `,`, each stripped of `/`. */
  function ProfileUris(profile: string): (r: seq<string>)
    ensures |r| >= 1
    ensures |r| == |Split(Split(profile, "|")[0], ",")|
    ensures forall i :: 0 <= i < |r| ==> r[i] == Strip(Split(Split(profile, "|")[0], ",")[i], {'/'})
  {
    var parts := Split(Split(profile, "|")[0], ",");
    seq(|parts|, i requires 0 <= i < |parts| => Strip(parts[i], {'/'}))
  }

  /** No entry path starts or ends with `/`. */
  lemma ProfileUrisStripped(profile: string)
    ensures forall u :: u in ProfileUris(profile) && u != [] ==> u[0] != '/' && u[|u| - 1] != '/'
  {
    var parts := Split(Split(profile, "|")[0], ",");
    forall u | u in ProfileUris(profile) && u != [] ensures u[0] != '/' && u[|u| - 1] != '/' {
      var i :| 0 <= i < |ProfileUris(profile)| && ProfileUris(profile)[i] == u;
      StripEnds(parts[i], {'/'});
    }
  }

  /** `random.choice(uris)` and the launch URI built from it. The pick is
      any entry path of the profile. */
  method ChooseLaunchUri(host: string, profile: string) returns (launchUri: string, stage0: string)
    ensures stage0 in ProfileUris(profile)
    ensures launchUri == host + "/" + stage0
  {
    var uris := ProfileUris(profile);
    assert uris[0] in uris;
    stage0 :| stage0 in uris;
    launchUri := host + "/" + stage0;
  }

  const PowerShellComms: string := "\n'New agent comms registered!'"

  const ServersHead: string := "\n                    $Script:ControlServers = @(\""

  const ServersTail: string := "\");\n                    $Script:ServerIndex = 0;\n                "

  const GetTaskBlock: string := "\n                    $script:GetTask = {\n\n\n                    }\n                "

  const SendMessageBlock: string :=
    "\n                    $script:SendMessage = {\n                        param($Packets)\n\n"
    + "                        if($Packets) {\n\n                        }\n                    }\n                "

  predicate IsPowerShell(language: Option<string>) {
    language.Some? && language.value != [] && Lower(language.value) == "powershell"
  }

  /** `Listener`: a listener built from the template. */
  class Listener {
    const info: ListenerInfo
    var options: seq<ListenerOption>

    /** The table keeps the default option names, in their order. */
    ghost predicate Valid()
      reads this
    {
      Names(options) == DefaultNames
    }

    /** `__init__`: the default table, then the staging key read from the
        server configuration (`stagingKey`) written over the built-in one. */
    constructor (lhost: string, stagingKey: string)
      ensures Valid()
      ensures info == TemplateInfo
      ensures options == WithValue(DefaultOptions(lhost), "StagingKey", stagingKey)
    {
      info := TemplateInfo;
      var table := DefaultOptions(lhost);
      assert Names(table) == DefaultNames;
      options := WithValue(table, "StagingKey", stagingKey);
      new;
      assert Names(options) == Names(table);
    }

    /** `default_response`: not implemented by the template. */
    method DefaultResponse() returns (r: string)
      ensures r == []
    {
      r := "";
    }

    /** `validate_options`: scans the table in order and stops at the first
        required option whose trimmed value is empty. */
    method ValidateOptions() returns (r: Validation)
      ensures r == Validate(options)
    {
      for i := 0 to |options|
        invariant Validate(options) == Validate(options[i..])
      {
        assert options[i..][1..] == options[i + 1..];
        if options[i].required && Trim(options[i].value) == "" {
          return Failed(RequiredMessage(options[i].name));
        }
      }
      assert options[|options|..] == [];
      return Passed;
    }

    lemma LookupDefault(i: nat)
      requires Valid() && i < |DefaultNames|
      ensures Lookup(options, DefaultNames[i]) == Some(options[i].value)
    {
      forall j | 0 <= j < i ensures options[j].name != DefaultNames[i] {
        assert options[j].name == Names(options)[j] && options[i].name == Names(options)[i];
      }
      assert options[i].name == Names(options)[i];
      LookupAt(options, DefaultNames[i], i);
    }

    /** `generate_launcher`: no language is a failure; a language starting
        with `po` or `py` gives the (empty) launcher; any other is unsupported. */
    method GenerateLauncher(language: Option<string>) returns (r: Option<string>)
      requires Valid()
      ensures language.None? || language.value == [] ==> r == None
      ensures language.Some? && language.value != [] ==>
        r == if StartsWith(language.value, "po") || StartsWith(language.value, "py") then Some([]) else None
    {
      if language.None? || language.value == "" {
        return None;
      }
      LookupDefault(1);
      LookupDefault(5);
      LookupDefault(9);
      var host := Lookup(options, "Host").value;
      var stagingKey := Lookup(options, "StagingKey").value;
      var profile := Lookup(options, "DefaultProfile").value;
      var launchUri, stage0 := ChooseLaunchUri(host, profile);
      if StartsWith(language.value, "po") {
        return Some("");
      }
      if StartsWith(language.value, "py") {
        return Some("");
      } else {
        return None;
      }
    }

    /** `generate_stager`: not implemented by the template. */
    method GenerateStager(listenerOptions: seq<ListenerOption>, language: Option<string>) returns (r: string)
      ensures r == []
    {
      r := "";
    }

    /** `generate_agent`: not implemented by the template. */
    method GenerateAgent(listenerOptions: seq<ListenerOption>, language: Option<string>) returns (r: string)
      ensures r == []
    {
      r := "";
    }

    /** `generate_comms`: the PowerShell comms block for the given options'
        `Host`; python, other languages and no language give None. */
    static function GenerateComms(listenerOptions: seq<ListenerOption>, language: Option<string>): (r: Option<string>)
      requires IsPowerShell(language) ==> Lookup(listenerOptions, "Host").Some?
      ensures r.Some? <==> IsPowerShell(language)
      ensures r.Some? ==>
        var host := Lookup(listenerOptions, "Host").value;
        StartsWith(r.value, ServersHead + host) && EndsWith(r.value, PowerShellComms)
    {
      if language.Some? && language.value != "" then
        if Lower(language.value) == "powershell" then
          var updateServers := ServersHead + Lookup(listenerOptions, "Host").value + ServersTail;
          var text := updateServers + GetTaskBlock + SendMessageBlock + PowerShellComms;
          assert text == ServersHead + Lookup(listenerOptions, "Host").value + (ServersTail + GetTaskBlock + SendMessageBlock + PowerShellComms);
          Some(text)
        else if Lower(language.value) == "python" then
          None
        else
          None
      else
        None
    }

    /** `start`: the template has no server to start and reports success. */
    method Start(name: string) returns (ok: bool)
      ensures ok
    {
      ok := true;
    }

    /** `shutdown`: the template has nothing to stop. */
    method Shutdown(name: string)
      ensures options == old(options)
    {
    }
  }
}
