# Empire stager registry, listener template and lateral-movement composers in Dafny

This project models five pieces of the Empire command-and-control server:

- **The stager-template registry** (`StagerTemplates`, stager_templates.dfy). A class holds the map of loaded prototypes.
  - Loading filters the walked files.
  - Each accepted file gets a name and a slug key.
  - Its option schemas are default-filled (`SuggestedValues := []`, `Strict := False`) and it is registered, last write winning.
  - `get_stager_template`, `get_stager_templates` and `new_instance` are modelled on that map.
- **The listener template** (`ListenerTemplate`, listener_template.dfy). A class holds the option table that `__init__` builds, with the staging key written over the built-in one.
  - It covers the first-failure loop of `validate_options`.
  - It covers `generate_launcher`: the profile parse, a nondeterministic `random.choice`, and the language dispatch.
  - It covers `generate_comms` and the stubs.
- **`invoke_psremoting`** (`InvokePsRemoting`). An imperative method checks "listener or command, exactly one".
  - It resolves a stored credential into the caller's `params` in place.
  - It calls the launcher oracle, or escapes the command's quotes.
  - It builds the `Invoke-Command` script and hands it to `finalize_module`.
- **`invoke_smbexec`** (`InvokeSmbExec`). A method with local accumulators runs the same selection checks.
  - It takes the module source from `get_module_source`, with its error path.
  - It builds the command line and the `Invoke-SMBExec` trailer.
- **`domain_to_dto_module`** (`ModuleDto`). A pure projection of a module record, with its option list turned into a table keyed by option name.

Support modules:
- `Wrappers`: `Option` and `Result`.
- `Text`: Python's `lower`, `replace`, `split`, `join`, `strip` and slicing on `seq<char>`, with their laws.
- `ModuleModels`: the module record, the credential, the launcher request, the `Params` dictionary class, and the `main_menu` collaborators.

The `main_menu` collaborators are oracles: function-typed fields of a `MainMenu` value. They are credential validity and lookup, listener validity, `stagers.generate_launcher`, `modulesv2.get_module_source` and `modulesv2.finalize_module`.

More modelling choices:
- The host address, the configured staging key and the install path are parameters.
- The directory walk is a given sequence of `(root, filename)` entries.
- A stager's `Stager(...)` constructor is a function from its definition file to its option table.
- Errors returned through `handle_error_message` / `handle_validate_message` become `Err(message)` / `Failed(message)`.

## Model

| member | source | states |
|---|---|---|
| StagerTemplates.NormalizeOption | empire/server/core/stager_template_service.py:27-31 | the resulting option has both `SuggestedValues` and `Strict`; a missing one becomes `[]` / `False`; a present one and every other field is kept |
| StagerTemplates.NormalizeTable | empire/server/core/stager_template_service.py:69-73 | normalising a table keeps exactly its keys and normalises every entry |
| StagerTemplates.NormalizeKeepsComplete | empire/server/core/stager_template_service.py:28-31 | an option whose two fields were already set is left unchanged |
| StagerTemplates.NormalizeIdempotent | empire/server/core/stager_template_service.py:69-73 | normalising twice equals normalising once |
| StagerTemplates.NormalizeOptions | empire/server/core/stager_template_service.py:69-73 | the key-by-key loop yields exactly the normalised table |
| StagerTemplates.Slugify | empire/server/core/stager_template_service.py:78-79 | the slug is the name lower-cased with every `/` turned into `_`; its shape is stated by the three rows below |
| StagerTemplates.SlugifyShape | empire/server/core/stager_template_service.py:78-79 | a slug has no `/`, no upper-case letter, and the length of the name |
| StagerTemplates.SlugifyIdempotent | empire/server/core/stager_template_service.py:78-79 | slugifying a slug gives the same slug |
| StagerTemplates.SlugifyOneSlash | empire/server/core/stager_template_service.py:78-79 | lower-case `dir/file` slugifies to `dir_file` |
| StagerTemplates.StagerName | empire/server/core/stager_template_service.py:61 | the stager name is the last piece of the path split on `/stagers/`, minus its last three characters; the next row states it under the install root |
| StagerTemplates.StagerNameUnderRoot | empire/server/core/stager_template_service.py:61 | for `install/stagers/rel` the stager name is `rel` without its last three characters |
| StagerTemplates.PathJoin | empire/server/core/stager_template_service.py:54 | `os.path.join` on POSIX paths: an absolute file name replaces the directory, and otherwise one `/` separates them unless the directory is empty or already ends in `/` |
| StagerTemplates.PathJoinShape | empire/server/core/stager_template_service.py:54 | the joined path ends with the file name and, unless the file name is absolute, starts with the directory |
| StagerTemplates.PathUnderRoot | empire/server/core/stager_template_service.py:54 | `os.path.join` of a stager directory and a relative file name puts one `/` between them |
| StagerTemplates.IsCandidate | empire/server/core/stager_template_service.py:53-58 | a walked file is loaded iff it matches `*.py` and not `*template.py` |
| StagerTemplates.RegistryKey | empire/server/core/stager_template_service.py:54-61 | the key of a walked file is the slug of the stager name of its joined path; the next row states it for `install/stagers/dir/file.py` |
| StagerTemplates.KeyUnderRoot | empire/server/core/stager_template_service.py:53-61 | the file `install/stagers/dir/file.py` is keyed `dir_file` |
| StagerTemplates.KeyOfMultiLauncher | empire/server/core/stager_template_service.py:61 | `.../stagers/multi/launcher.py` is keyed `multi_launcher` |
| StagerTemplates.KeyOfHttpBeacon | empire/server/core/stager_template_service.py:61 | `.../stagers/http/beacon.py` is keyed `http_beacon` |
| StagerTemplates.BeaconScenario | empire/server/core/stager_template_service.py:53-58 | of `beacon.py` and `beacon_template.py` only the first is registered |
| StagerTemplates.LoadedTemplate | empire/server/core/stager_template_service.py:64-73 | the prototype of a walked file records its joined path and the option table the file's `Stager` builds, normalised |
| StagerTemplates.Registered | empire/server/core/stager_template_service.py:52-75 | the registry after the walk: the accepted files, in walk order, each written under its key over what was there; its properties are the four rows below |
| StagerTemplates.RegisteredKeepsInvariant | empire/server/core/stager_template_service.py:61-75 | after loading, every key is the slug of its prototype's stager name and every option table is normalised |
| StagerTemplates.RegisteredKeys | empire/server/core/stager_template_service.py:52-58 | a key is registered iff it was there before or an accepted file (`*.py`, not `*template.py`) produces it |
| StagerTemplates.RegisteredLastWins | empire/server/core/stager_template_service.py:75 | a key holds the prototype of the last accepted file producing it |
| StagerTemplates.RegisteredKeepsOthers | empire/server/core/stager_template_service.py:75 | a key that no accepted file produces keeps its old prototype |
| StagerTemplates.StagerTemplateService.constructor | empire/server/core/stager_template_service.py:15-23 | the registry is the walk loaded into an empty map, and keeps the invariant |
| StagerTemplates.StagerTemplateService.LoadStagers | empire/server/core/stager_template_service.py:43-75 | the loop leaves the registry equal to the fold of the walk over the old registry, keeping the invariant |
| StagerTemplates.StagerTemplateService.NewInstance | empire/server/core/stager_template_service.py:25-33 | a registered name gives a fresh object of the prototype's class with normalised options; an unregistered name is a key error; the registry is not changed |
| StagerTemplates.StagerTemplateService.GetStagerTemplate | empire/server/core/stager_template_service.py:35-38 | None iff the name is not registered, otherwise the normalised prototype |
| StagerTemplates.StagerTemplateService.GetStagerTemplates | empire/server/core/stager_template_service.py:40-41 | every prototype in the returned registry is normalised and keyed by its slug |
| ListenerTemplate.Validate | empire/server/listeners/template.py:160-166 | `Passed` iff no option is required with an empty trimmed value; a failure names the first such option in table order |
| ListenerTemplate.MissingIff | empire/server/listeners/template.py:161-163 | an option fails iff it is required and its value is all whitespace |
| ListenerTemplate.OptionalNeverFails | empire/server/listeners/template.py:161-163 | setting the value of an option that is not required never changes the validation outcome |
| ListenerTemplate.ValidateSkip | empire/server/listeners/template.py:160-164 | a leading run of options that pass can be dropped without changing the outcome |
| ListenerTemplate.FailsAtFirstBlank | empire/server/listeners/template.py:160-164 | validation stops at the first required blank option, whatever follows it |
| ListenerTemplate.DefaultTableFailsOnPort | empire/server/listeners/template.py:35-54 | a freshly built listener fails validation naming `Port` |
| ListenerTemplate.DefaultOptions | empire/server/listeners/template.py:32-130 | the table `__init__` builds holds the nineteen options of the listener, in declaration order, with the host address as `http://` + `lhost` |
| ListenerTemplate.WithValue | empire/server/listeners/template.py:139-141 | writing an option's value keeps every option name in place, sets the value of the options bearing that name and leaves every other option unchanged |
| ListenerTemplate.Lookup | empire/server/listeners/template.py:205-207 | a lookup fails iff no option bears the name; a found value is the value of an option bearing it |
| ListenerTemplate.LookupAt | empire/server/listeners/template.py:205-207 | looking up a name finds the value of the first option bearing it |
| ListenerTemplate.ProfileUris | empire/server/listeners/template.py:208 | the entry list is never empty and has one entry per `,`-field of the part before the first bar character, each stripped of `/` |
| ListenerTemplate.ProfileUrisStripped | empire/server/listeners/template.py:208 | no entry path starts or ends with `/` |
| ListenerTemplate.ChooseLaunchUri | empire/server/listeners/template.py:209-210 | the pick is an entry path of the profile and the launch URI is `host/stage0` |
| ListenerTemplate.Listener.constructor | empire/server/listeners/template.py:12-141 | the table is the default table with `StagingKey` set to the configured key, and keeps the default names |
| ListenerTemplate.Listener.DefaultResponse | empire/server/listeners/template.py:143-153 | returns the empty text |
| ListenerTemplate.Listener.ValidateOptions | empire/server/listeners/template.py:155-166 | the loop returns exactly `Validate` of the table |
| ListenerTemplate.Listener.GenerateLauncher | empire/server/listeners/template.py:168-225 | no or empty language gives None; a `po` or `py` prefix gives the empty launcher; any other language gives None |
| ListenerTemplate.Listener.GenerateStager | empire/server/listeners/template.py:227-245 | returns the empty text |
| ListenerTemplate.Listener.GenerateAgent | empire/server/listeners/template.py:247-257 | returns the empty text |
| ListenerTemplate.Listener.GenerateComms | empire/server/listeners/template.py:259-314 | a result iff the language lower-cases to `powershell`; it opens with the control-server list holding `Host` and ends with the registration line |
| ListenerTemplate.Listener.Start | empire/server/listeners/template.py:316-338 | always reports success |
| ListenerTemplate.Listener.Shutdown | empire/server/listeners/template.py:340-345 | leaves the table unchanged |
| ModuleModels.SelectionError | empire/server/modules/powershell/lateral_movement/invoke_psremoting.py:32-37 | each of the two errors is returned exactly when its condition holds; there is no error iff exactly one of listener and command is given |
| ModuleModels.LauncherRequestFor | empire/server/modules/powershell/lateral_movement/invoke_smbexec.py:57-67 | the launcher request names the listener, asks for an encoded PowerShell launcher, obfuscates iff `Obfuscate` lower-cases to `true`, and passes `ObfuscateCommand`, `UserAgent`, `Proxy`, `ProxyCreds` and `Bypasses` from `params` unchanged (the same request as invoke_psremoting.py:55-65) |
| InvokePsRemoting.EscapeQuotes | empire/server/modules/powershell/lateral_movement/invoke_psremoting.py:70 | the escaped command is longer by the number of its double quotes |
| InvokePsRemoting.UnescapeEscape | empire/server/modules/powershell/lateral_movement/invoke_psremoting.py:70 | reading the backtick escape back gives the original command |
| InvokePsRemoting.EscapedQuotesPreceded | empire/server/modules/powershell/lateral_movement/invoke_psremoting.py:70 | every double quote of the escaped command has a backtick in front of it |
| InvokePsRemoting.ComputerNames | empire/server/modules/powershell/lateral_movement/invoke_psremoting.py:73 | the host list is `"` + the comma-separated entries joined by `","` + `"`; the next row restates it entry by entry |
| InvokePsRemoting.ComputerNamesQuoted | empire/server/modules/powershell/lateral_movement/invoke_psremoting.py:73 | the host list is every comma-separated entry in double quotes, joined by commas |
| InvokePsRemoting.WithCredential | empire/server/modules/powershell/lateral_movement/invoke_psremoting.py:45-47 | `UserName` becomes `domain\username` and `Password` the password; all other keys are kept |
| InvokePsRemoting.RemotingScript | empire/server/modules/powershell/lateral_movement/invoke_psremoting.py:72-89 | the script is `Invoke-Command` with the host list and the script block, wrapped in the credential prefix and suffix iff both `UserName` and `Password` are set, then the executed-on report; its shape is stated by `CredentialPrefixIff` and `CredentialSuffixIff` |
| InvokePsRemoting.ScriptFor | empire/server/modules/powershell/lateral_movement/invoke_psremoting.py:74-89 | the same script for a host list already built, the form the prefix and suffix lemmas are proved on |
| InvokePsRemoting.Generation | empire/server/modules/powershell/lateral_movement/invoke_psremoting.py:10-97 | the caller's `params` keep their key set |
| InvokePsRemoting.ComposeScript | empire/server/modules/powershell/lateral_movement/invoke_psremoting.py:72-89 | the successive `+=` steps build exactly the remoting script |
| InvokePsRemoting.Generate | empire/server/modules/powershell/lateral_movement/invoke_psremoting.py:10-97 | the result and the caller's `params` afterwards are those of the decision chain |
| InvokePsRemoting.SelectionErrors | empire/server/modules/powershell/lateral_movement/invoke_psremoting.py:32-37 | `Listener or Command required` iff both are empty; `Cannot use Listener and Command` iff both are set |
| InvokePsRemoting.CredentialRejected | empire/server/modules/powershell/lateral_movement/invoke_psremoting.py:40-43 | with a valid selection and a CredID, `CredID is invalid!` iff the credential is unknown, and then the listener and launcher oracles do not matter |
| InvokePsRemoting.CredentialWritten | empire/server/modules/powershell/lateral_movement/invoke_psremoting.py:40-47 | a resolved credential writes `UserName` and `Password` and nothing else; otherwise `params` is unchanged |
| InvokePsRemoting.ListenerRejected | empire/server/modules/powershell/lateral_movement/invoke_psremoting.py:49-51 | past the credential check, `Invalid listener: name` iff the listener is unknown and no command is given |
| InvokePsRemoting.ListenerPath | empire/server/modules/powershell/lateral_movement/invoke_psremoting.py:53-67 | on the listener path, `Error creating launcher` iff the launcher is empty; otherwise the finalised script is returned verbatim |
| InvokePsRemoting.CommandPath | empire/server/modules/powershell/lateral_movement/invoke_psremoting.py:69-70 | on the command path the script block is the escaped command and the result is the finalised script with an empty `script_end` |
| InvokePsRemoting.CredentialPrefixIff | empire/server/modules/powershell/lateral_movement/invoke_psremoting.py:77-87 | the script opens with the `$PSPassword` prefix iff both `UserName` and `Password` are set |
| InvokePsRemoting.CredentialSuffixIff | empire/server/modules/powershell/lateral_movement/invoke_psremoting.py:77-89 | the script ends with the `Invoke-PSRemoting executed on` report, preceded by ` -Credential $Credential` iff both credential parts are set |
| InvokeSmbExec.OutputFunction | empire/server/modules/powershell/lateral_movement/invoke_smbexec.py:83 | `Out-String` when `OutputFunction` is absent, the given value otherwise |
| InvokeSmbExec.ModuleLeaf | empire/server/modules/powershell/lateral_movement/invoke_smbexec.py:87 | the leaf name is the last `/`-separated piece of the module name; the next row states its shape |
| InvokeSmbExec.ModuleLeafShape | empire/server/modules/powershell/lateral_movement/invoke_smbexec.py:87 | the last `/`-segment holds no `/`, ends the module name, and is the whole name when there is no `/` |
| InvokeSmbExec.ListenerCmd | empire/server/modules/powershell/lateral_movement/invoke_smbexec.py:72-75 | the command line is `%COMSPEC% /C start /b ` then the PowerShell directory then the launcher |
| InvokeSmbExec.CommandCmd | empire/server/modules/powershell/lateral_movement/invoke_smbexec.py:78 | the command line is `%COMSPEC% /C start /b ` then the command, not escaped |
| InvokeSmbExec.SmbExecCall | empire/server/modules/powershell/lateral_movement/invoke_smbexec.py:80-82 | the call `Invoke-SMBExec` naming target, user name, domain, hash and the command line in single quotes |
| InvokeSmbExec.ScriptEnd | empire/server/modules/powershell/lateral_movement/invoke_smbexec.py:80-89 | the trailer is the call, then the output function, then the completion report with the leaf name; the next row states its shape |
| InvokeSmbExec.ScriptEndShape | empire/server/modules/powershell/lateral_movement/invoke_smbexec.py:80-89 | the trailer opens with the call naming target, user, domain, hash and the quoted command line, piped through the output function, and ends with the module's leaf name and ` completed!"` |
| InvokeSmbExec.Generate | empire/server/modules/powershell/lateral_movement/invoke_smbexec.py:10-97 | the method computes exactly the decision chain's result |
| InvokeSmbExec.Generation | empire/server/modules/powershell/lateral_movement/invoke_smbexec.py:17-97 | the decision chain: the selection check, the source fetch, the listener check, the launcher, then the finalised script; the lemmas below state its outcomes |
| InvokeSmbExec.SelectionErrors | empire/server/modules/powershell/lateral_movement/invoke_smbexec.py:34-39 | both empty gives `Listener or Command required`; both set gives `Cannot use Listener and Command` |
| InvokeSmbExec.SourceErrorFirst | empire/server/modules/powershell/lateral_movement/invoke_smbexec.py:42-53 | a failed source fetch is returned as the error, and then the listener and launcher oracles do not matter |
| InvokeSmbExec.SucceedsIff | empire/server/modules/powershell/lateral_movement/invoke_smbexec.py:34-97 | a script is produced iff the selection is sound, the source is fetched, and a command is given or the listener is known and its launcher is not empty |
| InvokeSmbExec.ListenerChecks | empire/server/modules/powershell/lateral_movement/invoke_smbexec.py:51-70 | past the fetch, `Invalid listener: name` iff the listener is unknown and no command is given; on the listener path, `Error in launcher generation.` iff the launcher is empty |
| InvokeSmbExec.SuccessScript | empire/server/modules/powershell/lateral_movement/invoke_smbexec.py:72-97 | on success, the fetched source is finalised with the trailer around the path's command line, and the output is returned verbatim |
| ModuleDto.ByName | empire/server/api/v2/module/module_dto.py:10 | the keys are exactly the option names and there are at most as many as options |
| ModuleDto.ByNameLastWins | empire/server/api/v2/module/module_dto.py:10 | an option with no later namesake is the one kept under its name |
| ModuleDto.ByNameDistinctSize | empire/server/api/v2/module/module_dto.py:10 | with distinct names there is one entry per option |
| ModuleDto.DomainToDto | empire/server/api/v2/module/module_dto.py:9-45 | `id` is `uid`, and the option keys are exactly the option names, at most one per option |
| ModuleDto.DtoCopiesModule | empire/server/api/v2/module/module_dto.py:29-45 | every top-level field is copied from the module unchanged |
| ModuleDto.DtoOptionFields | empire/server/api/v2/module/module_dto.py:11-27 | each entry carries the description, required flag, value, strict flag and suggested values of the last option bearing its name, and the value type computed from its value and declared type |
| ModuleDto.DtoDistinctSize | empire/server/api/v2/module/module_dto.py:10 | with distinct option names the table has one entry per option |
| Text.JoinSplit | empire/server/modules/powershell/lateral_movement/invoke_psremoting.py:73 | joining the pieces of `split(sep)` with `sep` gives the text back |
| Text.Lower | empire/server/core/stager_template_service.py:79 | `str.lower` on ASCII: same length, and no upper-case letter is left |
| Text.ReplaceChar | empire/server/core/stager_template_service.py:79 | `str.replace` of one character: one left-to-right pass in which every occurrence is replaced and the replacement is not looked at again; the laws are `ReplaceIsJoinOfSplit` and `ReplaceLength` |
| Text.ReplaceLength | empire/server/core/stager_template_service.py:79 | the replaced text is longer by the length of the replacement minus one for each occurrence |
| Text.Split | empire/server/modules/powershell/lateral_movement/invoke_psremoting.py:73 | `str.split(sep)`: cuts at each non-overlapping occurrence from the left and yields at least one piece |
| Text.Join | empire/server/modules/powershell/lateral_movement/invoke_psremoting.py:73 | `sep.join(parts)`: the pieces with the separator between neighbours; `JoinSplit` is its round trip with `Split` |
| Text.ReplaceIsJoinOfSplit | empire/server/core/stager_template_service.py:79 | replacing a character is splitting on it and joining with the replacement |
| Text.StripEmptyIff | empire/server/listeners/template.py:162 | a stripped text is empty iff every character is in the stripped set |
| Text.Strip | empire/server/listeners/template.py:208 | `str.strip(chars)`: every leading and every trailing character of the set is dropped; `StripEnds` and `StripEmptyIff` state the result |
| Text.Trim | empire/server/listeners/template.py:162 | `str.strip()`: a strip of Python's whitespace characters |
| Text.DropLast | empire/server/core/stager_template_service.py:61 | the slice `[0:-n]`: the text minus its last `n` characters, or empty when shorter |

## Left out

- Filesystem walk, dynamic import of each definition file, the database session and logging: the walk is a given sequence of entries, and the `Stager` class of a file is a given function from the file path to its option table.
- StagerTemplates.StagerTemplateService.NewInstance: the two-argument load-time constructor call and the one-argument call of `new_instance` are the same function here. A constructor that raises, and a definition file without a `Stager` class, are not modelled. The code lets such a failure stop the whole load; it does not isolate each file.
- Stager option fields: "absent" and "set to None" are one case (`None`), as `dict.get` reads both alike.
- Text.Lower: upper case is ASCII only. Python's `str.lower` also folds non-ASCII letters.
- Text.Trim: strips Python's whitespace set as listed in `Text.Whitespace`.
- ListenerTemplate: option values are held in their text form (`str(value)`), so the numbers `5`, `0.0` and `60` become `"5"`, `"0.0"` and `"60"`. A non-text `DefaultProfile` or `Host` is not modelled.
- ListenerTemplate.Listener.ValidateOptions: the model follows the code, which stops at the first required blank option rather than checking all of them.
- ListenerTemplate.Listener.GenerateLauncher: the keyword arguments the template ignores (`encode`, `obfuscate`, `obfuscation_command`, `userAgent`, `proxy`, `proxyCreds`, `stagerRetries`, `safeChecks`, `listenerName`, `bypasses`) are not parameters. Only membership of the random pick is modelled, not its distribution. The printed diagnostics are left out.
- The listener's `info` metadata authors and categories are data only. The `threads` dictionary and the commented-out thread start are left out; no concurrency is modelled.
- `helpers.lhost()`, `data_util.get_config("staging_key")` and `helpers.color`/`print` are external: the first two are constructor parameters and printing is dropped.
- InvokePsRemoting.Generate and InvokeSmbExec.Generate: every key the code reads by indexing is required to be present. A missing key raises `KeyError` in the code.
- ListenerTemplate.Listener.GenerateLauncher: the lookups of `Host`, `StagingKey` and `DefaultProfile` succeed because `Valid()` is required. With one of those keys deleted from the table, the code raises `KeyError`; that path is not modelled.
- ListenerTemplate.Listener.GenerateComms: on the PowerShell path the `Host` lookup is required to succeed. With `Host` missing from the given options, the code raises `KeyError`; that path is not modelled.
- InvokePsRemoting.Generate: the launcher oracle returns text. A `None` launcher would make the code fail at concatenation.
- ModuleModels.Credential: the domain and user name are held after `str(...)`, so a `None` domain is the text `"None"` supplied by the oracle. The password is copied without `str(...)`, and the model takes it to be text. A `None` password would pass the `!= ""` test of the credential branch and then fail at the concatenation; that failure is not modelled.
- InvokeSmbExec.Generate: when the fetch reports no error, its script is used as text. A `None` script with no error is not modelled.
- The meaning of the generated PowerShell and cmd text, and the obfuscation inside `get_module_source` / `finalize_module`, are not modelled. Only the structure of the text is proved.
- ModuleDto.DomainToDto: `to_value_type` is a given function of the value and the declared type. The pydantic schema classes (`Module`, `Modules`, `ModuleScript`, the update requests) are plain datatypes or are left out, and no validation by pydantic is modelled.
- empire/test/test_modules.py is not part of this model.
