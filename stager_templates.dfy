/** The stager-template registry: which definition files are loaded, the key
    each one is registered under, the default-filling of option schemas, and
    lookup and fresh instantiation of registered prototypes. */
module StagerTemplates {
  import opened Wrappers
  import opened Text

  /** One entry of a stager's `options` dict. `SuggestedValues` and `Strict`
      may be left out or set to None by the template's author; `dict.get`
      reads both as None, so both are `None` here. */
  datatype StagerOption = StagerOption(
    description: string,
    required: bool,
    value: string,
    suggestedValues: Option<seq<string>>,
    strict: Option<bool>)

  type OptionTable = map<string, StagerOption>

  /** A constructed stager: `kind` is the path of the definition file whose
      `Stager` class built it (so it stands for `type(instance)`), and
      `options` is its option table. */
  datatype Template = Template(kind: string, options: OptionTable)

  /** One file reported by the directory walk: the directory it is in and its name. */
  datatype WalkEntry = WalkEntry(root: string, filename: string)

  predicate IsNormalized(o: StagerOption) {
    o.suggestedValues.Some? && o.strict.Some?
  }

  predicate TableNormalized(t: OptionTable) {
    forall k :: k in t ==> IsNormalized(t[k])
  }

  /** The default-filling applied to one option. */
  function NormalizeOption(o: StagerOption): (r: StagerOption)
    ensures IsNormalized(r)
    ensures r.suggestedValues == (if o.suggestedValues.None? then Some([]) else o.suggestedValues)
    ensures r.strict == (if o.strict.None? then Some(false) else o.strict)
    ensures r.description == o.description && r.required == o.required && r.value == o.value
  {
    o.(suggestedValues := if o.suggestedValues.None? then Some([]) else o.suggestedValues,
       strict := if o.strict.None? then Some(false) else o.strict)
  }

  /** The default-filling applied to every option of a table. */
  function NormalizeTable(t: OptionTable): (r: OptionTable)
    ensures r.Keys == t.Keys
    ensures TableNormalized(r)
    ensures forall k :: k in t ==> r[k] == NormalizeOption(t[k])
  {
    map k | k in t :: NormalizeOption(t[k])
  }

  /** Options that were already complete are left exactly as they were. */
  lemma NormalizeKeepsComplete(t: OptionTable)
    ensures forall k :: k in t && IsNormalized(t[k]) ==> NormalizeTable(t)[k] == t[k]
  {
  }

  /** Normalising twice is normalising once. */
  lemma NormalizeIdempotent(t: OptionTable)
    ensures NormalizeTable(NormalizeTable(t)) == NormalizeTable(t)
  {
    var once := NormalizeTable(t);
    assert forall k :: k in once ==> NormalizeOption(once[k]) == once[k];
  }

  /** The in-place loop of `new_instance` and `_load_stagers`: each option
      dict gets `SuggestedValues := []` and `Strict := False` where missing. */
  method NormalizeOptions(t: OptionTable) returns (r: OptionTable)
    ensures r == NormalizeTable(t)
  {
    r := t;
    var pending := t.Keys;
    while pending != {}
      invariant pending <= t.Keys
      invariant r.Keys == t.Keys
      invariant forall k :: k in t && k !in pending ==> r[k] == NormalizeOption(t[k])
      invariant forall k :: k in pending ==> r[k] == t[k]
      decreases pending
    {
      var k :| k in pending;
      var value := r[k];
      if value.suggestedValues.None? {
        value := value.(suggestedValues := Some([]));
      }
      if value.strict.None? {
        value := value.(strict := Some(false));
      }
      r := r[k := value];
      pending := pending - {k};
    }
  }

  /** `os.path.join(root, filename)`. */
  function PathJoin(root: string, filename: string): string {
    if StartsWith(filename, "/") then filename
    else if root == [] || EndsWith(root, "/") then root + filename
    else root + "/" + filename
  }

  /** The joined path ends with the file name and, unless the file name is
      absolute, starts with the directory. */
  lemma PathJoinShape(root: string, filename: string)
    ensures EndsWith(PathJoin(root, filename), filename)
    ensures StartsWith(filename, "/") || StartsWith(PathJoin(root, filename), root)
  {
  }

  /** `fnmatch(filename, "*.py")` and not `fnmatch(filename, "*template.py")`. */
  predicate IsCandidate(filename: string) {
    EndsWith(filename, ".py") && !EndsWith(filename, "template.py")
  }

  const StagersRoot: string := "/stagers/"

  /** `file_path.split("/stagers/")[-1][0:-3]`. */
  function StagerName(path: string): string {
    DropLast(Last(Split(path, StagersRoot)), 3)
  }

  /** `stager_name.lower().replace("/", "_")`. */
  function Slugify(name: string): string {
    ReplaceChar(Lower(name), '/', "_")
  }

  /** A slug has no `/`, no upper-case letter, and as many characters as the name. */
  lemma SlugifyShape(name: string)
    ensures '/' !in Slugify(name)
    ensures forall i :: 0 <= i < |Slugify(name)| ==> !IsUpper(Slugify(name)[i])
    ensures |Slugify(name)| == |name|
  {
    ReplaceRemoves(Lower(name), '/', "_");
    ReplaceLength(Lower(name), '/', "_");
    SlugifyNoUpper(Lower(name));
  }

  lemma {:induction false} SlugifyNoUpper(s: string)
    requires forall i :: 0 <= i < |s| ==> !IsUpper(s[i])
    ensures forall i :: 0 <= i < |ReplaceChar(s, '/', "_")| ==> !IsUpper(ReplaceChar(s, '/', "_")[i])
  {
    if s != [] {
      SlugifyNoUpper(s[1..]);
    }
  }

  /** Slugifying a slug changes nothing. */
  lemma SlugifyIdempotent(name: string)
    ensures Slugify(Slugify(name)) == Slugify(name)
  {
    var slug := Slugify(name);
    SlugifyShape(name);
    assert Lower(slug) == slug;
    ReplaceAbsent(slug, '/', "_");
  }

  lemma LowerAroundSlash(dir: string, file: string)
    requires Lower(dir) == dir && Lower(file) == file
    ensures Lower(dir + "/" + file) == dir + "/" + file
  {
    var name := dir + "/" + file;
    forall i | 0 <= i < |name| ensures Lower(name)[i] == name[i] {
      if i < |dir| {
        assert name[i] == dir[i] && Lower(dir)[i] == LowerChar(dir[i]);
      } else if i > |dir| {
        assert name[i] == file[i - |dir| - 1] && Lower(file)[i - |dir| - 1] == LowerChar(file[i - |dir| - 1]);
      }
    }
  }

  lemma ReplaceAroundSlash(dir: string, file: string)
    requires '/' !in dir && '/' !in file
    ensures ReplaceChar(dir + "/" + file, '/', "_") == dir + "_" + file
  {
    assert dir + "/" + file == dir + ("/" + file);
    ReplaceAppend(dir, "/" + file, '/', "_");
    ReplaceAppend("/", file, '/', "_");
    assert ReplaceChar("/", '/', "_") == "_" by {
      assert "/"[1..] == [];
    }
    ReplaceAbsent(dir, '/', "_");
    ReplaceAbsent(file, '/', "_");
  }

  /** `dir/file` in lower case slugifies to `dir_file`. */
  lemma SlugifyOneSlash(dir: string, file: string)
    requires '/' !in dir && '/' !in file
    requires Lower(dir) == dir && Lower(file) == file
    ensures Slugify(dir + "/" + file) == dir + "_" + file
  {
    LowerAroundSlash(dir, file);
    ReplaceAroundSlash(dir, file);
  }

  /** The registry key of a walked file. */
  function RegistryKey(e: WalkEntry): string {
    Slugify(StagerName(PathJoin(e.root, e.filename)))
  }

  /** The prototype built for a walked file, with its options normalised. */
  function LoadedTemplate(e: WalkEntry, construct: string -> OptionTable): Template {
    var path := PathJoin(e.root, e.filename);
    Template(path, NormalizeTable(construct(path)))
  }

  /** The registry after the files of `entries` are loaded, in order, into `reg`. */
  function Registered(reg: map<string, Template>, entries: seq<WalkEntry>, construct: string -> OptionTable):
    map<string, Template>
  {
    if entries == [] then reg
    else
      var e := Last(entries);
      var before := Registered(reg, entries[..|entries| - 1], construct);
      if IsCandidate(e.filename) then before[RegistryKey(e) := LoadedTemplate(e, construct)] else before
  }

  /** The key of every registered prototype is the slug of its definition
      file's stager name, and its options are normalised. */
  ghost predicate RegistryInvariant(reg: map<string, Template>) {
    forall k :: k in reg ==> k == Slugify(StagerName(reg[k].kind)) && TableNormalized(reg[k].options)
  }

  lemma {:induction false} RegisteredKeepsInvariant(reg: map<string, Template>, entries: seq<WalkEntry>,
                                                     construct: string -> OptionTable)
    requires RegistryInvariant(reg)
    ensures RegistryInvariant(Registered(reg, entries, construct))
    decreases |entries|
  {
    if entries != [] {
      RegisteredKeepsInvariant(reg, entries[..|entries| - 1], construct);
    }
  }

  /** `e` is accepted by the filter and keyed `k`. */
  predicate Produces(e: WalkEntry, k: string) {
    IsCandidate(e.filename) && RegistryKey(e) == k
  }

  /** Some accepted file of the walk is keyed `k`. */
  predicate ProducedBy(entries: seq<WalkEntry>, k: string) {
    exists e :: e in entries && Produces(e, k)
  }

  lemma ProducedBySnoc(entries: seq<WalkEntry>, k: string)
    requires entries != []
    ensures ProducedBy(entries, k) <==> ProducedBy(entries[..|entries| - 1], k) || Produces(Last(entries), k)
  {
    var init := entries[..|entries| - 1];
    assert entries == init + [Last(entries)];
    assert forall e :: e in entries <==> e in init || e == Last(entries);
  }

  /** A key is in the registry iff it was there before or some accepted file
      of the walk produces it. */
  lemma {:induction false} RegisteredKeys(reg: map<string, Template>, entries: seq<WalkEntry>,
                                          construct: string -> OptionTable, k: string)
    ensures k in Registered(reg, entries, construct) <==> k in reg || ProducedBy(entries, k)
    decreases |entries|
  {
    if entries != [] {
      RegisteredKeys(reg, entries[..|entries| - 1], construct, k);
      ProducedBySnoc(entries, k);
    }
  }

  /** Last write wins: the prototype under a key comes from the last accepted
      file of the walk with that key. */
  lemma {:induction false} RegisteredLastWins(reg: map<string, Template>, entries: seq<WalkEntry>,
                                              construct: string -> OptionTable, i: nat)
    requires i < |entries| && IsCandidate(entries[i].filename)
    requires forall j :: i < j < |entries| && IsCandidate(entries[j].filename) ==> RegistryKey(entries[j]) != RegistryKey(entries[i])
    ensures RegistryKey(entries[i]) in Registered(reg, entries, construct)
    ensures Registered(reg, entries, construct)[RegistryKey(entries[i])] == LoadedTemplate(entries[i], construct)
    decreases |entries|
  {
    var init := entries[..|entries| - 1];
    if i < |init| {
      forall j | i < j < |init| && IsCandidate(init[j].filename) ensures RegistryKey(init[j]) != RegistryKey(init[i]) {
        assert init[j] == entries[j];
      }
      RegisteredLastWins(reg, init, construct, i);
      assert init[i] == entries[i];
    }
  }

  /** Keys that no accepted file of the walk produces keep their old prototype. */
  lemma {:induction false} RegisteredKeepsOthers(reg: map<string, Template>, entries: seq<WalkEntry>,
                                                 construct: string -> OptionTable, k: string)
    requires k in reg
    requires forall j :: 0 <= j < |entries| && IsCandidate(entries[j].filename) ==> RegistryKey(entries[j]) != k
    ensures k in Registered(reg, entries, construct) && Registered(reg, entries, construct)[k] == reg[k]
    decreases |entries|
  {
    if entries != [] {
      var init := entries[..|entries| - 1];
      forall j | 0 <= j < |init| && IsCandidate(init[j].filename) ensures RegistryKey(init[j]) != k {
        assert init[j] == entries[j];
      }
      RegisteredKeepsOthers(reg, init, construct, k);
    }
  }

  /** No `/stagers/` begins inside the install path or overlaps the `/stagers/`
      that follows it. This is stronger than the name needs: since the name is
      the last piece of the split, an install path holding a whole `/stagers/`
      of its own (such as `/opt/stagers/x`) gives the same name. Only a
      `/stagers/` that overlaps the root, as in an install path ending in
      `/stagers`, changes it. */
  ghost predicate RootIsFirstMatch(install: string) {
    forall i :: 0 <= i < |install| ==> !StartsWith((install + StagersRoot)[i..], StagersRoot)
  }

  ghost predicate NoStagersMatch(rel: string) {
    forall i :: 0 <= i < |rel| ==> !StartsWith(rel[i..], StagersRoot)
  }

  /** For a file `install/stagers/rel` the stager name is `rel` minus `.py`. */
  lemma StagerNameUnderRoot(install: string, rel: string)
    requires RootIsFirstMatch(install) && NoStagersMatch(rel)
    ensures StagerName(install + StagersRoot + rel) == DropLast(rel, 3)
  {
    var path := install + StagersRoot + rel;
    forall i | 0 <= i < |install| ensures !StartsWith(path[i..], StagersRoot) {
      if |StagersRoot| <= |path[i..]| {
        assert (install + StagersRoot)[i..] == path[i..][..|install| + |StagersRoot| - i];
      }
    }
    SplitAuxSkip(path, StagersRoot, [], |install|);
    assert path[|install|..] == StagersRoot + rel;
    assert path[..|install|] == install;
    assert StartsWith(StagersRoot + rel, StagersRoot);
    assert (StagersRoot + rel)[|StagersRoot|..] == rel;
    SplitAuxNoMatch(rel, StagersRoot, []);
  }

  /** A relative path `dir/file` with one slash has no `/stagers/` in it
      unless `file` itself begins with `stagers/`. */
  lemma NoStagersMatchOneSlash(dir: string, file: string)
    requires '/' !in dir && '/' !in file && !StartsWith("/" + file, StagersRoot)
    ensures NoStagersMatch(dir + "/" + file)
  {
    var rel := dir + "/" + file;
    forall i | 0 <= i < |rel| ensures !StartsWith(rel[i..], StagersRoot) {
      if i < |dir| {
        assert rel[i] == dir[i];
      } else if i == |dir| {
        assert rel[i..] == "/" + file;
      } else {
        assert rel[i] == file[i - |dir| - 1];
      }
    }
  }

  /** Joining `install/stagers/dir` and `file` gives `install/stagers/dir/file`. */
  lemma PathUnderRoot(install: string, dir: string, file: string)
    requires dir != [] && dir[|dir| - 1] != '/' && !StartsWith(file, "/")
    ensures PathJoin(install + StagersRoot + dir, file) == install + StagersRoot + (dir + "/" + file)
  {
    var root := install + StagersRoot + dir;
    assert root[|root| - 1] == dir[|dir| - 1];
    assert !EndsWith(root, "/");
  }

  /** The key of `install/stagers/dir/file.py` is `dir_file`. */
  lemma KeyUnderRoot(install: string, dir: string, file: string)
    requires RootIsFirstMatch(install)
    requires dir != [] && '/' !in dir && '/' !in file && Lower(dir) == dir && Lower(file) == file
    requires !StartsWith("/" + file + ".py", StagersRoot)
    ensures RegistryKey(WalkEntry(install + StagersRoot + dir, file + ".py")) == dir + "_" + file
  {
    var py := file + ".py";
    assert '/' !in py;
    assert py[0] != '/';
    PathUnderRoot(install, dir, py);
    NoStagersMatchOneSlash(dir, py);
    StagerNameUnderRoot(install, dir + "/" + py);
    assert DropLast(dir + "/" + py, 3) == dir + "/" + file;
    SlugifyOneSlash(dir, file);
  }

  /** `.../stagers/multi/launcher.py` is registered as `multi_launcher`. */
  lemma KeyOfMultiLauncher(install: string)
    requires RootIsFirstMatch(install)
    ensures RegistryKey(WalkEntry(install + "/stagers/multi", "launcher.py")) == "multi_launcher"
  {
    assert "/launcher.py"[1] != StagersRoot[1];
    assert "/stagers/multi" == StagersRoot + "multi";
    assert "launcher.py" == "launcher" + ".py";
    KeyUnderRoot(install, "multi", "launcher");
    assert install + "/stagers/multi" == install + StagersRoot + "multi";
    assert "multi" + "_" + "launcher" == "multi_launcher";
  }

  lemma KeyOfHttpBeacon(install: string)
    requires RootIsFirstMatch(install)
    ensures RegistryKey(WalkEntry(install + "/stagers/http", "beacon.py")) == "http_beacon"
  {
    assert "/beacon.py"[1] != StagersRoot[1];
    assert "/stagers/http" == StagersRoot + "http";
    assert "beacon.py" == "beacon" + ".py";
    KeyUnderRoot(install, "http", "beacon");
    assert install + "/stagers/http" == install + StagersRoot + "http";
    assert "http" + "_" + "beacon" == "http_beacon";
  }

  /** Of `http/beacon.py` and `http/beacon_template.py` only the first is
      registered, as `http_beacon`. */
  lemma BeaconScenario(install: string, construct: string -> OptionTable)
    requires RootIsFirstMatch(install)
    ensures Registered(map[], [WalkEntry(install + "/stagers/http", "beacon.py"),
                               WalkEntry(install + "/stagers/http", "beacon_template.py")], construct).Keys
            == {"http_beacon"}
  {
    var e := WalkEntry(install + "/stagers/http", "beacon.py");
    var t := WalkEntry(install + "/stagers/http", "beacon_template.py");
    assert !EndsWith(t.filename, ".py") || EndsWith(t.filename, "template.py");
    assert [e, t][..1] == [e];
    assert [e][..0] == [];
    assert Registered(map[], [e, t], construct) == Registered(map[], [e], construct);
    assert EndsWith(e.filename, ".py") && !EndsWith(e.filename, "template.py");
    assert Registered(map[], [e], construct).Keys == {RegistryKey(e)};
    KeyOfHttpBeacon(install);
  }

  /** `StagerTemplateService`: the registry of loaded stager prototypes. */
  class StagerTemplateService {
    /** Builds the option table of the `Stager` class defined in a file,
        against the host context (`mod.Stager(main_menu, [])`). */
    const construct: string -> OptionTable
    var loaded: map<string, Template>

    ghost predicate Valid()
      reads this
    {
      RegistryInvariant(loaded)
    }

    /** `__init__`: the registry starts empty and the walk is loaded into it. */
    constructor (entries: seq<WalkEntry>, construct: string -> OptionTable)
      ensures Valid()
      ensures loaded == Registered(map[], entries, construct)
    {
      this.construct := construct;
      loaded := map[];
      new;
      LoadStagers(entries);
    }

    /** `_load_stagers`: every accepted file is constructed, normalised and
        registered under its slug, later files overwriting earlier ones. */
    method LoadStagers(entries: seq<WalkEntry>)
      requires Valid()
      modifies this
      ensures Valid()
      ensures loaded == Registered(old(loaded), entries, construct)
    {
      ghost var start := loaded;
      RegisteredKeepsInvariant(start, entries, construct);
      for i := 0 to |entries|
        invariant loaded == Registered(start, entries[..i], construct)
      {
        var root, filename := entries[i].root, entries[i].filename;
        assert entries[..i + 1][..i] == entries[..i];
        if EndsWith(filename, ".py") {
          var filePath := PathJoin(root, filename);
          if !EndsWith(filename, "template.py") {
            var stagerName := StagerName(filePath);
            var options := NormalizeOptions(construct(filePath));
            loaded := loaded[Slugify(stagerName) := Template(filePath, options)];
          }
        }
      }
      assert entries[..|entries|] == entries;
      RegisteredKeepsInvariant(start, entries, construct);
    }

    /** `new_instance`: a new object of the prototype's class with its options
        normalised; an unregistered name is a missing-key error. */
    method NewInstance(template: string) returns (r: Result<Template>)
      requires Valid()
      ensures template in loaded ==>
        r == Ok(Template(loaded[template].kind, NormalizeTable(construct(loaded[template].kind))))
      ensures template !in loaded ==> r == Err(template)
      ensures r.Ok? ==> TableNormalized(r.value.options)
    {
      if template !in loaded {
        return Err(template);
      }
      var kind := loaded[template].kind;
      var options := NormalizeOptions(construct(kind));
      r := Ok(Template(kind, options));
    }

    /** `get_stager_template`: the registered prototype, or None. */
    function GetStagerTemplate(name: string): (r: Option<Template>)
      reads this
      requires Valid()
      ensures r.Some? <==> name in loaded
      ensures r.Some? ==> r.value == loaded[name] && TableNormalized(r.value.options)
    {
      if name in loaded then Some(loaded[name]) else None
    }

    /** `get_stager_templates`: the whole registry, every prototype normalised. */
    function GetStagerTemplates(): (r: map<string, Template>)
      reads this
      requires Valid()
      ensures forall k :: k in r ==> TableNormalized(r[k].options) && k == Slugify(StagerName(r[k].kind))
    {
      loaded
    }
  }
}
