/** `domain_to_dto_module`: the API view of a module, with its option list
    turned into a table keyed by option name. */
module ModuleDto {
  import opened Wrappers
  import opened ModuleModels

  /** One entry of the view's `options` table. */
  datatype OptionSchema = OptionSchema(
    description: string,
    required: bool,
    value: string,
    strict: bool,
    suggestedValues: seq<string>,
    valueType: string)

  /** The `Module` view returned by the API. */
  datatype ModuleView = ModuleView(
    id: string,
    name: string,
    enabled: bool,
    authors: seq<Author>,
    description: string,
    background: bool,
    language: string,
    minLanguageVersion: Option<string>,
    needsAdmin: bool,
    opsecSafe: bool,
    techniques: seq<string>,
    software: Option<string>,
    tactics: seq<string>,
    comments: seq<string>,
    options: map<string, OptionSchema>)

  function NameSet(options: seq<ModuleOption>): set<string> {
    set o | o in options :: o.name
  }

  lemma NameSetSnoc(init: seq<ModuleOption>, last: ModuleOption)
    ensures NameSet(init + [last]) == NameSet(init) + {last.name}
  {
    assert forall o :: o in init + [last] <==> o in init || o == last;
  }

  /** `{x.name: x for x in module.options}`: the options in list order, a
      later option overwriting an earlier one of the same name. */
  function ByName(options: seq<ModuleOption>): (r: map<string, ModuleOption>)
    ensures r.Keys == NameSet(options)
    ensures |r.Keys| <= |options|
  {
    if options == [] then map[]
    else
      var init := options[..|options| - 1];
      var last := options[|options| - 1];
      assert options == init + [last];
      NameSetSnoc(init, last);
      ByName(init)[last.name := last]
  }

  /** An option with no later namesake is the one kept under its name. */
  lemma {:induction false} ByNameLastWins(options: seq<ModuleOption>, i: nat)
    requires i < |options|
    requires forall j :: i < j < |options| ==> options[j].name != options[i].name
    ensures options[i].name in ByName(options) && ByName(options)[options[i].name] == options[i]
  {
    var init := options[..|options| - 1];
    if i < |options| - 1 {
      forall j | i < j < |init| ensures init[j].name != init[i].name {
        assert init[j] == options[j];
      }
      ByNameLastWins(init, i);
      assert init[i] == options[i];
    }
  }

  predicate DistinctNames(options: seq<ModuleOption>) {
    forall i, j :: 0 <= i < j < |options| ==> options[i].name != options[j].name
  }

  /** With distinct names no option is lost. */
  lemma {:induction false} ByNameDistinctSize(options: seq<ModuleOption>)
    requires DistinctNames(options)
    ensures |ByName(options).Keys| == |options|
  {
    if options != [] {
      var init := options[..|options| - 1];
      var last := options[|options| - 1];
      assert |ByName(init).Keys| == |init| by {
        DistinctInit(options);
        ByNameDistinctSize(init);
      }
      LastIsNew(options);
      KeysGrow(ByName(init), last.name, last);
    }
  }

  lemma LastIsNew(options: seq<ModuleOption>)
    requires options != [] && DistinctNames(options)
    ensures options[|options| - 1].name !in ByName(options[..|options| - 1])
  {
    var init := options[..|options| - 1];
    var last := options[|options| - 1];
    forall i | 0 <= i < |init| ensures init[i].name != last.name {
      assert init[i] == options[i];
    }
    NotInNameSet(init, last.name);
  }

  lemma KeysGrow(m: map<string, ModuleOption>, k: string, v: ModuleOption)
    requires k !in m
    ensures |m[k := v].Keys| == |m.Keys| + 1
  {
    assert m[k := v].Keys == m.Keys + {k};
  }

  lemma DistinctInit(options: seq<ModuleOption>)
    requires options != [] && DistinctNames(options)
    ensures DistinctNames(options[..|options| - 1])
  {
    var init := options[..|options| - 1];
    forall i, j | 0 <= i < j < |init| ensures init[i].name != init[j].name {
      assert init[i] == options[i] && init[j] == options[j];
    }
  }

  lemma NotInNameSet(options: seq<ModuleOption>, n: string)
    requires forall i :: 0 <= i < |options| ==> options[i].name != n
    ensures n !in NameSet(options)
  {
    forall o | o in options ensures o.name != n {
      var i :| 0 <= i < |options| && options[i] == o;
    }
  }


  /** The schema entry of one option; its value type comes from
      `to_value_type`, a function of the value and the declared type. */
  function Schema(o: ModuleOption, toValueType: (string, Option<string>) -> string): OptionSchema {
    OptionSchema(o.description, o.required, o.value, o.strict, o.suggestedValues, toValueType(o.value, o.kind))
  }

  /** `domain_to_dto_module`. */
  function DomainToDto(m: EmpireModule, uid: string, toValueType: (string, Option<string>) -> string): (r: ModuleView)
    ensures r.id == uid
    ensures r.options.Keys == NameSet(m.options)
    ensures |r.options.Keys| <= |m.options|
  {
    var byName := ByName(m.options);
    var options := map n | n in byName :: Schema(byName[n], toValueType);
    assert options.Keys == byName.Keys;
    ModuleView(uid, m.name, m.enabled, m.authors, m.description, m.background, m.language, m.minLanguageVersion,
      m.needsAdmin, m.opsecSafe, m.techniques, m.software, m.tactics, m.comments, options)
  }

  /** The top-level fields are copied from the module unchanged. */
  lemma DtoCopiesModule(m: EmpireModule, uid: string, toValueType: (string, Option<string>) -> string)
    ensures var r := DomainToDto(m, uid, toValueType);
      r.name == m.name && r.enabled == m.enabled && r.authors == m.authors && r.description == m.description &&
      r.background == m.background && r.language == m.language && r.minLanguageVersion == m.minLanguageVersion &&
      r.needsAdmin == m.needsAdmin && r.opsecSafe == m.opsecSafe && r.techniques == m.techniques &&
      r.software == m.software && r.tactics == m.tactics && r.comments == m.comments
  {
  }

  /** Each entry carries the fields of the last option bearing its name. */
  lemma DtoOptionFields(m: EmpireModule, uid: string, toValueType: (string, Option<string>) -> string, i: nat)
    requires i < |m.options|
    requires forall j :: i < j < |m.options| ==> m.options[j].name != m.options[i].name
    ensures var o := m.options[i];
      var e := DomainToDto(m, uid, toValueType).options[o.name];
      e.description == o.description && e.required == o.required && e.value == o.value &&
      e.strict == o.strict && e.suggestedValues == o.suggestedValues && e.valueType == toValueType(o.value, o.kind)
  {
    ByNameLastWins(m.options, i);
  }

  /** With distinct option names the table has one entry per option. */
  lemma DtoDistinctSize(m: EmpireModule, uid: string, toValueType: (string, Option<string>) -> string)
    requires DistinctNames(m.options)
    ensures |DomainToDto(m, uid, toValueType).options.Keys| == |m.options|
  {
    ByNameDistinctSize(m.options);
  }
}
