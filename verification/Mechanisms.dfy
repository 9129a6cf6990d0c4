/** Fencing methods and mechanisms: how they are read from a configuration,
    and how a mechanism becomes a container (pkg/apis/fencing/v1alpha1/mechanism.go). */
module Mechanisms {
  import opened Options
  import opened ConfigTree

  datatype EnvVar = EnvVar(name: string, value: string)

  datatype VolumeMount = VolumeMount(name: string, readOnly: bool, mountPath: string)

  datatype Container = Container(
    name: string, image: string, command: seq<string>, env: seq<EnvVar>, mounts: seq<VolumeMount>)

  datatype DynamicConfig = DynamicConfig(field: string, fallback: string, values: map<string, string>)

  datatype Mechanism = Mechanism(
    container: Container, passTargetAs: string, argumentFormat: string, timeoutSeconds: int,
    config: map<string, string>, dynamicConfig: seq<DynamicConfig>, secrets: map<string, string>)

  datatype Method = Method(
    name: string, retries: int, requireAfterSeconds: int, stopOnSuccess: bool, mechanisms: seq<Mechanism>)

  // ------------------------------------------------------------ parsing

  /** The conversion int32(n): wrap-around into 32 bits. */
  function ToInt32(n: int): (r: int)
    ensures -0x8000_0000 <= r < 0x8000_0000
    ensures exists k :: r == n + k * 0x1_0000_0000
    ensures -0x8000_0000 <= n < 0x8000_0000 ==> r == n
  {
    var low := (n + 0x8000_0000) % 0x1_0000_0000;
    assert low - 0x8000_0000 == n + (-((n + 0x8000_0000) / 0x1_0000_0000)) * 0x1_0000_0000;
    low - 0x8000_0000
  }

  function DynamicOf(cfg: Entries): DynamicConfig {
    DynamicConfig(GetString(cfg, "field"), GetString(cfg, "default"), FirstStrings(ListAt(cfg, "values")))
  }

  function EnvOf(cfg: Entries): EnvVar {
    EnvVar(GetString(cfg, "name"), GetString(cfg, "value"))
  }

  /** Applies f to every sub-configuration of a list, up to the first unusable element. */
  function Each<T>(vals: seq<Value>, f: Entries -> T): seq<T> {
    if vals == [] || !Usable(vals[0]) then [] else [f(EntriesOf(vals[0]))] + Each(vals[1..], f)
  }

  lemma {:induction false} EachAt<T>(vals: seq<Value>, f: Entries -> T)
    ensures |Each(vals, f)| == UsablePrefix(vals)
    ensures forall i :: 0 <= i < UsablePrefix(vals) ==> Each(vals, f)[i] == f(EntriesOf(vals[i]))
  {
    if vals != [] && Usable(vals[0]) {
      EachAt(vals[1..], f);
    }
  }

  lemma EachIs<T>(vals: seq<Value>, configs: seq<Entries>, f: Entries -> T, r: seq<T>)
    requires SubConfigs(vals, configs) && |r| == |configs|
    requires forall i :: 0 <= i < |r| ==> r[i] == f(configs[i])
    ensures r == Each(vals, f)
  {
    EachAt(vals, f);
  }

  function ContainerOf(cfg: Entries): Container {
    Container(GetString(cfg, "name"), GetString(cfg, "image"), StringsIn(ListAt(cfg, "command")),
              Each(ListAt(cfg, "env"), EnvOf), [])
  }

  function MechanismOf(cfg: Entries): Mechanism {
    Mechanism(
      ContainerOf(GetSubConfig(cfg, "container")), GetString(cfg, "passTargetAs"),
      GetString(cfg, "argumentFormat"), ToInt32(GetInt(cfg, "timeoutSeconds")),
      FirstStrings(ListAt(cfg, "config")), Each(ListAt(cfg, "dynamicConfig"), DynamicOf),
      FirstStrings(ListAt(cfg, "secrets")))
  }

  function MethodOf(cfg: Entries): Method {
    Method(GetString(cfg, "name"), 1, ToInt32(GetInt(cfg, "requireAfterSeconds")),
           GetBoolWithDefault(cfg, "stopOnSuccess", true), Each(ListAt(cfg, "mechanisms"), MechanismOf))
  }

  // ------------------------------------- what is read, key by key

  ghost predicate DynamicRead(cfg: Entries, d: DynamicConfig) {
    && d.field == TextUnder(cfg, "field")
    && d.fallback == TextUnder(cfg, "default")
    && StringsRead(cfg, "values", d.values)
  }

  /** Each usable element of the list, up to the first unusable one, gives a dynamic field. */
  ghost predicate DynamicsRead(vals: seq<Value>, dcs: seq<DynamicConfig>) {
    |dcs| == UsablePrefix(vals) && forall i :: 0 <= i < |dcs| ==> DynamicRead(EntriesOf(vals[i]), dcs[i])
  }

  ghost predicate EnvRead(vals: seq<Value>, env: seq<EnvVar>) {
    && |env| == UsablePrefix(vals)
    && forall i :: 0 <= i < |env| ==>
         env[i] == EnvVar(TextUnder(EntriesOf(vals[i]), "name"), TextUnder(EntriesOf(vals[i]), "value"))
  }

  ghost predicate ContainerRead(cfg: Entries, c: Container) {
    && c.name == TextUnder(cfg, "name")
    && c.image == TextUnder(cfg, "image")
    && WordsRead(cfg, "command", c.command)
    && EnvRead(ItemsUnder(cfg, "env"), c.env)
    && c.mounts == []
  }

  ghost predicate MechanismRead(cfg: Entries, m: Mechanism) {
    && ContainerRead(if "container" in cfg && Usable(cfg["container"]) then EntriesOf(cfg["container"]) else NOTHING,
                     m.container)
    && m.passTargetAs == TextUnder(cfg, "passTargetAs")
    && m.argumentFormat == TextUnder(cfg, "argumentFormat")
    && m.timeoutSeconds ==
         ToInt32(if "timeoutSeconds" in cfg && cfg["timeoutSeconds"].Int? then cfg["timeoutSeconds"].i else 0)
    && StringsRead(cfg, "config", m.config)
    && DynamicsRead(ItemsUnder(cfg, "dynamicConfig"), m.dynamicConfig)
    && StringsRead(cfg, "secrets", m.secrets)
  }

  ghost predicate MechanismsRead(vals: seq<Value>, ms: seq<Mechanism>) {
    |ms| == UsablePrefix(vals) && forall i :: 0 <= i < |ms| ==> MechanismRead(EntriesOf(vals[i]), ms[i])
  }

  ghost predicate MethodRead(cfg: Entries, m: Method) {
    && m.name == TextUnder(cfg, "name")
    && m.retries == 1
    && m.requireAfterSeconds ==
         ToInt32(if "requireAfterSeconds" in cfg && cfg["requireAfterSeconds"].Int?
                 then cfg["requireAfterSeconds"].i else 0)
    && m.stopOnSuccess ==
         (if "stopOnSuccess" in cfg && cfg["stopOnSuccess"].Bool? then cfg["stopOnSuccess"].b else true)
    && MechanismsRead(ItemsUnder(cfg, "mechanisms"), m.mechanisms)
  }

  lemma DynamicIsRead(cfg: Entries)
    ensures DynamicRead(cfg, DynamicOf(cfg))
  {
    hide StringsRead, GetString, ListAt, FirstStrings;
    GettersPlain(cfg, "field");
    GettersPlain(cfg, "default");
    StringsAreRead(cfg, "values");
  }

  lemma EnvIsRead(vals: seq<Value>)
    ensures EnvRead(vals, Each(vals, EnvOf))
  {
    hide GetString, TextUnder;
    EachAt(vals, EnvOf);
    forall i | 0 <= i < UsablePrefix(vals)
      ensures EnvOf(EntriesOf(vals[i])) ==
              EnvVar(TextUnder(EntriesOf(vals[i]), "name"), TextUnder(EntriesOf(vals[i]), "value"))
    {
      GettersPlain(EntriesOf(vals[i]), "name");
      GettersPlain(EntriesOf(vals[i]), "value");
    }
  }

  lemma ContainerIsRead(cfg: Entries)
    ensures ContainerRead(cfg, ContainerOf(cfg))
  {
    hide GetString, ListAt, TextUnder, WordsRead, EnvRead, StringsIn, ItemsUnder;
    GettersPlain(cfg, "name");
    GettersPlain(cfg, "image");
    GettersPlain(cfg, "env");
    WordsAreRead(cfg, "command");
    EnvIsRead(ItemsUnder(cfg, "env"));
  }

  lemma DynamicsAreRead(vals: seq<Value>)
    ensures DynamicsRead(vals, Each(vals, DynamicOf))
  {
    hide DynamicRead, DynamicOf;
    EachAt(vals, DynamicOf);
    forall i | 0 <= i < UsablePrefix(vals) ensures DynamicRead(EntriesOf(vals[i]), DynamicOf(EntriesOf(vals[i]))) {
      DynamicIsRead(EntriesOf(vals[i]));
    }
  }

  lemma TextsOfMechanism(cfg: Entries)
    ensures GetString(cfg, "passTargetAs") == TextUnder(cfg, "passTargetAs")
    ensures GetString(cfg, "argumentFormat") == TextUnder(cfg, "argumentFormat")
  {
    hide GetString, GetInt, GetBoolWithDefault, GetBool, GetFloat64, GetSubConfig, ListAt, TextUnder, ItemsUnder;
    GettersPlain(cfg, "passTargetAs");
    GettersPlain(cfg, "argumentFormat");
  }

  lemma PartsOfMechanism(cfg: Entries)
    ensures GetInt(cfg, "timeoutSeconds") ==
            if "timeoutSeconds" in cfg && cfg["timeoutSeconds"].Int? then cfg["timeoutSeconds"].i else 0
    ensures GetSubConfig(cfg, "container") ==
            if "container" in cfg && Usable(cfg["container"]) then EntriesOf(cfg["container"]) else NOTHING
    ensures ListAt(cfg, "dynamicConfig") == ItemsUnder(cfg, "dynamicConfig")
  {
    hide GetString, GetInt, GetBoolWithDefault, GetBool, GetFloat64, GetSubConfig, ListAt, TextUnder, ItemsUnder;
    GettersPlain(cfg, "timeoutSeconds");
    GettersPlain(cfg, "container");
    GettersPlain(cfg, "dynamicConfig");
  }

  lemma StringsOfMechanism(cfg: Entries)
    ensures StringsRead(cfg, "config", FirstStrings(ListAt(cfg, "config")))
    ensures StringsRead(cfg, "secrets", FirstStrings(ListAt(cfg, "secrets")))
  {
    hide StringsRead, FirstStrings, ListAt;
    StringsAreRead(cfg, "config");
    StringsAreRead(cfg, "secrets");
  }

  lemma MechanismIsRead(cfg: Entries)
    ensures MechanismRead(cfg, MechanismOf(cfg))
  {
    hide GetString, GetInt, GetSubConfig, ListAt, TextUnder, ItemsUnder, StringsRead, FirstStrings, ToInt32;
    hide ContainerRead, ContainerOf, DynamicsRead, DynamicOf, Usable, EntriesOf, Each;
    TextsOfMechanism(cfg);
    PartsOfMechanism(cfg);
    StringsOfMechanism(cfg);
    ContainerIsRead(GetSubConfig(cfg, "container"));
    DynamicsAreRead(ItemsUnder(cfg, "dynamicConfig"));
  }

  lemma MechanismsAreRead(vals: seq<Value>)
    ensures MechanismsRead(vals, Each(vals, MechanismOf))
  {
    hide MechanismRead, MechanismOf;
    EachAt(vals, MechanismOf);
    forall i | 0 <= i < UsablePrefix(vals)
      ensures MechanismRead(EntriesOf(vals[i]), MechanismOf(EntriesOf(vals[i])))
    {
      MechanismIsRead(EntriesOf(vals[i]));
    }
  }

  lemma PartsOfMethod(cfg: Entries)
    ensures GetString(cfg, "name") == TextUnder(cfg, "name")
    ensures GetInt(cfg, "requireAfterSeconds") ==
            if "requireAfterSeconds" in cfg && cfg["requireAfterSeconds"].Int? then cfg["requireAfterSeconds"].i else 0
    ensures GetBoolWithDefault(cfg, "stopOnSuccess", true) ==
            if "stopOnSuccess" in cfg && cfg["stopOnSuccess"].Bool? then cfg["stopOnSuccess"].b else true
    ensures ListAt(cfg, "mechanisms") == ItemsUnder(cfg, "mechanisms")
  {
    hide GetString, GetInt, GetBoolWithDefault, GetBool, GetFloat64, GetSubConfig, ListAt, TextUnder, ItemsUnder;
    GettersPlain(cfg, "name");
    GettersPlain(cfg, "requireAfterSeconds");
    GettersPlain(cfg, "stopOnSuccess");
    GettersPlain(cfg, "mechanisms");
  }

  lemma MethodIsRead(cfg: Entries)
    ensures MethodRead(cfg, MethodOf(cfg))
  {
    hide GetString, GetInt, GetBoolWithDefault, ListAt, TextUnder, ItemsUnder, ToInt32, MechanismsRead, MechanismOf;
    hide Each;
    PartsOfMethod(cfg);
    MechanismsAreRead(ItemsUnder(cfg, "mechanisms"));
  }

  method NewDynamicAttributeFromConfig(cfg: Entries) returns (d: DynamicConfig)
    ensures d == DynamicOf(cfg) && DynamicRead(cfg, d)
  {
    hide DynamicRead;
    DynamicIsRead(cfg);
    var values := GetMapOfStrings(cfg, "values");
    return DynamicConfig(GetString(cfg, "field"), GetString(cfg, "default"), values);
  }

  method NewEnv(configs: seq<Entries>) returns (env: seq<EnvVar>)
    ensures |env| == |configs|
    ensures forall i :: 0 <= i < |configs| ==> env[i] == EnvOf(configs[i])
  {
    hide GetString;
    env := [];
    for i := 0 to |configs|
      invariant |env| == i
      invariant forall j :: 0 <= j < i ==> env[j] == EnvOf(configs[j])
    {
      env := env + [EnvVar(GetString(configs[i], "name"), GetString(configs[i], "value"))];
    }
  }

  /** A missing configuration would be an error; the caller never passes one. */
  method NewContainerFromConfig(cfg: Option<Entries>) returns (c: Option<Container>)
    ensures c == if cfg.None? then None else Some(ContainerOf(cfg.value))
    ensures cfg.Some? ==> ContainerRead(cfg.value, c.value)
  {
    hide GetString, EnvOf, ListAt, ContainerRead;
    if cfg.None? {
      return None;
    }
    ContainerIsRead(cfg.value);
    var command := GetSliceOfStrings(cfg.value, "command");
    var configs := GetSubConfigArray(cfg.value, "env");
    var env := NewEnv(configs);
    EachIs(ListAt(cfg.value, "env"), configs, EnvOf, env);
    return Some(Container(GetString(cfg.value, "name"), GetString(cfg.value, "image"), command, env, []));
  }

  method NewDynamicConfigs(configs: seq<Entries>) returns (dcs: seq<DynamicConfig>)
    ensures |dcs| == |configs|
    ensures forall i :: 0 <= i < |configs| ==> dcs[i] == DynamicOf(configs[i])
  {
    hide *;
    dcs := [];
    for i := 0 to |configs|
      invariant |dcs| == i
      invariant forall j :: 0 <= j < i ==> dcs[j] == DynamicOf(configs[j])
    {
      var d := NewDynamicAttributeFromConfig(configs[i]);
      dcs := dcs + [d];
    }
  }

  method NewFencingMechanismFromConfig(cfg: Entries) returns (m: Option<Mechanism>)
    ensures m == Some(MechanismOf(cfg)) && MechanismRead(cfg, m.value)
  {
    hide MechanismRead, ContainerRead;
    MechanismIsRead(cfg);
    var seconds := ToInt32(GetInt(cfg, "timeoutSeconds"));
    var configs := GetSubConfigArray(cfg, "dynamicConfig");
    var dcs := NewDynamicConfigs(configs);
    EachIs(ListAt(cfg, "dynamicConfig"), configs, DynamicOf, dcs);
    var container := NewContainerFromConfig(Some(GetSubConfig(cfg, "container")));
    if container.None? {
      return None;
    }
    var config := GetMapOfStrings(cfg, "config");
    var secrets := GetMapOfStrings(cfg, "secrets");
    return Some(Mechanism(container.value, GetString(cfg, "passTargetAs"), GetString(cfg, "argumentFormat"),
                          seconds, config, dcs, secrets));
  }

  method NewMechanisms(configs: seq<Entries>) returns (mechanisms: Option<seq<Mechanism>>)
    ensures mechanisms.Some? && |mechanisms.value| == |configs|
    ensures forall i :: 0 <= i < |configs| ==> mechanisms.value[i] == MechanismOf(configs[i])
  {
    hide *;
    var ms: seq<Mechanism> := [];
    for i := 0 to |configs|
      invariant |ms| == i
      invariant forall j :: 0 <= j < i ==> ms[j] == MechanismOf(configs[j])
    {
      var m := NewFencingMechanismFromConfig(configs[i]);
      if m.None? {
        return None;
      }
      ms := ms + [m.value];
    }
    return Some(ms);
  }

  /** Reading a method never fails: every error branch below it is dead. */
  method NewFencingMethodFromConfig(cfg: Entries) returns (m: Option<Method>)
    ensures m == Some(MethodOf(cfg)) && MethodRead(cfg, m.value)
  {
    hide MethodRead;
    MethodIsRead(cfg);
    var seconds := ToInt32(GetInt(cfg, "requireAfterSeconds"));
    var configs := GetSubConfigArray(cfg, "mechanisms");
    var mechanisms := NewMechanisms(configs);
    if mechanisms.None? {
      return None;
    }
    EachIs(ListAt(cfg, "mechanisms"), configs, MechanismOf, mechanisms.value);
    return Some(Method(GetString(cfg, "name"), 1, seconds, GetBoolWithDefault(cfg, "stopOnSuccess", true),
                       mechanisms.value));
  }

  // ----------------------------------------------------------- bindings

  /** A parameter of a fencing agent. */
  datatype Binding = Binding(name: string, value: string)

  function DynamicValue(dc: DynamicConfig, target: string): (r: Option<string>)
    ensures r.Some? <==> target in dc.values || dc.fallback != ""
    ensures target in dc.values ==> r == Some(dc.values[target])
    ensures target !in dc.values && dc.fallback != "" ==> r == Some(dc.fallback)
  {
    if target in dc.values then Some(dc.values[target])
    else if |dc.fallback| > 0 then Some(dc.fallback)
    else None
  }

  /** order lists every key of m once: one possible order of a range over m. */
  ghost predicate Enumerates(order: seq<string>, m: map<string, string>) {
    && (forall k :: k in order <==> k in m)
    && (forall i, j :: 0 <= i < j < |order| ==> order[i] != order[j])
  }

  lemma {:induction false} EnumerationLength(o: seq<string>, m: map<string, string>)
    requires Enumerates(o, m)
    ensures |o| == |m|
    decreases |o|
  {
    if o == [] {
      assert m.Keys == {};
    } else {
      var rest := m - {o[0]};
      assert o == [o[0]] + o[1..];
      assert rest.Keys == m.Keys - {o[0]};
      EnumerationLength(o[1..], rest);
    }
  }

  function Static(order: seq<string>, m: map<string, string>): (r: seq<Binding>)
    requires forall k :: k in order ==> k in m
    ensures |r| == |order|
    ensures forall i :: 0 <= i < |r| ==> r[i] == Binding(order[i], m[order[i]])
  {
    seq(|order|, i requires 0 <= i < |order| => assert order[i] in order; Binding(order[i], m[order[i]]))
  }

  predicate Resolvable(dcs: seq<DynamicConfig>, target: string) {
    forall i :: 0 <= i < |dcs| ==> DynamicValue(dcs[i], target).Some?
  }

  function Dynamic(dcs: seq<DynamicConfig>, target: string): (r: seq<Binding>)
    requires Resolvable(dcs, target)
    ensures |r| == |dcs|
    ensures forall i :: 0 <= i < |r| ==> r[i] == Binding(dcs[i].field, DynamicValue(dcs[i], target).value)
  {
    seq(|dcs|, i requires 0 <= i < |dcs| => Binding(dcs[i].field, DynamicValue(dcs[i], target).value))
  }

  /** The parameters a mechanism passes for a target, given the order in which
      its static configuration is ranged over. */
  function BindingsOf(m: Mechanism, order: seq<string>, target: string): seq<Binding>
    requires forall k :: k in order ==> k in m.config
    requires Resolvable(m.dynamicConfig, target)
  {
    Static(order, m.config) + Dynamic(m.dynamicConfig, target)
  }

  lemma ResolvableExactly(dcs: seq<DynamicConfig>, target: string)
    ensures Resolvable(dcs, target) <==> forall dc :: dc in dcs ==> target in dc.values || dc.fallback != ""
  {
    if Resolvable(dcs, target) {
      forall dc | dc in dcs ensures target in dc.values || dc.fallback != "" {
        var i :| 0 <= i < |dcs| && dcs[i] == dc;
      }
    } else {
      var i :| 0 <= i < |dcs| && DynamicValue(dcs[i], target).None?;
      assert dcs[i] in dcs;
    }
  }

  /** Exactly the mechanisms a container can be made for. */
  predicate CanCreate(m: Mechanism, target: string) {
    (m.argumentFormat == "cli" || m.argumentFormat == "env") && Resolvable(m.dynamicConfig, target)
  }

  // -------------------------------------------------- the two encodings

  function CliOptions(bs: seq<Binding>): (r: seq<string>)
    ensures |r| == 2 * |bs|
  {
    if bs == [] then [] else ["--" + bs[0].name, bs[0].value] + CliOptions(bs[1..])
  }

  function CliTail(pass: string, target: string): seq<string> {
    (if |pass| > 0 then ["--" + pass] else []) + [target]
  }

  function EnvVars(bs: seq<Binding>): (r: seq<EnvVar>)
    ensures |r| == |bs|
    ensures forall i :: 0 <= i < |r| ==> r[i] == EnvVar(bs[i].name, bs[i].value)
  {
    seq(|bs|, i requires 0 <= i < |bs| => EnvVar(bs[i].name, bs[i].value))
  }

  function EnvTail(pass: string, target: string): seq<EnvVar> {
    if |pass| > 0 then [EnvVar(pass, target)] else []
  }

  function SecretPath(secretsDir: string, key: string, secret: string): EnvVar {
    EnvVar("SECRETPATH_" + key, secretsDir + "/" + secret)
  }

  function SecretPaths(order: seq<string>, secrets: map<string, string>, secretsDir: string): (r: seq<EnvVar>)
    requires forall k :: k in order ==> k in secrets
    ensures |r| == |order|
    ensures forall i :: 0 <= i < |r| ==> r[i] == SecretPath(secretsDir, order[i], secrets[order[i]])
  {
    seq(|order|, i requires 0 <= i < |order| =>
      assert order[i] in order; SecretPath(secretsDir, order[i], secrets[order[i]]))
  }

  /** The variables every container carries, whatever its format. */
  function CommonEnv(m: Mechanism, secretOrder: seq<string>, secretsDir: string): seq<EnvVar>
    requires forall k :: k in secretOrder ==> k in m.secrets
  {
    [EnvVar("SECRET_FORMAT", m.argumentFormat)] + m.container.env + SecretPaths(secretOrder, m.secrets, secretsDir)
  }

  function CliCommand(m: Mechanism, order: seq<string>, target: string): seq<string>
    requires forall k :: k in order ==> k in m.config
    requires Resolvable(m.dynamicConfig, target)
  {
    m.container.command + CliOptions(BindingsOf(m, order, target)) + CliTail(m.passTargetAs, target)
  }

  function EnvFormat(m: Mechanism, secretOrder: seq<string>, order: seq<string>,
                     target: string, secretsDir: string): seq<EnvVar>
    requires forall k :: k in secretOrder ==> k in m.secrets
    requires forall k :: k in order ==> k in m.config
    requires Resolvable(m.dynamicConfig, target)
  {
    CommonEnv(m, secretOrder, secretsDir) + EnvVars(BindingsOf(m, order, target)) + EnvTail(m.passTargetAs, target)
  }

  lemma {:induction false} CliOptionsSnoc(bs: seq<Binding>, b: Binding)
    ensures CliOptions(bs + [b]) == CliOptions(bs) + ["--" + b.name, b.value]
  {
    if bs != [] {
      assert (bs + [b])[1..] == bs[1..] + [b];
      CliOptionsSnoc(bs[1..], b);
    }
  }

  /** The orders of one container: static configuration and secrets, as ranged over. */
  datatype Orders = Orders(config: seq<string>, secrets: seq<string>)

  ghost predicate OrdersOf(m: Mechanism, o: Orders) {
    Enumerates(o.config, m.config) && Enumerates(o.secrets, m.secrets)
  }

  method SecretPathVars(secrets: map<string, string>, secretsDir: string)
    returns (vars: seq<EnvVar>, ghost order: seq<string>)
    ensures Enumerates(order, secrets) && vars == SecretPaths(order, secrets, secretsDir)
  {
    vars, order := [], [];
    var rest := secrets.Keys;
    while rest != {}
      invariant rest <= secrets.Keys
      invariant forall k :: k in order <==> k in secrets && k !in rest
      invariant forall i, j :: 0 <= i < j < |order| ==> order[i] != order[j]
      invariant vars == SecretPaths(order, secrets, secretsDir)
      decreases |rest|
    {
      var name :| name in rest;
      vars := vars + [EnvVar("SECRETPATH_" + name, secretsDir + "/" + secrets[name])];
      order := order + [name];
      rest := rest - {name};
    }
  }

  method StaticVars(config: map<string, string>) returns (vars: seq<EnvVar>, ghost order: seq<string>)
    ensures Enumerates(order, config) && vars == EnvVars(Static(order, config))
  {
    vars, order := [], [];
    var rest := config.Keys;
    while rest != {}
      invariant rest <= config.Keys
      invariant forall k :: k in order <==> k in config && k !in rest
      invariant forall i, j :: 0 <= i < j < |order| ==> order[i] != order[j]
      invariant vars == EnvVars(Static(order, config))
      decreases |rest|
    {
      var name :| name in rest;
      vars := vars + [EnvVar(name, config[name])];
      order := order + [name];
      rest := rest - {name};
    }
  }

  method DynamicVars(dcs: seq<DynamicConfig>, target: string) returns (vars: Option<seq<EnvVar>>)
    ensures vars.Some? <==> Resolvable(dcs, target)
    ensures vars.Some? ==> vars.value == EnvVars(Dynamic(dcs, target))
  {
    var env := [];
    for i := 0 to |dcs|
      invariant Resolvable(dcs[..i], target)
      invariant |env| == i
      invariant forall j :: 0 <= j < i ==> env[j] == EnvVar(dcs[j].field, DynamicValue(dcs[j], target).value)
    {
      var value := DynamicValue(dcs[i], target);
      if value.None? {
        return None;
      }
      env := env + [EnvVar(dcs[i].field, value.value)];
    }
    assert dcs[..|dcs|] == dcs;
    return Some(env);
  }

  method GetContainerEnv(m: Mechanism, target: string, secretsDir: string)
    returns (env: Option<seq<EnvVar>>, ghost o: Orders)
    ensures env.Some? <==> CanCreate(m, target) || m.argumentFormat == "cli"
    ensures env.Some? ==> OrdersOf(m, o)
    ensures env.Some? && m.argumentFormat == "cli" ==> env.value == CommonEnv(m, o.secrets, secretsDir)
    ensures env.Some? && m.argumentFormat == "env" ==>
              env.value == EnvFormat(m, o.secrets, o.config, target, secretsDir)
  {
    var paths, secretOrder := SecretPathVars(m.secrets, secretsDir);
    var common := [EnvVar("SECRET_FORMAT", m.argumentFormat)] + m.container.env + paths;
    o := Orders(SomeOrder(m.config), secretOrder);
    if m.argumentFormat == "cli" {
      return Some(common), o;
    }
    if m.argumentFormat == "env" {
      var fixed, order := StaticVars(m.config);
      var dynamic := DynamicVars(m.dynamicConfig, target);
      if dynamic.None? {
        return None, o;
      }
      o := Orders(order, secretOrder);
      assert EnvVars(BindingsOf(m, order, target)) == fixed + dynamic.value;
      var e := common + (fixed + dynamic.value);
      if |m.passTargetAs| > 0 {
        e := e + [EnvVar(m.passTargetAs, target)];
      } else {
        assert e == e + [];
      }
      return Some(e), o;
    }
    return None, o;
  }

  ghost function SomeOrder(m: map<string, string>): (order: seq<string>)
    ensures Enumerates(order, m)
    decreases |m|
  {
    if m == map[] then []
    else
      var k :| k in m;
      var rest := m - {k};
      assert rest.Keys == m.Keys - {k};
      [k] + SomeOrder(rest)
  }

  lemma {:induction false} CliOptionsConcat(a: seq<Binding>, b: seq<Binding>)
    ensures CliOptions(a + b) == CliOptions(a) + CliOptions(b)
  {
    if a == [] {
      assert a + b == b;
    } else {
      assert (a + b)[1..] == a[1..] + b;
      CliOptionsConcat(a[1..], b);
    }
  }

  method StaticOptions(config: map<string, string>) returns (words: seq<string>, ghost order: seq<string>)
    ensures Enumerates(order, config) && words == CliOptions(Static(order, config))
  {
    words, order := [], [];
    var rest := config.Keys;
    while rest != {}
      invariant rest <= config.Keys
      invariant forall k :: k in order <==> k in config && k !in rest
      invariant forall i, j :: 0 <= i < j < |order| ==> order[i] != order[j]
      invariant words == CliOptions(Static(order, config))
      decreases |rest|
    {
      var name :| name in rest;
      CliOptionsSnoc(Static(order, config), Binding(name, config[name]));
      words := words + ["--" + name, config[name]];
      assert Static(order + [name], config) == Static(order, config) + [Binding(name, config[name])];
      order := order + [name];
      rest := rest - {name};
    }
  }

  method DynamicOptions(dcs: seq<DynamicConfig>, target: string) returns (words: Option<seq<string>>)
    ensures words.Some? <==> Resolvable(dcs, target)
    ensures words.Some? ==> words.value == CliOptions(Dynamic(dcs, target))
  {
    var ws := [];
    for i := 0 to |dcs|
      invariant Resolvable(dcs[..i], target)
      invariant ws == CliOptions(Dynamic(dcs[..i], target))
    {
      var value := DynamicValue(dcs[i], target);
      if value.None? {
        return None;
      }
      ghost var done := Dynamic(dcs[..i], target);
      CliOptionsSnoc(done, Binding(dcs[i].field, value.value));
      ws := ws + ["--" + dcs[i].field, value.value];
      assert Dynamic(dcs[..i + 1], target) == done + [Binding(dcs[i].field, value.value)];
    }
    assert dcs[..|dcs|] == dcs;
    return Some(ws);
  }

  method GetContainerCommand(m: Mechanism, target: string) returns (cmd: Option<seq<string>>, ghost order: seq<string>)
    ensures cmd.Some? <==> CanCreate(m, target) || m.argumentFormat == "env"
    ensures cmd.Some? && m.argumentFormat == "env" ==> cmd.value == m.container.command
    ensures cmd.Some? && m.argumentFormat == "cli" ==>
              Enumerates(order, m.config) && cmd.value == CliCommand(m, order, target)
  {
    order := [];
    if m.argumentFormat == "env" {
      return Some(m.container.command), [];
    }
    if m.argumentFormat == "cli" {
      var fixed;
      fixed, order := StaticOptions(m.config);
      var dynamic := DynamicOptions(m.dynamicConfig, target);
      if dynamic.None? {
        return None, order;
      }
      CliOptionsConcat(Static(order, m.config), Dynamic(m.dynamicConfig, target));
      var command := m.container.command + (fixed + dynamic.value);
      var tail := [target];
      if |m.passTargetAs| > 0 {
        tail := ["--" + m.passTargetAs] + tail;
      }
      return Some(command + tail), order;
    }
    return None, order;
  }

  /** The containers a mechanism may become, over all orders of its maps. */
  function ContainerFor(m: Mechanism, o: Orders, target: string, secretsDir: string): Container
    requires forall k :: k in o.secrets ==> k in m.secrets
    requires forall k :: k in o.config ==> k in m.config
    requires Resolvable(m.dynamicConfig, target)
  {
    if m.argumentFormat == "cli" then
      m.container.(command := CliCommand(m, o.config, target), env := CommonEnv(m, o.secrets, secretsDir))
    else
      m.container.(env := EnvFormat(m, o.secrets, o.config, target, secretsDir))
  }

  // -------------------------------- what a container is given, item by item

  /** Every parameter in its place: the static ones in the order of the range,
      the dynamic ones in theirs, and the target last if it has a name. */
  ghost predicate VarsMade(m: Mechanism, order: seq<string>, target: string, vars: seq<EnvVar>)
    requires (forall k :: k in order ==> k in m.config) && Resolvable(m.dynamicConfig, target)
  {
    var n, dcs := |order|, m.dynamicConfig;
    && |vars| == n + |dcs| + (if m.passTargetAs != "" then 1 else 0)
    && (forall i :: 0 <= i < n ==> order[i] in m.config && vars[i] == EnvVar(order[i], m.config[order[i]]))
    && (forall i :: 0 <= i < |dcs| ==> vars[n + i] == EnvVar(dcs[i].field, DynamicValue(dcs[i], target).value))
    && (m.passTargetAs != "" ==> vars[n + |dcs|] == EnvVar(m.passTargetAs, target))
  }

  /** The same as words behind the mechanism's own: an option and its value each,
      and the target last, after its option if it has a name. */
  ghost predicate WordsMade(m: Mechanism, order: seq<string>, target: string, words: seq<string>)
    requires (forall k :: k in order ==> k in m.config) && Resolvable(m.dynamicConfig, target)
  {
    var b, n, dcs := |m.container.command|, |order|, m.dynamicConfig;
    && |words| == b + 2 * (n + |dcs|) + (if m.passTargetAs != "" then 2 else 1)
    && words[..b] == m.container.command
    && (forall i :: 0 <= i < n ==> order[i] in m.config && OptionAt(words, b, i, order[i], m.config[order[i]]))
    && (forall i :: 0 <= i < |dcs| ==>
          OptionAt(words, b, n + i, dcs[i].field, DynamicValue(dcs[i], target).value))
    && (m.passTargetAs != "" ==> words[|words| - 2] == "--" + m.passTargetAs)
    && words[|words| - 1] == target
  }

  predicate OptionAt(words: seq<string>, b: nat, i: nat, name: string, value: string) {
    b + 2 * i + 1 < |words| && words[b + 2 * i] == "--" + name && words[b + 2 * i + 1] == value
  }

  /** The variables every container gets, whatever its format: the format, the
      container's own, and the path of each secret. */
  ghost predicate SharedVars(m: Mechanism, secrets: seq<string>, secretsDir: string, env: seq<EnvVar>) {
    var n, k := |m.container.env|, |secrets|;
    && |env| >= 1 + n + k
    && env[0] == EnvVar("SECRET_FORMAT", m.argumentFormat)
    && env[1..1 + n] == m.container.env
    && (forall i :: 0 <= i < k ==>
          && secrets[i] in m.secrets
          && env[1 + n + i] == EnvVar("SECRETPATH_" + secrets[i], secretsDir + "/" + m.secrets[secrets[i]]))
  }

  /** Those, and in the env format the parameters behind them. */
  ghost predicate EnvMade(m: Mechanism, o: Orders, target: string, secretsDir: string, env: seq<EnvVar>)
    requires (forall k :: k in o.config ==> k in m.config) && Resolvable(m.dynamicConfig, target)
  {
    var k := 1 + |m.container.env| + |o.secrets|;
    && SharedVars(m, o.secrets, secretsDir, env)
    && if m.argumentFormat == "env" then VarsMade(m, o.config, target, env[k..]) else |env| == k
  }

  ghost predicate ContainerMade(m: Mechanism, o: Orders, target: string, secretsDir: string, c: Container)
    requires (forall k :: k in o.config ==> k in m.config) && Resolvable(m.dynamicConfig, target)
  {
    && c.name == m.container.name && c.image == m.container.image && c.mounts == m.container.mounts
    && (if m.argumentFormat == "cli" then WordsMade(m, o.config, target, c.command)
        else c.command == m.container.command)
    && EnvMade(m, o, target, secretsDir, c.env)
  }

  lemma {:induction false} CliOptionsAt(bs: seq<Binding>, i: nat)
    requires i < |bs|
    ensures CliOptions(bs)[2 * i] == "--" + bs[i].name && CliOptions(bs)[2 * i + 1] == bs[i].value
  {
    if i > 0 {
      CliOptionsAt(bs[1..], i - 1);
      assert CliOptions(bs)[2 * i] == CliOptions(bs[1..])[2 * (i - 1)];
      assert CliOptions(bs)[2 * i + 1] == CliOptions(bs[1..])[2 * (i - 1) + 1];
    }
  }

  lemma OptionsMade(b: seq<string>, bs: seq<Binding>, tail: seq<string>, i: nat)
    requires i < |bs|
    ensures OptionAt(b + CliOptions(bs) + tail, |b|, i, bs[i].name, bs[i].value)
  {
    CliOptionsAt(bs, i);
    var words := b + CliOptions(bs) + tail;
    assert words[|b| + 2 * i] == CliOptions(bs)[2 * i];
    assert words[|b| + 2 * i + 1] == CliOptions(bs)[2 * i + 1];
  }

  lemma WordsAreMade(m: Mechanism, order: seq<string>, target: string)
    requires Enumerates(order, m.config) && Resolvable(m.dynamicConfig, target)
    ensures WordsMade(m, order, target, CliCommand(m, order, target))
  {
    hide OptionAt, CliOptions, DynamicValue;
    var words, bs, tail := CliCommand(m, order, target), BindingsOf(m, order, target), CliTail(m.passTargetAs, target);
    var b, n, dcs := m.container.command, |order|, m.dynamicConfig;
    assert words == b + CliOptions(bs) + tail;
    forall i | 0 <= i < n ensures order[i] in m.config && OptionAt(words, |b|, i, order[i], m.config[order[i]]) {
      assert order[i] in order && bs[i] == Static(order, m.config)[i];
      OptionsMade(b, bs, tail, i);
    }
    forall i | 0 <= i < |dcs| ensures OptionAt(words, |b|, n + i, dcs[i].field, DynamicValue(dcs[i], target).value) {
      assert bs[n + i] == Dynamic(dcs, target)[i];
      OptionsMade(b, bs, tail, n + i);
    }
  }

  lemma SharedAreMade(m: Mechanism, secrets: seq<string>, secretsDir: string, rest: seq<EnvVar>)
    requires forall k :: k in secrets ==> k in m.secrets
    ensures SharedVars(m, secrets, secretsDir, CommonEnv(m, secrets, secretsDir) + rest)
  {
    var n, paths := |m.container.env|, SecretPaths(secrets, m.secrets, secretsDir);
    var env := CommonEnv(m, secrets, secretsDir) + rest;
    assert env[1..1 + n] == m.container.env;
    forall i | 0 <= i < |secrets|
      ensures secrets[i] in m.secrets && env[1 + n + i] == SecretPath(secretsDir, secrets[i], m.secrets[secrets[i]])
    {
      assert secrets[i] in secrets && env[1 + n + i] == paths[i];
    }
  }

  lemma EnvIsMade(m: Mechanism, o: Orders, target: string, secretsDir: string)
    requires OrdersOf(m, o) && Resolvable(m.dynamicConfig, target)
    ensures m.argumentFormat != "env" ==> EnvMade(m, o, target, secretsDir, CommonEnv(m, o.secrets, secretsDir))
    ensures m.argumentFormat == "env" ==>
              EnvMade(m, o, target, secretsDir, EnvFormat(m, o.secrets, o.config, target, secretsDir))
  {
    hide DynamicValue, SharedVars, VarsMade, CommonEnv;
    var common := CommonEnv(m, o.secrets, secretsDir);
    var vars := EnvVars(BindingsOf(m, o.config, target)) + EnvTail(m.passTargetAs, target);
    CommonLength(m, o.secrets, secretsDir);
    SharedAreMade(m, o.secrets, secretsDir, []);
    SharedAreMade(m, o.secrets, secretsDir, vars);
    VarsAreMade(m, o.config, target);
    assert common + [] == common;
    assert EnvFormat(m, o.secrets, o.config, target, secretsDir) == common + vars;
    assert (common + vars)[|common|..] == vars;
  }

  lemma CommonLength(m: Mechanism, secrets: seq<string>, secretsDir: string)
    requires forall k :: k in secrets ==> k in m.secrets
    ensures |CommonEnv(m, secrets, secretsDir)| == 1 + |m.container.env| + |secrets|
  {
  }

  lemma StaticVar(m: Mechanism, order: seq<string>, target: string, i: nat)
    requires Enumerates(order, m.config) && Resolvable(m.dynamicConfig, target) && i < |order|
    ensures order[i] in m.config
    ensures BindingsOf(m, order, target)[i] == Binding(order[i], m.config[order[i]])
  {
    hide DynamicValue;
    assert order[i] in order;
  }

  lemma DynamicVar(m: Mechanism, order: seq<string>, target: string, i: nat)
    requires Enumerates(order, m.config) && Resolvable(m.dynamicConfig, target) && i < |m.dynamicConfig|
    ensures BindingsOf(m, order, target)[|order| + i] ==
            Binding(m.dynamicConfig[i].field, DynamicValue(m.dynamicConfig[i], target).value)
  {
    hide DynamicValue;
    assert BindingsOf(m, order, target)[|order| + i] == Dynamic(m.dynamicConfig, target)[i];
  }

  lemma BindingsCount(m: Mechanism, order: seq<string>, target: string)
    requires Enumerates(order, m.config) && Resolvable(m.dynamicConfig, target)
    ensures |BindingsOf(m, order, target)| == |order| + |m.dynamicConfig|
  {
  }

  lemma VarsAreMade(m: Mechanism, order: seq<string>, target: string)
    requires Enumerates(order, m.config) && Resolvable(m.dynamicConfig, target)
    ensures VarsMade(m, order, target, EnvVars(BindingsOf(m, order, target)) + EnvTail(m.passTargetAs, target))
  {
    hide DynamicValue, BindingsOf, EnvVars;
    BindingsCount(m, order, target);
    forall i | 0 <= i < |order|
      ensures order[i] in m.config && BindingsOf(m, order, target)[i] == Binding(order[i], m.config[order[i]])
    {
      StaticVar(m, order, target, i);
    }
    forall i | 0 <= i < |m.dynamicConfig|
      ensures BindingsOf(m, order, target)[|order| + i] ==
              Binding(m.dynamicConfig[i].field, DynamicValue(m.dynamicConfig[i], target).value)
    {
      DynamicVar(m, order, target, i);
    }
  }

  lemma ContainerIsMade(m: Mechanism, o: Orders, target: string, secretsDir: string)
    requires OrdersOf(m, o) && CanCreate(m, target)
    ensures ContainerMade(m, o, target, secretsDir, ContainerFor(m, o, target, secretsDir))
  {
    hide WordsMade, EnvMade, CliCommand, CommonEnv, EnvFormat;
    WordsAreMade(m, o.config, target);
    EnvIsMade(m, o, target, secretsDir);
  }

  method CreateContainer(m: Mechanism, target: string, secretsDir: string)
    returns (container: Option<Container>, ghost o: Orders)
    ensures container.Some? <==> CanCreate(m, target)
    ensures container.Some? <==>
              && (m.argumentFormat == "cli" || m.argumentFormat == "env")
              && forall dc :: dc in m.dynamicConfig ==> target in dc.values || dc.fallback != ""
    ensures container.Some? ==> OrdersOf(m, o) && ContainerMade(m, o, target, secretsDir, container.value)
    ensures container.Some? ==> container.value == ContainerFor(m, o, target, secretsDir)
  {
    hide ContainerMade, Resolvable;
    ResolvableExactly(m.dynamicConfig, target);
    var c := m.container;
    var cmd, order := GetContainerCommand(m, target);
    if cmd.None? {
      return None, Orders([], []);
    } else if |cmd.value| > 0 {
      c := c.(command := cmd.value);
    }
    var env;
    env, o := GetContainerEnv(m, target, secretsDir);
    if env.None? {
      return None, o;
    }
    c := c.(env := env.value);
    if m.argumentFormat == "cli" {
      o := o.(config := order);
    }
    ContainerIsMade(m, o, target, secretsDir);
    return Some(c), o;
  }

  // ------------------------------------- both encodings say the same

  /** What an agent reads from its command line. */
  datatype Parsed = Parsed(options: seq<Binding>, positional: seq<string>)

  /** The option parser the cli format is written for: a word starting with
      two dashes takes the next word as its value, whatever that word is. */
  function ParseOptions(words: seq<string>): Parsed {
    if |words| < 2 || |words[0]| < 2 || words[0][..2] != "--" then Parsed([], words)
    else
      var rest := ParseOptions(words[2..]);
      Parsed([Binding(words[0][2..], words[1])] + rest.options, rest.positional)
  }

  lemma {:induction false} ParseInvertsCli(bs: seq<Binding>, tail: seq<string>)
    requires |tail| <= 1
    ensures ParseOptions(CliOptions(bs) + tail) == Parsed(bs, tail)
  {
    var words := CliOptions(bs) + tail;
    if bs != [] {
      assert words[2..] == CliOptions(bs[1..]) + tail;
      assert words[0][..2] == "--" && words[0][2..] == bs[0].name;
      ParseInvertsCli(bs[1..], tail);
    } else {
      assert words == tail;
    }
  }

  function PassedTarget(pass: string, target: string): seq<Binding> {
    if |pass| > 0 then [Binding(pass, target)] else []
  }

  /** The words a cli command appends parse back to the bindings in order,
      with the target as an option or, unnamed, as the one positional word. */
  lemma CliRoundTrip(m: Mechanism, order: seq<string>, target: string)
    requires Enumerates(order, m.config) && Resolvable(m.dynamicConfig, target)
    ensures ParseOptions(CliCommand(m, order, target)[|m.container.command|..]) ==
            Parsed(BindingsOf(m, order, target) + PassedTarget(m.passTargetAs, target),
                   if |m.passTargetAs| > 0 then [] else [target])
  {
    var bs := BindingsOf(m, order, target);
    var appended := CliCommand(m, order, target)[|m.container.command|..];
    if |m.passTargetAs| > 0 {
      CliOptionsSnoc(bs, Binding(m.passTargetAs, target));
      ParseInvertsCli(bs + [Binding(m.passTargetAs, target)], []);
      assert appended == CliOptions(bs + [Binding(m.passTargetAs, target)]) + [];
    } else {
      ParseInvertsCli(bs, [target]);
      assert appended == CliOptions(bs) + [target];
      assert bs + [] == bs;
    }
  }

  /** The bindings in a list of variables. */
  function ReadVars(vars: seq<EnvVar>): (r: seq<Binding>)
    ensures |r| == |vars|
    ensures forall i :: 0 <= i < |r| ==> r[i] == Binding(vars[i].name, vars[i].value)
  {
    seq(|vars|, i requires 0 <= i < |vars| => Binding(vars[i].name, vars[i].value))
  }

  lemma {:induction false} StaticCount(order: seq<string>, m: map<string, string>, b: Binding)
    requires forall k :: k in order ==> k in m
    requires forall i, j :: 0 <= i < j < |order| ==> order[i] != order[j]
    ensures multiset(Static(order, m))[b] == if b.name in order && m[b.name] == b.value then 1 else 0
  {
    if order != [] {
      var rest, head := order[1..], Binding(order[0], m[order[0]]);
      StaticCount(rest, m, b);
      StaticHead(order, m);
      assert order == [order[0]] + rest;
      if head == b {
        assert b.name !in rest;
      }
    }
  }

  lemma StaticHead(order: seq<string>, m: map<string, string>)
    requires order != [] && forall k :: k in order ==> k in m
    ensures multiset(Static(order, m)) == multiset{Binding(order[0], m[order[0]])} + multiset(Static(order[1..], m))
  {
    assert Static(order, m) == [Binding(order[0], m[order[0]])] + Static(order[1..], m);
  }

  /** The order of a range over a map does not change the bindings it yields. */
  lemma StaticOrderFree(o: seq<string>, p: seq<string>, m: map<string, string>)
    requires Enumerates(o, m) && Enumerates(p, m)
    ensures multiset(Static(o, m)) == multiset(Static(p, m))
  {
    forall b ensures multiset(Static(o, m))[b] == multiset(Static(p, m))[b] {
      StaticCount(o, m, b);
      StaticCount(p, m, b);
    }
  }

  lemma AddedVars(m: Mechanism, secrets: seq<string>, order: seq<string>, target: string, dir: string)
    requires (forall k :: k in secrets ==> k in m.secrets) && (forall k :: k in order ==> k in m.config)
    requires Resolvable(m.dynamicConfig, target)
    ensures |EnvFormat(m, secrets, order, target, dir)| >= 1 + |m.container.env| + |secrets|
    ensures EnvFormat(m, secrets, order, target, dir)[1 + |m.container.env| + |secrets|..] ==
            EnvVars(BindingsOf(m, order, target)) + EnvTail(m.passTargetAs, target)
  {
    hide SecretPath, DynamicValue;
    var common := CommonEnv(m, secrets, dir);
    assert |common| == 1 + |m.container.env| + |secrets|;
    assert EnvFormat(m, secrets, order, target, dir) ==
           common + (EnvVars(BindingsOf(m, order, target)) + EnvTail(m.passTargetAs, target));
  }

  /** Whatever the map orders on either side, the options of the cli command
      are the variables that the env format adds, as a multiset. */
  lemma EncodingsAgree(m: Mechanism, cli: seq<string>, env: seq<string>, secrets: seq<string>,
                       target: string, dir: string)
    requires Enumerates(cli, m.config) && Enumerates(env, m.config) && Enumerates(secrets, m.secrets)
    requires Resolvable(m.dynamicConfig, target)
    ensures
      var words := CliCommand(m, cli, target)[|m.container.command|..];
      var vars := EnvFormat(m, secrets, env, target, dir)[1 + |m.container.env| + |secrets|..];
      multiset(ParseOptions(words).options) == multiset(ReadVars(vars))
  {
    hide EnvFormat, CliCommand, ParseOptions, DynamicValue;
    CliRoundTrip(m, cli, target);
    AddedVars(m, secrets, env, target, dir);
    StaticOrderFree(cli, env, m.config);
    var vars := EnvFormat(m, secrets, env, target, dir)[1 + |m.container.env| + |secrets|..];
    var dynamic, passed := Dynamic(m.dynamicConfig, target), PassedTarget(m.passTargetAs, target);
    assert ReadVars(vars) == Static(env, m.config) + dynamic + passed;
  }
}
