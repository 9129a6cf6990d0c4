/** The registry of fencing configurations (HandleConfigMap, pkg/stub/fencing.go:76-122). */
module Registry {
  import opened Options
  import opened ConfigTree
  import opened Mechanisms

  datatype FencingConfig = FencingConfig(name: string, nodeSelector: map<string, string>, methods: seq<Method>)

  /** The text under the "fencing-config" key, as the YAML reader leaves it. */
  datatype Text = BadYaml | Parsed(cfg: Entries)

  datatype ConfigMapEvent = ConfigMapEvent(name: string, text: Option<Text>, deleted: bool)

  /** The global map of the operator: an entry may be nil. */
  type Configs = map<string, Option<FencingConfig>>

  function ConfigOf(name: string, cfg: Entries): FencingConfig {
    FencingConfig(name, FirstStrings(ListAt(cfg, "nodeSelector")), Each(ListAt(cfg, "methods"), MethodOf))
  }

  function AfterEvent(configs: Configs, e: ConfigMapEvent): Configs {
    if e.text.None? then configs
    else if e.deleted then configs[e.name := None]
    else match e.text.value
      case BadYaml => if e.name in configs then configs[e.name := None] else configs
      case Parsed(cfg) => configs[e.name := Some(ConfigOf(e.name, cfg))]
  }

  /** The configuration that a readable text gives, key by key. */
  ghost predicate ConfigRead(name: string, cfg: Entries, config: FencingConfig) {
    var vals := ItemsUnder(cfg, "methods");
    && config.name == name
    && StringsRead(cfg, "nodeSelector", config.nodeSelector)
    && |config.methods| == UsablePrefix(vals)
    && forall i :: 0 <= i < |config.methods| ==> MethodRead(EntriesOf(vals[i]), config.methods[i])
  }

  lemma ConfigIsRead(name: string, cfg: Entries)
    ensures ConfigRead(name, cfg, ConfigOf(name, cfg))
  {
    hide StringsRead, FirstStrings, MethodRead, MethodOf, ListAt, ItemsUnder;
    StringsAreRead(cfg, "nodeSelector");
    GettersPlain(cfg, "methods");
    var vals := ItemsUnder(cfg, "methods");
    EachAt(vals, MethodOf);
    forall i | 0 <= i < UsablePrefix(vals) ensures MethodRead(EntriesOf(vals[i]), MethodOf(EntriesOf(vals[i]))) {
      MethodIsRead(EntriesOf(vals[i]));
    }
  }

  // ------------------------------------------------- event histories

  function AfterEvents(events: seq<ConfigMapEvent>): Configs {
    if events == [] then map[]
    else AfterEvent(AfterEvents(events[..|events| - 1]), events[|events| - 1])
  }

  predicate Concerns(e: ConfigMapEvent, name: string) {
    e.name == name && e.text.Some?
  }

  /** The events that leave an entry behind even where there was none. */
  predicate Stores(e: ConfigMapEvent) {
    e.text.Some? && (e.deleted || e.text.value.Parsed?)
  }

  ghost predicate Latest(events: seq<ConfigMapEvent>, name: string, i: nat) {
    && i < |events| && Concerns(events[i], name)
    && forall j :: i < j < |events| ==> !Concerns(events[j], name)
  }

  ghost predicate StoredAt(events: seq<ConfigMapEvent>, name: string, i: nat) {
    i < |events| && Concerns(events[i], name) && Stores(events[i])
  }

  /** A name has an entry exactly when one of its events ever stored something. */
  lemma {:induction false} RegistryDomain(events: seq<ConfigMapEvent>, name: string)
    ensures name in AfterEvents(events) <==> exists i: nat :: StoredAt(events, name, i)
  {
    hide ConfigOf;
    if events != [] {
      var n := |events| - 1;
      var front := events[..n];
      RegistryDomain(front, name);
      if i: nat :| StoredAt(front, name, i) {
        assert StoredAt(events, name, i);
      }
      if i: nat :| StoredAt(events, name, i) && i < n {
        assert StoredAt(front, name, i);
      }
      if Concerns(events[n], name) && Stores(events[n]) {
        assert StoredAt(events, name, n);
      }
    }
  }

  /** What an entry holds after its event e: nil after a deletion or unreadable text. */
  function EntryAfter(e: ConfigMapEvent): Option<FencingConfig>
    requires e.text.Some?
  {
    if e.deleted || e.text.value.BadYaml? then None else Some(ConfigOf(e.name, e.text.value.cfg))
  }

  /** Whatever the history, an entry is the parse of its latest event and of no
      other: no earlier version and no event of another name is ever served. */
  lemma {:induction false} RegistryServesLatest(events: seq<ConfigMapEvent>, name: string, i: nat)
    requires Latest(events, name, i) && name in AfterEvents(events)
    ensures AfterEvents(events)[name] == EntryAfter(events[i])
    decreases |events|
  {
    hide ConfigOf;
    var n := |events| - 1;
    if !Concerns(events[n], name) {
      assert Latest(events[..n], name, i);
      RegistryServesLatest(events[..n], name, i);
    }
  }

  /** Every entry carries the name it is filed under. */
  ghost predicate NamedConfigs(configs: Configs) {
    forall n :: n in configs && configs[n].Some? ==> configs[n].value.name == n
  }

  lemma EventsKeepNames(configs: Configs, e: ConfigMapEvent)
    requires NamedConfigs(configs)
    ensures NamedConfigs(AfterEvent(configs, e))
  {
    hide FirstStrings, Each;
  }
}
