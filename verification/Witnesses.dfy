/** Inputs on which the code does not do what one would expect of it: each is a
    concrete run or value on which a condition proved elsewhere fails. */
module Witnesses {
  import opened Options
  import opened ConfigTree
  import opened Mechanisms
  import opened CommandSlices
  import opened Requests
  import opened JobBuilder
  import opened Registry
  import opened Selection
  import opened Controller
  import opened Safety

  // ------------------------------------------------------- short runs

  lemma InitReachable()
    ensures Reachable(INIT)
  {
    assert Legal(INIT, []) && Run(INIT, []) == INIT;
  }

  lemma ReachableStep(s: Sys, step: Step)
    requires Reachable(s) && Enabled(s, step)
    ensures Reachable(Apply(s, step))
  {
    hide Enabled, Apply;
    var steps :| Legal(INIT, steps) && Run(INIT, steps) == s;
    assert [step][1..] == [];
    assert Legal(s, [step]) && Run(s, [step]) == Apply(s, step);
    RunConcat(INIT, steps, [step]);
  }

  /** Once a ConfigMap has been handled, a user asks for "node" to be fenced. */
  lemma OneRequest(e: ConfigMapEvent) returns (s: Sys)
    ensures Reachable(s)
    ensures s == Sys(INIT.world.(store := map["request" := Stored("node", 0, BLANK)], clock := 1,
                                 configs := AfterEvent(map[], e), used := {"request"}), map[])
  {
    hide Reachable, AfterEvent;
    InitReachable();
    ReachableStep(INIT, ConfigMapChange(e));
    var s1 := Apply(INIT, ConfigMapChange(e));
    ReachableStep(s1, UserCreates("request", "node"));
    s := Apply(s1, UserCreates("request", "node"));
  }

  lemma Delivered(s: Sys, id: nat, name: string) returns (s': Sys)
    requires Reachable(s) && Idling(s, id) && name in s.world.store
    ensures Reachable(s') && s' == Sys(s.world, s.tasks[id := Request(CopyOf(s.world, name))])
  {
    hide Reachable;
    ReachableStep(s, DeliverRequest(id, name));
    s' := Apply(s, DeliverRequest(id, name));
  }

  lemma ChoiceMade(s: Sys, id: nat, order: seq<string>, listings: Listings) returns (s': Sys)
    requires Reachable(s) && Enabled(s, ChooseCfg(id, order, listings)) && !s.tasks[id].copy.status.complete
    ensures var copy := s.tasks[id].copy;
            var choice := ChooseConfig(s.world.configs, copy.status.config, order, copy.target, listings);
            Reachable(s') && s' == Sys(s.world, s.tasks[id := AfterChoice(copy, s.world.configs, choice)])
  {
    hide Reachable, ChooseConfig, AfterChoice;
    ReachableStep(s, ChooseCfg(id, order, listings));
    s' := Apply(s, ChooseCfg(id, order, listings));
  }

  lemma MethodMade(s: Sys, id: nat, ok: bool) returns (s': Sys)
    requires Reachable(s) && id in s.tasks && s.tasks[id].PickMethod?
    ensures Reachable(s') && s' == Sys(s.world, s.tasks[id := Picked(s.world, s.tasks[id], ok)])
  {
    hide Reachable, Picked;
    ReachableStep(s, PickNext(id, ok));
    s' := Apply(s, PickNext(id, ok));
  }

  lemma CheckMade(s: Sys, id: nat) returns (s': Sys)
    requires Reachable(s) && id in s.tasks && s.tasks[id].CheckActive?
    ensures Reachable(s')
    ensures s' == Sys(CheckedWorld(s.world, s.tasks[id], true), s.tasks[id := Checked(s.world, s.tasks[id], true)])
  {
    hide Reachable, Checked, CheckedWorld;
    ReachableStep(s, Check(id, true));
    s' := Apply(s, Check(id, true));
  }

  // ------------------------------------------------ panics of the choice

  /** A deleted ConfigMap leaves a nil entry, and the next request panics. */
  lemma NilEntryPanics() returns (s: Sys)
    ensures Reachable(s) && 0 in s.tasks && s.tasks[0] == Ended(Panicked)
  {
    hide Reachable;
    var e := ConfigMapEvent("default", Some(BadYaml), true);
    var s1 := OneRequest(e);
    var s2 := Delivered(s1, 0, "request");
    assert s2.world.configs == map["default" := None];
    s := ChoiceMade(s2, 0, ["default"], map[]);
  }

  /** A registry of one configuration for all nodes. */
  ghost predicate OneConfig(configs: Configs, cfg: FencingConfig) {
    configs == map[cfg.name := Some(cfg)] && cfg.nodeSelector == map[]
  }

  lemma OneChoice(configs: Configs, cfg: FencingConfig, target: string) returns (listings: Listings)
    requires OneConfig(configs, cfg)
    ensures Permutes([cfg.name], configs.Keys)
    ensures ChooseConfig(configs, None, [cfg.name], target, listings) == Chosen(cfg)
  {
    var nodes := [Node(target, map[])];
    listings := map[cfg.name := nodes];
    assert NodeAt(nodes, 0, target, cfg.nodeSelector);
    MatchesExact(cfg.name, cfg, target, listings);
    assert [cfg.name] + [] == [cfg.name];
    ScanTakes(cfg.name, [], configs, target, listings);
  }

  /** The copy of a blank request once a configuration is chosen for it. */
  function Configured(w: World, name: string, cfg: FencingConfig): Copy
    requires name in w.store
  {
    var copy := CopyOf(w, name);
    copy.(status := copy.status.(config := Some(cfg.name)))
  }

  lemma ComesToPick(s: Sys, id: nat, name: string, cfg: FencingConfig) returns (s': Sys)
    requires Reachable(s) && Idling(s, id) && name in s.world.store && s.world.store[name].status == BLANK
    requires OneConfig(s.world.configs, cfg)
    ensures Reachable(s')
    ensures s' == Sys(s.world, s.tasks[id := PickMethod(Configured(s.world, name, cfg), cfg, 0, false)])
  {
    hide Reachable, Scan, Matches;
    var listings := OneChoice(s.world.configs, cfg, s.world.store[name].target);
    var s1 := Delivered(s, id, name);
    s' := ChoiceMade(s1, id, [cfg.name], listings);
  }

  lemma PlainList(m: Entries, key: string)
    requires '.' !in key
    ensures ListAt(m, key) == if key in m && m[key].List? then m[key].items else []
  {
    hide Split;
    SplitPlain(key);
  }

  /** A configuration without methods is chosen, and its request panics. */
  lemma NoMethodsPanic() returns (s: Sys)
    ensures Reachable(s) && 0 in s.tasks && s.tasks[0] == Ended(Panicked)
  {
    hide Reachable, ListAt, AfterChoice;
    PlainList(map[], "methods");
    PlainList(map[], "nodeSelector");
    var s1 := OneRequest(ConfigMapEvent("default", Some(Text.Parsed(map[])), false));
    var s2 := ComesToPick(s1, 0, "request", ConfigOf("default", map[]));
    s := MethodMade(s2, 0, true);
  }

  // --------------------------------------------------------- mixed jobs

  /** A job of an open request with one failure, one success and none active: its event panics. */
  lemma MixedJob() returns (s: Sys)
    ensures Reachable(s) && 0 in s.tasks && s.tasks[0] == Ended(Panicked)
  {
    hide Reachable;
    var s1 := OneRequest(ConfigMapEvent("default", None, false));
    var job := JobView("job", map["target" := "node"], Some("request"), 0, 1, 1);
    ReachableStep(s1, JobsChange(map["job" := job]));
    var s2 := Apply(s1, JobsChange(map["job" := job]));
    ReachableStep(s2, DeliverJob(0, "job"));
    var s3 := Apply(s2, DeliverJob(0, "job"));
    ReachableStep(s3, LoadRequest(0, true));
    var s4 := Apply(s3, LoadRequest(0, true));
    ReachableStep(s4, Judge(0));
    s := Apply(s4, Judge(0));
  }

  // ------------------------------------------- more than one job at a time

  /** A method without mechanisms, read from a tree that only names it. */
  lemma BareMethod(named: Entries)
    requires "mechanisms" !in named
    ensures MethodOf(named).mechanisms == []
  {
    hide GetString, GetInt, GetBoolWithDefault, ToInt32, MechanismOf, ListAt;
    PlainList(named, "mechanisms");
  }

  lemma SampleConfig() returns (e: ConfigMapEvent, cfg: FencingConfig)
    ensures OneConfig(AfterEvent(map[], e), cfg)
    ensures cfg.methods != [] && CanBuild(cfg.methods[0], "node")
  {
    hide ListAt, MethodOf;
    var named := map["name" := Str("off")];
    var vals := [Dict(named)];
    var tree := map["methods" := List(vals)];
    PlainList(tree, "methods");
    PlainList(tree, "nodeSelector");
    EachAt(vals, MethodOf);
    BareMethod(named);
    e := ConfigMapEvent("default", Some(Text.Parsed(tree)), false);
    cfg := ConfigOf("default", tree);
    assert cfg.methods[0] == MethodOf(named);
  }

  /** A handler of a new request comes to the point of creating a job, and the
      world is as before. */
  lemma ComesToCreate(s: Sys, id: nat, name: string, cfg: FencingConfig) returns (s': Sys)
    requires Reachable(s) && Idling(s, id) && name in s.world.store && s.world.store[name].status == BLANK
    requires OneConfig(s.world.configs, cfg) && s.world.jobs == map[]
    requires cfg.methods != [] && CanBuild(cfg.methods[0], s.world.store[name].target)
    ensures Reachable(s')
    ensures s' == Sys(s.world, s.tasks[id := CreateJob(Configured(s.world, name, cfg), cfg, cfg.methods[0],
                                                       |cfg.methods| == 1, Some(map[]))])
  {
    hide Reachable, JobLabels, CanBuild, OneConfig;
    var s1 := ComesToPick(s, id, name, cfg);
    var s2 := MethodMade(s1, id, true);
    s' := CheckMade(s2, id);
  }

  /** A request whose handler stands at the creation of its first job. */
  lemma FirstCreation() returns (s: Sys, cfg: FencingConfig)
    ensures Reachable(s) && s.world.jobs == map[] && s.world.accepted == []
    ensures s.world.store == map["request" := Stored("node", 0, BLANK)] && s.tasks.Keys == {0}
    ensures OneConfig(s.world.configs, cfg) && cfg.methods != [] && CanBuild(cfg.methods[0], "node")
    ensures s.tasks[0] == CreateJob(Configured(s.world, "request", cfg), cfg, cfg.methods[0],
                                    |cfg.methods| == 1, Some(map[]))
  {
    hide Reachable, OneConfig, AfterEvent, CanBuild;
    var e;
    e, cfg := SampleConfig();
    var s1 := OneRequest(e);
    s := ComesToCreate(s1, 0, "request", cfg);
  }

  /** No run is kept from having two jobs at once: a request delivered twice
      before its first job exists gets two, for one configuration and method,
      and both may be active. */
  lemma TwoJobsAtOnce() returns (s: Sys)
    ensures Reachable(s)
    ensures "a" in s.world.jobs && "b" in s.world.jobs
    ensures s.world.jobs["a"].active > 0 && s.world.jobs["b"].active > 0
    ensures s.world.jobs["a"].labels == s.world.jobs["b"].labels
    ensures s.world.jobs["a"].owner == s.world.jobs["b"].owner == Some("request")
  {
    hide Reachable, JobLabels, OneConfig, CanBuild;
    var s1, cfg := FirstCreation();
    var s2 := ComesToCreate(s1, 1, "request", cfg);
    ReachableStep(s2, Create(0, Created("a")));
    var s3 := Apply(s2, Create(0, Created("a")));
    ReachableStep(s3, Create(1, Created("b")));
    var s4 := Apply(s3, Create(1, Created("b")));
    var a, b := s4.world.jobs["a"], s4.world.jobs["b"];
    var jobs := map["a" := a.(active := 1), "b" := b.(active := 1)];
    ReachableStep(s4, JobsChange(jobs));
    s := Apply(s4, JobsChange(jobs));
  }

  /** No job was ever accepted, and yet a stored log says that one was
      initiated: the reply AlreadyExists passes for success. */
  lemma InitiatedWithoutJob() returns (s: Sys)
    ensures Reachable(s) && s.world.accepted == [] && "request" in s.world.store
    ensures InitiatedCount(s.world.store["request"].status.updates) == 1
  {
    hide Reachable, JobLabels, OneConfig, CanBuild;
    var s1, cfg := FirstCreation();
    ReachableStep(s1, Create(0, AlreadyExists));
    var s2 := Apply(s1, Create(0, AlreadyExists));
    var answer := UpdateReply(true, true, true, true);
    ReachableStep(s2, SaveStatus(0, answer));
    s := Apply(s2, SaveStatus(0, answer));
    var entry := Entry(cfg.methods[0].name, PROGRESS, Initiated(cfg.methods[0].name, ""));
    assert s.world.store["request"].status.updates == [] + [entry];
    assert ([] + [entry])[..0] == [];
  }

  // --------------------------------------------------- order of methods

  /** With a name used twice the choice comes back to its first position: after
      "a", "b" and "a" again, it is for "b" once more, and never ends. */
  lemma RepeatedNameCycles(methods: seq<Method>)
    requires Names(methods) == ["a", "b", "a"]
    ensures ChooseMethod(methods, Some("a"), Idle(3)) == Some((methods[1], false))
    ensures ChooseMethod(methods, Some("b"), Idle(3)) == Some((methods[2], true))
    ensures !VisitsInOrder(methods)
  {
    var names := Names(methods);
    assert FirstAt(names, "a", 0);
    PickIdle(names, "a", 0);
    assert FirstAt(names, "b", 1);
    PickIdle(names, "b", 1);
    VisitsExactlyDistinct(methods);
    assert names[0] == names[2];
  }

  // --------------------------------------------------------------- paths

  lemma NamedElement(d: Entries)
    requires d == map["name" := Str("x")]
    ensures ByName([Dict(d)]) == map["x" := Dict(d)]
  {
    var vals := [Dict(d)];
    assert vals[1..] == [];
    assert LastNamed(vals, "x", 0);
    forall n ensures n in ByName(vals) <==> n == "x" {
      ByNameExact(vals, n);
    }
    ByNameExact(vals, "x");
  }

  /** A list entered by name answers the joined path, but not the path taken apart. */
  lemma ListPath(d: Entries, m: Entries)
    requires d == map["name" := Str("x")] && m == map["a" := List([Dict(d)])]
    ensures GetString(m, "a" + "." + "x.name") == "x"
    ensures GetString(GetSubConfig(m, "a"), "x.name") == ""
  {
    hide Split, ByName;
    SplitPlain("a");
    SplitPlain("x");
    SplitPlain("name");
    NamedElement(d);
    assert "x" + "." + "name" == "x.name";
    LookupConcat(m, "a", "x.name");
    LookupConcat(map["x" := Dict(d)], "x", "name");
    NothingInside(Split("x.name"));
  }

  // ------------------------------------------------------------- secrets

  /** Two mechanisms that keep different secrets under one key give their job
      two volumes of one name. */
  lemma ClashingSecrets(mechs: seq<Mechanism>, parts: seq<Part>)
    requires PartsOf(mechs, parts) && |mechs| == 2
    requires mechs[0].secrets == map["password" := "one"] && mechs[1].secrets == map["password" := "two"]
    ensures Volume("secret-password", "one") in AllVolumes(mechs, parts)
    ensures Volume("secret-password", "two") in AllVolumes(mechs, parts)
  {
    assert "secret-" + "password" == "secret-password";
    assert "password" in mechs[0].secrets && "password" in mechs[1].secrets;
    assert KeyVolume(mechs[0], "password", Volume("secret-password", "one"));
    assert KeyVolume(mechs[1], "password", Volume("secret-password", "two"));
    VolumeOf(mechs, parts, Volume("secret-password", "one"));
    VolumeOf(mechs, parts, Volume("secret-password", "two"));
  }

  // ------------------------------------------------------ shared commands

  /** A cli mechanism with a port for two nodes, and a plug for the first only if plugs says so. */
  function TwoPorts(plugs: seq<DynamicConfig>): Mechanism {
    Mechanism(Container("", "", ["fence"], [], []), "", "cli", 0, map[],
              [DynamicConfig("port", "", map["n1" := "1", "n2" := "2"])] + plugs, map[])
  }

  const PLUG := DynamicConfig("plug", "", map["n1" := "7"])

  lemma TwoPortsWords(plugs: seq<DynamicConfig>, target: string)
    requires target == "n1" || target == "n2"
    requires plugs == [] || plugs == [PLUG]
    ensures CallWords(TwoPorts(plugs), Call([], target)) ==
            ["--port", if target == "n1" then "1" else "2"] +
            (if plugs == [] then [target] else if target == "n1" then ["--plug", "7", "n1"] else ["--plug"])
  {
    var m := TwoPorts(plugs);
    assert Static([], m.config) == [];
    var dcs := m.dynamicConfig;
    assert "--" + "port" == "--port" && "--" + "plug" == "--plug";
    assert dcs[1..] == plugs;
    assert plugs != [] ==> plugs[1..] == [] && dcs[1] == PLUG;
    assert DynamicValue(dcs[0], target) == Some(if target == "n1" then "1" else "2");
    assert DynamicWords(dcs, target) ==
           ["--port", if target == "n1" then "1" else "2"] + DynamicWords(plugs, target);
    assert DynamicWords(plugs, target) ==
           if plugs == [] then [] else if target == "n1" then ["--plug", "7"] else ["--plug"];
    assert Resolvable(dcs, target) <==> plugs == [] || target == "n1" by {
      if plugs == [PLUG] && target == "n2" {
        assert DynamicValue(dcs[1], target).None?;
      }
    }
  }

  lemma SpillPrefix(spare: seq<string>, words: seq<string>, n: nat)
    requires n <= |spare|
    ensures Spill(spare, words)[..n] == Spill(spare[..n], words)
  {
  }

  lemma SpillCovers(spare: seq<string>, words: seq<string>)
    requires |words| <= |spare|
    ensures Spill(spare, words)[..|words|] == words
  {
  }

  /** Two calls on one mechanism with room to spare, and what then reads as the first command. */
  method CommandAfterAnother(m: Mechanism, a: string, b: string) returns (command: seq<string>)
    requires m.container.command == ["fence"] && m.config == map[] && Resolvable(m.dynamicConfig, a)
    requires |CallWords(m, Call([], a))| <= 7
    ensures command == ["fence"] + Spill(CallWords(m, Call([], a)), CallWords(m, Call([], b)))
  {
    hide CallWords, Resolvable, Spill, Appended, CliCommand;
    var cells := new string[8](_ => "");
    cells[0] := "fence";
    var own := Slice(cells, 1);
    assert Words(own) == ["fence"];
    ghost var words, spare := CallWords(m, Call([], a)), cells[1..];
    var first := CliCommandInPlace(m, own, Call([], a), 0);
    AppendedIs(own, first.value, ["fence"], spare, words);
    ghost var filled := cells[1..];
    SpillCovers(spare, words);
    var second := CliCommandInPlace(m, own, Call([], b), 0);
    SpillPrefix(filled, CallWords(m, Call([], b)), |words|);
    command := first.value.cells[..first.value.len];
    assert command == cells[..1] + cells[1..][..|words|];
  }

  /** The command made for n1 then tells the agent to fence n2. */
  method SharedCommand() returns (command: seq<string>)
    ensures CliCommand(TwoPorts([]), [], "n1") == ["fence", "--port", "1", "n1"]
    ensures command == ["fence", "--port", "2", "n2"]
  {
    hide CallWords, CliCommand;
    TwoPortsWords([], "n1");
    TwoPortsWords([], "n2");
    CallWordsAre(TwoPorts([]), Call([], "n1"));
    assert Spill(["--port", "1", "n1"], ["--port", "2", "n2"]) == ["--port", "2", "n2"];
    command := CommandAfterAnother(TwoPorts([]), "n1", "n2");
  }

  /** A call that fails is enough: the command for n1 keeps its target and plug
      and takes the port of n2. */
  method MixedCommand() returns (command: seq<string>)
    ensures CliCommand(TwoPorts([PLUG]), [], "n1") == ["fence", "--port", "1", "--plug", "7", "n1"]
    ensures command == ["fence", "--port", "2", "--plug", "7", "n1"]
  {
    hide CallWords, CliCommand;
    TwoPortsWords([PLUG], "n1");
    TwoPortsWords([PLUG], "n2");
    assert DynamicValue(TwoPorts([PLUG]).dynamicConfig[1], "n1").Some?;
    CallWordsAre(TwoPorts([PLUG]), Call([], "n1"));
    assert Spill(["--port", "1", "--plug", "7", "n1"], ["--port", "2", "--plug"]) ==
           ["--port", "2", "--plug", "7", "n1"];
    command := CommandAfterAnother(TwoPorts([PLUG]), "n1", "n2");
  }
}
