/** Choosing a configuration and a method for a request
    (chooseFencingConfig and chooseFencingMethod, pkg/stub/fencing.go:203-278). */
module Selection {
  import opened Options
  import opened ConfigTree
  import opened Mechanisms
  import opened Requests
  import opened Registry

  datatype Node = Node(name: string, labels: map<string, string>)

  /** The nodes at the moment of each configuration's listing; a configuration
      without an entry is one whose listing failed. */
  type Listings = map<string, seq<Node>>

  predicate NodeInList(name: string, nodes: seq<Node>) {
    exists i :: 0 <= i < |nodes| && nodes[i].name == name
  }

  /** The nodes a label selector lists, in their order. */
  function Selected(selector: map<string, string>, nodes: seq<Node>): seq<Node> {
    if nodes == [] then []
    else (if Selects(selector, nodes[0].labels) then [nodes[0]] else []) + Selected(selector, nodes[1..])
  }

  /** The listing of cfg succeeded and holds the target. */
  predicate Matches(name: string, cfg: FencingConfig, target: string, listings: Listings) {
    name in listings && NodeInList(target, Selected(cfg.nodeSelector, listings[name]))
  }

  ghost predicate NodeAt(nodes: seq<Node>, i: nat, target: string, selector: map<string, string>) {
    i < |nodes| && nodes[i].name == target && Selects(selector, nodes[i].labels)
  }

  lemma {:induction false} SelectedNodes(nodes: seq<Node>, target: string, selector: map<string, string>)
    ensures NodeInList(target, Selected(selector, nodes)) <==> exists i: nat :: NodeAt(nodes, i, target, selector)
  {
    hide Selects;
    if nodes != [] {
      var rest := nodes[1..];
      SelectedNodes(rest, target, selector);
      var listed, more := Selected(selector, nodes), Selected(selector, rest);
      var shift := |listed| - |more|;
      if i: nat :| NodeAt(rest, i, target, selector) {
        assert NodeAt(nodes, i + 1, target, selector);
      }
      if i: nat :| NodeAt(nodes, i, target, selector) && i > 0 {
        assert NodeAt(rest, i - 1, target, selector);
      }
      if NodeAt(nodes, 0, target, selector) {
        assert listed[0].name == target;
      }
      if i :| 0 <= i < |listed| && listed[i].name == target {
        if i < shift {
          assert NodeAt(nodes, 0, target, selector);
        } else {
          assert more[i - shift].name == target;
        }
      }
      if i :| 0 <= i < |more| && more[i].name == target {
        assert listed[i + shift].name == target;
      }
    }
  }

  /** A configuration matches when its listing succeeded and the target was a
      node carrying every label of the selector. */
  lemma MatchesExact(name: string, cfg: FencingConfig, target: string, listings: Listings)
    ensures Matches(name, cfg, target, listings) <==>
            name in listings && exists i: nat :: NodeAt(listings[name], i, target, cfg.nodeSelector)
  {
    if name in listings {
      SelectedNodes(listings[name], target, cfg.nodeSelector);
    }
  }

  // ------------------------------------------------------ configuration

  datatype Choice =
    | NilEntry                  // the loop meets a nil entry and dereferences it
    | NoMatch
    | Chosen(cfg: FencingConfig)

  predicate Live(configs: Configs, name: Option<string>) {
    name.Some? && name.value in configs && configs[name.value].Some?
  }

  /** order lists every name once: one possible order of a range over them. */
  predicate Permutes(order: seq<string>, names: set<string>) {
    && (forall n :: n in order ==> n in names)
    && (forall n :: n in names ==> n in order)
    && (forall i, j :: 0 <= i < j < |order| ==> order[i] != order[j])
  }

  /** The loop over the registry, in one order of its keys. */
  function Scan(order: seq<string>, configs: Configs, target: string, listings: Listings,
                chosen: Option<FencingConfig>, threshold: int): Choice
    requires forall k :: k in order ==> k in configs
  {
    if order == [] then (if chosen.Some? then Chosen(chosen.value) else NoMatch)
    else if configs[order[0]].None? then NilEntry
    else
      var cfg := configs[order[0]].value;
      if |cfg.nodeSelector| > threshold && Matches(order[0], cfg, target, listings) then
        Scan(order[1..], configs, target, listings, Some(cfg), |cfg.nodeSelector|)
      else
        Scan(order[1..], configs, target, listings, chosen, threshold)
  }

  function ChooseConfig(configs: Configs, sticky: Option<string>, order: seq<string>,
                        target: string, listings: Listings): Choice
    requires forall k :: k in order ==> k in configs
  {
    if Live(configs, sticky) then Chosen(configs[sticky.value].value)
    else Scan(order, configs, target, listings, None, -1)
  }

  ghost predicate Matching(configs: Configs, target: string, listings: Listings, k: string) {
    k in configs && configs[k].Some? && Matches(k, configs[k].value, target, listings)
  }

  /** k names a matching configuration with a largest selector. */
  ghost predicate Maximal(configs: Configs, target: string, listings: Listings, k: string) {
    && Matching(configs, target, listings, k)
    && forall l :: Matching(configs, target, listings, l) ==>
         |configs[l].value.nodeSelector| <= |configs[k].value.nodeSelector|
  }

  ghost predicate NoNil(configs: Configs) {
    forall k :: k in configs ==> configs[k].Some?
  }

  /** The loop fails on any nil entry it meets, and otherwise improves on what
      it holds exactly when an entry beats the threshold. */
  lemma {:induction false} ScanMeaning(order: seq<string>, configs: Configs, target: string, listings: Listings,
                                       chosen: Option<FencingConfig>, threshold: int)
    requires forall k :: k in order ==> k in configs
    ensures var r := Scan(order, configs, target, listings, chosen, threshold);
            && (r.NilEntry? <==> exists k :: k in order && configs[k].None?)
            && (r.NoMatch? ==> chosen.None? && forall k :: k in order && Matching(configs, target, listings, k) ==>
                                 |configs[k].value.nodeSelector| <= threshold)
            && (r.Chosen? ==>
                  || (chosen == Some(r.cfg) && forall k :: k in order && Matching(configs, target, listings, k) ==>
                        |configs[k].value.nodeSelector| <= threshold)
                  || (exists k :: k in order && Matching(configs, target, listings, k) && configs[k].value == r.cfg
                        && |r.cfg.nodeSelector| > threshold
                        && forall l :: l in order && Matching(configs, target, listings, l) ==>
                             |configs[l].value.nodeSelector| <= |r.cfg.nodeSelector|))
  {
    hide Matches;
    if order != [] && configs[order[0]].Some? {
      var cfg := configs[order[0]].value;
      assert order == [order[0]] + order[1..];
      if |cfg.nodeSelector| > threshold && Matches(order[0], cfg, target, listings) {
        ScanMeaning(order[1..], configs, target, listings, Some(cfg), |cfg.nodeSelector|);
        assert Matching(configs, target, listings, order[0]);
      } else {
        ScanMeaning(order[1..], configs, target, listings, chosen, threshold);
      }
    }
  }

  /** Soundness, for every order: a live earlier choice is kept; else a nil
      entry anywhere is fatal; else the choice matches with a largest selector,
      and there is none exactly when nothing matches. */
  lemma ChooseConfigSound(configs: Configs, sticky: Option<string>, order: seq<string>,
                          target: string, listings: Listings)
    requires Permutes(order, configs.Keys)
    ensures var r := ChooseConfig(configs, sticky, order, target, listings);
            && (Live(configs, sticky) ==> r == Chosen(configs[sticky.value].value))
            && (!Live(configs, sticky) ==>
                  && (r.NilEntry? <==> !NoNil(configs))
                  && (r.NoMatch? <==> NoNil(configs) && forall k :: !Matching(configs, target, listings, k))
                  && (r.Chosen? ==> exists k :: Maximal(configs, target, listings, k) && configs[k].value == r.cfg))
  {
    hide Matches;
    if !Live(configs, sticky) {
      ScanMeaning(order, configs, target, listings, None, -1);
      var r := Scan(order, configs, target, listings, None, -1);
      if r.Chosen? {
        var k :| k in order && Matching(configs, target, listings, k) && configs[k].value == r.cfg
                 && forall l :: l in order && Matching(configs, target, listings, l) ==>
                      |configs[l].value.nodeSelector| <= |r.cfg.nodeSelector|;
        assert Maximal(configs, target, listings, k);
      }
    }
  }

  /** Once chosen, a configuration stays chosen while the registry has it. */
  lemma ChoiceSticks(configs: Configs, name: string, order: seq<string>, target: string, listings: Listings)
    requires Permutes(order, configs.Keys)
    ensures ChooseConfig(configs, Some(name), order, target, listings) ==
            if name in configs && configs[name].Some? then Chosen(configs[name].value)
            else ChooseConfig(configs, None, order, target, listings)
  {
    hide Scan;
  }

  lemma {:induction false} ScanKeepsMaximum(order: seq<string>, configs: Configs, target: string,
                                           listings: Listings, cfg: FencingConfig)
    requires forall k :: k in order ==> k in configs && configs[k].Some?
    requires forall l :: Matching(configs, target, listings, l) ==>
               |configs[l].value.nodeSelector| <= |cfg.nodeSelector|
    ensures Scan(order, configs, target, listings, Some(cfg), |cfg.nodeSelector|) == Chosen(cfg)
  {
    hide Matches;
    if order != [] {
      assert order == [order[0]] + order[1..];
      if Matches(order[0], configs[order[0]].value, target, listings) {
        assert Matching(configs, target, listings, order[0]);
      }
      ScanKeepsMaximum(order[1..], configs, target, listings, cfg);
    }
  }

  lemma ScanTakes(k: string, tail: seq<string>, configs: Configs, target: string, listings: Listings)
    requires Matching(configs, target, listings, k) && forall l :: l in tail ==> l in configs
    ensures Scan([k] + tail, configs, target, listings, None, -1) ==
            Scan(tail, configs, target, listings, configs[k], |configs[k].value.nodeSelector|)
  {
    hide Matches;
    assert ([k] + tail)[1..] == tail;
  }

  ghost function KeysOf(configs: Configs): (order: seq<string>)
    ensures Permutes(order, configs.Keys)
    decreases |configs|
  {
    if configs == map[] then []
    else
      var k :| k in configs;
      var rest := configs - {k};
      assert rest.Keys == configs.Keys - {k};
      [k] + KeysOf(rest)
  }

  ghost function FirstKey(configs: Configs, k: string): (order: seq<string>)
    requires k in configs
    ensures Permutes(order, configs.Keys) && order != [] && order[0] == k
  {
    var rest := configs - {k};
    assert rest.Keys == configs.Keys - {k};
    [k] + KeysOf(rest)
  }

  lemma MaximalBounds(configs: Configs, target: string, listings: Listings, k: string)
    requires Maximal(configs, target, listings, k)
    ensures Matching(configs, target, listings, k)
    ensures forall l :: Matching(configs, target, listings, l) ==>
              |configs[l].value.nodeSelector| <= |configs[k].value.nodeSelector|
  {
    hide Matches;
  }

  /** Completeness: every maximal configuration is chosen under some order. */
  lemma ChooseConfigComplete(configs: Configs, sticky: Option<string>, target: string, listings: Listings, k: string)
    returns (order: seq<string>)
    requires !Live(configs, sticky) && NoNil(configs) && Maximal(configs, target, listings, k)
    ensures Permutes(order, configs.Keys)
    ensures ChooseConfig(configs, sticky, order, target, listings) == Chosen(configs[k].value)
  {
    hide Matches, Scan, Maximal;
    MaximalBounds(configs, target, listings, k);
    order := FirstKey(configs, k);
    assert order == [k] + order[1..];
    ScanKeepsMaximum(order[1..], configs, target, listings, configs[k].value);
    ScanTakes(k, order[1..], configs, target, listings);
  }

  /** A configuration for all nodes wins only when no narrower one matches. */
  lemma CatchAllIsLast(configs: Configs, sticky: Option<string>, order: seq<string>,
                       target: string, listings: Listings, k: string)
    requires Permutes(order, configs.Keys) && !Live(configs, sticky)
    requires Matching(configs, target, listings, k) && configs[k].value.nodeSelector != map[]
    requires ChooseConfig(configs, sticky, order, target, listings).Chosen?
    ensures ChooseConfig(configs, sticky, order, target, listings).cfg.nodeSelector != map[]
  {
    hide Matches;
    ChooseConfigSound(configs, sticky, order, target, listings);
    assert |configs[k].value.nodeSelector| > 0;
  }

  /** The choices on which the handler dereferences a nil pointer: a nil entry,
      or a configuration that has no method to offer. */
  predicate Fatal(choice: Choice) {
    choice.NilEntry? || (choice.Chosen? && choice.cfg.methods == [])
  }

  /** The live earlier choice has methods; without one, no entry is nil and
      every configuration that could be chosen has methods. */
  ghost predicate Orderly(configs: Configs, sticky: Option<string>, target: string, listings: Listings) {
    if Live(configs, sticky) then configs[sticky.value].value.methods != []
    else NoNil(configs) && forall k :: Maximal(configs, target, listings, k) ==> configs[k].value.methods != []
  }

  /** No order of the range leads to a fatal choice exactly for an orderly registry. */
  lemma OrderlyExactly(configs: Configs, sticky: Option<string>, target: string, listings: Listings)
    ensures Orderly(configs, sticky, target, listings) <==>
            forall order :: Permutes(order, configs.Keys) ==>
              !Fatal(ChooseConfig(configs, sticky, order, target, listings))
  {
    hide ChooseConfig, Matches;
    forall order | Permutes(order, configs.Keys) && Orderly(configs, sticky, target, listings)
      ensures !Fatal(ChooseConfig(configs, sticky, order, target, listings))
    {
      ChooseConfigSound(configs, sticky, order, target, listings);
    }
    if forall order :: Permutes(order, configs.Keys) ==>
         !Fatal(ChooseConfig(configs, sticky, order, target, listings)) {
      var any := KeysOf(configs);
      ChooseConfigSound(configs, sticky, any, target, listings);
      if !Live(configs, sticky) {
        forall k | Maximal(configs, target, listings, k) ensures configs[k].value.methods != [] {
          MaximalBounds(configs, target, listings, k);
          var order := ChooseConfigComplete(configs, sticky, target, listings, k);
        }
      }
    }
  }

  // ------------------------------------------------------------- method

  function Names(methods: seq<Method>): (r: seq<string>)
    ensures |r| == |methods|
    ensures forall i :: 0 <= i < |r| ==> r[i] == methods[i].name
  {
    seq(|methods|, i requires 0 <= i < |methods| => methods[i].name)
  }

  /** The loop of chooseFencingMethod from position i; answers[i] is what the
      query for active jobs of the i-th method would say. */
  function PickFrom(names: seq<string>, active: Option<string>, answers: seq<bool>, i: nat, next: bool)
    : (r: Option<nat>)
    requires |answers| == |names| && i <= |names|
    ensures r.Some? ==> i <= r.value < |names|
    decreases |names| - i
  {
    if i == |names| then None
    else if active.None? then Some(i)
    else if active.value == names[i] && answers[i] then Some(i)
    else if active.value == names[i] then PickFrom(names, active, answers, i + 1, true)
    else if next then Some(i)
    else PickFrom(names, active, answers, i + 1, next)
  }

  function Pick(names: seq<string>, active: Option<string>, answers: seq<bool>): (r: Option<nat>)
    requires |answers| == |names|
    ensures r.Some? ==> r.value < |names|
  {
    PickFrom(names, active, answers, 0, false)
  }

  function Idle(n: nat): (r: seq<bool>)
    ensures |r| == n && forall i :: 0 <= i < n ==> !r[i]
  {
    seq(n, _ => false)
  }

  /** f is the first position of a name. */
  ghost predicate FirstAt(names: seq<string>, a: string, f: nat) {
    f < |names| && names[f] == a && forall i :: 0 <= i < f ==> names[i] != a
  }

  lemma {:induction false} PickAfter(names: seq<string>, a: string, i: nat, f: nat)
    requires f < i <= |names|
    ensures var r := PickFrom(names, Some(a), Idle(|names|), i, true);
            && (r.Some? ==> names[r.value] != a && forall j :: i <= j < r.value ==> names[j] == a)
            && (r.None? ==> forall j :: i <= j < |names| ==> names[j] == a)
    decreases |names| - i
  {
    if i < |names| && names[i] == a {
      PickAfter(names, a, i + 1, f);
    }
  }

  lemma {:induction false} PickReaches(names: seq<string>, a: string, answers: seq<bool>, i: nat, f: nat)
    requires |answers| == |names| && FirstAt(names, a, f) && i <= f
    ensures PickFrom(names, Some(a), answers, i, false) == PickFrom(names, Some(a), answers, f, false)
    decreases f - i
  {
    if i < f {
      PickReaches(names, a, answers, i + 1, f);
    }
  }

  /** With no active jobs, the method after a is the first one of another name
      beyond the first position of a. */
  lemma PickIdle(names: seq<string>, a: string, f: nat)
    requires FirstAt(names, a, f)
    ensures var r := Pick(names, Some(a), Idle(|names|));
            && (r.Some? ==> f < r.value && names[r.value] != a && forall j :: f < j < r.value ==> names[j] == a)
            && (r.None? ==> forall j :: f < j < |names| ==> names[j] == a)
  {
    PickReaches(names, a, Idle(|names|), 0, f);
    PickAfter(names, a, f + 1, f);
  }

  /** An active job keeps the choice on its method. */
  lemma PickStays(names: seq<string>, a: string, answers: seq<bool>, f: nat)
    requires |answers| == |names| && FirstAt(names, a, f) && answers[f]
    ensures Pick(names, Some(a), answers) == Some(f)
  {
    PickReaches(names, a, answers, 0, f);
  }

  /** The choice and its last flag, as chooseFencingMethod returns them. */
  function ChooseMethod(methods: seq<Method>, active: Option<string>, answers: seq<bool>): Option<(Method, bool)>
    requires |answers| == |methods|
  {
    var r := Pick(Names(methods), active, answers);
    if r.None? then None else Some((methods[r.value], r.value + 1 == |methods|))
  }

  /** The active method after k choices in document order. */
  function ActiveAfter(names: seq<string>, k: nat): Option<string>
    requires k <= |names|
  {
    if k == 0 then None else Some(names[k - 1])
  }

  /** Feeding each choice back, the choices are all methods in document order,
      each once, with the last one flagged, and then an error. */
  ghost predicate VisitsInOrder(methods: seq<Method>) {
    && (forall k :: 0 <= k < |methods| ==>
          ChooseMethod(methods, ActiveAfter(Names(methods), k), Idle(|methods|)) ==
            Some((methods[k], k + 1 == |methods|)))
    && ChooseMethod(methods, ActiveAfter(Names(methods), |methods|), Idle(|methods|)) == None
  }

  /** The same run, seen through the names and the last flag alone. */
  ghost predicate NameRun(names: seq<string>) {
    && (forall k :: 0 <= k < |names| ==> NameStep(names, k))
    && Pick(names, ActiveAfter(names, |names|), Idle(|names|)) == None
  }

  ghost predicate NameStep(names: seq<string>, k: nat)
    requires k < |names|
  {
    var r := Pick(names, ActiveAfter(names, k), Idle(|names|));
    r.Some? && names[r.value] == names[k] && (r.value + 1 == |names| <==> k + 1 == |names|)
  }

  predicate Distinct(names: seq<string>) {
    forall i, j :: 0 <= i < j < |names| ==> names[i] != names[j]
  }

  lemma DistinctStep(names: seq<string>, k: nat)
    requires Distinct(names) && k <= |names|
    ensures Pick(names, ActiveAfter(names, k), Idle(|names|)) == if k == |names| then None else Some(k)
  {
    if k > 0 {
      assert FirstAt(names, names[k - 1], k - 1);
      PickIdle(names, names[k - 1], k - 1);
      if k < |names| {
        assert names[k] != names[k - 1];
      }
    }
  }

  lemma DistinctVisits(methods: seq<Method>)
    requires Distinct(Names(methods))
    ensures VisitsInOrder(methods)
  {
    hide Pick, ActiveAfter, Distinct, Idle;
    var names := Names(methods);
    forall k | 0 <= k <= |methods|
      ensures Pick(names, ActiveAfter(names, k), Idle(|names|)) == if k == |names| then None else Some(k)
    {
      DistinctStep(names, k);
    }
  }

  lemma VisitsByName(methods: seq<Method>)
    requires VisitsInOrder(methods)
    ensures NameRun(Names(methods))
  {
    hide Pick, ActiveAfter, Idle;
    var names := Names(methods);
    forall k | 0 <= k < |names| ensures NameStep(names, k) {
      assert ChooseMethod(methods, ActiveAfter(names, k), Idle(|methods|)) == Some((methods[k], k + 1 == |methods|));
    }
  }

  ghost function FirstOf(names: seq<string>, k: nat): (f: nat)
    requires k < |names|
    ensures FirstAt(names, names[k], f) && f <= k
  {
    FirstFrom(names, k, 0)
  }

  ghost function FirstFrom(names: seq<string>, k: nat, i: nat): (f: nat)
    requires i <= k < |names|
    requires forall j :: 0 <= j < i ==> names[j] != names[k]
    ensures FirstAt(names, names[k], f) && f <= k
    decreases k - i
  {
    if names[i] == names[k] then i else FirstFrom(names, k, i + 1)
  }

  lemma OnlyPosition(names: seq<string>, k: nat, r: nat)
    requires r < |names| && k < |names| && names[r] == names[k]
    requires forall j :: k <= j < |names| ==> FirstAt(names, names[j], j)
    ensures r == k
  {
    assert FirstAt(names, names[k], k);
    assert k <= r;
    assert FirstAt(names, names[r], r);
  }

  /** One step back from the end of a run: if all names after k are new, so is
      the one at k, since a repeated name sends the choice back to its first position. */
  lemma NameIsNew(names: seq<string>, k: nat)
    requires NameRun(names) && k < |names|
    requires forall j :: k < j < |names| ==> FirstAt(names, names[j], j)
    ensures FirstAt(names, names[k], k)
  {
    hide Pick, Idle;
    var f := FirstOf(names, k);
    PickIdle(names, names[k], f);
    if k + 1 < |names| {
      assert NameStep(names, k + 1);
      OnlyPosition(names, k + 1, Pick(names, Some(names[k]), Idle(|names|)).value);
    }
    assert forall j :: f < j <= k ==> names[j] == names[k];
    if k > 0 {
      PickIdle(names, names[k - 1], FirstOf(names, k - 1));
      assert NameStep(names, k);
      assert names[k - 1] != names[k];
    }
  }

  lemma {:induction false} NamesAreNew(names: seq<string>, k: nat)
    requires NameRun(names) && k <= |names|
    ensures forall j :: k <= j < |names| ==> FirstAt(names, names[j], j)
    decreases |names| - k
  {
    hide NameRun, FirstAt;
    if k < |names| {
      NamesAreNew(names, k + 1);
      NameIsNew(names, k);
    }
  }

  /** The order promised for a list of methods holds exactly when no name is used twice. */
  lemma VisitsExactlyDistinct(methods: seq<Method>)
    ensures VisitsInOrder(methods) <==> Distinct(Names(methods))
  {
    hide VisitsInOrder, NameRun;
    if Distinct(Names(methods)) {
      DistinctVisits(methods);
    } else if VisitsInOrder(methods) {
      VisitsByName(methods);
      NamesAreNew(Names(methods), 0);
      assert false;
    }
  }

  /** End to end, from the YAML list: the methods tried are those of the longest
      usable prefix of "methods", in document order, exactly when their names differ. */
  lemma DocumentOrder(name: string, cfg: Entries)
    ensures var vals := ListAt(cfg, "methods");
            var methods := ConfigOf(name, cfg).methods;
            && |methods| == UsablePrefix(vals)
            && (forall i :: 0 <= i < |methods| ==> methods[i] == MethodOf(EntriesOf(vals[i])))
            && (VisitsInOrder(methods) <==>
                  forall i, j :: 0 <= i < j < UsablePrefix(vals) ==>
                    GetString(EntriesOf(vals[i]), "name") != GetString(EntriesOf(vals[j]), "name"))
  {
    hide ListAt, GetString, MechanismOf, FirstStrings, VisitsInOrder;
    var vals := ListAt(cfg, "methods");
    EachAt(vals, MethodOf);
    VisitsExactlyDistinct(ConfigOf(name, cfg).methods);
    var names := Names(ConfigOf(name, cfg).methods);
    assert forall i :: 0 <= i < |names| ==> names[i] == GetString(EntriesOf(vals[i]), "name");
  }
}
