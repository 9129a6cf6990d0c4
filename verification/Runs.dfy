/** Runs seen from the outside: which configurations they serve, which steps
    panic, and which requests they add or leave. */
module Runs {
  import opened Options
  import opened ConfigTree
  import opened Mechanisms
  import opened Requests
  import opened JobBuilder
  import opened Registry
  import opened Selection
  import opened Controller
  import opened Safety

  // ----------------------------------------------------- the registry

  /** The ConfigMap events of a run, in their order. */
  function EventsOf(steps: seq<Step>): seq<ConfigMapEvent> {
    if steps == [] then []
    else if steps[0].ConfigMapChange? then [steps[0].e] + EventsOf(steps[1..])
    else EventsOf(steps[1..])
  }

  function Continue(configs: Configs, events: seq<ConfigMapEvent>): Configs
    decreases |events|
  {
    if events == [] then configs else Continue(AfterEvent(configs, events[0]), events[1..])
  }

  lemma {:induction false} ContinueLast(configs: Configs, events: seq<ConfigMapEvent>, e: ConfigMapEvent)
    ensures Continue(configs, events + [e]) == AfterEvent(Continue(configs, events), e)
    decreases |events|
  {
    hide AfterEvent;
    if events == [] {
      assert (events + [e])[1..] == [];
    } else {
      assert (events + [e])[1..] == events[1..] + [e];
      ContinueLast(AfterEvent(configs, events[0]), events[1..], e);
    }
  }

  lemma {:induction false} ContinueIsHistory(events: seq<ConfigMapEvent>)
    ensures Continue(map[], events) == AfterEvents(events)
  {
    hide AfterEvent;
    if events != [] {
      var front := events[..|events| - 1];
      ContinueIsHistory(front);
      ContinueLast(map[], front, events[|events| - 1]);
      assert front + [events[|events| - 1]] == events;
    }
  }

  lemma StepContinues(s: Sys, step: Step)
    requires Enabled(s, step)
    ensures Apply(s, step).world.configs ==
            if step.ConfigMapChange? then AfterEvent(s.world.configs, step.e) else s.world.configs
  {
    hide AfterEvent;
  }

  lemma {:induction false} RunContinues(s: Sys, steps: seq<Step>)
    requires Legal(s, steps)
    ensures Run(s, steps).world.configs == Continue(s.world.configs, EventsOf(steps))
    decreases |steps|
  {
    hide AfterEvent, Enabled, Apply;
    if steps != [] {
      StepContinues(s, steps[0]);
      RunContinues(Apply(s, steps[0]), steps[1..]);
      if steps[0].ConfigMapChange? {
        assert EventsOf(steps)[0] == steps[0].e && EventsOf(steps)[1..] == EventsOf(steps[1..]);
      }
    }
  }

  /** In every run the registry is what the history of its ConfigMap events leaves. */
  lemma RegistryOfRun(steps: seq<Step>)
    requires Legal(INIT, steps)
    ensures Run(INIT, steps).world.configs == AfterEvents(EventsOf(steps))
  {
    RunContinues(INIT, steps);
    ContinueIsHistory(EventsOf(steps));
  }

  lemma {:induction false} LatestExists(events: seq<ConfigMapEvent>, name: string) returns (i: nat)
    requires name in AfterEvents(events)
    ensures Latest(events, name, i)
  {
    hide ConfigOf;
    var n := |events| - 1;
    if Concerns(events[n], name) {
      i := n;
    } else {
      i := LatestExists(events[..n], name);
    }
  }

  /** Where configurations are served: the one a handler goes on with is the
      parse of the latest event of its name, whatever happened in the run. */
  lemma ServedIsLatest(steps: seq<Step>, id: nat, order: seq<string>, listings: Listings) returns (i: nat)
    requires Legal(INIT, steps) && Enabled(Run(INIT, steps), ChooseCfg(id, order, listings))
    requires Apply(Run(INIT, steps), ChooseCfg(id, order, listings)).tasks[id].PickMethod?
    ensures var events, cfg := EventsOf(steps), Apply(Run(INIT, steps), ChooseCfg(id, order, listings)).tasks[id].cfg;
            Latest(events, cfg.name, i) && EntryAfter(events[i]) == Some(cfg)
  {
    hide ConfigOf, Scan, Matches, Latest;
    var s := Run(INIT, steps);
    var cfg, copy := Apply(s, ChooseCfg(id, order, listings)).tasks[id].cfg, s.tasks[id].copy;
    InitOk();
    RunOk(INIT, steps);
    RegistryOfRun(steps);
    ChooseConfigSound(s.world.configs, copy.status.config, order, copy.target, listings);
    assert cfg.name in s.world.configs && s.world.configs[cfg.name] == Some(cfg);
    i := LatestExists(EventsOf(steps), cfg.name);
    RegistryServesLatest(EventsOf(steps), cfg.name, i);
  }

  // ------------------------------------------------------------ panics

  /** In a run, the handler of an open request panics while choosing exactly
      when no live choice binds it and some entry is nil. */
  lemma ChoicePanics(s: Sys, id: nat, order: seq<string>, listings: Listings)
    requires Enabled(s, ChooseCfg(id, order, listings)) && !s.tasks[id].copy.status.complete
    ensures Apply(s, ChooseCfg(id, order, listings)).tasks[id] == Ended(Panicked) <==>
            !Live(s.world.configs, s.tasks[id].copy.status.config) && !NoNil(s.world.configs)
  {
    hide Scan, Matches;
    var c := s.tasks[id].copy;
    ChooseConfigSound(s.world.configs, c.status.config, order, c.target, listings);
  }

  /** In a run, picking a method panics exactly when the configuration has none. */
  lemma PickPanics(s: Sys, id: nat, ok: bool)
    requires Reachable(s) && Enabled(s, PickNext(id, ok))
    ensures Apply(s, PickNext(id, ok)).tasks[id] == Ended(Panicked) <==> s.tasks[id].cfg.methods == []
  {
    ReachableOk(s);
    assert TaskOk(s.world, s.tasks[id]);
  }

  // ------------------------------------------------- request creation

  predicate CreatesFor(step: Step, target: string) {
    step.UserCreates? && step.target == target
  }

  predicate FailsListing(step: Step, target: string) {
    step.ListForCreate? && step.target == target && !step.ok
  }

  ghost predicate NoPoster(s: Sys, target: string) {
    forall id :: id in s.tasks ==> s.tasks[id] != PostRequest(target)
  }

  /** One step adds a request for the target only from a handler that is
      already past its listing, or from a user. */
  lemma StepAddsNone(s: Sys, step: Step, target: string, c: string)
    requires Inv(s) && Enabled(s, step) && NoPoster(s, target)
    requires !CreatesFor(step, target) && !FailsListing(step, target)
    requires c in s.world.store && s.world.store[c].target == target && s.world.store[c].status.complete
    ensures var s' := Apply(s, step);
            && NoPoster(s', target)
            && forall n :: n in s'.world.store && s'.world.store[n].target == target ==> n in s.world.used
  {
    hide TaskOk, AcceptedOk, StatusOk, JobLabels, CanBuild, ChooseConfig, ChooseMethod, AfterEvent;
    var s' := Apply(s, step);
    forall n | n in s'.world.store && s'.world.store[n].target == target ensures n in s.world.used {
      if n in s.world.store {
        assert StoredOk(s.world, n);
      }
    }
    forall id | id in s'.tasks ensures s'.tasks[id] != PostRequest(target) {
      if Environment(step) || id != step.id {
        assert s'.tasks[id] == s.tasks[id];
      }
    }
  }

  /** While a completed request for a target exists, its listings succeed and no
      handler is already past its listing, no step of any run adds another
      request for that target (users aside). */
  lemma {:induction false} NoSecondRequest(s: Sys, steps: seq<Step>, target: string, c: string)
    requires Inv(s) && Legal(s, steps) && NoPoster(s, target)
    requires forall i :: 0 <= i < |steps| ==> !CreatesFor(steps[i], target) && !FailsListing(steps[i], target)
    requires c in s.world.store && s.world.store[c].target == target && s.world.store[c].status.complete
    requires c in Run(s, steps).world.store
    ensures forall n :: n in Run(s, steps).world.store && Run(s, steps).world.store[n].target == target ==>
              n in s.world.used
    decreases |steps|
  {
    hide Apply, Enabled, StatusOk, TaskOk, AcceptedOk;
    if steps == [] {
      forall n | n in s.world.store ensures n in s.world.used {
        assert StoredOk(s.world, n);
      }
    } else {
      var s' := Apply(s, steps[0]);
      var last := Run(s', steps[1..]);
      assert StoredOk(s.world, c);
      StepOk(s, steps[0]);
      RunOk(s', steps[1..]);
      assert KeptOrRewritten(s'.world, last.world, c);
      assert KeptOrRewritten(s.world, s'.world, c);
      StepAddsNone(s, steps[0], target, c);
      NoSecondRequest(s', steps[1..], target, c);
      forall n | n in last.world.store && last.world.store[n].target == target ensures n in s.world.used {
        assert KeptOrRewritten(s'.world, last.world, n);
      }
    }
  }

  // ----------------------------------------------------- cancellation

  /** Once a cancellation has listed a node's requests and every deletion went
      through, none of the requests there at the listing is ever back: what the
      node still has was created after it, under any interleaving. */
  lemma CancelledStayGone(s: Sys, id: nat, target: string, order: seq<string>, steps: seq<Step>, n: string)
    requires Inv(s) && Enabled(s, ListForCancel(id, target, true, order))
    requires var s0 := Apply(s, ListForCancel(id, target, true, order));
             && Legal(s0, steps)
             && Run(s0, steps).tasks.Keys >= {id}
             && Run(s0, steps).tasks[id] == Cancel(target, ListRequests(s.world, target), [], true)
    requires var last := Run(Apply(s, ListForCancel(id, target, true, order)), steps).world;
             n in last.store && last.store[n].target == target
    ensures n !in s.world.used
  {
    hide Enabled, StatusOk, AcceptedOk, StoredOk;
    var s0 := Apply(s, ListForCancel(id, target, true, order));
    var last := Run(s0, steps);
    StepOk(s, ListForCancel(id, target, true, order));
    RunOk(s0, steps);
    assert TaskOk(last.world, last.tasks[id]);
  }

  /** Left alone, a cancellation whose deletions all succeed leaves its node without requests. */
  lemma {:induction false} CancelEmptiesNode(s: Sys, id: nat, steps: seq<Step>)
    requires Inv(s) && id in s.tasks && s.tasks[id].Cancel? && s.tasks[id].allDeleted
    requires s.tasks[id].listed >= ListRequests(s.world, s.tasks[id].target)
    requires |steps| == |s.tasks[id].pending|
    requires forall i :: 0 <= i < |steps| ==> steps[i] == DeleteNext(id, true)
    ensures Legal(s, steps) && ListRequests(Run(s, steps).world, s.tasks[id].target) == {}
    decreases |steps|
  {
    hide StatusOk, AcceptedOk, StoredOk;
    var t := s.tasks[id];
    assert TaskOk(s.world, t);
    if steps != [] {
      assert Enabled(s, steps[0]);
      StepOk(s, steps[0]);
      CancelEmptiesNode(Apply(s, steps[0]), id, steps[1..]);
    }
  }
}
