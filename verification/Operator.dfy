/** The handlers as written (pkg/stub/fencing.go, pkg/stub/handler.go,
    pkg/apis/fencing/v1alpha1/request.go), run against a cluster that other
    handlers and the environment change before every API call.

    The script of the cluster, fixed beforehand, gives the answers and the
    others' moves; so each handler has exactly one state to end in, the one the
    transition system drives to.  Cluster.sys.tasks[me] is the bookkeeping for
    that: it says where the handler stands and is never read by its code. */
module Operator {
  import opened Options
  import opened ConfigTree
  import opened Mechanisms
  import opened Requests
  import opened JobBuilder
  import opened Registry
  import opened Selection
  import opened Controller
  import opened Safety
  import opened Conversation
  import opened Outcomes

  // ------------------------------------------------------------ cluster

  class Cluster {
    const script: Script
    var sys: Sys
    var turn: nat

    constructor (script: Script)
      ensures this.script == script && sys == INIT && turn == 0
    {
      this.script := script;
      sys, turn := INIT, 0;
    }

    function Now(): Point
      reads this
    {
      Point(sys, turn)
    }

    /** The handler me stands at t. */
    ghost predicate At(me: nat, t: Task)
      reads this
    {
      me in sys.tasks && sys.tasks[me] == t
    }

    /** One piece further, and all the way. */
    ghost function Next(me: nat): Point
      requires Fair(script) && Active(Now(), me)
      reads this
    {
      Turned(Now(), script, me)
    }

    ghost function End(me: nat): Point
      requires Fair(script) && me in sys.tasks
      reads this
    {
      Drive(Now(), script, me)
    }

    /** The state in which the next call will take effect. */
    ghost function Soon(me: nat): Sys
      reads this
    {
      Waited(Now(), script, me)
    }

    /** The others have their turn, then the server its answer. */
    method Await(me: nat) returns (a: Answer)
      modifies this
      ensures sys == old(Soon(me)) && turn == old(turn) + 1
      ensures a == script.answer(old(turn))
    {
      hide Enabled, Apply, ByOthers;
      a := script.answer(turn);
      var todo := script.others(turn);
      for i := 0 to |todo|
        invariant Play(sys, todo[i..], me) == Play(old(sys), todo, me)
        invariant turn == old(turn)
      {
        assert todo[i..][1..] == todo[i + 1..];
        if ByOthers(todo[i], me) && Enabled(sys, todo[i]) {
          sys := Apply(sys, todo[i]);
        }
      }
      turn := turn + 1;
    }

    /** The handler leaves the world as given, which its step must account for. */
    method Commit(world: World, step: Step)
      requires Enabled(sys, step) && !Environment(step) && world == WorldAfter(sys, step)
      modifies this`sys
      ensures sys == Apply(old(sys), step)
    {
      sys := Sys(world, sys.tasks[step.id := TaskAfter(sys, step)]);
    }

    /** A piece without a call. */
    method Proceed(me: nat)
      requires Fair(script) && Active(Now(), me) && Quiet(sys.tasks[me])
      modifies this`sys
      ensures Now() == old(Next(me))
    {
      sys := Apply(sys, MyStep(sys, script, turn, me));
    }
  }

  /** Go ranges over a set of keys in some order. */
  method InSomeOrder(names: set<string>) returns (order: seq<string>)
    ensures Permutes(order, names)
  {
    order := [];
    var rest := names;
    while rest != {}
      invariant rest <= names
      invariant forall n :: n in order <==> n in names && n !in rest
      invariant forall i, j :: 0 <= i < j < |order| ==> order[i] != order[j]
      decreases |rest|
    {
      var n :| n in rest;
      order := order + [n];
      rest := rest - {n};
    }
  }

  // ------------------------------------------------------------ request

  /** The record is offered to the server, and the copy may learn its new version. */
  ghost predicate Offered(w: World, w': World, record: Copy, version: nat, answer: UpdateReply) {
    && Takes(w, w', record, answer)
    && version == if answer.refreshed && w' != w then w.clock else record.version
  }

  class FencingRequest {
    const name: string
    const target: string
    var version: nat
    var complete: bool
    var result: string
    var config: Option<string>
    var activeMethod: Option<string>
    var activeJob: Option<string>
    var updates: seq<Entry>

    constructor (c: Copy)
      ensures Value() == c
    {
      name, target, version := c.name, c.target, c.version;
      complete, result, config := c.status.complete, c.status.result, c.status.config;
      activeMethod, activeJob, updates := c.status.activeMethod, c.status.activeJob, c.status.updates;
    }

    function StatusValue(): Status
      reads this
    {
      Status(complete, result, config, activeMethod, activeJob, updates)
    }

    function Value(): Copy
      reads this
    {
      Copy(name, target, version, StatusValue())
    }

    /** One attempt: the retry loop stops at the first error. */
    method Update(c: Cluster, me: nat)
      requires Fair(c.script)
      requires me in c.sys.tasks && c.sys.tasks[me].Save? && c.sys.tasks[me].copy == Value()
      modifies c, this`version
      ensures c.Now() == old(c.Next(me)) && c.turn == old(c.turn) + 1
      ensures c.At(me, if old(c.sys.tasks[me].after).ToRequest? then Request(Value()) else Ended(Returned))
      ensures Offered(old(c.Soon(me)).world, c.sys.world, Value().(version := old(version)), version,
                      c.script.answer(old(c.turn)).update)
    {
      hide Fair, Play, Enabled, TaskAfter;
      var answer := c.Await(me);
      var reread := Reread(c.sys.world, Value(), answer.update);
      SaveMoves(c.sys, me, answer.update);
      c.Commit(Written(c.sys.world, Value(), answer.update), SaveStatus(me, answer.update));
      version := reread.version;
    }

    method AddResult(c: Cluster, methodName: string, message: string, detail: Detail, me: nat)
      requires Fair(c.script)
      requires me in c.sys.tasks && c.sys.tasks[me].Save?
      requires c.sys.tasks[me].copy == Value().(status := AddEntry(StatusValue(), methodName, message, detail))
      modifies c, this`version, this`updates
      ensures updates == old(updates) + [Entry(methodName, message, detail)]
      ensures c.Now() == old(c.Next(me)) && c.turn == old(c.turn) + 1
      ensures c.At(me, if old(c.sys.tasks[me].after).ToRequest? then Request(Value()) else Ended(Returned))
      ensures Offered(old(c.Soon(me)).world, c.sys.world, Value().(version := old(version)), version,
                      c.script.answer(old(c.turn)).update)
    {
      updates := updates + [Entry(methodName, message, detail)];
      Update(c, me);
    }

    method SetFinalResult(c: Cluster, final: string, detail: Detail, me: nat)
      requires Fair(c.script)
      requires me in c.sys.tasks && c.sys.tasks[me].Save?
      requires c.sys.tasks[me].copy == Value().(status := Finalize(StatusValue(), final, detail))
      modifies c, this`version, this`updates, this`complete, this`result
      ensures complete && result == final && updates == old(updates) + [Entry("", final, detail)]
      ensures c.Now() == old(c.Next(me)) && c.turn == old(c.turn) + 1
      ensures c.At(me, if old(c.sys.tasks[me].after).ToRequest? then Request(Value()) else Ended(Returned))
      ensures Offered(old(c.Soon(me)).world, c.sys.world, Value().(version := old(version)), version,
                      c.script.answer(old(c.turn)).update)
    {
      complete := true;
      result := final;
      AddResult(c, "", final, detail, me);
    }
  }

  lemma SaveMoves(s: Sys, me: nat, answer: UpdateReply)
    requires me in s.tasks && s.tasks[me].Save?
    ensures Enabled(s, SaveStatus(me, answer))
    ensures WorldAfter(s, SaveStatus(me, answer)) == Written(s.world, s.tasks[me].copy, answer)
    ensures var copy := Reread(s.world, s.tasks[me].copy, answer);
            TaskAfter(s, SaveStatus(me, answer)) ==
              if s.tasks[me].after.ToRequest? then Request(copy) else Ended(Returned)
  {
  }

  // ---------------------------------------------------- fencing requests

  /** The jobs a selector finds, and the table they were found in. */
  method ListJobs(c: Cluster, selector: map<string, string>, me: nat)
    returns (jobs: map<string, JobView>, listing: Option<map<string, JobView>>)
    modifies c
    ensures c.sys == old(c.Soon(me)) && c.turn == old(c.turn) + 1
    ensures listing == if c.script.answer(old(c.turn)).ok then Some(c.sys.world.jobs) else None
    ensures listing.Some? ==>
              jobs == map j | j in listing.value && Selects(selector, listing.value[j].labels) :: listing.value[j]
  {
    var answer := c.Await(me);
    if !answer.ok {
      return map[], None;
    }
    listing := Some(c.sys.world.jobs);
    jobs := map j | j in c.sys.world.jobs && Selects(selector, c.sys.world.jobs[j].labels) :: c.sys.world.jobs[j];
  }

  method IsFencingMethodActive(c: Cluster, req: FencingRequest, plan: Method, me: nat)
    returns (active: bool, listing: Option<map<string, JobView>>)
    modifies c
    ensures c.sys == old(c.Soon(me)) && c.turn == old(c.turn) + 1
    ensures listing == if c.script.answer(old(c.turn)).ok then Some(c.sys.world.jobs) else None
    ensures active <==> listing.Some? && HasActive(listing.value, JobLabels(req.Value(), plan.name))
  {
    hide JobLabels, Selects, Play;
    var selector := JobLabels(req.Value(), plan.name);
    var jobs;
    jobs, listing := ListJobs(c, selector, me);
    if listing.None? {
      return false, None;
    }
    var order := InSomeOrder(jobs.Keys);
    for i := 0 to |order|
      invariant forall k :: 0 <= k < i ==> jobs[order[k]].active == 0
    {
      assert order[i] in order;
      if jobs[order[i]].active > 0 {
        return true, listing;
      }
    }
    forall j | j in listing.value && Selects(selector, listing.value[j].labels)
      ensures listing.value[j].active == 0
    {
      assert j in order;
    }
    return false, listing;
  }

  method FindNode(name: string, nodes: seq<Node>) returns (found: bool)
    ensures found == NodeInList(name, nodes)
  {
    for i := 0 to |nodes|
      invariant forall j :: 0 <= j < i ==> nodes[j].name != name
    {
      if nodes[i].name == name {
        return true;
      }
    }
    return false;
  }

  /** listings is what the API answers, should the loop ask, and order the one
      in which Go ranges over the registry; the loop reads the registry as it
      is when the loop starts. */
  method ChooseFencingConfig(configs: Configs, order: seq<string>, req: FencingRequest, listings: Listings)
    returns (choice: Choice)
    requires Permutes(order, configs.Keys)
    modifies req`config
    ensures choice == ChooseConfig(configs, old(req.config), order, req.target, listings)
    ensures req.config == match choice
                          case NilEntry => None
                          case NoMatch => None
                          case Chosen(cfg) =>
                            if Live(configs, old(req.config)) then old(req.config) else Some(cfg.name)
  {
    if req.config.Some? && req.config.value in configs && configs[req.config.value].Some? {
      return Chosen(configs[req.config.value].value);
    }
    req.config := None;
    var chosen, threshold := None, -1;
    for i := 0 to |order|
      invariant req.config == None
      invariant Scan(order, configs, req.target, listings, None, -1) ==
                Scan(order[i..], configs, req.target, listings, chosen, threshold)
    {
      assert order[i..][1..] == order[i + 1..];
      assert order[i] in order;
      if configs[order[i]].None? {
        return NilEntry;
      }
      var cfg := configs[order[i]].value;
      if |cfg.nodeSelector| > threshold {
        if order[i] in listings {
          var found := FindNode(req.target, Selected(cfg.nodeSelector, listings[order[i]]));
          if found {
            chosen := Some(cfg);
            threshold := |cfg.nodeSelector|;
          }
        }
      }
    }
    if chosen.Some? {
      req.config := Some(chosen.value.name);
      return Chosen(chosen.value);
    }
    return NoMatch;
  }

  /** The loop over the methods, with others acting before each of its
      questions: it takes the method that the choice on values gives for what
      the server said, and fails without one. */
  method ChooseFencingMethod(c: Cluster, req: FencingRequest, cfg: FencingConfig, me: nat)
    returns (choice: Option<(Method, bool)>)
    requires Fair(c.script) && c.At(me, PickMethod(req.Value(), cfg, 0, false))
    modifies c
    ensures choice == ChooseMethod(cfg.methods, req.activeMethod, old(Heard(c.Now(), c.script, me)))
    ensures c.Now() == old(LoopEnd(c.Now(), c.script, me))
    ensures c.At(me, if choice.None? then Ended(Panicked)
                     else CheckActive(req.Value(), cfg, choice.value.0, choice.value.1))
  {
    hide JobLabels, Fair, Play, Enabled, Apply, WorldAfter, Heard, HasActive, LoopEnd, Turned, ChooseMethod;
    var next := false;
    var max := |cfg.methods|;
    ghost var start := c.Now();
    LoopChooses(start, c.script, me);
    for lpc := 0 to max
      invariant c.At(me, PickMethod(req.Value(), cfg, lpc, next))
      invariant LoopEnd(c.Now(), c.script, me) == LoopEnd(start, c.script, me)
    {
      var last := lpc + 1 == max;
      var plan := cfg.methods[lpc];
      LoopTurn(c.Now(), c.script, me);
      LoopTurns(c.Now(), c.script, me);
      if req.activeMethod.None? {
        c.Proceed(me);
        LoopTurns(c.Now(), c.script, me);
        return Some((plan, last));
      } else if req.activeMethod.value == plan.name {
        LoopAsks(c.Now(), c.script, me);
        var active, listing := IsFencingMethodActive(c, req, plan, me);
        c.Commit(c.sys.world, PickNext(me, listing.Some?));
        LoopTurns(c.Now(), c.script, me);
        if active {
          return Some((plan, last));
        }
        next := true;
      } else {
        c.Proceed(me);
        LoopTurns(c.Now(), c.script, me);
        if next {
          return Some((plan, last));
        }
      }
    }
    LoopTurn(c.Now(), c.script, me);
    LoopTurns(c.Now(), c.script, me);
    c.Proceed(me);
    LoopTurns(c.Now(), c.script, me);
    return None;
  }

  /** With an error: a final result after the last method, else a note in the
      log.  The message names the method, so without one the handler panics. */
  method HandleFencingRequestError(c: Cluster, req: FencingRequest, plan: Option<Method>,
                                   err: bool, last: bool, me: nat)
    returns (handled: bool, outcome: Outcome)
    requires Fair(c.script)
    requires err && plan.Some? ==>
               c.At(me, Save(req.Value().(status := ErrorStatus(req.StatusValue(), plan.value, last)), ToEnd))
    modifies c, req`version, req`updates, req`complete, req`result
    ensures handled <==> err
    ensures outcome == Panicked <==> err && plan.None?
    ensures !err || plan.None? ==> c.Now() == old(c.Now()) && req.Value() == old(req.Value())
    ensures err && plan.Some? ==>
              && req.complete == (old(req.complete) || last)
              && req.result == (if last then GIVING_UP else old(req.result))
              && req.updates == old(req.updates) + [Entry(if last then "" else plan.value.name, GIVING_UP, Failure)]
              && c.Now() == old(c.Next(me)) && c.At(me, Ended(Returned))
              && Offered(old(c.Soon(me)).world, c.sys.world, req.Value().(version := old(req.version)), req.version,
                         c.script.answer(old(c.turn)).update)
  {
    hide Fair, Offered, Turned;
    if err && plan.None? {
      return true, Panicked;
    }
    if err && last {
      req.SetFinalResult(c, GIVING_UP, Failure, me);
      return true, Returned;
    } else if err {
      req.AddResult(c, plan.value.name, GIVING_UP, Failure, me);
      return true, Returned;
    }
    return false, Returned;
  }

  /** One attempt to create the job: the retry loop stops at the first error. */
  method PostJob(c: Cluster, req: FencingRequest, cfg: FencingConfig, plan: Method, last: bool,
                 listing: Option<map<string, JobView>>, job: Job, me: nat)
    returns (err: bool, name: string)
    requires Fair(c.script)
    requires c.At(me, CreateJob(req.Value(), cfg, plan, last, listing))
    requires job.labels == JobLabels(req.Value(), plan.name) && job.owner == req.name
    modifies c
    ensures c.Now() == old(c.Next(me))
    ensures var reply := GrantedJob(old(c.Soon(me)).world, c.script.answer(old(c.turn)).create);
            && (err <==> reply.CreatedUnread? || reply.Rejected?)
            && (!err ==> name == if reply.Created? then reply.name else "")
            && c.At(me, AfterCreate(old(c.sys.tasks[me]), reply))
  {
    hide JobLabels, Fair, Play, AfterCreate, FreshJob;
    var answer := c.Await(me);
    var world := c.sys.world;
    var reply := answer.create;
    if reply.Created? || reply.CreatedUnread? {
      if FreshJob(world, reply.name) {
        world := Accept(world, req, cfg, plan, listing, job, reply.name);
      } else {
        reply := Rejected;
      }
    } else if reply.AlreadyExists? {
      world := world.(refused := world.refused + [req.name]);
    }
    err := reply.CreatedUnread? || reply.Rejected?;
    if err {
      world := Gave(world, c.sys.tasks[me]);
    }
    c.Commit(world, Create(me, reply));
    name := if reply.Created? then reply.name else "";
  }

  /** The server's side of an accepted job. */
  function Accept(w: World, req: FencingRequest, cfg: FencingConfig, plan: Method,
                  listing: Option<map<string, JobView>>, job: Job, name: string): World
    reads req
  {
    w.(jobs := w.jobs[name := JobView(name, job.labels, Some(job.owner), 0, 0, 0)],
       accepted := w.accepted + [Accepted(name, req.Value(), cfg, plan, listing)])
  }

  /** From the job on: create it and record what came of that. */
  method LaunchJob(c: Cluster, req: FencingRequest, cfg: FencingConfig, plan: Method, last: bool,
                   listing: Option<map<string, JobView>>, job: Job, me: nat)
    requires Fair(c.script)
    requires c.At(me, CreateJob(req.Value(), cfg, plan, last, listing))
    requires job.labels == JobLabels(req.Value(), plan.name) && job.owner == req.name
    modifies c, req
    ensures c.Now() == old(c.End(me)) && c.At(me, Ended(Returned))
  {
    hide JobLabels, Fair, Turned, Drive, Offered, GrantedJob;
    DriveTurns(c.Now(), c.script, me);
    var err, name := PostJob(c, req, cfg, plan, last, listing, job, me);
    DriveTurns(c.Now(), c.script, me);
    if !err {
      req.activeJob := Some(name);
    }
    var handled, outcome := HandleFencingRequestError(c, req, Some(plan), err, last, me);
    if !handled {
      req.AddResult(c, plan.name, PROGRESS, Initiated(plan.name, name), me);
    }
    DriveEnds(c.Now(), c.script, me);
  }

  /** From the method on: wait, report an error, or create the job. */
  method ScheduleJob(c: Cluster, req: FencingRequest, cfg: FencingConfig, plan: Method, last: bool, me: nat)
    requires Fair(c.script)
    requires c.At(me, CheckActive(req.Value(), cfg, plan, last))
    modifies c, req
    ensures c.Now() == old(c.End(me)) && c.At(me, Ended(Returned))
    ensures !old(req.complete) ==>
              Scheduled(old(c.sys), old(c.turn), c.Now(), c.script, me, old(req.Value()), cfg, plan, last)
  {
    hide JobLabels, Fair, Turned, Drive, Offered, HasActive, ErrorStatus, PartsOf, ContainersOf, AllVolumes;
    hide Play, Scheduled, Apply, Enabled, WorldAfter, TaskAfter;
    ScheduleRunFrom(c.Now(), c.script, me);
    DriveTurns(c.Now(), c.script, me);
    CheckMoves(c.Now(), c.script, me);
    var active, listing := IsFencingMethodActive(c, req, plan, me);
    MovesTo(c.sys, Check(me, listing.Some?));
    if active {
      c.Commit(c.sys.world, Check(me, listing.Some?));
      DriveEnds(c.Now(), c.script, me);
      return;
    }
    var job, parts := CreateFencingJob(req.Value(), plan);
    c.Commit(if job.None? then Gave(c.sys.world, c.sys.tasks[me]) else c.sys.world, Check(me, listing.Some?));
    if job.None? {
      DriveTurns(c.Now(), c.script, me);
      var handled, outcome := HandleFencingRequestError(c, req, Some(plan), true, last, me);
      DriveEnds(c.Now(), c.script, me);
    } else {
      LaunchJob(c, req, cfg, plan, last, listing, job.value, me);
    }
  }

  /** A request that is deleted or complete is left alone.  In a run, where no
      method is ever active, the handler panics exactly on a fatal choice, and
      so never where the registry is orderly. */
  method HandleFencingRequest(c: Cluster, req: FencingRequest, deleted: bool, me: nat) returns (outcome: Outcome)
    requires Fair(c.script)
    requires !deleted ==> c.At(me, Request(req.Value()))
    modifies c, req
    ensures deleted ==> outcome == Returned && c.Now() == old(c.Now()) && req.Value() == old(req.Value())
    ensures !deleted ==> c.Now() == old(c.End(me)) && c.At(me, Ended(outcome))
    ensures !deleted && old(req.complete) ==>
              && outcome == Returned && c.sys.world == old(c.sys.world) && c.turn == old(c.turn)
              && req.Value() == old(req.Value())
    ensures !deleted && !old(req.complete) && (old(req.activeMethod).None? || old(Inv(c.sys))) ==>
              (outcome == Panicked <==> Fatal(old(FirstChoice(c.Now(), c.script, me))))
    ensures !deleted && (old(req.activeMethod).None? || old(Inv(c.sys))) ==>
              (old(OrderlyChoice(c.Now(), c.script, me)) ==> outcome == Returned)
    ensures !deleted && !old(req.complete) && (old(req.activeMethod).None? || old(Inv(c.sys))) ==>
              Requested(old(c.sys), old(c.turn), c.Now(), c.script, me, old(req.Value()))
  {
    hide Fair, Turned, Drive, Offered, Play, Inv, OrderlyChoice, FirstChoice, ChooseMethod, Requested;
    if deleted {
      return Returned;
    }
    DriveTurns(c.Now(), c.script, me);
    if req.complete {
      c.Proceed(me);
      CompleteIsLeft(old(c.Now()), c.script, me);
      DriveEnds(c.Now(), c.script, me);
      return Returned;
    }
    if old(Inv(c.sys)) {
      NeverActive(c.sys, me);
    }
    OrderlyIsNotFatal(c.Now(), c.script, me);
    StandingIs(c.Now(), me);
    if req.activeMethod.None? {
      RequestRun(c.sys, c.turn, c.script, me, req.Value());
    }
    var choice := ChooseForRequest(c, req, me);
    if choice.NilEntry? {
      DriveEnds(c.Now(), c.script, me);
      return Panicked;
    }
    if choice.NoMatch? {
      DriveTurns(c.Now(), c.script, me);
      req.SetFinalResult(c, NO_CONFIG, Failure, me);
      DriveEnds(c.Now(), c.script, me);
      return Returned;
    }
    outcome := ScheduleMethod(c, req, choice.cfg, me);
  }

  /** From the configuration on: choose a method and schedule it, whatever the active one. */
  method ScheduleMethod(c: Cluster, req: FencingRequest, cfg: FencingConfig, me: nat) returns (outcome: Outcome)
    requires Fair(c.script)
    requires c.At(me, PickMethod(req.Value(), cfg, 0, false))
    modifies c, req
    ensures c.Now() == old(c.End(me)) && c.At(me, Ended(outcome))
    ensures old(req.activeMethod).None? ==> (outcome == Panicked <==> cfg.methods == [])
    ensures var choice := ChooseMethod(cfg.methods, old(req.activeMethod), old(Heard(c.Now(), c.script, me)));
            var p := old(LoopEnd(c.Now(), c.script, me));
            && (outcome == Panicked <==> choice.None?)
            && (choice.None? ==> c.Now() == p)
            && (choice.Some? && !old(req.complete) ==>
                  Scheduled(p.sys, p.turn, c.Now(), c.script, me, old(req.Value()), cfg,
                            choice.value.0, choice.value.1))
  {
    hide Fair, Drive, LoopEnd, ChooseMethod, Heard, Scheduled;
    LoopDrives(c.Now(), c.script, me);
    NoneMeansNone(cfg.methods, Heard(c.Now(), c.script, me));
    var picked := ChooseFencingMethod(c, req, cfg, me);
    if picked.None? {
      var handled;
      handled, outcome := HandleFencingRequestError(c, req, None, true, true, me);
      DriveEnds(c.Now(), c.script, me);
      return;
    }
    ScheduleJob(c, req, cfg, picked.value.0, picked.value.1, me);
    return Returned;
  }

  lemma CompleteIsLeft(p: Point, script: Script, me: nat)
    requires Fair(script) && me in p.sys.tasks && p.sys.tasks[me].Request? && p.sys.tasks[me].copy.status.complete
    ensures var q := Turned(p, script, me);
            q.turn == p.turn && q.sys.world == p.sys.world && q.sys.tasks[me] == Ended(Returned)
  {
    hide ChooseConfig, AfterChoice;
  }

  /** The configuration for an open request, from the registry and the nodes as they are. */
  method ChooseForRequest(c: Cluster, req: FencingRequest, me: nat) returns (choice: Choice)
    requires Fair(c.script)
    requires c.At(me, Request(req.Value())) && !req.complete
    modifies c, req`config
    ensures c.Now() == old(c.Next(me)) && choice == old(FirstChoice(c.Now(), c.script, me))
    ensures me in c.sys.tasks
    ensures c.sys.tasks[me] == match choice
              case NilEntry => Ended(Panicked)
              case NoMatch => Save(req.Value().(status := Finalize(req.StatusValue(), NO_CONFIG, Failure)), ToEnd)
              case Chosen(cfg) => PickMethod(req.Value(), cfg, 0, false)
  {
    hide Turned, Play, ChooseConfig, Enabled, Apply, WorldAfter, TaskAfter;
    ghost var start := c.Now();
    ChoiceMoves(start, c.script, me);
    var answer := c.Await(me);
    var order := c.script.range(c.turn - 1, c.sys.world.configs.Keys);
    choice := ChooseFencingConfig(c.sys.world.configs, order, req, answer.listings);
    c.Commit(c.sys.world, ChooseCfg(me, order, answer.listings));
    MovesTo(old(c.Soon(me)), ChooseCfg(me, order, answer.listings));
  }

  lemma MovesTo(s: Sys, step: Step)
    requires Enabled(s, step) && !Environment(step)
    ensures step.id in Apply(s, step).tasks && Apply(s, step).tasks[step.id] == TaskAfter(s, step)
  {
  }

  /** With no active method there is none to choose exactly where there are none at all. */
  lemma NoneMeansNone(methods: seq<Method>, answers: seq<bool>)
    requires |answers| == |methods|
    ensures ChooseMethod(methods, None, answers) ==
            if methods == [] then None else Some((methods[0], |methods| == 1))
  {
  }

  // -------------------------------------------------------- job events

  /** Events that tell a handler nothing: the job has not started, the request
      is done, or the job is not its active one. */
  predicate Ignored(copy: Copy, job: JobView) {
    || (job.active == 0 && job.failed == 0 && job.succeeded == 0)
    || copy.status.complete
    || (copy.status.activeJob.Some? && copy.status.activeJob.value != job.name)
  }

  /** An event that tells nothing changes nothing.  A job that succeeded without
      failures closes the record, which is offered to the server at once, and
      nothing more happens.  Failures and successes with none active panic for
      want of an active method.  All other events lead to HandleFencingRequest. */
  method HandleFencingJob(c: Cluster, req: FencingRequest, job: JobView, me: nat) returns (outcome: Outcome)
    requires Fair(c.script)
    requires c.At(me, JudgeJob(req.Value(), job))
    modifies c, req
    ensures c.Now() == old(c.End(me)) && c.At(me, Ended(outcome))
    ensures Ignored(old(req.Value()), job) ==>
              outcome == Returned && c.sys.world == old(c.sys.world) && c.turn == old(c.turn)
    ensures !Ignored(old(req.Value()), job) && job.active == 0 && job.failed == 0 ==>
              && outcome == Returned && c.turn == old(c.turn) + 1
              && req.StatusValue() == Finalize(old(req.StatusValue()), COMPLETE, JobDone(job.name))
              && Offered(old(Waited(c.Next(me), c.script, me)).world, c.sys.world,
                         req.Value().(version := old(req.version)), req.version, c.script.answer(old(c.turn)).update)
    ensures !Ignored(old(req.Value()), job) && job.active == 0 && job.failed != 0 && job.succeeded != 0
            && old(req.activeMethod).None? ==>
              outcome == Panicked && c.sys.world == old(c.sys.world) && c.turn == old(c.turn)
    ensures !Ignored(old(req.Value()), job) && (job.active != 0 || (job.failed != 0 && job.succeeded == 0)) ==>
              c.Now() == old(Drive(Standing(c.sys, c.turn, me, Request(req.Value())), c.script, me))
    ensures !Ignored(old(req.Value()), job) && job.active == 0 && job.failed != 0 && job.succeeded != 0
            && old(req.activeMethod).Some? ==>
              NotedThen(old(c.sys), old(c.turn), c.Now(), c.script, me, old(req.Value().(status :=
                req.StatusValue().(updates := req.updates +
                  [Entry(req.activeMethod.value, "MethodInProgress", JobDone(job.name))]))))
    ensures old(req.activeMethod).None? || old(Inv(c.sys)) ==>
              Heeded(old(c.sys), old(c.turn), c.Now(), c.script, me, old(req.Value()), job)
  {
    hide Fair, Turned, Drive, Offered, Play, Fatal, Inv, Heeded, Requested, NotedThen, Standing;
    JudgedOutcomes(c.Now(), c.script, me);
    JudgeMoves(c.Now(), c.script, me);
    DriveTurns(c.Now(), c.script, me);
    c.Proceed(me);
    DriveEndsIfDone(c.Now(), c.script, me);
    if job.active == 0 && job.failed == 0 && job.succeeded == 0 {
      return Returned;
    } else if req.complete {
      return Returned;
    } else if req.activeJob.Some? && req.activeJob.value != job.name {
      return Returned;
    } else if job.active == 0 && job.failed != 0 && job.succeeded != 0 {
      if req.activeMethod.None? {
        return Panicked;
      }
      DriveTurns(c.Now(), c.script, me);
      req.AddResult(c, req.activeMethod.value, PROGRESS, JobDone(job.name), me);
    }
    if job.active == 0 && job.failed == 0 {
      DriveTurns(c.Now(), c.script, me);
      req.SetFinalResult(c, COMPLETE, JobDone(job.name), me);
    }
    outcome := HandleFencingRequest(c, req, false, me);
  }

  /** The last three promises, where the handler is driven. */
  lemma JudgedOutcomes(p: Point, script: Script, me: nat)
    requires Fair(script) && me in p.sys.tasks && p.sys.tasks[me].JudgeJob?
    ensures var copy, job, q := p.sys.tasks[me].copy, p.sys.tasks[me].job, Drive(p, script, me);
            && (!Ignored(copy, job) && (job.active != 0 || (job.failed != 0 && job.succeeded == 0)) ==>
                  q == Drive(Standing(p.sys, p.turn, me, Request(copy)), script, me))
            && (!Ignored(copy, job) && job.active == 0 && job.failed != 0 && job.succeeded != 0
                && copy.status.activeMethod.Some? ==>
                  NotedThen(p.sys, p.turn, q, script, me, copy.(status := copy.status.(updates := copy.status.updates +
                    [Entry(copy.status.activeMethod.value, "MethodInProgress", JobDone(job.name))]))))
            && (copy.status.activeMethod.None? || Inv(p.sys) ==> Heeded(p.sys, p.turn, q, script, me, copy, job))
  {
    hide Fair, Turned, Drive, Inv, Heeded, NotedThen;
    var copy, job := p.sys.tasks[me].copy, p.sys.tasks[me].job;
    if Inv(p.sys) {
      NeverActive(p.sys, me);
    }
    StandingIs(p, me);
    JudgeTurn(p.sys, p.turn, script, me, copy, job);
    DriveTurns(p, script, me);
    if copy.status.activeMethod.None? {
      JudgeRun(p.sys, p.turn, script, me, copy, job);
    } else if !Ignored(copy, job) && job.active == 0 && job.failed != 0 && job.succeeded != 0 {
      MixedRun(p.sys, p.turn, script, me, copy, job);
    }
  }

  lemma JudgeMoves(p: Point, script: Script, me: nat)
    requires Fair(script) && me in p.sys.tasks && p.sys.tasks[me].JudgeJob?
    ensures var t, q := p.sys.tasks[me], Turned(p, script, me);
            && q.turn == p.turn && q.sys.tasks[me] == Judged(t.copy, t.job)
            && (!Completes(t.copy, t.job) ==> q.sys.world == p.sys.world)
  {
    hide Judged;
  }

  /** A job without an owner is fatal.  Else its owner is looked up once among
      the requests of its target, and judged by the job if it is there. */
  method HandleJob(c: Cluster, job: JobView, me: nat) returns (outcome: Outcome)
    requires Fair(c.script)
    requires c.At(me, JobArrived(job))
    modifies c
    ensures c.Now() == old(c.End(me)) && c.At(me, Ended(outcome))
    ensures job.owner.None? ==>
              outcome == Panicked && c.sys.world == old(c.sys.world) && c.turn == old(c.turn)
    ensures job.owner.Some? ==>
              var w, answer := old(c.Soon(me)).world, c.script.answer(old(c.turn));
              !(answer.node && answer.ok && job.owner.value in w.store
                && w.store[job.owner.value].target == TargetOf(job)) ==>
                outcome == Returned && c.sys.world == w && c.turn == old(c.turn) + 1
    ensures old(Inv(c.sys)) ==> JobHandled(old(c.sys), old(c.turn), c.Now(), c.script, me, job)
  {
    hide Fair, Turned, Drive, Offered, Play, Inv, JobHandled, Heeded, Requested;
    if Inv(c.sys) {
      StandingIs(c.Now(), me);
      JobRun(c.sys, c.turn, c.script, me, job);
    }
    DriveTurns(c.Now(), c.script, me);
    LoadMoves(c.Now(), c.script, me);
    if job.owner.None? {
      c.Proceed(me);
      DriveEnds(c.Now(), c.script, me);
      return Panicked;
    }
    var owner, target := job.owner.value, TargetOf(job);
    var answer := c.Await(me);
    c.Commit(c.sys.world, LoadRequest(me, answer.node && answer.ok));
    DriveEndsIfDone(c.Now(), c.script, me);
    if !answer.node {
      return Returned;
    }
    if answer.ok && owner in c.sys.world.store && c.sys.world.store[owner].target == target {
      var req := new FencingRequest(CopyOf(c.sys.world, owner));
      outcome := HandleFencingJob(c, req, job, me);
    } else {
      return Returned;
    }
  }

  lemma LoadMoves(p: Point, script: Script, me: nat)
    requires Fair(script) && me in p.sys.tasks && p.sys.tasks[me].JobArrived?
    ensures var job := p.sys.tasks[me].job;
            if job.owner.None? then
              Turned(p, script, me) == Point(Placed(p.sys, me, Ended(Panicked)), p.turn)
            else
              var s, ok := Waited(p, script, me), script.answer(p.turn).node && script.answer(p.turn).ok;
              && Enabled(s, LoadRequest(me, ok)) && WorldAfter(s, LoadRequest(me, ok)) == s.world
              && TaskAfter(s, LoadRequest(me, ok)) == Loaded(s.world, job, ok)
              && Turned(p, script, me) == Point(Apply(s, LoadRequest(me, ok)), p.turn + 1)
  {
    hide Fair, Play;
  }

  lemma DriveEndsIfDone(p: Point, script: Script, me: nat)
    requires Fair(script) && me in p.sys.tasks
    ensures Done(p.sys.tasks[me]) ==> Drive(p, script, me) == p
  {
  }

  // -------------------------------------------------- requests of a node

  /** The requests of a node; a failed listing is read as empty. */
  method ListFencingRequests(c: Cluster, target: string, me: nat)
    returns (ok: bool, requests: seq<Copy>, order: seq<string>)
    requires Fair(c.script)
    modifies c
    ensures c.sys == old(c.Soon(me)) && c.turn == old(c.turn) + 1 && ok == c.script.answer(old(c.turn)).ok
    ensures order == c.script.range(old(c.turn), if ok then ListRequests(c.sys.world, target) else {})
    ensures Permutes(order, if ok then ListRequests(c.sys.world, target) else {})
    ensures |requests| == |order|
    ensures forall i :: 0 <= i < |order| ==>
              order[i] in c.sys.world.store && requests[i] == CopyOf(c.sys.world, order[i])
  {
    hide Play;
    var answer := c.Await(me);
    ok := answer.ok;
    order := c.script.range(c.turn - 1, if ok then ListRequests(c.sys.world, target) else {});
    requests := [];
    for i := 0 to |order|
      invariant |requests| == i
      invariant forall j :: 0 <= j < i ==>
                  order[j] in c.sys.world.store && requests[j] == CopyOf(c.sys.world, order[j])
    {
      assert order[i] in order;
      requests := requests + [CopyOf(c.sys.world, order[i])];
    }
  }

  /** Creates nothing after a good listing that shows a complete request, and
      otherwise exactly one request, should the server agree. */
  method CreateFencingRequest(c: Cluster, target: string, me: nat) returns (ok: bool)
    requires Fair(c.script) && Idling(c.sys, me)
    modifies c
    ensures Asked(old(c.sys), old(c.turn), c.Now(), c.script, me, target)
    ensures c.Now() == old(CreateRun(c.Now(), c.script, me, target)) && Idling(c.sys, me)
    ensures var w, n := old(c.Soon(me)).world, old(c.turn);
            if c.script.answer(n).ok && CompleteListed(w, target) then
              ok && c.sys.world == w && c.turn == n + 1
            else
              var before := old(BeforePost(c.Now(), c.script, me, target)).world;
              var reply := GrantedRequest(before, c.script.answer(n + 1).create);
              && c.turn == n + 2
              && (ok <==> reply.Created? || reply.AlreadyExists?)
              && c.sys.world ==
                   if reply.Created? || reply.CreatedUnread? then AddRequest(before, reply.name, target) else before
  {
    hide Play, Fair, FreshRequest, CreateRun, Asked, CompleteListed, Permutes, ListRequests;
    ghost var start := c.Now();
    CreateRunDoes(start, c.script, me, target);
    AskRun(start, c.script, me, target);
    var answered, requests, order := ListFencingRequests(c, target, me);
    var world := c.sys.world;
    c.Commit(world, ListForCreate(me, target, answered));
    var scheduled := AnyComplete(requests);
    CompleteIsListed(world, target, order, requests);
    if scheduled {
      return true;
    }
    var answer := c.Await(me);
    var reply := answer.create;
    world := c.sys.world;
    if reply.Created? || reply.CreatedUnread? {
      if FreshRequest(world, reply.name) {
        world := AddRequest(world, reply.name, target);
      } else {
        reply := Rejected;
      }
    }
    c.Commit(world, Post(me, reply));
    ok := reply.Created? || reply.AlreadyExists?;
  }

  method AnyComplete(requests: seq<Copy>) returns (found: bool)
    ensures found <==> exists i :: 0 <= i < |requests| && requests[i].status.complete
  {
    for i := 0 to |requests|
      invariant forall j :: 0 <= j < i ==> !requests[j].status.complete
    {
      if requests[i].status.complete {
        return true;
      }
    }
    return false;
  }

  lemma CompleteIsListed(w: World, target: string, order: seq<string>, requests: seq<Copy>)
    requires |requests| == |order|
    requires forall i :: 0 <= i < |order| ==> order[i] in w.store && requests[i] == CopyOf(w, order[i])
    ensures Permutes(order, ListRequests(w, target)) ==>
              (CompleteListed(w, target) <==> exists i :: 0 <= i < |requests| && requests[i].status.complete)
    ensures Permutes(order, {}) ==> requests == []
  {
    if Permutes(order, ListRequests(w, target)) {
      if n :| n in w.store && w.store[n].target == target && w.store[n].status.complete {
        assert n in order;
        var i :| 0 <= i < |order| && order[i] == n;
        assert requests[i].status.complete;
      }
      if i :| 0 <= i < |requests| && requests[i].status.complete {
        assert order[i] in order;
      }
    }
    if order != [] {
      assert order[0] in order;
    }
  }

  /** Deletes every listed request of a node; a failed deletion is only logged. */
  method CancelFencingRequests(c: Cluster, target: string, me: nat) returns (some: bool)
    requires Fair(c.script) && Idling(c.sys, me)
    modifies c
    ensures c.Now() == old(CancelRun(c.Now(), c.script, me, target)) && Idling(c.sys, me)
    ensures Withdrawn(old(c.sys), old(c.turn), c.Now(), c.script, me, target)
    ensures some <==> old(CancelListing(c.Now(), c.script, me, target)).order != []
    ensures c.turn == old(c.turn) + 1 + |old(CancelListing(c.Now(), c.script, me, target)).order|
    ensures old(Inv(c.sys)) ==>
              Cleared(old(c.Now()), c.Now(), c.script, target,
                      old(CancelListing(c.Now(), c.script, me, target)).order)
  {
    hide Play, Fair, Inv, Turned, Drive, Apply, Enabled, CancelListing, CancelListed, Idling, Cleared, Withdrawn;
    ghost var start := c.Now();
    if Inv(c.sys) {
      CancelledForGood(start, c.script, me, target);
    }
    CancelMoves(start, c.script, me, target);
    WithdrawRun(start, c.script, me, target);
    var answered, requests, order := ListFencingRequests(c, target, me);
    c.Commit(c.sys.world, ListForCancel(me, target, answered, order));
    some := false;
    for i := 0 to |requests|
      invariant me in c.sys.tasks && c.sys.tasks[me].Cancel? && c.sys.tasks[me].pending == order[i..]
      invariant c.turn == start.turn + 1 + i
      invariant c.End(me) == CancelRun(start, c.script, me, target)
      invariant some <==> i > 0
    {
      some := true;
      DriveTurns(c.Now(), c.script, me);
      DeleteRequest(c, requests[i], me);
      assert order[i..][1..] == order[i + 1..];
    }
    DriveEnds(c.Now(), c.script, me);
  }

  method DeleteRequest(c: Cluster, request: Copy, me: nat)
    requires Fair(c.script) && Active(c.Now(), me) && c.sys.tasks[me].Cancel?
    requires c.sys.tasks[me].pending[0] == request.name
    modifies c
    ensures c.Now() == old(c.Next(me)) && c.turn == old(c.turn) + 1
    ensures me in c.sys.tasks && c.sys.tasks[me].Cancel?
    ensures c.sys.tasks[me].pending == old(c.sys.tasks[me]).pending[1..]
    ensures var w := old(c.Soon(me)).world;
            c.sys.world == if c.script.answer(old(c.turn)).ok then w.(store := w.store - {request.name}) else w
  {
    hide Play, Fair, Turned;
    DeletionTurn(c.Now(), c.script, me);
    DeleteMoves(c.Now(), c.script, me);
    var answer := c.Await(me);
    var world := c.sys.world;
    if answer.ok {
      world := world.(store := world.store - {request.name});
    }
    c.Commit(world, DeleteNext(me, answer.ok));
  }

  lemma DeleteMoves(p: Point, script: Script, me: nat)
    requires Fair(script) && Active(p, me) && p.sys.tasks[me].Cancel?
    ensures var s, ok := Waited(p, script, me), script.answer(p.turn).ok;
            && Enabled(s, DeleteNext(me, ok))
            && WorldAfter(s, DeleteNext(me, ok)) ==
               (if ok then s.world.(store := s.world.store - {p.sys.tasks[me].pending[0]}) else s.world)
            && Turned(p, script, me) == Point(Apply(s, DeleteNext(me, ok)), p.turn + 1)
  {
    hide Fair, Play;
  }

  // -------------------------------------------------------- node events

  /** A condition reported for a node. */
  datatype Condition = Condition(kind: string, status: string)

  const READY := "Ready"
  const UNKNOWN := "Unknown"

  predicate Lost(condition: Condition) {
    condition.kind == READY && condition.status == UNKNOWN
  }

  predicate Back(condition: Condition) {
    condition.kind == READY && condition.status != UNKNOWN
  }

  /** Condition by condition: a lost node gets a request, a node that is back
      loses all of its own, other conditions do nothing. */
  ghost function NodeRun(p: Point, script: Script, me: nat, node: string, conditions: seq<Condition>): (q: Point)
    requires Fair(script) && Idling(p.sys, me)
    ensures Idling(q.sys, me) && p.turn <= q.turn
    decreases |conditions|
  {
    if conditions == [] then p
    else
      var before := NodeRun(p, script, me, node, conditions[..|conditions| - 1]);
      var condition := conditions[|conditions| - 1];
      if Lost(condition) then CreateRun(before, script, me, node)
      else if Back(condition) then CancelRun(before, script, me, node)
      else before
  }

  lemma {:induction false} NodeRunIsARun(p: Point, script: Script, me: nat, node: string, conditions: seq<Condition>)
    requires Fair(script) && Idling(p.sys, me)
    ensures Reaches(p.sys, NodeRun(p, script, me, node, conditions).sys)
    decreases |conditions|
  {
    hide Reaches, Fair, Idling, CreateRun, CancelRun;
    Stay(p.sys);
    if conditions != [] {
      var before := NodeRun(p, script, me, node, conditions[..|conditions| - 1]);
      NodeRunIsARun(p, script, me, node, conditions[..|conditions| - 1]);
      BeginIsARun(before, script, me, node);
      Stay(before.sys);
      Follow(p.sys, before.sys, NodeRun(p, script, me, node, conditions).sys);
    }
  }

  /** A node that was last reported back, with good answers to the listing and
      the deletions made for that, keeps no request from before: none that was
      there at the event, nor any made for its earlier conditions. */
  lemma NodeIsCleared(p: Point, script: Script, me: nat, node: string, conditions: seq<Condition>)
    requires Fair(script) && Inv(p.sys) && Idling(p.sys, me)
    requires conditions != [] && Back(conditions[|conditions| - 1])
    ensures var before := NodeRun(p, script, me, node, conditions[..|conditions| - 1]);
            var q := NodeRun(p, script, me, node, conditions);
            (forall i :: before.turn <= i < q.turn ==> script.answer(i).ok) ==>
              forall n :: n in q.sys.world.store && q.sys.world.store[n].target == node ==>
                n !in before.sys.world.used && n !in p.sys.world.used
  {
    hide Fair, Idling, CreateRun, CancelRun, Reaches, Inv, CancelListing;
    var before := NodeRun(p, script, me, node, conditions[..|conditions| - 1]);
    NodeRunIsARun(p, script, me, node, conditions[..|conditions| - 1]);
    PathsAreSafe(p.sys, before.sys);
    CancelledForGood(before, script, me, node);
  }

  /** One condition: a node that is lost is asked to be fenced, the requests of
      one that is back are withdrawn, and nothing is done for other conditions. */
  ghost predicate Answered(p: Point, q: Point, script: Script, me: nat, node: string, condition: Condition) {
    if condition.kind == "Ready" && condition.status == "Unknown" then
      Asked(p.sys, p.turn, q, script, me, node)
    else if condition.kind == "Ready" then Withdrawn(p.sys, p.turn, q, script, me, node)
    else q == p
  }

  /** The points between the conditions, from the first to the last. */
  ghost predicate Trail(trail: seq<Point>, script: Script, me: nat, node: string, conditions: seq<Condition>) {
    && |trail| == |conditions| + 1
    && forall i :: 0 <= i < |conditions| ==> Answered(trail[i], trail[i + 1], script, me, node, conditions[i])
  }

  /** A node that was last reported lost, after whatever else: one listing
      follows.  If that succeeds and shows a complete request of the node, no
      request is added.  Else one creation follows, and a new name that the
      server grants is then the name of a blank request for the node. */
  lemma LostNodeIsAsked(trail: seq<Point>, script: Script, me: nat, node: string, conditions: seq<Condition>)
    requires Trail(trail, script, me, node, conditions) && conditions != []
    requires conditions[|conditions| - 1].kind == "Ready" && conditions[|conditions| - 1].status == "Unknown"
    ensures var p, q := trail[|conditions| - 1], trail[|conditions|];
            var l := AtCall(p.sys, script, p.turn, me);
            if script.answer(p.turn).ok
               && exists r :: r in l.world.store && l.world.store[r].target == node && l.world.store[r].status.complete
            then q.turn == p.turn + 1 && q.sys.world.store == l.world.store
            else
              var w, reply := AtCall(l, script, p.turn + 1, me).world, script.answer(p.turn + 1).create;
              && q.turn == p.turn + 2
              && (reply.Created? && reply.name != "" && reply.name !in w.used && reply.name !in w.store ==>
                    && reply.name in q.sys.world.store
                    && q.sys.world.store[reply.name].target == node
                    && q.sys.world.store[reply.name].status == Status(false, "", None, None, None, []))
  {
    hide Play;
    var i := |conditions| - 1;
    assert Answered(trail[i], trail[i + 1], script, me, node, conditions[i]);
  }

  /** A node whose readiness is unknown is always treated as dirty.  A deleted
      node has its requests withdrawn; else the conditions are answered one by one. */
  method HandleNode(c: Cluster, node: string, conditions: seq<Condition>, deleted: bool, me: nat)
    returns (ghost trail: seq<Point>)
    requires Fair(c.script) && Idling(c.sys, me)
    modifies c
    ensures c.Now() == if deleted then old(CancelRun(c.Now(), c.script, me, node))
                       else old(NodeRun(c.Now(), c.script, me, node, conditions))
    ensures Idling(c.sys, me)
    ensures deleted ==> Withdrawn(old(c.sys), old(c.turn), c.Now(), c.script, me, node)
    ensures !deleted ==>
              && Trail(trail, c.script, me, node, conditions)
              && trail[0] == old(c.Now()) && trail[|conditions|] == c.Now()
    ensures (deleted || (conditions != [] && Back(conditions[|conditions| - 1])))
            && old(Inv(c.sys)) && (forall i :: old(c.turn) <= i < c.turn ==> c.script.answer(i).ok) ==>
              forall n :: n in c.sys.world.store && c.sys.world.store[n].target == node ==>
                n !in old(c.sys).world.used
    ensures !deleted && (forall i :: 0 <= i < |conditions| ==> conditions[i].kind != READY) ==>
              c.Now() == old(c.Now())
  {
    hide Fair, Idling, Inv, CreateRun, CancelRun, CancelListing, BeforePost, CompleteListed, Asked, Withdrawn;
    trail := [c.Now()];
    if deleted {
      var some := CancelFencingRequests(c, node, me);
      return;
    }
    ghost var start := c.Now();
    for i := 0 to |conditions|
      invariant Idling(c.sys, me)
      invariant c.Now() == NodeRun(start, c.script, me, node, conditions[..i])
      invariant (forall j :: 0 <= j < i ==> conditions[j].kind != READY) ==> c.Now() == start
      invariant |trail| == i + 1 && trail[0] == start && trail[i] == c.Now()
      invariant forall j :: 0 <= j < i ==> Answered(trail[j], trail[j + 1], c.script, me, node, conditions[j])
    {
      var condition := conditions[i];
      assert conditions[..i + 1][..i] == conditions[..i];
      if condition.kind == READY && condition.status == UNKNOWN {
        var ok := CreateFencingRequest(c, node, me);
      } else if condition.kind == READY {
        var some := CancelFencingRequests(c, node, me);
      }
      trail := trail + [c.Now()];
    }
    assert conditions[..|conditions|] == conditions;
    if Inv(start.sys) && conditions != [] && Back(conditions[|conditions| - 1]) {
      NodeIsCleared(start, c.script, me, node, conditions);
    }
  }

  const WARNING := "Warning"
  const SUPPORTED_SOURCES := {"abrt-notification", "abrt-adaptor", "docker-monitor", "kernel-monitor", "kernel"}

  /** A warning of a supported source gets its node a request, once the node is found. */
  method HandleEvent(c: Cluster, kind: string, component: string, host: string, me: nat) returns (ok: bool)
    requires Fair(c.script) && Idling(c.sys, me)
    modifies c
    ensures kind != WARNING || component !in SUPPORTED_SOURCES ==> ok && c.Now() == old(c.Now())
    ensures kind == WARNING && component in SUPPORTED_SOURCES ==>
              var found := Point(old(c.Soon(me)), old(c.turn) + 1);
              && ok == c.script.answer(old(c.turn)).node
              && c.Now() == (if ok then CreateRun(found, c.script, me, host) else found)
              && (ok ==> Asked(found.sys, found.turn, c.Now(), c.script, me, host))
  {
    hide Fair, Play, CreateRun, BeforePost, CompleteListed, Asked;
    if kind != WARNING || component !in SUPPORTED_SOURCES {
      return true;
    }
    var answer := c.Await(me);
    if !answer.node {
      return false;
    }
    var created := CreateFencingRequest(c, host, me);
    return true;
  }

  // -------------------------------------------------------- ConfigMaps

  method NewMethods(configs: seq<Entries>) returns (methods: Option<seq<Method>>)
    ensures methods.Some? && |methods.value| == |configs|
    ensures forall i :: 0 <= i < |configs| ==> methods.value[i] == MethodOf(configs[i])
  {
    hide *;
    var ms: seq<Method> := [];
    for i := 0 to |configs|
      invariant |ms| == i
      invariant forall j :: 0 <= j < i ==> ms[j] == MethodOf(configs[j])
    {
      var m := NewFencingMethodFromConfig(configs[i]);
      if m.None? {
        return None;
      }
      ms := ms + [m.value];
    }
    return Some(ms);
  }

  method NewConfig(name: string, cfg: Entries) returns (config: Option<FencingConfig>)
    ensures config == Some(ConfigOf(name, cfg)) && ConfigRead(name, cfg, config.value)
  {
    hide ListAt, MethodOf, FirstStrings, ConfigRead;
    ConfigIsRead(name, cfg);
    var subs := GetSubConfigArray(cfg, "methods");
    var methods := NewMethods(subs);
    if methods.None? {
      return None;
    }
    EachIs(ListAt(cfg, "methods"), subs, MethodOf, methods.value);
    var selector := GetMapOfStrings(cfg, "nodeSelector");
    return Some(FencingConfig(name, selector, methods.value));
  }

  /** The registry after the event is the one its step leads to, and nothing
      else changes; unreadable text is the only failure. */
  method HandleConfigMap(c: Cluster, e: ConfigMapEvent) returns (ok: bool)
    modifies c
    ensures Enabled(old(c.sys), ConfigMapChange(e))
    ensures c.sys == Apply(old(c.sys), ConfigMapChange(e)) && c.turn == old(c.turn)
    ensures ok <==> e.text.None? || e.deleted || e.text.value.Parsed?
    ensures var before, after := old(c.sys).world.configs, c.sys.world.configs;
            if e.text.None? then after == before
            else if e.deleted then after == before[e.name := None]
            else if e.text.value.BadYaml? then
              after == if e.name in before then before[e.name := None] else before
            else
              && e.name in after && after[e.name].Some?
              && after == before[e.name := after[e.name]]
              && ConfigRead(e.name, e.text.value.cfg, after[e.name].value)
  {
    hide ConfigOf, ConfigRead;
    if e.text.None? {
      return true;
    }
    if e.deleted {
      SetConfig(c, e.name, None);
      return true;
    }
    if e.name in c.sys.world.configs {
      SetConfig(c, e.name, None);
    }
    match e.text.value
    case BadYaml =>
      return false;
    case Parsed(cfg) =>
      var config := NewConfig(e.name, cfg);
      if config.None? {
        return false;
      }
      SetConfig(c, e.name, config);
      return true;
  }

  method SetConfig(c: Cluster, name: string, entry: Option<FencingConfig>)
    modifies c`sys
    ensures c.sys == old(c.sys).(world := old(c.sys).world.(configs := old(c.sys).world.configs[name := entry]))
  {
    c.sys := c.sys.(world := c.sys.world.(configs := c.sys.world.configs[name := entry]));
  }

  // ------------------------------------------------------- all events

  /** An event as the SDK hands it over; a job or request event names an object
      whose present state is what the handler gets. */
  datatype Event =
    | NodeEvent(node: string, conditions: seq<Condition>, nodeDeleted: bool)
    | WarningEvent(kind: string, component: string, host: string)
    | JobEvent(job: string)
    | MapEvent(e: ConfigMapEvent)
    | RequestEvent(request: string, deleted: bool)
    | Unhandled

  predicate Deliverable(w: World, event: Event) {
    && (event.JobEvent? ==> event.job in w.jobs)
    && (event.RequestEvent? ==> event.deleted || event.request in w.store)
  }

  /** Where handling an event from a free slot ends. */
  ghost function EventRun(p: Point, script: Script, me: nat, event: Event): Point
    requires Fair(script) && Idling(p.sys, me) && Deliverable(p.sys.world, event)
  {
    match event
    case NodeEvent(node, conditions, deleted) =>
      if deleted then CancelRun(p, script, me, node) else NodeRun(p, script, me, node, conditions)
    case WarningEvent(kind, component, host) =>
      if kind != WARNING || component !in SUPPORTED_SOURCES then p
      else
        var found := Point(Waited(p, script, me), p.turn + 1);
        if script.answer(p.turn).node then CreateRun(found, script, me, host) else found
    case JobEvent(job) => Drive(Point(Apply(p.sys, DeliverJob(me, job)), p.turn), script, me)
    case MapEvent(e) => Point(Apply(p.sys, ConfigMapChange(e)), p.turn)
    case RequestEvent(request, deleted) =>
      if deleted then p else Drive(Point(Apply(p.sys, DeliverRequest(me, request)), p.turn), script, me)
    case Unhandled => p
  }

  lemma DeliveryIsARun(p: Point, script: Script, me: nat, step: Step)
    requires Fair(script) && Enabled(p.sys, step) && !Environment(step) && step.id == me
    ensures me in Apply(p.sys, step).tasks
    ensures Reaches(p.sys, Drive(Point(Apply(p.sys, step), p.turn), script, me).sys)
  {
    hide Reaches, Fair, Enabled, Drive;
    Move(p.sys, step);
    DriveIsARun(Point(Apply(p.sys, step), p.turn), script, me);
    Follow(p.sys, Apply(p.sys, step), Drive(Point(Apply(p.sys, step), p.turn), script, me).sys);
  }

  lemma EventRunIsARun(p: Point, script: Script, me: nat, event: Event)
    requires Fair(script) && Idling(p.sys, me) && Deliverable(p.sys.world, event)
    ensures Reaches(p.sys, EventRun(p, script, me, event).sys)
  {
    hide Reaches, Fair, Drive, Apply, Play, CreateRun, CancelRun, NodeRun, CancelListed;
    Stay(p.sys);
    match event
    case NodeEvent(node, conditions, deleted) =>
      BeginIsARun(p, script, me, node);
      NodeRunIsARun(p, script, me, node, conditions);
    case WarningEvent(kind, component, host) =>
      PlayIsARun(p.sys, script.others(p.turn), me);
      var found := Point(Waited(p, script, me), p.turn + 1);
      BeginIsARun(found, script, me, host);
      Follow(p.sys, found.sys, CreateRun(found, script, me, host).sys);
    case JobEvent(job) => DeliveryIsARun(p, script, me, DeliverJob(me, job));
    case MapEvent(e) => Move(p.sys, ConfigMapChange(e));
    case RequestEvent(request, deleted) =>
      if !deleted {
        DeliveryIsARun(p, script, me, DeliverRequest(me, request));
      }
    case Unhandled =>
  }

  /** What handling an event comes to, for a slot at p: the outcomes above, each
      for its event.  The copies are those of the store, the jobs those of the table. */
  ghost predicate EventAnswered(p: Point, q: Point, script: Script, me: nat, event: Event)
    requires Fair(script) && Deliverable(p.sys.world, event)
  {
    var w := p.sys.world;
    match event
    case NodeEvent(node, conditions, deleted) =>
      if deleted then Withdrawn(p.sys, p.turn, q, script, me, node)
      else exists trail :: Trail(trail, script, me, node, conditions) && trail[0] == p && trail[|conditions|] == q
    case WarningEvent(kind, component, host) =>
      var supported := {"abrt-notification", "abrt-adaptor", "docker-monitor", "kernel-monitor", "kernel"};
      if kind != "Warning" || component !in supported then q == p
      else
        var found := Point(AtCall(p.sys, script, p.turn, me), p.turn + 1);
        if script.answer(p.turn).node then Asked(found.sys, found.turn, q, script, me, host) else q == found
    case JobEvent(job) =>
      && me in q.sys.tasks
      && JobHandled(p.sys.(world := w.(delivered := w.delivered + {w.jobs[job]})), p.turn, q, script, me, w.jobs[job])
    case MapEvent(e) => q.turn == p.turn && q.sys == p.sys.(world := w.(configs := q.sys.world.configs))
    case RequestEvent(request, deleted) =>
      if deleted then q == p
      else
        var s := w.store[request];
        && me in q.sys.tasks
        && if s.status.complete then q.turn == p.turn && q.sys.world == w
           else Requested(p.sys, p.turn, q, script, me, Copy(request, s.target, s.version, s.status))
    case Unhandled => q == p
  }

  /** The entry point: whatever the event, the script and the others, in a run
      every event is answered, and handling it keeps the invariant and leads to a
      later world. */
  method Handle(c: Cluster, event: Event, me: nat)
    requires Fair(c.script) && Idling(c.sys, me) && Deliverable(c.sys.world, event)
    modifies c
    ensures c.Now() == old(EventRun(c.Now(), c.script, me, event))
    ensures old(Inv(c.sys)) ==> Inv(c.sys) && Later(old(c.sys).world, c.sys.world)
    ensures old(Inv(c.sys)) ==> EventAnswered(old(c.Now()), c.Now(), c.script, me, event)
  {
    hide Reaches, Fair, Drive, Inv, Later, Play, CreateRun, CancelRun, NodeRun, Cleared, CancelListing, BeforePost;
    hide CompleteListed, Asked, Withdrawn, Requested, JobHandled, Trail, ConfigRead;
    ghost var start := c.Now();
    EventRunIsARun(start, c.script, me, event);
    match event {
      case NodeEvent(node, conditions, deleted) =>
        ghost var trail := HandleNode(c, node, conditions, deleted, me);
      case WarningEvent(kind, component, host) =>
        var ok := HandleEvent(c, kind, component, host, me);
      case JobEvent(job) =>
        HandleJobEvent(c, job, me);
      case MapEvent(e) =>
        var ok := HandleConfigMap(c, e);
      case RequestEvent(request, deleted) =>
        if !deleted {
          HandleRequestEvent(c, request, me);
        }
      case Unhandled =>
    }
    if Inv(start.sys) {
      PathsAreSafe(start.sys, c.sys);
    }
  }

  /** The job is handed over as it is, which goes down in the history. */
  method HandleJobEvent(c: Cluster, job: string, me: nat)
    requires Fair(c.script) && Idling(c.sys, me) && job in c.sys.world.jobs
    modifies c
    ensures c.Now() == old(Drive(Point(Apply(c.sys, DeliverJob(me, job)), c.turn), c.script, me))
    ensures me in c.sys.tasks
    ensures old(Inv(c.sys)) ==>
              var w := old(c.sys).world;
              JobHandled(old(c.sys).(world := w.(delivered := w.delivered + {w.jobs[job]})), old(c.turn), c.Now(),
                         c.script, me, w.jobs[job])
  {
    hide Fair, Drive, Play, Inv, JobHandled;
    var w, view := c.sys.world, c.sys.world.jobs[job];
    if Inv(c.sys) {
      StepOk(c.sys, DeliverJob(me, job));
      JobEventRun(c.sys, c.turn, c.script, me, job);
    }
    c.Commit(w.(delivered := w.delivered + {view}), DeliverJob(me, job));
    var outcome := HandleJob(c, view, me);
  }

  lemma JobEventRun(s: Sys, n: nat, script: Script, me: nat, job: string)
    requires Fair(script) && Inv(s) && Idling(s, me) && job in s.world.jobs
    ensures var w, q := s.world, Drive(Point(Apply(s, DeliverJob(me, job)), n), script, me);
            JobHandled(s.(world := w.(delivered := w.delivered + {w.jobs[job]})), n, q, script, me, w.jobs[job])
  {
    hide Fair, Drive, Play, Inv, Later, Heeded;
    var view, step := s.world.jobs[job], DeliverJob(me, job);
    var noted := s.(world := s.world.(delivered := s.world.delivered + {view}));
    StepOk(s, step);
    var p := Point(Apply(s, step), n);
    assert p == Standing(noted, n, me, JobArrived(view));
    JobRun(noted, n, script, me, view);
  }

  method HandleRequestEvent(c: Cluster, request: string, me: nat)
    requires Fair(c.script) && Idling(c.sys, me) && request in c.sys.world.store
    modifies c
    ensures c.Now() == old(Drive(Point(Apply(c.sys, DeliverRequest(me, request)), c.turn), c.script, me))
    ensures me in c.sys.tasks
    ensures old(Inv(c.sys)) ==>
              var s := old(c.sys).world.store[request];
              if s.status.complete then c.turn == old(c.turn) && c.sys.world == old(c.sys).world
              else Requested(old(c.sys), old(c.turn), c.Now(), c.script, me,
                             Copy(request, s.target, s.version, s.status))
  {
    hide Fair, Drive, Play, Fatal, FirstChoice, OrderlyChoice, Inv, Requested;
    var copy := CopyOf(c.sys.world, request);
    if Inv(c.sys) {
      StoredNeverActive(c.sys, request);
      if !copy.status.complete {
        RequestRun(c.sys, c.turn, c.script, me, copy);
      }
    }
    var req := new FencingRequest(copy);
    c.Commit(c.sys.world, DeliverRequest(me, request));
    var outcome := HandleFencingRequest(c, req, false, me);
  }
}
