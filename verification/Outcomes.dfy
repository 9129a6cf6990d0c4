/** What handling an event comes to, said of the script, the records and the
    log entries alone: which calls are made, what each finds, and what the
    world is at the end.  None of it speaks of the steps of the system; that the
    steps lead there is what is proved. */
module Outcomes {
  import opened Options
  import opened Mechanisms
  import opened Requests
  import opened JobBuilder
  import opened Registry
  import opened Selection
  import opened Controller
  import opened Safety
  import opened Conversation

  /** The state that call n finds when the handler left s. */
  function AtCall(s: Sys, script: Script, n: nat, me: nat): Sys {
    Play(s, script.others(n), me)
  }

  /** The handler at t in s, before its call n. */
  ghost function Standing(s: Sys, n: nat, me: nat, t: Task): Point {
    Point(Placed(s, me, t), n)
  }

  lemma CallStanding(s: Sys, script: Script, n: nat, me: nat, t: Task)
    ensures Waited(Standing(s, n, me, t), script, me) == Placed(AtCall(s, script, n, me), me, t)
  {
    PlayPlaced(s, script.others(n), me, t);
  }

  // ------------------------------------------------------------ records

  /** The store takes a record exactly when its version is the stored one and
      the server accepts; the two fields of one tag may be lost on the way. */
  ghost predicate Takes(w: World, w': World, record: Copy, answer: UpdateReply) {
    if answer.ok && record.name in w.store && w.store[record.name].version == record.version then
      w' == w.(
        store := w.store[record.name := Stored(w.store[record.name].target, w.clock, Status(
          record.status.complete, record.status.result, record.status.config,
          if answer.keepMethod then record.status.activeMethod else None,
          if answer.keepJob then record.status.activeJob else None,
          record.status.updates))],
        clock := w.clock + 1)
    else w' == w
  }

  /** One call more, which offers the record to the server, and then the end. */
  ghost predicate Recorded(s: Sys, n: nat, q: Point, script: Script, me: nat, record: Copy) {
    q.turn == n + 1 && Takes(AtCall(s, script, n, me).world, q.sys.world, record, script.answer(n).update)
  }

  /** The record of a method that could not be scheduled: closed after the last
      method, else with one more note under the method's name. */
  function Failed(copy: Copy, plan: Method, last: bool): Copy {
    copy.(status := copy.status.(
      complete := copy.status.complete || last,
      result := if last then "GivingUp" else copy.status.result,
      updates := copy.status.updates + [Entry(if last then "" else plan.name, "GivingUp", Failure)]))
  }

  /** The record of a started job: it is the active one, and noted under the method's name. */
  function Launched(copy: Copy, plan: Method, job: string): Copy {
    copy.(status := copy.status.(
      activeJob := Some(job),
      updates := copy.status.updates + [Entry(plan.name, "MethodInProgress", Initiated(plan.name, job))]))
  }

  /** The record closed with a result. */
  function Closed(copy: Copy, result: string, detail: Detail): Copy {
    copy.(status := copy.status.(
      complete := true, result := result, updates := copy.status.updates + [Entry("", result, detail)]))
  }

  /** The world with one new job, no pod of which has run, owned by the request. */
  function WithJob(w: World, copy: Copy, cfg: FencingConfig, plan: Method,
                   listing: Option<map<string, JobView>>, job: string): World {
    w.(jobs := w.jobs[job := JobView(job, JobLabels(copy, plan.name), Some(copy.name), 0, 0, 0)],
       accepted := w.accepted + [Accepted(job, copy, cfg, plan, listing)])
  }

  /** Giving up after the last method goes down in the history. */
  function GivingUp(s: Sys, copy: Copy, cfg: FencingConfig, plan: Method, last: bool): Sys {
    if last then s.(world := s.world.(surrenders := s.world.surrenders + [Surrender(copy, cfg, plan)])) else s
  }

  // --------------------------------------------------------- scheduling

  /** Some job that the selector of the copy and method finds is active. */
  ghost predicate Busy(jobs: map<string, JobView>, copy: Copy, plan: Method) {
    exists j :: j in jobs && Selects(JobLabels(copy, plan.name), jobs[j].labels) && jobs[j].active > 0
  }

  ghost predicate Buildable(plan: Method, target: string) {
    forall m :: m in plan.mechanisms ==> CanCreate(m, target)
  }

  predicate NewJobName(w: World, job: string) {
    job != "" && job !in w.jobs && forall i :: 0 <= i < |w.accepted| ==> w.accepted[i].job != job
  }

  /** With a method in hand: a listing; nothing more if it shows an active job.
      Else, if some mechanism has no container, the failure is recorded.  Else
      one creation: a job and its record if the server grants a name; a record
      without a name if it answers AlreadyExists; the failure in other cases. */
  ghost predicate Scheduled(s: Sys, n: nat, q: Point, script: Script, me: nat,
                            copy: Copy, cfg: FencingConfig, plan: Method, last: bool) {
    var l := AtCall(s, script, n, me);
    var listing := if script.answer(n).ok then Some(l.world.jobs) else None;
    if script.answer(n).ok && Busy(l.world.jobs, copy, plan) then q.turn == n + 1 && q.sys.world == l.world
    else if !Buildable(plan, copy.target) then
      Recorded(GivingUp(l, copy, cfg, plan, last), n + 1, q, script, me, Failed(copy, plan, last))
    else
      var r := AtCall(l, script, n + 1, me);
      Replied(r, n + 2, q, script, me, copy, cfg, plan, last, listing, script.answer(n + 1).create)
  }

  /** The rest, once the server has answered the creation. */
  ghost predicate Replied(r: Sys, n: nat, q: Point, script: Script, me: nat, copy: Copy, cfg: FencingConfig,
                          plan: Method, last: bool, listing: Option<map<string, JobView>>, reply: CreateReply) {
    match reply
    case Created(job) =>
      if NewJobName(r.world, job) then
        Recorded(r.(world := WithJob(r.world, copy, cfg, plan, listing, job)), n, q, script, me,
                 Launched(copy, plan, job))
      else Recorded(GivingUp(r, copy, cfg, plan, last), n, q, script, me, Failed(copy, plan, last))
    case CreatedUnread(job) =>
      if NewJobName(r.world, job) then
        Recorded(GivingUp(r.(world := WithJob(r.world, copy, cfg, plan, listing, job)), copy, cfg, plan, last),
                 n, q, script, me, Failed(copy, plan, last))
      else Recorded(GivingUp(r, copy, cfg, plan, last), n, q, script, me, Failed(copy, plan, last))
    case AlreadyExists =>
      Recorded(r.(world := r.world.(refused := r.world.refused + [copy.name])), n, q, script, me,
               Launched(copy, plan, ""))
    case Rejected => Recorded(GivingUp(r, copy, cfg, plan, last), n, q, script, me, Failed(copy, plan, last))
  }

  lemma SaveRun(s: Sys, n: nat, script: Script, me: nat, record: Copy)
    requires Fair(script)
    ensures var q := Drive(Standing(s, n, me, Save(record, ToEnd)), script, me);
            Recorded(s, n, q, script, me, record) && q.sys.tasks[me] == Ended(Returned)
  {
    hide Play, Fair;
    var p := Standing(s, n, me, Save(record, ToEnd));
    CallStanding(s, script, n, me, Save(record, ToEnd));
    DriveTurns(p, script, me);
    DriveEnds(Turned(p, script, me), script, me);
  }

  lemma CreateTurn(s: Sys, n: nat, script: Script, me: nat, t: Task)
    requires Fair(script) && t.CreateJob?
    ensures var f := AtCall(s, script, n, me);
            var reply := GrantedJob(f.world, script.answer(n).create);
            Turned(Standing(s, n, me, t), script, me) ==
              Standing(f.(world := AfterCreateWorld(f.world, t, reply)), n + 1, me, AfterCreate(t, reply))
  {
    hide Play, Fair, AfterCreateWorld, AfterCreate, FreshJob;
    CallStanding(s, script, n, me, t);
  }

  lemma CheckTurn(s: Sys, n: nat, script: Script, me: nat, t: Task)
    requires Fair(script) && t.CheckActive?
    ensures var f, ok := AtCall(s, script, n, me), script.answer(n).ok;
            Turned(Standing(s, n, me, t), script, me) ==
              Standing(f.(world := CheckedWorld(f.world, t, ok)), n + 1, me, Checked(f.world, t, ok))
  {
    hide Play, Fair, CheckedWorld, Checked;
    CallStanding(s, script, n, me, t);
  }

  lemma CreationRun(s: Sys, n: nat, script: Script, me: nat, t: Task)
    requires Fair(script) && t.CreateJob? && !t.copy.status.complete
    ensures var q := Drive(Standing(s, n, me, t), script, me);
            && Replied(AtCall(s, script, n, me), n + 1, q, script, me, t.copy, t.cfg, t.plan, t.last, t.listing,
                       script.answer(n).create)
            && q.sys.tasks[me] == Ended(Returned)
  {
    hide Play, Fair, Drive, Turned, Recorded, JobLabels;
    var f := AtCall(s, script, n, me);
    var reply := GrantedJob(f.world, script.answer(n).create);
    CreateTurn(s, n, script, me, t);
    DriveTurns(Standing(s, n, me, t), script, me);
    SaveRun(f.(world := AfterCreateWorld(f.world, t, reply)), n + 1, script, me, AfterCreate(t, reply).copy);
  }

  lemma BusyExactly(w: World, copy: Copy, plan: Method)
    ensures Busy(w.jobs, copy, plan) == HasActive(w.jobs, JobLabels(copy, plan.name))
    ensures Buildable(plan, copy.target) == CanBuild(plan, copy.target)
  {
    hide JobLabels, CanCreate, Selects;
    if CanBuild(plan, copy.target) {
      forall m | m in plan.mechanisms ensures CanCreate(m, copy.target) {
      }
    }
  }

  lemma ScheduleRun(s: Sys, n: nat, script: Script, me: nat, t: Task)
    requires Fair(script) && t.CheckActive? && !t.copy.status.complete
    ensures var q := Drive(Standing(s, n, me, t), script, me);
            && Scheduled(s, n, q, script, me, t.copy, t.cfg, t.plan, t.last)
            && q.sys.tasks[me] == Ended(Returned)
  {
    hide Play, Fair, Drive, Turned, Recorded, JobLabels, HasActive, Busy, Buildable, CanBuild, Replied;
    var f, ok := AtCall(s, script, n, me), script.answer(n).ok;
    var w, t' := CheckedWorld(f.world, t, ok), Checked(f.world, t, ok);
    CheckTurn(s, n, script, me, t);
    DriveTurns(Standing(s, n, me, t), script, me);
    BusyExactly(f.world, t.copy, t.plan);
    if t'.Save? {
      SaveRun(f.(world := w), n + 1, script, me, t'.copy);
    } else if t'.CreateJob? {
      CreationRun(f.(world := w), n + 1, script, me, t');
    } else {
      DriveEnds(Standing(f.(world := w), n + 1, me, t'), script, me);
    }
  }

  lemma StandingIs(p: Point, me: nat)
    requires me in p.sys.tasks
    ensures Standing(p.sys, p.turn, me, p.sys.tasks[me]) == p
  {
    assert p.sys.tasks[me := p.sys.tasks[me]] == p.sys.tasks;
  }

  /** The same for a handler that stands there. */
  lemma ScheduleRunFrom(p: Point, script: Script, me: nat)
    requires Fair(script) && me in p.sys.tasks && p.sys.tasks[me].CheckActive?
    ensures var t := p.sys.tasks[me];
            !t.copy.status.complete ==>
              Scheduled(p.sys, p.turn, Drive(p, script, me), script, me, t.copy, t.cfg, t.plan, t.last)
  {
    hide Fair, Drive, Scheduled, Standing;
    StandingIs(p, me);
    if !p.sys.tasks[me].copy.status.complete {
      ScheduleRun(p.sys, p.turn, script, me, p.sys.tasks[me]);
    }
  }

  // ------------------------------------------------------ open requests

  /** The configuration an open request gets: the registry and the nodes as the
      first call finds them, in the script's order of the range. */
  function ChoiceFor(w: World, script: Script, n: nat, copy: Copy): Choice
    requires Permutes(script.range(n, w.configs.Keys), w.configs.Keys)
  {
    ChooseConfig(w.configs, copy.status.config, script.range(n, w.configs.Keys), copy.target, script.answer(n).listings)
  }

  /** The copy once cfg is chosen: an earlier choice that is still there is kept. */
  function ConfiguredFor(w: World, copy: Copy, cfg: FencingConfig): Copy {
    var kept := copy.status.config.Some? && copy.status.config.value in w.configs
                && w.configs[copy.status.config.value].Some?;
    copy.(status := copy.status.(config := if kept then copy.status.config else Some(cfg.name)))
  }

  /** An open request without an active method: nothing after a fatal choice,
      where the handler panics; the request closed when nothing matches; and
      otherwise the first method of the configuration scheduled, as the last one
      if there is no other. */
  ghost predicate Requested(s: Sys, n: nat, q: Point, script: Script, me: nat, copy: Copy)
    requires Fair(script) && me in q.sys.tasks
  {
    var f := AtCall(s, script, n, me);
    var choice := ChoiceFor(f.world, script, n, copy);
    var panicked := choice.NilEntry? || (choice.Chosen? && choice.cfg.methods == []);
    && q.sys.tasks[me] == Ended(if panicked then Panicked else Returned)
    && if panicked then q.turn == n + 1 && q.sys.world == f.world
       else if choice.NoMatch? then
         Recorded(f, n + 1, q, script, me, Closed(copy.(status := copy.status.(config := None)), "NoConfig", Failure))
       else
         var methods := choice.cfg.methods;
         Scheduled(f, n + 1, q, script, me, ConfiguredFor(f.world, copy, choice.cfg), choice.cfg,
                   methods[0], |methods| == 1)
  }

  lemma ChoiceTurn(s: Sys, n: nat, script: Script, me: nat, copy: Copy)
    requires Fair(script) && !copy.status.complete
    ensures var f := AtCall(s, script, n, me);
            Turned(Standing(s, n, me, Request(copy)), script, me) ==
              Standing(f, n + 1, me, AfterChoice(copy, f.world.configs, ChoiceFor(f.world, script, n, copy)))
  {
    hide Play, ChooseConfig, AfterChoice;
    CallStanding(s, script, n, me, Request(copy));
  }

  lemma FirstPick(s: Sys, n: nat, script: Script, me: nat, copy: Copy, cfg: FencingConfig)
    requires Fair(script) && copy.status.activeMethod.None?
    ensures Turned(Standing(s, n, me, PickMethod(copy, cfg, 0, false)), script, me) ==
            Standing(s, n, me, if cfg.methods == [] then Ended(Panicked)
                               else CheckActive(copy, cfg, cfg.methods[0], |cfg.methods| == 1))
  {
    hide Play, Fair;
  }

  lemma RequestRun(s: Sys, n: nat, script: Script, me: nat, copy: Copy)
    requires Fair(script) && !copy.status.complete && copy.status.activeMethod.None?
    ensures Requested(s, n, Drive(Standing(s, n, me, Request(copy)), script, me), script, me, copy)
  {
    hide Play, Fair, Drive, Turned, Recorded, Scheduled, ChooseConfig;
    assert Fair(script);
    var f := AtCall(s, script, n, me);
    ChoiceIsFair(f.world, script, n);
    var choice := ChoiceFor(f.world, script, n, copy);
    ChoiceTurn(s, n, script, me, copy);
    DriveTurns(Standing(s, n, me, Request(copy)), script, me);
    match choice
    case NilEntry => DriveEnds(Standing(f, n + 1, me, Ended(Panicked)), script, me);
    case NoMatch =>
      SaveRun(f, n + 1, script, me, AfterChoice(copy, f.world.configs, choice).copy);
    case Chosen(cfg) =>
      var t := AfterChoice(copy, f.world.configs, choice);
      FirstPick(f, n + 1, script, me, t.copy, cfg);
      DriveTurns(Standing(f, n + 1, me, t), script, me);
      if cfg.methods == [] {
        DriveEnds(Standing(f, n + 1, me, Ended(Panicked)), script, me);
      } else {
        ScheduleRun(f, n + 1, script, me, CheckActive(t.copy, cfg, cfg.methods[0], |cfg.methods| == 1));
      }
  }

  lemma ChoiceIsFair(w: World, script: Script, n: nat)
    requires Fair(script)
    ensures Permutes(script.range(n, w.configs.Keys), w.configs.Keys)
  {
  }

  // --------------------------------------------------------- job events

  lemma ClosingRun(s: Sys, n: nat, script: Script, me: nat, record: Copy)
    requires Fair(script) && record.status.complete
    ensures var q := Drive(Standing(s, n, me, Save(record, ToRequest)), script, me);
            Recorded(s, n, q, script, me, record) && q.sys.tasks[me] == Ended(Returned)
  {
    hide Play, Fair, Drive;
    var p := Standing(s, n, me, Save(record, ToRequest));
    CallStanding(s, script, n, me, Save(record, ToRequest));
    DriveTurns(p, script, me);
    var p' := Turned(p, script, me);
    DriveTurns(p', script, me);
    DriveEnds(Turned(p', script, me), script, me);
  }

  /** A job event for a copy.  It tells nothing when the job has not started, the
      request is complete, or another job is its active one.  When the job
      succeeded without failures the request is closed, and this goes down in
      the history.  Failures and successes with none active panic.  In every
      other case, as when the job only failed, the request is handled again. */
  ghost predicate Heeded(s: Sys, n: nat, q: Point, script: Script, me: nat, copy: Copy, job: JobView)
    requires Fair(script) && me in q.sys.tasks
  {
    if (job.active == 0 && job.failed == 0 && job.succeeded == 0) || copy.status.complete
       || (copy.status.activeJob.Some? && copy.status.activeJob.value != job.name) then
      q.turn == n && q.sys.world == s.world && q.sys.tasks[me] == Ended(Returned)
    else if job.active == 0 && job.failed == 0 then
      var noted := s.(world := s.world.(completions := s.world.completions + [Completion(copy, job)]));
      && Recorded(noted, n, q, script, me, Closed(copy, "Complete", JobDone(job.name)))
      && q.sys.tasks[me] == Ended(Returned)
    else if job.active == 0 && job.failed != 0 && job.succeeded != 0 then
      q.turn == n && q.sys.world == s.world && q.sys.tasks[me] == Ended(Panicked)
    else Requested(s, n, q, script, me, copy)
  }

  lemma JudgeTurn(s: Sys, n: nat, script: Script, me: nat, copy: Copy, job: JobView)
    requires Fair(script)
    ensures var noted := s.world.(completions := s.world.completions + [Completion(copy, job)]);
            var world := if Completes(copy, job) then noted else s.world;
            Turned(Standing(s, n, me, JudgeJob(copy, job)), script, me) ==
              Standing(s.(world := world), n, me, Judged(copy, job))
  {
    hide Play, Fair, Judged, Completes;
  }

  lemma JudgeRun(s: Sys, n: nat, script: Script, me: nat, copy: Copy, job: JobView)
    requires Fair(script) && copy.status.activeMethod.None?
    ensures Heeded(s, n, Drive(Standing(s, n, me, JudgeJob(copy, job)), script, me), script, me, copy, job)
  {
    hide Play, Fair, Drive, Turned, Recorded, Requested;
    JudgeTurn(s, n, script, me, copy, job);
    DriveTurns(Standing(s, n, me, JudgeJob(copy, job)), script, me);
    var t := Judged(copy, job);
    if t.Save? {
      ClosingRun(s.(world := s.world.(completions := s.world.completions + [Completion(copy, job)])), n,
                 script, me, t.copy);
    } else if t.Request? {
      RequestRun(s, n, script, me, copy);
    } else {
      DriveEnds(Standing(s, n, me, t), script, me);
    }
  }

  /** A record noted on the way: it is offered to the server, and the request is
      then handled again with it, at the version it now has. */
  ghost predicate NotedThen(s: Sys, n: nat, q: Point, script: Script, me: nat, record: Copy)
    requires Fair(script)
  {
    var f, answer := AtCall(s, script, n, me), script.answer(n).update;
    exists w: World :: Takes(f.world, w, record, answer)
      && q == Drive(Standing(f.(world := w), n + 1, me,
                             Request(if answer.refreshed && w != f.world then record.(version := f.world.clock)
                                     else record)), script, me)
  }

  lemma NotingTurn(s: Sys, n: nat, script: Script, me: nat, record: Copy)
    requires Fair(script)
    ensures var f, answer := AtCall(s, script, n, me), script.answer(n).update;
            var w := Written(f.world, record, answer);
            && Takes(f.world, w, record, answer)
            && Turned(Standing(s, n, me, Save(record, ToRequest)), script, me) ==
                 Standing(f.(world := w), n + 1, me,
                          Request(if answer.refreshed && w != f.world then record.(version := f.world.clock)
                                  else record))
  {
    hide Play, Fair;
    CallStanding(s, script, n, me, Save(record, ToRequest));
    var f, answer := AtCall(s, script, n, me), script.answer(n).update;
    if answer.ok && Current(f.world, record) {
      assert Written(f.world, record, answer).clock != f.world.clock;
    }
  }

  /** A mixed job of a request that has an active method, as only others can set
      it, is noted under that method. */
  lemma MixedRun(s: Sys, n: nat, script: Script, me: nat, copy: Copy, job: JobView)
    requires Fair(script) && !copy.status.complete && copy.status.activeMethod.Some?
    requires job.active == 0 && job.failed != 0 && job.succeeded != 0
    requires copy.status.activeJob.None? || copy.status.activeJob.value == job.name
    ensures NotedThen(s, n, Drive(Standing(s, n, me, JudgeJob(copy, job)), script, me), script, me,
                      copy.(status := copy.status.(updates := copy.status.updates +
                        [Entry(copy.status.activeMethod.value, "MethodInProgress", JobDone(job.name))])))
  {
    hide Play, Fair, Drive;
    hide Turned, Takes, Written;
    var record := Judged(copy, job).copy;
    JudgeTurn(s, n, script, me, copy, job);
    DriveTurns(Standing(s, n, me, JudgeJob(copy, job)), script, me);
    NotingTurn(s, n, script, me, record);
    DriveTurns(Standing(s, n, me, Save(record, ToRequest)), script, me);
  }

  /** A job event as it arrives: fatal without an owner; else the owner is looked
      up among the requests of the job's target, and heeds the event if it is there. */
  ghost predicate JobHandled(s: Sys, n: nat, q: Point, script: Script, me: nat, job: JobView)
    requires Fair(script) && me in q.sys.tasks
  {
    if job.owner.None? then q.turn == n && q.sys.world == s.world && q.sys.tasks[me] == Ended(Panicked)
    else
      var f, answer := AtCall(s, script, n, me), script.answer(n);
      var target := if "target" in job.labels then job.labels["target"] else "";
      var name := job.owner.value;
      if answer.node && answer.ok && name in f.world.store && f.world.store[name].target == target then
        var stored := f.world.store[name];
        Heeded(f, n + 1, q, script, me, Copy(name, stored.target, stored.version, stored.status), job)
      else q.turn == n + 1 && q.sys.world == f.world && q.sys.tasks[me] == Ended(Returned)
  }

  lemma LoadTurn(s: Sys, n: nat, script: Script, me: nat, job: JobView)
    requires Fair(script)
    ensures var q := Turned(Standing(s, n, me, JobArrived(job)), script, me);
            if job.owner.None? then q == Standing(s, n, me, Ended(Panicked))
            else
              var f, answer := AtCall(s, script, n, me), script.answer(n);
              q == Standing(f, n + 1, me, Loaded(f.world, job, answer.node && answer.ok))
  {
    hide Play, Fair;
    CallStanding(s, script, n, me, JobArrived(job));
  }

  lemma StoredNeverActive(s: Sys, name: string)
    requires Inv(s) && name in s.world.store
    ensures s.world.store[name].status.activeMethod.None?
  {
    assert StoredOk(s.world, name);
  }

  lemma JobRun(s: Sys, n: nat, script: Script, me: nat, job: JobView)
    requires Fair(script) && Inv(Placed(s, me, JobArrived(job)))
    ensures JobHandled(s, n, Drive(Standing(s, n, me, JobArrived(job)), script, me), script, me, job)
  {
    hide Play, Fair, Drive, Turned, Heeded, Inv, Later, Reaches, Placed;
    var p, f := Standing(s, n, me, JobArrived(job)), AtCall(s, script, n, me);
    LoadTurn(s, n, script, me, job);
    DriveTurns(p, script, me) by { ArrivedIsActive(s, n, me, job); }
    if job.owner.None? {
      DriveEndsAt(s, n, script, me, Ended(Panicked));
    } else {
      var t := Loaded(f.world, job, script.answer(n).node && script.answer(n).ok);
      if t.JudgeJob? {
        NeverActiveAtCall(s, n, script, me, JobArrived(job), job.owner.value);
        JudgeRun(f, n + 1, script, me, t.copy, job);
      } else {
        DriveEndsAt(f, n + 1, script, me, t);
      }
    }
  }

  lemma ArrivedIsActive(s: Sys, n: nat, me: nat, job: JobView)
    ensures Active(Standing(s, n, me, JobArrived(job)), me)
  {
  }

  lemma DriveEndsAt(s: Sys, n: nat, script: Script, me: nat, t: Task)
    requires Fair(script) && Done(t)
    ensures var q := Drive(Standing(s, n, me, t), script, me);
            q.turn == n && q.sys.world == s.world && q.sys.tasks[me] == t
  {
    DriveEnds(Standing(s, n, me, t), script, me);
  }

  /** In every state that a call finds, no stored request has an active method. */
  lemma NeverActiveAtCall(s: Sys, n: nat, script: Script, me: nat, t: Task, name: string)
    requires Inv(Placed(s, me, t))
    ensures name in AtCall(s, script, n, me).world.store ==>
              AtCall(s, script, n, me).world.store[name].status.activeMethod.None?
  {
    hide Play, Inv, Later, Reaches;
    var before, f := Placed(s, me, t), AtCall(s, script, n, me);
    PlayIsARun(before, script.others(n), me);
    PlayPlaced(s, script.others(n), me, t);
    PathsAreSafe(before, Play(before, script.others(n), me));
    if name in f.world.store {
      StoredNeverActive(Placed(f, me, t), name);
    }
  }

  // ------------------------------------- from a failed job to the next

  /** An event of a job that ended with failures only, or is still at work, for an open request. */
  predicate Tells(copy: Copy, job: JobView) {
    && !copy.status.complete
    && (job.active != 0 || (job.failed != 0 && job.succeeded == 0))
    && (copy.status.activeJob.None? || copy.status.activeJob.value == job.name)
  }

  /** The script lets the request's handler start a job: plan is the first method
      of the configuration chosen, it can be built, a good listing shows no active
      job of it, and the server grants a new name. */
  ghost predicate LetsStart(s: Sys, n: nat, script: Script, me: nat, copy: Copy,
                            cfg: FencingConfig, plan: Method, name: string)
    requires Fair(script)
  {
    var f := AtCall(s, script, n, me);
    var l := AtCall(f, script, n + 1, me);
    && ChoiceFor(f.world, script, n, copy) == Chosen(cfg) && FirstMethod(cfg, plan)
    && Buildable(plan, copy.target)
    && script.answer(n + 1).ok && !Busy(l.world.jobs, ConfiguredFor(f.world, copy, cfg), plan)
    && script.answer(n + 2).create == CreateReply.Created(name)
    && NewJobName(AtCall(l, script, n + 2, me).world, name)
  }

  predicate JobsUntouched(steps: seq<Step>) {
    forall i :: 0 <= i < |steps| ==> !steps[i].JobsChange?
  }

  lemma StepKeepsJobs(s: Sys, step: Step, name: string)
    requires Enabled(s, step)
    ensures s.world.accepted <= Apply(s, step).world.accepted
    ensures !step.JobsChange? && name in s.world.jobs ==>
              name in Apply(s, step).world.jobs && Apply(s, step).world.jobs[name] == s.world.jobs[name]
  {
    hide AfterEvent, TaskAfter, JobLabels, CanBuild, HasActive;
    StepKeepsHistory(s, step);
  }

  lemma StepKeepsHistory(s: Sys, step: Step)
    requires Enabled(s, step)
    ensures s.world.accepted <= WorldAfter(s, step).accepted
  {
    hide AfterEvent, JobLabels, CanBuild, HasActive;
  }

  /** What was accepted stays in the history, and a job stays as it is while nothing changes the jobs. */
  lemma {:induction false} PlayKeepsJobs(s: Sys, steps: seq<Step>, me: nat, name: string)
    ensures var w' := Play(s, steps, me).world;
            && s.world.accepted <= w'.accepted
            && (name in s.world.jobs && JobsUntouched(steps) ==>
                  name in w'.jobs && w'.jobs[name] == s.world.jobs[name])
    decreases |steps|
  {
    hide Enabled, Apply;
    if steps != [] {
      var next := if ByOthers(steps[0], me) && Enabled(s, steps[0]) then Apply(s, steps[0]) else s;
      if ByOthers(steps[0], me) && Enabled(s, steps[0]) {
        StepKeepsJobs(s, steps[0], name);
      }
      PlayKeepsJobs(next, steps[1..], me, name);
    }
  }

  /** A job for the request and method is at the end in the history of accepted
      jobs, and in the job table if nobody changes that while the record is saved. */
  ghost predicate Started(s: Sys, n: nat, q: Point, script: Script, me: nat, copy: Copy,
                          cfg: FencingConfig, plan: Method, name: string) {
    && q.turn == n + 4
    && (exists i :: 0 <= i < |q.sys.world.accepted|
          && q.sys.world.accepted[i].job == name && q.sys.world.accepted[i].copy.name == copy.name
          && q.sys.world.accepted[i].cfg == cfg && q.sys.world.accepted[i].plan == plan)
    && (JobsUntouched(script.others(n + 3)) ==>
          name in q.sys.world.jobs && q.sys.world.jobs[name].owner == Some(copy.name)
          && TargetOf(q.sys.world.jobs[name]) == copy.target)
  }

  lemma RecordedKeepsJobs(s: Sys, n: nat, q: Point, script: Script, me: nat, record: Copy, name: string)
    requires Recorded(s, n, q, script, me, record) && name in s.world.jobs
    ensures s.world.accepted <= q.sys.world.accepted
    ensures JobsUntouched(script.others(n)) ==>
              name in q.sys.world.jobs && q.sys.world.jobs[name] == s.world.jobs[name]
  {
    hide Play;
    PlayKeepsJobs(s, script.others(n), me, name);
  }

  lemma StartsOne(r: Sys, n: nat, q: Point, script: Script, me: nat, copy: Copy,
                  cfg: FencingConfig, plan: Method, listing: Option<map<string, JobView>>, name: string)
    requires var started := r.(world := WithJob(r.world, copy, cfg, plan, listing, name));
             Recorded(started, n + 3, q, script, me, Launched(copy, plan, name))
    ensures Started(r, n, q, script, me, copy, cfg, plan, name)
  {
    hide Play, Recorded;
    var started := r.(world := WithJob(r.world, copy, cfg, plan, listing, name));
    RecordedKeepsJobs(started, n + 3, q, script, me, Launched(copy, plan, name), name);
    assert Recorded(started, n + 3, q, script, me, Launched(copy, plan, name));
    RecordedTurn(started, n + 3, q, script, me, Launched(copy, plan, name));
    var i := |r.world.accepted|;
    assert started.world.accepted[i].job == name;
    assert q.sys.world.accepted[i] == started.world.accepted[i];
    assert "target" in JobLabels(copy, plan.name) && JobLabels(copy, plan.name)["target"] == copy.target;
  }

  lemma RecordedTurn(s: Sys, n: nat, q: Point, script: Script, me: nat, record: Copy)
    requires Recorded(s, n, q, script, me, record)
    ensures q.turn == n + 1
  {
  }

  /** Where the script lets a job start, an open request gets one. */
  lemma RequestStarts(s: Sys, n: nat, q: Point, script: Script, me: nat, copy: Copy,
                      cfg: FencingConfig, plan: Method, name: string)
    requires Fair(script) && me in q.sys.tasks && Requested(s, n, q, script, me, copy)
    requires LetsStart(s, n, script, me, copy, cfg, plan, name)
    ensures Started(s, n, q, script, me, copy, cfg, plan, name) && q.sys.tasks[me] == Ended(Returned)
  {
    hide Play, Fair, Recorded, ChooseConfig, Busy, JobLabels, Started, WithJob, Launched;
    assert Fair(script);
    var f := AtCall(s, script, n, me);
    var l := AtCall(f, script, n + 1, me);
    var r := AtCall(l, script, n + 2, me);
    var copy' := ConfiguredFor(f.world, copy, cfg);
    StartsOne(r, n, q, script, me, copy', cfg, plan, Some(l.world.jobs), name);
    SameStart(r, s, n, q, script, me, copy', copy, cfg, plan, name);
  }

  lemma SameStart(r: Sys, s: Sys, n: nat, q: Point, script: Script, me: nat, copy': Copy, copy: Copy,
                  cfg: FencingConfig, plan: Method, name: string)
    requires Started(r, n, q, script, me, copy', cfg, plan, name)
    requires copy'.name == copy.name && copy'.target == copy.target
    ensures Started(s, n, q, script, me, copy, cfg, plan, name)
  {
  }

  /** The fencing goes on: a job that only failed leads to the next job of its
      request, wherever the script lets one start. */
  lemma FailedJobLeadsToNext(s: Sys, n: nat, script: Script, me: nat, copy: Copy, job: JobView,
                             cfg: FencingConfig, plan: Method, name: string)
    requires Fair(script) && copy.status.activeMethod.None? && Tells(copy, job)
    requires LetsStart(s, n, script, me, copy, cfg, plan, name)
    ensures var q := Drive(Standing(s, n, me, JudgeJob(copy, job)), script, me);
            Started(s, n, q, script, me, copy, cfg, plan, name) && q.sys.tasks[me] == Ended(Returned)
  {
    hide Play, Fair, Drive, Requested, LetsStart, Started;
    JudgeRun(s, n, script, me, copy, job);
    RequestStarts(s, n, Drive(Standing(s, n, me, JudgeJob(copy, job)), script, me), script, me, copy, cfg, plan, name);
  }

  /** In an orderly registry a request that some configuration matches, or that
      has a live one, is given a configuration with a method. */
  lemma OrderlyChooses(w: World, script: Script, n: nat, copy: Copy)
    requires Fair(script) && Orderly(w.configs, copy.status.config, copy.target, script.answer(n).listings)
    requires Live(w.configs, copy.status.config)
             || exists k :: Matching(w.configs, copy.target, script.answer(n).listings, k)
    ensures ChoiceFor(w, script, n, copy).Chosen? && ChoiceFor(w, script, n, copy).cfg.methods != []
  {
    hide ChooseConfig, Matches;
    var order, listings := script.range(n, w.configs.Keys), script.answer(n).listings;
    OrderlyExactly(w.configs, copy.status.config, copy.target, listings);
    ChooseConfigSound(w.configs, copy.status.config, order, copy.target, listings);
  }

  // -------------------------------------------------- requests of a node

  /** The world with a new, blank request. */
  function WithRequest(w: World, name: string, node: string): World {
    w.(store := w.store[name := Stored(node, w.clock, Status(false, "", None, None, None, []))],
       used := w.used + {name}, clock := w.clock + 1)
  }

  /** One listing.  If it succeeds and shows a complete request of the node,
      nothing more: a request that is not complete holds nothing back.  Else one
      creation, which adds one blank request for the node if the server grants a
      new name, and changes nothing if it does not. */
  ghost predicate Asked(s: Sys, n: nat, q: Point, script: Script, me: nat, node: string) {
    var l := AtCall(s, script, n, me);
    if script.answer(n).ok
       && exists r :: r in l.world.store && l.world.store[r].target == node && l.world.store[r].status.complete then
      q.turn == n + 1 && q.sys.world == l.world
    else
      var w, reply := AtCall(l, script, n + 1, me).world, script.answer(n + 1).create;
      && q.turn == n + 2
      && q.sys.world ==
           if (reply.Created? || reply.CreatedUnread?)
              && reply.name != "" && reply.name !in w.used && reply.name !in w.store
           then WithRequest(w, reply.name, node) else w
  }

  lemma ListedStanding(s: Sys, me: nat, target: string, ok: bool)
    requires Idling(s, me)
    ensures Apply(s, ListForCreate(me, target, ok)) ==
            Placed(s, me, if ok && CompleteListed(s.world, target) then Ended(Returned) else PostRequest(target))
  {
    hide CompleteListed;
  }

  lemma AskRun(p: Point, script: Script, me: nat, node: string)
    requires Fair(script) && Idling(p.sys, me)
    ensures Asked(p.sys, p.turn, CreateRun(p, script, me, node), script, me, node)
  {
    hide Play, Fair, CreateRun, Apply, Idling;
    CreateRunDoes(p, script, me, node);
    var l, ok := Waited(p, script, me), script.answer(p.turn).ok;
    WaitedIdling(p, script, me);
    ListedStanding(l, me, node, ok);
    if !(ok && CompleteListed(l.world, node)) {
      PlayPlaced(l, script.others(p.turn + 1), me, PostRequest(node));
      PostedWorld(AtCall(l, script, p.turn + 1, me), me, node, script.answer(p.turn + 1).create);
    }
  }

  lemma WaitedIdling(p: Point, script: Script, me: nat)
    requires Idling(p.sys, me)
    ensures Idling(Waited(p, script, me), me)
  {
  }

  lemma PostedWorld(r: Sys, me: nat, node: string, reply: CreateReply)
    ensures var s, granted := Placed(r, me, PostRequest(node)), GrantedRequest(r.world, reply);
            && Enabled(s, Post(me, granted))
            && Apply(s, Post(me, granted)).world ==
                 if (reply.Created? || reply.CreatedUnread?)
                    && reply.name != "" && reply.name !in r.world.used && reply.name !in r.world.store
                 then WithRequest(r.world, reply.name, node) else r.world
  {
  }

  /** The requests of a node that a listing shows. */
  function RequestsOf(w: World, node: string): set<string> {
    set r | r in w.store && w.store[r].target == node
  }

  /** The state after the names were deleted one by one, each by a call of its
      own that takes that name out of the store, or fails and takes nothing. */
  function Withdraw(s: Sys, n: nat, script: Script, me: nat, names: seq<string>): Sys
    decreases |names|
  {
    if names == [] then s
    else
      var f := AtCall(s, script, n, me);
      var store := if script.answer(n).ok then f.world.store - {names[0]} else f.world.store;
      Withdraw(f.(world := f.world.(store := store)), n + 1, script, me, names[1..])
  }

  /** One listing, then one deletion for each request it showed, and no other change. */
  ghost predicate Withdrawn(s: Sys, n: nat, q: Point, script: Script, me: nat, node: string) {
    var l := AtCall(s, script, n, me);
    var listed := if script.answer(n).ok then RequestsOf(l.world, node) else {};
    var names := script.range(n, listed);
    q.turn == n + 1 + |names| && q.sys.world == Withdraw(l, n + 1, script, me, names).world
  }

  lemma DeleteTurn(s: Sys, n: nat, script: Script, me: nat, t: Task)
    requires Fair(script) && t.Cancel? && t.pending != []
    ensures var f, ok := AtCall(s, script, n, me), script.answer(n).ok;
            var store := if ok then f.world.store - {t.pending[0]} else f.world.store;
            Turned(Standing(s, n, me, t), script, me) ==
              Standing(f.(world := f.world.(store := store)), n + 1, me,
                       Cancel(t.target, t.listed, t.pending[1..], t.allDeleted && ok))
  {
    hide Play, Fair;
    CallStanding(s, script, n, me, t);
  }

  lemma {:induction false} DeletionsRun(s: Sys, n: nat, script: Script, me: nat, t: Task)
    requires Fair(script) && t.Cancel?
    ensures var q := Drive(Standing(s, n, me, t), script, me);
            q.turn == n + |t.pending| && q.sys.world == Withdraw(s, n, script, me, t.pending).world
    decreases |t.pending|
  {
    hide Play, Fair, Drive, Turned;
    if t.pending == [] {
      DriveEnds(Standing(s, n, me, t), script, me);
    } else {
      DeleteTurn(s, n, script, me, t);
      DriveTurns(Standing(s, n, me, t), script, me);
      var f, ok := AtCall(s, script, n, me), script.answer(n).ok;
      var store := if ok then f.world.store - {t.pending[0]} else f.world.store;
      DeletionsRun(f.(world := f.world.(store := store)), n + 1, script, me,
                   Cancel(t.target, t.listed, t.pending[1..], t.allDeleted && ok));
    }
  }

  lemma CancelStanding(p: Point, script: Script, me: nat, node: string)
    requires Fair(script) && Idling(p.sys, me)
    ensures var l, ok := AtCall(p.sys, script, p.turn, me), script.answer(p.turn).ok;
            var listed := if ok then RequestsOf(l.world, node) else {};
            var names := script.range(p.turn, listed);
            CancelListed(p, script, me, node) == Standing(l, p.turn + 1, me, Cancel(node, listed, names, true))
  {
    hide Play;
    var l := AtCall(p.sys, script, p.turn, me);
    assert ListRequests(l.world, node) == RequestsOf(l.world, node);
  }

  lemma WithdrawRun(p: Point, script: Script, me: nat, node: string)
    requires Fair(script) && Idling(p.sys, me)
    ensures Withdrawn(p.sys, p.turn, CancelRun(p, script, me, node), script, me, node)
  {
    hide Play, Fair, Drive, Withdraw, Idling, CancelListed;
    CancelStanding(p, script, me, node);
    var l, ok := AtCall(p.sys, script, p.turn, me), script.answer(p.turn).ok;
    var listed := if ok then RequestsOf(l.world, node) else {};
    DeletionsRun(l, p.turn + 1, script, me, Cancel(node, listed, script.range(p.turn, listed), true));
  }
}
