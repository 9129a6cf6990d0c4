/** The operator and its environment as a transition system.

    A step is one piece of a handler between two of its API calls, or a move of
    the environment.  Handlers work on copies of requests that other steps may
    have overtaken; a write is accepted only on the version the copy was read at.
    (pkg/stub/fencing.go, pkg/stub/handler.go, pkg/apis/fencing/v1alpha1/request.go) */
module Controller {
  import opened Options
  import opened Mechanisms
  import opened Requests
  import opened JobBuilder
  import opened Registry
  import opened Selection

  // ------------------------------------------------------------- state

  datatype Stored = Stored(target: string, version: nat, status: Status)

  /** One accepted job: the copy it was made from, the configuration and method
      in hand, and the job table as last listed (none if the listing failed). */
  datatype Accepted = Accepted(
    job: string, copy: Copy, cfg: FencingConfig, plan: Method, listing: Option<map<string, JobView>>)

  /** One job event that completed a request: the copy it was judged with, and the job. */
  datatype Completion = Completion(copy: Copy, job: JobView)

  /** One handler that gave up on its request, with the method it could not schedule. */
  datatype Surrender = Surrender(copy: Copy, cfg: FencingConfig, plan: Method)

  /** What the API server and the operator share.  The rest are histories:
      names ever given to requests, jobs ever accepted, requests for which a
      creation was answered AlreadyExists, job snapshots ever handed to the
      operator, judgements that completed a request, and handlers that gave up. */
  datatype World = World(
    store: map<string, Stored>, clock: nat, jobs: map<string, JobView>, configs: Configs,
    used: set<string>, accepted: seq<Accepted>, refused: seq<string>, delivered: set<JobView>,
    completions: seq<Completion>, surrenders: seq<Surrender>)

  datatype After = ToRequest | ToEnd

  datatype Outcome = Returned | Panicked

  /** Where a handler stands, and the copy it holds. */
  datatype Task =
    | JobArrived(job: JobView)
    | JudgeJob(copy: Copy, job: JobView)
    | Request(copy: Copy)
    | PickMethod(copy: Copy, cfg: FencingConfig, pos: nat, next: bool)
    | CheckActive(copy: Copy, cfg: FencingConfig, plan: Method, last: bool)
    | CreateJob(copy: Copy, cfg: FencingConfig, plan: Method, last: bool, listing: Option<map<string, JobView>>)
    | Save(copy: Copy, after: After)
    | PostRequest(target: string)
    | Cancel(target: string, listed: set<string>, pending: seq<string>, allDeleted: bool)
    | Ended(outcome: Outcome)

  datatype Sys = Sys(world: World, tasks: map<nat, Task>)

  const INIT := Sys(World(map[], 0, map[], map[], {}, [], [], {}, [], []), map[])

  // ------------------------------------------------------------- steps

  /** CreatedUnread: the object exists, but the reply could not be decoded. */
  datatype CreateReply = Created(name: string) | CreatedUnread(name: string) | AlreadyExists | Rejected

  /** keepJob and keepMethod: whether the two fields survive being persisted;
      refreshed: whether the copy learns its new version. */
  datatype UpdateReply = UpdateReply(ok: bool, refreshed: bool, keepJob: bool, keepMethod: bool)

  datatype Step =
    // the environment
    | JobsChange(jobs: map<string, JobView>)
    | UserCreates(name: string, target: string)
    | Vanish(name: string)
    | ConfigMapChange(e: ConfigMapEvent)
    // a handler starts
    | DeliverJob(id: nat, name: string)
    | DeliverRequest(id: nat, name: string)
    | ListForCreate(id: nat, target: string, ok: bool)
    | ListForCancel(id: nat, target: string, ok: bool, order: seq<string>)
    // a handler goes on
    | LoadRequest(id: nat, ok: bool)
    | Judge(id: nat)
    | ChooseCfg(id: nat, order: seq<string>, listings: Listings)
    | PickNext(id: nat, ok: bool)
    | Check(id: nat, ok: bool)
    | Create(id: nat, reply: CreateReply)
    | SaveStatus(id: nat, answer: UpdateReply)
    | Post(id: nat, reply: CreateReply)
    | DeleteNext(id: nat, ok: bool)

  predicate Environment(step: Step) {
    step.JobsChange? || step.UserCreates? || step.Vanish? || step.ConfigMapChange?
  }

  function TargetOf(job: JobView): string {
    if "target" in job.labels then job.labels["target"] else ""
  }

  /** A name the server may generate. */
  predicate FreshJob(w: World, name: string) {
    name != "" && name !in w.jobs && forall i :: 0 <= i < |w.accepted| ==> w.accepted[i].job != name
  }

  predicate FreshRequest(w: World, name: string) {
    name != "" && name !in w.used && name !in w.store
  }

  function ListRequests(w: World, target: string): set<string> {
    set n | n in w.store && w.store[n].target == target
  }

  predicate CompleteListed(w: World, target: string) {
    exists n :: n in w.store && w.store[n].target == target && w.store[n].status.complete
  }

  predicate HasActive(jobs: map<string, JobView>, selector: map<string, string>) {
    exists j :: j in jobs && Selects(selector, jobs[j].labels) && jobs[j].active > 0
  }

  function CopyOf(w: World, name: string): Copy
    requires name in w.store
  {
    Copy(name, w.store[name].target, w.store[name].version, w.store[name].status)
  }

  /** The handler slot is free: nothing runs in it any more. */
  predicate Idling(s: Sys, id: nat) {
    id !in s.tasks || s.tasks[id].Ended? || (s.tasks[id].Cancel? && s.tasks[id].pending == [])
  }

  /** The steps possible in a state. */
  predicate Enabled(s: Sys, step: Step) {
    var w := s.world;
    match step
    case JobsChange(jobs) => forall j :: j in jobs ==> jobs[j].name == j && jobs[j].owner != Some("")
    case UserCreates(name, target) => FreshRequest(w, name)
    case Vanish(name) => true
    case ConfigMapChange(e) => true
    case DeliverJob(id, name) => Idling(s, id) && name in w.jobs
    case DeliverRequest(id, name) => Idling(s, id) && name in w.store
    case ListForCreate(id, target, ok) => Idling(s, id)
    case ListForCancel(id, target, ok, order) =>
      Idling(s, id) && Permutes(order, if ok then ListRequests(w, target) else {})
    case LoadRequest(id, ok) => id in s.tasks && s.tasks[id].JobArrived?
    case Judge(id) => id in s.tasks && s.tasks[id].JudgeJob?
    case ChooseCfg(id, order, listings) => id in s.tasks && s.tasks[id].Request? && Permutes(order, w.configs.Keys)
    case PickNext(id, ok) => id in s.tasks && s.tasks[id].PickMethod?
    case Check(id, ok) => id in s.tasks && s.tasks[id].CheckActive?
    case Create(id, reply) =>
      id in s.tasks && s.tasks[id].CreateJob? &&
      (reply.Created? || reply.CreatedUnread? ==> FreshJob(w, reply.name))
    case SaveStatus(id, reply) => id in s.tasks && s.tasks[id].Save?
    case Post(id, reply) =>
      id in s.tasks && s.tasks[id].PostRequest? &&
      (reply.Created? || reply.CreatedUnread? ==> FreshRequest(w, reply.name))
    case DeleteNext(id, ok) => id in s.tasks && s.tasks[id].Cancel? && s.tasks[id].pending != []
  }

  // ---------------------------------------------- what each piece does

  /** HandleFencingJob up to its write or its call of HandleFencingRequest. */
  function Judged(copy: Copy, job: JobView): Task {
    var st := copy.status;
    if job.active == 0 && job.failed == 0 && job.succeeded == 0 then Ended(Returned)
    else if st.complete then Ended(Returned)
    else if st.activeJob.Some? && st.activeJob.value != job.name then Ended(Returned)
    else if job.active == 0 && job.failed != 0 && job.succeeded != 0 then
      if st.activeMethod.None? then Ended(Panicked)
      else Save(copy.(status := AddEntry(st, st.activeMethod.value, PROGRESS, JobDone(job.name))), ToRequest)
    else if job.active == 0 && job.failed == 0 then
      Save(copy.(status := Finalize(st, COMPLETE, JobDone(job.name))), ToRequest)
    else Request(copy)
  }

  /** HandleFencingRequest up to the choice of a method. */
  function AfterChoice(copy: Copy, configs: Configs, choice: Choice): Task {
    match choice
    case NilEntry => Ended(Panicked)
    case NoMatch =>
      Save(copy.(status := Finalize(copy.status.(config := None), NO_CONFIG, Failure)), ToEnd)
    case Chosen(cfg) =>
      var config := if Live(configs, copy.status.config) then copy.status.config else Some(cfg.name);
      PickMethod(copy.(status := copy.status.(config := config)), cfg, 0, false)
  }

  /** The loop of chooseFencingMethod asks for the active jobs of its method here. */
  predicate Asks(t: Task)
    requires t.PickMethod?
  {
    && t.pos < |t.cfg.methods|
    && t.copy.status.activeMethod == Some(t.cfg.methods[t.pos].name)
  }

  /** One turn of that loop; past the last method the error handler panics. */
  function Picked(w: World, t: Task, ok: bool): Task
    requires t.PickMethod?
  {
    if t.pos >= |t.cfg.methods| then Ended(Panicked)
    else
      var plan := t.cfg.methods[t.pos];
      var here := CheckActive(t.copy, t.cfg, plan, t.pos + 1 == |t.cfg.methods|);
      if t.copy.status.activeMethod.None? then here
      else if Asks(t) then
        if ok && HasActive(w.jobs, JobLabels(t.copy, plan.name)) then here
        else t.(pos := t.pos + 1, next := true)
      else if t.next then here
      else t.(pos := t.pos + 1)
  }

  /** The judgement of a job event that completes the request. */
  predicate Completes(copy: Copy, job: JobView) {
    Judged(copy, job).Save? && Judged(copy, job).copy.status.complete
  }

  /** HandleFencingRequestError with an error. */
  function ErrorStatus(st: Status, plan: Method, last: bool): Status {
    if last then Finalize(st, GIVING_UP, Failure) else AddEntry(st, plan.name, GIVING_UP, Failure)
  }

  /** The history after a handler at t could not schedule its method. */
  function Gave(w: World, t: Task): World
    requires t.CheckActive? || t.CreateJob?
  {
    if t.last then w.(surrenders := w.surrenders + [Surrender(t.copy, t.cfg, t.plan)]) else w
  }

  function InitiatedStatus(st: Status, plan: Method, job: string): Status {
    AddEntry(st.(activeJob := Some(job)), plan.name, PROGRESS, Initiated(plan.name, job))
  }

  function NewJob(copy: Copy, plan: Method, name: string): JobView {
    JobView(name, JobLabels(copy, plan.name), Some(copy.name), 0, 0, 0)
  }

  function AddJob(w: World, name: string, t: Task): World
    requires t.CreateJob?
  {
    w.(jobs := w.jobs[name := NewJob(t.copy, t.plan, name)],
       accepted := w.accepted + [Accepted(name, t.copy, t.cfg, t.plan, t.listing)])
  }

  function Persisted(st: Status, reply: UpdateReply): Status {
    st.(activeJob := if reply.keepJob then st.activeJob else None,
        activeMethod := if reply.keepMethod then st.activeMethod else None)
  }

  predicate Current(w: World, copy: Copy) {
    copy.name in w.store && w.store[copy.name].version == copy.version
  }

  /** action.Update: effective only on the current version. */
  function Written(w: World, copy: Copy, reply: UpdateReply): World {
    if reply.ok && Current(w, copy) then
      w.(store := w.store[copy.name := Stored(w.store[copy.name].target, w.clock, Persisted(copy.status, reply))],
         clock := w.clock + 1)
    else w
  }

  function Reread(w: World, copy: Copy, reply: UpdateReply): Copy {
    if reply.ok && Current(w, copy) && reply.refreshed then copy.(version := w.clock) else copy
  }

  function AddRequest(w: World, name: string, target: string): World {
    w.(store := w.store[name := Stored(target, w.clock, BLANK)], used := w.used + {name}, clock := w.clock + 1)
  }

  function Loaded(w: World, job: JobView, ok: bool): Task {
    if job.owner.None? then Ended(Panicked)
    else
      var name := job.owner.value;
      if ok && name in w.store && w.store[name].target == TargetOf(job) then JudgeJob(CopyOf(w, name), job)
      else Ended(Returned)
  }

  function CheckedWorld(w: World, t: Task, ok: bool): World
    requires t.CheckActive?
  {
    if ok && HasActive(w.jobs, JobLabels(t.copy, t.plan.name)) then w
    else if !CanBuild(t.plan, t.copy.target) then Gave(w, t)
    else w
  }

  function Checked(w: World, t: Task, ok: bool): Task
    requires t.CheckActive?
  {
    if ok && HasActive(w.jobs, JobLabels(t.copy, t.plan.name)) then Ended(Returned)
    else if !CanBuild(t.plan, t.copy.target) then
      Save(t.copy.(status := ErrorStatus(t.copy.status, t.plan, t.last)), ToEnd)
    else CreateJob(t.copy, t.cfg, t.plan, t.last, if ok then Some(w.jobs) else None)
  }

  function AfterCreate(t: Task, reply: CreateReply): Task
    requires t.CreateJob?
  {
    var st := t.copy.status;
    match reply
    case Created(name) => Save(t.copy.(status := InitiatedStatus(st, t.plan, name)), ToEnd)
    case AlreadyExists => Save(t.copy.(status := InitiatedStatus(st, t.plan, "")), ToEnd)
    case _ => Save(t.copy.(status := ErrorStatus(st, t.plan, t.last)), ToEnd)
  }

  function AfterCreateWorld(w: World, t: Task, reply: CreateReply): World
    requires t.CreateJob?
  {
    match reply
    case Created(name) => AddJob(w, name, t)
    case CreatedUnread(name) => Gave(AddJob(w, name, t), t)
    case AlreadyExists => w.(refused := w.refused + [t.copy.name])
    case Rejected => Gave(w, t)
  }

  /** The world after a step. */
  function WorldAfter(s: Sys, step: Step): World
    requires Enabled(s, step)
  {
    var w := s.world;
    match step
    case JobsChange(jobs) => w.(jobs := jobs)
    case UserCreates(name, target) => AddRequest(w, name, target)
    case Vanish(name) => w.(store := w.store - {name})
    case ConfigMapChange(e) => w.(configs := AfterEvent(w.configs, e))
    case DeliverJob(id, name) => w.(delivered := w.delivered + {w.jobs[name]})
    case Judge(id) =>
      var t := s.tasks[id];
      if Completes(t.copy, t.job) then w.(completions := w.completions + [Completion(t.copy, t.job)]) else w
    case Check(id, ok) => CheckedWorld(w, s.tasks[id], ok)
    case Create(id, reply) => AfterCreateWorld(w, s.tasks[id], reply)
    case SaveStatus(id, reply) => Written(w, s.tasks[id].copy, reply)
    case Post(id, reply) =>
      if reply.Created? || reply.CreatedUnread? then AddRequest(w, reply.name, s.tasks[id].target) else w
    case DeleteNext(id, ok) => if ok then w.(store := w.store - {s.tasks[id].pending[0]}) else w
    case _ => w
  }

  /** The acting handler after a step of its own. */
  function TaskAfter(s: Sys, step: Step): Task
    requires Enabled(s, step) && !Environment(step)
  {
    var w := s.world;
    match step
    case DeliverJob(id, name) => JobArrived(w.jobs[name])
    case DeliverRequest(id, name) => Request(CopyOf(w, name))
    case ListForCreate(id, target, ok) =>
      if ok && CompleteListed(w, target) then Ended(Returned) else PostRequest(target)
    case ListForCancel(id, target, ok, order) => Cancel(target, if ok then ListRequests(w, target) else {}, order, true)
    case LoadRequest(id, ok) => Loaded(w, s.tasks[id].job, ok)
    case Judge(id) => Judged(s.tasks[id].copy, s.tasks[id].job)
    case ChooseCfg(id, order, listings) =>
      var copy := s.tasks[id].copy;
      if copy.status.complete then Ended(Returned)
      else AfterChoice(copy, w.configs, ChooseConfig(w.configs, copy.status.config, order, copy.target, listings))
    case PickNext(id, ok) => Picked(w, s.tasks[id], ok)
    case Check(id, ok) => Checked(w, s.tasks[id], ok)
    case Create(id, reply) => AfterCreate(s.tasks[id], reply)
    case SaveStatus(id, reply) =>
      var copy := Reread(w, s.tasks[id].copy, reply);
      if s.tasks[id].after.ToRequest? then Request(copy) else Ended(Returned)
    case Post(id, reply) => Ended(Returned)
    case DeleteNext(id, ok) =>
      var t := s.tasks[id];
      t.(pending := t.pending[1..], allDeleted := t.allDeleted && ok)
    case _ => Ended(Returned)
  }

  function Apply(s: Sys, step: Step): Sys
    requires Enabled(s, step)
  {
    Sys(WorldAfter(s, step),
        if Environment(step) then s.tasks else s.tasks[step.id := TaskAfter(s, step)])
  }

  // -------------------------------------------------------------- runs

  ghost predicate Legal(s: Sys, steps: seq<Step>)
    decreases |steps|
  {
    steps == [] || (Enabled(s, steps[0]) && Legal(Apply(s, steps[0]), steps[1..]))
  }

  ghost function Run(s: Sys, steps: seq<Step>): Sys
    requires Legal(s, steps)
    decreases |steps|
  {
    if steps == [] then s else Run(Apply(s, steps[0]), steps[1..])
  }

  lemma {:induction false} RunConcat(s: Sys, a: seq<Step>, b: seq<Step>)
    requires Legal(s, a) && Legal(Run(s, a), b)
    ensures Legal(s, a + b) && Run(s, a + b) == Run(Run(s, a), b)
    decreases |a|
  {
    if a == [] {
      assert a + b == b;
    } else {
      assert (a + b)[1..] == a[1..] + b;
      RunConcat(Apply(s, a[0]), a[1..], b);
    }
  }
}
