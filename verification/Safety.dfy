/** What every run of the operator keeps, under any interleaving of handlers,
    stale copies, failing API calls and changes of the environment. */
module Safety {
  import opened Options
  import opened Mechanisms
  import opened Requests
  import opened JobBuilder
  import opened Registry
  import opened Selection
  import opened Controller

  // ------------------------------------------------ how the world moves

  predicate SameRecord(a: Status, b: Status) {
    a.complete == b.complete && a.result == b.result && a.updates == b.updates
  }

  /** The log only grows at its end, and a complete record does not change. */
  predicate Ahead(before: Status, after: Status) {
    before.updates <= after.updates && (before.complete ==> SameRecord(before, after))
  }

  ghost predicate KeptOrRewritten(w: World, w': World, n: string)
    requires n in w'.store
  {
    n in w.store
    && w'.store[n].target == w.store[n].target
    && Ahead(w.store[n].status, w'.store[n].status)
    && (w'.store[n] == w.store[n] || w'.store[n].version >= w.clock)
  }

  /** w' is a later world: histories grow, names are never given twice, and a
      request that is still there was only appended to. */
  ghost predicate Later(w: World, w': World) {
    && w.clock <= w'.clock
    && w.used <= w'.used
    && w.accepted <= w'.accepted
    && w.refused <= w'.refused
    && w.completions <= w'.completions
    && w.surrenders <= w'.surrenders
    && w.delivered <= w'.delivered
    && (forall n :: n in w'.store && n in w.used ==> KeptOrRewritten(w, w', n))
  }

  lemma LaterTransitive(w: World, w': World, w'': World)
    requires Later(w, w') && Later(w', w'')
    ensures Later(w, w'')
  {
    forall n | n in w''.store && n in w.used ensures KeptOrRewritten(w, w'', n) {
      assert KeptOrRewritten(w', w'', n);
      assert KeptOrRewritten(w, w', n);
    }
  }

  // ------------------------------------------------- claims on a record

  /** A final record ends with its result; an open one has none. */
  predicate Shape(st: Status) {
    if st.complete then
      && |st.updates| > 0
      && st.updates[|st.updates| - 1].methodName == ""
      && st.updates[|st.updates| - 1].message == st.result
      && (st.result == COMPLETE || st.result == GIVING_UP || st.result == NO_CONFIG)
    else st.result == ""
  }

  predicate Succeeded(v: JobView, request: string, target: string) {
    && v.owner == Some(request) && TargetOf(v) == target
    && v.active == 0 && v.failed == 0 && v.succeeded != 0
  }

  /** e closed the log: an open copy of the request was judged with a job that
      succeeded for it and that no other active job contradicted. */
  ghost predicate Closes(w: World, e: Completion, name: string, target: string, updates: seq<Entry>) {
    && e.copy.name == name && e.copy.target == target && !e.copy.status.complete
    && e.job in w.delivered && Succeeded(e.job, name, target)
    && (e.copy.status.activeJob == None || e.copy.status.activeJob == Some(e.job.name))
    && updates == e.copy.status.updates + [Entry("", COMPLETE, JobDone(e.job.name))]
  }

  /** "Complete" was earned by a judgement in the history. */
  ghost predicate Earned(w: World, name: string, target: string, st: Status) {
    st.result == COMPLETE ==>
      exists i :: 0 <= i < |w.completions| && Closes(w, w.completions[i], name, target, st.updates)
  }

  /** e closed the log: it held an open copy of the request and could not
      schedule the last method of the configuration chosen for it. */
  ghost predicate Abandons(e: Surrender, name: string, target: string, updates: seq<Entry>) {
    && e.copy.name == name && e.copy.target == target && !e.copy.status.complete
    && e.copy.status.config == Some(e.cfg.name)
    && e.cfg.methods != [] && e.plan == e.cfg.methods[|e.cfg.methods| - 1]
    && updates == e.copy.status.updates + [Entry("", GIVING_UP, Failure)]
  }

  /** "GivingUp" goes back to a handler at its last method. */
  ghost predicate Abandoned(w: World, name: string, target: string, st: Status) {
    st.result == GIVING_UP ==>
      exists i :: 0 <= i < |w.surrenders| && Abandons(w.surrenders[i], name, target, st.updates)
  }

  predicate NamesJob(e: Entry) {
    e.detail.Initiated? && e.detail.job != ""
  }

  ghost predicate AcceptedFor(w: World, name: string, job: string) {
    exists i :: 0 <= i < |w.accepted| && w.accepted[i].job == job && w.accepted[i].copy.name == name
  }

  /** Entries that say a job was initiated, but name none. */
  function Unnamed(updates: seq<Entry>): nat {
    if updates == [] then 0
    else
      var e := updates[|updates| - 1];
      Unnamed(updates[..|updates| - 1]) + if e.detail.Initiated? && e.detail.job == "" then 1 else 0
  }

  /** The creations for a request that were answered AlreadyExists. */
  function Refusals(refused: seq<string>, name: string): nat {
    if refused == [] then 0
    else Refusals(refused[..|refused| - 1], name) + if refused[|refused| - 1] == name then 1 else 0
  }

  lemma {:induction false} RefusalsGrow(a: seq<string>, b: seq<string>, name: string)
    requires a <= b
    ensures Refusals(a, name) <= Refusals(b, name)
    decreases |b|
  {
    if |a| < |b| {
      RefusalsGrow(a, b[..|b| - 1], name);
    } else {
      assert a == b;
    }
  }

  /** The "initiated as" entries name different jobs, each accepted for the
      request; those that name none are not more than the refusals it met. */
  ghost predicate Backed(w: World, name: string, updates: seq<Entry>) {
    && (forall i :: 0 <= i < |updates| && NamesJob(updates[i]) ==> AcceptedFor(w, name, updates[i].detail.job))
    && (forall i, j :: 0 <= i < j < |updates| && NamesJob(updates[i]) && NamesJob(updates[j]) ==>
          updates[i].detail.job != updates[j].detail.job)
    && Unnamed(updates) <= Refusals(w.refused, name)
  }

  ghost predicate StatusOk(w: World, name: string, target: string, st: Status) {
    && Shape(st) && st.activeMethod.None?
    && Earned(w, name, target, st) && Abandoned(w, name, target, st)
    && Backed(w, name, st.updates)
  }

  lemma StatusKept(w: World, w': World, name: string, target: string, st: Status)
    requires StatusOk(w, name, target, st) && Later(w, w')
    ensures StatusOk(w', name, target, st)
  {
    forall job | AcceptedFor(w, name, job) ensures AcceptedFor(w', name, job) {
      var i :| 0 <= i < |w.accepted| && w.accepted[i].job == job && w.accepted[i].copy.name == name;
      assert w'.accepted[i] == w.accepted[i];
    }
    if st.result == COMPLETE {
      var i :| 0 <= i < |w.completions| && Closes(w, w.completions[i], name, target, st.updates);
      assert w'.completions[i] == w.completions[i];
      assert Closes(w', w'.completions[i], name, target, st.updates);
    }
    if st.result == GIVING_UP {
      var i :| 0 <= i < |w.surrenders| && Abandons(w.surrenders[i], name, target, st.updates);
      assert w'.surrenders[i] == w.surrenders[i];
    }
    RefusalsGrow(w.refused, w'.refused, name);
  }

  // ---------------------------------------------------- claims on a task

  predicate HasCopy(t: Task) {
    t.JudgeJob? || t.Request? || t.PickMethod? || t.CheckActive? || t.CreateJob? || t.Save?
  }

  /** A copy is a well-formed record; while its version is current it is ahead
      of what is stored. */
  ghost predicate CopyOk(w: World, c: Copy) {
    && c.name in w.used && c.version < w.clock
    && StatusOk(w, c.name, c.target, c.status)
    && (c.name in w.store ==>
          && c.target == w.store[c.name].target
          && (c.version == w.store[c.name].version ==> Ahead(w.store[c.name].status, c.status)))
  }

  /** No job that the selector of the copy and method finds was active. */
  ghost predicate QuietListing(copy: Copy, plan: Method, listing: Option<map<string, JobView>>) {
    listing.Some? ==>
      forall j :: j in listing.value && Selects(JobLabels(copy, plan.name), listing.value[j].labels) ==>
        listing.value[j].active == 0
  }

  predicate FirstMethod(cfg: FencingConfig, plan: Method) {
    |cfg.methods| > 0 && plan == cfg.methods[0]
  }

  ghost predicate Place(w: World, t: Task) {
    match t
    case JobArrived(job) => job in w.delivered && job.owner != Some("")
    case JudgeJob(copy, job) => job in w.delivered && job.owner == Some(copy.name) && TargetOf(job) == copy.target
    case PickMethod(copy, cfg, pos, next) =>
      !copy.status.complete && copy.status.config == Some(cfg.name) && pos == 0
    case CheckActive(copy, cfg, plan, last) =>
      && !copy.status.complete && copy.status.config == Some(cfg.name) && FirstMethod(cfg, plan)
      && (last <==> |cfg.methods| == 1)
    case CreateJob(copy, cfg, plan, last, listing) =>
      !copy.status.complete && copy.status.config == Some(cfg.name) && FirstMethod(cfg, plan)
      && (last <==> |cfg.methods| == 1)
      && CanBuild(plan, copy.target) && QuietListing(copy, plan, listing)
    case Cancel(target, listed, pending, allDeleted) =>
      && listed <= w.used
      && (forall n :: n in pending ==> n in listed)
      && (allDeleted ==> forall n :: n in listed && n in w.store ==> n in pending)
    case _ => true
  }

  ghost predicate TaskOk(w: World, t: Task) {
    (HasCopy(t) ==> CopyOk(w, t.copy)) && Place(w, t)
  }

  ghost predicate AcceptedOk(a: Accepted) {
    && a.copy.status.config == Some(a.cfg.name)
    && FirstMethod(a.cfg, a.plan)
    && CanBuild(a.plan, a.copy.target)
    && QuietListing(a.copy, a.plan, a.listing)
  }

  ghost predicate StoredOk(w: World, n: string)
    requires n in w.store
  {
    n in w.used && w.store[n].version < w.clock && StatusOk(w, n, w.store[n].target, w.store[n].status)
  }

  ghost predicate DistinctJobs(accepted: seq<Accepted>) {
    forall i, j :: 0 <= i < j < |accepted| ==> accepted[i].job != accepted[j].job
  }

  ghost predicate WorldOk(w: World) {
    && NamedConfigs(w.configs)
    && "" !in w.used
    && (forall n :: n in w.store ==> StoredOk(w, n))
    && (forall i :: 0 <= i < |w.accepted| ==> AcceptedOk(w.accepted[i]))
    && DistinctJobs(w.accepted)
    && (forall i :: 0 <= i < |w.accepted| ==> w.accepted[i].job != "")
    && (forall j :: j in w.jobs ==> w.jobs[j].name == j && w.jobs[j].owner != Some(""))
  }

  ghost predicate Inv(s: Sys) {
    WorldOk(s.world) && forall id :: id in s.tasks ==> TaskOk(s.world, s.tasks[id])
  }

  lemma InitOk()
    ensures Inv(INIT)
  {
  }

  lemma CopyKept(w: World, w': World, c: Copy)
    requires CopyOk(w, c) && Later(w, w')
    ensures CopyOk(w', c)
  {
    StatusKept(w, w', c.name, c.target, c.status);
    if c.name in w'.store {
      assert KeptOrRewritten(w, w', c.name);
    }
  }

  lemma TaskKept(w: World, w': World, t: Task)
    requires TaskOk(w, t) && Later(w, w')
    ensures TaskOk(w', t)
  {
    if HasCopy(t) {
      CopyKept(w, w', t.copy);
    }
    if t.Cancel? {
      forall n | n in t.listed && n in w'.store ensures n in w.store {
        assert KeptOrRewritten(w, w', n);
      }
    }
  }

  // ----------------------------------------------------- local appends

  lemma BackedAppend(w: World, name: string, updates: seq<Entry>, e: Entry)
    requires Backed(w, name, updates)
    requires NamesJob(e) ==> AcceptedFor(w, name, e.detail.job)
    requires NamesJob(e) ==>
               forall i :: 0 <= i < |updates| && NamesJob(updates[i]) ==> updates[i].detail.job != e.detail.job
    requires e.detail.Initiated? && e.detail.job == "" ==> Unnamed(updates) < Refusals(w.refused, name)
    ensures Backed(w, name, updates + [e])
  {
    hide AcceptedFor;
    assert (updates + [e])[..|updates|] == updates;
  }

  /** A final entry on an open record. */
  lemma FinalizeOk(w: World, c: Copy, st: Status, result: string, detail: Detail)
    requires CopyOk(w, c) && !c.status.complete
    requires st == c.status || st == c.status.(config := None)
    requires result == GIVING_UP || result == NO_CONFIG || result == COMPLETE
    requires !detail.Initiated?
    requires result == COMPLETE ==> Earned(w, c.name, c.target, Finalize(st, result, detail))
    requires result == GIVING_UP ==> Abandoned(w, c.name, c.target, Finalize(st, result, detail))
    ensures CopyOk(w, c.(status := Finalize(st, result, detail)))
  {
    BackedAppend(w, c.name, c.status.updates, Entry("", result, detail));
  }

  lemma AppendOk(w: World, c: Copy, methodName: string, message: string)
    requires CopyOk(w, c) && !c.status.complete
    ensures CopyOk(w, c.(status := AddEntry(c.status, methodName, message, Failure)))
  {
    BackedAppend(w, c.name, c.status.updates, Entry(methodName, message, Failure));
  }

  /** Where a handler stands when it finds that it cannot schedule its method. */
  ghost predicate Scheduling(t: Task) {
    && (t.CheckActive? || t.CreateJob?)
    && !t.copy.status.complete && t.copy.status.config == Some(t.cfg.name) && FirstMethod(t.cfg, t.plan)
    && (t.last <==> |t.cfg.methods| == 1)
  }

  /** Giving up is recorded, and the record that says so is in order. */
  lemma ErrorOk(w: World, t: Task)
    requires WorldOk(w) && Scheduling(t) && CopyOk(w, t.copy)
    ensures Later(w, Gave(w, t)) && WorldOk(Gave(w, t))
    ensures CopyOk(Gave(w, t), t.copy.(status := ErrorStatus(t.copy.status, t.plan, t.last)))
  {
    hide CopyOk, WorldOk, Later, Earned;
    GaveOk(w, t);
    CopyKept(w, Gave(w, t), t.copy);
    if t.last {
      SurrenderCloses(w, t);
      FinalizeOk(Gave(w, t), t.copy, t.copy.status, GIVING_UP, Failure);
    } else {
      AppendOk(w, t.copy, t.plan.name, GIVING_UP);
    }
  }

  lemma GaveOk(w: World, t: Task)
    requires WorldOk(w) && (t.CheckActive? || t.CreateJob?)
    ensures Later(w, Gave(w, t)) && WorldOk(Gave(w, t))
  {
    hide StatusOk, AcceptedOk, CopyOk;
    SameWorldLater(w, Gave(w, t));
  }

  lemma SurrenderCloses(w: World, t: Task)
    requires Scheduling(t) && t.last
    ensures Abandoned(Gave(w, t), t.copy.name, t.copy.target, Finalize(t.copy.status, GIVING_UP, Failure))
  {
    assert Gave(w, t).surrenders[|w.surrenders|] == Surrender(t.copy, t.cfg, t.plan);
  }

  lemma InitiatedOk(w: World, c: Copy, plan: Method, job: string)
    requires CopyOk(w, c) && !c.status.complete
    requires job != "" ==> AcceptedFor(w, c.name, job)
    requires job != "" ==> forall i :: 0 <= i < |c.status.updates| && NamesJob(c.status.updates[i]) ==>
               c.status.updates[i].detail.job != job
    requires job == "" ==> Unnamed(c.status.updates) < Refusals(w.refused, c.name)
    ensures CopyOk(w, c.(status := InitiatedStatus(c.status, plan, job)))
  {
    BackedAppend(w, c.name, c.status.updates, Entry(plan.name, PROGRESS, Initiated(plan.name, job)));
  }

  // ---------------------------------------------- each step, its world

  ghost predicate Good(s: Sys, step: Step)
    requires Enabled(s, step)
  {
    var w' := WorldAfter(s, step);
    && Later(s.world, w') && WorldOk(w')
    && (!Environment(step) ==> TaskOk(w', TaskAfter(s, step)))
  }

  lemma SameWorldLater(w: World, w': World)
    requires WorldOk(w) && w'.store == w.store && w'.clock == w.clock && w'.used == w.used
    requires w.accepted <= w'.accepted && w.delivered <= w'.delivered
    requires w.refused <= w'.refused && w.completions <= w'.completions && w.surrenders <= w'.surrenders
    ensures Later(w, w') && forall n :: n in w'.store ==> StoredOk(w', n)
  {
    forall n | n in w'.store ensures KeptOrRewritten(w, w', n) {
      assert StoredOk(w, n);
    }
    forall n | n in w'.store ensures StoredOk(w', n) {
      assert StoredOk(w, n);
      StatusKept(w, w', n, w.store[n].target, w.store[n].status);
    }
  }

  lemma RemovalOk(w: World, name: string)
    requires WorldOk(w)
    ensures Later(w, w.(store := w.store - {name})) && WorldOk(w.(store := w.store - {name}))
  {
    var w' := w.(store := w.store - {name});
    forall n | n in w'.store ensures KeptOrRewritten(w, w', n) && StoredOk(w', n) {
      assert StoredOk(w, n);
    }
  }

  lemma AdditionOk(w: World, name: string, target: string)
    requires WorldOk(w) && FreshRequest(w, name)
    ensures Later(w, AddRequest(w, name, target)) && WorldOk(AddRequest(w, name, target))
  {
    var w' := AddRequest(w, name, target);
    forall n | n in w'.store && n in w.used ensures KeptOrRewritten(w, w', n) {
      assert StoredOk(w, n);
    }
    forall n | n in w'.store ensures StoredOk(w', n) {
      if n != name {
        assert StoredOk(w, n);
        StatusKept(w, w', n, w.store[n].target, w.store[n].status);
      }
    }
  }

  lemma PersistOk(w: World, name: string, target: string, st: Status, reply: UpdateReply)
    requires StatusOk(w, name, target, st)
    ensures StatusOk(w, name, target, Persisted(st, reply))
  {
  }

  lemma WrittenLater(w: World, c: Copy, reply: UpdateReply)
    requires WorldOk(w) && CopyOk(w, c) && reply.ok && Current(w, c)
    ensures Later(w, Written(w, c, reply))
  {
    hide StatusOk, AcceptedOk;
    var w' := Written(w, c, reply);
    forall n | n in w'.store ensures KeptOrRewritten(w, w', n) {
      assert StoredOk(w, n);
    }
  }

  lemma WrittenStored(w: World, c: Copy, reply: UpdateReply)
    requires WorldOk(w) && CopyOk(w, c) && reply.ok && Current(w, c)
    ensures forall n :: n in Written(w, c, reply).store ==> StoredOk(Written(w, c, reply), n)
  {
    hide StatusOk, AcceptedOk, Later;
    var w' := Written(w, c, reply);
    WrittenLater(w, c, reply);
    PersistOk(w, c.name, c.target, c.status, reply);
    forall n | n in w'.store ensures StoredOk(w', n) {
      assert StoredOk(w, n);
      if n == c.name {
        StatusKept(w, w', n, c.target, Persisted(c.status, reply));
      } else {
        StatusKept(w, w', n, w.store[n].target, w.store[n].status);
      }
    }
  }

  lemma WriteOk(w: World, c: Copy, reply: UpdateReply)
    requires WorldOk(w) && CopyOk(w, c)
    ensures var w' := Written(w, c, reply);
            Later(w, w') && WorldOk(w') && CopyOk(w', Reread(w, c, reply))
  {
    hide StatusOk, AcceptedOk, StoredOk, Later;
    if reply.ok && Current(w, c) {
      WrittenLater(w, c, reply);
      WrittenStored(w, c, reply);
      StatusKept(w, Written(w, c, reply), c.name, c.target, c.status);
    } else {
      SameWorldLater(w, w);
    }
  }

  lemma AddJobOk(w: World, name: string, t: Task)
    requires WorldOk(w) && t.CreateJob? && TaskOk(w, t) && FreshJob(w, name)
    ensures Later(w, AddJob(w, name, t)) && WorldOk(AddJob(w, name, t))
    ensures AcceptedFor(AddJob(w, name, t), t.copy.name, name)
  {
    var w' := AddJob(w, name, t);
    SameWorldLater(w, w');
    assert w'.accepted[|w.accepted|].job == name;
    forall i | 0 <= i < |w'.accepted| ensures AcceptedOk(w'.accepted[i]) {
      assert i < |w.accepted| ==> AcceptedOk(w.accepted[i]);
    }
    assert CopyOk(w, t.copy);
    assert name in w'.jobs;
  }

  lemma RefusalOk(w: World, name: string)
    requires WorldOk(w)
    ensures var w' := w.(refused := w.refused + [name]);
            Later(w, w') && WorldOk(w') && Refusals(w'.refused, name) == Refusals(w.refused, name) + 1
  {
    var w' := w.(refused := w.refused + [name]);
    SameWorldLater(w, w');
    assert w'.refused[..|w.refused|] == w.refused;
  }

  lemma AcceptedCreate(w: World, t: Task, name: string)
    requires WorldOk(w) && t.CreateJob? && TaskOk(w, t) && FreshJob(w, name)
    ensures var w' := AddJob(w, name, t);
            && Later(w, w') && WorldOk(w')
            && CopyOk(w', t.copy.(status := InitiatedStatus(t.copy.status, t.plan, name)))
  {
    hide CopyOk, WorldOk, Later, FreshJob;
    var w' := AddJob(w, name, t);
    AddJobOk(w, name, t);
    CopyKept(w, w', t.copy);
    FreshForCopy(w, t.copy, name);
    InitiatedOk(w', t.copy, t.plan, name) by { FreshIsNamed(w, name); }
  }

  lemma UnreadCreate(w: World, t: Task, name: string)
    requires WorldOk(w) && t.CreateJob? && TaskOk(w, t) && FreshJob(w, name)
    ensures var w' := Gave(AddJob(w, name, t), t);
            && Later(w, w') && WorldOk(w')
            && CopyOk(w', t.copy.(status := ErrorStatus(t.copy.status, t.plan, t.last)))
  {
    hide CopyOk, WorldOk, Later, FreshJob, ErrorStatus;
    var w' := AddJob(w, name, t);
    AddJobOk(w, name, t);
    CopyKept(w, w', t.copy);
    ErrorOk(w', t);
    LaterTransitive(w, w', Gave(w', t));
  }

  lemma FreshIsNamed(w: World, name: string)
    requires FreshJob(w, name)
    ensures name != ""
  {
  }

  lemma RefusedCreate(w: World, t: Task)
    requires WorldOk(w) && t.CreateJob? && TaskOk(w, t)
    ensures var w' := w.(refused := w.refused + [t.copy.name]);
            Later(w, w') && WorldOk(w') && CopyOk(w', t.copy.(status := InitiatedStatus(t.copy.status, t.plan, "")))
  {
    hide WorldOk, Later;
    var w' := w.(refused := w.refused + [t.copy.name]);
    RefusalOk(w, t.copy.name);
    CopyKept(w, w', t.copy);
    assert Unnamed(t.copy.status.updates) < Refusals(w'.refused, t.copy.name);
    InitiatedOk(w', t.copy, t.plan, "");
  }

  lemma CreateStep(s: Sys, id: nat, reply: CreateReply)
    requires Inv(s) && Enabled(s, Create(id, reply))
    ensures Good(s, Create(id, reply))
  {
    hide CopyOk, Later, WorldOk, FreshJob, AddJob, Gave, InitiatedStatus, ErrorStatus, FirstMethod;
    hide CanBuild, QuietListing;
    var w, t := s.world, s.tasks[id];
    assert TaskOk(w, t);
    match reply
    case Created(name) => AcceptedCreate(w, t, name);
    case CreatedUnread(name) => UnreadCreate(w, t, name);
    case AlreadyExists => RefusedCreate(w, t);
    case Rejected => ErrorOk(w, t);
  }

  lemma FreshForCopy(w: World, c: Copy, job: string)
    requires CopyOk(w, c) && FreshJob(w, job)
    ensures forall i :: 0 <= i < |c.status.updates| && NamesJob(c.status.updates[i]) ==>
              c.status.updates[i].detail.job != job
  {
    forall i | 0 <= i < |c.status.updates| && NamesJob(c.status.updates[i])
      ensures c.status.updates[i].detail.job != job
    {
      assert AcceptedFor(w, c.name, c.status.updates[i].detail.job);
    }
  }

  lemma StoredCopyOk(w: World, name: string)
    requires WorldOk(w) && name in w.store
    ensures CopyOk(w, CopyOf(w, name))
  {
    assert StoredOk(w, name);
  }

  lemma NoActiveMethod(w: World, c: Copy)
    requires CopyOk(w, c)
    ensures c.status.activeMethod.None?
  {
  }

  /** No copy in any run has an active method. */
  lemma NeverActive(s: Sys, id: nat)
    requires Inv(s) && id in s.tasks && HasCopy(s.tasks[id])
    ensures s.tasks[id].copy.status.activeMethod.None?
  {
    assert TaskOk(s.world, s.tasks[id]);
  }

  lemma CompletionOk(w: World, c: Copy, job: JobView)
    requires WorldOk(w) && CopyOk(w, c) && Completes(c, job)
    requires job in w.delivered && job.owner == Some(c.name) && TargetOf(job) == c.target
    ensures var w' := w.(completions := w.completions + [Completion(c, job)]);
            Later(w, w') && WorldOk(w') && CopyOk(w', Judged(c, job).copy)
  {
    hide Backed;
    var w' := w.(completions := w.completions + [Completion(c, job)]);
    SameWorldLater(w, w');
    CopyKept(w, w', c);
    assert w'.completions[|w.completions|] == Completion(c, job);
    assert Closes(w', Completion(c, job), c.name, c.target, Finalize(c.status, COMPLETE, JobDone(job.name)).updates);
    FinalizeOk(w', c, c.status, COMPLETE, JobDone(job.name));
  }

  lemma JudgeStep(s: Sys, id: nat)
    requires Inv(s) && Enabled(s, Judge(id))
    ensures Good(s, Judge(id))
  {
    hide WorldOk, Later, StatusOk;
    var w, t := s.world, s.tasks[id];
    assert TaskOk(w, t);
    var job, c := t.job, t.copy;
    if Completes(c, job) {
      CompletionOk(w, c, job);
    } else {
      SameWorldLater(w, w);
      NoActiveMethod(w, c);
    }
  }

  lemma ChoiceOk(w: World, c: Copy, order: seq<string>, listings: Listings)
    requires WorldOk(w) && CopyOk(w, c) && !c.status.complete && Permutes(order, w.configs.Keys)
    ensures TaskOk(w, AfterChoice(c, w.configs, ChooseConfig(w.configs, c.status.config, order, c.target, listings)))
  {
    hide ChooseConfig, Backed, Matches, StoredOk, AcceptedOk, Permutes, Finalize;
    ChooseConfigSound(w.configs, c.status.config, order, c.target, listings);
    FinalizeOk(w, c, c.status.(config := None), NO_CONFIG, Failure);
  }

  lemma ChooseStep(s: Sys, id: nat, order: seq<string>, listings: Listings)
    requires Inv(s) && Enabled(s, ChooseCfg(id, order, listings))
    ensures Good(s, ChooseCfg(id, order, listings))
  {
    hide ChooseConfig, AfterChoice, CopyOk, WorldOk, Later;
    var w, c := s.world, s.tasks[id].copy;
    assert TaskOk(w, s.tasks[id]);
    SameWorldLater(w, w);
    if !c.status.complete {
      ChoiceOk(w, c, order, listings);
    }
  }

  lemma PickStep(s: Sys, id: nat, ok: bool)
    requires Inv(s) && Enabled(s, PickNext(id, ok))
    ensures Good(s, PickNext(id, ok))
  {
    var w, t := s.world, s.tasks[id];
    assert TaskOk(w, t);
    SameWorldLater(w, w);
  }

  lemma CheckStep(s: Sys, id: nat, ok: bool)
    requires Inv(s) && Enabled(s, Check(id, ok))
    ensures Good(s, Check(id, ok))
  {
    hide CopyOk, CanBuild, Selects, JobLabels, Later, WorldOk, Gave, ErrorStatus;
    var w, t := s.world, s.tasks[id];
    assert TaskOk(w, t);
    SameWorldLater(w, w);
    ErrorOk(w, t);
  }

  lemma LoadStep(s: Sys, id: nat, ok: bool)
    requires Inv(s) && Enabled(s, LoadRequest(id, ok))
    ensures Good(s, LoadRequest(id, ok))
  {
    hide CopyOk;
    var w, t := s.world, s.tasks[id];
    assert TaskOk(w, t);
    SameWorldLater(w, w);
    if t.job.owner.Some? && t.job.owner.value in w.store {
      StoredCopyOk(w, t.job.owner.value);
    }
  }

  lemma DeliverStep(s: Sys, step: Step)
    requires Inv(s) && Enabled(s, step) && (step.DeliverJob? || step.DeliverRequest?)
    ensures Good(s, step)
  {
    hide CopyOk;
    SameWorldLater(s.world, WorldAfter(s, step));
    if step.DeliverRequest? {
      StoredCopyOk(s.world, step.name);
    }
  }

  lemma ListStep(s: Sys, step: Step)
    requires Inv(s) && Enabled(s, step) && (step.ListForCreate? || step.ListForCancel?)
    ensures Good(s, step)
  {
    SameWorldLater(s.world, s.world);
    forall n | n in ListRequests(s.world, step.target) ensures n in s.world.used {
      assert StoredOk(s.world, n);
    }
  }

  lemma SaveStep(s: Sys, id: nat, answer: UpdateReply)
    requires Inv(s) && Enabled(s, SaveStatus(id, answer))
    ensures Good(s, SaveStatus(id, answer))
  {
    hide CopyOk, WorldOk;
    assert TaskOk(s.world, s.tasks[id]);
    WriteOk(s.world, s.tasks[id].copy, answer);
  }

  lemma DeleteStep(s: Sys, id: nat, ok: bool)
    requires Inv(s) && Enabled(s, DeleteNext(id, ok))
    ensures Good(s, DeleteNext(id, ok))
  {
    hide StatusOk;
    var w, t := s.world, s.tasks[id];
    assert TaskOk(w, t);
    RemovalOk(w, t.pending[0]);
    SameWorldLater(w, w);
    assert t.pending == [t.pending[0]] + t.pending[1..];
  }

  lemma EnvironmentStep(s: Sys, step: Step)
    requires Inv(s) && Enabled(s, step)
    requires step.JobsChange? || step.UserCreates? || step.Vanish? || step.ConfigMapChange?
    ensures Good(s, step)
  {
    hide StatusOk, AcceptedOk, AfterEvent;
    var w := s.world;
    match step
    case JobsChange(jobs) => SameWorldLater(w, w.(jobs := jobs));
    case UserCreates(name, target) => AdditionOk(w, name, target);
    case Vanish(name) => RemovalOk(w, name);
    case ConfigMapChange(e) =>
      SameWorldLater(w, w.(configs := AfterEvent(w.configs, e)));
      EventsKeepNames(w.configs, e);
  }

  lemma PostStep(s: Sys, id: nat, reply: CreateReply)
    requires Inv(s) && Enabled(s, Post(id, reply))
    ensures Good(s, Post(id, reply))
  {
    hide StatusOk;
    if reply.Created? || reply.CreatedUnread? {
      AdditionOk(s.world, reply.name, s.tasks[id].target);
    }
    SameWorldLater(s.world, s.world);
  }

  lemma StepIsGood(s: Sys, step: Step)
    requires Inv(s) && Enabled(s, step)
    ensures Good(s, step)
  {
    hide *;
    match step
    case DeliverJob(id, name) => DeliverStep(s, step);
    case DeliverRequest(id, name) => DeliverStep(s, step);
    case ListForCreate(id, target, ok) => ListStep(s, step);
    case ListForCancel(id, target, ok, order) => ListStep(s, step);
    case LoadRequest(id, ok) => LoadStep(s, id, ok);
    case Judge(id) => JudgeStep(s, id);
    case ChooseCfg(id, order, listings) => ChooseStep(s, id, order, listings);
    case PickNext(id, ok) => PickStep(s, id, ok);
    case Check(id, ok) => CheckStep(s, id, ok);
    case Create(id, reply) => CreateStep(s, id, reply);
    case SaveStatus(id, answer) => SaveStep(s, id, answer);
    case Post(id, reply) => PostStep(s, id, reply);
    case DeleteNext(id, ok) => DeleteStep(s, id, ok);
    case JobsChange(jobs) => EnvironmentStep(s, step);
    case UserCreates(name, target) => EnvironmentStep(s, step);
    case Vanish(name) => EnvironmentStep(s, step);
    case ConfigMapChange(e) => EnvironmentStep(s, step);
  }

  /** Every step keeps the invariant and leads to a later world. */
  lemma StepOk(s: Sys, step: Step)
    requires Inv(s) && Enabled(s, step)
    ensures Inv(Apply(s, step)) && Later(s.world, Apply(s, step).world)
  {
    hide TaskOk, WorldOk, Later, WorldAfter, TaskAfter, Enabled;
    StepIsGood(s, step);
    var s' := Apply(s, step);
    forall id | id in s'.tasks ensures TaskOk(s'.world, s'.tasks[id]) {
      if Environment(step) || id != step.id {
        TaskKept(s.world, s'.world, s.tasks[id]);
      }
    }
  }

  // ------------------------------------------------------ whole runs

  lemma {:induction false} RunOk(s: Sys, steps: seq<Step>)
    requires Inv(s) && Legal(s, steps)
    ensures Inv(Run(s, steps)) && Later(s.world, Run(s, steps).world)
    decreases |steps|
  {
    hide Inv, Later, Enabled, Apply;
    if steps == [] {
      LaterReflexive(s);
    } else {
      StepOk(s, steps[0]);
      var s' := Apply(s, steps[0]);
      RunOk(s', steps[1..]);
      LaterTransitive(s.world, s'.world, Run(s', steps[1..]).world);
    }
  }

  lemma LaterReflexive(s: Sys)
    requires Inv(s)
    ensures Later(s.world, s.world)
  {
    hide StoredOk;
    SameWorldLater(s.world, s.world);
  }

  /** The operator's states: whatever a run from the empty state reaches. */
  ghost predicate Reachable(s: Sys) {
    exists steps :: Legal(INIT, steps) && Run(INIT, steps) == s
  }

  lemma ReachableOk(s: Sys)
    requires Reachable(s)
    ensures Inv(s)
  {
    var steps :| Legal(INIT, steps) && Run(INIT, steps) == s;
    InitOk();
    RunOk(INIT, steps);
  }

  /** Between any two states of a run, the log of a request that is there in
      both was only appended to; once complete its record stays as it is. */
  lemma LogsOnlyGrow(s: Sys, steps: seq<Step>, n: string)
    requires Reachable(s) && Legal(s, steps)
    requires n in s.world.store && n in Run(s, steps).world.store
    ensures var before, after := s.world.store[n], Run(s, steps).world.store[n];
            && before.target == after.target
            && before.status.updates <= after.status.updates
            && (before.status.complete ==>
                  after.status.complete && after.status.result == before.status.result
                  && after.status.updates == before.status.updates)
  {
    hide StatusOk, TaskOk, AcceptedOk, Legal, Run;
    ReachableOk(s);
    RunOk(s, steps);
    assert StoredOk(s.world, n);
    assert KeptOrRewritten(s.world, Run(s, steps).world, n);
  }

  /** A complete record ends with an entry of no method whose message is its result. */
  lemma CompleteRecordsEndWithTheirResult(s: Sys, n: string)
    requires Reachable(s) && n in s.world.store
    ensures var st := s.world.store[n].status;
            if st.complete then
              |st.updates| > 0
              && st.updates[|st.updates| - 1].methodName == ""
              && st.updates[|st.updates| - 1].message == st.result
              && (st.result == COMPLETE || st.result == GIVING_UP || st.result == NO_CONFIG)
            else st.result == ""
  {
    ReachableOk(s);
    assert StoredOk(s.world, n);
  }

  /** A stored "Complete" was earned: some handler judged an open copy of the
      request with an event of a job owned by it, for its target, with none
      active, none failed and some succeeded; if that copy had an active job, it
      was that very one; and the log is that copy's log closed with that job. */
  lemma CompleteIsEarned(s: Sys, n: string) returns (e: Completion)
    requires Reachable(s) && n in s.world.store && s.world.store[n].status.result == COMPLETE
    ensures e in s.world.completions && e.job in s.world.delivered
    ensures e.copy.name == n && e.copy.target == s.world.store[n].target && !e.copy.status.complete
    ensures e.job.owner == Some(n) && TargetOf(e.job) == s.world.store[n].target
    ensures e.job.active == 0 && e.job.failed == 0 && e.job.succeeded != 0
    ensures e.copy.status.activeJob.Some? ==> e.copy.status.activeJob.value == e.job.name
    ensures s.world.store[n].status.updates ==
            e.copy.status.updates + [Entry("", COMPLETE, JobDone(e.job.name))]
  {
    ReachableOk(s);
    assert StoredOk(s.world, n);
    var st := s.world.store[n].status;
    var i :| 0 <= i < |s.world.completions|
             && Closes(s.world, s.world.completions[i], n, s.world.store[n].target, st.updates);
    e := s.world.completions[i];
  }

  /** A stored "GivingUp" goes back to a handler that held an open copy of the
      request and could not schedule the last method of the configuration it had
      chosen; and the log is that copy's log closed with that result. */
  lemma GivingUpIsLast(s: Sys, n: string) returns (e: Surrender)
    requires Reachable(s) && n in s.world.store && s.world.store[n].status.result == GIVING_UP
    ensures e in s.world.surrenders
    ensures e.copy.name == n && e.copy.target == s.world.store[n].target && !e.copy.status.complete
    ensures e.copy.status.config == Some(e.cfg.name)
    ensures e.cfg.methods != [] && e.plan == e.cfg.methods[|e.cfg.methods| - 1]
    ensures s.world.store[n].status.updates == e.copy.status.updates + [Entry("", GIVING_UP, Failure)]
  {
    ReachableOk(s);
    assert StoredOk(s.world, n);
    var st := s.world.store[n].status;
    var i :| 0 <= i < |s.world.surrenders|
             && Abandons(s.world.surrenders[i], n, s.world.store[n].target, st.updates);
    e := s.world.surrenders[i];
  }

  // ------------------------------------------------ jobs and the log

  /** The jobs a log says were started. */
  function StartedJobs(updates: seq<Entry>): set<string> {
    if updates == [] then {}
    else
      var e := updates[|updates| - 1];
      StartedJobs(updates[..|updates| - 1]) + if NamesJob(e) then {e.detail.job} else {}
  }

  lemma {:induction false} StartedJob(updates: seq<Entry>, job: string)
    ensures job in StartedJobs(updates) <==>
            exists i :: 0 <= i < |updates| && NamesJob(updates[i]) && updates[i].detail.job == job
  {
    if updates != [] {
      var n := |updates| - 1;
      StartedJob(updates[..n], job);
      assert forall i :: 0 <= i < n ==> updates[..n][i] == updates[i];
    }
  }

  function StartedCount(updates: seq<Entry>): nat {
    if updates == [] then 0
    else StartedCount(updates[..|updates| - 1]) + if NamesJob(updates[|updates| - 1]) then 1 else 0
  }

  /** The jobs the server accepted for a request. */
  function JobsOf(accepted: seq<Accepted>, name: string): set<string> {
    set i | 0 <= i < |accepted| && accepted[i].copy.name == name :: accepted[i].job
  }

  lemma {:induction false} UnnamedPrefix(updates: seq<Entry>, n: nat)
    requires n <= |updates|
    ensures Unnamed(updates[..n]) <= Unnamed(updates)
    decreases |updates|
  {
    if n < |updates| {
      var front := updates[..|updates| - 1];
      UnnamedPrefix(front, n);
      assert front[..n] == updates[..n];
    } else {
      assert updates[..n] == updates;
    }
  }

  lemma BackedPrefix(w: World, name: string, updates: seq<Entry>, n: nat)
    requires Backed(w, name, updates) && n <= |updates|
    ensures Backed(w, name, updates[..n])
  {
    hide AcceptedFor;
    UnnamedPrefix(updates, n);
  }

  lemma {:induction false} CountedOnce(w: World, name: string, updates: seq<Entry>)
    requires Backed(w, name, updates)
    ensures |StartedJobs(updates)| == StartedCount(updates)
  {
    hide AcceptedFor;
    if updates != [] {
      var n := |updates| - 1;
      var front := updates[..n];
      BackedPrefix(w, name, updates, n);
      CountedOnce(w, name, front);
      if NamesJob(updates[n]) {
        StartedJob(front, updates[n].detail.job);
        assert forall i :: 0 <= i < n ==> front[i] == updates[i];
      }
    }
  }

  lemma SubsetSize<T>(a: set<T>, b: set<T>)
    requires a <= b
    ensures |a| <= |b|
  {
    assert b == a + (b - a);
  }

  /** All "initiated as" entries, named or not. */
  function InitiatedCount(updates: seq<Entry>): nat {
    if updates == [] then 0
    else InitiatedCount(updates[..|updates| - 1]) + if updates[|updates| - 1].detail.Initiated? then 1 else 0
  }

  lemma {:induction false} InitiatedSplit(updates: seq<Entry>)
    ensures InitiatedCount(updates) == StartedCount(updates) + Unnamed(updates)
  {
    if updates != [] {
      InitiatedSplit(updates[..|updates| - 1]);
    }
  }

  lemma {:induction false} UnnamedEntry(updates: seq<Entry>)
    ensures Unnamed(updates) > 0 <==>
            exists i :: 0 <= i < |updates| && updates[i].detail.Initiated? && updates[i].detail.job == ""
  {
    if updates != [] {
      var n := |updates| - 1;
      UnnamedEntry(updates[..n]);
      assert forall i :: 0 <= i < n ==> updates[..n][i] == updates[i];
    }
  }

  lemma BackedBounds(w: World, name: string, updates: seq<Entry>)
    requires Backed(w, name, updates)
    ensures StartedJobs(updates) <= JobsOf(w.accepted, name)
    ensures StartedCount(updates) <= |JobsOf(w.accepted, name)|
  {
    forall j | j in StartedJobs(updates) ensures j in JobsOf(w.accepted, name) {
      StartedJob(updates, j);
      assert AcceptedFor(w, name, j);
    }
    CountedOnce(w, name, updates);
    SubsetSize(StartedJobs(updates), JobsOf(w.accepted, name));
  }

  /** The log of a request, stored or in a copy in flight. */
  ghost predicate LogOf(s: Sys, n: string, updates: seq<Entry>) {
    || (n in s.world.store && updates == s.world.store[n].status.updates)
    || (exists id :: id in s.tasks && HasCopy(s.tasks[id])
                     && s.tasks[id].copy.name == n && s.tasks[id].copy.status.updates == updates)
  }

  lemma LogIsBacked(s: Sys, n: string, updates: seq<Entry>)
    requires Reachable(s) && LogOf(s, n, updates)
    ensures Backed(s.world, n, updates) && WorldOk(s.world)
  {
    hide Reachable, Earned, Shape, Backed;
    ReachableOk(s);
    if n in s.world.store && updates == s.world.store[n].status.updates {
      assert StoredOk(s.world, n);
    } else {
      var id :| id in s.tasks && HasCopy(s.tasks[id])
                && s.tasks[id].copy.name == n && s.tasks[id].copy.status.updates == updates;
      assert TaskOk(s.world, s.tasks[id]);
    }
  }

  /** In the store and in every copy in flight: the entries that name a job name
      different ones, all accepted for the request, and all "initiated as"
      entries together are not more than the jobs accepted for it plus the
      creations answered AlreadyExists, which are logged without a name. */
  lemma JobsAreConserved(s: Sys, n: string, updates: seq<Entry>)
    requires Reachable(s) && LogOf(s, n, updates)
    ensures forall i, j :: 0 <= i < j < |updates| && NamesJob(updates[i]) && NamesJob(updates[j]) ==>
              updates[i].detail.job != updates[j].detail.job
    ensures StartedJobs(updates) <= JobsOf(s.world.accepted, n)
    ensures InitiatedCount(updates) <= |JobsOf(s.world.accepted, n)| + Refusals(s.world.refused, n)
  {
    hide Reachable, LogOf, WorldOk;
    LogIsBacked(s, n, updates);
    BackedBounds(s.world, n, updates);
    InitiatedSplit(updates);
  }

  /** Every "initiated as" entry of a log names an accepted job exactly when the
      log records no creation that was answered AlreadyExists; with no such
      answer for the request, the entries are not more than its jobs. */
  lemma JobsAreConservedExactly(s: Sys, n: string, updates: seq<Entry>)
    requires Reachable(s) && LogOf(s, n, updates)
    ensures (forall i :: 0 <= i < |updates| && updates[i].detail.Initiated? ==>
               AcceptedFor(s.world, n, updates[i].detail.job))
       <==> Unnamed(updates) == 0
    ensures Refusals(s.world.refused, n) == 0 ==>
              Unnamed(updates) == 0 && InitiatedCount(updates) <= |JobsOf(s.world.accepted, n)|
  {
    hide Reachable, LogOf, AcceptedOk, StoredOk;
    LogIsBacked(s, n, updates);
    UnnamedEntry(updates);
    JobsAreConserved(s, n, updates);
  }

  // -------------------------------------------------- single flight

  /** When a job was created after a successful listing, no job that an earlier
      creation had labelled for the same request, configuration and method was
      active in that listing (for an unnamed method: no job of the request and
      configuration at all). */
  lemma SingleFlight(s: Sys, i: nat, j: string, earlier: Copy, methodName: string)
    requires Reachable(s) && i < |s.world.accepted|
    requires s.world.accepted[i].listing.Some? && j in s.world.accepted[i].listing.value
    requires s.world.accepted[i].listing.value[j].labels == JobLabels(earlier, methodName)
    requires earlier.name == s.world.accepted[i].copy.name && earlier.target == s.world.accepted[i].copy.target
    requires earlier.status.config == Some(s.world.accepted[i].cfg.name)
    requires s.world.accepted[i].plan.name == "" || s.world.accepted[i].plan.name == methodName
    ensures s.world.accepted[i].listing.value[j].active == 0
  {
    hide JobLabels;
    ReachableOk(s);
    var a := s.world.accepted[i];
    assert AcceptedOk(a);
    SelectorExact(a.copy, a.plan.name, earlier, methodName);
  }

  /** So a second job for a request, configuration and method starts beside an
      active first one only if the listing made for it failed or did not show
      the first one under its labels, or showed it idle. */
  lemma SecondJobWaits(s: Sys, i: nat, k: nat)
    requires Reachable(s) && i < k < |s.world.accepted|
    requires var a, b := s.world.accepted[i], s.world.accepted[k];
             && a.copy.name == b.copy.name && a.copy.target == b.copy.target
             && a.cfg.name == b.cfg.name && a.plan.name == b.plan.name
             && b.listing.Some? && a.job in b.listing.value
             && b.listing.value[a.job].labels == JobLabels(a.copy, a.plan.name)
    ensures s.world.accepted[k].listing.value[s.world.accepted[i].job].active == 0
  {
    hide JobLabels, Reachable;
    ReachableOk(s);
    var a := s.world.accepted[i];
    assert AcceptedOk(a);
    SingleFlight(s, k, a.job, a.copy, a.plan.name);
  }

  /** No handler ever sets ActiveMethod, so every job any run creates is for the
      first method of its configuration: no fallback method is ever scheduled. */
  lemma OnlyFirstMethodsRun(s: Sys, i: nat)
    requires Reachable(s) && i < |s.world.accepted|
    ensures var a := s.world.accepted[i];
            |a.cfg.methods| > 0 && a.plan == a.cfg.methods[0] && a.copy.status.config == Some(a.cfg.name)
  {
    ReachableOk(s);
    assert AcceptedOk(s.world.accepted[i]);
  }

  /** Both failures and successes with none active: for an open request this
      job event always ends in a nil dereference. */
  lemma MixedJobPanics(s: Sys, id: nat)
    requires Reachable(s) && Enabled(s, Judge(id))
    ensures s.tasks[id].job.active == 0 && s.tasks[id].job.failed != 0 && s.tasks[id].job.succeeded != 0
            && !s.tasks[id].copy.status.complete
            && (s.tasks[id].copy.status.activeJob.None?
                || s.tasks[id].copy.status.activeJob.value == s.tasks[id].job.name)
       <==> Apply(s, Judge(id)).tasks[id] == Ended(Panicked)
  {
    ReachableOk(s);
    assert TaskOk(s.world, s.tasks[id]);
  }
}
