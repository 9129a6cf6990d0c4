/** A handler in conversation with the API server.

    A script says everything a handler does not decide: what the server answers
    to its n-th call, what the others do before that call takes effect, and in
    which order Go ranges over a map.  Once the script is fixed, a handler's run
    is fixed too; what is proved for every script holds for every answer and
    every interleaving. */
module Conversation {
  import opened Options
  import opened Mechanisms
  import opened Requests
  import opened JobBuilder
  import opened Registry
  import opened Selection
  import opened Controller
  import opened Safety

  // -------------------------------------------------------------- paths

  ghost predicate Reaches(s: Sys, s': Sys) {
    exists steps :: Legal(s, steps) && Run(s, steps) == s'
  }

  lemma Stay(s: Sys)
    ensures Reaches(s, s)
  {
    assert Legal(s, []) && Run(s, []) == s;
  }

  lemma Follow(s: Sys, s': Sys, s'': Sys)
    requires Reaches(s, s') && Reaches(s', s'')
    ensures Reaches(s, s'')
  {
    hide Legal, Run;
    var a :| Legal(s, a) && Run(s, a) == s';
    var b :| Legal(s', b) && Run(s', b) == s'';
    RunConcat(s, a, b);
  }

  lemma Move(s: Sys, step: Step)
    requires Enabled(s, step)
    ensures Reaches(s, Apply(s, step))
  {
    hide Enabled, Apply;
    assert Legal(Apply(s, step), []);
    assert [step][1..] == [];
    assert Legal(s, [step]) && Run(s, [step]) == Apply(s, step);
  }

  /** Whatever every run keeps, every path keeps. */
  lemma PathsAreSafe(s: Sys, s': Sys)
    requires Inv(s) && Reaches(s, s')
    ensures Inv(s') && Later(s.world, s'.world)
  {
    hide Inv, Later, Legal, Run;
    var steps :| Legal(s, steps) && Run(s, steps) == s';
    RunOk(s, steps);
  }

  // ------------------------------------------------------------ scripts

  /** One answer of the server; a call reads the part that concerns it.  node
      is whether getNode succeeded, ok whether a listing or a deletion did. */
  datatype Answer = Answer(node: bool, ok: bool, listings: Listings, create: CreateReply, update: UpdateReply)

  /** range is the order in which a range over a map, or a list from the server, comes. */
  datatype Script = Script(
    answer: nat -> Answer, others: nat -> seq<Step>, range: (nat, set<string>) -> seq<string>)

  /** Every key comes once. */
  ghost predicate Fair(script: Script) {
    forall n: nat, names: set<string> :: Permutes(script.range(n, names), names)
  }

  predicate ByOthers(step: Step, me: nat) {
    Environment(step) || step.id != me
  }

  /** The others' steps, as far as they are possible when their turn comes. */
  function Play(s: Sys, steps: seq<Step>, me: nat): (r: Sys)
    ensures me in r.tasks <==> me in s.tasks
    ensures me in s.tasks ==> r.tasks[me] == s.tasks[me]
    decreases |steps|
  {
    if steps == [] then s
    else Play(if ByOthers(steps[0], me) && Enabled(s, steps[0]) then Apply(s, steps[0]) else s, steps[1..], me)
  }

  /** Scripts leave nothing out: every run of the others is played by one. */
  lemma {:induction false} EveryRunIsPlayed(s: Sys, steps: seq<Step>, me: nat)
    requires Legal(s, steps) && forall i :: 0 <= i < |steps| ==> ByOthers(steps[i], me)
    ensures Play(s, steps, me) == Run(s, steps)
    decreases |steps|
  {
    hide Enabled, Apply;
    if steps != [] {
      EveryRunIsPlayed(Apply(s, steps[0]), steps[1..], me);
    }
  }

  /** And they add nothing: what is played is a run. */
  lemma {:induction false} PlayIsARun(s: Sys, steps: seq<Step>, me: nat)
    ensures Reaches(s, Play(s, steps, me))
    decreases |steps|
  {
    hide Enabled, Apply, Reaches;
    Stay(s);
    if steps != [] {
      PlayIsARun(s, steps[1..], me);
      if ByOthers(steps[0], me) && Enabled(s, steps[0]) {
        Move(s, steps[0]);
        PlayIsARun(Apply(s, steps[0]), steps[1..], me);
        Follow(s, Apply(s, steps[0]), Play(s, steps, me));
      }
    }
  }

  // --------------------------------------------- one handler, one script

  /** A state, and how many calls the handler has made. */
  datatype Point = Point(sys: Sys, turn: nat)

  /** The state in which the next call takes effect. */
  function Waited(p: Point, script: Script, me: nat): Sys {
    Play(p.sys, script.others(p.turn), me)
  }

  predicate Done(t: Task) {
    t.Ended? || (t.Cancel? && t.pending == [])
  }

  /** Pieces that make no call and read nothing the others write. */
  predicate Quiet(t: Task) {
    || t.JudgeJob?
    || (t.JobArrived? && t.job.owner.None?)
    || (t.Request? && t.copy.status.complete)
    || (t.PickMethod? && !Asks(t))
  }

  /** A name is granted only if it is new. */
  function GrantedJob(w: World, reply: CreateReply): CreateReply {
    if (reply.Created? || reply.CreatedUnread?) && !FreshJob(w, reply.name) then Rejected else reply
  }

  function GrantedRequest(w: World, reply: CreateReply): CreateReply {
    if (reply.Created? || reply.CreatedUnread?) && !FreshRequest(w, reply.name) then Rejected else reply
  }

  /** The handler's next step, with the answer of its n-th call. */
  function MyStep(s: Sys, script: Script, n: nat, me: nat): (step: Step)
    requires Fair(script) && me in s.tasks && !Done(s.tasks[me])
    ensures Enabled(s, step) && !Environment(step) && step.id == me
  {
    var a := script.answer(n);
    match s.tasks[me]
    case JobArrived(_) => LoadRequest(me, a.node && a.ok)
    case JudgeJob(_, _) => Judge(me)
    case Request(_) => ChooseCfg(me, script.range(n, s.world.configs.Keys), a.listings)
    case PickMethod(_, _, _, _) => PickNext(me, a.ok)
    case CheckActive(_, _, _, _) => Check(me, a.ok)
    case CreateJob(_, _, _, _, _) => Create(me, GrantedJob(s.world, a.create))
    case Save(_, _) => SaveStatus(me, a.update)
    case PostRequest(_) => Post(me, GrantedRequest(s.world, a.create))
    case Cancel(_, _, _, _) => DeleteNext(me, a.ok)
  }

  ghost predicate Active(p: Point, me: nat) {
    me in p.sys.tasks && !Done(p.sys.tasks[me])
  }

  /** One piece of the handler, the others having acted if it makes a call. */
  ghost function Turned(p: Point, script: Script, me: nat): (q: Point)
    requires Fair(script) && Active(p, me)
    ensures me in q.sys.tasks
  {
    if Quiet(p.sys.tasks[me]) then Point(Apply(p.sys, MyStep(p.sys, script, p.turn, me)), p.turn)
    else
      var s := Waited(p, script, me);
      Point(Apply(s, MyStep(s, script, p.turn, me)), p.turn + 1)
  }

  function Stage(t: Task): nat {
    match t
    case JobArrived(_) => 8
    case JudgeJob(_, _) => 7
    case Save(_, after) => if after.ToRequest? then 6 else 1
    case Request(_) => 5
    case PickMethod(_, _, _, _) => 4
    case CheckActive(_, _, _, _) => 3
    case CreateJob(_, _, _, _, _) => 2
    case PostRequest(_) => 1
    case Cancel(_, _, _, _) => 1
    case Ended(_) => 0
  }

  function Left(t: Task): nat {
    if t.PickMethod? && t.pos < |t.cfg.methods| then |t.cfg.methods| - t.pos
    else if t.Cancel? then |t.pending|
    else 0
  }

  lemma TurnedDecreases(p: Point, script: Script, me: nat)
    requires Fair(script) && Active(p, me)
    ensures var t, t' := p.sys.tasks[me], Turned(p, script, me).sys.tasks[me];
            Stage(t') < Stage(t) || (Stage(t') == Stage(t) && Left(t') < Left(t))
  {
    hide ChooseConfig, HasActive, CanBuild, JobLabels, Fair;
  }

  /** The handler's whole run from a point of it to its end. */
  ghost function Drive(p: Point, script: Script, me: nat): (q: Point)
    requires Fair(script) && me in p.sys.tasks
    ensures me in q.sys.tasks && Done(q.sys.tasks[me]) && p.turn <= q.turn
    decreases Stage(p.sys.tasks[me]), Left(p.sys.tasks[me])
  {
    if Done(p.sys.tasks[me]) then p
    else
      TurnedDecreases(p, script, me);
      Drive(Turned(p, script, me), script, me)
  }

  lemma TurnIsARun(p: Point, script: Script, me: nat)
    requires Fair(script) && Active(p, me)
    ensures Reaches(p.sys, Turned(p, script, me).sys)
  {
    hide Reaches, Enabled, Apply, Fair;
    if Quiet(p.sys.tasks[me]) {
      Move(p.sys, MyStep(p.sys, script, p.turn, me));
    } else {
      var s := Waited(p, script, me);
      PlayIsARun(p.sys, script.others(p.turn), me);
      Move(s, MyStep(s, script, p.turn, me));
      Follow(p.sys, s, Turned(p, script, me).sys);
    }
  }

  /** A handler's run is a run of the system, so what holds of all runs holds of it. */
  lemma {:induction false} DriveIsARun(p: Point, script: Script, me: nat)
    requires Fair(script) && me in p.sys.tasks
    ensures Reaches(p.sys, Drive(p, script, me).sys)
    decreases Stage(p.sys.tasks[me]), Left(p.sys.tasks[me])
  {
    hide Reaches, Turned, Fair;
    if Done(p.sys.tasks[me]) {
      Stay(p.sys);
    } else {
      TurnedDecreases(p, script, me);
      TurnIsARun(p, script, me);
      DriveIsARun(Turned(p, script, me), script, me);
      Follow(p.sys, Turned(p, script, me).sys, Drive(p, script, me).sys);
    }
  }

  /** From any state of a run a handler leads, under every script, to one where
      the invariant holds, in a later world. */
  lemma DriveIsSafe(p: Point, script: Script, me: nat)
    requires Fair(script) && Inv(p.sys) && me in p.sys.tasks
    ensures Inv(Drive(p, script, me).sys) && Later(p.sys.world, Drive(p, script, me).sys.world)
  {
    hide Inv, Later, Reaches, Drive;
    DriveIsARun(p, script, me);
    PathsAreSafe(p.sys, Drive(p, script, me).sys);
  }

  /** A handler's end is the end of what it has left to do at any point. */
  lemma DriveTurns(p: Point, script: Script, me: nat)
    requires Fair(script) && Active(p, me)
    ensures Drive(p, script, me) == Drive(Turned(p, script, me), script, me)
  {
  }

  lemma DriveEnds(p: Point, script: Script, me: nat)
    requires Fair(script) && me in p.sys.tasks && Done(p.sys.tasks[me])
    ensures Drive(p, script, me) == p
  {
  }

  /** The configuration a handler of an open request is given. */
  ghost function FirstChoice(p: Point, script: Script, me: nat): Choice
    requires Fair(script) && me in p.sys.tasks && p.sys.tasks[me].Request?
  {
    var w, c := Waited(p, script, me).world, p.sys.tasks[me].copy;
    ChooseConfig(w.configs, c.status.config, script.range(p.turn, w.configs.Keys), c.target,
                 script.answer(p.turn).listings)
  }

  lemma ChoiceMoves(p: Point, script: Script, me: nat)
    requires Fair(script) && me in p.sys.tasks && p.sys.tasks[me].Request? && !p.sys.tasks[me].copy.status.complete
    ensures var s := Waited(p, script, me);
            var step := ChooseCfg(me, script.range(p.turn, s.world.configs.Keys), script.answer(p.turn).listings);
            && Enabled(s, step) && WorldAfter(s, step) == s.world
            && TaskAfter(s, step) == AfterChoice(p.sys.tasks[me].copy, s.world.configs, FirstChoice(p, script, me))
            && Turned(p, script, me) == Point(Apply(s, step), p.turn + 1)
  {
    hide Play, ChooseConfig, AfterChoice;
  }

  /** The registry that choice is made from, with the nodes as they then are, is orderly. */
  ghost predicate OrderlyChoice(p: Point, script: Script, me: nat)
    requires me in p.sys.tasks && p.sys.tasks[me].Request?
  {
    var c := p.sys.tasks[me].copy;
    Orderly(Waited(p, script, me).world.configs, c.status.config, c.target, script.answer(p.turn).listings)
  }

  lemma OrderlyIsNotFatal(p: Point, script: Script, me: nat)
    requires Fair(script) && me in p.sys.tasks && p.sys.tasks[me].Request?
    ensures OrderlyChoice(p, script, me) ==> !Fatal(FirstChoice(p, script, me))
  {
    hide Play, ChooseConfig, Orderly;
    var w, c := Waited(p, script, me).world, p.sys.tasks[me].copy;
    OrderlyExactly(w.configs, c.status.config, c.target, script.answer(p.turn).listings);
  }

  lemma CheckMoves(p: Point, script: Script, me: nat)
    requires Fair(script) && me in p.sys.tasks && p.sys.tasks[me].CheckActive?
    ensures var s, step := Waited(p, script, me), Check(me, script.answer(p.turn).ok);
            && Enabled(s, step)
            && WorldAfter(s, step) == CheckedWorld(s.world, p.sys.tasks[me], script.answer(p.turn).ok)
            && TaskAfter(s, step) == Checked(s.world, p.sys.tasks[me], script.answer(p.turn).ok)
            && Turned(p, script, me) == Point(Apply(s, step), p.turn + 1)
  {
    hide Fair, Play, Checked, CheckedWorld;
  }

  // --------------------------------------------- the loop over methods

  /** The run from inside the loop of chooseFencingMethod to its end. */
  ghost function LoopEnd(p: Point, script: Script, me: nat): (q: Point)
    requires Fair(script) && me in p.sys.tasks
    ensures me in q.sys.tasks
    decreases Stage(p.sys.tasks[me]), Left(p.sys.tasks[me])
  {
    if !p.sys.tasks[me].PickMethod? then p
    else
      TurnedDecreases(p, script, me);
      LoopEnd(Turned(p, script, me), script, me)
  }

  lemma {:induction false} LoopDrives(p: Point, script: Script, me: nat)
    requires Fair(script) && me in p.sys.tasks
    ensures Drive(LoopEnd(p, script, me), script, me) == Drive(p, script, me)
    decreases Stage(p.sys.tasks[me]), Left(p.sys.tasks[me])
  {
    hide Turned, Fair;
    if p.sys.tasks[me].PickMethod? {
      TurnedDecreases(p, script, me);
      LoopDrives(Turned(p, script, me), script, me);
    }
  }

  /** What the server says of jobs for a method, should the loop ask at its position. */
  ghost predicate HearsActive(p: Point, script: Script, me: nat)
    requires me in p.sys.tasks && p.sys.tasks[me].PickMethod?
  {
    var t := p.sys.tasks[me];
    && Asks(t)
    && script.answer(p.turn).ok
    && HasActive(Waited(p, script, me).world.jobs, JobLabels(t.copy, t.cfg.methods[t.pos].name))
  }

  lemma LoopTurn(p: Point, script: Script, me: nat)
    requires Fair(script) && me in p.sys.tasks && p.sys.tasks[me].PickMethod?
    ensures var t, t', hears := p.sys.tasks[me], Turned(p, script, me).sys.tasks[me], HearsActive(p, script, me);
            if t.pos >= |t.cfg.methods| then t' == Ended(Panicked)
            else if t.copy.status.activeMethod.None? || hears || (t.next && !Asks(t)) then
              t' == CheckActive(t.copy, t.cfg, t.cfg.methods[t.pos], t.pos + 1 == |t.cfg.methods|)
            else t' == t.(pos := t.pos + 1, next := t.next || Asks(t))
    ensures HearsActive(p, script, me) ==> Asks(p.sys.tasks[me])
    ensures !Asks(p.sys.tasks[me]) ==>
              var q := Turned(p, script, me);
              q.turn == p.turn && q.sys == Sys(p.sys.world, p.sys.tasks[me := q.sys.tasks[me]])
  {
    hide JobLabels, HasActive, Fair, Play;
  }

  /** What the loop hears, position by position; where it does not ask, nothing. */
  ghost function Heard(p: Point, script: Script, me: nat): (answers: seq<bool>)
    requires Fair(script) && me in p.sys.tasks && p.sys.tasks[me].PickMethod?
    requires p.sys.tasks[me].pos <= |p.sys.tasks[me].cfg.methods|
    ensures |answers| == |p.sys.tasks[me].cfg.methods| - p.sys.tasks[me].pos
    decreases |p.sys.tasks[me].cfg.methods| - p.sys.tasks[me].pos
  {
    var t, q := p.sys.tasks[me], Turned(p, script, me);
    LoopTurn(p, script, me);
    if t.pos == |t.cfg.methods| then []
    else
      [HearsActive(p, script, me)] +
      if q.sys.tasks[me].PickMethod? then Heard(q, script, me) else Idle(|t.cfg.methods| - t.pos - 1)
  }

  lemma HeardTurns(p: Point, script: Script, me: nat)
    requires Fair(script) && me in p.sys.tasks && p.sys.tasks[me].PickMethod?
    requires p.sys.tasks[me].pos < |p.sys.tasks[me].cfg.methods|
    ensures var t, t' := p.sys.tasks[me], Turned(p, script, me).sys.tasks[me];
            var heard := Heard(p, script, me);
            && heard[0] == HearsActive(p, script, me)
            && (t'.PickMethod? ==>
                  && t'.cfg == t.cfg && t'.pos == t.pos + 1
                  && heard == [heard[0]] + Heard(Turned(p, script, me), script, me))
  {
    hide Turned, Fair, HearsActive;
    LoopTurn(p, script, me);
  }

  /** The loop ends at the method that the choice on values gives for what it heard. */
  lemma {:induction false} LoopPicks(p: Point, script: Script, me: nat, before: seq<bool>)
    requires Fair(script) && me in p.sys.tasks && p.sys.tasks[me].PickMethod?
    requires |before| == p.sys.tasks[me].pos <= |p.sys.tasks[me].cfg.methods|
    ensures var t := p.sys.tasks[me];
            var r := PickFrom(Names(t.cfg.methods), t.copy.status.activeMethod,
                              before + Heard(p, script, me), t.pos, t.next);
            LoopEnd(p, script, me).sys.tasks[me] ==
              if r.None? then Ended(Panicked)
              else CheckActive(t.copy, t.cfg, t.cfg.methods[r.value], r.value + 1 == |t.cfg.methods|)
    decreases |p.sys.tasks[me].cfg.methods| - p.sys.tasks[me].pos
  {
    hide Turned, Fair, HearsActive, Names, Heard, LoopEnd;
    var t, q := p.sys.tasks[me], Turned(p, script, me);
    LoopTurn(p, script, me);
    LoopTurns(p, script, me);
    LoopTurns(q, script, me);
    if t.pos < |t.cfg.methods| {
      HeardTurns(p, script, me);
      var heard := Heard(p, script, me);
      assert (before + heard)[t.pos] == heard[0];
      if q.sys.tasks[me].PickMethod? {
        LoopPicks(q, script, me, before + [heard[0]]);
        assert before + heard == before + [heard[0]] + Heard(q, script, me);
      }
    }
  }

  /** The same with the last flag, as chooseFencingMethod returns it. */
  lemma LoopChooses(p: Point, script: Script, me: nat)
    requires Fair(script) && me in p.sys.tasks && p.sys.tasks[me].PickMethod?
    requires p.sys.tasks[me].pos == 0 && !p.sys.tasks[me].next
    ensures var t := p.sys.tasks[me];
            var choice := ChooseMethod(t.cfg.methods, t.copy.status.activeMethod, Heard(p, script, me));
            LoopEnd(p, script, me).sys.tasks[me] ==
              if choice.None? then Ended(Panicked)
              else CheckActive(t.copy, t.cfg, choice.value.0, choice.value.1)
  {
    hide PickFrom, Fair, Heard, LoopEnd;
    LoopPicks(p, script, me, []);
    assert [] + Heard(p, script, me) == Heard(p, script, me);
  }

  lemma LoopTurns(p: Point, script: Script, me: nat)
    requires Fair(script) && me in p.sys.tasks
    ensures LoopEnd(p, script, me) ==
            if p.sys.tasks[me].PickMethod? then LoopEnd(Turned(p, script, me), script, me) else p
  {
  }

  lemma LoopAsks(p: Point, script: Script, me: nat)
    requires Fair(script) && me in p.sys.tasks && p.sys.tasks[me].PickMethod? && Asks(p.sys.tasks[me])
    ensures var s, step := Waited(p, script, me), PickNext(me, script.answer(p.turn).ok);
            && Enabled(s, step) && WorldAfter(s, step) == s.world
            && Turned(p, script, me) == Point(Apply(s, step), p.turn + 1)
  {
    hide Fair, Play, JobLabels, HasActive;
  }

  ghost function Placed(s: Sys, me: nat, t: Task): Sys {
    Sys(s.world, s.tasks[me := t])
  }

  lemma PlacedStep(s: Sys, step: Step, me: nat, t: Task)
    requires ByOthers(step, me)
    ensures Enabled(Placed(s, me, t), step) == Enabled(s, step)
    ensures Enabled(s, step) ==> Apply(Placed(s, me, t), step) == Placed(Apply(s, step), me, t)
  {
    hide FreshJob, FreshRequest, Permutes, JobLabels, ChooseConfig, CanBuild, HasActive;
    hide AfterChoice, Judged, Checked, AfterCreate, AfterCreateWorld, Written, Reread, Picked, Loaded, AfterEvent;
    if Enabled(s, step) && !Environment(step) {
      assert TaskAfter(Placed(s, me, t), step) == TaskAfter(s, step);
      assert s.tasks[me := t][step.id := TaskAfter(s, step)] == s.tasks[step.id := TaskAfter(s, step)][me := t];
    }
  }

  /** Where this handler stands makes no difference to what the others do. */
  lemma {:induction false} PlayPlaced(s: Sys, steps: seq<Step>, me: nat, t: Task)
    ensures Play(Placed(s, me, t), steps, me) == Placed(Play(s, steps, me), me, t)
    decreases |steps|
  {
    hide Enabled, Apply, Placed;
    if steps != [] {
      var next := if ByOthers(steps[0], me) && Enabled(s, steps[0]) then Apply(s, steps[0]) else s;
      if ByOthers(steps[0], me) {
        PlacedStep(s, steps[0], me, t);
      }
      PlayPlaced(next, steps[1..], me, t);
    }
  }

  /** The first question of the loop is put at the first position of the active method. */
  lemma {:induction false} FirstHeard(p: Point, script: Script, me: nat, f: nat)
    requires Fair(script) && me in p.sys.tasks && p.sys.tasks[me].PickMethod? && !p.sys.tasks[me].next
    requires p.sys.tasks[me].copy.status.activeMethod.Some?
    requires p.sys.tasks[me].pos <= f
    requires FirstAt(Names(p.sys.tasks[me].cfg.methods), p.sys.tasks[me].copy.status.activeMethod.value, f)
    ensures var t := p.sys.tasks[me];
            Heard(p, script, me)[f - t.pos] <==>
              && script.answer(p.turn).ok
              && HasActive(Waited(p, script, me).world.jobs, JobLabels(t.copy, t.copy.status.activeMethod.value))
    decreases f - p.sys.tasks[me].pos
  {
    hide HasActive, JobLabels, Play, Turned, Fair;
    var t := p.sys.tasks[me];
    if t.pos < f {
      var q := Turned(p, script, me);
      LoopTurn(p, script, me);
      assert q.sys == Placed(p.sys, me, q.sys.tasks[me]);
      PlayPlaced(p.sys, script.others(p.turn), me, q.sys.tasks[me]);
      FirstHeard(q, script, me, f);
      assert Heard(p, script, me)[f - t.pos] == Heard(q, script, me)[f - t.pos - 1];
    }
  }

  /** The loop leaves with the method at position r. */
  ghost predicate LeavesAt(p: Point, script: Script, me: nat, r: nat)
    requires Fair(script) && me in p.sys.tasks && p.sys.tasks[me].PickMethod?
  {
    var t := p.sys.tasks[me];
    r < |t.cfg.methods|
    && LoopEnd(p, script, me).sys.tasks[me] == CheckActive(t.copy, t.cfg, t.cfg.methods[r], r + 1 == |t.cfg.methods|)
  }

  /** An active job keeps the choice on its method: one listing, made for the
      first position of the active method, decides.  Otherwise the choice moves
      on behind that position, or there is none. */
  lemma ActiveJobKeepsMethod(p: Point, script: Script, me: nat, f: nat)
    requires Fair(script) && me in p.sys.tasks && p.sys.tasks[me].PickMethod?
    requires p.sys.tasks[me].pos == 0 && !p.sys.tasks[me].next
    requires p.sys.tasks[me].copy.status.activeMethod.Some?
    requires FirstAt(Names(p.sys.tasks[me].cfg.methods), p.sys.tasks[me].copy.status.activeMethod.value, f)
    ensures var t := p.sys.tasks[me];
            if script.answer(p.turn).ok
               && HasActive(Waited(p, script, me).world.jobs, JobLabels(t.copy, t.copy.status.activeMethod.value))
            then LeavesAt(p, script, me, f)
            else
              || LoopEnd(p, script, me).sys.tasks[me] == Ended(Panicked)
              || exists r :: f < r && LeavesAt(p, script, me, r)
  {
    hide HasActive, JobLabels, Play, Turned, Fair, LoopEnd;
    var t := p.sys.tasks[me];
    var names, active, heard := Names(t.cfg.methods), t.copy.status.activeMethod, Heard(p, script, me);
    LoopPicks(p, script, me, []);
    assert [] + heard == heard;
    FirstHeard(p, script, me, f);
    PickReaches(names, active.value, heard, 0, f);
    var r := PickFrom(names, active, heard, 0, false);
    if r.Some? {
      assert LeavesAt(p, script, me, r.value);
    }
  }

  // ------------------------------------------------ handlers that begin

  /** CreateFencingRequest from a free slot to its end. */
  ghost function CreateRun(p: Point, script: Script, me: nat, target: string): (q: Point)
    requires Fair(script) && Idling(p.sys, me)
    ensures Idling(q.sys, me) && p.turn <= q.turn
  {
    var s := Waited(p, script, me);
    var listed := Apply(s, ListForCreate(me, target, script.answer(p.turn).ok));
    Drive(Point(listed, p.turn + 1), script, me)
  }

  /** The listing of a cancellation. */
  function CancelListing(p: Point, script: Script, me: nat, target: string): (step: Step)
    requires Fair(script) && Idling(p.sys, me)
    ensures Enabled(Waited(p, script, me), step) && step.ListForCancel? && step.id == me && step.target == target
  {
    var s, ok := Waited(p, script, me), script.answer(p.turn).ok;
    ListForCancel(me, target, ok, script.range(p.turn, if ok then ListRequests(s.world, target) else {}))
  }

  ghost function CancelListed(p: Point, script: Script, me: nat, target: string): (q: Point)
    requires Fair(script) && Idling(p.sys, me)
    ensures me in q.sys.tasks
  {
    Point(Apply(Waited(p, script, me), CancelListing(p, script, me, target)), p.turn + 1)
  }

  /** CancelFencingRequests from a free slot to its end. */
  ghost function CancelRun(p: Point, script: Script, me: nat, target: string): (q: Point)
    requires Fair(script) && Idling(p.sys, me)
    ensures Idling(q.sys, me) && p.turn < q.turn
  {
    Drive(CancelListed(p, script, me, target), script, me)
  }

  /** The state in which a new request will be created, if it comes to that. */
  ghost function BeforePost(p: Point, script: Script, me: nat, target: string): Sys
    requires Fair(script) && Idling(p.sys, me)
  {
    var s := Waited(p, script, me);
    Play(Apply(s, ListForCreate(me, target, script.answer(p.turn).ok)), script.others(p.turn + 1), me)
  }

  lemma ListMoves(s: Sys, me: nat, target: string, ok: bool)
    requires Idling(s, me)
    ensures var step := ListForCreate(me, target, ok);
            && Enabled(s, step) && Apply(s, step).world == s.world && me in Apply(s, step).tasks
            && Apply(s, step).tasks[me] ==
                 if ok && CompleteListed(s.world, target) then Ended(Returned) else PostRequest(target)
  {
    hide CompleteListed, Idling;
  }

  lemma PostMoves(p: Point, script: Script, me: nat)
    requires Fair(script) && me in p.sys.tasks && p.sys.tasks[me].PostRequest?
    ensures var r := Waited(p, script, me);
            var post := Post(me, GrantedRequest(r.world, script.answer(p.turn).create));
            && Enabled(r, post) && Drive(p, script, me) == Point(Apply(r, post), p.turn + 1)
  {
    hide Play, Fair, FreshRequest;
    DriveTurns(p, script, me);
    DriveEnds(Turned(p, script, me), script, me);
  }

  /** What CreateFencingRequest comes to: after a good listing with a complete
      request, nothing; else one request if the server creates it, and no other change. */
  lemma CreateRunDoes(p: Point, script: Script, me: nat, target: string)
    requires Fair(script) && Idling(p.sys, me)
    ensures var s, q := Waited(p, script, me), CreateRun(p, script, me, target);
            var listed := Apply(s, ListForCreate(me, target, script.answer(p.turn).ok));
            && listed.world == s.world
            && me in listed.tasks
            && if script.answer(p.turn).ok && CompleteListed(s.world, target) then
                 q == Point(listed, p.turn + 1) && listed.tasks[me] == Ended(Returned)
               else
                 var r := BeforePost(p, script, me, target);
                 var post := Post(me, GrantedRequest(r.world, script.answer(p.turn + 1).create));
                 && listed.tasks[me] == PostRequest(target)
                 && Enabled(r, post) && q == Point(Apply(r, post), p.turn + 2)
  {
    hide Play, Fair, GrantedRequest, CompleteListed, Apply, Drive, Enabled;
    var s := Waited(p, script, me);
    ListMoves(s, me, target, script.answer(p.turn).ok);
    var l := Point(Apply(s, ListForCreate(me, target, script.answer(p.turn).ok)), p.turn + 1);
    if script.answer(p.turn).ok && CompleteListed(s.world, target) {
      DriveEnds(l, script, me);
    } else {
      PostMoves(l, script, me);
    }
  }

  lemma BeginIsARun(p: Point, script: Script, me: nat, target: string)
    requires Fair(script) && Idling(p.sys, me)
    ensures Reaches(p.sys, CreateRun(p, script, me, target).sys)
    ensures Reaches(p.sys, CancelListed(p, script, me, target).sys)
    ensures Reaches(p.sys, CancelRun(p, script, me, target).sys)
  {
    hide Reaches, Apply, Drive;
    var s := Waited(p, script, me);
    PlayIsARun(p.sys, script.others(p.turn), me);
    var create, cancel := ListForCreate(me, target, script.answer(p.turn).ok), CancelListing(p, script, me, target);
    Move(s, create);
    Move(s, cancel);
    Follow(p.sys, s, Apply(s, create));
    Follow(p.sys, s, Apply(s, cancel));
    InTasks(s, create);
    DriveIsARun(Point(Apply(s, create), p.turn + 1), script, me);
    DriveIsARun(CancelListed(p, script, me, target), script, me);
    Follow(p.sys, Apply(s, create), CreateRun(p, script, me, target).sys);
    Follow(p.sys, Apply(s, cancel), CancelRun(p, script, me, target).sys);
  }

  lemma InTasks(s: Sys, step: Step)
    requires Enabled(s, step) && !Environment(step)
    ensures step.id in Apply(s, step).tasks
  {
  }

  // --------------------------------------------------- cancelling a node

  lemma DeletionTurn(p: Point, script: Script, me: nat)
    requires Fair(script) && Active(p, me) && p.sys.tasks[me].Cancel?
    ensures var t, q, ok := p.sys.tasks[me], Turned(p, script, me), script.answer(p.turn).ok;
            && q.turn == p.turn + 1
            && q.sys.tasks[me] == Cancel(t.target, t.listed, t.pending[1..], t.allDeleted && ok)
            && (ok ==> t.pending[0] !in q.sys.world.store)
  {
    hide Fair;
  }

  lemma PendingIsUsed(s: Sys, id: nat)
    requires Inv(s) && id in s.tasks && s.tasks[id].Cancel? && s.tasks[id].pending != []
    ensures s.tasks[id].pending[0] in s.world.used
  {
    assert TaskOk(s.world, s.tasks[id]);
    assert s.tasks[id].pending[0] in s.tasks[id].pending;
  }

  /** One deletion per pending name, each removed if its answer was good, and
      none of those ever back. */
  lemma {:induction false} DeletionsStay(p: Point, script: Script, me: nat)
    requires Fair(script) && Inv(p.sys) && me in p.sys.tasks && p.sys.tasks[me].Cancel?
    ensures var t, q := p.sys.tasks[me], Drive(p, script, me);
            && q.turn == p.turn + |t.pending|
            && q.sys.tasks[me] == Cancel(t.target, t.listed, [],
                 t.allDeleted && forall i :: p.turn <= i < q.turn ==> script.answer(i).ok)
            && forall k :: 0 <= k < |t.pending| && script.answer(p.turn + k).ok ==> t.pending[k] !in q.sys.world.store
    decreases |p.sys.tasks[me].pending|
  {
    hide Inv, Turned, Fair, Reaches, Later, Drive;
    var t := p.sys.tasks[me];
    if t.pending == [] {
      DriveEnds(p, script, me);
    } else {
      var q := Turned(p, script, me);
      DeletionTurn(p, script, me);
      DriveTurns(p, script, me);
      TurnIsARun(p, script, me);
      PathsAreSafe(p.sys, q.sys);
      DeletionsStay(q, script, me);
      var last := Drive(q, script, me);
      DriveIsARun(q, script, me);
      PathsAreSafe(q.sys, last.sys);
      PendingIsUsed(p.sys, me);
      GoneForGood(p.sys.world, q.sys.world, last.sys.world, t.pending[0]);
      forall k | 0 < k < |t.pending| && script.answer(p.turn + k).ok
        ensures t.pending[k] !in last.sys.world.store
      {
        assert t.pending[1..][k - 1] == t.pending[k];
        assert script.answer(q.turn + (k - 1)).ok;
      }
    }
  }

  lemma GoneForGood(w: World, w': World, w'': World, n: string)
    requires Later(w, w') && Later(w', w'') && n in w.used
    ensures n !in w'.store ==> n !in w''.store
  {
    if n in w''.store {
      assert KeptOrRewritten(w', w'', n);
    }
  }

  /** From p to q the requests in order were each deleted by one call, and what
      a good answer deleted is gone; with good answers to all calls, so is every
      request of the node that existed at p. */
  ghost predicate Cleared(p: Point, q: Point, script: Script, target: string, order: seq<string>) {
    && q.turn == p.turn + 1 + |order|
    && (forall k :: 0 <= k < |order| && script.answer(p.turn + 1 + k).ok ==> order[k] !in q.sys.world.store)
    && ((forall i :: p.turn <= i < q.turn ==> script.answer(i).ok) ==>
          forall n :: n in q.sys.world.store && q.sys.world.store[n].target == target ==> n !in p.sys.world.used)
  }

  /** A cancellation makes one call per listed request.  What was listed and
      deleted is gone at the end; and if all its calls went well, so is every
      request of the node that existed when it began. */
  lemma CancelledForGood(p: Point, script: Script, me: nat, target: string)
    requires Fair(script) && Inv(p.sys) && Idling(p.sys, me)
    ensures Cleared(p, CancelRun(p, script, me, target), script, target, CancelListing(p, script, me, target).order)
  {
    hide Inv, Later, Reaches, Drive, Play, Fair, Apply, Enabled;
    var s, step := Waited(p, script, me), CancelListing(p, script, me, target);
    var l, q := CancelListed(p, script, me, target), CancelRun(p, script, me, target);
    BeginIsARun(p, script, me, target);
    PathsAreSafe(p.sys, l.sys);
    CancelMoves(p, script, me, target);
    DeletionsStay(l, script, me);
    DriveIsARun(l, script, me);
    PathsAreSafe(l.sys, q.sys);
    StillThere(l.sys.world, q.sys.world, target);
    NamesGrow(p.sys.world, l.sys.world);
    if forall i :: p.turn <= i < q.turn ==> script.answer(i).ok {
      forall n | n in step.order ensures n !in q.sys.world.store {
        var k :| 0 <= k < |step.order| && step.order[k] == n;
        assert script.answer(p.turn + 1 + k).ok;
      }
    }
  }

  lemma NamesGrow(w: World, w': World)
    requires Later(w, w')
    ensures w.used <= w'.used
  {
  }

  /** The listing of a cancellation lists its node's requests, or none if it fails. */
  lemma CancelMoves(p: Point, script: Script, me: nat, target: string)
    requires Fair(script) && Idling(p.sys, me)
    ensures var s, ok, q := Waited(p, script, me), script.answer(p.turn).ok, CancelListed(p, script, me, target);
            var listed := if ok then ListRequests(s.world, target) else {};
            var step := ListForCancel(me, target, ok, script.range(p.turn, listed));
            && CancelListing(p, script, me, target) == step && Permutes(step.order, listed)
            && Enabled(s, step) && WorldAfter(s, step) == s.world
            && q == Point(Apply(s, step), p.turn + 1) && q.sys.world == s.world
            && me in q.sys.tasks && q.sys.tasks[me] == Cancel(target, listed, step.order, true)
  {
    hide Play, ListRequests;
  }

  lemma StillThere(w: World, w': World, target: string)
    requires Later(w, w')
    ensures forall n :: n in w'.store && w'.store[n].target == target && n in w.used ==> n in ListRequests(w, target)
  {
    forall n | n in w'.store && w'.store[n].target == target && n in w.used ensures n in ListRequests(w, target) {
      assert KeptOrRewritten(w, w', n);
    }
  }
}
