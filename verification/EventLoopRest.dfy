/**
 From wherever a run has got to, the loop can come to rest by its own actions: nobody is caught in a circle of
 waits, retries and new looks.  The main thread gets out of the way, the workers run what there is to run, and
 `join` then finds everything quiet and returns.
 */
module EventLoopRest {
  import opened EventLoop
  import opened EventLoopRuns
  import LockMany
  import opened Wrappers

  /** The loop's own actions, when events neither push nor throw. */
  predicate Plain<Ev, Ex>(a: Action<Ev, Ex>) {
    a.Work? || a.Finish? || a.MainStep?
  }

  predicate AllPlain<Ev, Ex>(acts: seq<Action<Ev, Ex>>) {
    forall i :: 0 <= i < |acts| ==> Plain(acts[i])
  }

  /** One plain action and then more. */
  lemma PlainThen<Ev, Ex>(s: State<Ev, Ex>, a: Action<Ev, Ex>, more: seq<Action<Ev, Ex>>)
    requires Plain(a) && AllPlain(more) && Next(s, a).Some?
    ensures AllPlain([a] + more) && Run(s, [a] + more) == Run(Next(s, a).value, more)
  {
    assert ([a] + more)[1..] == more;
  }

  lemma PlainBoth<Ev, Ex>(s: State<Ev, Ex>, acts: seq<Action<Ev, Ex>>, more: seq<Action<Ev, Ex>>)
    requires AllPlain(acts) && AllPlain(more) && Run(s, acts).Some?
    ensures AllPlain(acts + more) && Run(s, acts + more) == Run(Run(s, acts).value, more)
  {
    RunSplit(s, acts + more, |acts|);
    assert (acts + more)[..|acts|] == acts && (acts + more)[|acts|..] == more;
  }

  // ---------------------------------------------------------------- the main thread gets out of the way

  /** Main steps before it holds no queue. */
  function StepsToClear(main: MainPc): nat {
    match main
    case Locking(l) =>
      if !LockMany.WellFormed(l) then 0
      else
        (match l.status
         case Blocking => 0
         case Releasing(next) => |l.order| - next + 1
         case Trying(counter) => 2 * |l.order| - counter + 5
         case Done => 4)
    case Checked(empty) => if empty then 2 else 1
    case Broke => 1
    case _ => 0
  }

  /** Main holds nothing, and has reported to the pistol. */
  ghost predicate Clear<Ev, Ex>(s: State<Ev, Ex>) {
    Inv(s) && !s.main.Building? && StepsToClear(s.main) == 0
  }

  lemma ClearHoldsNothing<Ev, Ex>(s: State<Ev, Ex>)
    requires Clear(s)
    ensures forall q: nat :: !LockMany.Owns(s.owner, q, Main)
  {
  }

  lemma ClearLocking(l: LockMany.Locker<nat>, owner: map<nat, Thread>)
    requires LockMany.WellFormed(l) && !l.status.Blocking? && !l.status.Done?
    ensures var r := LockMany.Advance(l, owner, Main);
      r.Some? && StepsToClear(Locking(r.value.0)) < StepsToClear(Locking(l))
  {
  }

  lemma ClearStep<Ev, Ex>(s: State<Ev, Ex>)
    requires s.main.Locking? ==> LockMany.WellFormed(s.main.locker)
    requires !s.main.Building? && StepsToClear(s.main) > 0
    ensures MainNext(s).Some? && StepsToClear(MainNext(s).value.main) < StepsToClear(s.main)
    ensures !MainNext(s).value.main.Building? && Joining(MainNext(s).value)
  {
    if s.main.Locking? && !s.main.locker.status.Done? {
      ClearLocking(s.main.locker, s.owner);
    }
  }

  lemma ClearNext<Ev, Ex>(s: State<Ev, Ex>) returns (t: State<Ev, Ex>)
    requires Inv(s) && !s.main.Building? && StepsToClear(s.main) > 0
    ensures Next(s, MainStep) == Some(t)
    ensures Inv(t) && !t.main.Building? && Joining(t) && StepsToClear(t.main) < StepsToClear(s.main)
  {
    ClearStep(s);
    MainKeeps(s);
    t := MainNext(s).value;
  }

  lemma {:induction false} MainClears<Ev, Ex>(s: State<Ev, Ex>) returns (acts: seq<Action<Ev, Ex>>)
    requires Inv(s) && !s.main.Building?
    ensures AllPlain(acts) && Run(s, acts).Some? && Clear(Run(s, acts).value)
    ensures Joining(s) ==> Joining(Run(s, acts).value)
    decreases StepsToClear(s.main)
  {
    if StepsToClear(s.main) == 0 {
      acts := [];
    } else {
      var t := ClearNext(s);
      acts := MainClears(t);
      PlainThen(s, MainStep, acts);
      acts := [MainStep] + acts;
    }
  }

  // ---------------------------------------------------------------- the workers run what there is

  /** How far a worker is from waiting with nothing to do; an event to take weighs 7. */
  function Distance<Ev>(pc: Pc<Ev>): nat {
    match pc
    case Recounted => 0
    case Regained => 1
    case Waiting => 2
    case Guarded => 3
    case Locked => 4
    case Top => 5
    case Running(_) => 6
    case AtPistol => 6
    case Counted => 7
    case Starting => 8
  }

  function Distances<Ev>(ws: seq<WorkerState<Ev>>): nat {
    if ws == [] then 0 else Distance(ws[0].pc) + Distances(ws[1..])
  }

  lemma {:induction false} DistancesUpdate<Ev>(ws: seq<WorkerState<Ev>>, id: nat, pc: Pc<Ev>)
    requires id < |ws|
    ensures Distances(Moved(ws, id, pc)) == Distances(ws) - Distance(ws[id].pc) + Distance(pc)
    decreases |ws|
  {
    if id == 0 {
      assert Moved(ws, id, pc)[1..] == ws[1..];
    } else {
      DistancesUpdate(ws[1..], id - 1, pc);
      assert Moved(ws, id, pc)[1..] == Moved(ws[1..], id - 1, pc);
    }
  }

  /** What the workers have before them. */
  ghost function ToDo<Ev, Ex>(s: State<Ev, Ex>): nat {
    Distances(s.workers) + 7 * |Queued(s.queues)|
  }

  lemma PopDoes<Ev, Ex>(s: State<Ev, Ex>, id: nat)
    requires PoolOk(s, id) && s.queues[s.workers[id].pool] != []
    ensures ToDo(Pop(s, id)) == ToDo(s) - Distance(s.workers[id].pc) - 1
  {
    var q := s.workers[id].pool;
    QueuedPop(s.queues, q);
    DistancesUpdate(s.workers, id, Running(s.queues[q][0]));
  }

  /** Worker `id` has taken an event, or is closer to waiting or, when its wait is over, to an event. */
  ghost predicate Closer<Ev, Ex>(s: State<Ev, Ex>, id: nat, t: State<Ev, Ex>)
    requires PoolOk(s, id)
  {
    && id < |t.workers|
    && (if t.workers[id].pc.Running? then s.queues[s.workers[id].pool] != [] && t == Pop(s, id)
        else
          && t.queues == s.queues && t.workers == Moved(s.workers, id, t.workers[id].pc)
          && Distance(t.workers[id].pc) < Distance(s.workers[id].pc))
  }

  lemma TowardsQueue<Ev, Ex>(s: State<Ev, Ex>, id: nat)
    requires PoolOk(s, id) && WorkStep(s, id).Some?
    requires var pc := s.workers[id].pc; pc.Starting? || pc.Counted? || pc.AtPistol? || pc.Top?
    ensures Closer(s, id, WorkStep(s, id).value)
  {
  }

  lemma TowardsWait<Ev, Ex>(s: State<Ev, Ex>, id: nat)
    requires PoolOk(s, id) && WorkStep(s, id).Some? && (s.workers[id].pc.Locked? || s.workers[id].pc.Guarded?)
    ensures Closer(s, id, WorkStep(s, id).value)
  {
  }

  lemma TowardsEvent<Ev, Ex>(s: State<Ev, Ex>, id: nat)
    requires PoolOk(s, id) && WorkStep(s, id).Some?
    requires var pc := s.workers[id].pc; pc.Waiting? || pc.Regained? || pc.Recounted?
    ensures Closer(s, id, WorkStep(s, id).value)
  {
  }

  lemma WorkDoes<Ev, Ex>(s: State<Ev, Ex>, id: nat)
    requires PoolOk(s, id) && WorkStep(s, id).Some?
    ensures ToDo(WorkStep(s, id).value) < ToDo(s)
  {
    var t, pc := WorkStep(s, id).value, s.workers[id].pc;
    if pc.Starting? || pc.Counted? || pc.AtPistol? || pc.Top? {
      TowardsQueue(s, id);
    } else if pc.Locked? || pc.Guarded? {
      TowardsWait(s, id);
    } else {
      TowardsEvent(s, id);
    }
    if t.workers[id].pc.Running? {
      PopDoes(s, id);
    } else {
      DistancesUpdate(s.workers, id, t.workers[id].pc);
    }
  }

  /** A worker's next action. */
  function Turn<Ev, Ex>(s: State<Ev, Ex>, id: nat): Action<Ev, Ex>
    requires id < |s.workers|
  {
    if s.workers[id].pc.Running? then Finish(id) else Work(id)
  }

  lemma TurnDoes<Ev, Ex>(s: State<Ev, Ex>, id: nat)
    requires id < |s.workers| && Next(s, Turn(s, id)).Some?
    ensures ToDo(Next(s, Turn(s, id)).value) < ToDo(s)
  {
    if s.workers[id].pc.Running? {
      DistancesUpdate(s.workers, id, Top);
    } else {
      WorkDoes(s, id);
    }
  }

  /** As long as things are not quiet and main is out of the way, some worker can take a step. */
  lemma SomeWorkerCan<Ev, Ex>(s: State<Ev, Ex>) returns (id: nat)
    requires Clear(s) && !Quiet(s)
    ensures id < |s.workers| && Next(s, Turn(s, id)).Some?
  {
    ClearHoldsNothing(s);
    if s.racers != 0 {
      CountZero(s.workers, (pc: Pc<Ev>) => NotReady(pc));
      id :| 0 <= id < |s.workers| && NotReady(s.workers[id].pc);
    } else if q: nat :| q in s.owner {
      assert LockMany.Owns(s.owner, q, s.owner[q]);
      id := s.owner[q].id;
    } else {
      id := WorkerFree(s);
    }
    WorkerCan(s, id);
  }

  lemma WorkerFree<Ev, Ex>(s: State<Ev, Ex>) returns (id: nat)
    requires Staffed(s.workers, |s.queues|) && !Quiet(s)
    ensures id < |s.workers|
    ensures s.workers[id].pc.Waiting? ==> s.workers[id].pool < |s.queues| && s.queues[s.workers[id].pool] != []
  {
    if i :| 0 <= i < |s.workers| && !s.workers[i].pc.Waiting? {
      id := i;
    } else {
      var q :| 0 <= q < |s.queues| && s.queues[q] != [];
      assert Serves(s.workers, q);
      id :| 0 <= id < |s.workers| && s.workers[id].pool == q;
    }
  }

  lemma WorkerCan<Ev, Ex>(s: State<Ev, Ex>, id: nat)
    requires WakeUpsRight(s.workers, s.queues) && id < |s.workers|
    requires s.workers[id].pc.AtPistol? ==> s.racers == 0
    requires s.workers[id].pc.Top? ==> s.workers[id].pool !in s.owner
    requires s.workers[id].pc.Waiting? ==> s.workers[id].pool !in s.owner && s.queues[s.workers[id].pool] != []
    ensures Next(s, Turn(s, id)).Some?
  {
  }

  lemma {:induction false} WorkersSettle<Ev, Ex>(s: State<Ev, Ex>) returns (acts: seq<Action<Ev, Ex>>)
    requires Clear(s)
    ensures AllPlain(acts) && Run(s, acts).Some?
    ensures var t := Run(s, acts).value; Clear(t) && Quiet(t) && t.main == s.main
    decreases ToDo(s)
  {
    if Quiet(s) {
      acts := [];
    } else {
      var id := SomeWorkerCan(s);
      var a := Turn(s, id);
      TurnDoes(s, id);
      NextKeeps(s, a);
      NextHistory(s, a);
      acts := WorkersSettle(Next(s, a).value);
      PlainThen(s, a, acts);
      acts := [a] + acts;
    }
  }

  // ---------------------------------------------------------------- join returns

  /** Main steps before it is outside, when everything is quiet. */
  function StepsOut<Ev, Ex>(s: State<Ev, Ex>): nat {
    var stored, pools := |s.exceptions|, |s.queues|;
    match s.main
    case Building => 2
    case AtStart => 1
    case Outside => 0
    case LastDrain => stored + 1
    case Broke => stored + 2
    case Checked(empty) => if empty then stored + 3 else pools + stored + 7
    case Locking(l) => if LockMany.WellFormed(l) then LockMany.StepsLeft(l) + stored + 4 else 0
    case AwaitingZero => pools + stored + 5
    case Draining => pools + stored + 6
  }

  lemma QuietCounters<Ev, Ex>(s: State<Ev, Ex>)
    requires Inv(s) && Quiet(s) && !s.main.Building?
    ensures s.counter == 0 && s.racers == 0
    ensures forall q: nat :: q in s.owner ==> s.owner[q] == Main
  {
    CountZero(s.workers, (pc: Pc<Ev>) => NotIdle(pc));
    CountZero(s.workers, (pc: Pc<Ev>) => NotReady(pc));
    forall q: nat | q in s.owner ensures s.owner[q] == Main {
      assert LockMany.Owns(s.owner, q, s.owner[q]);
    }
  }

  lemma LockingOut<Ev, Ex>(s: State<Ev, Ex>)
    requires Inv(s) && Quiet(s) && s.main.Locking?
    ensures MainNext(s).Some? && StepsOut(MainNext(s).value) < StepsOut(s)
  {
    QuietCounters(s);
    if !s.main.locker.status.Done? {
      LockMany.AloneStep(s.main.locker, s.owner, Main);
    }
  }

  lemma UnlockedOut<Ev, Ex>(s: State<Ev, Ex>)
    requires s.counter == 0 && s.racers == 0 && !s.main.Locking? && !s.main.Building? && !s.main.Outside?
    ensures MainNext(s).Some? && StepsOut(MainNext(s).value) < StepsOut(s)
  {
  }

  lemma StepOut<Ev, Ex>(s: State<Ev, Ex>)
    requires Inv(s) && Quiet(s) && !s.main.Building? && !s.main.Outside?
    ensures MainNext(s).Some? && StepsOut(MainNext(s).value) < StepsOut(s)
  {
    if s.main.Locking? {
      LockingOut(s);
    } else {
      QuietCounters(s);
      UnlockedOut(s);
    }
  }

  /** A join ends with nothing stored. */
  lemma JoinEnds<Ev, Ex>(s: State<Ev, Ex>)
    requires MainNext(s).Some?
    ensures !MainNext(s).value.main.Building?
    ensures Joining(s) ==>
      var t := MainNext(s).value; if t.main.Outside? then t.exceptions == [] else Joining(t)
  {
  }

  lemma OutNext<Ev, Ex>(s: State<Ev, Ex>) returns (t: State<Ev, Ex>)
    requires Inv(s) && Quiet(s) && !s.main.Building? && !s.main.Outside?
    ensures Next(s, MainStep) == Some(t)
    ensures Inv(t) && Quiet(t) && !t.main.Building? && StepsOut(t) < StepsOut(s)
    ensures Joining(s) ==> if t.main.Outside? then t.exceptions == [] else Joining(t)
  {
    StepOut(s);
    JoinEnds(s);
    MainKeeps(s);
    MainFrame(s);
    t := MainNext(s).value;
  }

  lemma {:induction false} MainGetsOut<Ev, Ex>(s: State<Ev, Ex>) returns (acts: seq<Action<Ev, Ex>>)
    requires Inv(s) && Quiet(s) && !s.main.Building? && !s.main.Outside?
    ensures AllPlain(acts) && Run(s, acts).Some?
    ensures var t := Run(s, acts).value;
      Inv(t) && Quiet(t) && t.main.Outside? && (Joining(s) ==> t.exceptions == [])
    decreases StepsOut(s)
  {
    var t := OutNext(s);
    acts := [];
    if !t.main.Outside? {
      acts := MainGetsOut(t);
    }
    PlainThen(s, MainStep, acts);
    acts := [MainStep] + acts;
  }

  lemma AfterBuilding<Ev, Ex>(s: State<Ev, Ex>) returns (acts: seq<Action<Ev, Ex>>)
    requires Inv(s)
    ensures AllPlain(acts) && Run(s, acts).Some?
    ensures var t := Run(s, acts).value; Inv(t) && !t.main.Building? && (Joining(s) ==> Joining(t))
  {
    acts := [];
    if s.main.Building? {
      MainKeeps(s);
      PlainThen(s, MainStep, acts);
      acts := [MainStep] + acts;
    }
  }

  /** To where the workers have nothing left to do. */
  lemma ToQuiet<Ev, Ex>(s: State<Ev, Ex>) returns (acts: seq<Action<Ev, Ex>>)
    requires Inv(s)
    ensures AllPlain(acts) && Run(s, acts).Some?
    ensures var t := Run(s, acts).value; Inv(t) && Quiet(t) && !t.main.Building? && (Joining(s) ==> Joining(t))
  {
    acts := AfterBuilding(s);
    var built := Run(s, acts).value;
    var clearing := MainClears(built);
    PlainBoth(s, acts, clearing);
    acts := acts + clearing;
    var cleared := Run(built, clearing).value;
    var working := WorkersSettle(cleared);
    PlainBoth(s, acts, working);
    acts := acts + working;
  }

  lemma ToRest<Ev, Ex>(s: State<Ev, Ex>) returns (acts: seq<Action<Ev, Ex>>)
    requires Inv(s)
    ensures AllPlain(acts) && Run(s, acts).Some?
    ensures var t := Run(s, acts).value;
      Inv(t) && Quiet(t) && t.main.Outside? && (Joining(s) ==> t.exceptions == [])
  {
    acts := ToQuiet(s);
    if !Run(s, acts).value.main.Outside? {
      var leaving := MainGetsOut(Run(s, acts).value);
      PlainBoth(s, acts, leaving);
      acts := acts + leaving;
    }
  }

  /**
   Rest is always within reach.  Every run can be continued, by steps of the workers and the main thread alone
   and with events that just end, to where nothing is left to run, every event has finished and no join is in
   progress; and if one was, every exception has been handed over.
   */
  lemma ComesToRest<Ev, Ex>(s: State<Ev, Ex>, acts: seq<Action<Ev, Ex>>) returns (more: seq<Action<Ev, Ex>>)
    requires Initial(s) && Run(s, acts).Some?
    ensures AllPlain(more) && Run(s, acts + more).Some?
    ensures var t := Run(s, acts + more).value;
      && Quiet(t) && t.main.Outside? && t.finished == t.pushed
      && (Joining(Run(s, acts).value) ==> t.handled == t.thrown)
  {
    InitialInv(s);
    RunKeeps(s, acts);
    more := ToRest(Run(s, acts).value);
    RunSplit(s, acts + more, |acts|);
    assert (acts + more)[..|acts|] == acts && (acts + more)[|acts|..] == more;
    var t := Run(s, acts + more).value;
    QuietIsFinished(t);
    if t.exceptions == [] {
      AllHandled(t);
    }
  }

  // ---------------------------------------------------------------- serving a user

  /** At rest every queue can be pushed to. */
  lemma RestIsFree<Ev, Ex>(s: State<Ev, Ex>, pool: nat)
    requires Inv(s) && Quiet(s) && s.main.Outside?
    ensures pool !in s.owner
  {
    QuietCounters(s);
    if pool in s.owner {
      assert LockMany.Owns(s.owner, pool, Main);
    }
  }

  lemma PushAndJoin<Ev, Ex>(s: State<Ev, Ex>, pool: nat, e: Ev) returns (t: State<Ev, Ex>)
    requires Inv(s) && Quiet(s) && s.main.Outside? && pool < |s.queues|
    ensures Run(s, [OutsidePush(pool, e), CallJoin]) == Some(t) && Inv(t) && Joining(t)
  {
    RestIsFree(s, pool);
    var pushed := Next(s, OutsidePush(pool, e)).value;
    NextKeeps(s, OutsidePush(pool, e));
    NextKeeps(pushed, CallJoin);
    t := Next(pushed, CallJoin).value;
    var acts: seq<Action<Ev, Ex>> := [OutsidePush(pool, e), CallJoin];
    assert acts[1..] == [CallJoin];
    RunOne(pushed, CallJoin);
  }

  /**
   The loop serves.  However far a run has got, the loop can come to rest so that its user can push an event to
   any pool and join; the event is then run, by a worker of that pool and after all that was pushed to it before,
   and the join returns with nothing left over.
   */
  lemma PushedIsRun<Ev, Ex>(s: State<Ev, Ex>, acts: seq<Action<Ev, Ex>>, pool: nat, e: Ev)
    returns (before: seq<Action<Ev, Ex>>, after: seq<Action<Ev, Ex>>)
    requires Initial(s) && Run(s, acts).Some? && pool < |s.queues|
    ensures AllPlain(before) && AllPlain(after)
    ensures var all := acts + before + [OutsidePush(pool, e), CallJoin] + after;
      && Run(s, all).Some?
      && var t := Run(s, all).value;
         && Quiet(t) && t.main.Outside? && t.finished == t.pushed && t.handled == t.thrown
         && TakenFrom(s, all, pool) == PushedTo(all, pool)
  {
    before := ComesToRest(s, acts);
    var quiet := acts + before;
    var asked: seq<Action<Ev, Ex>> := [OutsidePush(pool, e), CallJoin];
    InitialInv(s);
    RunKeeps(s, quiet);
    EventsMove(s, quiet, pool);
    var joining := PushAndJoin(Run(s, quiet).value, pool, e);
    RunJoined(s, quiet, asked);
    after := ToRest(joining);
    RunJoined(s, quiet + asked, after);
    var all := quiet + asked + after;
    var t := Run(s, all).value;
    QuietIsFinished(t);
    AllHandled(t);
    FirstInFirstOut(s, all, pool);
    assert TakenFrom(s, all, pool) + [] == TakenFrom(s, all, pool);
  }

  lemma RunJoined<Ev, Ex>(s: State<Ev, Ex>, acts: seq<Action<Ev, Ex>>, more: seq<Action<Ev, Ex>>)
    requires Run(s, acts).Some?
    ensures Run(s, acts + more) == Run(Run(s, acts).value, more)
  {
    RunSplit(s, acts + more, |acts|);
    assert (acts + more)[..|acts|] == acts && (acts + more)[|acts|..] == more;
  }
}
