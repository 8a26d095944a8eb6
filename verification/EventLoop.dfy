/**
 The parallel event loop as a transition system: worker threads popping their pool's queue through a
 guarded wait, the counter of threads outside that wait, the starter pistol, and `join`, which waits for
 the counter, locks all queues by the protocol of LockMany, and only then tests queues and counter.

 Each action is one step of one thread that other threads can see: it takes or drops one mutex, or
 changes what a mutex it holds protects.
 */
module EventLoop {
  import opened Wrappers
  import opened LockMany

  datatype Thread = Worker(id: nat) | Main

  datatype Pc<+Ev> =
    | Starting      // has not counted itself yet
    | Counted       // counted, not yet ready
    | AtPistol      // ready, waiting for the other threads
    | Top           // about to lock its queue
    | Locked        // holds the queue
    | Guarded       // holds the queue, found it empty, no longer counted
    | Waiting       // in the wait, queue released
    | Regained      // the wait is over: holds the queue, which has an event
    | Recounted     // the guard is gone: counted again, still holds the queue
    | Running(event: Ev)

  datatype WorkerState<+Ev> = WorkerState(pool: nat, pc: Pc<Ev>)

  datatype MainPc =
    | Building
    | AtStart                   // ready, waiting for the workers to be
    | Outside                   // constructed; no join in progress
    | Draining                  // handing stored exceptions over before another look
    | AwaitingZero
    | Locking(locker: Locker<nat>)
    | Checked(empty: bool)      // holds all queues; whether all were empty
    | Broke                     // leaves the loop, still holding all queues
    | LastDrain

  datatype State<Ev, Ex> = State(
    workers: seq<WorkerState<Ev>>,
    queues: seq<seq<Ev>>,
    owner: map<nat, Thread>,
    counter: int,
    racers: int,
    exceptions: seq<Ex>,
    main: MainPc,
    // histories
    pushed: multiset<Ev>,
    finished: multiset<Ev>,
    thrown: seq<Ex>,
    handled: seq<Ex>
  )

  datatype Action<Ev, Ex> =
    | Work(id: nat)                          // a worker that is not running an event
    | Push(id: nat, pool: nat, event: Ev)    // a running event pushes another
    | Finish(id: nat)
    | Throw(id: nat, error: Ex)
    | MainStep
    | CallJoin
    | OutsidePush(pool: nat, event: Ev)

  /** The actions of the outside world; the others are the loop's own. */
  predicate External<Ev, Ex>(a: Action<Ev, Ex>) {
    a.CallJoin? || a.OutsidePush?
  }

  function AllPools(n: nat): (order: seq<nat>)
    ensures |order| == n && forall i :: 0 <= i < n ==> order[i] == i
  {
    seq(n, i => i)
  }

  function SetPc<Ev, Ex>(s: State<Ev, Ex>, id: nat, pc: Pc<Ev>): State<Ev, Ex>
    requires id < |s.workers|
  {
    s.(workers := s.workers[id := s.workers[id].(pc := pc)])
  }

  predicate PoolOk<Ev, Ex>(s: State<Ev, Ex>, id: nat) {
    id < |s.workers| && s.workers[id].pool < |s.queues|
  }

  /** Take the front event and drop the queue. */
  function Pop<Ev, Ex>(s: State<Ev, Ex>, id: nat): State<Ev, Ex>
    requires PoolOk(s, id) && s.queues[s.workers[id].pool] != []
  {
    var q := s.workers[id].pool;
    SetPc(s, id, Running(s.queues[q][0])).(queues := s.queues[q := s.queues[q][1..]], owner := s.owner - {q})
  }

  function WorkStep<Ev, Ex>(s: State<Ev, Ex>, id: nat): Option<State<Ev, Ex>>
    requires PoolOk(s, id)
  {
    var q := s.workers[id].pool;
    match s.workers[id].pc
    case Starting => Some(SetPc(s, id, Counted).(counter := s.counter + 1))
    case Counted => Some(SetPc(s, id, AtPistol).(racers := s.racers - 1))
    case AtPistol => if s.racers == 0 then Some(SetPc(s, id, Top)) else None
    case Top => if q in s.owner then None else Some(SetPc(s, id, Locked).(owner := s.owner[q := Worker(id)]))
    case Locked =>
      if s.queues[q] != [] then Some(Pop(s, id)) else Some(SetPc(s, id, Guarded).(counter := s.counter - 1))
    case Guarded => Some(SetPc(s, id, Waiting).(owner := s.owner - {q}))
    case Waiting =>
      if q in s.owner || s.queues[q] == [] then None
      else Some(SetPc(s, id, Regained).(owner := s.owner[q := Worker(id)]))
    case Regained => Some(SetPc(s, id, Recounted).(counter := s.counter + 1))
    case Recounted => if s.queues[q] != [] then Some(Pop(s, id)) else None
    case Running(_) => None
  }

  function Enqueue<Ev, Ex>(s: State<Ev, Ex>, pool: nat, e: Ev): Option<State<Ev, Ex>> {
    if pool < |s.queues| && pool !in s.owner then
      Some(s.(queues := s.queues[pool := s.queues[pool] + [e]], pushed := s.pushed + multiset{e}))
    else None
  }

  /** One turn of `process_exceptions`; `done` is where it goes on once nothing is stored. */
  function Drain<Ev, Ex>(s: State<Ev, Ex>, done: MainPc): State<Ev, Ex> {
    if s.exceptions == [] then s.(main := done)
    else s.(exceptions := s.exceptions[1..], handled := s.handled + [s.exceptions[0]])
  }

  predicate AllEmpty<Ev>(queues: seq<seq<Ev>>) {
    forall q :: 0 <= q < |queues| ==> queues[q] == []
  }

  function MainNext<Ev, Ex>(s: State<Ev, Ex>): Option<State<Ev, Ex>> {
    match s.main
    case Building => Some(s.(main := AtStart, racers := s.racers - 1))
    case AtStart => if s.racers == 0 then Some(s.(main := Outside)) else None
    case Outside => None
    case Draining => Some(Drain(s, AwaitingZero))
    case AwaitingZero => if s.counter == 0 then Some(s.(main := Locking(NewLocker(AllPools(|s.queues|))))) else None
    case Locking(l) =>
      if !WellFormed(l) then None
      else if l.status.Done? then Some(s.(main := Checked(AllEmpty(s.queues))))
      else
        (match Advance(l, s.owner, Main)
         case None => None
         case Some(r) => Some(s.(main := Locking(r.0), owner := r.1)))
    case Checked(empty) =>
      if !empty then Some(s.(main := Draining, owner := Release(s.owner, Main)))
      else if s.counter == 0 then Some(s.(main := Broke))
      else Some(s.(main := Checked(false)))
    case Broke => Some(s.(main := LastDrain, owner := Release(s.owner, Main)))
    case LastDrain => Some(Drain(s, Outside))
  }

  function Next<Ev, Ex>(s: State<Ev, Ex>, a: Action<Ev, Ex>): Option<State<Ev, Ex>> {
    match a
    case Work(id) => if PoolOk(s, id) then WorkStep(s, id) else None
    case Push(id, pool, e) =>
      if id < |s.workers| && s.workers[id].pc.Running? then Enqueue(s, pool, e) else None
    case Finish(id) =>
      if id < |s.workers| && s.workers[id].pc.Running? then
        Some(SetPc(s, id, Top).(finished := s.finished + multiset{s.workers[id].pc.event}))
      else None
    case Throw(id, error) =>
      if id < |s.workers| && s.workers[id].pc.Running? then
        Some(SetPc(s, id, Top).(finished := s.finished + multiset{s.workers[id].pc.event},
                                exceptions := s.exceptions + [error], thrown := s.thrown + [error]))
      else None
    case MainStep => MainNext(s)
    case CallJoin => if s.main.Outside? then Some(s.(main := Draining)) else None
    case OutsidePush(pool, e) => Enqueue(s, pool, e)
  }

  function Run<Ev, Ex>(s: State<Ev, Ex>, acts: seq<Action<Ev, Ex>>): Option<State<Ev, Ex>>
    decreases |acts|
  {
    if acts == [] then Some(s)
    else
      match Next(s, acts[0])
      case None => None
      case Some(t) => Run(t, acts[1..])
  }

  /** A loop under construction, with at least one worker for every pool. */
  ghost predicate Initial<Ev, Ex>(s: State<Ev, Ex>) {
    && (forall i :: 0 <= i < |s.workers| ==> s.workers[i].pc.Starting? && s.workers[i].pool < |s.queues|)
    && Staffed(s.workers, |s.queues|)
    && AllEmpty(s.queues) && s.owner == map[] && s.counter == 0 && s.racers == |s.workers| + 1
    && s.exceptions == s.thrown == s.handled == [] && s.main == Building
    && s.pushed == s.finished == multiset{}
  }

  ghost predicate Serves<Ev>(ws: seq<WorkerState<Ev>>, pool: nat) {
    exists i :: 0 <= i < |ws| && ws[i].pool == pool
  }

  ghost predicate Staffed<Ev>(ws: seq<WorkerState<Ev>>, pools: nat) {
    forall q: nat :: q < pools ==> Serves(ws, q)
  }

  // ---------------------------------------------------------------- counting

  predicate NotIdle<Ev>(pc: Pc<Ev>) {
    !pc.Starting? && !pc.Guarded? && !pc.Waiting? && !pc.Regained?
  }

  predicate NotReady<Ev>(pc: Pc<Ev>) {
    pc.Starting? || pc.Counted?
  }

  predicate HoldsQueue<Ev>(pc: Pc<Ev>) {
    pc.Locked? || pc.Guarded? || pc.Regained? || pc.Recounted?
  }

  ghost function Count<Ev>(ws: seq<WorkerState<Ev>>, p: Pc<Ev> -> bool): nat {
    if ws == [] then 0 else (if p(ws[0].pc) then 1 else 0) + Count(ws[1..], p)
  }

  lemma {:induction false} CountUpdate<Ev>(ws: seq<WorkerState<Ev>>, id: nat, pc: Pc<Ev>, p: Pc<Ev> -> bool)
    requires id < |ws|
    ensures Count(ws[id := ws[id].(pc := pc)], p) ==
            Count(ws, p) - (if p(ws[id].pc) then 1 else 0) + (if p(pc) then 1 else 0)
    decreases |ws|
  {
    var ws' := ws[id := ws[id].(pc := pc)];
    if id == 0 {
      assert ws'[1..] == ws[1..];
    } else {
      CountUpdate(ws[1..], id - 1, pc, p);
      assert ws'[1..] == ws[1..][id - 1 := ws[id].(pc := pc)];
    }
  }

  lemma {:induction false} CountZero<Ev>(ws: seq<WorkerState<Ev>>, p: Pc<Ev> -> bool)
    ensures Count(ws, p) == 0 <==> forall i :: 0 <= i < |ws| ==> !p(ws[i].pc)
    decreases |ws|
  {
    if ws != [] {
      CountZero(ws[1..], p);
      assert forall i :: 1 <= i < |ws| ==> ws[i] == ws[1..][i - 1];
      if forall i :: 0 <= i < |ws| ==> !p(ws[i].pc) {
        assert forall i :: 0 <= i < |ws[1..]| ==> ws[1..][i] == ws[i + 1];
      }
    }
  }

  lemma {:induction false} CountAll<Ev>(ws: seq<WorkerState<Ev>>, p: Pc<Ev> -> bool)
    requires forall i :: 0 <= i < |ws| ==> p(ws[i].pc)
    ensures Count(ws, p) == |ws|
    decreases |ws|
  {
    if ws != [] {
      CountAll(ws[1..], p);
    }
  }

  function Load<Ev>(w: WorkerState<Ev>): multiset<Ev> {
    if w.pc.Running? then multiset{w.pc.event} else multiset{}
  }

  ghost function InFlight<Ev>(ws: seq<WorkerState<Ev>>): multiset<Ev> {
    if ws == [] then multiset{} else Load(ws[0]) + InFlight(ws[1..])
  }

  lemma {:induction false} InFlightUpdate<Ev>(ws: seq<WorkerState<Ev>>, id: nat, w: WorkerState<Ev>)
    requires id < |ws|
    ensures InFlight(ws[id := w]) + Load(ws[id]) == InFlight(ws) + Load(w)
    decreases |ws|
  {
    var ws' := ws[id := w];
    if id == 0 {
      assert ws'[1..] == ws[1..];
    } else {
      InFlightUpdate(ws[1..], id - 1, w);
      assert ws'[1..] == ws[1..][id - 1 := w];
      var first, rest, rest' := Load(ws[0]), InFlight(ws[1..]), InFlight(ws'[1..]);
      assert first + rest' + Load(ws[id]) == first + (rest' + Load(ws[id])) == first + rest + Load(w);
    }
  }

  lemma {:induction false} InFlightNone<Ev>(ws: seq<WorkerState<Ev>>)
    requires forall i :: 0 <= i < |ws| ==> !ws[i].pc.Running?
    ensures InFlight(ws) == multiset{}
    decreases |ws|
  {
    if ws != [] {
      InFlightNone(ws[1..]);
    }
  }

  ghost function Queued<Ev>(queues: seq<seq<Ev>>): multiset<Ev> {
    if queues == [] then multiset{} else multiset(queues[0]) + Queued(queues[1..])
  }

  lemma {:induction false} QueuedUpdate<Ev>(queues: seq<seq<Ev>>, i: nat, q: seq<Ev>)
    requires i < |queues|
    ensures Queued(queues[i := q]) + multiset(queues[i]) == Queued(queues) + multiset(q)
    decreases |queues|
  {
    var queues' := queues[i := q];
    if i == 0 {
      assert queues'[1..] == queues[1..];
    } else {
      QueuedUpdate(queues[1..], i - 1, q);
      assert queues'[1..] == queues[1..][i - 1 := q];
      var first, rest, rest' := multiset(queues[0]), Queued(queues[1..]), Queued(queues'[1..]);
      assert first + rest' + multiset(queues[i]) == first + (rest' + multiset(queues[i])) == first + rest + multiset(q);
    }
  }

  lemma {:induction false} QueuedNone<Ev>(queues: seq<seq<Ev>>)
    requires AllEmpty(queues)
    ensures Queued(queues) == multiset{}
    decreases |queues|
  {
    if queues != [] {
      QueuedNone(queues[1..]);
    }
  }

  lemma Cancel<T>(a: multiset<T>, b: multiset<T>, c: multiset<T>)
    requires a + c == b + c
    ensures a == b
  {
    assert a == a + c - c;
    assert b == b + c - c;
  }

  /** Moving from the front of a queue, or to the back of one. */
  lemma QueuedPop<Ev>(queues: seq<seq<Ev>>, i: nat)
    requires i < |queues| && queues[i] != []
    ensures Queued(queues) == Queued(queues[i := queues[i][1..]]) + multiset{queues[i][0]}
  {
    var head, tail := queues[i][0], queues[i][1..];
    QueuedUpdate(queues, i, tail);
    assert queues[i] == [head] + tail;
    Cancel(Queued(queues), Queued(queues[i := tail]) + multiset{head}, multiset(tail));
  }

  lemma QueuedPush<Ev>(queues: seq<seq<Ev>>, i: nat, e: Ev)
    requires i < |queues|
    ensures Queued(queues[i := queues[i] + [e]]) == Queued(queues) + multiset{e}
  {
    QueuedUpdate(queues, i, queues[i] + [e]);
    Cancel(Queued(queues[i := queues[i] + [e]]), Queued(queues) + multiset{e}, multiset(queues[i]));
  }

  // ---------------------------------------------------------------- the invariant

  /** The counter counts the threads outside the guarded wait; `racers`, those still to report. */
  ghost predicate CountersRight<Ev>(ws: seq<WorkerState<Ev>>, counter: int, racers: int, main: MainPc) {
    && counter == Count(ws, (pc: Pc<Ev>) => NotIdle(pc))
    && racers == Count(ws, (pc: Pc<Ev>) => NotReady(pc)) + (if main.Building? then 1 else 0)
    && (forall i :: 0 <= i < |ws| && !NotReady(ws[i].pc) && !ws[i].pc.AtPistol? ==> racers == 0)
    && (!main.Building? && !main.AtStart? ==> racers == 0)
  }

  ghost predicate WorkersOwn<Ev>(ws: seq<WorkerState<Ev>>, owner: map<nat, Thread>) {
    && (forall q: nat, i: nat :: Owns(owner, q, Worker(i)) ==> i < |ws| && ws[i].pool == q && HoldsQueue(ws[i].pc))
    && (forall i: nat :: i < |ws| && HoldsQueue(ws[i].pc) ==> Owns(owner, ws[i].pool, Worker(i)))
  }

  ghost predicate MainOwns(main: MainPc, owner: map<nat, Thread>, pools: nat) {
    match main
    case Locking(l) => l.order == AllPools(pools) && Accurate(l, owner, Main)
    case Checked(_) => forall q: nat :: Owns(owner, q, Main) <==> q < pools
    case Broke => forall q: nat :: Owns(owner, q, Main) <==> q < pools
    case _ => forall q: nat :: !Owns(owner, q, Main)
  }

  /** A worker whose wait is over has an event to take. */
  ghost predicate WakeUpsRight<Ev>(ws: seq<WorkerState<Ev>>, queues: seq<seq<Ev>>) {
    && (forall i :: 0 <= i < |ws| ==> ws[i].pool < |queues|)
    && (forall i :: 0 <= i < |ws| && (ws[i].pc.Regained? || ws[i].pc.Recounted?) ==> queues[ws[i].pool] != [])
  }

  ghost predicate ChecksRight<Ev>(main: MainPc, queues: seq<seq<Ev>>, counter: int) {
    && (main == Checked(true) || main.Broke? ==> AllEmpty(queues))
    && (main.Broke? ==> counter == 0)
  }

  ghost predicate Conserved<Ev, Ex>(s: State<Ev, Ex>) {
    && s.pushed == Queued(s.queues) + InFlight(s.workers) + s.finished
    && s.thrown == s.handled + s.exceptions
  }

  ghost predicate CountsRight<Ev, Ex>(s: State<Ev, Ex>) {
    CountersRight(s.workers, s.counter, s.racers, s.main)
  }

  ghost predicate LocksRight<Ev, Ex>(s: State<Ev, Ex>) {
    WorkersOwn(s.workers, s.owner) && MainOwns(s.main, s.owner, |s.queues|)
  }

  ghost predicate QueuesRight<Ev, Ex>(s: State<Ev, Ex>) {
    && Staffed(s.workers, |s.queues|)
    && WakeUpsRight(s.workers, s.queues)
    && ChecksRight(s.main, s.queues, s.counter)
  }

  ghost predicate Inv<Ev, Ex>(s: State<Ev, Ex>) {
    CountsRight(s) && LocksRight(s) && QueuesRight(s) && Conserved(s)
  }

  lemma InitialInv<Ev, Ex>(s: State<Ev, Ex>)
    requires Initial(s)
    ensures Inv(s)
  {
    CountZero(s.workers, (pc: Pc<Ev>) => NotIdle(pc));
    CountAll(s.workers, (pc: Pc<Ev>) => NotReady(pc));
    InFlightNone(s.workers);
    QueuedNone(s.queues);
  }

  // ---------------------------------------------------------------- every step keeps it

  function Moved<Ev>(ws: seq<WorkerState<Ev>>, id: nat, pc: Pc<Ev>): seq<WorkerState<Ev>>
    requires id < |ws|
  {
    ws[id := ws[id].(pc := pc)]
  }

  function Bit(b: bool): nat {
    if b then 1 else 0
  }

  /** Worker `id` goes to `pc` and the two counts follow. */
  lemma CountersAfter<Ev>(ws: seq<WorkerState<Ev>>, counter: int, racers: int, main: MainPc, id: nat, pc: Pc<Ev>)
    requires CountersRight(ws, counter, racers, main) && id < |ws|
    requires NotReady(pc) ==> NotReady(ws[id].pc)
    requires !NotReady(pc) && !pc.AtPistol? ==> racers == 0
    ensures CountersRight(Moved(ws, id, pc),
                          counter - Bit(NotIdle(ws[id].pc)) + Bit(NotIdle(pc)),
                          racers - Bit(NotReady(ws[id].pc)) + Bit(NotReady(pc)), main)
  {
    CountUpdate(ws, id, pc, (pc: Pc<Ev>) => NotIdle(pc));
    CountUpdate(ws, id, pc, (pc: Pc<Ev>) => NotReady(pc));
    if racers == 0 {
      CountZero(ws, (pc: Pc<Ev>) => NotReady(pc));
    }
  }

  /** How a worker's step changes the owner table. */
  ghost function OwnerAfter<Ev>(ws: seq<WorkerState<Ev>>, owner: map<nat, Thread>, id: nat, pc: Pc<Ev>): map<nat,
      Thread>
    requires id < |ws|
  {
    var q := ws[id].pool;
    if HoldsQueue(pc) && !HoldsQueue(ws[id].pc) then owner[q := Worker(id)]
    else if !HoldsQueue(pc) && HoldsQueue(ws[id].pc) then owner - {q}
    else owner
  }

  lemma WorkersOwnAfter<Ev>(ws: seq<WorkerState<Ev>>, owner: map<nat, Thread>, id: nat, pc: Pc<Ev>)
    requires WorkersOwn(ws, owner) && id < |ws|
    requires HoldsQueue(pc) && !HoldsQueue(ws[id].pc) ==> ws[id].pool !in owner
    ensures WorkersOwn(Moved(ws, id, pc), OwnerAfter(ws, owner, id, pc))
  {
    var ws', owner', q := Moved(ws, id, pc), OwnerAfter(ws, owner, id, pc), ws[id].pool;
    assert HoldsQueue(ws[id].pc) ==> Owns(owner, q, Worker(id));
    forall m: nat, i: nat | Owns(owner', m, Worker(i))
      ensures i < |ws'| && ws'[i].pool == m && HoldsQueue(ws'[i].pc)
    {
      assert m != q ==> Owns(owner, m, Worker(i));
    }
    forall i: nat | i < |ws'| && HoldsQueue(ws'[i].pc) ensures Owns(owner', ws'[i].pool, Worker(i)) {
      assert i != id ==> Owns(owner, ws[i].pool, Worker(i));
    }
  }

  /** A worker's step leaves what the main thread owns alone. */
  lemma MainOwnsAfter<Ev>(ws: seq<WorkerState<Ev>>, owner: map<nat, Thread>, id: nat, pc: Pc<Ev>, main: MainPc,
      pools: nat)
    requires WorkersOwn(ws, owner) && MainOwns(main, owner, pools) && id < |ws|
    requires HoldsQueue(pc) && !HoldsQueue(ws[id].pc) ==> ws[id].pool !in owner
    ensures MainOwns(main, OwnerAfter(ws, owner, id, pc), pools)
  {
    var owner' := OwnerAfter(ws, owner, id, pc);
    assert HoldsQueue(ws[id].pc) ==> Owns(owner, ws[id].pool, Worker(id));
    assert forall m: nat :: Owns(owner', m, Main) <==> Owns(owner, m, Main);
    if main.Locking? {
      StaysAccurate(main.locker, owner, owner', Main);
    }
  }

  lemma StaffedStays<Ev>(ws: seq<WorkerState<Ev>>, id: nat, pc: Pc<Ev>, pools: nat)
    requires Staffed(ws, pools) && id < |ws|
    ensures Staffed(Moved(ws, id, pc), pools)
  {
    var ws' := Moved(ws, id, pc);
    forall q: nat | q < pools ensures Serves(ws', q) {
      assert Serves(ws, q);
      var i :| 0 <= i < |ws| && ws[i].pool == q;
      assert ws'[i].pool == q;
    }
  }

  lemma WakeUpsAfterMove<Ev>(ws: seq<WorkerState<Ev>>, queues: seq<seq<Ev>>, id: nat, pc: Pc<Ev>)
    requires WakeUpsRight(ws, queues) && id < |ws|
    requires pc.Regained? || pc.Recounted? ==> queues[ws[id].pool] != []
    ensures WakeUpsRight(Moved(ws, id, pc), queues)
  {}

  lemma WakeUpsAfterPop<Ev>(ws: seq<WorkerState<Ev>>, owner: map<nat, Thread>, queues: seq<seq<Ev>>, id: nat, e: Ev,
      q: seq<Ev>)
    requires WakeUpsRight(ws, queues) && WorkersOwn(ws, owner) && id < |ws| && HoldsQueue(ws[id].pc)
    ensures WakeUpsRight(Moved(ws, id, Running(e)), queues[ws[id].pool := q])
  {
    var ws', queues' := Moved(ws, id, Running(e)), queues[ws[id].pool := q];
    assert Owns(owner, ws[id].pool, Worker(id));
    forall i | 0 <= i < |ws'| && (ws'[i].pc.Regained? || ws'[i].pc.Recounted?)
      ensures queues'[ws'[i].pool] != []
    {
      assert Owns(owner, ws[i].pool, Worker(i));
    }
  }

  /** Moving an element between the parts of a sum of multisets. */
  lemma ShiftLeftToMiddle<T>(q: multiset<T>, q': multiset<T>, f: multiset<T>, f': multiset<T>, d: multiset<T>,
      e: multiset<T>)
    requires q == q' + e && f' == f + e
    ensures q + f + d == q' + f' + d
  {}

  lemma ShiftMiddleToRight<T>(q: multiset<T>, f: multiset<T>, f': multiset<T>, d: multiset<T>, e: multiset<T>)
    requires f == f' + e
    ensures q + f + d == q + f' + (d + e)
  {}

  lemma GrowLeft<T>(q: multiset<T>, f: multiset<T>, d: multiset<T>, e: multiset<T>)
    ensures q + f + d + e == q + e + f + d
  {}

  lemma PopConserves<Ev, Ex>(s: State<Ev, Ex>, id: nat)
    requires Conserved(s) && PoolOk(s, id) && s.queues[s.workers[id].pool] != [] && !s.workers[id].pc.Running?
    ensures Conserved(Pop(s, id))
  {
    var t, q := Pop(s, id), s.workers[id].pool;
    QueuedPop(s.queues, q);
    InFlightUpdate(s.workers, id, t.workers[id]);
    ShiftLeftToMiddle(Queued(s.queues), Queued(t.queues), InFlight(s.workers), InFlight(t.workers), s.finished,
                      multiset{s.queues[q][0]});
  }

  /** Worker `id` goes from `pc` to `pc'`, neither of them with an event in hand. */
  ghost predicate Moves<Ev, Ex>(s: State<Ev, Ex>, id: nat, pc': Pc<Ev>, t: State<Ev, Ex>) {
    && id < |s.workers|
    && var pc := s.workers[id].pc;
       && !pc.Running? && !pc'.Running?
       && t == s.(workers := Moved(s.workers, id, pc'), counter := t.counter, racers := t.racers, owner := t.owner)
       && t.counter == s.counter - Bit(NotIdle(pc)) + Bit(NotIdle(pc'))
       && t.racers == s.racers - Bit(NotReady(pc)) + Bit(NotReady(pc'))
       && t.owner == OwnerAfter(s.workers, s.owner, id, pc')
       && (NotReady(pc') ==> NotReady(pc))
       && (!NotReady(pc') && !pc'.AtPistol? ==> s.racers == 0)
       && (HoldsQueue(pc') && !HoldsQueue(pc) ==> s.workers[id].pool !in s.owner)
       && (pc'.Regained? || pc'.Recounted? ==> s.workers[id].pool < |s.queues| && s.queues[s.workers[id].pool] != [])
  }

  lemma StartMoves<Ev, Ex>(s: State<Ev, Ex>, id: nat)
    requires CountsRight(s) && PoolOk(s, id) && WorkStep(s, id).Some?
    requires var pc := s.workers[id].pc; NotReady(pc) || pc.AtPistol? || pc.Top?
    ensures Moves(s, id, WorkStep(s, id).value.workers[id].pc, WorkStep(s, id).value)
  {}

  lemma WaitMoves<Ev, Ex>(s: State<Ev, Ex>, id: nat)
    requires CountsRight(s) && WakeUpsRight(s.workers, s.queues)
    requires PoolOk(s, id) && WorkStep(s, id).Some? && !WorkStep(s, id).value.workers[id].pc.Running?
    requires var pc := s.workers[id].pc; !NotReady(pc) && !pc.AtPistol? && !pc.Top?
    ensures Moves(s, id, WorkStep(s, id).value.workers[id].pc, WorkStep(s, id).value)
  {}

  lemma MoveKeepsCounts<Ev, Ex>(s: State<Ev, Ex>, id: nat, pc: Pc<Ev>, t: State<Ev, Ex>)
    requires CountsRight(s) && Moves(s, id, pc, t)
    ensures CountsRight(t)
  {
    CountersAfter(s.workers, s.counter, s.racers, s.main, id, pc);
  }

  lemma MoveKeepsLocks<Ev, Ex>(s: State<Ev, Ex>, id: nat, pc: Pc<Ev>, t: State<Ev, Ex>)
    requires LocksRight(s) && Moves(s, id, pc, t)
    ensures LocksRight(t)
  {
    WorkersOwnAfter(s.workers, s.owner, id, pc);
    MainOwnsAfter(s.workers, s.owner, id, pc, s.main, |s.queues|);
  }

  lemma MoveKeepsQueues<Ev, Ex>(s: State<Ev, Ex>, id: nat, pc: Pc<Ev>, t: State<Ev, Ex>)
    requires QueuesRight(s) && Moves(s, id, pc, t) && !s.main.Broke?
    ensures QueuesRight(t)
  {
    StaffedStays(s.workers, id, pc, |s.queues|);
    WakeUpsAfterMove(s.workers, s.queues, id, pc);
  }

  lemma MoveConserves<Ev, Ex>(s: State<Ev, Ex>, id: nat, pc: Pc<Ev>, t: State<Ev, Ex>)
    requires Conserved(s) && Moves(s, id, pc, t)
    ensures Conserved(t)
  {
    InFlightUpdate(s.workers, id, t.workers[id]);
    assert t.workers == s.workers[id := t.workers[id]];
    Cancel(InFlight(t.workers), InFlight(s.workers), multiset{});
  }

  lemma PopKeeps<Ev, Ex>(s: State<Ev, Ex>, id: nat)
    requires Inv(s) && PoolOk(s, id) && s.queues[s.workers[id].pool] != []
    requires s.workers[id].pc.Locked? || s.workers[id].pc.Recounted?
    ensures CountsRight(Pop(s, id)) && LocksRight(Pop(s, id))
  {
    var q := s.workers[id].pool;
    var pc := Running(s.queues[q][0]);
    CountersAfter(s.workers, s.counter, s.racers, s.main, id, pc);
    WorkersOwnAfter(s.workers, s.owner, id, pc);
    MainOwnsAfter(s.workers, s.owner, id, pc, s.main, |s.queues|);
  }

  lemma PopKeepsQueues<Ev, Ex>(s: State<Ev, Ex>, id: nat)
    requires LocksRight(s) && QueuesRight(s) && PoolOk(s, id) && s.queues[s.workers[id].pool] != []
    requires s.workers[id].pc.Locked? || s.workers[id].pc.Recounted?
    ensures QueuesRight(Pop(s, id))
  {
    var q := s.workers[id].pool;
    StaffedStays(s.workers, id, Running(s.queues[q][0]), |s.queues|);
    WakeUpsAfterPop(s.workers, s.owner, s.queues, id, s.queues[q][0], s.queues[q][1..]);
    assert ChecksRight(s.main, Pop(s, id).queues, s.counter);
  }

  /**
   The heart of `join`: with every queue locked and empty and the counter at zero, every worker sits in
   the guarded wait, for a worker anywhere else is either counted or holds its queue.
   */
  lemma BrokeMeansWaiting<Ev, Ex>(s: State<Ev, Ex>)
    requires Inv(s) && s.main.Broke?
    ensures forall i :: 0 <= i < |s.workers| ==> s.workers[i].pc.Waiting?
  {
    CountZero(s.workers, (pc: Pc<Ev>) => NotIdle(pc));
    CountZero(s.workers, (pc: Pc<Ev>) => NotReady(pc));
    forall i | 0 <= i < |s.workers| ensures s.workers[i].pc.Waiting? {
      assert Owns(s.owner, s.workers[i].pool, Main);
      assert !Owns(s.owner, s.workers[i].pool, Worker(i));
    }
  }

  lemma WorkMeansNotBroke<Ev, Ex>(s: State<Ev, Ex>, id: nat)
    requires Inv(s) && PoolOk(s, id) && WorkStep(s, id).Some?
    ensures !s.main.Broke?
  {
    if s.main.Broke? {
      BrokeMeansWaiting(s);
    }
  }

  lemma PopKeepsAll<Ev, Ex>(s: State<Ev, Ex>, id: nat)
    requires Inv(s) && PoolOk(s, id) && s.queues[s.workers[id].pool] != []
    requires s.workers[id].pc.Locked? || s.workers[id].pc.Recounted?
    ensures Inv(Pop(s, id))
  {
    PopKeeps(s, id);
    PopKeepsQueues(s, id);
    PopConserves(s, id);
  }

  lemma MoveKeepsAll<Ev, Ex>(s: State<Ev, Ex>, id: nat, pc: Pc<Ev>, t: State<Ev, Ex>)
    requires Inv(s) && Moves(s, id, pc, t) && !s.main.Broke?
    ensures Inv(t)
  {
    MoveKeepsCounts(s, id, pc, t);
    MoveKeepsLocks(s, id, pc, t);
    MoveKeepsQueues(s, id, pc, t);
    MoveConserves(s, id, pc, t);
  }

  lemma WorkKeeps<Ev, Ex>(s: State<Ev, Ex>, id: nat)
    requires Inv(s) && PoolOk(s, id) && WorkStep(s, id).Some?
    ensures Inv(WorkStep(s, id).value)
  {
    WorkMeansNotBroke(s, id);
    var t := WorkStep(s, id).value;
    var pc := t.workers[id].pc;
    if pc.Running? {
      assert t == Pop(s, id);
      PopKeepsAll(s, id);
    } else {
      if NotReady(s.workers[id].pc) || s.workers[id].pc.AtPistol? || s.workers[id].pc.Top? {
        StartMoves(s, id);
      } else {
        WaitMoves(s, id);
      }
      MoveKeepsAll(s, id, pc, t);
    }
  }

  lemma EnqueueConserves<Ev, Ex>(s: State<Ev, Ex>, pool: nat, e: Ev)
    requires Conserved(s) && Enqueue(s, pool, e).Some?
    ensures Conserved(Enqueue(s, pool, e).value)
  {
    QueuedPush(s.queues, pool, e);
    GrowLeft(Queued(s.queues), InFlight(s.workers), s.finished, multiset{e});
  }

  lemma EnqueueKeeps<Ev, Ex>(s: State<Ev, Ex>, pool: nat, e: Ev)
    requires Inv(s) && Enqueue(s, pool, e).Some?
    ensures Inv(Enqueue(s, pool, e).value)
  {
    EnqueueConserves(s, pool, e);
    EnqueueKeepsQueues(s, pool, e);
  }

  lemma EnqueueKeepsQueues<Ev, Ex>(s: State<Ev, Ex>, pool: nat, e: Ev)
    requires LocksRight(s) && QueuesRight(s) && Enqueue(s, pool, e).Some?
    ensures QueuesRight(Enqueue(s, pool, e).value)
  {
    assert !Owns(s.owner, pool, Main);
  }

  /** A running event ends, normally or not. */
  lemma EndConserves<Ev, Ex>(s: State<Ev, Ex>, id: nat, t: State<Ev, Ex>)
    requires Conserved(s) && id < |s.workers| && s.workers[id].pc.Running?
    requires t.workers == Moved(s.workers, id, Top) && t.queues == s.queues && t.pushed == s.pushed
    requires t.finished == s.finished + multiset{s.workers[id].pc.event}
    requires t.thrown == t.handled + t.exceptions
    ensures Conserved(t)
  {
    InFlightUpdate(s.workers, id, t.workers[id]);
    ShiftMiddleToRight(Queued(s.queues), InFlight(s.workers), InFlight(t.workers), s.finished,
                       multiset{s.workers[id].pc.event});
  }

  lemma EndKeeps<Ev, Ex>(s: State<Ev, Ex>, id: nat, t: State<Ev, Ex>)
    requires CountsRight(s) && LocksRight(s) && QueuesRight(s) && id < |s.workers| && s.workers[id].pc.Running?
    requires t.workers == Moved(s.workers, id, Top) && t.queues == s.queues && t.owner == s.owner
    requires t.counter == s.counter && t.racers == s.racers && t.main == s.main
    ensures CountsRight(t) && LocksRight(t) && QueuesRight(t)
  {
    CountersAfter(s.workers, s.counter, s.racers, s.main, id, Top);
    WorkersOwnAfter(s.workers, s.owner, id, Top);
    StaffedStays(s.workers, id, Top, |s.queues|);
    WakeUpsAfterMove(s.workers, s.queues, id, Top);
  }

  lemma LockStepKeeps<Ev, Ex>(s: State<Ev, Ex>, l: Locker<nat>)
    requires CountsRight(s) && LocksRight(s) && QueuesRight(s) && s.main == Locking(l) && MainNext(s).Some?
    ensures var t := MainNext(s).value; CountsRight(t) && LocksRight(t) && QueuesRight(t)
  {
    var t := MainNext(s).value;
    if l.status.Done? {
      forall q: nat ensures q in l.order <==> q < |s.queues| {
        assert q < |s.queues| ==> l.order[q] == q;
      }
    } else {
      AdvanceKeeps(l, s.owner, Main);
      assert forall q: nat, i: nat :: Owns(t.owner, q, Worker(i)) <==> Owns(s.owner, q, Worker(i));
    }
  }

  lemma MainKeepsOwners<Ev, Ex>(s: State<Ev, Ex>)
    requires LocksRight(s) && MainNext(s).Some? && !s.main.Locking?
    ensures LocksRight(MainNext(s).value)
  {
    var t := MainNext(s).value;
    if t.owner != s.owner {
      assert t.owner == Release(s.owner, Main);
      ReleaseKeepsWorkers(s.workers, s.owner);
    }
  }

  /** Dropping all its mutexes leaves the joining thread with none, and the workers with theirs. */
  lemma ReleaseKeepsWorkers<Ev>(ws: seq<WorkerState<Ev>>, owner: map<nat, Thread>)
    requires WorkersOwn(ws, owner)
    ensures WorkersOwn(ws, Release(owner, Main)) && forall q: nat :: !Owns(Release(owner, Main), q, Main)
  {
    ReleaseOwns(owner, Main);
    assert forall q: nat, i: nat :: Owns(Release(owner, Main), q, Worker(i)) <==> Owns(owner, q, Worker(i));
  }

  /** The main thread works on its own place, the locks, the pistol and the stored exceptions only. */
  lemma MainFrame<Ev, Ex>(s: State<Ev, Ex>)
    requires MainNext(s).Some?
    ensures var t := MainNext(s).value;
      && t.workers == s.workers && t.queues == s.queues && t.counter == s.counter
      && t.pushed == s.pushed && t.finished == s.finished && t.thrown == s.thrown
      && t.handled + t.exceptions == s.handled + s.exceptions
  {
    if (s.main.Draining? || s.main.LastDrain?) && s.exceptions != [] {
      assert s.exceptions == [s.exceptions[0]] + s.exceptions[1..];
    }
  }

  lemma MainKeepsCounts<Ev, Ex>(s: State<Ev, Ex>)
    requires CountsRight(s) && MainNext(s).Some? && !s.main.Locking?
    ensures CountsRight(MainNext(s).value)
  {
    MainFrame(s);
  }

  lemma MainKeepsQueues<Ev, Ex>(s: State<Ev, Ex>)
    requires QueuesRight(s) && MainNext(s).Some? && !s.main.Locking?
    ensures QueuesRight(MainNext(s).value)
  {
    MainFrame(s);
  }

  lemma MainKeeps<Ev, Ex>(s: State<Ev, Ex>)
    requires Inv(s) && MainNext(s).Some?
    ensures Inv(MainNext(s).value)
  {
    MainFrame(s);
    if s.main.Locking? {
      LockStepKeeps(s, s.main.locker);
    } else {
      MainKeepsOwners(s);
      MainKeepsCounts(s);
      MainKeepsQueues(s);
    }
  }

  lemma FinishKeeps<Ev, Ex>(s: State<Ev, Ex>, a: Action<Ev, Ex>)
    requires Inv(s) && Next(s, a).Some? && (a.Finish? || a.Throw?)
    ensures Inv(Next(s, a).value)
  {
    var t := Next(s, a).value;
    assert t.thrown == t.handled + t.exceptions;
    EndConserves(s, a.id, t);
    EndKeeps(s, a.id, t);
  }

  lemma NextKeeps<Ev, Ex>(s: State<Ev, Ex>, a: Action<Ev, Ex>)
    requires Inv(s) && Next(s, a).Some?
    ensures Inv(Next(s, a).value)
  {
    match a
    case Work(id) => WorkKeeps(s, id);
    case Push(_, pool, e) => EnqueueKeeps(s, pool, e);
    case OutsidePush(pool, e) => EnqueueKeeps(s, pool, e);
    case MainStep => MainKeeps(s);
    case CallJoin =>
    case _ => FinishKeeps(s, a);
  }

  lemma {:induction false} RunKeeps<Ev, Ex>(s: State<Ev, Ex>, acts: seq<Action<Ev, Ex>>)
    requires Inv(s) && Run(s, acts).Some?
    ensures Inv(Run(s, acts).value)
    decreases |acts|
  {
    if acts != [] {
      NextKeeps(s, acts[0]);
      RunKeeps(Next(s, acts[0]).value, acts[1..]);
    }
  }

  // ---------------------------------------------------------------- theorems

  ghost predicate Quiet<Ev, Ex>(s: State<Ev, Ex>) {
    && AllEmpty(s.queues)
    && forall i :: 0 <= i < |s.workers| ==> s.workers[i].pc.Waiting?
  }

  ghost predicate WorkerAction<Ev, Ex>(a: Action<Ev, Ex>) {
    a.Work? || a.Push? || a.Finish? || a.Throw?
  }

  /** The counter equals the number of workers outside the guarded wait, in every reachable state. */
  lemma CounterCountsWorkers<Ev, Ex>(s: State<Ev, Ex>, acts: seq<Action<Ev, Ex>>)
    requires Initial(s) && Run(s, acts).Some?
    ensures var t := Run(s, acts).value; t.counter == Count(t.workers, (pc: Pc<Ev>) => NotIdle(pc))
  {
    InitialInv(s);
    RunKeeps(s, acts);
  }

  /**
   The starter pistol.  Nobody gets past it, neither a worker nor the constructor, before every thread has
   reported; so once the loop is constructed the counter accounts for every worker.
   */
  lemma PistolHoldsEveryone<Ev, Ex>(s: State<Ev, Ex>, acts: seq<Action<Ev, Ex>>)
    requires Initial(s) && Run(s, acts).Some?
    ensures var t := Run(s, acts).value;
      (exists i :: 0 <= i < |t.workers| && !NotReady(t.workers[i].pc) && !t.workers[i].pc.AtPistol?)
      || (!t.main.Building? && !t.main.AtStart?)
      ==> !t.main.Building? && forall i :: 0 <= i < |t.workers| ==> !NotReady(t.workers[i].pc)
  {
    InitialInv(s);
    RunKeeps(s, acts);
    CountZero(Run(s, acts).value.workers, (pc: Pc<Ev>) => NotReady(pc));
  }

  /**
   Join means quiescence.  In every run, at the moment `join` leaves its loop every queue is empty, every
   worker waits, no worker can take a step, and every event ever pushed, by whomever, has finished.
   */
  lemma JoinMeansQuiescence<Ev, Ex>(s: State<Ev, Ex>, acts: seq<Action<Ev, Ex>>)
    requires Initial(s) && Run(s, acts).Some? && Run(s, acts).value.main.Broke?
    ensures var t := Run(s, acts).value;
      && Quiet(t) && t.finished == t.pushed
      && forall a :: WorkerAction(a) ==> Next(t, a).None?
  {
    InitialInv(s);
    RunKeeps(s, acts);
    var t := Run(s, acts).value;
    BrokeMeansWaiting(t);
    QuietIsFinished(t);
    NoWorkerSteps(t);
  }

  lemma QuietIsFinished<Ev, Ex>(s: State<Ev, Ex>)
    requires Quiet(s) && Conserved(s)
    ensures s.finished == s.pushed
  {
    QueuedNone(s.queues);
    InFlightNone(s.workers);
  }

  lemma NoWorkerSteps<Ev, Ex>(s: State<Ev, Ex>)
    requires Quiet(s)
    ensures forall a :: WorkerAction(a) ==> Next(s, a).None?
  {
  }

  /** Quiet stays quiet until somebody outside pushes. */
  lemma {:induction false} QuietStaysQuiet<Ev, Ex>(s: State<Ev, Ex>, acts: seq<Action<Ev, Ex>>)
    requires Quiet(s) && Run(s, acts).Some?
    requires forall a | a in acts :: !a.OutsidePush?
    ensures Quiet(Run(s, acts).value) && Run(s, acts).value.pushed == s.pushed
    ensures Run(s, acts).value.thrown == s.thrown
    decreases |acts|
  {
    if acts != [] {
      var a := acts[0];
      if a.MainStep? {
        MainFrame(s);
      }
      assert Next(s, a).Some? ==> !WorkerAction(a);
      QuietStaysQuiet(Next(s, a).value, acts[1..]);
    }
  }

  /**
   Whenever `join` returns, every exception thrown so far has been handed over exactly once, in the order
   in which it was stored.
   */
  lemma EveryExceptionHandled<Ev, Ex>(s: State<Ev, Ex>, acts: seq<Action<Ev, Ex>>)
    requires Initial(s) && Run(s, acts).Some?
    requires var t := Run(s, acts).value;
      t.main.LastDrain? && Next(t, MainStep).Some? && Next(t, MainStep).value.main.Outside?
    ensures var t := Next(Run(s, acts).value, MainStep).value; t.handled == t.thrown && t.exceptions == []
  {
    InitialInv(s);
    RunKeeps(s, acts);
    NextKeeps(Run(s, acts).value, MainStep);
  }

  /** Exceptions are handed over in order at any time. */
  lemma HandledInOrder<Ev, Ex>(s: State<Ev, Ex>, acts: seq<Action<Ev, Ex>>)
    requires Initial(s) && Run(s, acts).Some?
    ensures Run(s, acts).value.handled <= Run(s, acts).value.thrown
  {
    InitialInv(s);
    RunKeeps(s, acts);
  }

  /** A worker that is in none of the places where it can wait can take a step. */
  lemma WorkerCanStep<Ev, Ex>(s: State<Ev, Ex>, id: nat)
    requires Inv(s) && id < |s.workers|
    requires s.workers[id].pc.AtPistol? ==> s.racers == 0
    requires s.workers[id].pc.Top? ==> s.workers[id].pool !in s.owner
    requires s.workers[id].pc.Waiting? ==> s.workers[id].pool !in s.owner && s.queues[s.workers[id].pool] != []
    ensures exists a: Action<Ev, Ex> :: !External(a) && Next(s, a).Some?
  {
    var a: Action<Ev, Ex> := if s.workers[id].pc.Running? then Finish(id) else Work(id);
    assert Next(s, a).Some?;
  }

  /** Whoever owns a queue can take a step. */
  lemma OwnerCanStep<Ev, Ex>(s: State<Ev, Ex>, q: nat)
    requires Inv(s) && q in s.owner
    ensures exists a: Action<Ev, Ex> :: !External(a) && Next(s, a).Some?
  {
    var t := s.owner[q];
    assert Owns(s.owner, q, t);
    if t.Worker? {
      WorkerCanStep(s, t.id);
    } else {
      var a: Action<Ev, Ex> := MainStep;
      assert Next(s, a).Some?;
    }
  }

  lemma AtTheStart<Ev, Ex>(s: State<Ev, Ex>)
    requires Inv(s) && s.racers != 0
    ensures exists a: Action<Ev, Ex> :: !External(a) && Next(s, a).Some?
  {
    CountZero(s.workers, (pc: Pc<Ev>) => NotReady(pc));
    if s.main.Building? {
      var a: Action<Ev, Ex> := MainStep;
      assert Next(s, a).Some?;
    } else {
      var i :| 0 <= i < |s.workers| && NotReady(s.workers[i].pc);
      WorkerCanStep(s, i);
    }
  }

  /**
   No deadlock.  The loop has a step of its own to take in every reachable state, except exactly when all
   queues are empty, all workers wait and no construction or join is in progress.
   */
  lemma NoDeadlock<Ev, Ex>(s: State<Ev, Ex>, acts: seq<Action<Ev, Ex>>)
    requires Initial(s) && Run(s, acts).Some?
    ensures var t := Run(s, acts).value;
      (forall a: Action<Ev, Ex> :: !External(a) ==> Next(t, a).None?) <==> Quiet(t) && t.main.Outside?
  {
    InitialInv(s);
    RunKeeps(s, acts);
    var t := Run(s, acts).value;
    if forall a: Action<Ev, Ex> :: !External(a) ==> Next(t, a).None? {
      Stuck(t);
    }
  }

  lemma Stuck<Ev, Ex>(s: State<Ev, Ex>)
    requires Inv(s)
    requires forall a: Action<Ev, Ex> :: !External(a) ==> Next(s, a).None?
    ensures Quiet(s) && s.main.Outside?
  {
    if s.racers != 0 {
      AtTheStart(s);
    }
    forall q: nat ensures q !in s.owner {
      if q in s.owner {
        OwnerCanStep(s, q);
      }
    }
    forall i | 0 <= i < |s.workers| ensures s.workers[i].pc.Waiting? {
      if !s.workers[i].pc.Waiting? {
        WorkerCanStep(s, i);
      }
    }
    forall q | 0 <= q < |s.queues| ensures s.queues[q] == [] {
      assert Serves(s.workers, q);
      var i :| 0 <= i < |s.workers| && s.workers[i].pool == q;
      if s.queues[q] != [] {
        WorkerCanStep(s, i);
      }
    }
    CountZero(s.workers, (pc: Pc<Ev>) => NotIdle(pc));
    var a: Action<Ev, Ex> := MainStep;
    assert Next(s, a).None?;
  }
}
