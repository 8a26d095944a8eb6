/**
 The parallel event loop as an object, made of the queues and the counter of ConcurrentQueue and
 ScopedCounter.  Every method is one action of one thread, and is proved to be that action of EventLoop.
 */
module ParallelEventLoop {
  import opened ConcurrentQueue
  import opened EventLoop
  import opened LockMany
  import Counters = ScopedCounter
  import opened Wrappers

  class ParallelEventLoop<Ev, Ex> {
    const queues: seq<ConcurrentQueue<Ev>>
    const notIdle: Counters.ScopedCounter
    const exceptions: ConcurrentQueue<Ex>
    var workers: seq<WorkerState<Ev>>
    var owner: map<nat, Thread>
    var racers: int
    var main: MainPc

    ghost var pushed: multiset<Ev>
    ghost var finished: multiset<Ev>

    ghost function Parts(): (parts: set<object>)
      ensures this !in parts && notIdle in parts && exceptions in parts
      ensures forall i :: 0 <= i < |queues| ==> queues[i] in parts
    {
      (set i | 0 <= i < |queues| :: queues[i] as object) + {notIdle, exceptions}
    }

    /** The queues are different objects and wait for events; the queue of exceptions never waits. */
    ghost predicate Valid()
      reads Parts()
    {
      && (forall i, j :: 0 <= i < j < |queues| ==> queues[i] != queues[j])
      && (forall i :: 0 <= i < |queues| ==> queues[i].Valid() && !queues[i].nowaiting)
      && exceptions.Valid() && exceptions.nowaiting
      && (forall i :: 0 <= i < |queues| ==> queues[i] as object != exceptions as object)
    }

    ghost function Events(): (events: seq<seq<Ev>>)
      reads Parts()
      ensures |events| == |queues| && forall i :: 0 <= i < |queues| ==> events[i] == queues[i].events
    {
      seq(|queues|, i requires 0 <= i < |queues| reads Parts() => queues[i].events)
    }

    ghost function View(): State<Ev, Ex>
      reads this, Parts()
    {
      State(workers, Events(), owner, notIdle.value, racers, exceptions.events, main,
            pushed, finished, exceptions.pushed, exceptions.popped)
    }

    /** One queue and, for every pool, as many workers as asked for; nobody has reported yet. */
    constructor (sizes: seq<int>)
      requires forall p :: 0 <= p < |sizes| ==> sizes[p] > 0
      ensures Valid() && |queues| == |sizes| && EventLoop.Initial(View())
      ensures AsAskedFor(workers, sizes) && racers == Sum(sizes) + 1
      ensures fresh(Parts())
    {
      var qs := NewQueues<Ev>(|sizes|);
      var ws := Hire<Ev>(sizes);
      var counter := new Counters.ScopedCounter(0);
      var stored := new ConcurrentQueue<Ex>(true);
      queues, notIdle, exceptions := qs, counter, stored;
      workers, owner, racers, main := ws, map[], |ws| + 1, Building;
      pushed, finished := multiset{}, multiset{};
    }

    /** The constructor throws for a pool without workers. */
    static method Create(sizes: seq<int>) returns (made: Option<ParallelEventLoop<Ev, Ex>>)
      ensures made.Some? <==> forall p :: 0 <= p < |sizes| ==> sizes[p] > 0
      ensures made.Some? ==> fresh(made.value) && made.value.Valid() && EventLoop.Initial(made.value.View())
      ensures made.Some? ==> |made.value.queues| == |sizes|
      ensures made.Some? ==> AsAskedFor(made.value.workers, sizes) && made.value.racers == Sum(sizes) + 1
    {
      for p := 0 to |sizes|
        invariant forall i :: 0 <= i < p ==> sizes[i] > 0
      {
        if sizes[p] <= 0 {
          return None;
        }
      }
      var eventLoop := new ParallelEventLoop<Ev, Ex>(sizes);
      made := Some(eventLoop);
    }

    method SetPc(id: nat, pc: Pc<Ev>)
      requires id < |workers|
      modifies this`workers
      ensures workers == old(workers)[id := old(workers)[id].(pc := pc)]
    {
      workers := workers[id := workers[id].(pc := pc)];
    }

    /** The queue of a pool under its mutex: take an event, or be told to wait. */
    method PopQueue(q: nat) returns (r: Popped<Ev>)
      requires Valid() && q < |queues|
      modifies queues[q]
      ensures Valid()
      ensures r.MustWait? <==> old(queues[q].events) == []
      ensures r.MustWait? ==> Events() == old(Events())
      ensures !r.MustWait? ==>
        && r.Item? && r.out == old(queues[q].events)[0]
        && Events() == old(Events())[q := old(queues[q].events)[1..]]
    {
      ghost var before := Events();
      r := queues[q].Pop();
      if r.Item? {
        assert Events() == before[q := before[q][1..]];
      } else {
        assert Events() == before;
      }
    }

    /** One step of worker `id` that is not running an event. */
    method Work(id: nat)
      requires Valid() && PoolOk(View(), id) && WorkStep(View(), id).Some?
      modifies this, Parts()
      ensures Valid() && View() == WorkStep(old(View()), id).value
    {
      var pc := workers[id].pc;
      if pc.Locked? || pc.Recounted? {
        if queues[workers[id].pool].EndWait() {
          Take(id);
        } else {
          Guard(id);
        }
      } else if pc.Guarded? || pc.Waiting? || pc.Regained? {
        Wait(id);
      } else {
        Begin(id);
      }
    }

    /** From the start of the thread to its first event. */
    method Begin(id: nat)
      requires Valid() && PoolOk(View(), id) && WorkStep(View(), id).Some?
      requires var pc := workers[id].pc; pc.Starting? || pc.Counted? || pc.AtPistol? || pc.Top?
      modifies notIdle, this
      ensures Valid() && View() == WorkStep(old(View()), id).value
    {
      match workers[id].pc
      case Starting => Adjust(1, id, Counted);
      case Counted =>
        racers := racers - 1;
        SetPc(id, AtPistol);
      case AtPistol => SetPc(id, Top);
      case Top =>
        owner := owner[workers[id].pool := Worker(id)];
        SetPc(id, Locked);
    }

    /** The wait inside `pop`, and the end of its guard. */
    method Wait(id: nat)
      requires Valid() && PoolOk(View(), id) && WorkStep(View(), id).Some?
      requires var pc := workers[id].pc; pc.Guarded? || pc.Waiting? || pc.Regained?
      modifies notIdle, this
      ensures Valid() && View() == WorkStep(old(View()), id).value
    {
      var q := workers[id].pool;
      match workers[id].pc
      case Guarded =>
        owner := owner - {q};
        SetPc(id, Waiting);
      case Waiting =>
        owner := owner[q := Worker(id)];
        SetPc(id, Regained);
      case Regained => Adjust(1, id, Recounted);
    }

    /** The counter changes, and with it the place of worker `id`. */
    method Adjust(delta: int, id: nat, pc: Pc<Ev>)
      requires Valid() && id < |workers|
      modifies notIdle, this`workers
      ensures Valid() && View() == EventLoop.SetPc(old(View()), id, pc).(counter := old(View()).counter + delta)
    {
      ghost var before := Events();
      var notified := notIdle.Adjust(delta);
      SetPc(id, pc);
      assert Events() == before;
    }

    /** `pop` finds an event. */
    method Take(id: nat)
      requires Valid() && PoolOk(View(), id) && (workers[id].pc.Locked? || workers[id].pc.Recounted?)
      requires queues[workers[id].pool].events != []
      modifies this, Parts()
      ensures Valid() && View() == WorkStep(old(View()), id).value
    {
      var q := workers[id].pool;
      var r := PopQueue(q);
      owner := owner - {q};
      SetPc(id, Running(r.out));
    }

    /** `pop` finds none: the wait guard takes the worker out of the count. */
    method Guard(id: nat)
      requires Valid() && PoolOk(View(), id) && workers[id].pc.Locked?
      requires queues[workers[id].pool].events == []
      modifies this, Parts()
      ensures Valid() && View() == WorkStep(old(View()), id).value
    {
      var r := PopQueue(workers[id].pool);
      Adjust(-1, id, Guarded);
    }

    /** `push`, by a running event or from outside. */
    method Push(pool: nat, event: Ev)
      requires Valid() && Enqueue(View(), pool, event).Some?
      modifies this`pushed, Parts()
      ensures Valid() && View() == Enqueue(old(View()), pool, event).value
    {
      ghost var before := Events();
      queues[pool].Push(event);
      pushed := pushed + multiset{event};
      assert Events() == before[pool := before[pool] + [event]];
    }

    /** An event ends normally. */
    method Finish(id: nat)
      requires Valid() && EventLoop.Next(View(), Action.Finish(id)).Some?
      modifies this
      ensures Valid() && View() == EventLoop.Next(old(View()), Action.Finish(id)).value
    {
      finished := finished + multiset{workers[id].pc.event};
      SetPc(id, Top);
    }

    /** An event throws; its exception is stored. */
    method Throw(id: nat, error: Ex)
      requires Valid() && EventLoop.Next(View(), Action.Throw(id, error)).Some?
      modifies this, Parts()
      ensures Valid() && View() == EventLoop.Next(old(View()), Action.Throw(id, error)).value
    {
      ghost var before := Events();
      exceptions.Push(error);
      finished := finished + multiset{workers[id].pc.event};
      SetPc(id, Top);
      assert Events() == before;
    }

    /** One turn of `process_exceptions`: the exception for the handler, if one is stored. */
    method ProcessException(done: MainPc) returns (error: Option<Ex>)
      requires Valid()
      modifies this, Parts()
      ensures Valid() && View() == Drain(old(View()), done)
      ensures error == if old(exceptions.events) == [] then None else Some(old(exceptions.events)[0])
    {
      ghost var before := Events();
      var r := exceptions.Pop();
      if r.Item? {
        error := Some(r.out);
      } else {
        main := done;
        error := None;
      }
      assert Events() == before;
    }

    method AllQueuesAreEmpty() returns (empty: bool)
      ensures empty <==> AllEmpty(Events())
    {
      empty := true;
      for q := 0 to |queues|
        invariant empty <==> forall p :: 0 <= p < q ==> Events()[p] == []
      {
        assert Events()[q] == queues[q].events;
        empty := empty && queues[q].events == [];
      }
    }

    /** A step of locking all queues, or, once they are locked, the look at all of them. */
    method LockStep()
      requires Valid() && main.Locking? && MainNext(View()).Some?
      modifies this`main, this`owner
      ensures Valid() && View() == MainNext(old(View())).value
    {
      var l := main.locker;
      if l.status.Done? {
        var empty := AllQueuesAreEmpty();
        main := Checked(empty);
      } else {
        var (l', owner') := Advance(l, owner, Main).value;
        main, owner := Locking(l'), owner';
      }
    }

    /** One step of the constructor or of `join`. */
    method MainStep() returns (error: Option<Ex>)
      requires Valid() && MainNext(View()).Some?
      modifies this, Parts()
      ensures Valid() && View() == MainNext(old(View())).value
    {
      error := None;
      if main.Draining? {
        error := ProcessException(AwaitingZero);
      } else if main.LastDrain? {
        error := ProcessException(Outside);
      } else if main.Locking? {
        LockStep();
      } else {
        Proceed();
      }
    }

    /** The steps of the main thread between those. */
    method Proceed()
      requires Valid() && MainNext(View()).Some? && !main.Draining? && !main.LastDrain? && !main.Locking?
      modifies this`main, this`racers, this`owner
      ensures Valid() && View() == MainNext(old(View())).value
    {
      match main
      case Building => main, racers := AtStart, racers - 1;
      case AtStart => main := Outside;
      case AwaitingZero => main := Locking(NewLocker(AllPools(|queues|)));
      case Checked(empty) =>
        if !empty {
          main, owner := Draining, Release(owner, Main);
        } else if notIdle.value == 0 {
          main := Broke;
        } else {
          main := Checked(false);
        }
      case Broke => main, owner := LastDrain, Release(owner, Main);
    }

    /** `join` is called from outside. */
    method CallJoin()
      requires Valid() && main.Outside?
      modifies this`main
      ensures Valid() && View() == EventLoop.Next(old(View()), Action.CallJoin).value
    {
      main := Draining;
    }
  }

  /** One empty queue for every pool. */
  method NewQueues<Ev>(n: nat) returns (qs: seq<ConcurrentQueue<Ev>>)
    ensures |qs| == n && forall i :: 0 <= i < n ==> fresh(qs[i])
    ensures forall i, j :: 0 <= i < j < n ==> qs[i] != qs[j]
    ensures forall i :: 0 <= i < n ==> qs[i].Valid() && !qs[i].nowaiting && qs[i].events == []
  {
    qs := [];
    for p := 0 to n
      invariant |qs| == p && forall i :: 0 <= i < p ==> fresh(qs[i])
      invariant forall i, j :: 0 <= i < j < p ==> qs[i] != qs[j]
      invariant forall i :: 0 <= i < p ==> qs[i].Valid() && !qs[i].nowaiting && qs[i].events == []
    {
      var q := new ConcurrentQueue<Ev>(false);
      qs := qs + [q];
    }
  }

  /** The number of workers of a pool. */
  function Strength<Ev>(ws: seq<WorkerState<Ev>>, pool: nat): nat {
    if ws == [] then 0 else Strength(ws[..|ws| - 1], pool) + if ws[|ws| - 1].pool == pool then 1 else 0
  }

  function Sum(sizes: seq<int>): int {
    if sizes == [] then 0 else Sum(sizes[..|sizes| - 1]) + sizes[|sizes| - 1]
  }

  /** Every pool has as many workers as asked for, and there are no others. */
  ghost predicate AsAskedFor<Ev>(ws: seq<WorkerState<Ev>>, sizes: seq<int>) {
    && (forall p :: 0 <= p < |sizes| ==> Strength(ws, p) == sizes[p])
    && |ws| == Sum(sizes)
  }

  lemma StrengthSnoc<Ev>(ws: seq<WorkerState<Ev>>, w: WorkerState<Ev>, pool: nat)
    ensures Strength(ws + [w], pool) == Strength(ws, pool) + if w.pool == pool then 1 else 0
  {
    assert (ws + [w])[..|ws|] == ws;
  }

  lemma {:induction false} NoStrength<Ev>(ws: seq<WorkerState<Ev>>, pool: nat)
    requires forall i :: 0 <= i < |ws| ==> ws[i].pool != pool
    ensures Strength(ws, pool) == 0
  {
    if ws != [] {
      NoStrength(ws[..|ws| - 1], pool);
    }
  }

  /** For every pool as many workers as asked for. */
  method Hire<Ev>(sizes: seq<int>) returns (ws: seq<WorkerState<Ev>>)
    requires forall p :: 0 <= p < |sizes| ==> sizes[p] > 0
    ensures forall i :: 0 <= i < |ws| ==> ws[i].pc.Starting? && ws[i].pool < |sizes|
    ensures Staffed(ws, |sizes|) && AsAskedFor(ws, sizes)
  {
    ws := [];
    for p := 0 to |sizes|
      invariant forall i :: 0 <= i < |ws| ==> ws[i].pc.Starting? && ws[i].pool < p
      invariant Staffed(ws, p) && AsAskedFor(ws, sizes[..p])
    {
      ghost var others := ws;
      NoStrength(ws, p);
      for i := 0 to sizes[p]
        invariant |ws| == |others| + i && ws[..|others|] == others
        invariant forall i :: |others| <= i < |ws| ==> ws[i] == WorkerState(p, Starting)
        invariant forall q :: 0 <= q < p ==> Strength(ws, q) == sizes[q]
        invariant Strength(ws, p) == i
      {
        forall q: nat | q <= p
          ensures Strength(ws + [WorkerState(p, Starting)], q) == Strength(ws, q) + if q == p then 1 else 0
        {
          StrengthSnoc(ws, WorkerState(p, Starting), q);
        }
        ws := ws + [WorkerState(p, Starting)];
      }
      StaffedMore(others, ws, p);
      assert sizes[..p + 1] == sizes[..p] + [sizes[p]];
      assert sizes[..p + 1][..p] == sizes[..p];
    }
    assert sizes[..|sizes|] == sizes;
  }

  lemma StaffedMore<Ev>(before: seq<WorkerState<Ev>>, after: seq<WorkerState<Ev>>, pool: nat)
    requires Staffed(before, pool) && |before| < |after| && after[..|before|] == before && after[|before|].pool == pool
    ensures Staffed(after, pool + 1)
  {
    forall q: nat | q < pool + 1
      ensures Serves(after, q)
    {
      if q < pool {
        assert Serves(before, q);
        var i :| 0 <= i < |before| && before[i].pool == q;
        assert after[i] == before[i];
      }
    }
  }
}
