/**
 Promise states as the program keeps them: objects with a phase, a result, an error and callbacks, which
 settle one another.  Every method is proved to do exactly what the machine of PromiseSpec does on the heap
 of all promises.

 The two closures a promise is given, for resolution and for rejection, are one `Callback` value here.
 */
module PromiseState {
  import opened Wrappers
  import opened PromiseSpec

  datatype Phase = PendingPhase | RejectedPhase | ResolvedPhase | CompletedPhase

  /** How a call returns: normally, by a guard's exception (or a deadlock), or by an unhandled rejection. */
  datatype Status<+E> = Normal | Threw | Unhandled(error: E)

  ghost predicate Meets<Id, V, E>(status: Status<E>, h: Heap<Id, V, E>, trace: Trace<Id, V, E>, r: Result<Id, V, E>) {
    match r
    case Done(h', trace') => status == Normal && h == h' && trace == trace'
    case Guard => status == Threw
    case Uncaught(error) => status == Unhandled(error)
  }

  /** All promises there are, with the histories of PromiseSpec. */
  class Registry<V(!new), E(!new)> {
    ghost var promises: set<Promise<V, E>>
    ghost var trace: Trace<Promise<V, E>, V, E>
    ghost var given: map<Promise<V, E>, Outcome<V, E>>
    ghost var bound: map<Promise<V, E>, Callback<Promise<V, E>, V, E>>
    ghost var rank: map<Promise<V, E>, nat>
    ghost var clock: nat

    constructor ()
      ensures promises == {} && trace == [] && View() == Empty() && Ok()
    {
      promises, trace, given, bound, rank, clock := {}, [], map[], map[], map[], 0;
    }

    ghost function View(): Heap<Promise<V, E>, V, E>
      reads this, promises
    {
      Heap(map p | p in promises :: p.View(), given, bound, rank, clock)
    }

    /** Every promise mentioned is a promise of the registry. */
    ghost predicate Known(callback: Callback<Promise<V, E>, V, E>)
      reads this
    {
      && (!callback.Terminator? ==> callback.target in promises)
      && (callback.Then? ==> forall o :: Judge(callback.pack, o).Awaits? ==> Judge(callback.pack, o).cell in promises)
    }

    ghost predicate Ok()
      reads this, promises
    {
      forall p :: p in promises ==> p.Ok() && (p.callback.Some? ==> Known(p.callback.value))
    }
  }

  class Promise<V(!new), E(!new)> {
    var phase: Phase
    var result: Option<V>
    var error: Option<E>
    var callbacksAssigned: bool
    var onSettled: Option<Callback<Promise<V, E>, V, E>>

    ghost var outcome: Option<Outcome<V, E>>
    ghost var callback: Option<Callback<Promise<V, E>, V, E>>  // survives completion

    ghost predicate Ok()
      reads this
    {
      && callbacksAssigned == callback.Some?
      && (phase != CompletedPhase ==> onSettled == callback)
      && (phase == PendingPhase <==> outcome.None?)
      && (phase == ResolvedPhase ==> result.Some? && outcome == Some(Outcome.Ok(result.value)))
      && (phase == RejectedPhase ==> error.Some? && outcome == Some(Outcome.Err(error.value)))
      && (phase == CompletedPhase ==> callbacksAssigned)
    }

    /** A settled promise with callbacks is running them, or has run them. */
    ghost function View(): Cell<Promise<V, E>, V, E>
      reads this
    {
      Cell(if outcome.None? then Pending
           else if callbacksAssigned then Completed(outcome.value)
           else Settled(outcome.value),
           callback)
    }

    /** The mutex of a promise is held while its callbacks run. */
    predicate Locked()
      reads this
    {
      callbacksAssigned && (phase == ResolvedPhase || phase == RejectedPhase)
    }

    constructor ()
      ensures Ok() && View() == Cell(Pending, None)
    {
      phase, result, error, callbacksAssigned, onSettled := PendingPhase, None, None, false, None;
      outcome, callback := None, None;
    }

    /** What `SetState` finds: the new value is stored, the outcome is not on record yet. */
    ghost predicate Storing(next: Phase, o: Outcome<V, E>)
      reads this
    {
      && callbacksAssigned == callback.Some?
      && (phase != CompletedPhase ==> onSettled == callback)
      && (phase == PendingPhase <==> outcome.None?)
      && (phase == ResolvedPhase ==> outcome.value.Ok?)
      && (phase == RejectedPhase ==> outcome.value.Err?)
      && (phase == CompletedPhase ==> callbacksAssigned)
      && (next == ResolvedPhase ==> o.Ok? && result == Some(o.value))
      && (next == RejectedPhase ==> o.Err? && error == Some(o.error))
    }

    // -------------------------------------------------------------- settling

    method Resolve(value: V, ghost reg: Registry<V, E>) returns (status: Status<E>)
      requires this in reg.promises && reg.Ok()
      modifies reg, reg.promises
      ensures reg.promises == old(reg.promises) && reg.given == old(reg.given) && reg.bound == old(reg.bound)
      ensures Meets(status, reg.View(), reg.trace, Settle(old(reg.View()), old(reg.trace), this, Outcome.Ok(value)))
      ensures status == Normal ==> reg.Ok()
      ensures status == Normal ==> forall p :: p in old(reg.promises) && old(p.View().state.Completed?) ==> unchanged(p)
      decreases |Open(reg.View())|, 2
    {
      if Locked() {
        return Threw;
      }
      result := Some(value);
      assert reg.View() == old(reg.View());
      status := SetState(ResolvedPhase, Outcome.Ok(value), reg);
    }

    method Reject(error: E, ghost reg: Registry<V, E>) returns (status: Status<E>)
      requires this in reg.promises && reg.Ok()
      modifies reg, reg.promises
      ensures reg.promises == old(reg.promises) && reg.given == old(reg.given) && reg.bound == old(reg.bound)
      ensures Meets(status, reg.View(), reg.trace, Settle(old(reg.View()), old(reg.trace), this, Outcome.Err(error)))
      ensures status == Normal ==> reg.Ok()
      ensures status == Normal ==> forall p :: p in old(reg.promises) && old(p.View().state.Completed?) ==> unchanged(p)
      decreases |Open(reg.View())|, 2
    {
      if Locked() {
        return Threw;
      }
      this.error := Some(error);
      assert reg.View() == old(reg.View());
      status := SetState(RejectedPhase, Outcome.Err(error), reg);
    }

    method SetState(next: Phase, ghost o: Outcome<V, E>, ghost reg: Registry<V, E>) returns (status: Status<E>)
      requires this in reg.promises && !Locked() && Storing(next, o)
      requires next == ResolvedPhase || next == RejectedPhase
      requires forall p :: p in reg.promises ==>
                 (p != this ==> p.Ok()) && (p.callback.Some? ==> reg.Known(p.callback.value))
      modifies reg, reg.promises
      ensures reg.promises == old(reg.promises) && reg.given == old(reg.given) && reg.bound == old(reg.bound)
      ensures Meets(status, reg.View(), reg.trace, Settle(old(reg.View()), old(reg.trace), this, o))
      ensures status == Normal ==> reg.Ok()
      ensures status == Normal ==> forall p :: p in old(reg.promises) && old(p.View().state.Completed?) ==> unchanged(p)
      decreases |Open(reg.View())|, 1
    {
      if phase != PendingPhase && phase != next {
        return Threw;
      }
      SettleUnfolds(reg.View(), reg.trace, this, o);
      Store(next, o, reg);
      status := UpdateState(reg);
    }

    /** The transition itself. */
    method Store(next: Phase, ghost o: Outcome<V, E>, ghost reg: Registry<V, E>)
      requires this in reg.promises && Storing(next, o)
      requires next == ResolvedPhase || next == RejectedPhase
      requires phase == PendingPhase || (phase == next && !callbacksAssigned)
      modifies this`phase, this`outcome, reg`rank, reg`clock
      ensures phase == next && Ok()
      ensures var h := old(reg.View());
        reg.View() ==
          if h.cells[this].state.Pending? then Assign(h, this, o) else PromiseSpec.SetState(h, this, Settled(o))
    {
      ghost var h := reg.View();
      if phase == PendingPhase {
        reg.rank := reg.rank[this := reg.clock];
        reg.clock := reg.clock + 1;
      }
      phase := next;
      outcome := Some(o);
      assert reg.View().cells == h.cells[this := View()];
    }

    /** The callbacks run if the promise is settled and has them; then it is completed. */
    method UpdateState(ghost reg: Registry<V, E>) returns (status: Status<E>)
      requires this in reg.promises && reg.Ok() && phase != CompletedPhase
      modifies reg, reg.promises
      ensures reg.promises == old(reg.promises) && reg.given == old(reg.given) && reg.bound == old(reg.bound)
      ensures if old(Locked()) then Meets(status, reg.View(), reg.trace, Deliver(old(reg.View()), old(reg.trace), this))
              else status == Normal && reg.View() == old(reg.View()) && reg.trace == old(reg.trace)
      ensures status == Normal ==> reg.Ok()
      ensures status == Normal ==>
                forall p :: p in old(reg.promises) && p != this && old(p.View().state.Completed?) ==> unchanged(p)
      decreases |Open(reg.View())|, if Locked() then 4 else 0
    {
      status := Normal;
      if Locked() {
        status := RunCallback(reg);
        if status == Normal {
          label ran:
          phase := CompletedPhase;
          onSettled := None;
          assert reg.View() == old@ran(reg.View());
        }
      }
    }

    /** The closures that `then`, `forward_to` and `finish` assign. */
    method RunCallback(ghost reg: Registry<V, E>) returns (status: Status<E>)
      requires this in reg.promises && reg.Ok() && Locked()
      modifies reg, reg.promises
      ensures reg.promises == old(reg.promises) && reg.given == old(reg.given) && reg.bound == old(reg.bound)
      ensures Meets(status, reg.View(), reg.trace, Deliver(old(reg.View()), old(reg.trace), this))
      ensures status == Normal ==> reg.Ok()
      ensures status == Normal ==> forall p :: p in old(reg.promises) && old(p.View().state.Completed?) ==> unchanged(p)
      decreases |Open(reg.View())|, 3, 1
    {
      match onSettled.value
      case Terminator =>
        if phase == RejectedPhase {
          return Unhandled(error.value);
        }
        status := Normal;
      case Forward(target) =>
        if phase == ResolvedPhase {
          status := target.Resolve(result.value, reg);
        } else {
          status := target.Reject(error.value, reg);
        }
      case Then(pack, target) =>
        status := RunThen(pack, target, reg);
    }

    /** `next` or `handler`, then the finalizer, then whatever they decided. */
    method RunThen(pack: Pack<Promise<V, E>, V, E>, target: Promise<V, E>, ghost reg: Registry<V, E>)
      returns (status: Status<E>)
      requires this in reg.promises && reg.Ok() && Locked() && callback == Some(Callback.Then(pack, target))
      modifies reg, reg.promises
      ensures reg.promises == old(reg.promises) && reg.given == old(reg.given) && reg.bound == old(reg.bound)
      ensures Meets(status, reg.View(), reg.trace, Deliver(old(reg.View()), old(reg.trace), this))
      ensures status == Normal ==> reg.Ok()
      ensures status == Normal ==> forall p :: p in old(reg.promises) && old(p.View().state.Completed?) ==> unchanged(p)
      decreases |Open(reg.View())|, 3, 0
    {
      var body := if phase == ResolvedPhase then pack.next(result.value) else pack.handler(error.value);
      ghost var h, verdict := reg.View(), Judge(pack, outcome.value);
      assert verdict.Awaits? ==> verdict.cell in reg.promises;
      reg.trace := reg.trace + Calls(this, outcome.value);
      assert reg.View() == h && reg.Ok();
      if pack.finalizer.Some? {
        status := target.Reject(pack.finalizer.value, reg);
      } else {
        match body
        case Throws(error) => status := target.Reject(error, reg);
        case Returns(Ok(value)) => status := target.Resolve(value, reg);
        case Returns(Err(error)) => status := target.Reject(error, reg);
        case Promised(promise) => status := promise.SetCallbacks(Callback.Forward(target), reg);
      }
    }

    // -------------------------------------------------------------- binding

    /** The assignment itself. */
    method Bind(callback: Callback<Promise<V, E>, V, E>, ghost reg: Registry<V, E>)
      requires this in reg.promises && Ok() && !callbacksAssigned
      modifies this`onSettled, this`callbacksAssigned, this`callback
      ensures phase == old(phase) && callbacksAssigned && Ok() && this.callback == Some(callback)
      ensures var h := old(reg.View());
        var state := if h.cells[this].state.Pending? then Pending else Completed(h.cells[this].state.outcome);
        reg.View() == h.(cells := h.cells[this := Cell(state, Some(callback))])
    {
      ghost var h := reg.View();
      onSettled := Some(callback);
      callbacksAssigned := true;
      this.callback := Some(callback);
      assert reg.View().cells == h.cells[this := View()];
    }

    method SetCallbacks(callback: Callback<Promise<V, E>, V, E>, ghost reg: Registry<V, E>) returns (status: Status<E>)
      requires this in reg.promises && reg.Ok() && reg.Known(callback)
      modifies reg, reg.promises
      ensures reg.promises == old(reg.promises) && reg.given == old(reg.given) && reg.bound == old(reg.bound)
      ensures Meets(status, reg.View(), reg.trace, Attach(old(reg.View()), old(reg.trace), this, callback))
      ensures status == Normal ==> reg.Ok()
      ensures status == Normal ==> forall p :: p in old(reg.promises) && old(p.View().state.Completed?) ==> unchanged(p)
      decreases |Open(reg.View())|, 2
    {
      if Locked() || callbacksAssigned {
        return Threw;
      }
      AttachUnfolds(reg.View(), reg.trace, this, callback);
      Bind(callback, reg);
      status := UpdateState(reg);
    }

    /** `then` with callbacks: the promise it returns is new. */
    method Then(pack: Pack<Promise<V, E>, V, E>, ghost reg: Registry<V, E>) returns (out: Promise<V, E>,
        status: Status<E>)
      requires this in reg.promises && reg.Ok()
      requires forall o :: Judge(pack, o).Awaits? ==> Judge(pack, o).cell in reg.promises
      modifies reg, reg.promises
      ensures fresh(out) && reg.promises == old(reg.promises) + {out}
      ensures var h := old(reg.View());
        Meets(status, reg.View(), reg.trace,
              Step(h.(cells := h.cells[out := Cell(Pending, None)]), old(reg.trace),
                   Op.Bind(this, Callback.Then(pack, out))))
      ensures status == Normal ==> reg.Ok()
    {
      ghost var h := reg.View();
      out := new Promise();
      reg.promises := reg.promises + {out};
      var callback := Callback.Then(pack, out);
      reg.bound := reg.bound[this := callback];
      assert reg.View().cells == h.cells[out := Cell(Pending, None)];
      status := SetCallbacks(callback, reg);
    }

    /** `forward_to` and `finish`, called from outside. */
    method Connect(callback: Callback<Promise<V, E>, V, E>, ghost reg: Registry<V, E>) returns (status: Status<E>)
      requires this in reg.promises && reg.Ok() && reg.Known(callback) && !callback.Then?
      modifies reg, reg.promises
      ensures reg.promises == old(reg.promises)
      ensures Meets(status, reg.View(), reg.trace, Step(old(reg.View()), old(reg.trace), Op.Bind(this, callback)))
      ensures status == Normal ==> reg.Ok()
    {
      ghost var cells := reg.View().cells;
      reg.bound := reg.bound[this := callback];
      assert reg.View().cells == cells;
      status := SetCallbacks(callback, reg);
    }
  }
}
