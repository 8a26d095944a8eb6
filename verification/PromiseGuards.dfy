/**
 When a guard of the promise machine fires: as long as the promises that callbacks return are there for the
 taking, only because of the very call made from outside, never in the middle of a cascade.
 */
module PromiseGuards {
  import opened PromiseSpec
  import opened PromiseRuns
  import opened Wrappers

  /** The callbacks of `c` may return the promise `r`. */
  ghost predicate MayReturn<Id, V(!new), E(!new)>(bound: map<Id, Callback<Id, V, E>>, c: Id, r: Id) {
    c in bound && bound[c].Then? && exists p :: Judge(bound[c].pack, p) == Awaits(r)
  }

  /** Promises that callbacks may return exist, are not bound from outside, and each belongs to one `then`. */
  ghost predicate Available<Id(!new), V(!new), E(!new)>(bound: map<Id, Callback<Id, V, E>>, cells: set<Id>) {
    && (forall c, r :: MayReturn(bound, c, r) ==> r in cells && r !in bound)
    && (forall c, d, r :: MayReturn(bound, c, r) && MayReturn(bound, d, r) ==> c == d)
  }

  lemma {:induction false} SettleSafe<Id(!new), V(!new), E(!new)>(
      h: Heap<Id, V, E>, trace: Trace<Id, V, E>, debt: Debt<Id>, t: Id, o: Outcome<V, E>)
    requires InvBut(h, debt) && Ready(h, t) && Due(h, debt, t, o) && Available(h.bound, h.cells.Keys)
    ensures Settle(h, trace, t, o) != Guard
    decreases |Open(h)|, 1
  {
    AssignPays(h, debt, t, o);
    SettleUnfolds(h, trace, t, o);
    if h.cells[t].callback.Some? {
      assert Assign(h, t, o).cells.Keys == h.cells.Keys;
      DeliverSafe(Assign(h, t, o), trace, t);
    }
  }

  lemma {:induction false} DeliverSafe<Id(!new), V(!new), E(!new)>(h: Heap<Id, V, E>, trace: Trace<Id, V, E>, c: Id)
    requires InvBut(h, ByCallback(c)) && Owed(h, c) && Available(h.bound, h.cells.Keys)
    ensures Deliver(h, trace, c) != Guard
    decreases |Open(h)|, 2
  {
    var o := h.cells[c].state.outcome;
    match h.cells[c].callback.value
    case Terminator =>
    case Forward(target) =>
      DebtIsDue(h, c, target, o);
      SettleSafe(h, trace, ByCallback(c), target, o);
    case Then(pack, target) =>
      match Judge(pack, o)
      case Decided(outcome) =>
        DebtIsDue(h, c, target, outcome);
        SettleSafe(h, trace + Calls(c, o), ByCallback(c), target, outcome);
      case Awaits(r) => RedirectSafe(h, trace + Calls(c, o), c, r, target);
  }

  lemma {:induction false} RedirectSafe<Id(!new), V(!new), E(!new)>(
      h: Heap<Id, V, E>, trace: Trace<Id, V, E>, c: Id, r: Id, t: Id)
    requires InvBut(h, ByCallback(c)) && Owed(h, c) && Available(h.bound, h.cells.Keys)
    requires h.cells[c].callback.value.Then? && h.cells[c].callback.value.target == t
    requires Judge(h.cells[c].callback.value.pack, h.cells[c].state.outcome) == Awaits(r)
    ensures Attach(h, trace, r, Callback.Forward(t)) != Guard
    decreases |Open(h)|, 1
  {
    ReturnedIsFree(h, c, r);
    RedirectAllowed(h, c, r);
    AttachPays(h, ByCallback(c), r, Callback.Forward(t), false);
    AttachUnfolds(h, trace, r, Callback.Forward(t));
    if !h.cells[r].state.Pending? {
      var h' := AfterAttach(h, r, Callback.Forward(t), false);
      assert h'.cells.Keys == h.cells.Keys;
      DeliverSafe(h', trace, r);
    }
  }

  /** Nobody has taken the promise that the running callback has returned. */
  lemma ReturnedIsFree<Id(!new), V(!new), E(!new)>(h: Heap<Id, V, E>, c: Id, r: Id)
    requires InvBut(h, ByCallback(c)) && Owed(h, c) && Available(h.bound, h.cells.Keys)
    requires h.cells[c].callback.value.Then?
    requires Judge(h.cells[c].callback.value.pack, h.cells[c].state.outcome) == Awaits(r)
    ensures r in h.cells && h.cells[r].callback.None? && !h.cells[r].state.Completed?
  {
    ThenIsBound(h, c);
    assert MayReturn(h.bound, c, r);
    if h.cells[r].callback.Some? {
      TakenByOwner(h, c, r);
      TargetTaken(h, c, r);
    }
  }

  lemma TakenByOwner<Id(!new), V(!new), E(!new)>(h: Heap<Id, V, E>, c: Id, r: Id)
    requires BoundOk(h) && Available(h.bound, h.cells.Keys) && MayReturn(h.bound, c, r)
    requires r in h.cells && h.cells[r].callback.Some?
    ensures h.cells[r].callback == Some(Callback.Forward(h.bound[c].target))
  {
    var b :| b in h.cells && Redirects(h, b, r, h.cells[r].callback.value.target);
    assert MayReturn(h.bound, b, r);
  }

  /** A forward to a promise that is still ready to be settled cannot be there. */
  lemma TargetTaken<Id(!new), V(!new), E(!new)>(h: Heap<Id, V, E>, c: Id, r: Id)
    requires ShapeOk(h) && PushesOk(h, ByCallback(c)) && Owed(h, c) && !h.cells[c].callback.value.Terminator? && r != c
    requires r in h.cells
    ensures h.cells[r].callback != Some(Callback.Forward(h.cells[c].callback.value.target))
  {
    var t := h.cells[c].callback.value.target;
    if h.cells[r].callback == Some(Callback.Forward(t)) {
      if h.cells[r].state.Pending? {
        assert Waits(h, r, t);
      } else {
        ForwardPushed(h, c, r, t);
      }
    }
  }

  lemma ForwardPushed<Id(!new), V(!new), E(!new)>(h: Heap<Id, V, E>, c: Id, r: Id, t: Id)
    requires PushesOk(h, ByCallback(c)) && r != c
    requires r in h.cells && h.cells[r].state.Completed? && h.cells[r].callback == Some(Callback.Forward(t))
    ensures OutcomeOf(h, t).Some?
  {
    assert Pushed(h, r);
  }

  /** Only a forward is ever bound from within. */
  lemma ThenIsBound<Id, V(!new), E(!new)>(h: Heap<Id, V, E>, c: Id)
    requires BoundOk(h) && c in h.cells && h.cells[c].callback.Some? && h.cells[c].callback.value.Then?
    ensures c in h.bound && h.cells[c].callback == Some(h.bound[c])
  {
  }

  /** What a call would have to violate by itself for a guard to fire on it. */
  predicate Misused<Id, V, E>(h: Heap<Id, V, E>, op: Op<Id, V, E>) {
    match op
    case Create(c) => c in h.cells
    case Give(c, o) =>
      || c !in h.cells || h.cells[c].state.Completed?
      || (h.cells[c].state.Settled? && h.cells[c].state.outcome.Ok? != o.Ok?)
    case Bind(c, _) => c !in h.cells || h.cells[c].callback.Some?
  }

  lemma GiveSafe<Id(!new), V(!new), E(!new)>(h: Heap<Id, V, E>, trace: Trace<Id, V, E>, c: Id, o: Outcome<V, E>)
    requires Inv(h) && Available(h.bound, h.cells.Keys) && Proper(h, Give(c, o)) && !Misused(h, Give(c, o))
    ensures Step(h, trace, Give(c, o)) != Guard
  {
    var h' := h.(given := h.given[c := o]);
    if h.cells[c].state.Pending? {
      GiveFirst(h, c, o);
      SettleSafe(h', trace, ByGift(c), c, o);
    } else {
      SettleUnfolds(h', trace, c, o);
    }
  }

  lemma BindSafe<Id(!new), V(!new), E(!new)>(h: Heap<Id, V, E>, trace: Trace<Id, V, E>, c: Id,
      callback: Callback<Id, V, E>)
    requires Inv(h) && Available(h.bound[c := callback], h.cells.Keys) && Proper(h, Bind(c, callback))
    requires !Misused(h, Bind(c, callback))
    ensures Step(h, trace, Bind(c, callback)) != Guard
  {
    BindAllowed(h, c, callback);
    AttachPays(h, NoDebt, c, callback, true);
    AttachUnfolds(Listed(h, c, callback, true), trace, c, callback);
    if !h.cells[c].state.Pending? {
      assert AfterAttach(h, c, callback, true).cells.Keys == h.cells.Keys;
      DeliverSafe(AfterAttach(h, c, callback, true), trace, c);
    }
  }

  /**
   In every run whose callbacks return settled results or available promises, pending or not, a proper call
   meets a guard exactly if that call itself is a misuse: it creates a promise again, settles a missing or
   completed one, settles one the other way round, or binds one that is missing or bound already.
   */
  lemma GuardsExactly<Id(!new), V(!new), E(!new)>(ops: seq<Op<Id, V, E>>, op: Op<Id, V, E>)
    requires Run(ops).Done? && Proper(Run(ops).heap, op)
    requires var h := Run(ops).heap;
      Available(if op.Bind? then h.bound[op.cell := op.callback] else h.bound, h.cells.Keys)
    ensures Step(Run(ops).heap, Run(ops).trace, op) == Guard <==> Misused(Run(ops).heap, op)
  {
    RunKeeps(ops);
    var h, trace := Run(ops).heap, Run(ops).trace;
    if !Misused(h, op) {
      match op
      case Create(_) =>
      case Give(c, o) => GiveSafe(h, trace, c, o);
      case Bind(c, callback) => BindSafe(h, trace, c, callback);
    } else {
      MisuseIsGuarded(h, trace, op);
    }
  }

  lemma MisuseIsGuarded<Id, V, E>(h: Heap<Id, V, E>, trace: Trace<Id, V, E>, op: Op<Id, V, E>)
    requires Misused(h, op)
    ensures Step(h, trace, op) == Guard
  {
  }
}
