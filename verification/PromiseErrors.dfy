/**
 The promise machine against its run: the graph whose meaning it computes is the one that was bound from
 outside, and an error escapes exactly if it reaches a promise whose rejection nobody is there to handle.
 */
module PromiseErrors {
  import opened PromiseGuards
  import opened PromiseSpec
  import opened PromiseRuns
  import opened Wrappers

  // ---------------------------------------------------------------- the run is what was asked for

  /** The promises created by a run. */
  function CreatedBy<Id, V, E>(ops: seq<Op<Id, V, E>>): set<Id> {
    if ops == [] then {}
    else
      var last := ops[|ops| - 1];
      CreatedBy(ops[..|ops| - 1]) + if last.Create? then {last.cell} else {}
  }

  /** The outcome each promise was last given from outside. */
  function GivenBy<Id, V, E>(ops: seq<Op<Id, V, E>>): map<Id, Outcome<V, E>> {
    if ops == [] then map[]
    else
      var before, last := GivenBy(ops[..|ops| - 1]), ops[|ops| - 1];
      if last.Give? then before[last.cell := last.outcome] else before
  }

  function BoundBy<Id, V, E>(ops: seq<Op<Id, V, E>>): map<Id, Callback<Id, V, E>> {
    if ops == [] then map[]
    else
      var before, last := BoundBy(ops[..|ops| - 1]), ops[|ops| - 1];
      if last.Bind? then before[last.cell := last.callback] else before
  }

  /** A cascade creates nothing, and what is bound or given within is not counted. */
  ghost predicate SameGraph<Id, V, E>(h: Heap<Id, V, E>, r: Result<Id, V, E>) {
    r.Done? ==> r.heap.bound == h.bound && r.heap.given == h.given && r.heap.cells.Keys == h.cells.Keys
  }

  lemma {:induction false} SettleSameGraph<Id, V, E>(h: Heap<Id, V, E>, trace: Trace<Id, V, E>, t: Id, o: Outcome<V, E>)
    ensures SameGraph(h, Settle(h, trace, t, o))
    decreases |Open(h)|, 1
  {
    if t in h.cells && h.cells[t].state.Pending? && h.cells[t].callback.Some? {
      OpenShrinks(h, t, o);
      DeliverSameGraph(Assign(h, t, o), trace, t);
      assert Assign(h, t, o).cells.Keys == h.cells.Keys;
    }
  }

  lemma {:induction false} AttachSameGraph<Id, V, E>(h: Heap<Id, V, E>, trace: Trace<Id, V, E>, c: Id,
                                                     callback: Callback<Id, V, E>)
    ensures SameGraph(h, Attach(h, trace, c, callback))
    decreases |Open(h)|, 1
  {
    if c in h.cells && h.cells[c].callback.None? && !h.cells[c].state.Completed? {
      AttachUnfolds(h, trace, c, callback);
      if h.cells[c].state.Settled? {
        var h' := h.(cells := h.cells[c := Cell(Completed(h.cells[c].state.outcome), Some(callback))]);
        DeliverSameGraph(h', trace, c);
        assert h'.cells.Keys == h.cells.Keys;
      }
    }
  }

  lemma {:induction false} DeliverSameGraph<Id, V, E>(h: Heap<Id, V, E>, trace: Trace<Id, V, E>, c: Id)
    requires c in h.cells && h.cells[c].state.Completed? && h.cells[c].callback.Some?
    ensures SameGraph(h, Deliver(h, trace, c))
    decreases |Open(h)|, 2
  {
    var o := h.cells[c].state.outcome;
    match h.cells[c].callback.value
    case Terminator =>
    case Forward(target) => SettleSameGraph(h, trace, target, o);
    case Then(pack, target) =>
      match Judge(pack, o)
      case Decided(outcome) => SettleSameGraph(h, trace + Calls(c, o), target, outcome);
      case Awaits(r) => AttachSameGraph(h, trace + Calls(c, o), r, Callback.Forward(target));
  }

  /** The promises, outcomes and callbacks of a heap are those the calls from outside have put there. */
  lemma {:induction false} HeapIsTheRun<Id, V, E>(ops: seq<Op<Id, V, E>>)
    requires Run(ops).Done?
    ensures var h := Run(ops).heap;
      h.cells.Keys == CreatedBy(ops) && h.given == GivenBy(ops) && h.bound == BoundBy(ops)
    decreases |ops|
  {
    if ops != [] {
      var before := Run(ops[..|ops| - 1]);
      HeapIsTheRun(ops[..|ops| - 1]);
      match ops[|ops| - 1]
      case Create(c) =>
      case Give(c, o) => SettleSameGraph(before.heap.(given := before.heap.given[c := o]), before.trace, c, o);
      case Bind(c, callback) =>
        AttachSameGraph(before.heap.(bound := before.heap.bound[c := callback]), before.trace, c, callback);
    }
  }

  /** The refinement, read off the run: only what was bound and given counts, and never when. */
  lemma RunMeans<Id, V(!new), E(!new)>(ops: seq<Op<Id, V, E>>, t: Id, o: Outcome<V, E>)
    requires Run(ops).Done?
    ensures OutcomeOf(Run(ops).heap, t) == Some(o) <==> exists n :: Denotes(n, BoundBy(ops), GivenBy(ops), t, o)
  {
    HeapIsTheRun(ops);
    MachineComputesMeaning(ops, t, o);
  }

  // ---------------------------------------------------------------- errors nobody handles

  /** The graph means a rejection with `e` for a promise that ends in a terminator. */
  ghost predicate Escapes<Id(!new), V(!new), E(!new)>(bound: map<Id, Callback<Id, V, E>>, given: map<Id, Outcome<V, E>>,
                                                      e: E) {
    exists n, c :: c in bound && bound[c].Terminator? && Denotes(n, bound, given, c, Err(e))
  }

  lemma TerminatorEscapes<Id(!new), V(!new), E(!new)>(h: Heap<Id, V, E>, c: Id, e: E)
    requires ShapeOk(h) && BoundOk(h) && ReasonsOk(h)
    requires c in h.cells && h.cells[c] == Cell(Completed(Err(e)), Some(Terminator))
    ensures Escapes(h.bound, h.given, e)
  {
    var n := SettledDenotes(h, c);
  }

  lemma {:induction false} SettleEscapes<Id(!new), V(!new), E(!new)>(
      h: Heap<Id, V, E>, trace: Trace<Id, V, E>, debt: Debt<Id>, t: Id, o: Outcome<V, E>)
    requires InvBut(h, debt) && Ready(h, t) && Due(h, debt, t, o)
    ensures var r := Settle(h, trace, t, o); r.Uncaught? ==> Escapes(h.bound, h.given, r.error)
    decreases |Open(h)|, 1
  {
    AssignPays(h, debt, t, o);
    SettleUnfolds(h, trace, t, o);
    if h.cells[t].callback.Some? {
      DeliverEscapes(Assign(h, t, o), trace, t);
    }
  }

  lemma {:induction false} DeliverEscapes<Id(!new), V(!new), E(!new)>(h: Heap<Id, V, E>, trace: Trace<Id, V, E>, c: Id)
    requires InvBut(h, ByCallback(c)) && Owed(h, c)
    ensures var r := Deliver(h, trace, c); r.Uncaught? ==> Escapes(h.bound, h.given, r.error)
    decreases |Open(h)|, 2
  {
    var o := h.cells[c].state.outcome;
    match h.cells[c].callback.value
    case Terminator =>
      if o.Err? {
        TerminatorEscapes(h, c, o.error);
      }
    case Forward(target) =>
      DebtIsDue(h, c, target, o);
      SettleEscapes(h, trace, ByCallback(c), target, o);
    case Then(pack, target) =>
      match Judge(pack, o)
      case Decided(outcome) =>
        DebtIsDue(h, c, target, outcome);
        SettleEscapes(h, trace + Calls(c, o), ByCallback(c), target, outcome);
      case Awaits(r) => RedirectEscapes(h, trace + Calls(c, o), c, r, target);
  }

  lemma {:induction false} RedirectEscapes<Id(!new), V(!new), E(!new)>(
      h: Heap<Id, V, E>, trace: Trace<Id, V, E>, c: Id, r: Id, t: Id)
    requires InvBut(h, ByCallback(c)) && Owed(h, c)
    requires h.cells[c].callback.value.Then? && h.cells[c].callback.value.target == t
    requires Judge(h.cells[c].callback.value.pack, h.cells[c].state.outcome) == Awaits(r)
    ensures var x := Attach(h, trace, r, Callback.Forward(t)); x.Uncaught? ==> Escapes(h.bound, h.given, x.error)
    decreases |Open(h)|, 1
  {
    if r in h.cells && h.cells[r].callback.None? {
      RedirectAllowed(h, c, r);
      AttachPays(h, ByCallback(c), r, Callback.Forward(t), false);
      AttachUnfolds(h, trace, r, Callback.Forward(t));
      if !h.cells[r].state.Pending? {
        DeliverEscapes(AfterAttach(h, r, Callback.Forward(t), false), trace, r);
      }
    }
  }

  lemma StepEscapes<Id(!new), V(!new), E(!new)>(h: Heap<Id, V, E>, trace: Trace<Id, V, E>, op: Op<Id, V, E>)
    requires Inv(h) && Proper(h, op) && Step(h, trace, op).Uncaught?
    ensures Escapes(if op.Bind? then h.bound[op.cell := op.callback] else h.bound,
                    if op.Give? then h.given[op.cell := op.outcome] else h.given, Step(h, trace, op).error)
  {
    match op
    case Give(c, o) =>
      GiveFirst(h, c, o);
      SettleEscapes(h.(given := h.given[c := o]), trace, ByGift(c), c, o);
    case Bind(c, callback) =>
      BindAllowed(h, c, callback);
      AttachPays(h, NoDebt, c, callback, true);
      AttachUnfolds(Listed(h, c, callback, true), trace, c, callback);
      if !h.cells[c].state.Pending? {
        DeliverEscapes(AfterAttach(h, c, callback, true), trace, c);
      }
  }

  lemma TerminatedIsResolved<Id, V, E>(h: Heap<Id, V, E>, c: Id)
    requires Inv(h) && c in h.bound && h.bound[c].Terminator?
    ensures OutcomeOf(h, c).Some? ==> OutcomeOf(h, c).value.Ok?
  {
    if OutcomeOf(h, c).Some? {
      assert Pushed(h, c);
    }
  }

  /** No rejected promise ends in a terminator. */
  lemma NothingEscapes<Id(!new), V(!new), E(!new)>(ops: seq<Op<Id, V, E>>, e: E)
    requires Run(ops).Done?
    ensures !Escapes(BoundBy(ops), GivenBy(ops), e)
  {
    HeapIsTheRun(ops);
    RunKeeps(ops);
    var h := Run(ops).heap;
    if Escapes(h.bound, h.given, e) {
      var n, c :| c in h.bound && h.bound[c].Terminator? && Denotes(n, h.bound, h.given, c, Err(e));
      TerminatedIsResolved(h, c);
      DenotedSettles(h, n, c, Err(e));
    }
  }

  lemma RunStepped<Id, V, E>(ops: seq<Op<Id, V, E>>, op: Op<Id, V, E>)
    requires Run(ops).Done? && Proper(Run(ops).heap, op)
    ensures Run(ops + [op]) == Step(Run(ops).heap, Run(ops).trace, op)
    ensures GivenBy(ops + [op]) == if op.Give? then GivenBy(ops)[op.cell := op.outcome] else GivenBy(ops)
    ensures BoundBy(ops + [op]) == if op.Bind? then BoundBy(ops)[op.cell := op.callback] else BoundBy(ops)
  {
    assert (ops + [op])[..|ops|] == ops;
  }

  /**
   When an error escapes.  A proper call on a run throws an error that nobody has handled exactly if the graph,
   with what the call adds to it, means a rejection for a promise that ends in a terminator; and the error
   thrown is that of such a promise.
   */
  lemma UncaughtExactly<Id(!new), V(!new), E(!new)>(ops: seq<Op<Id, V, E>>, op: Op<Id, V, E>)
    requires Run(ops).Done? && Proper(Run(ops).heap, op) && !Misused(Run(ops).heap, op)
    requires var h := Run(ops).heap;
      Available(if op.Bind? then h.bound[op.cell := op.callback] else h.bound, h.cells.Keys)
    ensures var r, graph, given := Run(ops + [op]), BoundBy(ops + [op]), GivenBy(ops + [op]);
      && (r.Uncaught? <==> exists e :: Escapes(graph, given, e))
      && (r.Uncaught? ==> Escapes(graph, given, r.error))
  {
    RunStepped(ops, op);
    HeapIsTheRun(ops);
    RunKeeps(ops);
    GuardsExactly(ops, op);
    var h, trace := Run(ops).heap, Run(ops).trace;
    if Step(h, trace, op).Uncaught? {
      StepEscapes(h, trace, op);
    } else {
      forall e ensures !Escapes(BoundBy(ops + [op]), GivenBy(ops + [op]), e) {
        NothingEscapes(ops + [op], e);
      }
    }
  }
}
