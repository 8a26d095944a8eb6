/**
 The order of calls on different promises.  Whatever a promise's outcome depends on has made its calls before
 that promise makes any, and calls once made stay where they are.
 */
module PromiseOrder {
  import opened PromiseRuns
  import opened PromiseSpec
  import opened Wrappers

  /** The outcome of `b` comes from `a`: `a` is bound to it, or is the promise that a callback returned for it. */
  ghost predicate Link<Id, V, E>(h: Heap<Id, V, E>, a: Id, b: Id) {
    || (a in h.bound && Targets(h.bound[a], b))
    || exists c :: c in h.bound && Redirects(h, c, a, b)
  }

  /** A settled promise has only settled promises to thank, all of them older. */
  lemma LinkSettled<Id, V, E>(h: Heap<Id, V, E>, a: Id, b: Id)
    requires BoundOk(h) && ReasonsOk(h) && GivenUnfed(h) && Link(h, a, b) && OutcomeOf(h, b).Some?
    ensures OutcomeOf(h, a).Some? && Older(h, a, b)
  {
    var o := h.cells[b].state.outcome;
    assert Justified(h, b, o);
    if a in h.bound && Targets(h.bound[a], b) {
      assert Fed(h, b);
      var d :| d in h.cells && Reason(h, d, b, o);
      if d in h.bound {
        assert d == a;
      } else {
        var e :| e in h.cells && Redirects(h, e, d, b) && Older(h, e, b);
        assert Targets(h.bound[e], b);
        assert e == a;
      }
    } else {
      var c :| c in h.bound && Redirects(h, c, a, b);
      assert Targets(h.bound[c], b);
      assert Fed(h, b);
      var d :| d in h.cells && Reason(h, d, b, o);
      if d !in h.bound {
        var e :| e in h.cells && Redirects(h, e, d, b) && Older(h, e, b);
        assert Targets(h.bound[e], b);
        assert e == c && d == a;
      }
    }
  }

  ghost predicate GivenUnfed<Id, V, E>(h: Heap<Id, V, E>) {
    forall t :: t in h.given ==> !Fed(h, t)
  }

  // ---------------------------------------------------------------- stamps

  /** All calls of `c` are among the first `n`. */
  ghost predicate Before<Id, V, E>(trace: Trace<Id, V, E>, c: Id, n: nat) {
    forall i :: 0 <= i < |trace| && trace[i].cell == c ==> i < n
  }

  /** A stamp says how many calls had been made when a promise settled; calls follow their own stamp. */
  ghost predicate Stamped<Id, V, E>(h: Heap<Id, V, E>, trace: Trace<Id, V, E>, stamp: map<Id, nat>) {
    && (forall c :: c in h.cells && !h.cells[c].state.Pending? ==> c in stamp && stamp[c] <= |trace|)
    && (forall i :: 0 <= i < |trace| ==>
          var c := trace[i].cell;
          c in h.cells && !h.cells[c].state.Pending? && c in stamp && stamp[c] <= i)
  }

  /** Stamps follow the links, and so do calls. */
  ghost predicate Ordered<Id, V, E>(h: Heap<Id, V, E>, trace: Trace<Id, V, E>, stamp: map<Id, nat>) {
    forall a, b {:trigger Link(h, a, b)} ::
      a in h.cells && b in h.cells && Link(h, a, b) && !h.cells[b].state.Pending? ==>
        && a in stamp && b in stamp && stamp[a] <= stamp[b]
        && (a in h.bound ==> Before(trace, a, stamp[b]))
  }

  ghost predicate Timed<Id, V, E>(h: Heap<Id, V, E>, trace: Trace<Id, V, E>, stamp: map<Id, nat>) {
    Stamped(h, trace, stamp) && Ordered(h, trace, stamp)
  }

  /** What `LinkSettled` needs of a heap. */
  ghost predicate Sound<Id, V, E>(h: Heap<Id, V, E>) {
    BoundOk(h) && ReasonsOk(h) && GivenUnfed(h)
  }

  lemma InvSound<Id, V, E>(h: Heap<Id, V, E>, debt: Debt<Id>)
    requires InvBut(h, debt)
    ensures Sound(h)
  {
  }

  // ---------------------------------------------------------------- each part of a cascade

  lemma AssignStamped<Id, V, E>(h: Heap<Id, V, E>, trace: Trace<Id, V, E>, stamp: map<Id, nat>, t: Id, o: Outcome<V, E>)
    requires Stamped(h, trace, stamp) && t in h.cells && h.cells[t].state.Pending?
    ensures Stamped(Assign(h, t, o), trace, stamp[t := |trace|])
  {
  }

  /** No link of a settled promise appears or disappears when a pending one settles. */
  lemma AssignLinks<Id, V, E>(h: Heap<Id, V, E>, t: Id, o: Outcome<V, E>, a: Id, b: Id)
    requires t in h.cells && h.cells[t].state.Pending? && (h.cells[t].callback.Some? ==> Owed(Assign(h, t, o), t))
    requires BoundOk(h) && b in h.cells && !h.cells[b].state.Pending?
    ensures Link(Assign(h, t, o), a, b) <==> Link(h, a, b)
  {
    var h' := Assign(h, t, o);
    forall c | c in h.bound
      ensures Redirects(h', c, a, b) <==> Redirects(h, c, a, b)
    {
      if c == t {
        assert h.cells[t].callback == Some(h.bound[t]);
      }
    }
  }

  lemma AssignOrdered<Id, V, E>(h: Heap<Id, V, E>, trace: Trace<Id, V, E>, stamp: map<Id, nat>, t: Id, o: Outcome<V, E>)
    requires Timed(h, trace, stamp) && Sound(h)
    requires t in h.cells && h.cells[t].state.Pending? && Sound(Assign(h, t, o))
    requires h.cells[t].callback.Some? ==> Owed(Assign(h, t, o), t)
    ensures Ordered(Assign(h, t, o), trace, stamp[t := |trace|])
  {
    var h', stamp' := Assign(h, t, o), stamp[t := |trace|];
    forall a, b | a in h'.cells && b in h'.cells && Link(h', a, b) && !h'.cells[b].state.Pending?
      ensures a in stamp' && b in stamp' && stamp'[a] <= stamp'[b]
      ensures a in h'.bound ==> Before(trace, a, stamp'[b])
    {
      LinkSettled(h', a, b);
      if b != t {
        AssignLinks(h, t, o, a, b);
        LinkSettled(h, a, b);
      }
    }
  }

  lemma DeliverStamped<Id, V, E>(h: Heap<Id, V, E>, trace: Trace<Id, V, E>, stamp: map<Id, nat>, c: Id)
    requires Timed(h, trace, stamp) && InvBut(h, ByCallback(c)) && Owed(h, c) && h.cells[c].callback.value.Then?
    ensures Timed(h, trace + Calls(c, h.cells[c].state.outcome), stamp)
  {
    var trace' := trace + Calls(c, h.cells[c].state.outcome);
    forall a, b | a in h.cells && b in h.cells && Link(h, a, b) && !h.cells[b].state.Pending? && a in h.bound
      ensures Before(trace', a, stamp[b])
    {
      assert Before(trace, a, stamp[b]);
      if a == c {
        PendingTarget(h, c, b);
      }
    }
  }

  /** The promise that a running callback is to settle is the only one linked to it. */
  lemma PendingTarget<Id, V, E>(h: Heap<Id, V, E>, c: Id, b: Id)
    requires BoundOk(h) && PushesOk(h, ByCallback(c)) && Owed(h, c) && c in h.bound && h.bound[c].Then? && Link(h, c, b)
    ensures b in h.cells && h.cells[b].state.Pending?
  {
    assert h.cells[c].callback == Some(h.bound[c]);
    if !Targets(h.bound[c], b) {
      var e :| e in h.bound && Redirects(h, e, c, b);
      AwaitedForwards(h, c, e, c, b);
    }
  }

  /** A promise that another one's callback returned is forwarded, not bound to callbacks of its own. */
  lemma AwaitedForwards<Id, V, E>(h: Heap<Id, V, E>, c: Id, e: Id, a: Id, b: Id)
    requires BoundOk(h) && PushesOk(h, ByCallback(c)) && e in h.bound && e != c && Redirects(h, e, a, b)
    ensures a in h.cells && h.cells[a].callback == Some(Callback.Forward(b))
  {
    assert Pushed(h, e);
  }

  /** A promise that a callback returned changes no link when it is forwarded. */
  lemma RedirectOrdered<Id, V, E>(h: Heap<Id, V, E>, trace: Trace<Id, V, E>, stamp: map<Id, nat>, r: Id, t: Id)
    requires Timed(h, trace, stamp) && BoundOk(h) && r in h.cells && h.cells[r].callback.None?
    requires !h.cells[r].state.Completed?
    ensures Timed(AfterAttach(h, r, Callback.Forward(t), false), trace, stamp)
  {
    var h' := AfterAttach(h, r, Callback.Forward(t), false);
    assert r !in h.bound;
    assert forall c, a, b :: c in h.bound ==> (Redirects(h', c, a, b) <==> Redirects(h, c, a, b));
    assert forall a, b :: Link(h', a, b) <==> Link(h, a, b);
  }

  /** Binding from outside links only a promise that is still pending. */
  lemma BindOrdered<Id, V, E>(h: Heap<Id, V, E>, trace: Trace<Id, V, E>, stamp: map<Id, nat>, c: Id,
      callback: Callback<Id, V, E>)
    requires Timed(h, trace, stamp) && MayAttach(h, NoDebt, c, callback, true) && !h.cells[c].state.Completed?
    ensures Timed(AfterAttach(h, c, callback, true), trace, stamp)
  {
    var h' := AfterAttach(h, c, callback, true);
    assert c !in h.bound;
    forall a, b | a in h'.cells && b in h'.cells && Link(h', a, b) && !h'.cells[b].state.Pending?
      ensures a in stamp && b in stamp && stamp[a] <= stamp[b]
      ensures a in h'.bound ==> Before(trace, a, stamp[b])
    {
      BoundLinks(h, c, callback, a, b);
    }
  }

  lemma BoundLinks<Id, V, E>(h: Heap<Id, V, E>, c: Id, callback: Callback<Id, V, E>, a: Id, b: Id)
    requires MayAttach(h, NoDebt, c, callback, true) && !h.cells[c].state.Completed?
    requires b in h.cells && !h.cells[b].state.Pending? && Link(AfterAttach(h, c, callback, true), a, b)
    ensures Link(h, a, b) && a != c
  {
    var h' := AfterAttach(h, c, callback, true);
    if a in h'.bound && Targets(h'.bound[a], b) {
      assert a != c;
    } else {
      var e :| e in h'.bound && Redirects(h', e, a, b);
      assert e != c;
      assert Redirects(h, e, a, b);
      assert Pushed(h, e);
    }
  }

  // ---------------------------------------------------------------- whole cascades

  lemma {:induction false} SettleTimed<Id, V, E>(h: Heap<Id, V, E>, trace: Trace<Id, V, E>, stamp: map<Id, nat>,
      debt: Debt<Id>,
                                                 t: Id, o: Outcome<V, E>) returns (stamp': map<Id, nat>)
    requires InvBut(h, debt) && Ready(h, t) && Due(h, debt, t, o) && Timed(h, trace, stamp)
    ensures var r := Settle(h, trace, t, o); r.Done? ==> Timed(r.heap, r.trace, stamp') && trace <= r.trace
    decreases |Open(h)|, 1
  {
    var h' := Assign(h, t, o);
    AssignPays(h, debt, t, o);
    SettleUnfolds(h, trace, t, o);
    InvSound(h, debt);
    InvSound(h', DebtAfter(h, t));
    AssignStamped(h, trace, stamp, t, o);
    AssignOrdered(h, trace, stamp, t, o);
    stamp' := stamp[t := |trace|];
    if h.cells[t].callback.Some? {
      stamp' := DeliverTimed(h', trace, stamp', t);
    }
  }

  lemma {:induction false} DeliverTimed<Id, V, E>(h: Heap<Id, V, E>, trace: Trace<Id, V, E>, stamp: map<Id, nat>, c: Id)
    returns (stamp': map<Id, nat>)
    requires InvBut(h, ByCallback(c)) && Owed(h, c) && Timed(h, trace, stamp)
    ensures var r := Deliver(h, trace, c); r.Done? ==> Timed(r.heap, r.trace, stamp') && trace <= r.trace
    decreases |Open(h)|, 2
  {
    var o := h.cells[c].state.outcome;
    stamp' := stamp;
    match h.cells[c].callback.value
    case Terminator =>
    case Forward(target) =>
      DebtIsDue(h, c, target, o);
      stamp' := SettleTimed(h, trace, stamp, ByCallback(c), target, o);
    case Then(pack, target) =>
      var trace' := trace + Calls(c, o);
      DeliverStamped(h, trace, stamp, c);
      match Judge(pack, o)
      case Decided(outcome) =>
        DebtIsDue(h, c, target, outcome);
        stamp' := SettleTimed(h, trace', stamp, ByCallback(c), target, outcome);
      case Awaits(cell) => stamp' := RedirectTimed(h, trace', stamp, c, cell, target);
  }

  lemma {:induction false} RedirectTimed<Id, V, E>(h: Heap<Id, V, E>, trace: Trace<Id, V, E>, stamp: map<Id, nat>,
      c: Id, r: Id,
                                                   t: Id) returns (stamp': map<Id, nat>)
    requires InvBut(h, ByCallback(c)) && Owed(h, c) && Timed(h, trace, stamp)
    requires h.cells[c].callback.value.Then? && h.cells[c].callback.value.target == t
    requires Judge(h.cells[c].callback.value.pack, h.cells[c].state.outcome) == Awaits(r)
    ensures var s := Attach(h, trace, r, Callback.Forward(t));
      s.Done? ==> Timed(s.heap, s.trace, stamp') && trace <= s.trace
    decreases |Open(h)|, 1
  {
    stamp' := stamp;
    if r in h.cells && h.cells[r].callback.None? && !h.cells[r].state.Completed? {
      RedirectAllowed(h, c, r);
      AttachPays(h, ByCallback(c), r, Callback.Forward(t), false);
      AttachUnfolds(h, trace, r, Callback.Forward(t));
      RedirectOrdered(h, trace, stamp, r, t);
      if !h.cells[r].state.Pending? {
        stamp' := DeliverTimed(AfterAttach(h, r, Callback.Forward(t), false), trace, stamp, r);
      }
    }
  }

  lemma GiveAgainTimed<Id, V, E>(h: Heap<Id, V, E>, trace: Trace<Id, V, E>, stamp: map<Id, nat>, c: Id,
      o: Outcome<V, E>)
    requires BoundOk(h) && Timed(h, trace, stamp) && c in h.cells && h.cells[c].state.Settled?
    requires h.cells[c].callback.None?
    ensures Timed(SetState(h.(given := h.given[c := o]), c, Settled(o)), trace, stamp)
  {
    var h' := SetState(h.(given := h.given[c := o]), c, Settled(o));
    assert forall e, a, b :: e in h.bound ==> (Redirects(h', e, a, b) <==> Redirects(h, e, a, b));
    assert forall a, b :: Link(h', a, b) <==> Link(h, a, b);
  }

  lemma SameLinks<Id, V, E>(h: Heap<Id, V, E>, h': Heap<Id, V, E>, trace: Trace<Id, V, E>, stamp: map<Id, nat>)
    requires Timed(h, trace, stamp) && Sound(h) && h'.bound == h.bound && h.cells.Keys <= h'.cells.Keys
    requires forall c :: c in h'.cells ==>
               if c in h.cells then h'.cells[c] == h.cells[c] else h'.cells[c] == Cell(Pending, None)
    ensures Timed(h', trace, stamp)
  {
    assert forall e, a, b :: e in h.bound ==> (Redirects(h', e, a, b) <==> Redirects(h, e, a, b));
    forall a, b | a in h'.cells && b in h'.cells && Link(h', a, b) && !h'.cells[b].state.Pending?
      ensures a in stamp && b in stamp && stamp[a] <= stamp[b]
      ensures a in h'.bound ==> Before(trace, a, stamp[b])
    {
      assert Link(h, a, b);
      LinkSettled(h, a, b);
    }
  }

  lemma StepTimed<Id, V, E>(h: Heap<Id, V, E>, trace: Trace<Id, V, E>, stamp: map<Id, nat>, op: Op<Id, V, E>)
    returns (stamp': map<Id, nat>)
    requires Inv(h) && Proper(h, op) && Timed(h, trace, stamp) && Step(h, trace, op).Done?
    ensures var r := Step(h, trace, op); Timed(r.heap, r.trace, stamp') && trace <= r.trace
  {
    stamp' := stamp;
    match op
    case Create(c) =>
      SameLinks(h, h.(cells := h.cells[c := Cell(Pending, None)]), trace, stamp);
    case Give(c, o) =>
      if h.cells[c].state.Pending? {
        GiveFirst(h, c, o);
        SameLinks(h, h.(given := h.given[c := o]), trace, stamp);
        stamp' := SettleTimed(h.(given := h.given[c := o]), trace, stamp, ByGift(c), c, o);
      } else {
        GiveAgainTimed(h, trace, stamp, c, o);
      }
    case Bind(c, callback) =>
      BindAllowed(h, c, callback);
      AttachPays(h, NoDebt, c, callback, true);
      AttachUnfolds(Listed(h, c, callback, true), trace, c, callback);
      BindOrdered(h, trace, stamp, c, callback);
      if !h.cells[c].state.Pending? {
        stamp' := DeliverTimed(AfterAttach(h, c, callback, true), trace, stamp, c);
      }
  }

  lemma {:induction false} RunTimed<Id, V, E>(ops: seq<Op<Id, V, E>>) returns (stamp: map<Id, nat>)
    requires Run(ops).Done?
    ensures Timed(Run(ops).heap, Run(ops).trace, stamp)
    decreases |ops|
  {
    if ops == [] {
      stamp := map[];
    } else {
      var before, op := ops[..|ops| - 1], ops[|ops| - 1];
      stamp := RunTimed(before);
      RunKeeps(before);
      stamp := StepTimed(Run(before).heap, Run(before).trace, stamp, op);
    }
  }

  // ---------------------------------------------------------------- theorems

  /** Calls once made stay where they are. */
  lemma {:induction false} CallsStay<Id, V, E>(ops: seq<Op<Id, V, E>>, k: nat)
    requires Run(ops).Done? && k <= |ops|
    ensures Run(ops[..k]).Done? && Run(ops[..k]).trace <= Run(ops).trace
    decreases |ops|
  {
    if k == |ops| {
      assert ops[..k] == ops;
    } else {
      var before, op := ops[..|ops| - 1], ops[|ops| - 1];
      CallsStay(before, k);
      assert before[..k] == ops[..k];
      RunKeeps(before);
      var stamp := RunTimed(before);
      stamp := StepTimed(Run(before).heap, Run(before).trace, stamp, op);
    }
  }

  lemma {:induction false} SettleStays<Id, V, E>(h: Heap<Id, V, E>, trace: Trace<Id, V, E>, t: Id, o: Outcome<V, E>,
      c: Id)
    requires c in h.cells && h.cells[c].state.Completed?
    ensures var r := Settle(h, trace, t, o);
      r.Done? ==> r.heap.bound == h.bound && c in r.heap.cells && r.heap.cells[c] == h.cells[c]
    decreases |Open(h)|, 1
  {
    if t in h.cells && Settle(h, trace, t, o) != Guard {
      SettleUnfolds(h, trace, t, o);
      if h.cells[t].state.Pending? && h.cells[t].callback.Some? {
        DeliverStays(Assign(h, t, o), trace, t, c);
      }
    }
  }

  lemma {:induction false} AttachStays<Id, V, E>(h: Heap<Id, V, E>, trace: Trace<Id, V, E>, t: Id,
      callback: Callback<Id, V, E>, c: Id)
    requires c in h.cells && h.cells[c].state.Completed?
    ensures var r := Attach(h, trace, t, callback);
      r.Done? ==> r.heap.bound == h.bound && c in r.heap.cells && r.heap.cells[c] == h.cells[c]
    decreases |Open(h)|, 1
  {
    if t in h.cells && h.cells[t].callback.None? && !h.cells[t].state.Completed? {
      AttachUnfolds(h, trace, t, callback);
      if h.cells[t].state.Settled? {
        DeliverStays(Attached(h, t, callback), trace, t, c);
      }
    }
  }

  lemma {:induction false} DeliverStays<Id, V, E>(h: Heap<Id, V, E>, trace: Trace<Id, V, E>, t: Id, c: Id)
    requires t in h.cells && h.cells[t].state.Completed? && h.cells[t].callback.Some?
    requires c in h.cells && h.cells[c].state.Completed?
    ensures var r := Deliver(h, trace, t);
      r.Done? ==> r.heap.bound == h.bound && c in r.heap.cells && r.heap.cells[c] == h.cells[c]
    decreases |Open(h)|, 2
  {
    var o := h.cells[t].state.outcome;
    match h.cells[t].callback.value
    case Terminator =>
    case Forward(target) => SettleStays(h, trace, target, o, c);
    case Then(pack, target) =>
      match Judge(pack, o)
      case Decided(outcome) => SettleStays(h, trace + Calls(t, o), target, outcome, c);
      case Awaits(cell) => AttachStays(h, trace + Calls(t, o), cell, Callback.Forward(target), c);
  }

  lemma StepStays<Id, V, E>(h: Heap<Id, V, E>, trace: Trace<Id, V, E>, op: Op<Id, V, E>, c: Id)
    requires BoundOk(h) && c in h.bound && h.cells[c].state.Completed? && Step(h, trace, op).Done?
    ensures var h' := Step(h, trace, op).heap;
      && c in h'.bound && h'.bound[c] == h.bound[c]
      && c in h'.cells && h'.cells[c] == h.cells[c]
  {
    match op
    case Create(d) =>
    case Give(d, o) => SettleStays(h.(given := h.given[d := o]), trace, d, o, c);
    case Bind(d, callback) => AttachStays(h.(bound := h.bound[d := callback]), trace, d, callback, c);
  }

  /** A bound promise that has settled keeps its callbacks and its outcome. */
  lemma {:induction false} CompletedStays<Id, V, E>(ops: seq<Op<Id, V, E>>, k: nat, c: Id)
    requires Run(ops).Done? && k <= |ops| && Run(ops[..k]).Done?
    requires c in Run(ops[..k]).heap.bound && OutcomeOf(Run(ops[..k]).heap, c).Some?
    ensures var h, h' := Run(ops[..k]).heap, Run(ops).heap;
      && c in h'.bound && h'.bound[c] == h.bound[c] && OutcomeOf(h', c) == OutcomeOf(h, c)
      && c in h'.cells && h'.cells[c].state.Completed?
    decreases |ops|
  {
    RunKeeps(ops[..k]);
    if k == |ops| {
      assert ops[..k] == ops;
    } else {
      var before, op := ops[..|ops| - 1], ops[|ops| - 1];
      assert before[..k] == ops[..k];
      CompletedStays(before, k, c);
      RunKeeps(before);
      StepStays(Run(before).heap, Run(before).trace, op, c);
    }
  }

  /** A way that outcomes took, from the first promise to the last. */
  ghost predicate Path<Id, V, E>(h: Heap<Id, V, E>, path: seq<Id>) {
    |path| >= 2 && forall i :: 0 <= i < |path| - 1 ==> Link(h, path[i], path[i + 1])
  }

  lemma {:induction false} PathStamps<Id, V, E>(h: Heap<Id, V, E>, trace: Trace<Id, V, E>, stamp: map<Id, nat>,
      path: seq<Id>)
    requires Timed(h, trace, stamp) && Sound(h) && Path(h, path) && OutcomeOf(h, path[|path| - 1]).Some?
    ensures OutcomeOf(h, path[0]).Some? && OutcomeOf(h, path[1]).Some?
    ensures path[1] in stamp && path[|path| - 1] in stamp && stamp[path[1]] <= stamp[path[|path| - 1]]
    decreases |path|
  {
    var last := |path| - 1;
    LinkSettled(h, path[last - 1], path[last]);
    if |path| > 2 {
      PathStamps(h, trace, stamp, path[..last]);
      assert Link(h, path[last - 1], path[last]);
    }
  }

  /**
   Calls are causal.  Along every way that outcomes took, through callbacks, forwarding and returned
   promises, all calls of the first promise come before all calls of the last.
   */
  lemma CallsAreCausal<Id, V, E>(ops: seq<Op<Id, V, E>>, path: seq<Id>, i: nat, j: nat)
    requires Run(ops).Done? && Path(Run(ops).heap, path)
    requires var trace := Run(ops).trace;
      i < |trace| && j < |trace| && trace[i].cell == path[0] && trace[j].cell == path[|path| - 1]
    ensures i < j
  {
    var h, trace := Run(ops).heap, Run(ops).trace;
    RunKeeps(ops);
    InvSound(h, NoDebt);
    var stamp := RunTimed(ops);
    PathStamps(h, trace, stamp, path);
    CallerIsBound(h, trace, i);
    assert Link(h, path[0], path[1]);
    assert Before(trace, path[0], stamp[path[1]]);
  }

  /** Only a promise bound to callbacks from outside makes calls. */
  lemma CallerIsBound<Id, V, E>(h: Heap<Id, V, E>, trace: Trace<Id, V, E>, i: nat)
    requires Inv(h) && TraceOk(h, trace) && i < |trace|
    ensures trace[i].cell in h.bound && h.bound[trace[i].cell].Then? && OutcomeOf(h, trace[i].cell).Some?
  {
    var c := trace[i].cell;
    ProjectFinds(trace, c, i);
    assert Project(trace, c) == CallsOf(h, c);
  }

  lemma {:induction false} ProjectFinds<Id, V, E>(trace: Trace<Id, V, E>, c: Id, i: nat)
    requires i < |trace| && trace[i].cell == c
    ensures trace[i] in Project(trace, c)
    decreases |trace|
  {
    if i < |trace| - 1 {
      ProjectFinds(trace[..|trace| - 1], c, i);
    }
  }
}
