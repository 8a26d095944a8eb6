/**
 Chains on the machine.  Promises bound one to the next by any callbacks end, and call, exactly as the
 successive `then`s of CallbackPack do, and so as one `>>=` chain does.
 */
module PromiseChain {
  import C = CallbackPack
  import opened PromiseOrder
  import opened PromiseRuns
  import opened PromiseSpec
  import opened Wrappers

  /** A returned promise, as what has become of it; its own calls are not those of the chain. */
  ghost function FateOf<Id, V, E>(h: Heap<Id, V, E>, body: Body<Id, V, E>): C.Fate<V, E, Event<Id, V, E>> {
    match body
    case Throws(error) => C.Now(Err(error))
    case Returns(outcome) => C.Now(outcome)
    case Promised(r) => if OutcomeOf(h, r).Some? then C.Later([], OutcomeOf(h, r).value) else C.Never([])
  }

  /** The callbacks bound to `c`, naming their calls as the machine does. */
  ghost function Named<Id, V, E>(h: Heap<Id, V, E>, c: Id, pack: Pack<Id, V, E>): C.Pack<V, E, Event<Id, V, E>> {
    C.Pack(Some((v: V) => C.Run([Next(c, v)], FateOf(h, pack.next(v)))),
           Some((e: E) => C.Run([Handler(c, e)], FateOf(h, pack.handler(e)))),
           Some(C.Finalizer([Finalizer(c)], pack.finalizer)))
  }

  /** `cells[0]` is bound by `then` to `cells[1]`, and so on. */
  ghost predicate Linked<Id, V, E>(h: Heap<Id, V, E>, cells: seq<Id>) {
    && cells != []
    && forall i :: 0 <= i < |cells| - 1 ==>
         cells[i] in h.bound && h.bound[cells[i]].Then? && h.bound[cells[i]].target == cells[i + 1]
  }

  ghost function Packs<Id, V, E>(h: Heap<Id, V, E>, cells: seq<Id>): seq<C.Pack<V, E, Event<Id, V, E>>>
    requires Linked(h, cells)
  {
    seq(|cells| - 1, i requires 0 <= i < |cells| - 1 => Named(h, cells[i], h.bound[cells[i]].pack))
  }

  /** The calls made by some promises. */
  ghost function Restrict<Id, V, E>(trace: Trace<Id, V, E>, cells: seq<Id>): Trace<Id, V, E> {
    if trace == [] then []
    else
      var last := trace[|trace| - 1];
      Restrict(trace[..|trace| - 1], cells) + (if last.cell in cells then [last] else [])
  }

  lemma {:induction false} RestrictNone<Id, V, E>(trace: Trace<Id, V, E>)
    ensures Restrict(trace, []) == []
    decreases |trace|
  {
    if trace != [] {
      RestrictNone(trace[..|trace| - 1]);
    }
  }

  /** A promise whose calls all come later than those of the others adds its calls at the end. */
  lemma {:induction false} RestrictSnoc<Id, V, E>(trace: Trace<Id, V, E>, cells: seq<Id>, c: Id)
    requires forall i, j :: 0 <= i < |trace| && 0 <= j < |trace| && trace[i].cell in cells && trace[j].cell == c ==>
               i < j
    ensures Restrict(trace, cells + [c]) == Restrict(trace, cells) + Project(trace, c)
    decreases |trace|
  {
    if trace != [] {
      var before, last := trace[..|trace| - 1], trace[|trace| - 1];
      RestrictSnoc(before, cells, c);
      if last.cell in cells {
        ProjectEmpty(trace, cells, c);
        assert last.cell != c;
      }
    }
  }

  lemma ProjectEmpty<Id, V, E>(trace: Trace<Id, V, E>, cells: seq<Id>, c: Id)
    requires trace != [] && trace[|trace| - 1].cell in cells
    requires forall i, j :: 0 <= i < |trace| && 0 <= j < |trace| && trace[i].cell in cells && trace[j].cell == c ==>
               i < j
    ensures trace[|trace| - 1].cell != c && Project(trace[..|trace| - 1], c) == []
  {
    var last := |trace| - 1;
    forall j | 0 <= j < last
      ensures trace[..last][j].cell != c
    {
      assert trace[..last][j] == trace[j];
    }
    ProjectStranger(trace[..last], c);
  }

  // ---------------------------------------------------------------- one link

  /** The callbacks of one promise, as the machine judged them. */
  lemma CallIsJudged<Id, V, E>(h: Heap<Id, V, E>, c: Id, pack: Pack<Id, V, E>, o: Outcome<V, E>)
    ensures var s := C.Call(o, Named(h, c, pack));
      && C.AllCalls(s) == Calls(c, o)
      && C.Eventually(s) ==
           match Judge(pack, o)
           case Decided(outcome) => Some(outcome)
           case Awaits(r) => OutcomeOf(h, r)
  {
  }

  lemma ThenAdds<V, E, T>(r: C.Run<V, E, T>, p: C.Pack<V, E, T>)
    ensures var s := C.Then(r, p);
      match C.Eventually(r)
      case None => s == r
      case Some(o) =>
        && C.Eventually(s) == C.Eventually(C.Call(o, p))
        && C.AllCalls(s) == C.AllCalls(r) + C.AllCalls(C.Call(o, p))
  {
    if C.Eventually(r).Some? {
      var s := C.Call(C.Eventually(r).value, p);
      var done := if r.fate.Now? then [] else r.fate.calls;
      if !s.fate.Now? {
        assert r.trace + (done + s.trace + s.fate.calls) == (r.trace + done) + (s.trace + s.fate.calls);
        assert (r.trace + s.trace) + s.fate.calls == r.trace + (s.trace + s.fate.calls);
      } else {
        assert r.trace + (done + s.trace) == (r.trace + done) + s.trace;
      }
    }
  }

  /** The calls of the last link come after those of the links before it. */
  lemma LastIsLast<Id, V, E>(ops: seq<Op<Id, V, E>>, cells: seq<Id>, i: nat, j: nat)
    requires Run(ops).Done? && Linked(Run(ops).heap, cells) && |cells| > 1
    requires var trace := Run(ops).trace;
      i < |trace| && j < |trace| && trace[i].cell in cells[..|cells| - 1] && trace[j].cell == cells[|cells| - 1]
    ensures i < j
  {
    var k :| 0 <= k < |cells| - 1 && cells[k] == Run(ops).trace[i].cell;
    var path := cells[k..];
    forall m | 0 <= m < |path| - 1
      ensures Link(Run(ops).heap, path[m], path[m + 1])
    {
      assert path[m] == cells[k + m] && path[m + 1] == cells[k + m + 1];
    }
    CallsAreCausal(ops, path, i, j);
  }

  /** One more link adds its calls at the end. */
  lemma LinkRestricts<Id, V, E>(ops: seq<Op<Id, V, E>>, cells: seq<Id>)
    requires |cells| > 1 && Run(ops).Done? && Linked(Run(ops).heap, cells)
    ensures var trace, n := Run(ops).trace, |cells| - 1;
      Restrict(trace, cells[..n]) == Restrict(trace, cells[..n][..n - 1]) + Project(trace, cells[n - 1])
  {
    var trace, before := Run(ops).trace, cells[..|cells| - 1];
    var n := |before|;
    assert before == before[..n - 1] + [before[n - 1]];
    forall i, j | 0 <= i < |trace| && 0 <= j < |trace|
      && trace[i].cell in before[..n - 1] && trace[j].cell == before[n - 1]
      ensures i < j
    {
      LastIsLast(ops, before, i, j);
    }
    RestrictSnoc(trace, before[..n - 1], before[n - 1]);
  }

  // ---------------------------------------------------------------- the chain

  /** What the machine says of a chain whose first promise is settled with `o`. */
  ghost predicate Refines<Id, V, E>(h: Heap<Id, V, E>, trace: Trace<Id, V, E>, cells: seq<Id>, o: Outcome<V, E>)
    requires Linked(h, cells)
  {
    var s := C.Successive(C.Settled(o), Packs(h, cells));
    && OutcomeOf(h, cells[|cells| - 1]) == C.Eventually(s)
    && Restrict(trace, cells[..|cells| - 1]) == C.AllCalls(s)
  }

  lemma {:induction false} ChainRefines<Id, V(!new), E(!new)>(ops: seq<Op<Id, V, E>>, cells: seq<Id>)
    requires Run(ops).Done? && Linked(Run(ops).heap, cells) && OutcomeOf(Run(ops).heap, cells[0]).Some?
    ensures Refines(Run(ops).heap, Run(ops).trace, cells, OutcomeOf(Run(ops).heap, cells[0]).value)
    decreases |cells|
  {
    var h, trace := Run(ops).heap, Run(ops).trace;
    if |cells| == 1 {
      RestrictNone(trace);
    } else {
      var n := |cells| - 1;
      ChainRefines(ops, cells[..n]);
      LinkRefines(ops, cells);
    }
  }

  lemma LinkRefines<Id, V(!new), E(!new)>(ops: seq<Op<Id, V, E>>, cells: seq<Id>)
    requires |cells| > 1 && Run(ops).Done? && Linked(Run(ops).heap, cells) && OutcomeOf(Run(ops).heap, cells[0]).Some?
    requires Linked(Run(ops).heap, cells[..|cells| - 1])
    requires Refines(Run(ops).heap, Run(ops).trace, cells[..|cells| - 1], OutcomeOf(Run(ops).heap, cells[0]).value)
    ensures Refines(Run(ops).heap, Run(ops).trace, cells, OutcomeOf(Run(ops).heap, cells[0]).value)
  {
    var h, trace, n := Run(ops).heap, Run(ops).trace, |cells| - 1;
    var c, before, o := cells[n - 1], cells[..n], OutcomeOf(h, cells[0]).value;
    var p := Named(h, c, h.bound[c].pack);
    var r := C.Successive(C.Settled(o), Packs(h, before));
    assert Packs(h, cells) == Packs(h, before) + [p];
    C.SuccessiveSnoc(C.Settled(o), Packs(h, before), p);
    ThenAdds(r, p);
    ThenLaw(ops, c);
    CalledOnce(ops, c);
    LinkRestricts(ops, cells);
    if OutcomeOf(h, c).Some? {
      CallIsJudged(h, c, h.bound[c].pack, OutcomeOf(h, c).value);
    }
  }

  /**
   In every run, along every chain of promises bound one to the next by `then`, with whatever callbacks: once
   the first has an outcome, the last has the outcome, if any yet, of the successive `then`s of CallbackPack,
   and the trace, restricted to the chain, is their calls in their order.  Both are those of one `>>=` chain.
   */
  lemma ChainOnTheMachine<Id, V(!new), E(!new)>(ops: seq<Op<Id, V, E>>, cells: seq<Id>)
    requires Run(ops).Done? && Linked(Run(ops).heap, cells) && |cells| > 1
    ensures var h, trace, n := Run(ops).heap, Run(ops).trace, |cells| - 1;
      match OutcomeOf(h, cells[0])
      case None => OutcomeOf(h, cells[n]) == None && Restrict(trace, cells[..n]) == []
      case Some(o) =>
        && OutcomeOf(h, cells[n]) == C.Eventually(C.Then(C.Settled(o), C.Chain(Packs(h, cells))))
        && Restrict(trace, cells[..n]) == C.AllCalls(C.Then(C.Settled(o), C.Chain(Packs(h, cells))))
        && C.Then(C.Settled(o), C.Chain(Packs(h, cells))) == C.Successive(C.Settled(o), Packs(h, cells))
  {
    var h := Run(ops).heap;
    if OutcomeOf(h, cells[0]).Some? {
      ChainRefines(ops, cells);
      C.ChainMeaning(C.Settled(OutcomeOf(h, cells[0]).value), Packs(h, cells));
    } else {
      PendingChain(ops, cells);
    }
  }

  lemma {:induction false} PendingChain<Id, V(!new), E(!new)>(ops: seq<Op<Id, V, E>>, cells: seq<Id>)
    requires Run(ops).Done? && Linked(Run(ops).heap, cells) && OutcomeOf(Run(ops).heap, cells[0]).None?
    ensures OutcomeOf(Run(ops).heap, cells[|cells| - 1]).None? && Restrict(Run(ops).trace, cells[..|cells| - 1]) == []
    decreases |cells|
  {
    var h, trace, n := Run(ops).heap, Run(ops).trace, |cells| - 1;
    if n == 0 {
      RestrictNone(trace);
    } else {
      var before, c := cells[..n], cells[n - 1];
      PendingChain(ops, before);
      ThenLaw(ops, c);
      CalledOnce(ops, c);
      LinkRestricts(ops, cells);
    }
  }
}
