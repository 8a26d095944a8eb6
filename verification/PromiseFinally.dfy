/**
 Two forms that promise.md calls functionally equivalent: `then` with a finalizer, and `then` without one
 followed by `finally`.  On the machine they are not, and this is exactly when they are.
 */
module PromiseFinally {
  import opened PromiseOrder
  import opened PromiseRuns
  import opened PromiseSpec
  import opened Wrappers

  /** The callbacks of `finally`: defaults that pass the outcome on, and a finalizer. */
  function Finally<Id, V, E>(f: Option<E>): Pack<Id, V, E> {
    Pack((v: V) => Returns(Ok(v)), (e: E) => Throws(e), f)
  }

  /** The callbacks with one more finalizer, as `/` combines them: the later exception wins. */
  function WithFinalizer<Id, V, E>(pack: Pack<Id, V, E>, f: Option<E>): Pack<Id, V, E> {
    pack.(finalizer := if f.Some? then f else pack.finalizer)
  }

  /** `then` on `c` with the callbacks of `pack` and the finalizer `f`, into `out`. */
  ghost predicate AtOnce<Id, V, E>(h: Heap<Id, V, E>, c: Id, pack: Pack<Id, V, E>, f: Option<E>, out: Id) {
    c in h.bound && h.bound[c] == Then(WithFinalizer(pack, f), out)
  }

  /** `then` on `c` with the callbacks of `pack`, into `middle`, and `finally` on that, into `out`. */
  ghost predicate InTurn<Id, V, E>(h: Heap<Id, V, E>, c: Id, pack: Pack<Id, V, E>, f: Option<E>, middle: Id, out: Id) {
    && c in h.bound && h.bound[c] == Then(pack, middle)
    && middle in h.bound && h.bound[middle] == Then(Finally(f), out)
  }

  /** Two runs give the callbacks of `pack` the same outcome, and the promise they return, if any, another. */
  ghost predicate SameInput<Id, V, E>(h: Heap<Id, V, E>, c: Id, h': Heap<Id, V, E>, c': Id, pack: Pack<Id, V, E>) {
    && OutcomeOf(h, c) == OutcomeOf(h', c')
    && (OutcomeOf(h, c).Some? ==>
          var v := Judge(pack, OutcomeOf(h, c).value);
          v.Awaits? ==> OutcomeOf(h, v.cell) == OutcomeOf(h', v.cell))
  }

  /** What the callbacks decided is still out: they returned a promise that is pending. */
  ghost predicate StillOut<Id, V, E>(h: Heap<Id, V, E>, c: Id, pack: Pack<Id, V, E>) {
    && OutcomeOf(h, c).Some?
    && var v := Judge(pack, OutcomeOf(h, c).value);
       v.Awaits? && OutcomeOf(h, v.cell).None?
  }

  /**
   The outcomes.  In any two runs, one of each form, on the same input, the two outputs are in the same state
   if and only if the finalizer does not throw or the callbacks did not return a promise that is pending.
   Otherwise the first is rejected already and the second still waits.
   */
  lemma OutcomesAgree<Id, V(!new), E(!new)>(
      ops: seq<Op<Id, V, E>>, c: Id, out: Id, ops': seq<Op<Id, V, E>>, c': Id, middle: Id, out': Id,
      pack: Pack<Id, V, E>, f: Option<E>)
    requires Run(ops).Done? && Run(ops').Done?
    requires AtOnce(Run(ops).heap, c, pack, f, out) && InTurn(Run(ops').heap, c', pack, f, middle, out')
    requires SameInput(Run(ops).heap, c, Run(ops').heap, c', pack)
    ensures OutcomeOf(Run(ops).heap, out) == OutcomeOf(Run(ops').heap, out')
      <==> f.None? || !StillOut(Run(ops).heap, c, pack)
    ensures f.Some? && StillOut(Run(ops).heap, c, pack) ==>
      OutcomeOf(Run(ops).heap, out) == Some(Err(f.value)) && OutcomeOf(Run(ops').heap, out') == None
  {
    ThenLaw(ops, c);
    ThenLaw(ops', c');
    ThenLaw(ops', middle);
  }

  /** Where `e` stands in a trace. */
  ghost predicate At<Id, V, E>(trace: Trace<Id, V, E>, i: nat, e: Event<Id, V, E>) {
    i < |trace| && trace[i] == e
  }

  /**
   The order of calls.  Look at any moment when a callback of `c` has returned the promise `r`, and `r` is
   pending.  The finalizer of that `then` has run by then, straight after the callback.  That of a `finally` on
   its output has not: it runs if and only if `r` settles, after every call made until that moment.
   */
  lemma FinalizerTiming<Id, V(!new), E(!new)>(ops: seq<Op<Id, V, E>>, k: nat, c: Id, middle: Id, r: Id)
    requires Run(ops).Done? && k <= |ops| && Run(ops[..k]).Done?
    requires var h := Run(ops[..k]).heap;
      && c in h.bound && h.bound[c].Then? && h.bound[c].target == middle
      && OutcomeOf(h, c).Some? && Judge(h.bound[c].pack, OutcomeOf(h, c).value) == Awaits(r) && OutcomeOf(h, r).None?
    requires middle in Run(ops).heap.bound && Run(ops).heap.bound[middle].Then?
    ensures var now, trace := Run(ops[..k]).trace, Run(ops).trace;
      && now <= trace
      && (exists i: nat :: At(now, i + 1, Finalizer(c)) && now[i].cell == c && !now[i].Finalizer?)
      && (forall j: nat :: At(trace, j, Finalizer(middle)) ==> |now| <= j)
      && ((exists j: nat :: At(trace, j, Finalizer(middle))) <==> OutcomeOf(Run(ops).heap, r).Some?)
  {
    var now, trace := Run(ops[..k]).trace, Run(ops).trace;
    CallsStay(ops, k);
    CompletedStays(ops, k, c);
    FinalizerStraightAfter(ops[..k], c);
    NotYet(ops[..k], c, middle);
    forall j: nat | At(trace, j, Finalizer(middle))
      ensures |now| <= j
    {
      BeyondPrefix(now, trace, j);
    }
    FinallyRuns(ops, c, middle, r);
  }

  lemma BeyondPrefix<Id, V, E>(now: Trace<Id, V, E>, trace: Trace<Id, V, E>, j: nat)
    requires now <= trace && j < |trace| && forall i :: 0 <= i < |now| ==> now[i].cell != trace[j].cell
    ensures |now| <= j
  {
    if j < |now| {
      PrefixAt(now, trace, j);
    }
  }

  lemma PrefixAt<T>(now: seq<T>, trace: seq<T>, j: nat)
    requires now <= trace && j < |now|
    ensures now[j] == trace[j]
  {
  }

  lemma FinalizerStraightAfter<Id, V, E>(ops: seq<Op<Id, V, E>>, c: Id)
    requires Run(ops).Done? && c in Run(ops).heap.bound && Run(ops).heap.bound[c].Then?
    requires OutcomeOf(Run(ops).heap, c).Some?
    ensures var trace := Run(ops).trace;
      exists i: nat :: At(trace, i + 1, Finalizer(c)) && trace[i].cell == c && !trace[i].Finalizer?
  {
    CalledOnce(ops, c);
    var trace := Run(ops).trace;
    var first := Project(trace, c)[0];
    var i := ProjectPlace(trace, c, first);
    PairAt(trace, i);
    assert At(trace, i + 1, Finalizer(c));
  }

  /** A callback in the trace has its finalizer right behind it. */
  lemma PairAt<Id, V, E>(trace: Trace<Id, V, E>, i: nat)
    requires Paired(trace) && i < |trace| && !trace[i].Finalizer?
    ensures i + 1 < |trace| && trace[i + 1] == Finalizer(trace[i].cell)
  {
    var k := i / 2;
    assert trace[2 * k] == trace[2 * k];
    assert i == 2 * k || i == 2 * k + 1;
  }

  lemma {:induction false} ProjectPlace<Id, V, E>(trace: Trace<Id, V, E>, c: Id, e: Event<Id, V, E>) returns (i: nat)
    requires e in Project(trace, c)
    ensures i < |trace| && trace[i] == e && e.cell == c
    decreases |trace|
  {
    var last := |trace| - 1;
    if trace[last].cell == c && trace[last] == e {
      i := last;
    } else {
      i := ProjectPlace(trace[..last], c, e);
    }
  }

  /** While the returned promise is pending, so is the output, and nothing bound to it has been called. */
  lemma NotYet<Id, V(!new), E(!new)>(ops: seq<Op<Id, V, E>>, c: Id, middle: Id)
    requires Run(ops).Done? && c in Run(ops).heap.bound && Run(ops).heap.bound[c].Then?
    requires Run(ops).heap.bound[c].target == middle && StillOut(Run(ops).heap, c, Run(ops).heap.bound[c].pack)
    ensures forall i :: 0 <= i < |Run(ops).trace| ==> Run(ops).trace[i].cell != middle
  {
    ThenLaw(ops, c);
    RunKeeps(ops);
    forall i | 0 <= i < |Run(ops).trace|
      ensures Run(ops).trace[i].cell != middle
    {
      CallerIsBound(Run(ops).heap, Run(ops).trace, i);
    }
  }

  lemma FinallyRuns<Id, V(!new), E(!new)>(ops: seq<Op<Id, V, E>>, c: Id, middle: Id, r: Id)
    requires Run(ops).Done?
    requires var h := Run(ops).heap;
      && c in h.bound && h.bound[c].Then? && h.bound[c].target == middle
      && middle in h.bound && h.bound[middle].Then?
      && OutcomeOf(h, c).Some? && Judge(h.bound[c].pack, OutcomeOf(h, c).value) == Awaits(r)
    ensures (exists j: nat :: At(Run(ops).trace, j, Finalizer(middle))) <==> OutcomeOf(Run(ops).heap, r).Some?
  {
    var h, trace := Run(ops).heap, Run(ops).trace;
    ThenLaw(ops, c);
    if OutcomeOf(h, r).Some? {
      FinalizerStraightAfter(ops, middle);
    }
    if exists j: nat :: At(trace, j, Finalizer(middle)) {
      var j: nat :| At(trace, j, Finalizer(middle));
      RunKeeps(ops);
      CallerIsBound(h, trace, j);
    }
  }

  // ---------------------------------------------------------------- a run of each form

  /** Callbacks that return promise 2, whatever the outcome. */
  function ReturnsTwo(): Pack<int, int, int> {
    Pack((v: int) => Promised(2), (e: int) => Promised(2), None)
  }

  function FormAtOnce(): seq<Op<int, int, int>> {
    [Create(0), Create(1), Create(2), Op.Bind(0, Then(WithFinalizer(ReturnsTwo(), Some(9)), 1)), Give(0, Ok(5))]
  }

  function FormInTurn(): seq<Op<int, int, int>> {
    [Create(0), Create(1), Create(2), Create(3),
     Op.Bind(0, Then(ReturnsTwo(), 1)), Op.Bind(1, Then(Finally(Some(9)), 3)),
     Give(0, Ok(5))]
  }

  lemma Extend<Id, V, E>(ops: seq<Op<Id, V, E>>, n: nat)
    requires n < |ops| && Run(ops[..n]).Done? && Proper(Run(ops[..n]).heap, ops[n])
    ensures Run(ops[..n + 1]) == Step(Run(ops[..n]).heap, Run(ops[..n]).trace, ops[n])
  {
    assert ops[..n + 1][..n] == ops[..n];
  }

  /** Promises 0 to n - 1, all new. */
  function Fresh(n: nat): (h: Heap<int, int, int>)
    ensures forall i :: i in h.cells <==> 0 <= i < n
    ensures forall i :: i in h.cells ==> h.cells[i] == Cell(Pending, None)
    ensures h.given == map[] && h.bound == map[]
  {
    Heap(if n == 0 then map[] else Fresh(n - 1).cells[n - 1 := Cell(Pending, None)], map[], map[], map[], 0)
  }

  lemma {:induction false} Creates(ops: seq<Op<int, int, int>>, n: nat)
    requires n <= |ops| && forall i :: 0 <= i < n ==> ops[i] == Create(i)
    ensures Run(ops[..n]) == Done(Fresh(n), [])
  {
    if n > 0 {
      Creates(ops, n - 1);
      Extend(ops, n - 1);
    }
  }

  /** A new promise after `then`. */
  function Bound(h: Heap<int, int, int>, c: int, callback: Callback<int, int, int>): Heap<int, int, int> {
    h.(bound := h.bound[c := callback], cells := h.cells[c := Cell(Pending, Some(callback))])
  }

  lemma Binds(ops: seq<Op<int, int, int>>, n: nat, h: Heap<int, int, int>, c: int, callback: Callback<int, int, int>)
    requires n < |ops| && ops[n] == Op.Bind(c, callback) && Run(ops[..n]) == Done(h, []) && Proper(h, ops[n])
    requires c in h.cells && h.cells[c] == Cell(Pending, None)
    ensures Run(ops[..n + 1]) == Done(Bound(h, c, callback), [])
  {
    Extend(ops, n);
  }

  /** Giving the input of the form at once, whatever heap it stands in. */
  lemma GiveAtOnce(h: Heap<int, int, int>)
    requires {0, 1, 2} <= h.cells.Keys && h.cells[1] == h.cells[2] == Cell(Pending, None)
    requires h.cells[0] == Cell(Pending, Some(Then(WithFinalizer(ReturnsTwo(), Some(9)), 1)))
    ensures var r := Step(h, [], Give(0, Ok(5)));
      && r.Done? && r.heap.bound == h.bound
      && OutcomeOf(r.heap, 0) == Some(Ok(5)) && OutcomeOf(r.heap, 1) == Some(Err(9)) && OutcomeOf(r.heap, 2) == None
  {
    var given := h.(given := h.given[0 := Ok(5)]);
    SettleUnfolds(given, [], 0, Ok(5));
    SettleUnfolds(Assign(given, 0, Ok(5)), [] + Calls(0, Ok(5)), 1, Err(9));
  }

  lemma GiveInTurn(h: Heap<int, int, int>)
    requires {0, 1, 2, 3} <= h.cells.Keys && h.cells[2] == h.cells[3] == Cell(Pending, None)
    requires h.cells[0] == Cell(Pending, Some(Then(ReturnsTwo(), 1))) && h.cells[1].state.Pending?
    ensures var r := Step(h, [], Give(0, Ok(5)));
      && r.Done? && r.heap.bound == h.bound
      && OutcomeOf(r.heap, 0) == Some(Ok(5)) && OutcomeOf(r.heap, 3) == None && OutcomeOf(r.heap, 2) == None
  {
    var given := h.(given := h.given[0 := Ok(5)]);
    SettleUnfolds(given, [], 0, Ok(5));
    AttachUnfolds(Assign(given, 0, Ok(5)), [] + Calls(0, Ok(5)), 2, Callback.Forward(1));
  }

  /** The one `then` of the form at once, before anything is given. */
  function HeapAtOnce(): Heap<int, int, int> {
    Bound(Fresh(3), 0, Then(WithFinalizer(ReturnsTwo(), Some(9)), 1))
  }

  lemma BoundAtOnce()
    ensures Run(FormAtOnce()[..4]) == Done(HeapAtOnce(), [])
  {
    Creates(FormAtOnce(), 3);
    Binds(FormAtOnce(), 3, Fresh(3), 0, Then(WithFinalizer(ReturnsTwo(), Some(9)), 1));
  }

  /** The run at once: `then` with a throwing finalizer is rejected while promise 2 is pending. */
  lemma RunAtOnce()
    ensures Run(FormAtOnce()).Done? && OutcomeOf(Run(FormAtOnce()).heap, 1) == Some(Err(9))
    ensures AtOnce(Run(FormAtOnce()).heap, 0, ReturnsTwo(), Some(9), 1)
    ensures OutcomeOf(Run(FormAtOnce()).heap, 0) == Some(Ok(5)) && OutcomeOf(Run(FormAtOnce()).heap, 2) == None
  {
    var ops := FormAtOnce();
    BoundAtOnce();
    GiveAtOnce(HeapAtOnce());
    Extend(ops, 4);
    assert ops[..5] == ops;
  }

  /** Both `then`s of the form in turn, before anything is given. */
  function HeapInTurn(): Heap<int, int, int> {
    Bound(Bound(Fresh(4), 0, Then(ReturnsTwo(), 1)), 1, Then(Finally(Some(9)), 3))
  }

  lemma BoundInTurn()
    ensures Run(FormInTurn()[..6]) == Done(HeapInTurn(), [])
  {
    var ops := FormInTurn();
    Creates(ops, 4);
    Binds(ops, 4, Fresh(4), 0, Then(ReturnsTwo(), 1));
    Binds(ops, 5, Bound(Fresh(4), 0, Then(ReturnsTwo(), 1)), 1, Then(Finally(Some(9)), 3));
  }

  /** The run in turn: on the same input, `finally` still waits for promise 2. */
  lemma RunInTurn()
    ensures Run(FormInTurn()).Done? && OutcomeOf(Run(FormInTurn()).heap, 3) == None
    ensures InTurn(Run(FormInTurn()).heap, 0, ReturnsTwo(), Some(9), 1, 3)
    ensures OutcomeOf(Run(FormInTurn()).heap, 0) == Some(Ok(5)) && OutcomeOf(Run(FormInTurn()).heap, 2) == None
  {
    var ops := FormInTurn();
    BoundInTurn();
    GiveInTurn(HeapInTurn());
    Extend(ops, 6);
    assert ops[..7] == ops;
  }

  /** So the equivalence fails: two runs, one of each form, on the same input, with different outputs. */
  lemma FormsDiffer()
    ensures Run(FormAtOnce()).Done? && Run(FormInTurn()).Done?
    ensures var h, h' := Run(FormAtOnce()).heap, Run(FormInTurn()).heap;
      && AtOnce(h, 0, ReturnsTwo(), Some(9), 1) && InTurn(h', 0, ReturnsTwo(), Some(9), 1, 3)
      && SameInput(h, 0, h', 0, ReturnsTwo())
      && OutcomeOf(h, 1) == Some(Err(9)) && OutcomeOf(h', 3) == None
  {
    RunAtOnce();
    RunInTurn();
  }

  // ---------------------------------------------------------------- inside a cascade

  /** Whatever had to be called for `r` to settle was called before that `finally`. */
  lemma FinallyAfterCauses<Id, V, E>(ops: seq<Op<Id, V, E>>, c: Id, middle: Id, path: seq<Id>, i: nat, j: nat)
    requires Run(ops).Done? && Path(Run(ops).heap, path)
    requires var h := Run(ops).heap;
      && c in h.bound && h.bound[c].Then? && h.bound[c].target == middle && OutcomeOf(h, c).Some?
      && Judge(h.bound[c].pack, OutcomeOf(h, c).value) == Awaits(path[|path| - 1])
    requires var trace := Run(ops).trace;
      i < |trace| && j < |trace| && trace[i].cell == path[0] && trace[j] == Finalizer(middle)
    ensures i < j
  {
    var h := Run(ops).heap;
    RunKeeps(ops);
    AwaitedLink(h, c, middle, path[|path| - 1]);
    PathSnoc(h, path, middle);
    CallsAreCausal(ops, path + [middle], i, j);
  }

  lemma AwaitedLink<Id, V, E>(h: Heap<Id, V, E>, c: Id, middle: Id, r: Id)
    requires ShapeOk(h) && BoundOk(h) && c in h.bound && h.bound[c].Then? && h.bound[c].target == middle
    requires OutcomeOf(h, c).Some? && Judge(h.bound[c].pack, OutcomeOf(h, c).value) == Awaits(r)
    ensures Link(h, r, middle)
  {
    assert Redirects(h, c, r, middle);
  }

  lemma PathSnoc<Id, V, E>(h: Heap<Id, V, E>, path: seq<Id>, t: Id)
    requires Path(h, path) && Link(h, path[|path| - 1], t)
    ensures Path(h, path + [t])
  {
  }
}
