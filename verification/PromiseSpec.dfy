/**
 Promises as a heap of single-assignment cells.  A cell is settled once, bound to one callback, and runs
 that callback as soon as it is both; the callback settles or binds a further cell, and so on.

 Beside the machine stands the meaning of a graph of promises, `Denotes`, which knows nothing of time: the
 theorems say that whatever the order of binding and settling, the machine settles exactly the cells that
 mean something, with exactly that outcome.
 */
module PromiseSpec {
  import opened Wrappers

  datatype Outcome<+V, +E> = Ok(value: V) | Err(error: E)

  /** What a `next` or `handler` does: throw, return something settled, or return a promise. */
  datatype Body<+Id, +V, +E> = Throws(error: E) | Returns(outcome: Outcome<V, E>) | Promised(cell: Id)

  /** The callbacks of one `then`; `finalizer` is the exception it throws, if any. */
  datatype Pack<+Id, !V, !E> = Pack(next: V -> Body<Id, V, E>, handler: E -> Body<Id, V, E>, finalizer: Option<E>)

  datatype Callback<+Id, !V, !E> =
    | Forward(target: Id)
    | Then(pack: Pack<Id, V, E>, target: Id)
    | Terminator

  datatype State<+V, +E> =
    | Pending
    | Settled(outcome: Outcome<V, E>)    // resolved or rejected, no callback yet
    | Completed(outcome: Outcome<V, E>)  // its callback is running or has run

  datatype Cell<+Id, !V, !E> = Cell(state: State<V, E>, callback: Option<Callback<Id, V, E>>)

  datatype Event<+Id, +V, +E> =
    | Next(cell: Id, value: V)
    | Handler(cell: Id, error: E)
    | Finalizer(cell: Id)

  type Trace<Id, V, E> = seq<Event<Id, V, E>>

  datatype Heap<!Id, !V, !E> = Heap(
    cells: map<Id, Cell<Id, V, E>>,
    // histories
    given: map<Id, Outcome<V, E>>,     // what the outside settled
    bound: map<Id, Callback<Id, V, E>>,// what the outside bound
    rank: map<Id, nat>,                // settled cells, by age
    clock: nat
  )

  /**
   A guard of the DEBUG build throws, or a mutex would be locked twice by one thread (`Guard`); or a
   terminator rethrows an error nobody handled (`Uncaught`).  Nothing is said of what follows.
   */
  datatype Result<!Id, !V, !E> =
    | Done(heap: Heap<Id, V, E>, trace: Trace<Id, V, E>)
    | Guard
    | Uncaught(error: E)

  /** What a `then` makes of an outcome: an outcome, or that of another promise. */
  datatype Verdict<+Id, +V, +E> = Decided(outcome: Outcome<V, E>) | Awaits(cell: Id)

  /** `next` iff resolved, `handler` iff rejected; an exception of the finalizer overrides both. */
  function Judge<Id, V, E>(pack: Pack<Id, V, E>, o: Outcome<V, E>): Verdict<Id, V, E> {
    var body := if o.Ok? then pack.next(o.value) else pack.handler(o.error);
    match pack.finalizer
    case Some(error) => Decided(Err(error))
    case None =>
      match body
      case Throws(error) => Decided(Err(error))
      case Returns(outcome) => Decided(outcome)
      case Promised(cell) => Awaits(cell)
  }

  /** The calls a `then` makes: one callback, then at once the finalizer. */
  function Calls<Id, V, E>(c: Id, o: Outcome<V, E>): seq<Event<Id, V, E>> {
    [if o.Ok? then Next(c, o.value) else Handler(c, o.error), Finalizer(c)]
  }

  // ---------------------------------------------------------------- the machine

  ghost function Open<Id, V, E>(h: Heap<Id, V, E>): set<Id> {
    set c | c in h.cells && !h.cells[c].state.Completed?
  }

  function SetState<Id, V, E>(h: Heap<Id, V, E>, c: Id, state: State<V, E>): Heap<Id, V, E>
    requires c in h.cells
  {
    h.(cells := h.cells[c := h.cells[c].(state := state)])
  }

  /** A pending cell gets its outcome. */
  function Assign<Id, V, E>(h: Heap<Id, V, E>, c: Id, o: Outcome<V, E>): Heap<Id, V, E>
    requires c in h.cells
  {
    SetState(h, c, if h.cells[c].callback.Some? then Completed(o) else Settled(o)).(
      rank := h.rank[c := h.clock], clock := h.clock + 1)
  }

  /**
   `resolve` and `reject`: a second call of the same kind replaces an outcome nobody has seen.  `trace` is
   what has been called so far.
   */
  ghost function Settle<Id, V, E>(h: Heap<Id, V, E>, trace: Trace<Id, V, E>, c: Id, o: Outcome<V, E>): Result<Id, V, E>
    decreases |Open(h)|, 1
  {
    if c !in h.cells then Guard
    else
      match h.cells[c].state
      case Completed(_) => Guard
      case Settled(before) => if before.Ok? == o.Ok? then Done(SetState(h, c, Settled(o)), trace) else Guard
      case Pending =>
        if h.cells[c].callback.None? then Done(Assign(h, c, o), trace)
        else
          OpenShrinks(h, c, o);
          Deliver(Assign(h, c, o), trace, c)
  }

  /** Assigning a callback: it runs at once if the cell is already settled. */
  ghost function Attach<Id, V, E>(h: Heap<Id, V, E>, trace: Trace<Id, V, E>, c: Id,
                                  callback: Callback<Id, V, E>): Result<Id, V, E>
    decreases |Open(h)|, 1
  {
    if c !in h.cells || h.cells[c].callback.Some? then Guard
    else
      match h.cells[c].state
      case Completed(_) => Guard
      case Pending => Done(h.(cells := h.cells[c := Cell(Pending, Some(callback))]), trace)
      case Settled(o) =>
        var t := h.(cells := h.cells[c := Cell(Completed(o), Some(callback))]);
        assert Open(t) == Open(h) - {c};
        Deliver(t, trace, c)
  }

  /** The callback of a completed cell runs. */
  ghost function Deliver<Id, V, E>(h: Heap<Id, V, E>, trace: Trace<Id, V, E>, c: Id): Result<Id, V, E>
    requires c in h.cells && h.cells[c].state.Completed? && h.cells[c].callback.Some?
    decreases |Open(h)|, 2
  {
    var o := h.cells[c].state.outcome;
    match h.cells[c].callback.value
    case Forward(target) => Settle(h, trace, target, o)
    case Terminator => if o.Err? then Uncaught(o.error) else Done(h, trace)
    case Then(pack, target) =>
      match Judge(pack, o)
      case Decided(outcome) => Settle(h, trace + Calls(c, o), target, outcome)
      case Awaits(cell) => Attach(h, trace + Calls(c, o), cell, Forward(target))
  }

  lemma OpenShrinks<Id, V, E>(h: Heap<Id, V, E>, c: Id, o: Outcome<V, E>)
    requires c in h.cells && h.cells[c].state.Pending? && h.cells[c].callback.Some?
    ensures |Open(Assign(h, c, o))| < |Open(h)|
  {
    assert Open(Assign(h, c, o)) == Open(h) - {c};
  }

  /** `Settle`, one step unfolded. */
  lemma SettleUnfolds<Id, V, E>(h: Heap<Id, V, E>, trace: Trace<Id, V, E>, c: Id, o: Outcome<V, E>)
    requires c in h.cells && (h.cells[c].state.Settled? ==> h.cells[c].state.outcome.Ok? == o.Ok?)
    requires !h.cells[c].state.Completed?
    ensures var h' := if h.cells[c].state.Pending? then Assign(h, c, o) else SetState(h, c, Settled(o));
      && Settle(h, trace, c, o) ==
           (if h.cells[c].state.Pending? && h.cells[c].callback.Some? then Deliver(h', trace, c) else Done(h', trace))
      && (if h.cells[c].state.Pending? && h.cells[c].callback.Some? then |Open(h')| < |Open(h)|
          else Open(h') == Open(h))
  {
    if h.cells[c].state.Pending? && h.cells[c].callback.Some? {
      OpenShrinks(h, c, o);
    }
  }

  /** `Attach`, one step unfolded. */
  lemma AttachUnfolds<Id, V, E>(h: Heap<Id, V, E>, trace: Trace<Id, V, E>, c: Id, callback: Callback<Id, V, E>)
    requires c in h.cells && h.cells[c].callback.None? && !h.cells[c].state.Completed?
    ensures var state := if h.cells[c].state.Pending? then Pending else Completed(h.cells[c].state.outcome);
      var h' := h.(cells := h.cells[c := Cell(state, Some(callback))]);
      && Attach(h, trace, c, callback) == (if state.Pending? then Done(h', trace) else Deliver(h', trace, c))
      && (if state.Pending? then Open(h') == Open(h) else |Open(h')| < |Open(h)|)
  {
    if h.cells[c].state.Settled? {
      var completed := Cell(Completed(h.cells[c].state.outcome), Some(callback));
      assert Open(h.(cells := h.cells[c := completed])) == Open(h) - {c};
    }
  }

  // ---------------------------------------------------------------- calls from outside

  function Empty<Id, V, E>(): Heap<Id, V, E> {
    Heap(map[], map[], map[], map[], 0)
  }

  datatype Op<!Id, !V, !E> =
    | Create(cell: Id)
    | Give(cell: Id, outcome: Outcome<V, E>)
    | Bind(cell: Id, callback: Callback<Id, V, E>)

  ghost function Step<Id, V, E>(h: Heap<Id, V, E>, trace: Trace<Id, V, E>, op: Op<Id, V, E>): Result<Id, V, E> {
    match op
    case Create(c) => if c in h.cells then Guard else Done(h.(cells := h.cells[c := Cell(Pending, None)]), trace)
    case Give(c, o) => Settle(h.(given := h.given[c := o]), trace, c, o)
    case Bind(c, callback) => Attach(h.(bound := h.bound[c := callback]), trace, c, callback)
  }

  predicate Targets<Id(==), V, E>(callback: Callback<Id, V, E>, t: Id) {
    !callback.Terminator? && callback.target == t
  }

  /** A promise is settled from one side only: from outside, or by the one callback that feeds it. */
  ghost predicate Fed<Id, V, E>(h: Heap<Id, V, E>, t: Id) {
    exists c :: c in h.bound && Targets(h.bound[c], t)
  }

  ghost predicate Proper<Id, V, E>(h: Heap<Id, V, E>, op: Op<Id, V, E>) {
    match op
    case Create(_) => true
    case Give(c, _) => !Fed(h, c)
    case Bind(c, callback) =>
      !callback.Terminator? ==>
        && callback.target in h.cells && callback.target !in h.given && !Fed(h, callback.target)
        && callback.target != c
        && h.cells[callback.target].state.Pending?
  }

  // ---------------------------------------------------------------- the meaning of a graph

  /** `t` settles with `o`, by a derivation at most `n` deep. */
  ghost predicate Denotes<Id, V(!new), E(!new)>(n: nat, bound: map<Id, Callback<Id, V, E>>,
                                               given: map<Id, Outcome<V, E>>, t: Id, o: Outcome<V, E>)
    decreases n
  {
    || (t in given && given[t] == o)
    || (n > 0 && exists c, p :: c in bound && Denotes(n - 1, bound, given, c, p) && Yields(n, bound, given, c, p, t, o))
  }

  /** The callback of `c`, whose outcome is `p`, gives `t` the outcome `o`. */
  ghost predicate Yields<Id, V(!new), E(!new)>(n: nat, bound: map<Id, Callback<Id, V, E>>,
                                              given: map<Id, Outcome<V, E>>, c: Id, p: Outcome<V, E>,
                                              t: Id, o: Outcome<V, E>)
    requires n > 0 && c in bound
    decreases n, 0
  {
    && Targets(bound[c], t)
    && (bound[c].Forward? ==> p == o)
    && (bound[c].Then? ==>
          match Judge(bound[c].pack, p)
          case Decided(outcome) => outcome == o
          case Awaits(cell) => Denotes(n - 1, bound, given, cell, o))
  }
}
