/**
 Callback packs and the operators that chain them, as functions on promises that also say which user
 callbacks ran, in order.  A callback may return a settled promise, one that settles later, after further
 calls elsewhere, or one that never settles.
 */
module CallbackPack {
  import opened Wrappers
  import PromiseSpec

  type Outcome<+V, +E> = PromiseSpec.Outcome<V, E>

  /** What becomes of a promise that has been returned; `T` names calls. */
  datatype Fate<+V, +E, +T> =
    | Now(outcome: Outcome<V, E>)                   // settled already
    | Later(calls: seq<T>, outcome: Outcome<V, E>)  // settles after these calls
    | Never(calls: seq<T>)                          // makes these calls and stays pending

  /** A promise, and the calls made by the time it was returned. */
  datatype Run<+V, +E, +T> = Run(trace: seq<T>, fate: Fate<V, E, T>)

  datatype Finalizer<+E, +T> = Finalizer(trace: seq<T>, error: Option<E>)

  /** A null callback is `None`. */
  datatype Pack<!V, !E, +T> = Pack(
    next: Option<V -> Run<V, E, T>>,
    handler: Option<E -> Run<V, E, T>>,
    finalizer: Option<Finalizer<E, T>>
  )

  function Settled<V, E, T>(o: Outcome<V, E>): Run<V, E, T> {
    Run([], Now(o))
  }

  /** The outcome a promise ends with, if any. */
  function Eventually<V, E, T>(r: Run<V, E, T>): Option<Outcome<V, E>> {
    match r.fate
    case Now(o) => Some(o)
    case Later(_, o) => Some(o)
    case Never(_) => None
  }

  function AllCalls<V, E, T>(r: Run<V, E, T>): seq<T> {
    match r.fate
    case Now(_) => r.trace
    case Later(calls, _) => r.trace + calls
    case Never(calls) => r.trace + calls
  }

  /** `next` or `handler`; without one the outcome passes through. */
  function Branch<V, E, T>(o: Outcome<V, E>, p: Pack<V, E, T>): Run<V, E, T> {
    if o.Ok? then
      (if p.next.Some? then p.next.value(o.value) else Settled(o))
    else
      (if p.handler.Some? then p.handler.value(o.error) else Settled(o))
  }

  /** The finalizer runs on return.  If it throws, nobody waits for the returned promise any more. */
  function Finish<V, E, T>(r: Run<V, E, T>, f: Option<Finalizer<E, T>>): Run<V, E, T> {
    match f
    case None => r
    case Some(f) => Run(r.trace + f.trace, if f.error.Some? then Now(PromiseSpec.Err(f.error.value)) else r.fate)
  }

  /** The callbacks of a pack on an outcome. */
  function Call<V, E, T>(o: Outcome<V, E>, p: Pack<V, E, T>): Run<V, E, T> {
    Finish(Branch(o, p), p.finalizer)
  }

  /** What becomes of a promise for which `r` happens only after `calls`. */
  function Delayed<V, E, T>(calls: seq<T>, r: Run<V, E, T>): Fate<V, E, T> {
    match r.fate
    case Now(o) => Later(calls + r.trace, o)
    case Later(more, o) => Later(calls + r.trace + more, o)
    case Never(more) => Never(calls + r.trace + more)
  }

  /** `then`: the callbacks run at once on a settled promise, and otherwise when it settles. */
  function Then<V, E, T>(r: Run<V, E, T>, p: Pack<V, E, T>): Run<V, E, T> {
    match r.fate
    case Now(o) => var s := Call(o, p); Run(r.trace + s.trace, s.fate)
    case Later(calls, o) => Run(r.trace, Delayed(calls, Call(o, p)))
    case Never(_) => r
  }

  /** `bind`: a pack whose callbacks feed the first pack and then the second. */
  function Bind<V, E, T>(l: Pack<V, E, T>, r: Pack<V, E, T>): Pack<V, E, T> {
    Pack(Some((v: V) => Then(Then(Settled(PromiseSpec.Ok(v)), l), r)),
         Some((e: E) => Then(Then(Settled(PromiseSpec.Err(e)), l), r)),
         None)
  }

  function CombineFinalizers<E, T>(f: Option<Finalizer<E, T>>, g: Option<Finalizer<E, T>>): Option<Finalizer<E, T>> {
    if f.None? then g
    else if g.None? then f
    else Some(Finalizer(f.value.trace + g.value.trace, if g.value.error.Some? then g.value.error else f.value.error))
  }

  /** The operator `/` between a pack and a finalizer. */
  function WithFinalizer<V, E, T>(p: Pack<V, E, T>, f: Option<Finalizer<E, T>>): Pack<V, E, T> {
    p.(finalizer := CombineFinalizers(p.finalizer, f))
  }

  /** `finally`: a finalizer and nothing else. */
  function Finally<V, E, T>(f: Option<Finalizer<E, T>>): Pack<V, E, T> {
    Pack(None, None, f)
  }

  /** `p0 >>= p1 >>= ...`: the operator associates to the right. */
  function Chain<V, E, T>(packs: seq<Pack<V, E, T>>): Pack<V, E, T>
    requires packs != []
  {
    if |packs| == 1 then packs[0] else Bind(packs[0], Chain(packs[1..]))
  }

  /** `->then(p0)->then(p1)...` */
  function Successive<V, E, T>(r: Run<V, E, T>, packs: seq<Pack<V, E, T>>): Run<V, E, T>
    decreases |packs|
  {
    if packs == [] then r else Successive(Then(r, packs[0]), packs[1..])
  }

  // ---------------------------------------------------------------- chains

  /** Calls made earlier only come first. */
  lemma ThenPrefix<V, E, T>(trace: seq<T>, r: Run<V, E, T>, p: Pack<V, E, T>)
    ensures var s := Then(r, p); Then(Run(trace + r.trace, r.fate), p) == Run(trace + s.trace, s.fate)
  {
    if r.fate.Now? {
      var s := Call(r.fate.outcome, p);
      assert (trace + r.trace) + s.trace == trace + (r.trace + s.trace);
    }
  }

  /** `then` on a promise that waits is waiting for the `then`. */
  lemma ThenDelayed<V, E, T>(trace: seq<T>, calls: seq<T>, r: Run<V, E, T>, p: Pack<V, E, T>)
    ensures Then(Run(trace, Delayed(calls, r)), p) == Run(trace, Delayed(calls, Then(r, p)))
  {
    match r.fate
    case Now(o) =>
      var s := Call(o, p);
      assert (calls + r.trace) + s.trace == calls + (r.trace + s.trace);
    case Later(more, o) =>
      var s := Call(o, p);
      assert (calls + r.trace + more) + s.trace == calls + r.trace + (more + s.trace);
      if !s.fate.Now? {
        var rest := s.fate.calls;
        assert (calls + r.trace + more) + s.trace + rest == calls + r.trace + (more + s.trace + rest);
      }
    case Never(_) =>
  }

  /** Binding two packs and then calling is calling one after the other, calls included. */
  lemma BindIsThenThen<V, E, T>(r: Run<V, E, T>, p: Pack<V, E, T>, q: Pack<V, E, T>)
    ensures Then(r, Bind(p, q)) == Then(Then(r, p), q)
  {
    match r.fate
    case Now(o) =>
      CallBind(o, p, q);
      ThenPrefix(r.trace, Call(o, p), q);
    case Later(calls, o) =>
      CallBind(o, p, q);
      ThenDelayed(r.trace, calls, Call(o, p), q);
    case Never(_) =>
  }

  lemma CallBind<V, E, T>(o: Outcome<V, E>, p: Pack<V, E, T>, q: Pack<V, E, T>)
    ensures Call(o, Bind(p, q)) == Then(Call(o, p), q)
  {
    var s: Run<V, E, T> := Settled(o);
    assert s.trace + Call(o, p).trace == Call(o, p).trace;
    assert Then(s, p) == Call(o, p);
  }

  /** `bind` is associative: same fate, same calls in the same order, on every promise. */
  lemma BindAssociates<V, E, T>(r: Run<V, E, T>, a: Pack<V, E, T>, b: Pack<V, E, T>, c: Pack<V, E, T>)
    ensures Then(r, Bind(Bind(a, b), c)) == Then(r, Bind(a, Bind(b, c)))
  {
    BindIsThenThen(r, Bind(a, b), c);
    BindIsThenThen(r, a, b);
    BindIsThenThen(r, a, Bind(b, c));
    BindIsThenThen(Then(r, a), b, c);
  }

  /**
   The meaning of a chain of any length: the fate and the calls of the successive `then`s, whether the
   promise it starts from was resolved or rejected, is still to settle or never does.
   */
  lemma {:induction false} ChainMeaning<V, E, T>(r: Run<V, E, T>, packs: seq<Pack<V, E, T>>)
    requires packs != []
    ensures Then(r, Chain(packs)) == Successive(r, packs)
    decreases |packs|
  {
    if |packs| > 1 {
      BindIsThenThen(r, packs[0], Chain(packs[1..]));
      ChainMeaning(Then(r, packs[0]), packs[1..]);
    }
  }

  lemma {:induction false} SuccessiveSnoc<V, E, T>(r: Run<V, E, T>, packs: seq<Pack<V, E, T>>, p: Pack<V, E, T>)
    ensures Successive(r, packs + [p]) == Then(Successive(r, packs), p)
    decreases |packs|
  {
    if packs != [] {
      SuccessiveSnoc(Then(r, packs[0]), packs[1..], p);
      assert (packs + [p])[1..] == packs[1..] + [p];
    }
  }

  // ---------------------------------------------------------------- finalizers

  /**
   `p / f` against `->then(p)->finally(f)`.  They are the same, calls included, exactly if the callback
   returned a settled promise or the finalizer has no effect; they end with the same outcome exactly if the
   returned promise settles at all or the finalizer does not throw.
   */
  lemma SlashIsFinally<V, E, T>(o: Outcome<V, E>, p: Pack<V, E, T>, f: Finalizer<E, T>)
    ensures var once := Then(Settled(o), p);
      var slash, finally := Then(Settled(o), WithFinalizer(p, Some(f))), Then(once, Finally(Some(f)));
      && (slash == finally <==> once.fate.Now? || f == Finalizer([], None))
      && (Eventually(slash) == Eventually(finally) <==> !once.fate.Never? || f.error.None?)
  {
    var b, g := Branch(o, p), p.finalizer;
    var once := Then(Settled(o), p);
    assert once == Call(o, p) by {
      assert [] + Call(o, p).trace == Call(o, p).trace;
    }
    var slash := Then(Settled(o), WithFinalizer(p, Some(f)));
    assert slash == Run(once.trace + f.trace,
                        if f.error.Some? then Now(PromiseSpec.Err(f.error.value)) else once.fate) by {
      if g.Some? {
        assert b.trace + (g.value.trace + f.trace) == (b.trace + g.value.trace) + f.trace;
      }
      assert [] + (once.trace + f.trace) == once.trace + f.trace;
    }
    var finally := Then(once, Finally(Some(f)));
    assert [] + f.trace == f.trace;
    if !once.fate.Now? {
      assert finally.trace == once.trace;
      assert |slash.trace| == |once.trace| + |f.trace|;
      if f == Finalizer([], None) {
        assert once.trace + f.trace == once.trace;
        if once.fate.Later? {
          assert once.fate.calls + f.trace == once.fate.calls;
        }
      }
    }
  }
}
