/**
 The invariant of the promise heap, through every step of a callback cascade, and the theorems about runs:
 the machine computes the meaning of the graph, in any order, and calls every callback once.
 */
module PromiseRuns {
  import opened Wrappers
  import opened PromiseSpec

  ghost function OutcomeOf<Id, V, E>(h: Heap<Id, V, E>, c: Id): Option<Outcome<V, E>> {
    if c !in h.cells || h.cells[c].state.Pending? then None else Some(h.cells[c].state.outcome)
  }

  /** The effect of a completed cell's callback is there. */
  ghost predicate Pushed<Id, V, E>(h: Heap<Id, V, E>, c: Id)
    requires c in h.cells && h.cells[c].state.Completed? && h.cells[c].callback.Some?
  {
    var o := h.cells[c].state.outcome;
    match h.cells[c].callback.value
    case Terminator => o.Ok?
    case Forward(target) => OutcomeOf(h, target) == Some(o)
    case Then(pack, target) =>
      match Judge(pack, o)
      case Decided(outcome) => OutcomeOf(h, target) == Some(outcome)
      case Awaits(cell) => cell in h.cells && h.cells[cell].callback == Some(Forward(target))
  }

  /** The callback of `c` has decided the outcome of `t`. */
  ghost predicate Feeds<Id, V, E>(h: Heap<Id, V, E>, c: Id, t: Id, o: Outcome<V, E>) {
    && c in h.cells && h.cells[c].state.Completed? && h.cells[c].callback.Some?
    && Targets(h.cells[c].callback.value, t)
    && match h.cells[c].callback.value
       case Forward(_) => h.cells[c].state.outcome == o
       case Then(pack, _) => Judge(pack, h.cells[c].state.outcome) == Decided(o)
  }

  /** The callback of `b` returned the promise `c`, to be forwarded to `t`. */
  ghost predicate Redirects<Id, V, E>(h: Heap<Id, V, E>, b: Id, c: Id, t: Id) {
    && b in h.bound && b in h.cells && h.cells[b].state.Completed?
    && h.bound[b].Then? && h.bound[b].target == t
    && Judge(h.bound[b].pack, h.cells[b].state.outcome) == Awaits(c)
  }

  ghost predicate Older<Id, V, E>(h: Heap<Id, V, E>, c: Id, t: Id) {
    c in h.rank && t in h.rank && h.rank[c] < h.rank[t]
  }

  /** Whoever settled `t` did so with a reason, and the reason is older. */
  ghost predicate Justified<Id, V, E>(h: Heap<Id, V, E>, t: Id, o: Outcome<V, E>) {
    || (t in h.given && h.given[t] == o)
    || exists c :: c in h.cells && Reason(h, c, t, o)
  }

  ghost predicate Reason<Id, V, E>(h: Heap<Id, V, E>, c: Id, t: Id, o: Outcome<V, E>) {
    && Feeds(h, c, t, o) && Older(h, c, t)
    && (c in h.bound || exists b :: b in h.cells && Redirects(h, b, c, t) && Older(h, b, t))
  }

  /** A pending cell whose callback will one day settle `t`. */
  ghost predicate Waits<Id, V, E>(h: Heap<Id, V, E>, c: Id, t: Id) {
    c in h.cells && h.cells[c].state.Pending? && h.cells[c].callback.Some? && Targets(h.cells[c].callback.value, t)
  }

  /** Nothing but the callback now running can settle `t`. */
  ghost predicate Ready<Id, V, E>(h: Heap<Id, V, E>, t: Id) {
    && t in h.cells && h.cells[t].state.Pending?
    && forall c :: c in h.cells ==> !Waits(h, c, t)
  }

  /** The one promise still to be kept in the middle of a cascade. */
  datatype Debt<+Id> = NoDebt | ByCallback(cell: Id) | ByGift(cell: Id)

  ghost predicate ShapeOk<Id, V, E>(h: Heap<Id, V, E>) {
    forall c :: c in h.cells ==>
      && (h.cells[c].state.Completed? ==> h.cells[c].callback.Some?)
      && (h.cells[c].state.Settled? ==> h.cells[c].callback.None?)
      && (!h.cells[c].state.Pending? ==> c in h.rank && h.rank[c] < h.clock)
  }

  ghost predicate BoundOk<Id, V, E>(h: Heap<Id, V, E>) {
    && (forall c :: c in h.bound ==> c in h.cells && h.cells[c].callback == Some(h.bound[c]))
    && (forall c :: c in h.bound && !h.bound[c].Terminator? ==> h.bound[c].target in h.cells)
    && (forall c, d :: c in h.bound && d in h.bound && c != d && !h.bound[c].Terminator? ==>
          !Targets(h.bound[d], h.bound[c].target))
    && (forall c :: c in h.cells && h.cells[c].callback.Some? && c !in h.bound ==>
          && h.cells[c].callback.value.Forward?
          && exists b :: b in h.cells && Redirects(h, b, c, h.cells[c].callback.value.target))
  }

  ghost predicate GivenOk<Id, V, E>(h: Heap<Id, V, E>, debt: Debt<Id>) {
    forall t :: t in h.given ==> !Fed(h, t) && (debt == ByGift(t) || OutcomeOf(h, t) == Some(h.given[t]))
  }

  ghost predicate WaitersOk<Id, V, E>(h: Heap<Id, V, E>) {
    && (forall c, t :: c in h.cells && t in h.cells && Waits(h, c, t) ==> h.cells[t].state.Pending? && Fed(h, t))
    && (forall c, d, t :: c in h.cells && d in h.cells && t in h.cells && Waits(h, c, t) && Waits(h, d, t) ==> c == d)
  }

  ghost predicate PushesOk<Id, V, E>(h: Heap<Id, V, E>, debt: Debt<Id>) {
    forall c {:trigger Pushed(h, c)} ::
      c in h.cells && h.cells[c].state.Completed? && h.cells[c].callback.Some? && debt != ByCallback(c) ==>
        Pushed(h, c)
  }

  ghost predicate ReasonsOk<Id, V, E>(h: Heap<Id, V, E>) {
    forall t {:trigger Justified(h, t, h.cells[t].state.outcome)} :: t in h.cells && !h.cells[t].state.Pending? ==>
      Justified(h, t, h.cells[t].state.outcome)
  }

  ghost predicate InvBut<Id, V, E>(h: Heap<Id, V, E>, debt: Debt<Id>) {
    && ShapeOk(h) && BoundOk(h) && GivenOk(h, debt) && WaitersOk(h) && PushesOk(h, debt) && ReasonsOk(h)
  }

  ghost predicate Inv<Id, V, E>(h: Heap<Id, V, E>) {
    InvBut(h, NoDebt)
  }

  // ---------------------------------------------------------------- one assignment

  /** Why `t` may now be settled with `o`. */
  ghost predicate Due<Id, V, E>(h: Heap<Id, V, E>, debt: Debt<Id>, t: Id, o: Outcome<V, E>) {
    match debt
    case NoDebt => false
    case ByGift(c) => c == t && t in h.given && h.given[t] == o
    case ByCallback(c) =>
      && Feeds(h, c, t, o) && Fed(h, t) && c in h.rank
      && (c in h.bound || exists b :: b in h.cells && Redirects(h, b, c, t))
  }

  lemma AssignKeepsShape<Id, V, E>(h: Heap<Id, V, E>, t: Id, o: Outcome<V, E>)
    requires ShapeOk(h) && Ready(h, t)
    ensures ShapeOk(Assign(h, t, o))
  {
  }

  lemma AssignKeepsBound<Id, V, E>(h: Heap<Id, V, E>, t: Id, o: Outcome<V, E>)
    requires BoundOk(h) && Ready(h, t)
    ensures BoundOk(Assign(h, t, o))
  {
    var h' := Assign(h, t, o);
    forall c | c in h'.cells && h'.cells[c].callback.Some? && c !in h'.bound
      ensures exists b :: b in h'.cells && Redirects(h', b, c, h'.cells[c].callback.value.target)
    {
      var b :| b in h.cells && Redirects(h, b, c, h.cells[c].callback.value.target);
      assert Redirects(h', b, c, h'.cells[c].callback.value.target);
    }
  }

  /** The debt left after a step at cell `c`: its callback, if it has one. */
  ghost function DebtAfter<Id, V, E>(h: Heap<Id, V, E>, c: Id): Debt<Id>
    requires c in h.cells
  {
    if h.cells[c].callback.Some? then ByCallback(c) else NoDebt
  }

  lemma AssignKeepsGiven<Id, V, E>(h: Heap<Id, V, E>, debt: Debt<Id>, t: Id, o: Outcome<V, E>)
    requires GivenOk(h, debt) && Ready(h, t) && Due(h, debt, t, o)
    ensures GivenOk(Assign(h, t, o), DebtAfter(h, t))
  {
    var h' := Assign(h, t, o);
    assert forall u :: Fed(h', u) <==> Fed(h, u);
  }

  lemma AssignKeepsWaiters<Id, V, E>(h: Heap<Id, V, E>, t: Id, o: Outcome<V, E>)
    requires WaitersOk(h) && Ready(h, t)
    ensures WaitersOk(Assign(h, t, o))
  {
    var h' := Assign(h, t, o);
    forall c, u | c in h'.cells && u in h'.cells && Waits(h', c, u) ensures h'.cells[u].state.Pending? && Fed(h', u) {
      assert Waits(h, c, u);
      assert Fed(h, u);
    }
    forall c, d, u | c in h'.cells && d in h'.cells && u in h'.cells && Waits(h', c, u) && Waits(h', d, u)
      ensures c == d
    {
      assert Waits(h, c, u) && Waits(h, d, u);
    }
  }

  lemma AssignKeepsPushes<Id, V, E>(h: Heap<Id, V, E>, debt: Debt<Id>, t: Id, o: Outcome<V, E>)
    requires PushesOk(h, debt) && Ready(h, t) && Due(h, debt, t, o)
    ensures PushesOk(Assign(h, t, o), DebtAfter(h, t))
  {
    var h' := Assign(h, t, o);
    forall c | c in h'.cells && h'.cells[c].state.Completed? && h'.cells[c].callback.Some?
      && DebtAfter(h, t) != ByCallback(c)
      ensures Pushed(h', c)
    {
      assert c != t;
      if debt != ByCallback(c) {
        assert Pushed(h, c);
      }
    }
  }

  lemma AssignKeepsReasons<Id, V, E>(h: Heap<Id, V, E>, debt: Debt<Id>, t: Id, o: Outcome<V, E>)
    requires ShapeOk(h) && ReasonsOk(h) && Ready(h, t) && Due(h, debt, t, o)
    ensures ReasonsOk(Assign(h, t, o))
  {
    var h' := Assign(h, t, o);
    forall u | u in h'.cells && !h'.cells[u].state.Pending? ensures Justified(h', u, h'.cells[u].state.outcome) {
      if u == t {
        AssignReason(h, debt, t, o);
      } else {
        AssignKeepsReason(h, t, o, u, h.cells[u].state.outcome);
      }
    }
  }

  lemma AssignKeepsReason<Id, V, E>(h: Heap<Id, V, E>, t: Id, o: Outcome<V, E>, u: Id, p: Outcome<V, E>)
    requires t in h.cells && h.cells[t].state.Pending? && Justified(h, u, p)
    requires u in h.cells && !h.cells[u].state.Pending?
    ensures Justified(Assign(h, t, o), u, p)
  {
    if !(u in h.given && h.given[u] == p) {
      var c :| c in h.cells && Reason(h, c, u, p);
      ReasonSurvives(h, Assign(h, t, o), c, u, p, t);
    }
  }

  lemma AssignReason<Id, V, E>(h: Heap<Id, V, E>, debt: Debt<Id>, t: Id, o: Outcome<V, E>)
    requires ShapeOk(h) && Ready(h, t) && Due(h, debt, t, o)
    ensures Justified(Assign(h, t, o), t, o)
  {
    var h' := Assign(h, t, o);
    if debt.ByCallback? {
      var c := debt.cell;
      assert Feeds(h', c, t, o) && Older(h', c, t);
      if c !in h.bound {
        var b :| b in h.cells && Redirects(h, b, c, t);
        assert Redirects(h', b, c, t) && Older(h', b, t);
      }
      assert Reason(h', c, t, o);
    }
  }

  /** Completed cells keep what they are while some pending cell `x` changes. */
  ghost predicate Preserves<Id, V, E>(h: Heap<Id, V, E>, h': Heap<Id, V, E>, x: Id) {
    && h.bound.Keys <= h'.bound.Keys && (forall c :: c in h.bound ==> h'.bound[c] == h.bound[c])
    && (forall c :: c in h.cells && c != x ==> c in h'.cells && h'.cells[c] == h.cells[c])
    && (x in h.cells ==> !h.cells[x].state.Completed?)
    && (forall c :: c in h.rank && (c in h.cells ==> !h.cells[c].state.Pending?) ==>
          c in h'.rank && h'.rank[c] == h.rank[c])
  }

  lemma ReasonSurvives<Id, V, E>(h: Heap<Id, V, E>, h': Heap<Id, V, E>, c: Id, u: Id, p: Outcome<V, E>, x: Id)
    requires Preserves(h, h', x) && c in h.cells && Reason(h, c, u, p)
    requires u in h.cells && !h.cells[u].state.Pending?
    ensures c in h'.cells && Reason(h', c, u, p)
  {
    assert Feeds(h', c, u, p) && Older(h', c, u);
    if c !in h.bound {
      var b :| b in h.cells && Redirects(h, b, c, u) && Older(h, b, u);
      assert Redirects(h', b, c, u) && Older(h', b, u);
    }
  }

  /** A debt that can be paid: nobody else can settle what this callback will settle. */
  ghost predicate Owed<Id, V, E>(h: Heap<Id, V, E>, c: Id) {
    && c in h.cells && h.cells[c].state.Completed? && h.cells[c].callback.Some?
    && (!h.cells[c].callback.value.Terminator? ==>
          Ready(h, h.cells[c].callback.value.target) && Fed(h, h.cells[c].callback.value.target))
  }

  lemma AssignOwes<Id, V, E>(h: Heap<Id, V, E>, t: Id, o: Outcome<V, E>)
    requires WaitersOk(h) && BoundOk(h) && Ready(h, t) && h.cells[t].callback.Some?
    ensures Owed(Assign(h, t, o), t)
  {
    var h' := Assign(h, t, o);
    if !h.cells[t].callback.value.Terminator? {
      var u := h.cells[t].callback.value.target;
      assert u in h.cells by {
        if t !in h.bound {
          var b :| b in h.cells && Redirects(h, b, t, u);
          assert h.bound[b].target == u;
        }
      }
      assert Waits(h, t, u);
      assert u != t;
      forall c | c in h'.cells ensures !Waits(h', c, u) {
        assert Waits(h', c, u) ==> Waits(h, c, u);
      }
      assert Fed(h, u);
    }
  }

  /** `Assign` pays the debt; if the cell has a callback, that callback is the next debt. */
  lemma AssignPays<Id, V, E>(h: Heap<Id, V, E>, debt: Debt<Id>, t: Id, o: Outcome<V, E>)
    requires InvBut(h, debt) && Ready(h, t) && Due(h, debt, t, o)
    ensures InvBut(Assign(h, t, o), DebtAfter(h, t))
    ensures h.cells[t].callback.Some? ==> Owed(Assign(h, t, o), t)
  {
    AssignKeepsShape(h, t, o);
    AssignKeepsBound(h, t, o);
    AssignKeepsGiven(h, debt, t, o);
    AssignKeepsWaiters(h, t, o);
    AssignKeepsPushes(h, debt, t, o);
    AssignKeepsReasons(h, debt, t, o);
    if h.cells[t].callback.Some? {
      AssignOwes(h, t, o);
    }
  }

  // ---------------------------------------------------------------- one binding

  /** `c` gets its callback; a settled cell is thereby completed. */
  function Attached<Id, V, E>(h: Heap<Id, V, E>, c: Id, callback: Callback<Id, V, E>): Heap<Id, V, E>
    requires c in h.cells && !h.cells[c].state.Completed?
  {
    var state := if h.cells[c].state.Pending? then Pending else Completed(h.cells[c].state.outcome);
    h.(cells := h.cells[c := Cell(state, Some(callback))])
  }

  /**
   `c` is bound, either from outside (`user`; `h` then already lists it) or because a callback returned it;
   `h0` is the heap before the outside binding was listed.
   */
  ghost predicate MayAttach<Id, V, E>(h0: Heap<Id, V, E>, debt: Debt<Id>, c: Id, callback: Callback<Id, V, E>,
      user: bool) {
    && InvBut(h0, debt)
    && c in h0.cells && h0.cells[c].callback.None?
    && (!callback.Terminator? ==> Ready(h0, callback.target) && callback.target !in h0.given)
    && (if user then
          debt == NoDebt && (!callback.Terminator? ==> !Fed(h0, callback.target) && callback.target != c)
        else
          && callback.Forward? && Fed(h0, callback.target)
          && exists b :: b in h0.cells && debt == ByCallback(b) && RedirectedBy(h0, b, c, callback.target))
  }

  /** The callback in debt returned `c`. */
  ghost predicate RedirectedBy<Id, V, E>(h: Heap<Id, V, E>, b: Id, c: Id, t: Id) {
    Redirects(h, b, c, t) && h.cells[b].callback == Some(h.bound[b])
  }

  ghost function Listed<Id, V, E>(h: Heap<Id, V, E>, c: Id, callback: Callback<Id, V, E>, user: bool): Heap<Id, V, E> {
    if user then h.(bound := h.bound[c := callback]) else h
  }

  ghost function AfterAttach<Id, V, E>(h: Heap<Id, V, E>, c: Id, callback: Callback<Id, V, E>, user: bool): Heap<Id,
      V, E>
    requires c in h.cells && !h.cells[c].state.Completed?
  {
    Attached(Listed(h, c, callback, user), c, callback)
  }

  lemma AttachFed<Id, V, E>(h: Heap<Id, V, E>, debt: Debt<Id>, c: Id, callback: Callback<Id, V, E>, user: bool, u: Id)
    requires MayAttach(h, debt, c, callback, user) && !h.cells[c].state.Completed?
    ensures Fed(AfterAttach(h, c, callback, user), u) <==> Fed(h, u) || Targets(callback, u)
  {
    var h' := AfterAttach(h, c, callback, user);
    assert c !in h.bound;
    if Fed(h, u) {
      var d :| d in h.bound && Targets(h.bound[d], u);
      assert d in h'.bound && Targets(h'.bound[d], u);
    }
    if user && Targets(callback, u) {
      assert c in h'.bound && Targets(h'.bound[c], u);
    }
  }

  lemma AttachKeepsTargets<Id, V, E>(h: Heap<Id, V, E>, debt: Debt<Id>, c: Id, callback: Callback<Id, V, E>, d: Id,
      e: Id)
    requires MayAttach(h, debt, c, callback, true) && d != e
    requires var bound := h.bound[c := callback]; d in bound && e in bound && !bound[d].Terminator?
    ensures var bound := h.bound[c := callback]; !Targets(bound[e], bound[d].target)
  {
    assert c !in h.bound;
    var bound := h.bound[c := callback];
    var t := bound[d].target;
    if d != c {
      assert Fed(h, t) by { assert d in h.bound && Targets(h.bound[d], t); }
    } else {
      assert !Fed(h, t);
    }
  }

  lemma RedirectSurvives<Id, V, E>(h: Heap<Id, V, E>, h': Heap<Id, V, E>, b: Id, c: Id, t: Id, x: Id)
    requires Redirects(h, b, c, t) && Preserves(h, h', x)
    ensures b in h'.cells && Redirects(h', b, c, t)
  {}

  lemma AttachKeepsRedirects<Id, V, E>(h: Heap<Id, V, E>, debt: Debt<Id>, c: Id, callback: Callback<Id, V, E>,
      user: bool, d: Id)
    requires MayAttach(h, debt, c, callback, user)
    requires var h' := AfterAttach(h, c, callback, user); d in h'.cells && h'.cells[d].callback.Some? && d !in h'.bound
    ensures var h' := AfterAttach(h, c, callback, user);
      && h'.cells[d].callback.value.Forward?
      && exists b :: b in h'.cells && Redirects(h', b, d, h'.cells[d].callback.value.target)
  {
    var h' := AfterAttach(h, c, callback, user);
    assert c !in h.bound;
    if d == c {
      RedirectSurvives(h, h', debt.cell, d, callback.target, c);
    } else {
      var t := h.cells[d].callback.value.target;
      var b :| b in h.cells && Redirects(h, b, d, t);
      RedirectSurvives(h, h', b, d, t, c);
    }
  }

  lemma AttachKeepsShape<Id, V, E>(h: Heap<Id, V, E>, debt: Debt<Id>, c: Id, callback: Callback<Id, V, E>, user: bool)
    requires MayAttach(h, debt, c, callback, user)
    ensures ShapeOk(AfterAttach(h, c, callback, user))
  {}

  lemma AttachKeepsBound<Id, V, E>(h: Heap<Id, V, E>, debt: Debt<Id>, c: Id, callback: Callback<Id, V, E>, user: bool)
    requires MayAttach(h, debt, c, callback, user)
    ensures BoundOk(AfterAttach(h, c, callback, user))
  {
    var h' := AfterAttach(h, c, callback, user);
    assert c !in h.bound;
    forall d, e | d in h'.bound && e in h'.bound && d != e && !h'.bound[d].Terminator?
      ensures !Targets(h'.bound[e], h'.bound[d].target)
    {
      if user {
        AttachKeepsTargets(h, debt, c, callback, d, e);
      }
    }
    forall d | d in h'.cells && h'.cells[d].callback.Some? && d !in h'.bound
      ensures h'.cells[d].callback.value.Forward?
      ensures exists b :: b in h'.cells && Redirects(h', b, d, h'.cells[d].callback.value.target)
    {
      AttachKeepsRedirects(h, debt, c, callback, user, d);
    }
  }

  lemma AttachKeepsWaiters<Id, V, E>(h: Heap<Id, V, E>, debt: Debt<Id>, c: Id, callback: Callback<Id, V, E>, user: bool)
    requires MayAttach(h, debt, c, callback, user)
    ensures WaitersOk(AfterAttach(h, c, callback, user))
  {
    var h' := AfterAttach(h, c, callback, user);
    forall d, u | d in h'.cells && u in h'.cells && Waits(h', d, u) ensures h'.cells[u].state.Pending? && Fed(h', u) {
      AttachFed(h, debt, c, callback, user, u);
      if d != c {
        assert Waits(h, d, u);
      }
    }
    forall d, e, u | d in h'.cells && e in h'.cells && u in h'.cells && Waits(h', d, u) && Waits(h', e, u)
      ensures d == e
    {
      assert d != c ==> Waits(h, d, u);
      assert e != c ==> Waits(h, e, u);
    }
  }

  lemma AttachKeepsGiven<Id, V, E>(h: Heap<Id, V, E>, debt: Debt<Id>, c: Id, callback: Callback<Id, V, E>, user: bool)
    requires MayAttach(h, debt, c, callback, user)
    ensures GivenOk(AfterAttach(h, c, callback, user), NoDebt)
  {
    var h' := AfterAttach(h, c, callback, user);
    forall t | t in h'.given ensures !Fed(h', t) && OutcomeOf(h', t) == Some(h'.given[t]) {
      AttachFed(h, debt, c, callback, user, t);
    }
  }

  /** A callback's effect survives a change to an unbound cell that keeps its outcome. */
  lemma PushSurvives<Id, V, E>(h: Heap<Id, V, E>, h': Heap<Id, V, E>, d: Id, c: Id)
    requires d in h.cells && h.cells[d].state.Completed? && h.cells[d].callback.Some? && Pushed(h, d) && d != c
    requires c in h.cells && h.cells[c].callback.None? && OutcomeOf(h', c) == OutcomeOf(h, c)
    requires forall e :: e in h.cells && e != c ==> e in h'.cells && h'.cells[e] == h.cells[e]
    ensures d in h'.cells && h'.cells[d] == h.cells[d] && Pushed(h', d)
  {}

  lemma AttachKeepsPushes<Id, V, E>(h: Heap<Id, V, E>, debt: Debt<Id>, c: Id, callback: Callback<Id, V, E>, user: bool)
    requires MayAttach(h, debt, c, callback, user)
    ensures PushesOk(AfterAttach(h, c, callback, user), if h.cells[c].state.Pending? then NoDebt else ByCallback(c))
  {
    var h' := AfterAttach(h, c, callback, user);
    forall d | d in h'.cells && h'.cells[d].state.Completed? && h'.cells[d].callback.Some? && d != c
      ensures Pushed(h', d)
    {
      if debt != ByCallback(d) {
        PushSurvives(h, h', d, c);
      } else {
        assert RedirectedBy(h, d, c, callback.target);
        assert h'.cells[d] == h.cells[d];
      }
    }
  }

  lemma AttachKeepsReasons<Id, V, E>(h: Heap<Id, V, E>, debt: Debt<Id>, c: Id, callback: Callback<Id, V, E>, user: bool)
    requires MayAttach(h, debt, c, callback, user)
    ensures ReasonsOk(AfterAttach(h, c, callback, user))
  {
    var h' := AfterAttach(h, c, callback, user);
    assert c !in h.bound;
    forall u | u in h'.cells && !h'.cells[u].state.Pending? ensures Justified(h', u, h'.cells[u].state.outcome) {
      var p := h.cells[u].state.outcome;
      assert Justified(h, u, p);
      if !(u in h.given && h.given[u] == p) {
        var d :| d in h.cells && Reason(h, d, u, p);
        ReasonSurvives(h, h', d, u, p, c);
      }
    }
  }

  lemma AttachPays<Id, V, E>(h: Heap<Id, V, E>, debt: Debt<Id>, c: Id, callback: Callback<Id, V, E>, user: bool)
    requires MayAttach(h, debt, c, callback, user)
    ensures var h' := AfterAttach(h, c, callback, user);
      && InvBut(h', if h.cells[c].state.Pending? then NoDebt else ByCallback(c))
      && (!h.cells[c].state.Pending? ==> Owed(h', c))
  {
    AttachKeepsShape(h, debt, c, callback, user);
    AttachKeepsBound(h, debt, c, callback, user);
    AttachKeepsWaiters(h, debt, c, callback, user);
    AttachKeepsGiven(h, debt, c, callback, user);
    AttachKeepsPushes(h, debt, c, callback, user);
    AttachKeepsReasons(h, debt, c, callback, user);
    var h' := AfterAttach(h, c, callback, user);
    if !h.cells[c].state.Pending? && !callback.Terminator? {
      var t := callback.target;
      AttachFed(h, debt, c, callback, user, t);
      forall d | d in h'.cells ensures !Waits(h', d, t) {
        assert Waits(h', d, t) ==> Waits(h, d, t);
      }
    }
  }

  // ---------------------------------------------------------------- a whole cascade

  /** What `c` owes to `t` is due, whoever bound `c`. */
  lemma DebtIsDue<Id, V, E>(h: Heap<Id, V, E>, c: Id, t: Id, o: Outcome<V, E>)
    requires InvBut(h, ByCallback(c)) && Owed(h, c) && Feeds(h, c, t, o)
    ensures Ready(h, t) && Due(h, ByCallback(c), t, o)
  {}

  lemma {:induction false} SettleKeeps<Id, V, E>(h: Heap<Id, V, E>, trace: Trace<Id, V, E>, debt: Debt<Id>, t: Id,
                                                 o: Outcome<V, E>)
    requires InvBut(h, debt) && Ready(h, t) && Due(h, debt, t, o)
    ensures Settle(h, trace, t, o).Done? ==> Inv(Settle(h, trace, t, o).heap)
    decreases |Open(h)|, 1
  {
    AssignPays(h, debt, t, o);
    if h.cells[t].callback.Some? {
      OpenShrinks(h, t, o);
      DeliverKeeps(Assign(h, t, o), trace, t);
    }
  }

  lemma {:induction false} DeliverKeeps<Id, V, E>(h: Heap<Id, V, E>, trace: Trace<Id, V, E>, c: Id)
    requires InvBut(h, ByCallback(c)) && Owed(h, c)
    ensures Deliver(h, trace, c).Done? ==> Inv(Deliver(h, trace, c).heap)
    decreases |Open(h)|, 2
  {
    var o := h.cells[c].state.outcome;
    match h.cells[c].callback.value
    case Terminator =>
    case Forward(target) =>
      DebtIsDue(h, c, target, o);
      SettleKeeps(h, trace, ByCallback(c), target, o);
    case Then(pack, target) =>
      match Judge(pack, o)
      case Decided(outcome) =>
        DebtIsDue(h, c, target, outcome);
        SettleKeeps(h, trace + Calls(c, o), ByCallback(c), target, outcome);
      case Awaits(cell) =>
        if cell in h.cells && h.cells[cell].callback.None? {
          RedirectAllowed(h, c, cell);
          AttachPays(h, ByCallback(c), cell, Forward(target), false);
          AttachUnfolds(h, trace + Calls(c, o), cell, Forward(target));
          if !h.cells[cell].state.Pending? {
            DeliverKeeps(AfterAttach(h, cell, Forward(target), false), trace + Calls(c, o), cell);
          }
        }
  }

  lemma RedirectAllowed<Id, V, E>(h: Heap<Id, V, E>, c: Id, r: Id)
    requires InvBut(h, ByCallback(c)) && Owed(h, c) && h.cells[c].callback.value.Then?
    requires Judge(h.cells[c].callback.value.pack, h.cells[c].state.outcome) == Awaits(r)
    requires r in h.cells && h.cells[r].callback.None?
    ensures MayAttach(h, ByCallback(c), r, Forward(h.cells[c].callback.value.target), false)
  {
    assert c in h.bound;
    assert RedirectedBy(h, c, r, h.cells[c].callback.value.target);
  }

  // ---------------------------------------------------------------- calls from outside

  /** Reasons survive a change to one cell `x` and to what was given to it. */
  lemma ReasonsSurvive<Id, V, E>(h: Heap<Id, V, E>, h': Heap<Id, V, E>, x: Id)
    requires ReasonsOk(h) && Preserves(h, h', x)
    requires forall t :: t in h.given && t != x ==> t in h'.given && h'.given[t] == h.given[t]
    ensures forall t :: t in h.cells && t != x && !h.cells[t].state.Pending? ==>
              t in h'.cells && Justified(h', t, h.cells[t].state.outcome)
  {
    forall t | t in h.cells && t != x && !h.cells[t].state.Pending? ensures Justified(h', t, h.cells[t].state.outcome) {
      var p := h.cells[t].state.outcome;
      assert Justified(h, t, p);
      if !(t in h.given && h.given[t] == p) {
        var d :| d in h.cells && Reason(h, d, t, p);
        ReasonSurvives(h, h', d, t, p, x);
      }
    }
  }

  lemma BoundSurvives<Id, V, E>(h: Heap<Id, V, E>, h': Heap<Id, V, E>, x: Id)
    requires BoundOk(h) && Preserves(h, h', x) && h'.bound == h.bound && h'.cells.Keys == h.cells.Keys + {x}
    requires x in h'.cells && h'.cells[x].callback.None?
    requires x in h.cells ==> h.cells[x].callback.None?
    ensures BoundOk(h')
  {
    forall d | d in h'.cells && h'.cells[d].callback.Some? && d !in h'.bound
      ensures h'.cells[d].callback.value.Forward?
      ensures exists b :: b in h'.cells && Redirects(h', b, d, h'.cells[d].callback.value.target)
    {
      var t := h.cells[d].callback.value.target;
      var b :| b in h.cells && Redirects(h, b, d, t);
      RedirectSurvives(h, h', b, d, t, x);
    }
  }

  lemma SameFed<Id, V, E>(h: Heap<Id, V, E>, h': Heap<Id, V, E>)
    requires h'.bound == h.bound
    ensures forall t :: Fed(h', t) <==> Fed(h, t)
  {}

  /** A cell that is neither bound nor fed is no party to anything. */
  lemma WaitersSurvive<Id, V, E>(h: Heap<Id, V, E>, h': Heap<Id, V, E>, x: Id)
    requires WaitersOk(h) && BoundOk(h) && Preserves(h, h', x) && h'.bound == h.bound
    requires h'.cells.Keys == h.cells.Keys + {x}
    requires x in h'.cells && h'.cells[x].callback.None?
    requires !Fed(h, x)
    ensures WaitersOk(h')
  {
    SameFed(h, h');
    forall d, t | d in h'.cells && t in h'.cells && Waits(h', d, t)
      ensures Waits(h, d, t) && t in h.cells && t != x
    {
      NotFedBy(h, x, d);
    }
  }

  lemma NotFedBy<Id, V, E>(h: Heap<Id, V, E>, c: Id, d: Id)
    requires BoundOk(h) && !Fed(h, c) && d in h.cells && h.cells[d].callback.Some?
    ensures !Targets(h.cells[d].callback.value, c)
  {
    if d !in h.bound {
      var t := h.cells[d].callback.value.target;
      var b :| b in h.cells && Redirects(h, b, d, t);
      assert Targets(h.bound[b], t);
      assert Fed(h, t);
    } else {
      assert Targets(h.bound[d], c) ==> Fed(h, c);
    }
  }

  lemma GiveFirst<Id, V, E>(h: Heap<Id, V, E>, c: Id, o: Outcome<V, E>)
    requires Inv(h) && c in h.cells && h.cells[c].state.Pending? && !Fed(h, c)
    ensures var h' := h.(given := h.given[c := o]);
      InvBut(h', ByGift(c)) && Ready(h', c) && Due(h', ByGift(c), c, o)
  {
    var h' := h.(given := h.given[c := o]);
    SameFed(h, h');
    ReasonsSurvive(h, h', c);
    GiveKeepsBound(h, c, o);
    GiveKeepsWaiters(h, c, o);
    GiveKeepsPushes(h, c, o);
  }

  lemma GiveKeepsWaiters<Id, V, E>(h: Heap<Id, V, E>, c: Id, o: Outcome<V, E>)
    requires WaitersOk(h) && c in h.cells && h.cells[c].state.Pending? && !Fed(h, c)
    ensures var h' := h.(given := h.given[c := o]); WaitersOk(h') && Ready(h', c)
  {
    var h' := h.(given := h.given[c := o]);
    SameFed(h, h');
    forall d, t | d in h'.cells && t in h'.cells && Waits(h', d, t) ensures Waits(h, d, t) && Fed(h, t) {}
  }

  lemma GiveKeepsPushes<Id, V, E>(h: Heap<Id, V, E>, c: Id, o: Outcome<V, E>)
    requires PushesOk(h, NoDebt)
    ensures PushesOk(h.(given := h.given[c := o]), ByGift(c))
  {
    var h' := h.(given := h.given[c := o]);
    forall d | d in h'.cells && h'.cells[d].state.Completed? && h'.cells[d].callback.Some? ensures Pushed(h', d) {
      assert Pushed(h, d);
    }
  }

  lemma GiveKeepsBound<Id, V, E>(h: Heap<Id, V, E>, c: Id, o: Outcome<V, E>)
    requires BoundOk(h)
    ensures BoundOk(h.(given := h.given[c := o]))
  {
    var h' := h.(given := h.given[c := o]);
    assert forall b, d, t :: Redirects(h', b, d, t) <==> Redirects(h, b, d, t);
  }

  /** Nothing has used the outcome of a settled, unbound cell that no callback feeds. */
  lemma GiveAgain<Id, V, E>(h: Heap<Id, V, E>, c: Id, o: Outcome<V, E>)
    requires Inv(h) && c in h.cells && h.cells[c].state.Settled? && !Fed(h, c)
    ensures Inv(SetState(h.(given := h.given[c := o]), c, Settled(o)))
  {
    var h' := SetState(h.(given := h.given[c := o]), c, Settled(o));
    GiveAgainShape(h, c, o);
    GiveAgainGiven(h, c, o);
    BoundSurvives(h, h', c);
    WaitersSurvive(h, h', c);
    ReasonsSurvive(h, h', c);
    GiveAgainPushes(h, c, o);
  }

  lemma GiveAgainShape<Id, V, E>(h: Heap<Id, V, E>, c: Id, o: Outcome<V, E>)
    requires ShapeOk(h) && c in h.cells && h.cells[c].state.Settled?
    ensures var h' := SetState(h.(given := h.given[c := o]), c, Settled(o));
      ShapeOk(h') && Preserves(h, h', c) && h'.cells.Keys == h.cells.Keys + {c} && h'.cells[c].callback.None?
  {
    assert SetState(h.(given := h.given[c := o]), c, Settled(o)).cells.Keys == h.cells.Keys + {c};
  }

  lemma GiveAgainGiven<Id, V, E>(h: Heap<Id, V, E>, c: Id, o: Outcome<V, E>)
    requires GivenOk(h, NoDebt) && c in h.cells && !Fed(h, c)
    ensures GivenOk(SetState(h.(given := h.given[c := o]), c, Settled(o)), NoDebt)
  {
    SameFed(h, SetState(h.(given := h.given[c := o]), c, Settled(o)));
  }

  lemma GiveAgainPushes<Id, V, E>(h: Heap<Id, V, E>, c: Id, o: Outcome<V, E>)
    requires Inv(h) && c in h.cells && h.cells[c].state.Settled? && !Fed(h, c)
    ensures PushesOk(SetState(h.(given := h.given[c := o]), c, Settled(o)), NoDebt)
  {
    var h' := SetState(h.(given := h.given[c := o]), c, Settled(o));
    forall d | d in h'.cells && h'.cells[d].state.Completed? && h'.cells[d].callback.Some? ensures Pushed(h', d) {
      assert Pushed(h, d);
      NotFedBy(h, c, d);
    }
  }

  lemma CreateKeeps<Id, V, E>(h: Heap<Id, V, E>, c: Id)
    requires Inv(h) && c !in h.cells
    ensures Inv(h.(cells := h.cells[c := Cell(Pending, None)]))
  {
    var h' := h.(cells := h.cells[c := Cell(Pending, None)]);
    CreateKeepsShape(h, c);
    BoundSurvives(h, h', c);
    WaitersSurvive(h, h', c);
    ReasonsSurvive(h, h', c);
    CreateKeepsPushes(h, c);
  }

  lemma CreateKeepsShape<Id, V, E>(h: Heap<Id, V, E>, c: Id)
    requires ShapeOk(h) && BoundOk(h) && GivenOk(h, NoDebt) && c !in h.cells
    ensures var h' := h.(cells := h.cells[c := Cell(Pending, None)]);
      ShapeOk(h') && GivenOk(h', NoDebt) && Preserves(h, h', c) && h'.cells.Keys == h.cells.Keys + {c} && !Fed(h, c)
  {
    var h' := h.(cells := h.cells[c := Cell(Pending, None)]);
    SameFed(h, h');
    assert h'.cells.Keys == h.cells.Keys + {c};
  }

  lemma CreateKeepsPushes<Id, V, E>(h: Heap<Id, V, E>, c: Id)
    requires PushesOk(h, NoDebt) && c !in h.cells
    ensures PushesOk(h.(cells := h.cells[c := Cell(Pending, None)]), NoDebt)
  {
    var h' := h.(cells := h.cells[c := Cell(Pending, None)]);
    forall d | d in h'.cells && h'.cells[d].state.Completed? && h'.cells[d].callback.Some? ensures Pushed(h', d) {
      assert Pushed(h, d);
    }
  }

  lemma BindAllowed<Id, V, E>(h: Heap<Id, V, E>, c: Id, callback: Callback<Id, V, E>)
    requires Inv(h) && Proper(h, Bind(c, callback)) && c in h.cells && h.cells[c].callback.None?
    ensures MayAttach(h, NoDebt, c, callback, true)
  {
    if !callback.Terminator? {
      var t := callback.target;
      forall d | d in h.cells ensures !Waits(h, d, t) {
        assert Waits(h, d, t) ==> Fed(h, t);
      }
    }
  }

  lemma StepKeeps<Id, V, E>(h: Heap<Id, V, E>, trace: Trace<Id, V, E>, op: Op<Id, V, E>)
    requires Inv(h) && Proper(h, op) && Step(h, trace, op).Done?
    ensures Inv(Step(h, trace, op).heap)
  {
    match op
    case Create(c) => CreateKeeps(h, c);
    case Give(c, o) =>
      if h.cells[c].state.Pending? {
        GiveFirst(h, c, o);
        SettleKeeps(h.(given := h.given[c := o]), trace, ByGift(c), c, o);
      } else {
        GiveAgain(h, c, o);
      }
    case Bind(c, callback) =>
      BindAllowed(h, c, callback);
      AttachPays(h, NoDebt, c, callback, true);
      AttachUnfolds(Listed(h, c, callback, true), trace, c, callback);
      if !h.cells[c].state.Pending? {
        DeliverKeeps(AfterAttach(h, c, callback, true), trace, c);
      }
  }

  // ---------------------------------------------------------------- the machine computes the meaning

  lemma {:induction false} DenotesMore<Id, V(!new), E(!new)>(n: nat, m: nat, bound: map<Id, Callback<Id, V, E>>,
                                                           given: map<Id, Outcome<V, E>>, t: Id, o: Outcome<V, E>)
    requires n <= m && Denotes(n, bound, given, t, o)
    ensures Denotes(m, bound, given, t, o)
    decreases n
  {
    if !(t in given && given[t] == o) {
      var c, p :| c in bound && Denotes(n - 1, bound, given, c, p) && Yields(n, bound, given, c, p, t, o);
      DenotesMore(n - 1, m - 1, bound, given, c, p);
      if bound[c].Then? && Judge(bound[c].pack, p).Awaits? {
        DenotesMore(n - 1, m - 1, bound, given, Judge(bound[c].pack, p).cell, o);
      }
      assert Yields(m, bound, given, c, p, t, o);
    }
  }

  /** The meaning of a `then` that returned the promise `c`. */
  lemma DenotesRedirected<Id, V(!new), E(!new)>(n: nat, m: nat, bound: map<Id, Callback<Id, V, E>>,
      given: map<Id, Outcome<V, E>>,
                                                b: Id, p: Outcome<V, E>, c: Id, t: Id, o: Outcome<V, E>)
    returns (k: nat)
    requires b in bound && bound[b].Then? && bound[b].target == t && Judge(bound[b].pack, p) == Awaits(c)
    requires Denotes(n, bound, given, c, o) && Denotes(m, bound, given, b, p)
    ensures Denotes(k, bound, given, t, o)
  {
    k := if n < m then m + 1 else n + 1;
    DenotesMore(n, k - 1, bound, given, c, o);
    DenotesMore(m, k - 1, bound, given, b, p);
    assert Yields(k, bound, given, b, p, t, o);
  }

  lemma DenotesFed<Id, V(!new), E(!new)>(h: Heap<Id, V, E>, n: nat, c: Id, t: Id, o: Outcome<V, E>)
    requires c in h.bound && Feeds(h, c, t, o) && h.cells[c].callback == Some(h.bound[c])
    requires Denotes(n, h.bound, h.given, c, h.cells[c].state.outcome)
    ensures Denotes(n + 1, h.bound, h.given, t, o)
  {
    assert Yields(n + 1, h.bound, h.given, c, h.cells[c].state.outcome, t, o);
  }

  lemma Cause<Id, V, E>(h: Heap<Id, V, E>, t: Id) returns (c: Id)
    requires ReasonsOk(h) && OutcomeOf(h, t).Some? && !(t in h.given && h.given[t] == h.cells[t].state.outcome)
    ensures c in h.cells && Reason(h, c, t, h.cells[t].state.outcome)
  {
    var o := h.cells[t].state.outcome;
    assert Justified(h, t, o);
    c :| c in h.cells && Reason(h, c, t, o);
  }

  /** A settled cell means its outcome. */
  lemma {:induction false} SettledDenotes<Id, V(!new), E(!new)>(h: Heap<Id, V, E>, t: Id) returns (n: nat)
    requires ShapeOk(h) && BoundOk(h) && ReasonsOk(h) && OutcomeOf(h, t).Some?
    ensures Denotes(n, h.bound, h.given, t, OutcomeOf(h, t).value)
    decreases h.rank[t]
  {
    var o := h.cells[t].state.outcome;
    if t in h.given && h.given[t] == o {
      n := 0;
    } else {
      var c := Cause(h, t);
      n := SettledDenotes(h, c);
      if c in h.bound {
        DenotesFed(h, n, c, t, o);
        n := n + 1;
      } else {
        var b :| b in h.cells && Redirects(h, b, c, t) && Older(h, b, t);
        var m := SettledDenotes(h, b);
        n := DenotesRedirected(n, m, h.bound, h.given, b, h.cells[b].state.outcome, c, t, o);
      }
    }
  }

  /** What a cell means is its outcome, already. */
  lemma {:induction false} DenotedSettles<Id, V(!new), E(!new)>(h: Heap<Id, V, E>, n: nat, t: Id, o: Outcome<V, E>)
    requires Inv(h) && Denotes(n, h.bound, h.given, t, o)
    ensures OutcomeOf(h, t) == Some(o)
    decreases n
  {
    if !(t in h.given && h.given[t] == o) {
      var c, p :| c in h.bound && Denotes(n - 1, h.bound, h.given, c, p) && Yields(n, h.bound, h.given, c, p, t, o);
      DenotedSettles(h, n - 1, c, p);
      assert Pushed(h, c);
      if h.bound[c].Then? && Judge(h.bound[c].pack, p).Awaits? {
        var r := Judge(h.bound[c].pack, p).cell;
        DenotedSettles(h, n - 1, r, o);
        assert Pushed(h, r);
      }
    }
  }

  // ---------------------------------------------------------------- callbacks are called once

  ghost function Project<Id, V, E>(trace: Trace<Id, V, E>, c: Id): Trace<Id, V, E> {
    if trace == [] then []
    else
      var last := trace[|trace| - 1];
      Project(trace[..|trace| - 1], c) + (if last.cell == c then [last] else [])
  }

  lemma ProjectCalls<Id, V, E>(trace: Trace<Id, V, E>, c: Id, o: Outcome<V, E>, d: Id)
    ensures Project(trace + Calls(c, o), d) == Project(trace, d) + (if d == c then Calls(c, o) else [])
  {
    var first, second := Calls(c, o)[0], Calls(c, o)[1];
    var once := trace + [first];
    assert trace + Calls(c, o) == once + [second];
    assert (once + [second])[..|once|] == once && once[..|trace|] == trace;
  }

  /** The calls a cell's callback has made. */
  ghost function CallsOf<Id, V, E>(h: Heap<Id, V, E>, c: Id): Trace<Id, V, E> {
    if c in h.cells && h.cells[c].state.Completed? && h.cells[c].callback.Some? && h.cells[c].callback.value.Then? then
      Calls(c, h.cells[c].state.outcome)
    else []
  }

  /** Callbacks and finalizers alternate, each finalizer right behind the callback of the same cell. */
  ghost predicate Paired<Id, V, E>(trace: Trace<Id, V, E>) {
    && |trace| % 2 == 0
    && forall k {:trigger trace[2 * k]} :: 0 <= 2 * k < |trace| ==>
         !trace[2 * k].Finalizer? && trace[2 * k + 1] == Finalizer(trace[2 * k].cell)
  }

  /** Only cells of the heap have been called. */
  ghost predicate Local<Id, V, E>(h: Heap<Id, V, E>, trace: Trace<Id, V, E>) {
    forall k :: 0 <= k < |trace| ==> trace[k].cell in h.cells
  }

  /** Every callback but that of `c` has been called as it should. */
  ghost predicate TraceBut<Id, V, E>(h: Heap<Id, V, E>, trace: Trace<Id, V, E>, c: Id) {
    && Paired(trace) && Local(h, trace)
    && Project(trace, c) == []
    && forall d :: d in h.cells && d != c ==> Project(trace, d) == CallsOf(h, d)
  }

  ghost predicate TraceOk<Id, V, E>(h: Heap<Id, V, E>, trace: Trace<Id, V, E>) {
    Paired(trace) && Local(h, trace) && forall d :: d in h.cells ==> Project(trace, d) == CallsOf(h, d)
  }

  lemma {:induction false} ProjectStranger<Id, V, E>(trace: Trace<Id, V, E>, c: Id)
    requires forall k :: 0 <= k < |trace| ==> trace[k].cell != c
    ensures Project(trace, c) == []
    decreases |trace|
  {
    if trace != [] {
      ProjectStranger(trace[..|trace| - 1], c);
    }
  }

  lemma {:induction false} SettleTrace<Id, V, E>(h: Heap<Id, V, E>, trace: Trace<Id, V, E>, c: Id, o: Outcome<V, E>)
    requires TraceOk(h, trace)
    ensures var r := Settle(h, trace, c, o); r.Done? ==> TraceOk(r.heap, r.trace)
    decreases |Open(h)|, 1
  {
    if c in h.cells && Settle(h, trace, c, o) != Guard {
      SettleUnfolds(h, trace, c, o);
      var h' := if h.cells[c].state.Pending? then Assign(h, c, o) else SetState(h, c, Settled(o));
      assert forall d :: d in h.cells && d != c ==> CallsOf(h', d) == CallsOf(h, d);
      if h.cells[c].state.Pending? && h.cells[c].callback.Some? {
        DeliverTrace(h', trace, c);
      }
    }
  }

  lemma {:induction false} AttachTrace<Id, V, E>(h: Heap<Id, V, E>, trace: Trace<Id, V, E>, c: Id,
      callback: Callback<Id, V, E>)
    requires TraceOk(h, trace)
    ensures var r := Attach(h, trace, c, callback); r.Done? ==> TraceOk(r.heap, r.trace)
    decreases |Open(h)|, 1
  {
    if c in h.cells && h.cells[c].callback.None? && !h.cells[c].state.Completed? {
      AttachUnfolds(h, trace, c, callback);
      var h' := Attached(h, c, callback);
      assert forall d :: d in h.cells && d != c ==> CallsOf(h', d) == CallsOf(h, d);
      if h.cells[c].state.Settled? {
        DeliverTrace(h', trace, c);
      }
    }
  }

  lemma {:induction false} DeliverTrace<Id, V, E>(h: Heap<Id, V, E>, trace: Trace<Id, V, E>, c: Id)
    requires TraceBut(h, trace, c)
    requires c in h.cells && h.cells[c].state.Completed? && h.cells[c].callback.Some?
    ensures var r := Deliver(h, trace, c); r.Done? ==> TraceOk(r.heap, r.trace)
    decreases |Open(h)|, 2
  {
    var o := h.cells[c].state.outcome;
    match h.cells[c].callback.value
    case Terminator =>
    case Forward(target) => SettleTrace(h, trace, target, o);
    case Then(pack, target) =>
      CallsRecorded(h, trace, c);
      match Judge(pack, o)
      case Decided(outcome) => SettleTrace(h, trace + Calls(c, o), target, outcome);
      case Awaits(cell) => AttachTrace(h, trace + Calls(c, o), cell, Forward(target));
  }

  /** One more callback and its finalizer leave the trace paired. */
  lemma CallsPaired<Id, V, E>(trace: Trace<Id, V, E>, c: Id, o: Outcome<V, E>)
    requires Paired(trace)
    ensures Paired(trace + Calls(c, o))
  {
    var longer, n := trace + Calls(c, o), |trace| / 2;
    forall k {:trigger longer[2 * k]} | 0 <= 2 * k < |longer|
      ensures !longer[2 * k].Finalizer? && longer[2 * k + 1] == Finalizer(longer[2 * k].cell)
    {
      if k < n {
        assert longer[2 * k] == trace[2 * k] && longer[2 * k + 1] == trace[2 * k + 1];
      } else {
        assert k == n;
      }
    }
  }

  lemma CallsRecorded<Id, V, E>(h: Heap<Id, V, E>, trace: Trace<Id, V, E>, c: Id)
    requires TraceBut(h, trace, c)
    requires c in h.cells && h.cells[c].state.Completed? && h.cells[c].callback.Some? && h.cells[c].callback.value.Then?
    ensures TraceOk(h, trace + Calls(c, h.cells[c].state.outcome))
  {
    var o := h.cells[c].state.outcome;
    CallsPaired(trace, c, o);
    forall d | d in h.cells ensures Project(trace + Calls(c, o), d) == CallsOf(h, d) {
      ProjectCalls(trace, c, o, d);
    }
  }

  lemma StepTrace<Id, V, E>(h: Heap<Id, V, E>, trace: Trace<Id, V, E>, op: Op<Id, V, E>)
    requires TraceOk(h, trace)
    ensures var r := Step(h, trace, op); r.Done? ==> TraceOk(r.heap, r.trace)
  {
    match op
    case Create(c) =>
      if c !in h.cells {
        ProjectStranger(trace, c);
        var h' := h.(cells := h.cells[c := Cell(Pending, None)]);
        assert forall d :: d in h.cells ==> CallsOf(h', d) == CallsOf(h, d);
      }
    case Give(c, o) =>
      var h' := h.(given := h.given[c := o]);
      assert forall d :: d in h.cells ==> CallsOf(h', d) == CallsOf(h, d);
      SettleTrace(h', trace, c, o);
    case Bind(c, callback) =>
      var h' := h.(bound := h.bound[c := callback]);
      assert forall d :: d in h.cells ==> CallsOf(h', d) == CallsOf(h, d);
      AttachTrace(h', trace, c, callback);
  }

  // ---------------------------------------------------------------- runs

  /** The heap and trace after a sequence of proper calls, if no guard threw and no error went unhandled. */
  ghost function Run<Id, V, E>(ops: seq<Op<Id, V, E>>): Result<Id, V, E>
    decreases |ops|
  {
    if ops == [] then Done(Empty(), [])
    else
      match Run(ops[..|ops| - 1])
      case Done(h, trace) => if Proper(h, ops[|ops| - 1]) then Step(h, trace, ops[|ops| - 1]) else Guard
      case r => r
  }

  lemma {:induction false} RunKeeps<Id, V, E>(ops: seq<Op<Id, V, E>>)
    requires Run(ops).Done?
    ensures Inv(Run(ops).heap) && TraceOk(Run(ops).heap, Run(ops).trace)
    decreases |ops|
  {
    if ops != [] {
      var before, op := ops[..|ops| - 1], ops[|ops| - 1];
      RunKeeps(before);
      var r := Run(before);
      StepKeeps(r.heap, r.trace, op);
      StepTrace(r.heap, r.trace, op);
    }
  }

  /**
   Refinement.  In every run, whatever its order of binding and settling, a cell is settled with `o` exactly
   when the graph that was bound and the outcomes that were given mean `o` for it.
   */
  lemma MachineComputesMeaning<Id, V(!new), E(!new)>(ops: seq<Op<Id, V, E>>, t: Id, o: Outcome<V, E>)
    requires Run(ops).Done?
    ensures var h := Run(ops).heap;
      OutcomeOf(h, t) == Some(o) <==> exists n: nat :: Denotes(n, h.bound, h.given, t, o)
  {
    RunKeeps(ops);
    var h := Run(ops).heap;
    if OutcomeOf(h, t) == Some(o) {
      var n := SettledDenotes(h, t);
      assert Denotes(n, h.bound, h.given, t, o);
    }
    if exists n: nat :: Denotes(n, h.bound, h.given, t, o) {
      var n: nat :| Denotes(n, h.bound, h.given, t, o);
      DenotedSettles(h, n, t, o);
    }
  }

  /** Confluence.  Two runs that bind the same graph and give the same outcomes agree on every cell. */
  lemma Confluence<Id, V(!new), E(!new)>(ops: seq<Op<Id, V, E>>, ops': seq<Op<Id, V, E>>, t: Id)
    requires Run(ops).Done? && Run(ops').Done?
    requires Run(ops).heap.bound == Run(ops').heap.bound && Run(ops).heap.given == Run(ops').heap.given
    ensures OutcomeOf(Run(ops).heap, t) == OutcomeOf(Run(ops').heap, t)
  {
    var h, h' := Run(ops).heap, Run(ops').heap;
    if OutcomeOf(h, t).Some? {
      MachineComputesMeaning(ops, t, OutcomeOf(h, t).value);
      MachineComputesMeaning(ops', t, OutcomeOf(h, t).value);
    }
    if OutcomeOf(h', t).Some? {
      MachineComputesMeaning(ops, t, OutcomeOf(h', t).value);
      MachineComputesMeaning(ops', t, OutcomeOf(h', t).value);
    }
  }

  /**
   The law of `then`.  The output of a bound `then` is settled exactly as its callbacks say: not before its
   input; with the exception of the finalizer if there is one; and else with what next, for a value, or handler,
   for an error, has thrown or returned, or as the promise that it returned.
   */
  lemma ThenLaw<Id, V(!new), E(!new)>(ops: seq<Op<Id, V, E>>, c: Id)
    requires Run(ops).Done? && c in Run(ops).heap.bound && Run(ops).heap.bound[c].Then?
    ensures var h := Run(ops).heap;
      var pack, t := h.bound[c].pack, h.bound[c].target;
      match OutcomeOf(h, c)
      case None => OutcomeOf(h, t) == None
      case Some(p) =>
        if pack.finalizer.Some? then OutcomeOf(h, t) == Some(Err(pack.finalizer.value))
        else
          match (if p.Ok? then pack.next(p.value) else pack.handler(p.error))
          case Throws(error) => OutcomeOf(h, t) == Some(Err(error))
          case Returns(outcome) => OutcomeOf(h, t) == Some(outcome)
          case Promised(r) => OutcomeOf(h, t) == OutcomeOf(h, r)
  {
    RunKeeps(ops);
    var h := Run(ops).heap;
    var t := h.bound[c].target;
    if OutcomeOf(h, c).Some? {
      assert Pushed(h, c);
      var v := Judge(h.bound[c].pack, h.cells[c].state.outcome);
      if v.Awaits? && OutcomeOf(h, v.cell).Some? {
        assert Pushed(h, v.cell);
      }
    }
    if OutcomeOf(h, t).Some? {
      OnlyFeeder(h, c);
    }
  }

  /** Whatever settled the output of a `then` came from that `then`. */
  lemma OnlyFeeder<Id, V, E>(h: Heap<Id, V, E>, c: Id)
    requires Inv(h) && c in h.bound && h.bound[c].Then? && OutcomeOf(h, h.bound[c].target).Some?
    ensures OutcomeOf(h, c).Some?
    ensures var v := Judge(h.bound[c].pack, OutcomeOf(h, c).value); v.Awaits? ==> OutcomeOf(h, v.cell).Some?
  {
    var t := h.bound[c].target;
    var o := h.cells[t].state.outcome;
    assert Fed(h, t) by { assert Targets(h.bound[c], t); }
    assert Justified(h, t, o);
    var d :| d in h.cells && Reason(h, d, t, o);
    if d in h.bound {
      assert Targets(h.bound[d], t);
      assert d == c;
    } else {
      var b :| b in h.cells && Redirects(h, b, d, t) && Older(h, b, t);
      assert Targets(h.bound[b], t);
      assert b == c;
    }
  }

  /**
   Each `then` calls exactly one of its callbacks, `next` iff its promise was resolved and `handler` iff it
   was rejected, then its finalizer, once and with nothing in between; while the promise is pending it
   calls nothing.
   */
  lemma CalledOnce<Id, V, E>(ops: seq<Op<Id, V, E>>, c: Id)
    requires Run(ops).Done? && c in Run(ops).heap.bound && Run(ops).heap.bound[c].Then?
    ensures Paired(Run(ops).trace)
    ensures Project(Run(ops).trace, c) ==
            match OutcomeOf(Run(ops).heap, c)
            case None => []
            case Some(Ok(value)) => [Next(c, value), Finalizer(c)]
            case Some(Err(error)) => [Handler(c, error), Finalizer(c)]
  {
    RunKeeps(ops);
  }

  /**
   The finalizer of `then` has run as soon as its callback has returned, whatever became of the promise that
   the callback returned; that of a `finally` bound to the output runs when that promise settles.
   */
  lemma FinalizerRunsOnReturn<Id, V(!new), E(!new)>(ops: seq<Op<Id, V, E>>, c: Id, d: Id, r: Id)
    requires Run(ops).Done?
    requires var h := Run(ops).heap;
      && c in h.bound && h.bound[c].Then? && h.bound[c].target == d
      && d in h.bound && h.bound[d].Then?
      && OutcomeOf(h, c).Some? && Judge(h.bound[c].pack, OutcomeOf(h, c).value) == Awaits(r)
    ensures Finalizer(c) in Project(Run(ops).trace, c)
    ensures Finalizer(d) in Project(Run(ops).trace, d) <==> OutcomeOf(Run(ops).heap, r).Some?
  {
    CalledOnce(ops, c);
    CalledOnce(ops, d);
    ThenLaw(ops, c);
    var calls := Project(Run(ops).trace, c);
    assert calls[1] == Finalizer(c);
    if OutcomeOf(Run(ops).heap, r).Some? {
      assert Project(Run(ops).trace, d)[1] == Finalizer(d);
    }
  }

  /**
   A promise may be settled twice, as long as nothing is bound to it and both times in the same way: the
   second outcome then replaces the first.
   */
  lemma SettledTwice<Id, V, E>(h: Heap<Id, V, E>, trace: Trace<Id, V, E>, c: Id, o: Outcome<V, E>, o': Outcome<V, E>)
    requires c in h.cells && h.cells[c] == Cell(Pending, None)
    ensures var r := Settle(h, trace, c, o);
      && r.Done? && OutcomeOf(r.heap, c) == Some(o)
      && (Settle(r.heap, trace, c, o').Done? <==> o.Ok? == o'.Ok?)
      && (o.Ok? == o'.Ok? ==> OutcomeOf(Settle(r.heap, trace, c, o').heap, c) == Some(o'))
  {
    var r := Settle(h, trace, c, o);
    assert r == Done(Assign(h, c, o), trace);
  }
}
