/**
 The back-off protocol of `lock_many`: block on one mutex while holding none, try the others in a circle,
 and on a failed try release everything and start again at the mutex that was busy.

 `Advance` is one step of one caller against a table of mutex owners (absent means free), so that the same
 protocol serves any number of callers here and the joining thread of EventLoop.
 */
module LockMany {
  import opened Wrappers

  datatype Status =
    | Blocking                // about to block on order[start], holding nothing
    | Trying(counter: nat)    // order[start] and the next counter - 1 mutexes are held
    | Releasing(next: nat)    // a try failed; the mutexes before order[next] have been released
    | Done

  datatype Locker<M> = Locker(order: seq<M>, start: nat, status: Status)

  ghost predicate Distinct<M>(s: seq<M>) {
    forall i, j :: 0 <= i < j < |s| ==> s[i] != s[j]
  }

  predicate Owns<M, T(==)>(owner: map<M, T>, m: M, t: T) {
    m in owner && owner[m] == t
  }

  function NewLocker<M>(order: seq<M>): Locker<M> {
    Locker(order, 0, if order == [] then Done else Blocking)
  }

  predicate WellFormed<M>(l: Locker<M>) {
    match l.status
    case Blocking => l.start < |l.order|
    case Trying(counter) => l.start < |l.order| && 1 <= counter < |l.order|
    case Releasing(next) => l.start < |l.order| && next <= |l.order|
    case Done => true
  }

  /** The index tried when `counter` mutexes are held: (start + counter) % count. */
  function Circle<M>(l: Locker<M>, counter: nat): (i: nat)
    requires l.start < |l.order| && counter < |l.order|
    ensures i < |l.order|
  {
    if l.start + counter < |l.order| then l.start + counter else l.start + counter - |l.order|
  }

  lemma CircleIsModulo<M>(l: Locker<M>, counter: nat)
    requires l.start < |l.order| && counter < |l.order|
    ensures Circle(l, counter) == (l.start + counter) % |l.order|
  {
    var n, k: int := |l.order|, l.start + counter;
    var q, r := k / n, k % n;
    assert k == q * n + r;
    assert q == 0 || q == 1;
  }

  function Held<M>(l: Locker<M>, counter: nat): Status {
    if counter < |l.order| then Trying(counter) else Done
  }

  /** One step, or `None` while the mutex to block on belongs to another caller. */
  function Advance<M, T(==)>(l: Locker<M>, owner: map<M, T>, me: T): Option<(Locker<M>, map<M, T>)>
    requires WellFormed(l)
  {
    match l.status
    case Blocking =>
      if l.order[l.start] in owner then None
      else Some((l.(status := Held(l, 1)), owner[l.order[l.start] := me]))
    case Trying(counter) =>
      var i := Circle(l, counter);
      if l.order[i] in owner then Some((l.(start := i, status := Releasing(0)), owner))
      else Some((l.(status := Held(l, counter + 1)), owner[l.order[i] := me]))
    case Releasing(next) =>
      if next == |l.order| then Some((l.(status := Blocking), owner))
      else
        Some((l.(status := Releasing(next + 1)),
              if Owns(owner, l.order[next], me) then owner - {l.order[next]} else owner))
    case Done => None
  }

  /** What the owner table says about a caller at each point of the protocol. */
  ghost predicate Accurate<M(!new), T>(l: Locker<M>, owner: map<M, T>, me: T) {
    && WellFormed(l) && Distinct(l.order)
    && match l.status
       case Blocking => forall m :: !Owns(owner, m, me)
       case Trying(counter) =>
         && (forall m :: Owns(owner, m, me) ==> m in l.order)
         && (forall c | 0 <= c < |l.order| :: Owns(owner, l.order[Circle(l, c)], me) <==> c < counter)
       case Releasing(next) =>
         forall m :: Owns(owner, m, me) ==> exists j | next <= j < |l.order| :: l.order[j] == m
       case Done => forall m :: Owns(owner, m, me) <==> m in l.order
  }

  /** The number of mutexes held when index `i` is tried. */
  function Turn<M>(l: Locker<M>, i: nat): (c: nat)
    requires l.start < |l.order| && i < |l.order|
    ensures c < |l.order| && Circle(l, c) == i
  {
    if l.start <= i then i - l.start else i + |l.order| - l.start
  }

  /** A step keeps the table accurate for the caller and touches no other caller's mutexes. */
  lemma AdvanceKeeps<M(!new), T(!new)>(l: Locker<M>, owner: map<M, T>, me: T)
    requires Accurate(l, owner, me) && Advance(l, owner, me).Some?
    ensures var (l', owner') := Advance(l, owner, me).value;
      && Accurate(l', owner', me) && l'.order == l.order
      && (forall m, t :: t != me ==> (Owns(owner', m, t) <==> Owns(owner, m, t)))
  {
    var (l', owner') := Advance(l, owner, me).value;
    match l.status
    case Blocking => GrabKeeps(l, owner, me, 0);
    case Trying(counter) =>
      if l.order[Circle(l, counter)] in owner {
        forall m | Owns(owner, m, me) ensures exists j | 0 <= j < |l.order| :: l.order[j] == m {
          assert m in l.order;
        }
      } else {
        GrabKeeps(l, owner, me, counter);
      }
    case Releasing(next) =>
      if next < |l.order| {
        forall m | Owns(owner', m, me) ensures exists j | next + 1 <= j < |l.order| :: l.order[j] == m {
          assert Owns(owner, m, me);
          var j :| next <= j < |l.order| && l.order[j] == m;
        }
      }
  }

  lemma GrabKeeps<M(!new), T(!new)>(l: Locker<M>, owner: map<M, T>, me: T, counter: nat)
    requires Distinct(l.order) && l.start < |l.order| && counter < |l.order|
    requires l.order[Circle(l, counter)] !in owner
    requires forall m :: Owns(owner, m, me) ==> m in l.order
    requires forall c | 0 <= c < |l.order| :: Owns(owner, l.order[Circle(l, c)], me) <==> c < counter
    ensures Accurate(l.(status := Held(l, counter + 1)), owner[l.order[Circle(l, counter)] := me], me)
  {
    var i := Circle(l, counter);
    var l', owner' := l.(status := Held(l, counter + 1)), owner[l.order[i] := me];
    forall c | 0 <= c < |l.order|
      ensures Owns(owner', l'.order[Circle(l', c)], me) <==> c < counter + 1
    {
      assert Circle(l', c) == Circle(l, c);
      assert Circle(l, c) == i ==> c == counter;
      assert l.order[Circle(l, c)] == l.order[i] ==> Circle(l, c) == i;
    }
    if counter + 1 == |l.order| {
      forall m | m in l.order ensures Owns(owner', m, me) {
        var j :| 0 <= j < |l.order| && l.order[j] == m;
        assert Circle(l', Turn(l', j)) == j;
      }
    }
  }

  // ---------------------------------------------------------------- many callers

  /** Callers by name; one that is gone has released its mutexes. */
  datatype System<M, T> = System(lockers: map<T, Locker<M>>, owner: map<M, T>)

  datatype Act<T> =
    | Proceed(t: T)
    | Leave(t: T)     // the guard of a caller that holds everything goes out of scope

  predicate Busy<M, T>(s: System<M, T>, t: T) {
    t in s.lockers
  }

  function Release<M, T(==)>(owner: map<M, T>, t: T): map<M, T> {
    map m | m in owner && owner[m] != t :: owner[m]
  }

  lemma ReleaseOwns<M(!new), T(!new)>(owner: map<M, T>, me: T)
    ensures forall m, t :: Owns(Release(owner, me), m, t) <==> Owns(owner, m, t) && t != me
  {}

  function Next<M, T(==)>(s: System<M, T>, a: Act<T>): Option<System<M, T>> {
    if !Busy(s, a.t) || !WellFormed(s.lockers[a.t]) then None
    else
      match a
      case Proceed(t) =>
        (match Advance(s.lockers[t], s.owner, t)
         case None => None
         case Some(r) => Some(System(s.lockers[t := r.0], r.1)))
      case Leave(t) =>
        if s.lockers[t].status.Done? then Some(System(s.lockers - {t}, Release(s.owner, t))) else None
  }

  function Run<M, T(==)>(s: System<M, T>, acts: seq<Act<T>>): Option<System<M, T>>
    decreases |acts|
  {
    if acts == [] then Some(s)
    else
      match Next(s, acts[0])
      case None => None
      case Some(t) => Run(t, acts[1..])
  }

  ghost predicate Consistent<M(!new), T(!new)>(s: System<M, T>) {
    && (forall t :: t in s.lockers ==> Accurate(s.lockers[t], s.owner, t))
    && (forall m :: m in s.owner ==> s.owner[m] in s.lockers)
  }

  /** Callers that have just entered, each with its own list of mutexes in its own order. */
  ghost predicate Initial<M(!new), T(!new)>(s: System<M, T>) {
    && s.owner == map[]
    && forall t :: t in s.lockers ==> Distinct(s.lockers[t].order) && s.lockers[t] == NewLocker(s.lockers[t].order)
  }

  lemma NextKeeps<M(!new), T(!new)>(s: System<M, T>, a: Act<T>)
    requires Consistent(s) && Next(s, a).Some?
    ensures Consistent(Next(s, a).value)
  {
    var s' := Next(s, a).value;
    match a
    case Proceed(t) =>
      AdvanceKeeps(s.lockers[t], s.owner, t);
      forall u | u in s'.lockers ensures Accurate(s'.lockers[u], s'.owner, u) {
        if u != t {
          StaysAccurate(s.lockers[u], s.owner, s'.owner, u);
        }
      }
      forall m | m in s'.owner ensures s'.owner[m] in s'.lockers {
        assert Owns(s'.owner, m, s'.owner[m]);
        if s'.owner[m] != t {
          assert Owns(s.owner, m, s'.owner[m]);
        }
      }
    case Leave(t) =>
      forall u | u in s'.lockers ensures Accurate(s'.lockers[u], s'.owner, u) {
        StaysAccurate(s.lockers[u], s.owner, s'.owner, u);
      }
  }

  lemma StaysAccurate<M(!new), T(!new)>(l: Locker<M>, owner: map<M, T>, owner': map<M, T>, me: T)
    requires Accurate(l, owner, me)
    requires forall m :: Owns(owner', m, me) <==> Owns(owner, m, me)
    ensures Accurate(l, owner', me)
  {}

  lemma {:induction false} RunKeeps<M(!new), T(!new)>(s: System<M, T>, acts: seq<Act<T>>)
    requires Consistent(s) && Run(s, acts).Some?
    ensures Consistent(Run(s, acts).value)
    decreases |acts|
  {
    if acts != [] {
      NextKeeps(s, acts[0]);
      RunKeeps(Next(s, acts[0]).value, acts[1..]);
    }
  }

  lemma InitialConsistent<M(!new), T(!new)>(s: System<M, T>)
    requires Initial(s)
    ensures Consistent(s)
  {}

  /** `t` is blocked on a mutex that belongs to `u`. */
  ghost predicate WaitsFor<M, T>(s: System<M, T>, t: T, u: T) {
    && t in s.lockers
    && var l := s.lockers[t];
       l.status.Blocking? && l.start < |l.order| && Owns(s.owner, l.order[l.start], u)
  }

  function After<T>(ring: seq<T>, i: nat): T
    requires i < |ring|
  {
    if i + 1 < |ring| then ring[i + 1] else ring[0]
  }

  ghost predicate Cycle<M, T>(s: System<M, T>, ring: seq<T>) {
    ring != [] && forall i :: 0 <= i < |ring| ==> WaitsFor(s, ring[i], After(ring, i))
  }

  /**
   No hold-and-wait: in every reachable state a blocked caller owns no mutex and a caller that is done
   owns exactly the mutexes it asked for.
   */
  lemma NoHoldAndWait<M(!new), T(!new)>(s: System<M, T>, acts: seq<Act<T>>, t: T)
    requires Initial(s) && Run(s, acts).Some? && t in Run(s, acts).value.lockers
    ensures var r := Run(s, acts).value;
      && (r.lockers[t].status.Blocking? ==> forall m :: !Owns(r.owner, m, t))
      && (r.lockers[t].status.Done? ==> forall m :: Owns(r.owner, m, t) <==> m in r.lockers[t].order)
  {
    InitialConsistent(s);
    RunKeeps(s, acts);
  }

  /** No reachable state has a cycle of waiters. */
  lemma NoCycleOfWaiters<M(!new), T(!new)>(s: System<M, T>, acts: seq<Act<T>>, ring: seq<T>)
    requires Initial(s) && Run(s, acts).Some?
    ensures !Cycle(Run(s, acts).value, ring)
  {
    InitialConsistent(s);
    RunKeeps(s, acts);
    var r := Run(s, acts).value;
    if Cycle(r, ring) {
      var u := After(ring, 0);
      assert WaitsFor(r, ring[0], u);
      assert exists j :: 0 <= j < |ring| && ring[j] == u;
      assert false;
    }
  }

  /** While any caller is left, some caller can take a step. */
  lemma SomeoneCanStep<M(!new), T(!new)>(s: System<M, T>, acts: seq<Act<T>>)
    requires Initial(s) && Run(s, acts).Some? && Run(s, acts).value.lockers != map[]
    ensures exists a :: Next(Run(s, acts).value, a).Some?
  {
    InitialConsistent(s);
    RunKeeps(s, acts);
    var r := Run(s, acts).value;
    var t :| t in r.lockers;
    var l := r.lockers[t];
    if l.status.Blocking? && l.order[l.start] in r.owner {
      t := r.owner[l.order[l.start]];
      assert Owns(r.owner, l.order[l.start], t);
    }
    assert Next(r, if r.lockers[t].status.Done? then Leave(t) else Proceed(t)).Some?;
  }

  // ---------------------------------------------------------------- where a caller blocks, and that it gets there

  /** The mutex whose try by `t` failed last in the run, or `was` if none has. */
  function LastBusy<M, T(==)>(s: System<M, T>, acts: seq<Act<T>>, t: T, was: M): M
    decreases |acts|
  {
    if acts == [] || Next(s, acts[0]).None? then was
    else
      var next := Next(s, acts[0]).value;
      if acts[0] == Proceed(t) && s.lockers[t].status.Trying? then
        var l := s.lockers[t];
        var tried := l.order[(l.start + l.status.counter) % |l.order|];
        LastBusy(next, acts[1..], t, if tried in s.owner then tried else was)
      else LastBusy(next, acts[1..], t, was)
  }

  lemma {:induction false} GoneStaysGone<M, T>(s: System<M, T>, acts: seq<Act<T>>, t: T)
    requires Run(s, acts).Some? && t in Run(s, acts).value.lockers
    ensures t in s.lockers
    decreases |acts|
  {
    if acts != [] {
      GoneStaysGone(Next(s, acts[0]).value, acts[1..], t);
    }
  }

  /** The mutex a caller starts at. */
  ghost predicate StartsAt<M>(l: Locker<M>, m: M) {
    l.start < |l.order| && l.order[l.start] == m
  }

  lemma StartMoves<M, T>(s: System<M, T>, a: Act<T>, t: T, was: M)
    requires Next(s, a).Some? && t in Next(s, a).value.lockers && t in s.lockers && StartsAt(s.lockers[t], was)
    ensures var l := s.lockers[t];
      var tried := if l.status.Trying? then l.order[(l.start + l.status.counter) % |l.order|] else was;
      StartsAt(Next(s, a).value.lockers[t], if a == Proceed(t) && tried in s.owner then tried else was)
        || (!l.status.Trying? && StartsAt(Next(s, a).value.lockers[t], was))
  {
    var l := s.lockers[t];
    if a == Proceed(t) && l.status.Trying? {
      CircleIsModulo(l, l.status.counter);
    }
  }

  lemma {:induction false} StartsAtLastBusy<M, T>(s: System<M, T>, acts: seq<Act<T>>, t: T, was: M)
    requires Run(s, acts).Some? && t in Run(s, acts).value.lockers
    requires t in s.lockers && StartsAt(s.lockers[t], was)
    ensures StartsAt(Run(s, acts).value.lockers[t], LastBusy(s, acts, t, was))
    decreases |acts|
  {
    if acts != [] {
      var next := Next(s, acts[0]).value;
      GoneStaysGone(next, acts[1..], t);
      StartMoves(s, acts[0], t, was);
      var l := s.lockers[t];
      if acts[0] == Proceed(t) && l.status.Trying? {
        var tried := l.order[(l.start + l.status.counter) % |l.order|];
        StartsAtLastBusy(next, acts[1..], t, if tried in s.owner then tried else was);
      } else {
        StartsAtLastBusy(next, acts[1..], t, was);
      }
    }
  }

  /** A caller blocks on the first mutex of its list at first, and then always on the one it last found busy. */
  lemma BlocksOnTheBusyOne<M(!new), T(!new)>(s: System<M, T>, acts: seq<Act<T>>, t: T)
    requires Initial(s) && Run(s, acts).Some? && t in Run(s, acts).value.lockers
    ensures t in s.lockers
    ensures var l := Run(s, acts).value.lockers[t];
      l.status.Blocking? ==>
        && s.lockers[t].order != [] && l.start < |l.order|
        && l.order[l.start] == LastBusy(s, acts, t, s.lockers[t].order[0])
  {
    GoneStaysGone(s, acts, t);
    if s.lockers[t].order != [] {
      StartsAtLastBusy(s, acts, t, s.lockers[t].order[0]);
    } else {
      NothingToLock(s, acts, t);
    }
  }

  lemma {:induction false} NothingToLock<M, T>(s: System<M, T>, acts: seq<Act<T>>, t: T)
    requires Run(s, acts).Some? && t in Run(s, acts).value.lockers && t in s.lockers && s.lockers[t].status.Done?
    ensures Run(s, acts).value.lockers[t].status.Done?
    decreases |acts|
  {
    if acts != [] {
      GoneStaysGone(Next(s, acts[0]).value, acts[1..], t);
      NothingToLock(Next(s, acts[0]).value, acts[1..], t);
    }
  }

  /** The steps a caller has before it if nobody is in its way. */
  function StepsLeft<M>(l: Locker<M>): nat
    requires WellFormed(l)
  {
    match l.status
    case Blocking => |l.order|
    case Trying(counter) => |l.order| - counter
    case Releasing(next) => |l.order| - next + 1 + |l.order|
    case Done => 0
  }

  /** `n` steps of one caller, as far as it can take them. */
  function Alone<M, T(==)>(l: Locker<M>, owner: map<M, T>, me: T, n: nat): (Locker<M>, map<M, T>)
    decreases n
  {
    if n == 0 || !WellFormed(l) || Advance(l, owner, me).None? then (l, owner)
    else var (l', owner') := Advance(l, owner, me).value; Alone(l', owner', me, n - 1)
  }

  lemma AloneStep<M(!new), T(!new)>(l: Locker<M>, owner: map<M, T>, me: T)
    requires Accurate(l, owner, me) && !l.status.Done?
    requires forall m :: m in l.order && m in owner ==> owner[m] == me
    ensures Advance(l, owner, me).Some?
    ensures var l' := Advance(l, owner, me).value.0; WellFormed(l') && StepsLeft(l') + 1 == StepsLeft(l)
  {
    match l.status
    case Blocking => assert !Owns(owner, l.order[l.start], me);
    case Trying(counter) => assert !Owns(owner, l.order[Circle(l, counter)], me);
    case Releasing(_) =>
  }

  /** Wherever it stands in the protocol, a caller that nobody hinders ends up with all it asked for. */
  lemma {:induction false} AloneFinishes<M(!new), T(!new)>(l: Locker<M>, owner: map<M, T>, me: T)
    requires Accurate(l, owner, me)
    requires forall m :: m in l.order && m in owner ==> owner[m] == me
    ensures var (l', owner') := Alone(l, owner, me, StepsLeft(l));
      l'.status.Done? && l'.order == l.order && forall m :: Owns(owner', m, me) <==> m in l.order
    decreases StepsLeft(l)
  {
    if !l.status.Done? {
      AloneStep(l, owner, me);
      AdvanceKeeps(l, owner, me);
      var (l', owner') := Advance(l, owner, me).value;
      forall m | m in l'.order && m in owner' ensures owner'[m] == me {
        assert Owns(owner', m, owner'[m]);
      }
      AloneFinishes(l', owner', me);
    }
  }
}
