/**
 What whoever uses the event loop sees of its runs: a join that has returned, the events that each pool ran
 and in which order, and the exceptions.  The theorems speak of the actions of a run and of where `join` is
 called and has returned, not of the places it passes.
 */
module EventLoopRuns {
  import opened EventLoop
  import opened Wrappers

  lemma {:induction false} RunSplit<Ev, Ex>(s: State<Ev, Ex>, acts: seq<Action<Ev, Ex>>, k: nat)
    requires k <= |acts|
    ensures Run(s, acts) == match Run(s, acts[..k]) case None => None case Some(t) => Run(t, acts[k..])
    decreases |acts|
  {
    if k == 0 {
      assert acts[..0] == [] && acts[0..] == acts;
    } else {
      assert acts[..k][1..] == acts[1..][..k - 1] && acts[1..][k - 1..] == acts[k..];
      if Next(s, acts[0]).Some? {
        RunSplit(Next(s, acts[0]).value, acts[1..], k - 1);
      }
    }
  }

  // ---------------------------------------------------------------- join

  /** Somebody is in `join`. */
  predicate Joining<Ev, Ex>(s: State<Ev, Ex>) {
    !s.main.Building? && !s.main.AtStart? && !s.main.Outside?
  }

  /** In `join`, and not past the point where it leaves its loop. */
  predicate Looping<Ev, Ex>(s: State<Ev, Ex>) {
    Joining(s) && !s.main.Broke? && !s.main.LastDrain?
  }

  /** A run that starts in the loop of `join` and ends outside has passed the point where the loop is left. */
  lemma {:induction false} JoinBreaks<Ev, Ex>(s: State<Ev, Ex>, acts: seq<Action<Ev, Ex>>) returns (j: nat)
    requires (Looping(s) || s.main.Broke?) && Run(s, acts).Some? && Run(s, acts).value.main.Outside?
    ensures j <= |acts| && Run(s, acts[..j]).Some? && Run(s, acts[..j]).value.main.Broke?
    decreases |acts|
  {
    if s.main.Broke? {
      j := 0;
    } else {
      LoopStays(s, acts[0]);
      j := JoinBreaks(Next(s, acts[0]).value, acts[1..]);
      j := j + 1;
      assert acts[..j][1..] == acts[1..][..j - 1];
    }
  }

  lemma LoopStays<Ev, Ex>(s: State<Ev, Ex>, a: Action<Ev, Ex>)
    requires Looping(s) && Next(s, a).Some?
    ensures Looping(Next(s, a).value) || Next(s, a).value.main.Broke?
  {
  }

  /** What was thrown before some moment of a join has been handled once that join has returned. */
  ghost predicate Accounted<Ev, Ex>(s: State<Ev, Ex>, thrown: seq<Ex>) {
    && !s.main.Building? && !s.main.AtStart?
    && thrown <= s.thrown && (s.main.Outside? ==> thrown <= s.handled)
  }

  lemma AccountedStays<Ev, Ex>(s: State<Ev, Ex>, a: Action<Ev, Ex>, thrown: seq<Ex>)
    requires Conserved(s) && Accounted(s, thrown) && Next(s, a).Some?
    ensures Accounted(Next(s, a).value, thrown)
  {
    var t := Next(s, a).value;
    if a.MainStep? {
      MainAccounts(s, thrown);
    } else {
      NextHistory(s, a);
      PrefixGrows(thrown, s.thrown, ThrownIn(a));
    }
  }

  /** The main thread gets outside from a drain that finds nothing more, or from the start. */
  lemma GetsOut<Ev, Ex>(s: State<Ev, Ex>)
    requires MainNext(s).Some? && MainNext(s).value.main.Outside? && !s.main.AtStart?
    ensures s.exceptions == [] && MainNext(s).value == s.(main := Outside)
  {
  }

  lemma MainStaysStarted<Ev, Ex>(s: State<Ev, Ex>)
    requires MainNext(s).Some? && !s.main.Building? && !s.main.AtStart?
    ensures !MainNext(s).value.main.Building? && !MainNext(s).value.main.AtStart?
    ensures MainNext(s).value.thrown == s.thrown
  {
  }

  lemma MainAccounts<Ev, Ex>(s: State<Ev, Ex>, thrown: seq<Ex>)
    requires Conserved(s) && Accounted(s, thrown) && MainNext(s).Some?
    ensures Accounted(MainNext(s).value, thrown)
  {
    MainStaysStarted(s);
    if MainNext(s).value.main.Outside? {
      GetsOut(s);
      AllHandled(s);
    }
  }

  lemma AllHandled<Ev, Ex>(s: State<Ev, Ex>)
    requires Conserved(s) && s.exceptions == []
    ensures s.handled == s.thrown
  {
    assert s.handled + [] == s.handled;
  }

  lemma PrefixGrows<T>(a: seq<T>, b: seq<T>, c: seq<T>)
    requires a <= b
    ensures a <= b + c
  {
  }

  lemma {:induction false} AccountedRun<Ev, Ex>(s: State<Ev, Ex>, acts: seq<Action<Ev, Ex>>, thrown: seq<Ex>)
    requires Inv(s) && Accounted(s, thrown) && Run(s, acts).Some?
    ensures Accounted(Run(s, acts).value, thrown)
    decreases |acts|
  {
    if acts != [] {
      NextKeeps(s, acts[0]);
      AccountedStays(s, acts[0], thrown);
      AccountedRun(Next(s, acts[0]).value, acts[1..], thrown);
    }
  }

  /** At this moment nothing is left to run, and what has been thrown so far is among `handled`. */
  ghost predicate AllDone<Ev, Ex>(s: State<Ev, Ex>, handled: seq<Ex>) {
    Quiet(s) && s.finished == s.pushed && s.thrown <= handled
  }

  ghost predicate DoneAt<Ev, Ex>(s: State<Ev, Ex>, acts: seq<Action<Ev, Ex>>, j: nat, handled: seq<Ex>) {
    j <= |acts| && Run(s, acts[..j]).Some? && AllDone(Run(s, acts[..j]).value, handled)
  }

  /**
   Joining.  When `join` has been called and has returned, there was a moment in between when every queue was
   empty, every worker waited, and every event pushed so far had finished; by now the handler has had every
   exception thrown before that moment.  If nobody pushed from outside meanwhile, all this is so now.
   */
  lemma JoinReturns<Ev, Ex>(s: State<Ev, Ex>, acts: seq<Action<Ev, Ex>>, k: nat)
    requires Initial(s) && Run(s, acts).Some? && Run(s, acts).value.main.Outside?
    requires k < |acts| && acts[k] == CallJoin
    ensures exists j: nat :: k < j && DoneAt(s, acts, j, Run(s, acts).value.handled)
    ensures (forall i :: k < i < |acts| ==> !acts[i].OutsidePush?) ==>
      var t := Run(s, acts).value; AllDone(t, t.handled) && t.handled == t.thrown
  {
    var end := Run(s, acts).value;
    var j := JoinPasses(s, acts, k);
    if forall i :: k < i < |acts| ==> !acts[i].OutsidePush? {
      var t := Run(s, acts[..j]).value;
      RunSplit(s, acts, j);
      InitialInv(s);
      RunKeeps(s, acts);
      assert forall a | a in acts[j..] :: !a.OutsidePush?;
      QuietStaysQuiet(t, acts[j..]);
      QuietIsFinished(end);
    }
  }

  lemma JoinPasses<Ev, Ex>(s: State<Ev, Ex>, acts: seq<Action<Ev, Ex>>, k: nat) returns (j: nat)
    requires Initial(s) && Run(s, acts).Some? && Run(s, acts).value.main.Outside?
    requires k < |acts| && acts[k] == CallJoin
    ensures k < j && DoneAt(s, acts, j, Run(s, acts).value.handled)
  {
    RunSplit(s, acts, k + 1);
    CallIsLooping(s, acts, k);
    var called := Run(s, acts[..k + 1]).value;
    j := JoinBreaks(called, acts[k + 1..]);
    j := j + k + 1;
    assert acts[..j][..k + 1] == acts[..k + 1] && acts[..j][k + 1..] == acts[k + 1..][..j - k - 1];
    RunSplit(s, acts[..j], k + 1);
    JoinMeansQuiescence(s, acts[..j]);
    var broke := Run(s, acts[..j]).value;
    RunSplit(s, acts, j);
    InitialInv(s);
    RunKeeps(s, acts[..j]);
    AccountedRun(broke, acts[j..], broke.thrown);
  }

  lemma CallIsLooping<Ev, Ex>(s: State<Ev, Ex>, acts: seq<Action<Ev, Ex>>, k: nat)
    requires k < |acts| && acts[k] == CallJoin && Run(s, acts).Some?
    ensures Run(s, acts[..k + 1]).Some? && Looping(Run(s, acts[..k + 1]).value)
  {
    RunSplit(s, acts, k + 1);
    RunSplit(s, acts[..k + 1], k);
    assert acts[..k + 1][k..] == [acts[k]];
    RunOne(Run(s, acts[..k + 1][..k]).value, acts[k]);
  }

  lemma RunOne<Ev, Ex>(s: State<Ev, Ex>, a: Action<Ev, Ex>)
    ensures Run(s, [a]) == Next(s, a)
  {
  }

  /** Before `join` waits it has handed over what is stored: at that moment nothing thrown is unhandled. */
  lemma WaitsWithNothingStored<Ev, Ex>(s: State<Ev, Ex>, acts: seq<Action<Ev, Ex>>, a: Action<Ev, Ex>)
    requires Initial(s) && Run(s, acts).Some? && Next(Run(s, acts).value, a).Some?
    requires !Run(s, acts).value.main.AwaitingZero? && Next(Run(s, acts).value, a).value.main.AwaitingZero?
    ensures var t := Next(Run(s, acts).value, a).value; t.handled == t.thrown
  {
    var before := Run(s, acts).value;
    InitialInv(s);
    RunKeeps(s, acts);
    NextHistory(before, a);
    if a.MainStep? {
      BeginsToWait(before);
      assert before.thrown == before.handled + [] == before.handled;
    }
  }

  lemma BeginsToWait<Ev, Ex>(s: State<Ev, Ex>)
    requires MainNext(s).Some? && !s.main.AwaitingZero? && MainNext(s).value.main.AwaitingZero?
    ensures s.exceptions == [] && MainNext(s).value == s.(main := AwaitingZero)
  {
  }

  // ---------------------------------------------------------------- pools

  /** What one action pushes to a pool. */
  function PushedBy<Ev, Ex>(a: Action<Ev, Ex>, pool: nat): seq<Ev> {
    match a
    case Push(_, p, e) => if p == pool then [e] else []
    case OutsidePush(p, e) => if p == pool then [e] else []
    case _ => []
  }

  function PushedTo<Ev, Ex>(acts: seq<Action<Ev, Ex>>, pool: nat): seq<Ev> {
    if acts == [] then [] else PushedBy(acts[0], pool) + PushedTo(acts[1..], pool)
  }

  /** The event that a worker of a pool begins to run between two states. */
  function TakenBy<Ev, Ex>(s: State<Ev, Ex>, a: Action<Ev, Ex>, t: State<Ev, Ex>, pool: nat): seq<Ev> {
    if a.Work? && a.id < |s.workers| && a.id < |t.workers| && s.workers[a.id].pool == pool
       && !s.workers[a.id].pc.Running? && t.workers[a.id].pc.Running?
    then [t.workers[a.id].pc.event] else []
  }

  /** The events that workers of a pool have begun to run, in order. */
  function TakenFrom<Ev, Ex>(s: State<Ev, Ex>, acts: seq<Action<Ev, Ex>>, pool: nat): seq<Ev>
    decreases |acts|
  {
    if acts == [] then []
    else
      match Next(s, acts[0])
      case None => []
      case Some(t) => TakenBy(s, acts[0], t, pool) + TakenFrom(t, acts[1..], pool)
  }

  lemma NextMovesEvents<Ev, Ex>(s: State<Ev, Ex>, a: Action<Ev, Ex>, pool: nat)
    requires Next(s, a).Some? && pool < |s.queues|
    ensures var t := Next(s, a).value;
      |t.queues| == |s.queues| && TakenBy(s, a, t, pool) + t.queues[pool] == s.queues[pool] + PushedBy(a, pool)
  {
    match a
    case Work(id) => WorkMovesEvents(s, id, pool);
    case MainStep => MainFrame(s);
    case _ =>
  }

  lemma PopMovesEvents<Ev, Ex>(s: State<Ev, Ex>, id: nat, pool: nat)
    requires PoolOk(s, id) && s.queues[s.workers[id].pool] != [] && pool < |s.queues| && !s.workers[id].pc.Running?
    ensures TakenBy(s, Work(id), Pop(s, id), pool) + Pop(s, id).queues[pool] == s.queues[pool]
  {
    var q := s.workers[id].pool;
    assert s.queues[q] == [s.queues[q][0]] + s.queues[q][1..];
  }

  /** A step of a worker takes the front event or leaves the queues alone. */
  ghost predicate TakesOrLeaves<Ev, Ex>(s: State<Ev, Ex>, id: nat, t: State<Ev, Ex>)
    requires PoolOk(s, id)
  {
    || (s.queues[s.workers[id].pool] != [] && !s.workers[id].pc.Running? && t == Pop(s, id))
    || (t.queues == s.queues && id < |t.workers| && !t.workers[id].pc.Running?)
  }

  lemma LeavesQueue<Ev, Ex>(s: State<Ev, Ex>, id: nat)
    requires PoolOk(s, id) && WorkStep(s, id).Some?
    requires var pc := s.workers[id].pc; pc.Starting? || pc.Counted? || pc.AtPistol? || pc.Top?
    ensures TakesOrLeaves(s, id, WorkStep(s, id).value)
  {
  }

  lemma TakesFromQueue<Ev, Ex>(s: State<Ev, Ex>, id: nat)
    requires PoolOk(s, id) && WorkStep(s, id).Some?
    requires var pc := s.workers[id].pc; !pc.Starting? && !pc.Counted? && !pc.AtPistol? && !pc.Top?
    ensures TakesOrLeaves(s, id, WorkStep(s, id).value)
  {
  }

  lemma WorkMovesEvents<Ev, Ex>(s: State<Ev, Ex>, id: nat, pool: nat)
    requires PoolOk(s, id) && WorkStep(s, id).Some? && pool < |s.queues|
    ensures var t := WorkStep(s, id).value;
      |t.queues| == |s.queues| && TakenBy(s, Work(id), t, pool) + t.queues[pool] == s.queues[pool]
  {
    var pc := s.workers[id].pc;
    if pc.Starting? || pc.Counted? || pc.AtPistol? || pc.Top? {
      LeavesQueue(s, id);
    } else {
      TakesFromQueue(s, id);
    }
    MovesEvents(s, id, WorkStep(s, id).value, pool);
  }

  lemma MovesEvents<Ev, Ex>(s: State<Ev, Ex>, id: nat, t: State<Ev, Ex>, pool: nat)
    requires PoolOk(s, id) && TakesOrLeaves(s, id, t) && pool < |s.queues|
    ensures |t.queues| == |s.queues| && TakenBy(s, Work(id), t, pool) + t.queues[pool] == s.queues[pool]
  {
    if s.queues[s.workers[id].pool] != [] && !s.workers[id].pc.Running? && t == Pop(s, id) {
      PopMovesEvents(s, id, pool);
    } else {
      assert TakenBy(s, Work(id), t, pool) == [];
    }
  }

  lemma {:induction false} EventsMove<Ev, Ex>(s: State<Ev, Ex>, acts: seq<Action<Ev, Ex>>, pool: nat)
    requires Run(s, acts).Some? && pool < |s.queues|
    ensures var t := Run(s, acts).value;
      |t.queues| == |s.queues| && TakenFrom(s, acts, pool) + t.queues[pool] == s.queues[pool] + PushedTo(acts, pool)
    decreases |acts|
  {
    if acts != [] {
      var t, rest := Next(s, acts[0]).value, acts[1..];
      NextMovesEvents(s, acts[0], pool);
      EventsMove(t, rest, pool);
      Rearrange(TakenBy(s, acts[0], t, pool), TakenFrom(t, rest, pool), Run(s, acts).value.queues[pool],
                s.queues[pool], t.queues[pool], PushedBy(acts[0], pool), PushedTo(rest, pool));
    }
  }

  lemma Rearrange<T>(a: seq<T>, b: seq<T>, end: seq<T>, q: seq<T>, q': seq<T>, x: seq<T>, y: seq<T>)
    requires a + q' == q + x && b + end == q' + y
    ensures a + b + end == q + (x + y)
  {
    assert a + b + end == a + (b + end) == a + (q' + y) == (a + q') + y == (q + x) + y == q + (x + y);
  }

  /**
   Pools.  In every run, what workers of a pool have begun to run, in order, and then what is in the pool's
   queue, is what was pushed to that pool, in order.
   */
  lemma FirstInFirstOut<Ev, Ex>(s: State<Ev, Ex>, acts: seq<Action<Ev, Ex>>, pool: nat)
    requires Initial(s) && Run(s, acts).Some? && pool < |s.queues|
    ensures var t := Run(s, acts).value;
      pool < |t.queues| && TakenFrom(s, acts, pool) + t.queues[pool] == PushedTo(acts, pool)
  {
    EventsMove(s, acts, pool);
  }

  // ---------------------------------------------------------------- what the histories are

  function ThrownIn<Ev, Ex>(a: Action<Ev, Ex>): seq<Ex> {
    if a.Throw? then [a.error] else []
  }

  /** The errors thrown by the events of a run. */
  function ThrownBy<Ev, Ex>(acts: seq<Action<Ev, Ex>>): seq<Ex> {
    if acts == [] then [] else ThrownIn(acts[0]) + ThrownBy(acts[1..])
  }

  function PushedIn<Ev, Ex>(a: Action<Ev, Ex>): multiset<Ev> {
    if a.Push? || a.OutsidePush? then multiset{a.event} else multiset{}
  }

  /** The events pushed in a run, to whatever pool. */
  function AllPushed<Ev, Ex>(acts: seq<Action<Ev, Ex>>): multiset<Ev> {
    if acts == [] then multiset{} else PushedIn(acts[0]) + AllPushed(acts[1..])
  }

  /** The event that one action ends, normally or not. */
  function EndedBy<Ev, Ex>(s: State<Ev, Ex>, a: Action<Ev, Ex>): multiset<Ev> {
    if (a.Finish? || a.Throw?) && a.id < |s.workers| && s.workers[a.id].pc.Running?
    then multiset{s.workers[a.id].pc.event} else multiset{}
  }

  function AllEnded<Ev, Ex>(s: State<Ev, Ex>, acts: seq<Action<Ev, Ex>>): multiset<Ev>
    decreases |acts|
  {
    if acts == [] then multiset{}
    else
      match Next(s, acts[0])
      case None => multiset{}
      case Some(t) => EndedBy(s, acts[0]) + AllEnded(t, acts[1..])
  }

  /** What one action adds to the histories. */
  ghost predicate Adds<Ev, Ex>(s: State<Ev, Ex>, t: State<Ev, Ex>, thrown: seq<Ex>, pushed: multiset<Ev>,
                               ended: multiset<Ev>) {
    t.thrown == s.thrown + thrown && t.pushed == s.pushed + pushed && t.finished == s.finished + ended
  }

  lemma NextHistory<Ev, Ex>(s: State<Ev, Ex>, a: Action<Ev, Ex>)
    requires Next(s, a).Some?
    ensures Adds(s, Next(s, a).value, ThrownIn(a), PushedIn(a), EndedBy(s, a))
    ensures !a.MainStep? ==> Next(s, a).value.handled == s.handled
    ensures !a.MainStep? && !a.CallJoin? ==> Next(s, a).value.main == s.main
  {
    match a
    case Work(id) => WorkHistory(s, id);
    case MainStep => MainFrame(s);
    case Finish(_) => EndHistory(s, a);
    case Throw(_, _) => EndHistory(s, a);
    case _ =>
  }

  lemma EndHistory<Ev, Ex>(s: State<Ev, Ex>, a: Action<Ev, Ex>)
    requires Next(s, a).Some? && (a.Finish? || a.Throw?)
    ensures var t := Next(s, a).value;
      && Adds(s, t, ThrownIn(a), PushedIn(a), EndedBy(s, a)) && t.handled == s.handled && t.main == s.main
  {
  }

  lemma WorkHistory<Ev, Ex>(s: State<Ev, Ex>, id: nat)
    requires PoolOk(s, id) && WorkStep(s, id).Some?
    ensures var t := WorkStep(s, id).value;
      && t.thrown == s.thrown && t.pushed == s.pushed && t.finished == s.finished
      && t.handled == s.handled && t.main == s.main
  {
  }

  lemma {:induction false} HistoriesFrom<Ev, Ex>(s: State<Ev, Ex>, acts: seq<Action<Ev, Ex>>)
    requires Run(s, acts).Some?
    ensures var t := Run(s, acts).value;
      && t.thrown == s.thrown + ThrownBy(acts)
      && t.pushed == s.pushed + AllPushed(acts)
      && t.finished == s.finished + AllEnded(s, acts)
    decreases |acts|
  {
    if acts != [] {
      var t, end := Next(s, acts[0]).value, Run(s, acts).value;
      NextHistory(s, acts[0]);
      HistoriesFrom(t, acts[1..]);
      AppendTwice(s.thrown, ThrownIn(acts[0]), ThrownBy(acts[1..]));
      AddTwice(s.pushed, PushedIn(acts[0]), AllPushed(acts[1..]));
      AddTwice(s.finished, EndedBy(s, acts[0]), AllEnded(t, acts[1..]));
    }
  }

  lemma AppendTwice<T>(a: seq<T>, b: seq<T>, c: seq<T>)
    ensures (a + b) + c == a + (b + c)
  {
  }

  lemma AddTwice<T>(a: multiset<T>, b: multiset<T>, c: multiset<T>)
    ensures (a + b) + c == a + (b + c)
  {
  }

  /** The histories that the theorems use are those of the run. */
  lemma HistoriesAreTheRun<Ev, Ex>(s: State<Ev, Ex>, acts: seq<Action<Ev, Ex>>)
    requires Initial(s) && Run(s, acts).Some?
    ensures var t := Run(s, acts).value;
      t.thrown == ThrownBy(acts) && t.pushed == AllPushed(acts) && t.finished == AllEnded(s, acts)
  {
    HistoriesFrom(s, acts);
    FromNothing(ThrownBy(acts), AllPushed(acts), AllEnded(s, acts));
  }

  lemma FromNothing<Ev, Ex>(thrown: seq<Ex>, pushed: multiset<Ev>, ended: multiset<Ev>)
    ensures [] + thrown == thrown && multiset{} + pushed == pushed && multiset{} + ended == ended
  {
  }
}
