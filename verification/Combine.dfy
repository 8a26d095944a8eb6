/**
 The combinator: callbacks on every input share one locked state, from which at most one of them settles
 the combined promise.  `CombineState` is that shared state; `Turn` is one step of one input's
 callbacks, where a locked section and the call on the combined promise after it are separate steps.
 */
module Combine {
  import opened Wrappers

  datatype Input<+T, +E> = Value(value: T) | Error(error: E)

  /** A call on the combined promise. */
  datatype Ending<+T, +E> = Resolve(values: seq<Option<T>>) | Reject(error: E)

  datatype Shared<+T, +E> = Shared(
    results: seq<Option<T>>,
    remaining: int,
    failed: bool,
    settled: seq<Ending<T, E>>
  )

  function Store<T, E>(s: Shared<T, E>, index: nat, value: T): Shared<T, E>
    requires index < |s.results|
  {
    if s.failed then s else s.(results := s.results[index := Some(value)])
  }

  function CountDown<T, E>(s: Shared<T, E>): Shared<T, E> {
    s.(remaining := s.remaining - 1)
  }

  predicate Last<T, E>(s: Shared<T, E>) {
    s.remaining == 0 && !s.failed
  }

  datatype Stage<+E> =
    | Waiting
    | Claimed(error: E)  // set `failed`; about to reject
    | Called             // next or handler has returned
    | Resolving          // counted down to zero; about to resolve
    | Left

  /** What the callbacks of one input do next, and to the shared state. */
  function Turn<T, E>(stage: Stage<E>, input: Input<T, E>, i: nat, s: Shared<T, E>): (Stage<E>, Shared<T, E>)
    requires i < |s.results| && !stage.Left?
  {
    match stage
    case Waiting =>
      (match input
       case Value(v) => (Called, Store(s, i, v))
       case Error(e) => if s.failed then (Called, s) else (Claimed(e), s.(failed := true)))
    case Claimed(e) => (Called, s.(settled := s.settled + [Reject(e)]))
    case Called => var s' := CountDown(s); (if Last(s') then Resolving else Left, s')
    case Resolving => (Left, s.(settled := s.settled + [Resolve(s.results)]))
  }

  /** The shared state as the callbacks use it; each method is one locked section or one call. */
  class CombineState<T, E> {
    var results: seq<Option<T>>
    var remaining: int
    var failed: bool
    var nextPromise: seq<Ending<T, E>>

    ghost function View(): Shared<T, E>
      reads this
    {
      Shared(results, remaining, failed, nextPromise)
    }

    constructor (count: nat)
      ensures View() == Shared(seq(count, _ => None), count, false, [])
    {
      results, remaining, failed, nextPromise := seq(count, _ => None), count, false, [];
    }

    method Next(index: nat, value: T)
      requires index < |results|
      modifies this
      ensures View() == Store(old(View()), index, value)
    {
      if failed {
        return;
      }
      results := results[index := Some(value)];
    }

    /** The locked half of `handler`: `claimed` if this caller is to reject the combined promise. */
    method Handler() returns (claimed: bool)
      modifies this
      ensures claimed == !old(failed) && View() == old(View()).(failed := true)
    {
      claimed := !failed;
      failed := true;
    }

    /** The locked half of `finalizer`: `resolved` if this caller is to resolve the combined promise. */
    method Finalizer() returns (resolved: bool)
      modifies this
      ensures View() == CountDown(old(View())) && resolved == Last(View())
    {
      remaining := remaining - 1;
      resolved := remaining == 0 && !failed;
    }

    /** The next thing that the callbacks of one input do. */
    method Proceed(stage: Stage<E>, input: Input<T, E>, index: nat) returns (next: Stage<E>)
      requires index < |results| && !stage.Left?
      modifies this
      ensures (next, View()) == Turn(stage, input, index, old(View()))
    {
      match stage
      case Waiting =>
        next := Called;
        match input {
          case Value(value) => Next(index, value);
          case Error(error) =>
            var claimed := Handler();
            if claimed {
              next := Claimed(error);
            }
        }
      case Claimed(error) =>
        nextPromise := nextPromise + [Reject(error)];
        next := Called;
      case Called =>
        var resolved := Finalizer();
        next := if resolved then Resolving else Left;
      case Resolving =>
        nextPromise := nextPromise + [Resolve(results)];
        next := Left;
    }
  }

  // ---------------------------------------------------------------- any interleaving

  datatype State<T, E> = State(
    inputs: seq<Input<T, E>>,
    stages: seq<Stage<E>>,
    shared: Shared<T, E>,
    winner: Option<nat>  // the input whose handler ran first
  )

  function Start<T, E>(inputs: seq<Input<T, E>>): State<T, E> {
    var n := |inputs|;
    State(inputs, seq(n, _ => Waiting), Shared(seq(n, _ => None), n, false, []), None)
  }

  predicate WellFormed<T, E>(s: State<T, E>) {
    |s.stages| == |s.inputs| == |s.shared.results|
  }

  /** The next step of the callbacks of input `i`, if they have one left. */
  function Next<T, E>(s: State<T, E>, i: nat): Option<State<T, E>>
    requires WellFormed(s)
  {
    if i >= |s.stages| || s.stages[i].Left? then None
    else
      var (stage, shared) := Turn(s.stages[i], s.inputs[i], i, s.shared);
      Some(s.(stages := s.stages[i := stage], shared := shared, winner := if stage.Claimed? then Some(i) else s.winner))
  }

  ghost function Done<E>(stages: seq<Stage<E>>): nat {
    if stages == [] then 0
    else Done(stages[1..]) + (if stages[0].Resolving? || stages[0].Left? then 1 else 0)
  }

  lemma {:induction false} DoneUpdate<E>(stages: seq<Stage<E>>, i: nat, stage: Stage<E>)
    requires i < |stages|
    ensures Done(stages[i := stage]) == Done(stages)
              - (if stages[i].Resolving? || stages[i].Left? then 1 else 0)
              + (if stage.Resolving? || stage.Left? then 1 else 0)
  {
    var stages' := stages[i := stage];
    if i == 0 {
      assert stages'[1..] == stages[1..];
    } else {
      DoneUpdate(stages[1..], i - 1, stage);
      assert stages'[1..] == stages[1..][i - 1 := stage];
    }
  }

  lemma {:induction false} DoneBound<E>(stages: seq<Stage<E>>)
    ensures Done(stages) <= |stages|
    ensures Done(stages) == |stages| <==> forall i :: 0 <= i < |stages| ==> stages[i].Resolving? || stages[i].Left?
  {
    if stages != [] {
      DoneBound(stages[1..]);
      assert stages == [stages[0]] + stages[1..];
    }
  }

  /** The combined promise was, or is about to be, rejected by the winner. */
  ghost predicate Failing<T, E>(s: State<T, E>)
    requires WellFormed(s)
  {
    && s.winner.Some? && s.winner.value < |s.inputs|
    && var w := s.winner.value;
       && s.inputs[w].Error? && !s.stages[w].Waiting?
       && (s.stages[w].Claimed? ==> s.stages[w].error == s.inputs[w].error)
       && s.shared.settled == (if s.stages[w].Claimed? then [] else [Reject(s.inputs[w].error)])
       && forall i :: 0 <= i < |s.stages| ==> (s.stages[i].Claimed? ==> i == w) && !s.stages[i].Resolving?
  }

  ghost predicate Succeeding<T, E>(s: State<T, E>)
    requires WellFormed(s)
  {
    && s.winner.None?
    && (forall i :: 0 <= i < |s.stages| ==> !s.stages[i].Claimed?)
    && (forall i :: 0 <= i < |s.stages| && !s.stages[i].Waiting? ==>
          s.inputs[i].Value? && s.shared.results[i] == Some(s.inputs[i].value))
    && (s.shared.settled == [] || s.shared.settled == [Resolve(s.shared.results)])
    && (s.shared.settled != [] ==> s.shared.remaining == 0 && forall i :: 0 <= i < |s.stages| ==> s.stages[i].Left?)
    && (forall i, j :: 0 <= i < j < |s.stages| ==> !(s.stages[i].Resolving? && s.stages[j].Resolving?))
    && (s.shared.remaining != 0 ==> forall i :: 0 <= i < |s.stages| ==> !s.stages[i].Resolving?)
    && (s.shared.remaining == 0 && s.shared.settled == [] && |s.inputs| > 0 ==>
          exists i :: 0 <= i < |s.stages| && s.stages[i].Resolving?)
  }

  ghost predicate Inv<T, E>(s: State<T, E>) {
    && WellFormed(s)
    && s.shared.remaining == |s.inputs| - Done(s.stages)
    && (if s.shared.failed then Failing(s) else Succeeding(s))
  }

  lemma StartInv<T, E>(inputs: seq<Input<T, E>>)
    ensures Inv(Start(inputs))
  {
    var s := Start(inputs);
    DoneNone(s.stages);
  }

  lemma {:induction false} DoneNone<E>(stages: seq<Stage<E>>)
    requires forall i :: 0 <= i < |stages| ==> stages[i].Waiting?
    ensures Done(stages) == 0
  {
    if stages != [] {
      DoneNone(stages[1..]);
    }
  }

  lemma NextKeeps<T, E>(s: State<T, E>, i: nat)
    requires Inv(s) && Next(s, i).Some?
    ensures Inv(Next(s, i).value) && Next(s, i).value.inputs == s.inputs
  {
    var t := Next(s, i).value;
    DoneUpdate(s.stages, i, t.stages[i]);
    if t.shared.failed {
      FailingKept(s, i);
    } else {
      SucceedingKept(s, i);
    }
  }

  lemma FailingKept<T, E>(s: State<T, E>, i: nat)
    requires Inv(s) && Next(s, i).Some? && Next(s, i).value.shared.failed
    ensures Failing(Next(s, i).value)
  {
    DoneBound(s.stages);
    if !s.shared.failed {
      assert !s.stages[i].Resolving? && !s.stages[i].Left?;
      assert s.shared.remaining != 0;
    }
  }

  lemma SucceedingKept<T, E>(s: State<T, E>, i: nat)
    requires Inv(s) && Next(s, i).Some? && !Next(s, i).value.shared.failed
    ensures Succeeding(Next(s, i).value)
  {
    var t := Next(s, i).value;
    DoneUpdate(s.stages, i, t.stages[i]);
    DoneBound(s.stages);
    DoneBound(t.stages);
  }

  function Run<T, E>(s: State<T, E>, schedule: seq<nat>): (r: Option<State<T, E>>)
    requires WellFormed(s)
    ensures r.Some? ==> WellFormed(r.value)
    decreases |schedule|
  {
    if schedule == [] then Some(s)
    else
      match Next(s, schedule[0])
      case None => None
      case Some(t) => Run(t, schedule[1..])
  }

  lemma {:induction false} RunKeeps<T, E>(s: State<T, E>, schedule: seq<nat>)
    requires Inv(s) && Run(s, schedule).Some?
    ensures Inv(Run(s, schedule).value) && Run(s, schedule).value.inputs == s.inputs
    decreases |schedule|
  {
    if schedule != [] {
      NextKeeps(s, schedule[0]);
      RunKeeps(Next(s, schedule[0]).value, schedule[1..]);
    }
  }

  /** The values of inputs that all resolved. */
  function Values<T, E>(inputs: seq<Input<T, E>>): seq<Option<T>> {
    seq(|inputs|, i requires 0 <= i < |inputs| => if inputs[i].Value? then Some(inputs[i].value) else None)
  }

  /**
   Under every interleaving the combined promise is settled at most once.  It is resolved only if all inputs
   resolved, and then with their values in the order of the inputs; it is rejected only with the error of
   the input whose handler ran first.
   */
  lemma SettledAtMostOnce<T, E>(inputs: seq<Input<T, E>>, schedule: seq<nat>)
    requires Run(Start(inputs), schedule).Some?
    ensures var s := Run(Start(inputs), schedule).value;
      && |s.shared.settled| <= 1
      && (s.shared.settled != [] && s.shared.settled[0].Resolve? ==>
            && (forall i :: 0 <= i < |inputs| ==> inputs[i].Value?)
            && s.shared.settled == [Resolve(Values(inputs))])
      && (s.shared.settled != [] && s.shared.settled[0].Reject? ==>
            s.winner.Some? && s.winner.value < |inputs| && inputs[s.winner.value] == Error(s.shared.settled[0].error))
  {
    StartInv(inputs);
    RunKeeps(Start(inputs), schedule);
    var s := Run(Start(inputs), schedule).value;
    if s.shared.settled != [] && s.shared.settled[0].Resolve? {
      assert s.shared.results == Values(inputs);
    }
  }

  /**
   Once the callbacks of all inputs are through, the combined promise of one or more inputs is settled: with
   all the values if all inputs resolved, and otherwise with the first handler's error.  That of no inputs
   never is.
   */
  lemma SettledInTheEnd<T, E>(inputs: seq<Input<T, E>>, schedule: seq<nat>)
    requires Run(Start(inputs), schedule).Some?
    requires forall i :: 0 <= i < |inputs| ==> Next(Run(Start(inputs), schedule).value, i).None?
    ensures var s := Run(Start(inputs), schedule).value;
      && (s.shared.settled == [] <==> inputs == [])
      && (inputs != [] && (forall i :: 0 <= i < |inputs| ==> inputs[i].Value?) ==>
            s.shared.settled == [Resolve(Values(inputs))])
      && ((exists i :: 0 <= i < |inputs| && inputs[i].Error?) ==>
            && s.winner.Some? && s.winner.value < |inputs| && inputs[s.winner.value].Error?
            && s.shared.settled == [Reject(inputs[s.winner.value].error)])
  {
    StartInv(inputs);
    RunKeeps(Start(inputs), schedule);
    SettledAtMostOnce(inputs, schedule);
    var s := Run(Start(inputs), schedule).value;
    DoneBound(s.stages);
    forall i | 0 <= i < |s.stages|
      ensures s.stages[i].Left?
    {
      assert Next(s, i).None?;
    }
  }

  /**
   The combinator run on its object: whatever the schedule of its callbacks, the object goes through the
   states above, and so calls the combined promise at most once.
   */
  method Combined<T, E>(inputs: seq<Input<T, E>>, schedule: seq<nat>)
    returns (state: CombineState<T, E>, stages: seq<Stage<E>>)
    requires Run(Start(inputs), schedule).Some?
    ensures fresh(state)
    ensures var s := Run(Start(inputs), schedule).value; s.shared == state.View() && s.stages == stages
    ensures |state.nextPromise| <= 1
  {
    state := new CombineState(|inputs|);
    stages := seq(|inputs|, _ => Waiting);
    ghost var s := Start(inputs);
    var k := 0;
    while k < |schedule|
      invariant 0 <= k <= |schedule| && fresh(state) && WellFormed(s)
      invariant s.inputs == inputs && s.stages == stages && s.shared == state.View()
      invariant Run(s, schedule[k..]) == Run(Start(inputs), schedule)
    {
      var i := schedule[k];
      assert schedule[k..][1..] == schedule[k + 1..];
      s := Next(s, i).value;
      var stage := state.Proceed(stages[i], inputs[i], i);
      stages := stages[i := stage];
      k := k + 1;
    }
    SettledAtMostOnce(inputs, schedule);
  }

  // ---------------------------------------------------------------- whose error it is

  /** The first failing input that the schedule runs. */
  function FirstError<T, E>(inputs: seq<Input<T, E>>, schedule: seq<nat>): (w: Option<nat>)
    ensures w.Some? ==> w.value < |inputs| && inputs[w.value].Error?
  {
    if schedule == [] then None
    else if schedule[0] < |inputs| && inputs[schedule[0]].Error? then Some(schedule[0])
    else FirstError(inputs, schedule[1..])
  }

  lemma {:induction false} FirstErrorWins<T, E>(s: State<T, E>, schedule: seq<nat>)
    requires Inv(s) && Run(s, schedule).Some?
    ensures Run(s, schedule).value.winner == if s.winner.Some? then s.winner else FirstError(s.inputs, schedule)
    decreases |schedule|
  {
    if schedule != [] {
      NextKeeps(s, schedule[0]);
      FirstErrorWins(Next(s, schedule[0]).value, schedule[1..]);
    }
  }

  lemma {:induction false} FirstErrorIsLeast<T, E>(inputs: seq<Input<T, E>>, schedule: seq<nat>, i: nat)
    requires forall j, k :: 0 <= j < k < |schedule| ==> schedule[j] <= schedule[k]
    requires i in schedule && i < |inputs| && inputs[i].Error?
    ensures var w := FirstError(inputs, schedule);
      w.Some? && w.value <= i && inputs[w.value].Error?
  {
    if schedule[0] < |inputs| && inputs[schedule[0]].Error? {
    } else {
      FirstErrorIsLeast(inputs, schedule[1..], i);
    }
  }

  /**
   When the callbacks run in the order of the list, as they do for promises that were settled before they
   were combined, the combined promise takes the error of the first rejected one in the list.
   */
  lemma FirstInTheList<T, E>(inputs: seq<Input<T, E>>, schedule: seq<nat>, i: nat)
    requires Run(Start(inputs), schedule).Some?
    requires forall k :: 0 <= k < |inputs| ==> Next(Run(Start(inputs), schedule).value, k).None?
    requires forall j, k :: 0 <= j < k < |schedule| ==> schedule[j] <= schedule[k]
    requires i < |inputs| && inputs[i].Error? && forall k :: 0 <= k < i ==> inputs[k].Value?
    ensures Run(Start(inputs), schedule).value.shared.settled == [Reject(inputs[i].error)]
  {
    AllScheduled(inputs, schedule, i);
    FirstListed(inputs, schedule, i);
    assert FirstError(inputs, schedule) == Some(i);
    SettledInTheEnd(inputs, schedule);
    WinnerIs(inputs, schedule);
  }

  lemma FirstListed<T, E>(inputs: seq<Input<T, E>>, schedule: seq<nat>, i: nat)
    requires forall j, k :: 0 <= j < k < |schedule| ==> schedule[j] <= schedule[k]
    requires i in schedule && i < |inputs| && inputs[i].Error? && forall k :: 0 <= k < i ==> inputs[k].Value?
    ensures FirstError(inputs, schedule) == Some(i)
  {
    FirstErrorIsLeast(inputs, schedule, i);
  }

  /** Whose error rejects the combined promise is decided by the schedule alone. */
  lemma WinnerIs<T, E>(inputs: seq<Input<T, E>>, schedule: seq<nat>)
    requires Run(Start(inputs), schedule).Some?
    ensures Run(Start(inputs), schedule).value.winner == FirstError(inputs, schedule)
  {
    StartInv(inputs);
    FirstErrorWins(Start(inputs), schedule);
  }

  lemma AllScheduled<T, E>(inputs: seq<Input<T, E>>, schedule: seq<nat>, i: nat)
    requires Run(Start(inputs), schedule).Some? && i < |inputs|
    requires Next(Run(Start(inputs), schedule).value, i).None?
    ensures i in schedule
  {
    if i !in schedule {
      NotScheduled(Start(inputs), schedule, i);
    }
  }

  lemma {:induction false} NotScheduled<T, E>(s: State<T, E>, schedule: seq<nat>, i: nat)
    requires WellFormed(s) && Run(s, schedule).Some? && i < |s.stages| && i !in schedule
    ensures var t := Run(s, schedule).value; i < |t.stages| && t.stages[i] == s.stages[i]
    decreases |schedule|
  {
    if schedule != [] {
      NotScheduled(Next(s, schedule[0]).value, schedule[1..], i);
    }
  }

  // ---------------------------------------------------------------- when it is rejected

  /** How often the schedule runs input `i`. */
  function Turns(schedule: seq<nat>, i: nat): nat {
    if schedule == [] then 0 else Turns(schedule[1..], i) + if schedule[0] == i then 1 else 0
  }

  lemma {:induction false} StaysCalled<T, E>(s: State<T, E>, schedule: seq<nat>, w: nat)
    requires WellFormed(s) && Run(s, schedule).Some? && w < |s.stages|
    requires !s.stages[w].Waiting? && !s.stages[w].Claimed?
    ensures var t := Run(s, schedule).value;
      w < |t.stages| && !t.stages[w].Waiting? && !t.stages[w].Claimed?
    decreases |schedule|
  {
    if schedule != [] {
      StaysCalled(Next(s, schedule[0]).value, schedule[1..], w);
    }
  }

  /** The winner is about to reject until it is its turn again. */
  lemma {:induction false} ClaimedUntilTurn<T, E>(s: State<T, E>, schedule: seq<nat>, w: nat)
    requires WellFormed(s) && Run(s, schedule).Some? && w < |s.stages| && s.stages[w].Claimed?
    ensures var t := Run(s, schedule).value;
      w < |t.stages| && (t.stages[w].Claimed? <==> Turns(schedule, w) == 0)
    decreases |schedule|
  {
    if schedule != [] {
      var next := Next(s, schedule[0]).value;
      if schedule[0] == w {
        StaysCalled(next, schedule[1..], w);
      } else {
        ClaimedUntilTurn(next, schedule[1..], w);
      }
    }
  }

  lemma {:induction false} WinnerClaims<T, E>(s: State<T, E>, schedule: seq<nat>, w: nat)
    requires Inv(s) && !s.shared.failed && Run(s, schedule).Some? && FirstError(s.inputs, schedule) == Some(w)
    ensures var t := Run(s, schedule).value;
      w < |t.stages| && (t.stages[w].Claimed? <==> Turns(schedule, w) == 1) && Turns(schedule, w) >= 1
    decreases |schedule|
  {
    var next := Next(s, schedule[0]).value;
    NextKeeps(s, schedule[0]);
    if schedule[0] == w {
      ClaimedUntilTurn(next, schedule[1..], w);
    } else {
      WinnerClaims(next, schedule[1..], w);
    }
  }

  /**
   The first failing input claims the rejection with its first turn and rejects the combined promise with its
   second, whatever the other inputs have done by then or do later.
   */
  lemma RejectsAtOnce<T, E>(inputs: seq<Input<T, E>>, schedule: seq<nat>, w: nat)
    requires Run(Start(inputs), schedule).Some? && FirstError(inputs, schedule) == Some(w)
    ensures w < |inputs| && inputs[w].Error?
    ensures Run(Start(inputs), schedule).value.shared.settled ==
      if Turns(schedule, w) == 1 then [] else [Reject(inputs[w].error)]
  {
    StartInv(inputs);
    RunKeeps(Start(inputs), schedule);
    WinnerIs(inputs, schedule);
    WinnerClaims(Start(inputs), schedule, w);
  }

  /** The turns that the callbacks of an input have left, at most. */
  function TurnsLeft<E>(stage: Stage<E>, failed: bool): nat {
    match stage
    case Waiting => 3
    case Claimed(_) => 2
    case Called => if failed then 1 else 2
    case Resolving => 1
    case Left => 0
  }

  lemma {:induction false} TurnsAreSpent<T, E>(s: State<T, E>, schedule: seq<nat>, i: nat)
    requires Inv(s) && Run(s, schedule).Some? && i < |s.stages|
    ensures var t := Run(s, schedule).value;
      && |t.stages| == |s.stages|
      && Turns(schedule, i) + TurnsLeft(t.stages[i], t.shared.failed) <= TurnsLeft(s.stages[i], s.shared.failed)
    decreases |schedule|
  {
    if schedule != [] {
      var next := Next(s, schedule[0]).value;
      NextKeeps(s, schedule[0]);
      TurnsAreSpent(next, schedule[1..], i);
      OneTurn(s, schedule[0], i);
    }
  }

  lemma OneTurn<T, E>(s: State<T, E>, j: nat, i: nat)
    requires Inv(s) && Next(s, j).Some? && i < |s.stages|
    ensures var t := Next(s, j).value;
      TurnsLeft(t.stages[i], t.shared.failed) + (if i == j then 1 else 0) <= TurnsLeft(s.stages[i], s.shared.failed)
  {
  }

  /** The callbacks of an input are through after at most three turns, whatever the others do. */
  lemma ThreeTurns<T, E>(inputs: seq<Input<T, E>>, schedule: seq<nat>, i: nat)
    requires Run(Start(inputs), schedule).Some? && i < |inputs|
    ensures Turns(schedule, i) <= 3
    ensures Turns(schedule, i) == 3 ==> Next(Run(Start(inputs), schedule).value, i).None?
  {
    StartInv(inputs);
    TurnsAreSpent(Start(inputs), schedule, i);
  }

  /** From the first failure on nothing is stored any more. */
  lemma {:induction false} NothingStoredAfterFailure<T, E>(s: State<T, E>, schedule: seq<nat>)
    requires WellFormed(s) && s.shared.failed && Run(s, schedule).Some?
    ensures Run(s, schedule).value.shared.failed && Run(s, schedule).value.shared.results == s.shared.results
    decreases |schedule|
  {
    if schedule != [] {
      NothingStoredAfterFailure(Next(s, schedule[0]).value, schedule[1..]);
    }
  }
}
