/**
 A counter and the scoped adjustments of it: constructing one changes the counter, destroying it changes
 the counter back, and moving one hands that duty over.
 */
module ScopedCounter {
  import opened Wrappers

  class ScopedCounter {
    var value: int

    constructor (initial: int)
      ensures value == initial
    {
      value := initial;
    }

    /** `notified` if those who wait for zero are woken. */
    method Adjust(delta: int) returns (notified: bool)
      modifies this
      ensures value == old(value) + delta
      ensures notified <==> delta != 0 && value == 0
    {
      if delta == 0 {
        return false;
      }
      value := value + delta;
      notified := value == 0;
    }
  }

  class ScopedAdjustment {
    const counter: ScopedCounter
    var delta: int

    constructor (counter: ScopedCounter, delta: int)
      modifies counter
      ensures this.counter == counter && this.delta == delta
      ensures counter.value == old(counter.value) + delta
    {
      this.counter, this.delta := counter, delta;
      new;
      var _ := counter.Adjust(delta);
    }

    constructor Move(source: ScopedAdjustment)
      modifies source
      ensures counter == source.counter && delta == old(source.delta) && source.delta == 0
      ensures counter.value == old(source.counter.value)
    {
      counter, delta := source.counter, 0;
      new;
      delta, source.delta := source.delta, delta;
    }

    /** The destructor. */
    method Destroy()
      modifies counter
      ensures counter.value == old(counter.value) - delta
    {
      var _ := counter.Adjust(-delta);
    }
  }

  // ---------------------------------------------------------------- any use of adjustments

  datatype Op =
    | Construct(delta: int)
    | MoveFrom(source: nat)
    | Destroyed(target: nat)

  /** Adjustments in order of construction; those destroyed are gone. */
  datatype State = State(value: int, live: seq<Option<int>>)

  function Next(s: State, op: Op): Option<State> {
    match op
    case Construct(delta) => Some(State(s.value + delta, s.live + [Some(delta)]))
    case MoveFrom(i) =>
      if i < |s.live| && s.live[i].Some? then Some(State(s.value, s.live[i := Some(0)] + [s.live[i]])) else None
    case Destroyed(i) =>
      if i < |s.live| && s.live[i].Some? then Some(State(s.value - s.live[i].value, s.live[i := None])) else None
  }

  function Run(s: State, ops: seq<Op>): Option<State>
    decreases |ops|
  {
    if ops == [] then Some(s)
    else
      match Next(s, ops[0])
      case None => None
      case Some(t) => Run(t, ops[1..])
  }

  function DeltaOf(a: Option<int>): int {
    if a.Some? then a.value else 0
  }

  function Total(live: seq<Option<int>>): int {
    if live == [] then 0 else DeltaOf(live[0]) + Total(live[1..])
  }

  lemma {:induction false} TotalUpdate(live: seq<Option<int>>, i: nat, a: Option<int>)
    requires i < |live|
    ensures Total(live[i := a]) == Total(live) - DeltaOf(live[i]) + DeltaOf(a)
  {
    if i == 0 {
      assert live[i := a][1..] == live[1..];
    } else {
      TotalUpdate(live[1..], i - 1, a);
      assert live[i := a][1..] == live[1..][i - 1 := a];
    }
  }

  lemma {:induction false} TotalSnoc(live: seq<Option<int>>, a: Option<int>)
    ensures Total(live + [a]) == Total(live) + DeltaOf(a)
  {
    if live != [] {
      TotalSnoc(live[1..], a);
      assert (live + [a])[1..] == live[1..] + [a];
    }
  }

  /** However adjustments are made, moved and destroyed, the counter is off by exactly the live ones. */
  lemma {:induction false} CounterIsInitialPlusLive(s: State, ops: seq<Op>)
    requires Run(s, ops).Some?
    ensures Run(s, ops).value.value - Total(Run(s, ops).value.live) == s.value - Total(s.live)
    decreases |ops|
  {
    if ops != [] {
      CounterIsInitialPlusLive(Next(s, ops[0]).value, ops[1..]);
      match ops[0]
      case Construct(delta) => TotalSnoc(s.live, Some(delta));
      case MoveFrom(i) =>
        TotalUpdate(s.live, i, Some(0));
        TotalSnoc(s.live[i := Some(0)], s.live[i]);
      case Destroyed(i) => TotalUpdate(s.live, i, None);
    }
  }

  lemma {:induction false} NoneLive(live: seq<Option<int>>)
    requires forall i :: 0 <= i < |live| ==> live[i].None?
    ensures Total(live) == 0
  {
    if live != [] {
      NoneLive(live[1..]);
    }
  }

  /** Once every adjustment is destroyed, the counter is back where it began. */
  lemma Restored(initial: int, ops: seq<Op>)
    requires Run(State(initial, []), ops).Some?
    requires var live := Run(State(initial, []), ops).value.live; forall i :: 0 <= i < |live| ==> live[i].None?
    ensures Run(State(initial, []), ops).value.value == initial
  {
    CounterIsInitialPlusLive(State(initial, []), ops);
    NoneLive(Run(State(initial, []), ops).value.live);
  }
}
