/**
 What holds of a promise stream over whole runs: any sequence of bindings, writes, results and consumer
 answers in which no guard threw.
 */
module StreamRuns {
  import opened Wrappers
  import opened StreamSpec

  /** The stream after a sequence of calls, or `None` if one was impossible or threw. */
  function Run<S, D, R, E>(s: Stream<S, D, R, E>, ops: seq<Op<S, D, R, E>>): Option<Stream<S, D, R, E>>
    decreases |ops|
  {
    if ops == [] then Some(s)
    else if !Enabled(s, ops[0]) then None
    else
      match Step(s, ops[0])
      case Threw(_) => None
      case Ok(t) => Run(t, ops[1..])
  }

  /** One more call after a run. */
  function Extended<S, D, R, E>(r: Option<Stream<S, D, R, E>>, op: Op<S, D, R, E>): Option<Stream<S, D, R, E>> {
    match r
    case None => None
    case Some(t) => if Enabled(t, op) && Step(t, op).Ok? then Some(Step(t, op).stream) else None
  }

  lemma {:induction false} RunSnoc<S, D, R, E>(s: Stream<S, D, R, E>, ops: seq<Op<S, D, R, E>>, op: Op<S, D, R, E>)
    ensures Run(s, ops + [op]) == Extended(Run(s, ops), op)
    decreases |ops|
  {
    if ops == [] {
      assert ops + [op] == [op];
    } else {
      assert (ops + [op])[1..] == ops[1..] + [op];
      if Enabled(s, ops[0]) && Step(s, ops[0]).Ok? {
        RunSnoc(Step(s, ops[0]).stream, ops[1..], op);
      }
    }
  }

  lemma {:induction false} RunInv<S, D, R, E>(s: Stream<S, D, R, E>, ops: seq<Op<S, D, R, E>>)
    requires Inv(s) && Run(s, ops).Some?
    ensures Inv(Run(s, ops).value)
    decreases |ops|
  {
    if ops != [] {
      StepInv(s, ops[0]);
      RunInv(Step(s, ops[0]).stream, ops[1..]);
    }
  }

  // ---------------------------------------------------------------- conservation and safety

  /**
   In every reachable stream the accepted data is what was handed over, then what was thrown away or is
   still buffered (never both); the consumer runs only while the buffer is flagged non-empty, so no
   operation leaves the stream in `Streaming3`; and a completion means a result, an empty buffer and no
   consumer call in flight.
   */
  lemma Conservation<S, D, R, E>(ops: seq<Op<S, D, R, E>>)
    requires Run<S, D, R, E>(Init(), ops).Some?
    ensures var s := Run(Init(), ops).value;
      && s.accepted == s.handed + s.discarded + s.buffer
      && (s.discarded == [] || s.buffer == [])
      && (s.running ==> !s.bufferIsEmpty)
      && !s.phase.Streaming3?
      && |s.completions| <= 1
      && (s.completions != [] <==> s.phase.Completed?)
      && (s.phase.Completed? ==>
            !s.result.NoResult? && s.buffer == [] && !s.running && s.given.Some? && s.completions == [s.given.value])
  {
    InitInv<S, D, R, E>();
    RunInv(Init(), ops);
  }

  /** `t` is a later moment in the life of `s`. */
  ghost predicate GrowsInto<S, D, R, E>(s: Stream<S, D, R, E>, t: Stream<S, D, R, E>) {
    && s.accepted <= t.accepted
    && s.handed <= t.handed
    && s.discarded <= t.discarded
    && s.completions <= t.completions
    && (s.phase == t.phase || Precedes(s.phase, t.phase))
    && (s.given.Some? ==> t.given == s.given && t.result == s.result)
    && (s.binding.Some? ==>
          && t.binding.Some?
          && t.binding.value.consume == s.binding.value.consume
          && t.binding.value.init == s.binding.value.init)
    && (s.ended ==> t.ended && t.handed == s.handed)
  }

  /** Reachability along the edges of the state graph of promise_stream.md. */
  predicate Precedes(p: Phase, q: Phase) {
    match p
    case Pending => !q.Pending?
    case Streaming1 => q.Streaming2? || q.Streaming3? || q.Completed?
    case Streaming2 => q.Streaming3? || q.Completed?
    case Streaming3 => q.Completed?
    case Completed => false
  }

  lemma GrowsTransitive<S, D, R, E>(s: Stream<S, D, R, E>, t: Stream<S, D, R, E>, u: Stream<S, D, R, E>)
    requires GrowsInto(s, t) && GrowsInto(t, u)
    ensures GrowsInto(s, u)
  {}

  lemma AcceptGrows<S, D, R, E>(s: Stream<S, D, R, E>, d: D)
    requires Sound(s) && s.action == Continue && !WriteBreaksContract(s)
    ensures GrowsInto(s, Accept(s, d))
  {}

  lemma AnsweredGrows<S, D, R, E>(s: Stream<S, D, R, E>, a: Action)
    requires Sound(s) && s.running
    ensures Sound(Answered(s, a)) && GrowsInto(s, Answered(s, a)) && !Answered(s, a).failedSinceWrite
  {}

  lemma HandOverGrows<S, D, R, E>(s: Stream<S, D, R, E>)
    requires Sound(s) && Attentive(s) && s.action == Continue && s.buffer != []
    ensures GrowsInto(s, HandOver(s).0)
  {}

  lemma FailsGrows<S, D, R, E>(s: Stream<S, D, R, E>, error: E)
    requires Sound(s) && s.running && s.result.NoResult?
    ensures GrowsInto(s, ConsumerFails(s, error))
  {}

  lemma EmptyGrows<S, D, R, E>(s: Stream<S, D, R, E>)
    requires Sound(s) && Attentive(s) && !s.failedSinceWrite && (s.action != Continue || s.buffer == [])
    ensures GrowsInto(s, Drain(s).stream)
  {}

  lemma CallGrows<S, D, R, E>(s: Stream<S, D, R, E>)
    requires Sound(s) && Attentive(s) && s.action == Continue && s.buffer != []
    ensures var (t, reply) := HandOver(s);
      match reply
      case Later => GrowsInto(s, t)
      case Answer(a) => Sound(Answered(t, a)) && !Answered(t, a).failedSinceWrite && GrowsInto(s, Answered(t, a))
      case Fail(error) => t.result.NoResult? ==> GrowsInto(s, ConsumerFails(t, error))
  {
    HandOverSound(s);
    HandOverGrows(s);
    var (t, reply) := HandOver(s);
    match reply
    case Later =>
    case Answer(a) =>
      AnsweredGrows(t, a);
      GrowsTransitive(s, t, Answered(t, a));
    case Fail(error) =>
      if t.result.NoResult? {
        FailsGrows(t, error);
        GrowsTransitive(s, t, ConsumerFails(t, error));
      }
  }

  lemma {:induction false} DrainGrows<S, D, R, E>(s: Stream<S, D, R, E>)
    requires Sound(s) && !s.failedSinceWrite && Drain(s).Ok?
    ensures GrowsInto(s, Drain(s).stream)
    decreases |s.buffer|
  {
    if Attentive(s) {
      if s.action == Continue && s.buffer != [] {
        CallGrows(s);
        var (t, reply) := HandOver(s);
        if reply.Answer? {
          DrainGrows(Answered(t, reply.action));
          GrowsTransitive(s, Answered(t, reply.action), Drain(s).stream);
        }
      } else {
        EmptyGrows(s);
      }
    }
  }

  lemma BindGrows<S, D, R, E>(s: Stream<S, D, R, E>, op: Op<S, D, R, E>)
    requires Inv(s) && op.Bind? && Step(s, op).Ok?
    ensures GrowsInto(s, Step(s, op).stream)
  {
    var t := s.(binding := Some(Binding(op.consume, op.init, op.init)));
    assert GrowsInto(s, t);
    DrainGrows(t);
    GrowsTransitive(s, t, Drain(t).stream);
  }

  lemma WriteGrows<S, D, R, E>(s: Stream<S, D, R, E>, d: D)
    requires Inv(s) && Step(s, Op.Write(d)).Ok?
    ensures GrowsInto(s, Step(s, Op.Write(d)).stream)
  {
    var t := if s.action == Continue then Accept(s, d) else s.(failedSinceWrite := false);
    if s.action == Continue {
      AcceptSound(s, d);
      AcceptGrows(s, d);
    }
    assert GrowsInto(s, t);
    DrainGrows(t);
    GrowsTransitive(s, t, Drain(t).stream);
  }

  lemma DoneGrows<S, D, R, E>(s: Stream<S, D, R, E>, a: Action)
    requires Inv(s) && s.running && Step(s, ConsumerDone(a)).Ok?
    ensures GrowsInto(s, Step(s, ConsumerDone(a)).stream)
  {
    var t := Answered(s, a);
    AnsweredGrows(s, a);
    DrainGrows(t);
    GrowsTransitive(s, t, Drain(t).stream);
  }

  lemma ResultGrows<S, D, R, E>(s: Stream<S, D, R, E>, kind: ResultKind, how: Settlement<R, E>)
    requires Inv(s) && GiveResult(s, kind, how).Ok? && !kind.NoResult?
    ensures GrowsInto(s, GiveResult(s, kind, how).stream)
  {}

  lemma StepGrows<S, D, R, E>(s: Stream<S, D, R, E>, op: Op<S, D, R, E>)
    requires Inv(s) && Enabled(s, op) && Step(s, op).Ok?
    ensures GrowsInto(s, Step(s, op).stream)
  {
    match op
    case Bind(_, _) => BindGrows(s, op);
    case Write(d) => WriteGrows(s, d);
    case ConsumerDone(a) => DoneGrows(s, a);
    case ConsumerFail(error) => FailsGrows(s, error);
    case ProducerResolve(value) => ResultGrows(s, Resolved, Resolve(value));
    case ProducerReject(error) =>
      ResultGrows(s.(action := Stop), Rejected, Reject(error));
      GrowsTransitive(s, s.(action := Stop), Step(s, op).stream);
  }

  /**
   Histories only grow, phases only move along the state graph, a result once given never changes, and
   from the moment a consumer call has answered Discard or Stop, or failed, no datum is handed over.
   */
  lemma {:induction false} RunsMoveForward<S, D, R, E>(s: Stream<S, D, R, E>, ops: seq<Op<S, D, R, E>>)
    requires Inv(s) && Run(s, ops).Some?
    ensures GrowsInto(s, Run(s, ops).value)
    decreases |ops|
  {
    if ops != [] {
      StepInv(s, ops[0]);
      StepGrows(s, ops[0]);
      RunsMoveForward(Step(s, ops[0]).stream, ops[1..]);
    }
  }

  // ---------------------------------------------------------------- progress

  /**
   A bound stream with a result has settled, except exactly while a consumer call is in flight or a
   failed consumer call has not been followed by a write.
   */
  lemma ProgressExactly<S, D, R, E>(ops: seq<Op<S, D, R, E>>)
    requires Run<S, D, R, E>(Init(), ops).Some?
    ensures var s := Run(Init(), ops).value;
      s.binding.Some? && !s.result.NoResult? ==>
        (s.completions == [] <==> s.running || s.failedSinceWrite)
  {
    InitInv<S, D, R, E>();
    RunInv(Init(), ops);
  }

  /** After a failed consumer call only a write settles the stream, and any write does. */
  lemma FailureWaitsForWrite<S, D, R, E>(s: Stream<S, D, R, E>, op: Op<S, D, R, E>)
    requires Inv(s) && s.failedSinceWrite && Enabled(s, op) && Step(s, op).Ok?
    ensures var t := Step(s, op).stream;
      && (t.completions != [] <==> op.Write?)
      && (op.Write? ==> t.completions == [s.given.value] && s.given.value.Reject? && t.handed == s.handed)
  {
    StepInv(s, op);
    StepGrows(s, op);
  }

  // ---------------------------------------------------------------- consumer failures and results

  /**
   A failing consumer call decides the result exactly when the producer has not given one; then, whatever
   the producer does later, a run that settles the stream settles it with that error.
   */
  lemma FailureDecides<S, D, R, E>(s: Stream<S, D, R, E>, error: E, ops: seq<Op<S, D, R, E>>)
    requires Inv(s) && s.running
    ensures Step(s, ConsumerFail(error)).Ok? <==> s.result.NoResult?
    ensures s.result.NoResult? ==>
      var t := Step(s, ConsumerFail(error)).stream;
      var end := Run(t, ops);
      end.Some? && end.value.completions != [] ==> end.value.completions == [Reject(error)]
  {
    if s.result.NoResult? {
      var t := Step(s, ConsumerFail(error)).stream;
      StepInv(s, ConsumerFail(error));
      if Run(t, ops).Some? {
        RunInv(t, ops);
        RunsMoveForward(t, ops);
      }
    }
  }

  function AlwaysLater(state: (), d: int): ((), Reply<int>) {
    (state, Reply.Later)
  }

  lemma ThreeCalls<S, D, R, E>(ops: seq<Op<S, D, R, E>>)
    requires |ops| >= 3
    ensures Run(Init(), ops[..1]) == Extended(Some(Init()), ops[0])
    ensures Run(Init(), ops[..2]) == Extended(Run(Init(), ops[..1]), ops[1])
    ensures Run(Init(), ops[..3]) == Extended(Run(Init(), ops[..2]), ops[2])
    ensures |ops| == 3 ==> ops[..3] == ops
  {
    assert ops[..0] == [];
    assert ops[..1] == ops[..0] + [ops[0]] && ops[..2] == ops[..1] + [ops[1]] && ops[..3] == ops[..2] + [ops[2]];
    RunSnoc<S, D, R, E>(Init(), ops[..0], ops[0]);
    RunSnoc<S, D, R, E>(Init(), ops[..1], ops[1]);
    RunSnoc<S, D, R, E>(Init(), ops[..2], ops[2]);
  }

  /** A failure that comes after the producer's result throws instead of overriding it. */
  lemma LateFailureThrows()
    ensures var f: ((), int) -> ((), Reply<int>) := AlwaysLater;
      var run := Run<(), int, int, int>(Init(), [Bind(f, ()), Write(0), ProducerResolve(7)]);
      && run.Some?
      && run.value.running
      && run.value.given == Some(Resolve(7))
      && Step(run.value, ConsumerFail(9)).Threw?
      && run.value.completions == []
  {
    var f: ((), int) -> ((), Reply<int>) := AlwaysLater;
    ThreeCalls<(), int, int, int>([Bind(f, ()), Write(0), ProducerResolve(7)]);
  }

  /** A run that has stalled: a result and a binding, nothing in flight, and yet only a write settles it. */
  lemma FailureStalls()
    ensures var f: ((), int) -> ((), Reply<int>) := AlwaysLater;
      var run := Run<(), int, int, int>(Init(), [Bind(f, ()), Write(0), ConsumerFail(9)]);
      && run.Some?
      && run.value.given == Some(Reject(9)) && run.value.binding.Some? && !run.value.running
      && run.value.completions == []
      && Step(run.value, Write(1)).Ok? && Step(run.value, Write(1)).stream.completions == [Reject(9)]
  {
    var f: ((), int) -> ((), Reply<int>) := AlwaysLater;
    ThreeCalls<(), int, int, int>([Bind(f, ()), Write(0), ConsumerFail(9)]);
  }

  /** A run in which the answer undoes the stop: a rejection asks for it, and yet 1 is handed over as well. */
  lemma StopOverwritten()
    ensures var f: ((), int) -> ((), Reply<int>) := AlwaysLater;
      var stopped := Run<(), int, int, int>(Init(), [Bind(f, ()), Write(0), Write(1), ProducerReject(7)]);
      && stopped.Some? && stopped.value.action == Stop && stopped.value.running && stopped.value.handed == [0]
      && Step(stopped.value, ConsumerDone(Continue)).Ok?
      && Step(stopped.value, ConsumerDone(Continue)).stream.handed == [0, 1]
  {
    var f: ((), int) -> ((), Reply<int>) := AlwaysLater;
    var ops := [Bind(f, ()), Write(0), Write(1), ProducerReject(7)];
    ThreeCalls<(), int, int, int>(ops);
    RunSnoc<(), int, int, int>(Init(), ops[..3], ops[3]);
    assert ops[..3] + [ops[3]] == ops;
  }

  /**
   A producer's rejection while a consumer call is in flight asks for a stop, but the answer of that call
   replaces the request: the next buffered datum is handed over if and only if the answer is Continue.
   */
  lemma AnswerOverwritesStop<S, D, R, E>(s: Stream<S, D, R, E>, error: E, a: Action)
    requires Inv(s) && s.running && s.result.NoResult?
    ensures var r := Step(s, ProducerReject(error));
      && r.Ok? && r.stream.action == Stop && r.stream.running && r.stream.buffer == s.buffer
      && (s.buffer != [] && Step(r.stream, ConsumerDone(a)).Ok? ==>
            (s.handed + [s.buffer[0]] <= Step(r.stream, ConsumerDone(a)).stream.handed <==> a == Continue))
  {
    var r := Step(s, ProducerReject(error)).stream;
    StepInv(s, ProducerReject(error));
    assert r.running && r.buffer == s.buffer && r.handed == s.handed;
    if s.buffer != [] && Step(r, ConsumerDone(a)).Ok? {
      AnswerFeeds(r, a);
    }
  }

  /** A running consumer gets the next buffered datum if and only if it answers Continue. */
  lemma AnswerFeeds<S, D, R, E>(s: Stream<S, D, R, E>, a: Action)
    requires Inv(s) && s.running && s.buffer != [] && Step(s, ConsumerDone(a)).Ok?
    ensures s.handed + [s.buffer[0]] <= Step(s, ConsumerDone(a)).stream.handed <==> a == Continue
    ensures a != Continue ==> Step(s, ConsumerDone(a)).stream.handed == s.handed
  {
    AnsweredSound(s, a);
    var t := Answered(s, a);
    assert t.buffer == s.buffer && t.handed == s.handed;
    if a == Continue {
      assert Attentive(t);
      DrainFeeds(t);
    } else {
      DrainGrows(t);
    }
  }

  lemma DrainFeeds<S, D, R, E>(s: Stream<S, D, R, E>)
    requires Sound(s) && Attentive(s) && s.action == Continue && s.buffer != [] && Drain(s).Ok?
    ensures s.handed + [s.buffer[0]] <= Drain(s).stream.handed
  {
    HandOverSound(s);
    var (t, reply) := HandOver(s);
    if reply.Answer? {
      AnsweredGrows(t, reply.action);
      DrainGrows(Answered(t, reply.action));
    }
  }

  /** Fed `data` from `state`, the consumer fails before it returns, having asked for more until then. */
  predicate FailsDuring<S, D, E>(consume: (S, D) -> (S, Reply<E>), state: S, data: seq<D>)
    decreases |data|
  {
    && data != []
    && var (next, reply) := consume(state, data[0]);
       match reply
       case Later => false
       case Answer(a) => a == Continue && FailsDuring(consume, next, data[1..])
       case Fail(_) => true
  }

  /** A drain throws exactly if a consumer call fails during it and the producer's result is already there. */
  lemma {:induction false} DrainThrows<S, D, R, E>(s: Stream<S, D, R, E>)
    requires Sound(s)
    ensures Drain(s).Threw? <==>
      && Attentive(s) && s.action == Continue && !s.result.NoResult?
      && FailsDuring(s.binding.value.consume, s.binding.value.state, s.buffer)
    decreases |s.buffer|
  {
    if Attentive(s) && s.action == Continue && s.buffer != [] {
      HandOverSound(s);
      var (t, reply) := HandOver(s);
      if reply.Answer? {
        AnsweredGrows(t, reply.action);
        DrainThrows(Answered(t, reply.action));
      }
    }
  }

  /**
   Which calls a guard throws on: a second binding; a write after the producer's result while the action is
   Continue; a second result from the producer; a failure after the producer's result; and a binding or an
   answer that starts a drain in which a consumer call fails after the producer's result.
   */
  lemma ThrowsExactly<S, D, R, E>(s: Stream<S, D, R, E>, op: Op<S, D, R, E>)
    requires Inv(s) && Enabled(s, op)
    ensures Step(s, op).Threw? <==>
      match op
      case Bind(consume, init) =>
        s.binding.Some? || (s.action == Continue && !s.result.NoResult? && FailsDuring(consume, init, s.buffer))
      case Write(_) => s.action == Continue && (s.result.Resolved? || s.result.Rejected?)
      case ProducerResolve(_) => s.result.Resolved? || s.result.Rejected?
      case ProducerReject(_) => s.result.Resolved? || s.result.Rejected?
      case ConsumerDone(a) =>
        && a == Continue && !s.result.NoResult? && s.binding.Some?
        && FailsDuring(s.binding.value.consume, s.binding.value.state, s.buffer)
      case ConsumerFail(_) => s.result.Resolved? || s.result.Rejected?
  {
    match op
    case Bind(consume, init) =>
      if s.binding.None? {
        DrainThrows(s.(binding := Some(Binding(consume, init, init))));
      }
    case Write(d) =>
      if s.action == Continue {
        if !WriteBreaksContract(s) {
          AcceptSound(s, d);
          DrainThrows(Accept(s, d));
        }
      } else {
        DrainThrows(s.(failedSinceWrite := false));
      }
    case ConsumerDone(a) =>
      AnsweredSound(s, a);
      DrainThrows(Answered(s, a));
    case _ =>
  }

  // ---------------------------------------------------------------- a stream is a fold

  function Written<S, D, R, E>(ops: seq<Op<S, D, R, E>>): seq<D> {
    if ops == [] then []
    else
      var before := Written(ops[..|ops| - 1]);
      var op := ops[|ops| - 1];
      if op.Write? then before + [op.datum] else before
  }

  /** The consumer asks for more whenever it answers, and never fails. */
  ghost predicate AlwaysContinues<S(!new), D(!new), E>(consume: (S, D) -> (S, Reply<E>)) {
    forall state, d :: consume(state, d).1 == Reply.Later || consume(state, d).1 == Answer(Continue)
  }

  /** A call of a run in which nobody rejects, fails, discards or stops. */
  ghost predicate Steady<S(!new), D(!new), R, E>(op: Op<S, D, R, E>) {
    match op
    case Bind(consume, _) => AlwaysContinues(consume)
    case Write(_) => true
    case ProducerResolve(_) => true
    case ProducerReject(_) => false
    case ConsumerDone(a) => a == Continue
    case ConsumerFail(_) => false
  }

  ghost predicate SteadyStream<S(!new), D(!new), R, E>(s: Stream<S, D, R, E>) {
    && s.action == Continue
    && s.discarded == []
    && (s.result.NoResult? || s.result.Resolved?)
    && (s.binding.Some? ==> AlwaysContinues(s.binding.value.consume))
  }

  /** Feeding the consumer changes none of what the caller supplied. */
  ghost predicate SameSupplies<S, D, R, E>(s: Stream<S, D, R, E>, t: Stream<S, D, R, E>) {
    && t.accepted == s.accepted && t.given == s.given && t.written == s.written
    && t.binding.Some? == s.binding.Some?
    && (s.binding.Some? ==>
          && t.binding.value.consume == s.binding.value.consume
          && t.binding.value.init == s.binding.value.init)
  }

  lemma FeedSteady<S(!new), D(!new), R, E>(s: Stream<S, D, R, E>)
    requires Sound(s) && SteadyStream(s) && Attentive(s) && s.buffer != []
    ensures var (t, reply) := HandOver(s);
      && Sound(t) && SteadyStream(t) && SameSupplies(s, t) && t.running
      && (reply == Reply.Later || reply == Answer(Continue))
  {
    HandOverSound(s);
  }

  lemma AnswerSteady<S(!new), D(!new), R, E>(s: Stream<S, D, R, E>)
    requires Sound(s) && SteadyStream(s) && s.running
    ensures Sound(Answered(s, Continue)) && SteadyStream(Answered(s, Continue))
    ensures SameSupplies(s, Answered(s, Continue))
  {}

  lemma {:induction false} DrainSteady<S(!new), D(!new), R, E>(s: Stream<S, D, R, E>)
    requires Sound(s) && SteadyStream(s)
    ensures Drain(s).Ok? && SteadyStream(Drain(s).stream) && SameSupplies(s, Drain(s).stream)
    decreases |s.buffer|
  {
    if Attentive(s) && s.buffer != [] {
      FeedSteady(s);
      var (t, reply) := HandOver(s);
      if reply.Answer? {
        AnswerSteady(t);
        var u := Answered(t, Continue);
        DrainSteady(u);
        assert Drain(s) == Drain(u);
      } else {
        assert Drain(s) == Ok(t);
      }
    }
  }

  /** The stream holds what the calls of a run supplied. */
  ghost predicate Matches<S(!new), D(!new), R, E>(s: Stream<S, D, R, E>, ops: seq<Op<S, D, R, E>>) {
    && s.accepted == Written(ops)
    && (s.written <==> Written(ops) != [])
    && (forall op | op in ops :: Holds(s, op))
    && (s.given.Some? ==> s.given.value.Resolve? && ProducerResolve(s.given.value.value) in ops)
    && (s.binding.Some? ==> Bind(s.binding.value.consume, s.binding.value.init) in ops)
  }

  ghost predicate Holds<S(!new), D(!new), R, E>(s: Stream<S, D, R, E>, op: Op<S, D, R, E>) {
    && (op.ProducerResolve? ==> s.given == Some(Resolve(op.value)))
    && (op.Bind? ==> s.binding.Some? && s.binding.value.consume == op.consume && s.binding.value.init == op.init)
  }

  ghost predicate Recorded<S(!new), D(!new), R, E>(s: Stream<S, D, R, E>, ops: seq<Op<S, D, R, E>>) {
    Inv(s) && SteadyStream(s) && Matches(s, ops)
  }

  lemma WrittenSnoc<S(!new), D(!new), R, E>(ops: seq<Op<S, D, R, E>>, op: Op<S, D, R, E>)
    ensures Written(ops + [op]) == if op.Write? then Written(ops) + [op.datum] else Written(ops)
  {
    assert (ops + [op])[..|ops|] == ops;
  }

  /** `t` holds what `s` held, and what `op` added. */
  ghost predicate Supplied<S, D, R, E>(s: Stream<S, D, R, E>, op: Op<S, D, R, E>, t: Stream<S, D, R, E>) {
    && t.accepted == (if op.Write? then s.accepted + [op.datum] else s.accepted)
    && (t.written <==> s.written || op.Write?)
    && t.given == (if op.ProducerResolve? then Some(Resolve(op.value)) else s.given)
    && (op.ProducerResolve? ==> s.given.None?)
    && (op.Bind? ==> s.binding.None?)
    && t.binding.Some? == (op.Bind? || s.binding.Some?)
    && (op.Bind? ==> t.binding.value.consume == op.consume && t.binding.value.init == op.init)
    && (s.binding.Some? ==>
          t.binding.value.consume == s.binding.value.consume && t.binding.value.init == s.binding.value.init)
  }

  lemma SteadyStep<S(!new), D(!new), R, E>(s: Stream<S, D, R, E>, op: Op<S, D, R, E>)
    requires Inv(s) && SteadyStream(s) && Steady(op) && Enabled(s, op) && Step(s, op).Ok?
    ensures SteadyStream(Step(s, op).stream) && Supplied(s, op, Step(s, op).stream)
  {
    match op
    case Bind(consume, init) =>
      DrainSteady(s.(binding := Some(Binding(consume, init, init))));
    case Write(d) =>
      AcceptSound(s, d);
      DrainSteady(Accept(s, d));
    case ConsumerDone(a) =>
      AnsweredSound(s, a);
      DrainSteady(Answered(s, a));
    case _ =>
  }

  lemma MatchesStep<S(!new), D(!new), R, E>(s: Stream<S, D, R, E>, ops: seq<Op<S, D, R, E>>, op: Op<S, D, R, E>,
                                          t: Stream<S, D, R, E>)
    requires Matches(s, ops) && Steady(op) && Supplied(s, op, t)
    ensures Matches(t, ops + [op])
  {
    WrittenSnoc(ops, op);
    forall o | o in ops + [op] ensures Holds(t, o) {
      assert o in ops ==> Holds(s, o);
    }
    assert op in ops + [op];
  }

  lemma {:induction false} RecordRun<S(!new), D(!new), R, E>(ops: seq<Op<S, D, R, E>>)
    requires Run<S, D, R, E>(Init(), ops).Some?
    requires forall op | op in ops :: Steady(op)
    ensures Recorded(Run(Init(), ops).value, ops)
    decreases |ops|
  {
    if ops == [] {
      InitInv<S, D, R, E>();
    } else {
      var before, op := ops[..|ops| - 1], ops[|ops| - 1];
      assert ops == before + [op];
      RunSnoc<S, D, R, E>(Init(), before, op);
      RecordRun(before);
      var s := Run<S, D, R, E>(Init(), before).value;
      StepInv(s, op);
      SteadyStep(s, op);
      MatchesStep(s, before, op, Step(s, op).stream);
    }
  }

  /**
   A stream is a fold.  In any order of binding, writing, resolving and answering, synchronous or not,
   in which the consumer always asks for more: the stream settles exactly when it has a result, is bound
   (or was never written to) and no consumer call is in flight; it settles with the producer's value; and
   by then the bound consumer has been given the written data, all of it and in order, so its state is
   the left fold of the consumer over what was written.
   */
  lemma StreamIsFold<S(!new), D(!new), R, E>(ops: seq<Op<S, D, R, E>>, consume: (S, D) -> (S, Reply<E>), init: S,
      value: R)
    requires Run<S, D, R, E>(Init(), ops).Some?
    requires forall op | op in ops :: Steady(op)
    requires Bind(consume, init) in ops && ProducerResolve(value) in ops
    ensures var s := Run(Init(), ops).value;
      && (s.completions != [] <==> !s.running)
      && (s.completions != [] ==>
            && s.completions == [Resolve(value)]
            && s.handed == Written(ops)
            && s.binding.Some?
            && s.binding.value.state == Fold(consume, init, Written(ops)))
  {
    RecordRun(ops);
  }

  /** Two such runs of the same writes, result and binding settle alike, whatever their order. */
  lemma OrderDoesNotMatter<S(!new), D(!new), R, E>(ops: seq<Op<S, D, R, E>>, ops': seq<Op<S, D, R, E>>,
                                                 consume: (S, D) -> (S, Reply<E>), init: S, value: R)
    requires Run<S, D, R, E>(Init(), ops).Some? && Run<S, D, R, E>(Init(), ops').Some?
    requires forall op | op in ops + ops' :: Steady(op)
    requires forall run | run in [ops, ops'] :: Bind(consume, init) in run && ProducerResolve(value) in run
    requires Written(ops) == Written(ops')
    ensures var s, t := Run(Init(), ops).value, Run(Init(), ops').value;
      s.completions != [] && t.completions != [] ==>
        s.completions == t.completions && s.handed == t.handed && s.binding.Some? && t.binding.Some? &&
        s.binding.value.state == t.binding.value.state
  {
    assert [ops, ops'][0] == ops && [ops, ops'][1] == ops';
    assert forall op | op in ops :: op in ops + ops';
    assert forall op | op in ops' :: op in ops + ops';
    StreamIsFold(ops, consume, init, value);
    StreamIsFold(ops', consume, init, value);
  }
}
