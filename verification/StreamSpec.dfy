/**
 A promise stream as one value: the flags, the buffer and the histories a run leaves behind, with each
 operation of promise_stream.tcc as a function from a stream to the next one.

 The phase is not stepped through here: `PhaseOf` reads it off the flags, in the way the table of
 promise_stream.md defines it.  The class in PromiseStream.dfy does step, and is proved to agree.
 */
module StreamSpec {
  import opened Wrappers

  datatype Action = Continue | Discard | Stop

  datatype Phase = Pending | Streaming1 | Streaming2 | Streaming3 | Completed

  datatype ResultKind = NoResult | Resolved | Rejected | ConsumerFailed

  /** How the proxy promise of the stream is settled. */
  datatype Settlement<+R, +E> = Resolve(value: R) | Reject(error: E)

  /** What a consumer call has done by the time it returns: nothing yet, an answer, or a failure. */
  datatype Reply<+E> = Later | Answer(action: Action) | Fail(error: E)

  /** A consumer with its state object.  Stateless consumers have a constant state. */
  datatype Binding<!S, !D, !E> = Binding(consume: (S, D) -> (S, Reply<E>), init: S, state: S)

  datatype Stream<!S, !D, !R, !E> = Stream(
    phase: Phase,
    action: Action,
    written: bool,
    bufferIsEmpty: bool,
    running: bool,
    result: ResultKind,
    completer: Option<Settlement<R, E>>,
    buffer: seq<D>,
    binding: Option<Binding<S, D, E>>,
    // histories
    accepted: seq<D>,
    handed: seq<D>,
    discarded: seq<D>,
    given: Option<Settlement<R, E>>,
    completions: seq<Settlement<R, E>>,
    ended: bool,            // a consumer call has answered Discard or Stop, or has failed
    failedSinceWrite: bool  // a consumer call has failed and nothing has been written since
  )

  /** A guard of the DEBUG build throws `logic_error`; the stream is then left as given. */
  datatype Outcome<!S, !D, !R, !E> =
    | Ok(stream: Stream<S, D, R, E>)
    | Threw(stream: Stream<S, D, R, E>)

  function Init<S, D, R, E>(): Stream<S, D, R, E> {
    Stream(Pending, Continue, false, true, false, NoResult, None, [], None, [], [], [], None, [], false, false)
  }

  // ---------------------------------------------------------------- operations

  /** The phase as the state table of promise_stream.md describes it. */
  function PhaseOf<S, D, R, E>(s: Stream<S, D, R, E>): Phase {
    if !s.written then
      if s.result.NoResult? then Pending else Completed
    else if s.result.NoResult? then Streaming1
    else if !s.bufferIsEmpty then Streaming2
    else if s.running then Streaming3
    else Completed
  }

  /** Bring the phase up to date; entering `Completed` uses up the completer. */
  function Refresh<S, D, R, E>(s: Stream<S, D, R, E>): Stream<S, D, R, E> {
    var p := PhaseOf(s);
    if p.Completed? && !s.phase.Completed? && s.completer.Some? then
      s.(phase := p, completer := None, completions := s.completions + [s.completer.value])
    else
      s.(phase := p)
  }

  /** Would `take_data` look at the buffer at all? */
  predicate Attentive<S, D, R, E>(s: Stream<S, D, R, E>) {
    (s.phase.Streaming1? || s.phase.Streaming2?) && s.binding.Some? && !s.running
  }

  /** Hand the oldest datum over; the consumer is now in flight. */
  function HandOver<S, D, R, E>(s: Stream<S, D, R, E>): (r: (Stream<S, D, R, E>, Reply<E>))
    requires s.binding.Some? && s.buffer != []
  {
    var b := s.binding.value;
    var (state, reply) := b.consume(b.state, s.buffer[0]);
    (s.(running := true, buffer := s.buffer[1..], handed := s.handed + [s.buffer[0]],
        binding := Some(b.(state := state))),
     reply)
  }

  /** A running consumer call answers. */
  function Answered<S, D, R, E>(s: Stream<S, D, R, E>, a: Action): Stream<S, D, R, E> {
    Refresh(s.(action := a, running := false, ended := s.ended || a != Continue))
  }

  /** A running consumer call fails while the stream has no result yet. */
  function ConsumerFails<S, D, R, E>(s: Stream<S, D, R, E>, error: E): Stream<S, D, R, E> {
    Refresh(s.(action := Stop, running := false, result := ConsumerFailed, completer := Some(Reject(error)),
               given := Some(Reject(error)), ended := true, failedSinceWrite := true))
  }

  /** Feed the consumer until it is in flight, has failed, or there is nothing left to feed. */
  function Drain<S, D, R, E>(s: Stream<S, D, R, E>): Outcome<S, D, R, E>
    decreases |s.buffer|
  {
    if !Attentive(s) then Ok(s)
    else if s.action != Continue || s.buffer == [] then
      Ok(Refresh(s.(discarded := s.discarded + s.buffer, buffer := [], bufferIsEmpty := true)))
    else
      var (t, reply) := HandOver(s);
      match reply
      case Later => Ok(t)
      case Answer(a) => Drain(Answered(t, a))
      case Fail(error) =>
        if t.result.NoResult? then Ok(ConsumerFails(t, error))
        else Threw(t.(action := Stop, running := false))
  }

  datatype Op<!S, !D, !R, !E> =
    | Bind(consume: (S, D) -> (S, Reply<E>), init: S)
    | Write(datum: D)
    | ProducerResolve(value: R)
    | ProducerReject(error: E)
    | ConsumerDone(action: Action)
    | ConsumerFail(error: E)

  /** Only a call that is in flight can answer. */
  predicate Enabled<S, D, R, E>(s: Stream<S, D, R, E>, op: Op<S, D, R, E>) {
    op.ConsumerDone? || op.ConsumerFail? ==> s.running
  }

  predicate WriteBreaksContract<S, D, R, E>(s: Stream<S, D, R, E>) {
    s.action == Continue && (s.result.Resolved? || s.result.Rejected?)
  }

  function Accept<S, D, R, E>(s: Stream<S, D, R, E>, d: D): Stream<S, D, R, E> {
    Refresh(s.(buffer := s.buffer + [d], accepted := s.accepted + [d], written := true, bufferIsEmpty := false,
               failedSinceWrite := false))
  }

  function GiveResult<S, D, R, E>(s: Stream<S, D, R, E>, kind: ResultKind, how: Settlement<R, E>): Outcome<S, D, R, E> {
    if s.result.ConsumerFailed? then Ok(s)
    else if !s.result.NoResult? then Threw(s)
    else Ok(Refresh(s.(result := kind, completer := Some(how), given := Some(how))))
  }

  function Step<S, D, R, E>(s: Stream<S, D, R, E>, op: Op<S, D, R, E>): Outcome<S, D, R, E>
    requires Enabled(s, op)
  {
    match op
    case Bind(consume, init) =>
      if s.binding.Some? then Threw(s) else Drain(s.(binding := Some(Binding(consume, init, init))))
    case Write(d) =>
      if WriteBreaksContract(s) then Threw(s.(buffer := s.buffer + [d]))
      else if s.action == Continue then Drain(Accept(s, d))
      else Drain(s.(failedSinceWrite := false))
    case ProducerResolve(value) => GiveResult(s, Resolved, Resolve(value))
    case ProducerReject(error) => GiveResult(s.(action := Stop), Rejected, Reject(error))
    case ConsumerDone(a) => Drain(Answered(s, a))
    case ConsumerFail(error) =>
      if s.result.NoResult? then Ok(ConsumerFails(s, error)) else Threw(s.(action := Stop))
  }

  // ---------------------------------------------------------------- the invariant

  /** The state object after feeding `data` to a consumer, oldest first. */
  ghost function Fold<S, D, E>(consume: (S, D) -> (S, Reply<E>), init: S, data: seq<D>): S {
    if data == [] then init
    else consume(Fold(consume, init, data[..|data| - 1]), data[|data| - 1]).0
  }

  ghost predicate Conserved<S, D, R, E>(s: Stream<S, D, R, E>) {
    && s.accepted == s.handed + s.discarded + s.buffer
    && (s.discarded != [] ==> s.buffer == [] && s.action != Continue && !s.running)
    && (s.ended ==> s.action != Continue && !s.running)
    && (s.binding.None? ==> s.handed == [] && s.discarded == [] && !s.running && !s.ended)
    && (s.binding.Some? ==>
          s.binding.value.state == Fold(s.binding.value.consume, s.binding.value.init, s.handed))
  }

  ghost predicate Settled<S, D, R, E>(s: Stream<S, D, R, E>) {
    && (s.result.NoResult? <==> s.given.None?)
    && (s.result.Resolved? ==> s.given.value.Resolve?)
    && (s.result.Rejected? || s.result.ConsumerFailed? ==> s.given.value.Reject?)
    && s.completer == (if s.phase.Completed? then None else s.given)
    && (s.phase.Completed? ==> s.given.Some?)
    && s.completions == (if s.phase.Completed? then [s.given.value] else [])
    && (s.result.ConsumerFailed? ==> s.ended)
  }

  /** Everything but the claim that the consumer has been fed. */
  ghost predicate Sound<S, D, R, E>(s: Stream<S, D, R, E>) {
    && s.phase == PhaseOf(s)
    && !s.phase.Streaming3?
    && (s.bufferIsEmpty ==> s.buffer == [])
    && (s.running ==> s.written && !s.bufferIsEmpty)
    && (!s.written ==> s.bufferIsEmpty && s.accepted == [])
    && (s.failedSinceWrite ==> s.result.ConsumerFailed? && !s.bufferIsEmpty)
    && Conserved(s)
    && Settled(s)
  }

  /** Nothing is waiting for a consumer that could take it, unless a failure has stalled the stream. */
  ghost predicate Served<S, D, R, E>(s: Stream<S, D, R, E>) {
    s.binding.Some? && s.written && !s.running && !s.failedSinceWrite ==> s.bufferIsEmpty
  }

  ghost predicate Inv<S, D, R, E>(s: Stream<S, D, R, E>) {
    Sound(s) && Served(s)
  }

  lemma FoldSnoc<S, D, E>(consume: (S, D) -> (S, Reply<E>), init: S, data: seq<D>, d: D)
    ensures Fold(consume, init, data + [d]) == consume(Fold(consume, init, data), d).0
  {
    assert (data + [d])[..|data|] == data;
  }

  lemma HandOverSound<S, D, R, E>(s: Stream<S, D, R, E>)
    requires Sound(s) && Attentive(s) && s.action == Continue && s.buffer != []
    ensures var t := HandOver(s).0;
      Sound(t) && t.running && !t.ended && !t.result.ConsumerFailed?
  {
    var b := s.binding.value;
    FoldSnoc(b.consume, b.init, s.handed, s.buffer[0]);
    assert s.buffer == [s.buffer[0]] + s.buffer[1..];
  }

  lemma EmptiedInv<S, D, R, E>(s: Stream<S, D, R, E>)
    requires Sound(s) && !s.failedSinceWrite && Attentive(s) && (s.action != Continue || s.buffer == [])
    ensures Inv(Drain(s).stream)
  {
    var t := s.(discarded := s.discarded + s.buffer, buffer := [], bufferIsEmpty := true);
    assert Conserved(t);
    assert Drain(s).stream == Refresh(t);
  }

  /** A drain keeps the invariant, and leaves the consumer fed if no guard threw. */
  lemma {:induction false} DrainInv<S, D, R, E>(s: Stream<S, D, R, E>)
    requires Sound(s)
    requires !s.failedSinceWrite
    ensures Drain(s).Ok? ==> Inv(Drain(s).stream)
    decreases |s.buffer|
  {
    if !Attentive(s) {
    } else if s.action != Continue || s.buffer == [] {
      EmptiedInv(s);
    } else {
      HandOverSound(s);
      var (t, reply) := HandOver(s);
      match reply
      case Later =>
      case Answer(a) =>
        AnsweredSound(t, a);
        DrainInv(Answered(t, a));
      case Fail(error) =>
        if t.result.NoResult? {
          ConsumerFailsInv(t, error);
        }
    }
  }

  lemma InitInv<S, D, R, E>()
    ensures Inv<S, D, R, E>(Init())
  {}

  lemma AcceptSound<S, D, R, E>(s: Stream<S, D, R, E>, d: D)
    requires Inv(s) && s.action == Continue && !WriteBreaksContract(s)
    ensures Sound(Accept(s, d))
  {}

  lemma AnsweredSound<S, D, R, E>(s: Stream<S, D, R, E>, a: Action)
    requires Sound(s) && s.running
    ensures Sound(Answered(s, a)) && !Answered(s, a).failedSinceWrite
  {}

  lemma ConsumerFailsInv<S, D, R, E>(s: Stream<S, D, R, E>, error: E)
    requires Sound(s) && s.running && s.result.NoResult?
    ensures Inv(ConsumerFails(s, error))
  {}

  lemma RefreshFrame<S, D, R, E>(s: Stream<S, D, R, E>)
    ensures var t := Refresh(s); t == s.(phase := t.phase, completer := t.completer, completions := t.completions)
  {
  }

  /** A result changes no datum and nothing about the consumer. */
  lemma GiveResultFrame<S, D, R, E>(s: Stream<S, D, R, E>, kind: ResultKind, how: Settlement<R, E>)
    ensures var t := GiveResult(s, kind, how).stream;
      t == s.(phase := t.phase, result := t.result, completer := t.completer, given := t.given,
              completions := t.completions)
  {
    if s.result.NoResult? {
      RefreshFrame(s.(result := kind, completer := Some(how), given := Some(how)));
    }
  }

  lemma GiveResultSettled<S, D, R, E>(s: Stream<S, D, R, E>, kind: ResultKind, how: Settlement<R, E>)
    requires Sound(s) && GiveResult(s, kind, how).Ok?
    requires (kind.Resolved? && how.Resolve?) || (kind.Rejected? && how.Reject?)
    ensures var t := GiveResult(s, kind, how).stream;
      Settled(t) && t.phase == PhaseOf(t) && !t.phase.Streaming3? && (s.result.ConsumerFailed? ==> t == s)
  {
  }

  lemma GiveResultInv<S, D, R, E>(s: Stream<S, D, R, E>, kind: ResultKind, how: Settlement<R, E>)
    requires Inv(s) && GiveResult(s, kind, how).Ok?
    requires (kind.Resolved? && how.Resolve?) || (kind.Rejected? && how.Reject?)
    ensures Inv(GiveResult(s, kind, how).stream)
  {
    GiveResultFrame(s, kind, how);
    GiveResultSettled(s, kind, how);
  }

  /** Every operation that returns normally keeps the invariant. */
  lemma StepInv<S, D, R, E>(s: Stream<S, D, R, E>, op: Op<S, D, R, E>)
    requires Inv(s) && Enabled(s, op) && Step(s, op).Ok?
    ensures Inv(Step(s, op).stream)
  {
    match op
    case Bind(consume, init) =>
      DrainInv(s.(binding := Some(Binding(consume, init, init))));
    case Write(d) =>
      if s.action == Continue {
        AcceptSound(s, d);
        DrainInv(Accept(s, d));
      } else {
        DrainInv(s.(failedSinceWrite := false));
      }
    case ConsumerDone(a) =>
      AnsweredSound(s, a);
      DrainInv(Answered(s, a));
    case ConsumerFail(error) =>
      ConsumerFailsInv(s, error);
    case ProducerResolve(value) =>
      GiveResultInv(s, Resolved, Resolve(value));
    case ProducerReject(error) =>
      GiveResultInv(s.(action := Stop), Rejected, Reject(error));
  }
}
