/**
 A stream read off its run.  Each call has an effect: the actions it sets, the results it offers, the data it
 has accepted and the data it hands over, which depend on what the consumer replies to each datum.  The
 effects of a run, taken together, say what the stream is in the end.
 */
module StreamReplay {
  import opened StreamRuns
  import opened StreamSpec
  import opened Wrappers

  /** The replies of a consumer that is fed `data` from `state`, as long as it asks for more at once. */
  function Replies<S, D, E>(consume: (S, D) -> (S, Reply<E>), state: S, data: seq<D>): (rs: seq<Reply<E>>)
    ensures |rs| <= |data|
    decreases |data|
  {
    if data == [] then []
    else
      var (next, reply) := consume(state, data[0]);
      [reply] + if reply == Answer(Continue) then Replies(consume, next, data[1..]) else []
  }

  /** The actions that replies set: an answer sets its own, a failure sets Stop. */
  function ActionsOf<E>(rs: seq<Reply<E>>): seq<Action> {
    if rs == [] then []
    else
      (match rs[0] case Later => [] case Answer(a) => [a] case Fail(_) => [Stop]) + ActionsOf(rs[1..])
  }

  /** A result that somebody offers the stream. */
  datatype Offer<+R, +E> = ByProducer(how: Settlement<R, E>) | ByConsumer(error: E)

  function OffersOf<R, E>(rs: seq<Reply<E>>): seq<Offer<R, E>> {
    if rs == [] then []
    else (if rs[0].Fail? then [ByConsumer(rs[0].error)] else []) + OffersOf(rs[1..])
  }

  /** What one call does: actions set, results offered, data accepted and data handed over, in order. */
  datatype Effect<+D, +R, +E> = Effect(actions: seq<Action>, offers: seq<Offer<R, E>>, accepted: seq<D>, handed: seq<D>)

  function Both<D, R, E>(e: Effect<D, R, E>, f: Effect<D, R, E>): Effect<D, R, E> {
    Effect(e.actions + f.actions, e.offers + f.offers, e.accepted + f.accepted, e.handed + f.handed)
  }

  /** The effect of feeding a consumer. */
  function Feeding<S, D, R, E>(consume: (S, D) -> (S, Reply<E>), state: S, data: seq<D>): Effect<D, R, E> {
    var rs := Replies(consume, state, data);
    Effect(ActionsOf(rs), OffersOf(rs), [], data[..|rs|])
  }

  function Nothing<D, R, E>(): Effect<D, R, E> {
    Effect([], [], [], [])
  }

  /** Feeding the consumer of `s`, if it is bound, with what is buffered. */
  function FeedingOf<S, D, R, E>(s: Stream<S, D, R, E>, data: seq<D>): Effect<D, R, E> {
    match s.binding
    case None => Nothing()
    case Some(b) => Feeding(b.consume, b.state, data)
  }

  function EffectOf<S, D, R, E>(s: Stream<S, D, R, E>, op: Op<S, D, R, E>): Effect<D, R, E> {
    match op
    case Bind(consume, init) => if s.action == Continue then Feeding(consume, init, s.buffer) else Nothing()
    case Write(d) =>
      if s.action != Continue then Nothing()
      else Both(Effect([], [], [d], []), if s.running then Nothing() else FeedingOf(s, s.buffer + [d]))
    case ProducerResolve(value) => Effect([], [ByProducer(Resolve(value))], [], [])
    case ProducerReject(error) => Effect([Stop], [ByProducer(Reject(error))], [], [])
    case ConsumerDone(a) => Both(Effect([a], [], [], []), if a == Continue then FeedingOf(s, s.buffer) else Nothing())
    case ConsumerFail(error) => Effect([Stop], [ByConsumer(error)], [], [])
  }

  /** The effects of a run, one call after the other. */
  function EffectsOf<S, D, R, E>(s: Stream<S, D, R, E>, ops: seq<Op<S, D, R, E>>): Effect<D, R, E>
    decreases |ops|
  {
    if ops == [] || !Enabled(s, ops[0]) || Step(s, ops[0]).Threw? then Nothing()
    else Both(EffectOf(s, ops[0]), EffectsOf(Step(s, ops[0]).stream, ops[1..]))
  }

  // ---------------------------------------------------------------- reading a stream

  function LastOr<T>(start: T, set_: seq<T>): T {
    if set_ == [] then start else set_[|set_| - 1]
  }

  function HowOf<R, E>(offer: Offer<R, E>): Settlement<R, E> {
    match offer
    case ByProducer(how) => how
    case ByConsumer(error) => Reject(error)
  }

  function KindOf<R, E>(offer: Offer<R, E>): ResultKind {
    match offer
    case ByProducer(Resolve(_)) => Resolved
    case ByProducer(Reject(_)) => Rejected
    case ByConsumer(_) => ConsumerFailed
  }

  /** The first offer is the result; a stream that has one keeps it. */
  ghost predicate HasFirst<S, D, R, E>(s: Stream<S, D, R, E>, offers: seq<Offer<R, E>>, t: Stream<S, D, R, E>) {
    if !s.result.NoResult? || offers == [] then t.given == s.given && t.result == s.result
    else t.given == Some(HowOf(offers[0])) && t.result == KindOf(offers[0])
  }

  /** `t` is what the effect makes of `s`. */
  ghost predicate Affected<S, D, R, E>(s: Stream<S, D, R, E>, e: Effect<D, R, E>, t: Stream<S, D, R, E>) {
    && t.action == LastOr(s.action, e.actions)
    && HasFirst(s, e.offers, t)
    && t.accepted == s.accepted + e.accepted
    && t.handed == s.handed + e.handed
  }

  lemma LastOfBoth<T>(start: T, x: seq<T>, y: seq<T>)
    ensures LastOr(start, x + y) == LastOr(LastOr(start, x), y)
  {
  }

  lemma AffectedBoth<S, D, R, E>(s: Stream<S, D, R, E>, e: Effect<D, R, E>, t: Stream<S, D, R, E>, f: Effect<D, R, E>,
                                 u: Stream<S, D, R, E>)
    requires Affected(s, e, t) && Affected(t, f, u)
    ensures Affected(s, Both(e, f), u)
  {
    LastOfBoth(s.action, e.actions, f.actions);
    assert s.accepted + e.accepted + f.accepted == s.accepted + (e.accepted + f.accepted);
    assert s.handed + e.handed + f.handed == s.handed + (e.handed + f.handed);
  }

  lemma AffectedNothing<S, D, R, E>(s: Stream<S, D, R, E>, t: Stream<S, D, R, E>)
    requires t.action == s.action && t.given == s.given && t.result == s.result
    requires t.accepted == s.accepted && t.handed == s.handed
    ensures Affected(s, Nothing(), t)
  {
  }

  // ---------------------------------------------------------------- one drain

  /** The effect of a drain. */
  function Draining<S, D, R, E>(s: Stream<S, D, R, E>): Effect<D, R, E> {
    if Attentive(s) && s.action == Continue then FeedingOf(s, s.buffer) else Nothing()
  }

  /** One reply and then the rest. */
  lemma FeedingUnfolds<S, D, R, E>(consume: (S, D) -> (S, Reply<E>), state: S, data: seq<D>)
    requires data != []
    ensures var (next, reply) := consume(state, data[0]);
      var first: Effect<D, R, E> := Effect(ActionsOf([reply]), OffersOf([reply]), [], [data[0]]);
      Feeding<S, D, R, E>(consume, state, data) ==
        if reply == Answer(Continue) then Both(first, Feeding(consume, next, data[1..])) else first
  {
    var (next, reply) := consume(state, data[0]);
    var rest := if reply == Answer(Continue) then Replies(consume, next, data[1..]) else [];
    var rs := [reply] + rest;
    assert rs[1..] == rest && [reply][1..] == [];
    assert data[..|rs|] == [data[0]] + data[1..][..|rest|];
  }

  /** The stream between a reply given at once and what comes next. */
  lemma ReplyAffects<S, D, R, E>(s: Stream<S, D, R, E>)
    requires Sound(s) && Attentive(s) && s.action == Continue && s.buffer != []
    ensures var (t, reply) := HandOver(s);
      var first: Effect<D, R, E> := Effect(ActionsOf([reply]), OffersOf([reply]), [], [s.buffer[0]]);
      match reply
      case Later => Affected(s, first, t)
      case Answer(a) => Affected(s, first, Answered(t, a))
      case Fail(error) => t.result.NoResult? ==> Affected(s, first, ConsumerFails(t, error))
  {
    var (t, reply) := HandOver(s);
    assert [reply][1..] == [];
  }

  lemma {:induction false} DrainAffects<S, D, R, E>(s: Stream<S, D, R, E>)
    requires Sound(s) && Drain(s).Ok?
    ensures Affected(s, Draining(s), Drain(s).stream)
    decreases |s.buffer|
  {
    if Attentive(s) && s.action == Continue && s.buffer != [] {
      var b := s.binding.value;
      FeedingUnfolds<S, D, R, E>(b.consume, b.state, s.buffer);
      ReplyAffects(s);
      HandOverSound(s);
      var (t, reply) := HandOver(s);
      if reply.Answer? {
        AnsweredSound(t, reply.action);
        var u := Answered(t, reply.action);
        DrainAffects(u);
        DrainingOn(s, reply.action);
        var first: Effect<D, R, E> := Effect(ActionsOf([reply]), OffersOf([reply]), [], [s.buffer[0]]);
        AffectedBoth(s, first, u, Draining(u), Drain(u).stream);
        BothNothing(first);
      }
    }
  }

  /** After an answer the drain goes on exactly if the answer is Continue. */
  lemma DrainingOn<S, D, R, E>(s: Stream<S, D, R, E>, a: Action)
    requires Sound(s) && Attentive(s) && s.action == Continue && s.buffer != [] && HandOver(s).1 == Answer(a)
    ensures var b := s.binding.value;
      Draining(Answered(HandOver(s).0, a)) ==
        if a == Continue then Feeding(b.consume, b.consume(b.state, s.buffer[0]).0, s.buffer[1..]) else Nothing()
  {
  }

  lemma BothNothing<D, R, E>(e: Effect<D, R, E>)
    ensures Both(e, Nothing()) == e && Both(Nothing(), e) == e
  {
  }

  // ---------------------------------------------------------------- one call

  /** An update that a drain follows. */
  lemma DrainAfter<S, D, R, E>(s: Stream<S, D, R, E>, e: Effect<D, R, E>, u: Stream<S, D, R, E>)
    requires Sound(u) && Drain(u).Ok? && Affected(s, e, u)
    ensures Affected(s, Both(e, Draining(u)), Drain(u).stream)
  {
    DrainAffects(u);
    AffectedBoth(s, e, u, Draining(u), Drain(u).stream);
  }

  lemma BindAffects<S, D, R, E>(s: Stream<S, D, R, E>, op: Op<S, D, R, E>)
    requires Inv(s) && op.Bind? && Step(s, op).Ok?
    ensures Affected(s, EffectOf(s, op), Step(s, op).stream)
  {
    var u := s.(binding := Some(Binding(op.consume, op.init, op.init)));
    DrainAfter(s, Nothing(), u);
    BothNothing(Draining(u));
  }

  lemma WriteAffects<S, D, R, E>(s: Stream<S, D, R, E>, d: D)
    requires Inv(s) && Step(s, Op.Write(d)).Ok?
    ensures Affected(s, EffectOf(s, Op.Write(d)), Step(s, Op.Write(d)).stream)
  {
    if s.action == Continue {
      AcceptSound(s, d);
      var first: Effect<D, R, E> := Effect([], [], [d], []);
      assert Affected(s, first, Accept(s, d));
      DrainAfter(s, first, Accept(s, d));
      BothNothing(first);
    } else {
      var u := s.(failedSinceWrite := false);
      DrainAfter(s, Nothing(), u);
      BothNothing(Draining(u));
    }
  }

  lemma DoneAffects<S, D, R, E>(s: Stream<S, D, R, E>, a: Action)
    requires Inv(s) && s.running && Step(s, ConsumerDone(a)).Ok?
    ensures Affected(s, EffectOf(s, ConsumerDone(a)), Step(s, ConsumerDone(a)).stream)
  {
    var u := Answered(s, a);
    AnsweredSound(s, a);
    var first: Effect<D, R, E> := Effect([a], [], [], []);
    assert Affected(s, first, u);
    DrainAfter(s, first, u);
    BothNothing(first);
  }

  lemma GiveAffects<S, D, R, E>(s: Stream<S, D, R, E>, kind: ResultKind, how: Settlement<R, E>)
    requires Sound(s) && GiveResult(s, kind, how).Ok? && kind == KindOf(Offer<R, E>.ByProducer(how))
    ensures Affected(s, Effect([], [ByProducer(how)], [], []), GiveResult(s, kind, how).stream)
  {
    GiveResultFrame(s, kind, how);
  }

  lemma RejectAffects<S, D, R, E>(s: Stream<S, D, R, E>, error: E)
    requires Inv(s) && Step(s, ProducerReject(error)).Ok?
    ensures Affected(s, EffectOf(s, ProducerReject(error)), Step(s, ProducerReject(error)).stream)
  {
    GiveResultFrame(s.(action := Stop), Rejected, Reject(error));
  }

  lemma FailAffects<S, D, R, E>(s: Stream<S, D, R, E>, error: E)
    requires Inv(s) && s.running && Step(s, ConsumerFail(error)).Ok?
    ensures Affected(s, EffectOf(s, ConsumerFail(error)), Step(s, ConsumerFail(error)).stream)
  {
  }

  /** A call does to any stream in order what its effect says. */
  lemma StepAffects<S, D, R, E>(s: Stream<S, D, R, E>, op: Op<S, D, R, E>)
    requires Inv(s) && Enabled(s, op) && Step(s, op).Ok?
    ensures Affected(s, EffectOf(s, op), Step(s, op).stream)
  {
    match op
    case Bind(_, _) => BindAffects(s, op);
    case Write(d) => WriteAffects(s, d);
    case ConsumerDone(a) => DoneAffects(s, a);
    case ProducerResolve(value) => GiveAffects(s, Resolved, Resolve(value));
    case ProducerReject(error) => RejectAffects(s, error);
    case ConsumerFail(error) => FailAffects(s, error);
  }

  // ---------------------------------------------------------------- whole runs

  lemma {:induction false} RunAffects<S, D, R, E>(s: Stream<S, D, R, E>, ops: seq<Op<S, D, R, E>>)
    requires Inv(s) && Run(s, ops).Some?
    ensures Affected(s, EffectsOf(s, ops), Run(s, ops).value)
    decreases |ops|
  {
    if ops != [] {
      var t := Step(s, ops[0]).stream;
      StepInv(s, ops[0]);
      StepAffects(s, ops[0]);
      RunAffects(t, ops[1..]);
      AffectedBoth(s, EffectOf(s, ops[0]), t, EffectsOf(t, ops[1..]), Run(t, ops[1..]).value);
    }
  }

  /**
   In every run, the action is the last one that a call set (an answer of the consumer, or Stop for a
   rejection or a failure) and Continue before that; the result is the first one offered, by the producer or
   by a failing call; and what was accepted and handed over is what the calls say, in order.
   */
  lemma StreamIsReplay<S, D, R, E>(ops: seq<Op<S, D, R, E>>)
    requires Run<S, D, R, E>(Init(), ops).Some?
    ensures var s := Run(Init(), ops).value;
      var e := EffectsOf(Init(), ops);
      && s.action == LastOr(Continue, e.actions)
      && s.given == (if e.offers == [] then None else Some(HowOf(e.offers[0])))
      && s.result == (if e.offers == [] then NoResult else KindOf(e.offers[0]))
      && s.accepted == e.accepted
      && s.handed == e.handed
  {
    InitInv<S, D, R, E>();
    RunAffects(Init(), ops);
    var s := Run(Init(), ops).value;
    assert [] + EffectsOf(Init(), ops).accepted == s.accepted;
    assert [] + EffectsOf(Init(), ops).handed == s.handed;
  }

  /** An answer other than Continue, a failure and a rejection are what the producer then reads. */
  lemma ActionAfterCall<S, D, R, E>(ops: seq<Op<S, D, R, E>>, op: Op<S, D, R, E>)
    requires Run<S, D, R, E>(Init(), ops).Some?
    requires Enabled(Run(Init(), ops).value, op) && Step(Run(Init(), ops).value, op).Ok?
    ensures var t := Step(Run(Init(), ops).value, op).stream;
      && (op.ConsumerDone? && op.action != Continue ==> t.action == op.action)
      && (op.ConsumerFail? || op.ProducerReject? ==> t.action == Stop)
      && (op.ProducerResolve? ==> t.action == Run(Init(), ops).value.action)
  {
    InitInv<S, D, R, E>();
    RunInv(Init(), ops);
    StepAffects(Run(Init(), ops).value, op);
  }

  /** What the reply that ends a drain leaves as the action. */
  function ActionLeft<E>(reply: Reply<E>): Action {
    match reply
    case Later => Continue
    case Answer(a) => a
    case Fail(_) => Stop
  }

  lemma ActionsAfterContinue<E>(rs: seq<Reply<E>>)
    requires rs != [] && rs[0] == Answer(Continue)
    ensures LastOr(Continue, ActionsOf(rs)) == LastOr(Continue, ActionsOf(rs[1..]))
  {
    LastOfBoth(Continue, [Continue], ActionsOf(rs[1..]));
  }

  lemma ActionsOfOne<E>(reply: Reply<E>)
    ensures LastOr(Continue, ActionsOf([reply])) == ActionLeft(reply)
  {
    assert [reply][1..] == [];
  }

  lemma LastOfTail<T>(s: seq<T>)
    requires |s| > 1
    ensures s[1..][|s[1..]| - 1] == s[|s| - 1]
  {
  }

  /**
   The same inside a drain: each datum but the last is answered Continue, and what the reply to the last one
   says is the action the stream is left with.
   */
  lemma {:induction false} ActionAfterDrain<S, D, E>(consume: (S, D) -> (S, Reply<E>), state: S, data: seq<D>)
    ensures var rs := Replies(consume, state, data);
      && (forall i :: 0 <= i < |rs| - 1 ==> rs[i] == Answer(Continue))
      && (rs != [] ==> LastOr(Continue, ActionsOf(rs)) == ActionLeft(rs[|rs| - 1]))
      && (rs != [] && rs[|rs| - 1] == Answer(Continue) ==> |rs| == |data|)
    decreases |data|
  {
    if data != [] {
      var (next, reply) := consume(state, data[0]);
      var rs := Replies(consume, state, data);
      if reply == Answer(Continue) && data[1..] != [] {
        ActionAfterDrain(consume, next, data[1..]);
        assert rs[1..] == Replies(consume, next, data[1..]);
        ActionsAfterContinue(rs);
        LastOfTail(rs);
      } else {
        assert rs == [reply];
        ActionsOfOne(reply);
      }
    }
  }
}
