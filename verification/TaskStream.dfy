/**
 The pipeline that `task_stream` builds: an upstream stream whose consumer pushes one proxy task per datum
 to the consumer pool, a downstream stream written to by those tasks, and a last task that passes the
 upstream result on.  Any number of threads may run the pending jobs in any order; a datum job takes four
 separately locked steps: it is taken, it writes, it reads the downstream action, and it answers.
 */
module TaskStream {
  import opened Wrappers
  import opened StreamSpec
  import opened StreamRuns

  datatype Task<+D, +R, +E> = Forward(datum: D) | Finish(how: Settlement<R, E>)

  datatype Stage<+E> = Queued | Taken | HasWritten | HasRead(action: Action) | WriteThrew(error: E)

  datatype Job<+D, +R, +E> = Job(task: Task<D, R, E>, stage: Stage<E>)

  datatype Pipe<!S, !D, !R, !E> = Pipe(
    up: Stream<(), D, R, E>,
    down: Stream<S, D, R, E>,
    jobs: seq<Job<D, R, E>>,
    // histories
    writes: seq<D>,                   // downstream write calls
    finishes: seq<Settlement<R, E>>,  // downstream resolve and reject calls
    uncaught: nat                     // exceptions a task let escape
  )

  datatype Move<!S, !D, !R, !E> =
    | Produce                              // the production task binds the upstream consumer
    | Upstream(up: Op<(), D, R, E>)        // the factory's producer writes or gives a result
    | Downstream(down: Op<S, D, R, E>)     // the downstream consumer binds, answers or fails
    | Take(i: nat)
    | RunWrite(i: nat, error: E)           // `error` is what a guard would throw
    | ReadAction(i: nat)
    | Reply(i: nat)
    | RunFinish(i: nat)

  /** The upstream consumer: it pushes a proxy task and returns a promise still to be settled. */
  function PushProxy<D, E>(state: (), datum: D): ((), StreamSpec.Reply<E>) {
    (state, StreamSpec.Reply.Later)
  }

  function Start<S, D, R, E>(): Pipe<S, D, R, E> {
    Pipe(Init(), Init(), [], [], [], 0)
  }

  predicate Finished<S, D, R, E>(s: Stream<S, D, R, E>) {
    s.binding.Some? && s.completions != []
  }

  /** The tasks pushed while the upstream stream went from `p.up` to `up`. */
  function WithUp<S, D, R, E>(p: Pipe<S, D, R, E>, up: Stream<(), D, R, E>): Pipe<S, D, R, E> {
    var added := if |p.up.handed| < |up.handed| then up.handed[|p.up.handed|..] else [];
    var forwards := seq(|added|, i requires 0 <= i < |added| => Job(Forward(added[i]), Queued));
    var finish := if Finished(up) && !Finished(p.up) then [Job(Finish(up.completions[0]), Queued)] else [];
    p.(up := up, jobs := p.jobs + forwards + finish)
  }

  function Remove<T>(s: seq<T>, i: nat): seq<T>
    requires i < |s|
  {
    s[..i] + s[i + 1..]
  }

  predicate JobAt<S, D, R, E>(p: Pipe<S, D, R, E>, i: nat, forward: bool) {
    i < |p.jobs| && p.jobs[i].task.Forward? == forward
  }

  /** One step of some thread, or `None` if no thread can take it. */
  function Next<S, D, R, E>(p: Pipe<S, D, R, E>, m: Move<S, D, R, E>): Option<Pipe<S, D, R, E>> {
    match m
    case Produce =>
      var f: ((), D) -> ((), StreamSpec.Reply<E>) := PushProxy;
      (match Step(p.up, Bind(f, ()))
       case Ok(up) => Some(WithUp(p, up))
       case Threw(_) => None)
    case Upstream(op) =>
      if !op.Write? && !op.ProducerResolve? && !op.ProducerReject? then None
      else
        (match Step(p.up, op)
         case Ok(up) => Some(WithUp(p, up))
         case Threw(_) => None)
    case Downstream(op) =>
      if (!op.Bind? && !op.ConsumerDone? && !op.ConsumerFail?) || !Enabled(p.down, op) then None
      else
        (match Step(p.down, op)
         case Ok(down) => Some(p.(down := down))
         case Threw(_) => None)
    case Take(i) =>
      if i < |p.jobs| && p.jobs[i].stage.Queued? then Some(p.(jobs := p.jobs[i := p.jobs[i].(stage := Taken)]))
      else None
    case RunWrite(i, error) =>
      if !JobAt(p, i, true) || !p.jobs[i].stage.Taken? then None
      else
        var d := p.jobs[i].task.datum;
        (match Step(p.down, Write(d))
         case Ok(down) =>
           Some(p.(down := down, writes := p.writes + [d], jobs := p.jobs[i := p.jobs[i].(stage := HasWritten)]))
         case Threw(down) =>
           Some(p.(down := down, jobs := p.jobs[i := p.jobs[i].(stage := WriteThrew(error))])))
    case ReadAction(i) =>
      if !JobAt(p, i, true) || !p.jobs[i].stage.HasWritten? then None
      else Some(p.(jobs := p.jobs[i := p.jobs[i].(stage := HasRead(p.down.action))]))
    case Reply(i) =>
      if !JobAt(p, i, true) || !(p.jobs[i].stage.HasRead? || p.jobs[i].stage.WriteThrew?) || !p.up.running then None
      else
        var answer: Op<(), D, R, E> :=
          if p.jobs[i].stage.HasRead? then ConsumerDone(p.jobs[i].stage.action)
          else ConsumerFail(p.jobs[i].stage.error);
        var rest := p.(jobs := Remove(p.jobs, i));
        (match Step(p.up, answer)
         case Ok(up) => Some(WithUp(rest, up))
         case Threw(up) => Some(WithUp(rest, up).(uncaught := p.uncaught + 1)))
    case RunFinish(i) =>
      if !JobAt(p, i, false) || !p.jobs[i].stage.Taken? then None
      else
        var how := p.jobs[i].task.how;
        var give: Op<S, D, R, E> := if how.Resolve? then ProducerResolve(how.value) else ProducerReject(how.error);
        var rest := p.(jobs := Remove(p.jobs, i), finishes := p.finishes + [how]);
        (match Step(p.down, give)
         case Ok(down) => Some(rest.(down := down))
         case Threw(down) => Some(rest.(down := down, uncaught := p.uncaught + 1)))
  }

  function Run<S, D, R, E>(moves: seq<Move<S, D, R, E>>): Option<Pipe<S, D, R, E>>
    decreases |moves|
  {
    if moves == [] then Some(Start())
    else
      match Run(moves[..|moves| - 1])
      case None => None
      case Some(p) => Next(p, moves[|moves| - 1])
  }

  // ---------------------------------------------------------------- the invariant

  ghost predicate ProxyBound<D, R, E>(up: Stream<(), D, R, E>) {
    up.binding.Some? ==>
      var f: ((), D) -> ((), StreamSpec.Reply<E>) := PushProxy;
      up.binding.value.consume == f
  }

  /** The datum job in the pipeline is the upstream consumer call in flight, and there is no other job. */
  ghost predicate Forwarding<S, D, R, E>(p: Pipe<S, D, R, E>) {
    && |p.jobs| == 1 && p.jobs[0].task.Forward? && !p.jobs[0].stage.WriteThrew?
    && p.up.running
    && (if p.jobs[0].stage.Queued? || p.jobs[0].stage.Taken? then p.writes + [p.jobs[0].task.datum] else p.writes)
         == p.up.handed
  }

  ghost predicate Finishing<S, D, R, E>(p: Pipe<S, D, R, E>) {
    && |p.jobs| == 1 && p.jobs[0].task.Finish? && (p.jobs[0].stage.Queued? || p.jobs[0].stage.Taken?)
    && Finished(p.up) && p.jobs[0].task.how == p.up.completions[0] && p.finishes == []
    && p.writes == p.up.handed
  }

  ghost predicate Idle<S, D, R, E>(p: Pipe<S, D, R, E>) {
    && p.jobs == [] && !p.up.running && p.writes == p.up.handed
    && p.finishes == (if Finished(p.up) then p.up.completions else [])
  }

  ghost predicate UpPart<S, D, R, E>(p: Pipe<S, D, R, E>) {
    && Inv(p.up)
    && ProxyBound(p.up)
    && !p.up.result.ConsumerFailed?
    && (Idle(p) || (Forwarding(p) && p.finishes == []) || Finishing(p))
    && p.uncaught == 0
  }

  /** The pipeline alone gives the downstream stream its producer result. */
  ghost predicate DownPart<S, D, R, E>(down: Stream<S, D, R, E>, finished: bool) {
    && Inv(down)
    && (!finished ==> !down.result.Resolved? && !down.result.Rejected?)
    && (finished ==> !down.result.NoResult?)
  }

  ghost predicate PipeInv<S, D, R, E>(p: Pipe<S, D, R, E>) {
    UpPart(p) && DownPart(p.down, p.finishes != [])
  }

  /** Something was appended to a history exactly if `grew`, and then one element. */
  ghost predicate Appended<T>(before: seq<T>, after: seq<T>, grew: bool) {
    if grew then |after| == |before| + 1 && before <= after else after == before
  }

  /** How one call moves the upstream stream; only an idle stream can hand anything over. */
  ghost predicate UpMoved<D, R, E>(s: Stream<(), D, R, E>, t: Stream<(), D, R, E>, wasRunning: bool) {
    && Inv(t) && ProxyBound(t) && GrowsInto(s, t) && !t.result.ConsumerFailed?
    && (wasRunning ==> t.running)
    && Appended(s.handed, t.handed, t.running && !wasRunning)
  }

  /** Draining the upstream hands at most one datum over, because its consumer never answers at once. */
  lemma DrainUp<D, R, E>(s: Stream<(), D, R, E>)
    requires Sound(s) && !s.failedSinceWrite && ProxyBound(s) && !s.running && !s.result.ConsumerFailed?
    ensures Drain(s).Ok? && UpMoved(s, Drain(s).stream, false)
  {
    if Attentive(s) && s.action == Continue && s.buffer != [] {
      HandOverSound(s);
      assert Drain(s) == Ok(HandOver(s).0);
    }
    DrainInv(s);
    DrainGrows(s);
  }

  lemma UpWrite<D, R, E>(s: Stream<(), D, R, E>, d: D)
    requires Inv(s) && ProxyBound(s) && !s.result.ConsumerFailed? && Step(s, Op.Write(d)).Ok?
    ensures UpMoved(s, Step(s, Op.Write(d)).stream, s.running)
  {
    StepInv(s, Op.Write(d));
    StepGrows(s, Op.Write(d));
    var u := if s.action == Continue then Accept(s, d) else s;
    if s.action == Continue {
      AcceptSound(s, d);
    }
    if s.running {
      assert Drain(u) == Ok(u);
    } else {
      DrainUp(u);
    }
  }

  lemma UpBind<D, R, E>(s: Stream<(), D, R, E>, op: Op<(), D, R, E>)
    requires Inv(s) && ProxyBound(s) && !s.result.ConsumerFailed? && op.Bind? && Step(s, op).Ok?
    requires var f: ((), D) -> ((), StreamSpec.Reply<E>) := PushProxy; op.consume == f
    ensures UpMoved(s, Step(s, op).stream, s.running)
  {
    StepInv(s, op);
    StepGrows(s, op);
    DrainUp(s.(binding := Some(Binding(op.consume, op.init, op.init))));
  }

  lemma UpDone<D, R, E>(s: Stream<(), D, R, E>, a: Action)
    requires Inv(s) && ProxyBound(s) && !s.result.ConsumerFailed? && s.running
    ensures Step(s, ConsumerDone(a)).Ok? && UpMoved(s, Step(s, ConsumerDone(a)).stream, false)
  {
    UpAnswered(s, a);
    DrainUp(Answered(s, a));
    StepGrows(s, ConsumerDone(a));
    MovedFrom(s, Answered(s, a), Step(s, ConsumerDone(a)).stream);
  }

  /** The upstream between the answer of its consumer call and what the answer leads to. */
  lemma UpAnswered<D, R, E>(s: Stream<(), D, R, E>, a: Action)
    requires Inv(s) && ProxyBound(s) && !s.result.ConsumerFailed? && s.running
    ensures var t := Answered(s, a);
      && Sound(t) && !t.failedSinceWrite && ProxyBound(t) && !t.running && !t.result.ConsumerFailed?
      && t.handed == s.handed
  {
    AnsweredSound(s, a);
  }

  lemma MovedFrom<D, R, E>(s: Stream<(), D, R, E>, t: Stream<(), D, R, E>, u: Stream<(), D, R, E>)
    requires UpMoved(t, u, false) && GrowsInto(s, u) && t.handed == s.handed
    ensures UpMoved(s, u, false)
  {
  }

  lemma UpResult<D, R, E>(s: Stream<(), D, R, E>, op: Op<(), D, R, E>)
    requires Inv(s) && ProxyBound(s) && !s.result.ConsumerFailed?
    requires (op.ProducerResolve? || op.ProducerReject?) && Step(s, op).Ok?
    ensures UpMoved(s, Step(s, op).stream, s.running)
  {
    if op.ProducerResolve? {
      ResultMoves(s, s, Resolved, Resolve(op.value));
    } else {
      ResultMoves(s, s.(action := Stop), Rejected, Reject(op.error));
    }
    StepGrows(s, op);
    MovedSame(s, Step(s, op).stream);
  }

  /** A stream that has got a result, `t` perhaps with the action changed before. */
  lemma ResultMoves<D, R, E>(s: Stream<(), D, R, E>, t: Stream<(), D, R, E>, kind: ResultKind, how: Settlement<R, E>)
    requires Inv(s) && ProxyBound(s) && !s.result.ConsumerFailed? && (t == s || t == s.(action := Stop))
    requires GiveResult(t, kind, how).Ok?
    requires (kind.Resolved? && how.Resolve?) || (kind.Rejected? && how.Reject?)
    ensures var u := GiveResult(t, kind, how).stream;
      Inv(u) && ProxyBound(u) && u.handed == s.handed && u.running == s.running && !u.result.ConsumerFailed?
  {
    GiveResultFrame(t, kind, how);
    GiveResultInv(t, kind, how);
  }

  lemma MovedSame<D, R, E>(s: Stream<(), D, R, E>, u: Stream<(), D, R, E>)
    requires Inv(u) && ProxyBound(u) && GrowsInto(s, u) && !u.result.ConsumerFailed?
    requires u.handed == s.handed && u.running == s.running
    ensures UpMoved(s, u, s.running)
  {
  }

  /** The jobs after an upstream call, when none was pending for it to conflict with. */
  lemma PushedAfter<S, D, R, E>(p: Pipe<S, D, R, E>, up: Stream<(), D, R, E>)
    requires Inv(p.up) && p.uncaught == 0
    requires UpMoved(p.up, up, false) && p.jobs == [] && p.writes == p.up.handed
    requires p.finishes == (if Finished(p.up) then p.up.completions else [])
    ensures UpPart(WithUp(p, up))
  {
    var q := WithUp(p, up);
    if up.running {
      assert up.handed[|p.up.handed|..] == [up.handed[|p.up.handed|]];
      assert q.jobs == [Job(Forward(up.handed[|p.up.handed|]), Queued)];
      assert Forwarding(q);
    } else if Finished(up) && !Finished(p.up) {
      assert q.jobs == [Job(Finish(up.completions[0]), Queued)];
      assert Finishing(q);
    } else {
      assert q.jobs == [];
      assert Idle(q);
    }
  }

  /** An upstream call that answers no consumer call. */
  lemma UpstreamKeeps<S, D, R, E>(p: Pipe<S, D, R, E>, up: Stream<(), D, R, E>)
    requires UpPart(p) && UpMoved(p.up, up, p.up.running)
    ensures UpPart(WithUp(p, up))
  {
    if Idle(p) {
      PushedAfter(p, up);
    } else {
      assert WithUp(p, up).jobs == p.jobs;
    }
  }

  /** A job can answer only while it is the one job, forwarding, and has read the downstream action. */
  lemma ReplyReady<S, D, R, E>(p: Pipe<S, D, R, E>, i: nat)
    requires UpPart(p) && Next(p, Reply(i)).Some?
    ensures p.jobs[i].stage.HasRead? && p.jobs == [p.jobs[i]]
    ensures UpBusy(p)
  {
  }

  /** The upstream consumer call is in flight and its datum has been written downstream. */
  ghost predicate UpBusy<S, D, R, E>(p: Pipe<S, D, R, E>) {
    && Inv(p.up) && ProxyBound(p.up) && !p.up.result.ConsumerFailed?
    && p.up.running && !Finished(p.up)
    && p.writes == p.up.handed && p.finishes == [] && p.uncaught == 0
  }

  /** Only the one datum job can answer, and its answer cannot throw. */
  lemma ReplyIs<S, D, R, E>(p: Pipe<S, D, R, E>, i: nat)
    requires UpPart(p) && Next(p, Reply(i)).Some?
    ensures p.jobs[i].stage.HasRead? && p.jobs == [p.jobs[i]] && UpBusy(p)
    ensures Step(p.up, ConsumerDone(p.jobs[i].stage.action)).Ok?
    ensures Next(p, Reply(i)) == Some(WithUp(p.(jobs := []), Step(p.up, ConsumerDone(p.jobs[i].stage.action)).stream))
  {
    ReplyReady(p, i);
    UpDone(p.up, p.jobs[i].stage.action);
    assert Remove(p.jobs, i) == [];
  }

  lemma AnswerKeeps<S, D, R, E>(p: Pipe<S, D, R, E>, a: Action)
    requires UpBusy(p)
    ensures var q := WithUp(p.(jobs := []), Step(p.up, ConsumerDone(a)).stream);
      UpPart(q) && q.down == p.down && q.finishes == p.finishes
  {
    UpDone(p.up, a);
    PushedAfter(p.(jobs := []), Step(p.up, ConsumerDone(a)).stream);
  }

  lemma ReplyKeeps<S, D, R, E>(p: Pipe<S, D, R, E>, i: nat)
    requires UpPart(p) && Next(p, Reply(i)).Some?
    ensures UpPart(Next(p, Reply(i)).value) && Next(p, Reply(i)).value.down == p.down
    ensures Next(p, Reply(i)).value.finishes == p.finishes
  {
    ReplyIs(p, i);
    AnswerKeeps(p, p.jobs[i].stage.action);
  }

  /** The downstream stream has no result from the pipeline yet, so the write cannot throw. */
  lemma WriteKeeps<S, D, R, E>(p: Pipe<S, D, R, E>, i: nat, error: E)
    requires PipeInv(p) && Next(p, RunWrite(i, error)).Some?
    ensures PipeInv(Next(p, RunWrite(i, error)).value)
  {
    var d := p.jobs[i].task.datum;
    WriteUnderContract(p.down, d);
    var q := Next(p, RunWrite(i, error)).value;
    assert q.jobs == [Job(Forward(d), HasWritten)];
    assert Forwarding(q);
  }

  lemma {:induction false} DrainKeepsResult<S, D, R, E>(s: Stream<S, D, R, E>)
    requires Drain(s).Ok? && (s.result.NoResult? || s.result.ConsumerFailed?)
    ensures Drain(s).stream.result.NoResult? || Drain(s).stream.result.ConsumerFailed?
    decreases |s.buffer|
  {
    if Attentive(s) && s.action == Continue && s.buffer != [] {
      var (t, reply) := HandOver(s);
      if reply.Answer? {
        DrainKeepsResult(Answered(t, reply.action));
      }
    }
  }

  /** A drain of a stream without result never throws: the consumer may still fail and decide it. */
  lemma {:induction false} DrainWithoutResult<S, D, R, E>(s: Stream<S, D, R, E>)
    requires s.result.NoResult?
    ensures Drain(s).Ok?
    decreases |s.buffer|
  {
    if Attentive(s) && s.action == Continue && s.buffer != [] {
      var (t, reply) := HandOver(s);
      if reply.Answer? {
        DrainWithoutResult(Answered(t, reply.action));
      }
    }
  }

  lemma WriteUnderContract<S, D, R, E>(s: Stream<S, D, R, E>, d: D)
    requires DownPart(s, false)
    ensures Step(s, Op.Write(d)).Ok? && DownPart(Step(s, Op.Write(d)).stream, false)
  {
    if s.action == Continue {
      AcceptSound(s, d);
      DrainWithoutResult(Accept(s, d));
      DrainKeepsResult(Accept(s, d));
    } else {
      DrainKeepsResult(s.(failedSinceWrite := false));
    }
    StepInv(s, Op.Write(d));
  }

  /** Nothing the downstream consumer does gives the producer's result or takes it back. */
  lemma DownCall<S, D, R, E>(s: Stream<S, D, R, E>, op: Op<S, D, R, E>, finished: bool)
    requires DownPart(s, finished) && (op.Bind? || op.ConsumerDone? || op.ConsumerFail?)
    requires Enabled(s, op) && Step(s, op).Ok?
    ensures DownPart(Step(s, op).stream, finished)
  {
    StepInv(s, op);
    if finished {
      StepGrows(s, op);
    } else {
      match op
      case Bind(f, init) => DrainKeepsResult(s.(binding := Some(Binding(f, init, init))));
      case ConsumerDone(a) => DrainKeepsResult(Answered(s, a));
      case _ =>
    }
  }

  lemma DownFinish<S, D, R, E>(s: Stream<S, D, R, E>, op: Op<S, D, R, E>)
    requires DownPart(s, false) && (op.ProducerResolve? || op.ProducerReject?)
    ensures Step(s, op).Ok? && DownPart(Step(s, op).stream, true)
  {
    StepInv(s, op);
  }

  /** The finishing job is the one job, and passes on the upstream's settlement. */
  lemma FinishReady<S, D, R, E>(p: Pipe<S, D, R, E>, i: nat)
    requires UpPart(p) && Next(p, RunFinish(i)).Some?
    ensures p.jobs == [p.jobs[i]] && Remove(p.jobs, i) == []
    ensures UpDoneWith(p, p.jobs[i].task.how)
  {
    assert Remove(p.jobs, i) == [];
  }

  /** The upstream has settled with `how`, and everything it handed over has been written downstream. */
  ghost predicate UpDoneWith<S, D, R, E>(p: Pipe<S, D, R, E>, how: Settlement<R, E>) {
    && Inv(p.up) && ProxyBound(p.up) && !p.up.result.ConsumerFailed? && !p.up.running
    && Finished(p.up) && p.up.completions == [how]
    && p.writes == p.up.handed && p.finishes == [] && p.uncaught == 0
  }

  lemma FinishIdles<S, D, R, E>(p: Pipe<S, D, R, E>, how: Settlement<R, E>, down: Stream<S, D, R, E>)
    requires UpDoneWith(p, how)
    ensures UpPart(p.(jobs := [], finishes := [how], down := down))
  {
    assert Idle(p.(jobs := [], finishes := [how], down := down));
  }

  lemma FinishKeeps<S, D, R, E>(p: Pipe<S, D, R, E>, i: nat)
    requires PipeInv(p) && Next(p, RunFinish(i)).Some?
    ensures PipeInv(Next(p, RunFinish(i)).value)
  {
    var how := p.jobs[i].task.how;
    var op: Op<S, D, R, E> := if how.Resolve? then ProducerResolve(how.value) else ProducerReject(how.error);
    FinishReady(p, i);
    DownFinish(p.down, op);
    FinishIdles(p, how, Step(p.down, op).stream);
    assert Next(p, RunFinish(i)).value == p.(jobs := [], finishes := [how], down := Step(p.down, op).stream);
  }

  lemma StageKeeps<S, D, R, E>(p: Pipe<S, D, R, E>, m: Move<S, D, R, E>)
    requires UpPart(p) && (m.Take? || m.ReadAction?) && Next(p, m).Some?
    ensures UpPart(Next(p, m).value)
  {
    var q := Next(p, m).value;
    assert q.jobs == [Job(p.jobs[0].task, q.jobs[0].stage)];
    assert Forwarding(p) ==> Forwarding(q);
  }

  lemma NextKeeps<S, D, R, E>(p: Pipe<S, D, R, E>, m: Move<S, D, R, E>)
    requires PipeInv(p) && Next(p, m).Some?
    ensures PipeInv(Next(p, m).value)
  {
    match m
    case Produce =>
      var f: ((), D) -> ((), StreamSpec.Reply<E>) := PushProxy;
      UpBind(p.up, Bind(f, ()));
      UpstreamKeeps(p, Step(p.up, Bind(f, ())).stream);
    case Upstream(op) =>
      if op.Write? {
        UpWrite(p.up, op.datum);
      } else {
        UpResult(p.up, op);
      }
      UpstreamKeeps(p, Step(p.up, op).stream);
    case Downstream(op) => DownCall(p.down, op, p.finishes != []);
    case RunWrite(i, error) => WriteKeeps(p, i, error);
    case Reply(i) => ReplyKeeps(p, i);
    case RunFinish(i) => FinishKeeps(p, i);
    case _ => StageKeeps(p, m);
  }

  lemma {:induction false} RunKeeps<S, D, R, E>(moves: seq<Move<S, D, R, E>>)
    requires Run(moves).Some?
    ensures PipeInv(Run(moves).value)
    decreases |moves|
  {
    if moves != [] {
      RunKeeps(moves[..|moves| - 1]);
      NextKeeps(Run(moves[..|moves| - 1]).value, moves[|moves| - 1]);
    }
  }

  // ---------------------------------------------------------------- theorems

  /**
   Order.  Under every schedule the downstream writes are the data handed over upstream, in order and each
   at most once, so a prefix of what upstream accepted; at most one result is passed on, and only after
   everything accepted upstream has been forwarded or discarded; at most one job exists at a time; no task
   lets an exception escape.
   */
  lemma PipelineOrder<S, D, R, E>(moves: seq<Move<S, D, R, E>>)
    requires Run(moves).Some?
    ensures var p := Run(moves).value;
      && p.writes <= p.up.accepted
      && |p.jobs| <= 1
      && |p.finishes| <= 1
      && (p.finishes != [] ==> p.up.accepted == p.writes + p.up.discarded && p.up.given == Some(p.finishes[0]))
      && p.uncaught == 0
  {
    RunKeeps(moves);
    var p := Run(moves).value;
    assert p.writes <= p.up.handed <= p.up.accepted;
  }

  /**
   No result is lost: once the upstream is bound and has a result, an empty job list means that this
   result has been passed on and the downstream stream has a result.
   */
  lemma NothingIsLost<S, D, R, E>(moves: seq<Move<S, D, R, E>>)
    ensures Run(moves).Some? ==>
      var p := Run(moves).value;
      p.jobs == [] && p.up.binding.Some? && !p.up.result.NoResult? ==>
        && p.up.given.Some? && p.finishes == [p.up.given.value]
        && p.up.accepted == p.writes + p.up.discarded
        && !p.down.result.NoResult?
  {
    if Run(moves).Some? {
      RunKeeps(moves);
    }
  }

  /** A move of a run in which nobody rejects, fails, discards or stops. */
  ghost predicate SteadyMove<S(!new), D(!new), R, E>(m: Move<S, D, R, E>) {
    match m
    case Upstream(op) => Steady(op)
    case Downstream(op) => Steady(op)
    case _ => true
  }

  /** What the producer wrote upstream. */
  function Sent<S, D, R, E>(moves: seq<Move<S, D, R, E>>): seq<D> {
    if moves == [] then []
    else
      var before, m := Sent(moves[..|moves| - 1]), moves[|moves| - 1];
      if m.Upstream? && m.up.Write? then before + [m.up.datum] else before
  }

  ghost predicate SteadyParts<S(!new), D(!new), R, E>(p: Pipe<S, D, R, E>, sent: seq<D>) {
    && SteadyStream(p.up) && SteadyStream(p.down)
    && p.down.accepted == p.writes
    && p.up.accepted == sent
    && (p.finishes != [] ==> p.down.given == Some(p.finishes[0]))
    && (forall job | job in p.jobs :: job.stage.HasRead? ==> job.stage.action == Continue)
  }

  ghost predicate SteadyPipe<S(!new), D(!new), R, E>(p: Pipe<S, D, R, E>, sent: seq<D>) {
    PipeInv(p) && SteadyParts(p, sent)
  }

  lemma PushedAreQueued<S, D, R, E>(p: Pipe<S, D, R, E>, up: Stream<(), D, R, E>)
    ensures forall job | job in WithUp(p, up).jobs :: job in p.jobs || job.stage.Queued?
  {}

  lemma SteadyUp<S(!new), D(!new), R, E>(p: Pipe<S, D, R, E>, sent: seq<D>, op: Op<(), D, R, E>)
    requires Inv(p.up) && SteadyParts(p, sent) && Steady(op) && Enabled(p.up, op) && Step(p.up, op).Ok?
    ensures SteadyParts(WithUp(p, Step(p.up, op).stream), if op.Write? then sent + [op.datum] else sent)
  {
    SteadyStep(p.up, op);
    PushedAreQueued(p, Step(p.up, op).stream);
  }

  /** The answer a job has read is the steady downstream's. */
  lemma SteadyReplied<S(!new), D(!new), R, E>(p: Pipe<S, D, R, E>, sent: seq<D>, i: nat, q: Pipe<S, D, R, E>)
    requires Inv(p.up) && p.up.running && SteadyParts(p, sent) && i < |p.jobs| && p.jobs[i].stage.HasRead?
    requires Step(p.up, ConsumerDone(p.jobs[i].stage.action)).Ok?
    requires q == WithUp(p.(jobs := []), Step(p.up, ConsumerDone(p.jobs[i].stage.action)).stream)
    ensures SteadyParts(q, sent)
  {
    assert p.jobs[i] in p.jobs;
    SteadyUp(p.(jobs := []), sent, ConsumerDone(p.jobs[i].stage.action));
  }

  lemma SteadyAnswer<S(!new), D(!new), R, E>(p: Pipe<S, D, R, E>, sent: seq<D>, i: nat)
    requires UpPart(p) && SteadyParts(p, sent) && Next(p, Reply(i)).Some?
    ensures SteadyParts(Next(p, Reply(i)).value, sent)
  {
    ReplyIs(p, i);
    SteadyReplied(p, sent, i, Next(p, Reply(i)).value);
  }

  lemma SteadyDown<S(!new), D(!new), R, E>(p: Pipe<S, D, R, E>, sent: seq<D>, op: Op<S, D, R, E>)
    requires SteadyPipe(p, sent) && Steady(op) && Next(p, Downstream(op)).Some?
    ensures SteadyParts(Next(p, Downstream(op)).value, sent)
  {
    SteadyStep(p.down, op);
  }

  lemma SteadyWrite<S(!new), D(!new), R, E>(p: Pipe<S, D, R, E>, sent: seq<D>, i: nat, error: E)
    requires SteadyPipe(p, sent) && Next(p, RunWrite(i, error)).Some?
    ensures SteadyParts(Next(p, RunWrite(i, error)).value, sent)
  {
    var d := p.jobs[i].task.datum;
    WriteUnderContract(p.down, d);
    SteadyStep(p.down, Op.Write(d));
    assert Next(p, RunWrite(i, error)).value.jobs == [Job(Forward(d), HasWritten)];
  }

  lemma SteadyFinish<S(!new), D(!new), R, E>(p: Pipe<S, D, R, E>, sent: seq<D>, i: nat)
    requires SteadyPipe(p, sent) && Next(p, RunFinish(i)).Some?
    ensures SteadyParts(Next(p, RunFinish(i)).value, sent)
  {
    var how := p.jobs[i].task.how;
    assert how == p.up.given.value && how.Resolve?;
    var op: Op<S, D, R, E> := ProducerResolve(how.value);
    DownFinish(p.down, op);
    SteadyStep(p.down, op);
    assert Remove(p.jobs, i) == [];
  }

  /** Steps that change nothing but the stage of one job. */
  lemma SteadyStage<S(!new), D(!new), R, E>(p: Pipe<S, D, R, E>, sent: seq<D>, m: Move<S, D, R, E>)
    requires SteadyPipe(p, sent) && (m.Take? || m.ReadAction?) && Next(p, m).Some?
    ensures SteadyParts(Next(p, m).value, sent)
  {
    var q := Next(p, m).value;
    assert q.jobs == [Job(p.jobs[0].task, q.jobs[0].stage)];
  }

  lemma SteadyNext<S(!new), D(!new), R, E>(p: Pipe<S, D, R, E>, sent: seq<D>, m: Move<S, D, R, E>)
    requires SteadyPipe(p, sent) && SteadyMove(m) && Next(p, m).Some?
    ensures SteadyParts(Next(p, m).value, if m.Upstream? && m.up.Write? then sent + [m.up.datum] else sent)
  {
    match m
    case Produce =>
      var f: ((), D) -> ((), StreamSpec.Reply<E>) := PushProxy;
      SteadyUp(p, sent, Bind(f, ()));
    case Upstream(op) => SteadyUp(p, sent, op);
    case Downstream(op) => SteadyDown(p, sent, op);
    case RunWrite(i, error) => SteadyWrite(p, sent, i, error);
    case Reply(i) =>
      SteadyAnswer(p, sent, i);
    case RunFinish(i) => SteadyFinish(p, sent, i);
    case _ => SteadyStage(p, sent, m);
  }

  /** Nobody rejects, fails, discards or stops. */
  ghost predicate SteadyMoves<S(!new), D(!new), R, E>(moves: seq<Move<S, D, R, E>>) {
    forall m | m in moves :: SteadyMove(m)
  }

  lemma {:induction false} SteadyRun<S(!new), D(!new), R, E>(moves: seq<Move<S, D, R, E>>)
    ensures SteadyMoves(moves) && Run(moves).Some? ==> SteadyPipe(Run(moves).value, Sent(moves))
    decreases |moves|
  {
    if moves != [] && SteadyMoves(moves) && Run(moves).Some? {
      SteadyRun(moves[..|moves| - 1]);
      NextKeeps(Run(moves[..|moves| - 1]).value, moves[|moves| - 1]);
      SteadyNext(Run(moves[..|moves| - 1]).value, Sent(moves[..|moves| - 1]), moves[|moves| - 1]);
    }
  }

  /**
   End to end, a pipeline is a fold.  When nobody rejects, fails, discards or stops, then as soon as the
   upstream has been bound and resolved, no job is pending, and a bound downstream consumer is idle, the
   downstream promise has settled with the upstream value and the downstream consumer has been fed exactly
   the data written upstream, in order.
   */
  lemma PipelineIsFold<S(!new), D(!new), R, E>(moves: seq<Move<S, D, R, E>>)
    ensures SteadyMoves(moves) && Run(moves).Some? ==>
      var p := Run(moves).value;
      p.up.binding.Some? && p.up.given.Some? && p.jobs == [] && p.down.binding.Some? && !p.down.running ==>
        && p.down.completions == [p.up.given.value]
        && p.down.handed == Sent(moves)
        && p.down.binding.value.state == Fold(p.down.binding.value.consume, p.down.binding.value.init, Sent(moves))
  {
    if Run(moves).Some? {
      SteadyRun(moves);
      NothingIsLost(moves);
    }
  }
}
