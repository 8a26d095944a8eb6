/**
 What a pipeline passes on in both directions, under every schedule and however its consumer answers: the data
 and the result downstream, the action of the downstream consumer upstream.
 */
module TaskStreamRuns {
  import opened Wrappers
  import opened StreamSpec
  import StreamRuns
  import opened StreamReplay
  import opened TaskStream

  // ---------------------------------------------------------------- upstream: the action

  /** The downstream action at the time the last datum job read it. */
  function LastRead<S, D, R, E>(moves: seq<Move<S, D, R, E>>): Option<Action> {
    if moves == [] then None
    else
      var before, m := moves[..|moves| - 1], moves[|moves| - 1];
      if m.ReadAction? && Run(before).Some? then Some(Run(before).value.down.action) else LastRead(before)
  }

  /** What a job answers with is what was read last. */
  ghost predicate ReadsAre<S, D, R, E>(p: Pipe<S, D, R, E>, read: Option<Action>) {
    forall job | job in p.jobs :: job.stage.HasRead? ==> read == Some(job.stage.action)
  }

  lemma ReadsAfterUp<S, D, R, E>(p: Pipe<S, D, R, E>, up: Stream<(), D, R, E>, read: Option<Action>)
    requires ReadsAre(p, read)
    ensures ReadsAre(WithUp(p, up), read)
  {
    PushedAreQueued(p, up);
  }

  lemma ReadsAfterReply<S, D, R, E>(p: Pipe<S, D, R, E>, i: nat, read: Option<Action>)
    requires UpPart(p) && ReadsAre(p, read) && Next(p, Move.Reply(i)).Some?
    ensures ReadsAre(Next(p, Move.Reply(i)).value, read)
  {
    ReplyIs(p, i);
    ReadsAfterUp(p.(jobs := []), Next(p, Move.Reply(i)).value.up, read);
  }

  lemma ReadsAfterStage<S, D, R, E>(p: Pipe<S, D, R, E>, m: Move<S, D, R, E>, read: Option<Action>)
    requires |p.jobs| == 1 && ReadsAre(p, read) && Next(p, m).Some?
    requires m.Take? || m.RunWrite? || m.ReadAction? || m.RunFinish?
    ensures ReadsAre(Next(p, m).value, if m.ReadAction? then Some(p.down.action) else read)
  {
    var q := Next(p, m).value;
    if !m.RunFinish? {
      assert q.jobs == [Job(p.jobs[0].task, q.jobs[0].stage)];
    }
  }

  lemma ReadsAfterCall<S, D, R, E>(p: Pipe<S, D, R, E>, m: Move<S, D, R, E>, read: Option<Action>)
    requires ReadsAre(p, read) && Next(p, m).Some? && (m.Produce? || m.Upstream? || m.Downstream?)
    ensures ReadsAre(Next(p, m).value, read)
  {
    ReadsAfterUp(p, Next(p, m).value.up, read);
  }

  lemma ReadsAfter<S, D, R, E>(p: Pipe<S, D, R, E>, m: Move<S, D, R, E>, read: Option<Action>)
    requires UpPart(p) && ReadsAre(p, read) && Next(p, m).Some?
    ensures ReadsAre(Next(p, m).value, if m.ReadAction? then Some(p.down.action) else read)
  {
    match m
    case Produce => ReadsAfterCall(p, m, read);
    case Upstream(_) => ReadsAfterCall(p, m, read);
    case Downstream(_) => ReadsAfterCall(p, m, read);
    case Reply(i) => ReadsAfterReply(p, i, read);
    case _ => ReadsAfterStage(p, m, read);
  }

  lemma {:induction false} RunReads<S, D, R, E>(moves: seq<Move<S, D, R, E>>)
    requires Run(moves).Some?
    ensures ReadsAre(Run(moves).value, LastRead(moves))
    decreases |moves|
  {
    if moves != [] {
      var before, m := moves[..|moves| - 1], moves[|moves| - 1];
      RunReads(before);
      RunKeeps(before);
      ReadsAfter(Run(before).value, m, LastRead(before));
    }
  }

  /** The upstream after an answer: the answer is its action, and any but Continue ends the hand-over. */
  lemma UpstreamAnswered<D, R, E>(s: Stream<(), D, R, E>, a: Action)
    requires Inv(s) && ProxyBound(s) && s.running && Step(s, ConsumerDone(a)).Ok?
    ensures var t := Step(s, ConsumerDone(a)).stream;
      t.action == a && (a != Continue ==> t.handed == s.handed && t.ended)
  {
    StepAffects(s, ConsumerDone(a));
    if a == Continue && s.buffer != [] {
      var b := s.binding.value;
      FeedingUnfolds<(), D, R, E>(b.consume, b.state, s.buffer);
      assert [StreamSpec.Reply<E>.Later][1..] == [];
      assert ActionsOf([StreamSpec.Reply<E>.Later]) == [];
    } else if a != Continue {
      assert Drain(Answered(s, a)).Ok?;
    }
  }

  lemma ReplyActs<S, D, R, E>(p: Pipe<S, D, R, E>, i: nat)
    requires UpPart(p) && Next(p, Move.Reply(i)).Some?
    ensures p.jobs[i].stage == HasRead(Next(p, Move.Reply(i)).value.up.action)
  {
    ReplyIs(p, i);
    UpstreamAnswered(p.up, p.jobs[i].stage.action);
  }

  lemma JobRead<S, D, R, E>(p: Pipe<S, D, R, E>, read: Option<Action>, i: nat, a: Action)
    requires ReadsAre(p, read) && i < |p.jobs| && p.jobs[i].stage == HasRead(a)
    ensures read == Some(a)
  {
    assert p.jobs[i] in p.jobs;
  }

  /**
   The action a datum job answers with is the one the downstream stream had when the job read it, and it is
   the action of the upstream stream afterwards.
   */
  lemma ActionGoesUpstream<S, D, R, E>(moves: seq<Move<S, D, R, E>>, i: nat)
    requires Run(moves).Some? && Next(Run(moves).value, Move.Reply(i)).Some?
    ensures LastRead(moves) == Some(Next(Run(moves).value, Move.Reply(i)).value.up.action)
  {
    var p := Run(moves).value;
    RunKeeps(moves);
    RunReads(moves);
    ReplyActs(p, i);
    JobRead(p, LastRead(moves), i, Next(p, Move.Reply(i)).value.up.action);
  }

  // ---------------------------------------------------------------- upstream: the end of the hand-over

  /** How much upstream may still hand over once the downstream consumer wants no more. */
  function Left<S, D, R, E>(p: Pipe<S, D, R, E>): nat {
    if p.up.ended || (p.jobs != [] && p.jobs[0].task.Forward? && p.jobs[0].stage != HasRead(Continue)) then 0 else 1
  }

  /** The hand-over is as far as it may get. */
  ghost predicate Within<S, D, R, E>(p: Pipe<S, D, R, E>, q: Pipe<S, D, R, E>) {
    q.down.ended && |q.up.handed| + Left(q) <= |p.up.handed| + Left(p)
  }

  lemma PushedWithin<S, D, R, E>(p: Pipe<S, D, R, E>, up: Stream<(), D, R, E>)
    requires p.down.ended && p.jobs == [] && UpMoved(p.up, up, false)
    ensures Within(p, WithUp(p, up))
  {
    if up.running {
      assert up.handed[|p.up.handed|..] == [up.handed[|p.up.handed|]];
    }
  }

  lemma UpstreamWithin<S, D, R, E>(p: Pipe<S, D, R, E>, up: Stream<(), D, R, E>)
    requires UpPart(p) && p.down.ended && UpMoved(p.up, up, p.up.running)
    ensures Within(p, WithUp(p, up))
  {
    if Idle(p) {
      PushedWithin(p, up);
    } else {
      assert WithUp(p, up).jobs == p.jobs && up.handed == p.up.handed;
    }
  }

  /** The one datum job answers with what it has read. */
  ghost predicate RepliedBy<S, D, R, E>(p: Pipe<S, D, R, E>, job: Job<D, R, E>, q: Pipe<S, D, R, E>) {
    && UpBusy(p) && p.jobs == [job] && job.stage.HasRead?
    && q == WithUp(p.(jobs := []), Step(p.up, ConsumerDone(job.stage.action)).stream)
  }

  lemma ReplyDone<S, D, R, E>(p: Pipe<S, D, R, E>, i: nat)
    requires UpPart(p) && Next(p, Move.Reply(i)).Some?
    ensures i < |p.jobs| && RepliedBy(p, p.jobs[i], Next(p, Move.Reply(i)).value)
  {
    ReplyIs(p, i);
  }

  lemma RepliedWithin<S, D, R, E>(p: Pipe<S, D, R, E>, job: Job<D, R, E>, q: Pipe<S, D, R, E>)
    requires p.down.ended && RepliedBy(p, job, q)
    ensures Within(p, q)
  {
    var a := job.stage.action;
    UpDone(p.up, a);
    UpstreamAnswered(p.up, a);
    if a == Continue {
      PushedWithin(p.(jobs := []), Step(p.up, ConsumerDone(a)).stream);
    }
  }

  lemma ReplyWithin<S, D, R, E>(p: Pipe<S, D, R, E>, i: nat)
    requires UpPart(p) && p.down.ended && Next(p, Move.Reply(i)).Some?
    ensures Within(p, Next(p, Move.Reply(i)).value)
  {
    ReplyDone(p, i);
    RepliedWithin(p, p.jobs[i], Next(p, Move.Reply(i)).value);
  }

  lemma StaysEnded<S, D, R, E>(s: Stream<S, D, R, E>, op: Op<S, D, R, E>)
    requires Inv(s) && s.ended && Enabled(s, op) && Step(s, op).Ok?
    ensures Step(s, op).stream.ended
  {
    StreamRuns.StepGrows(s, op);
  }

  lemma WriteReady<S, D, R, E>(p: Pipe<S, D, R, E>, i: nat, error: E)
    requires UpPart(p) && Next(p, RunWrite(i, error)).Some?
    ensures i < |p.jobs| && p.jobs == [p.jobs[i]] && p.jobs[i].task.Forward? && p.jobs[i].stage == Taken
    ensures p.up.handed == p.writes + [p.jobs[i].task.datum] && p.finishes == []
  {
  }

  /** The one datum job writes what upstream handed over last. */
  ghost predicate WrittenBy<S, D, R, E>(p: Pipe<S, D, R, E>, job: Job<D, R, E>, q: Pipe<S, D, R, E>) {
    && p.jobs == [job] && job.task.Forward? && job.stage == Taken && p.finishes == []
    && p.up.handed == p.writes + [job.task.datum]
    && Step(p.down, Op.Write(job.task.datum)) == StreamSpec.Outcome.Ok(q.down)
    && q == p.(down := q.down, writes := p.writes + [job.task.datum], jobs := [Job(job.task, HasWritten)])
  }

  lemma WriteIs<S, D, R, E>(p: Pipe<S, D, R, E>, i: nat, error: E)
    requires PipeInv(p) && Next(p, RunWrite(i, error)).Some?
    ensures i < |p.jobs| && WrittenBy(p, p.jobs[i], Next(p, RunWrite(i, error)).value)
  {
    WriteReady(p, i, error);
    WriteUnderContract(p.down, p.jobs[i].task.datum);
    assert p.jobs[i := p.jobs[i].(stage := HasWritten)] == [Job(p.jobs[i].task, HasWritten)];
  }

  lemma WriteWithin<S, D, R, E>(p: Pipe<S, D, R, E>, i: nat, error: E)
    requires PipeInv(p) && p.down.ended && Next(p, RunWrite(i, error)).Some?
    ensures Within(p, Next(p, RunWrite(i, error)).value)
  {
    WriteIs(p, i, error);
    WrittenWithin(p, p.jobs[i], Next(p, RunWrite(i, error)).value);
  }

  lemma WrittenWithin<S, D, R, E>(p: Pipe<S, D, R, E>, job: Job<D, R, E>, q: Pipe<S, D, R, E>)
    requires Inv(p.down) && p.down.ended && WrittenBy(p, job, q)
    ensures Within(p, q)
  {
    StaysEnded(p.down, Op.Write(job.task.datum));
  }

  /** The call that gives downstream the upstream result. */
  function PassOn<S, D, R, E>(how: Settlement<R, E>): (op: Op<S, D, R, E>)
    ensures op.ProducerResolve? || op.ProducerReject?
  {
    if how.Resolve? then ProducerResolve(how.value) else ProducerReject(how.error)
  }

  /** The result passed on is the one the upstream was given. */
  lemma GivenIs<S, D, R, E>(p: Pipe<S, D, R, E>, how: Settlement<R, E>)
    requires UpDoneWith(p, how)
    ensures p.up.given == Some(how)
  {
  }

  /** Passing on moves no datum and ends nothing, and the result is there unless the consumer has failed. */
  lemma Gives<S, D, R, E>(s: Stream<S, D, R, E>, how: Settlement<R, E>)
    requires Step(s, PassOn(how)).Ok?
    ensures var t := Step(s, PassOn(how)).stream;
      t.accepted == s.accepted && t.ended == s.ended && (t.result.ConsumerFailed? || t.given == Some(how))
  {
    if how.Resolve? {
      GiveResultFrame(s, Resolved, how);
    } else {
      GiveResultFrame(s.(action := Stop), Rejected, how);
    }
  }

  lemma CanPassOn<S, D, R, E>(s: Stream<S, D, R, E>, how: Settlement<R, E>)
    requires !s.result.Resolved? && !s.result.Rejected?
    ensures Step(s, PassOn(how)).Ok?
  {
  }

  /** The last job passes the upstream result on. */
  ghost predicate FinishedBy<S, D, R, E>(p: Pipe<S, D, R, E>, job: Job<D, R, E>, q: Pipe<S, D, R, E>) {
    && p.jobs == [job] && job.task.Finish? && p.up.given == Some(job.task.how) && p.finishes == []
    && Step(p.down, PassOn(job.task.how)) == StreamSpec.Outcome.Ok(q.down)
    && q == p.(jobs := [], finishes := [job.task.how], down := q.down)
  }

  lemma FinishIs<S, D, R, E>(p: Pipe<S, D, R, E>, i: nat)
    requires PipeInv(p) && Next(p, RunFinish(i)).Some?
    ensures i < |p.jobs| && FinishedBy(p, p.jobs[i], Next(p, RunFinish(i)).value)
  {
    FinishReady(p, i);
    GivenIs(p, p.jobs[i].task.how);
    CanPassOn(p.down, p.jobs[i].task.how);
  }

  lemma FinishedWithin<S, D, R, E>(p: Pipe<S, D, R, E>, job: Job<D, R, E>, q: Pipe<S, D, R, E>)
    requires p.down.ended && FinishedBy(p, job, q)
    ensures Within(p, q)
  {
    Gives(p.down, job.task.how);
  }

  lemma FinishWithin<S, D, R, E>(p: Pipe<S, D, R, E>, i: nat)
    requires PipeInv(p) && p.down.ended && Next(p, RunFinish(i)).Some?
    ensures Within(p, Next(p, RunFinish(i)).value)
  {
    FinishIs(p, i);
    FinishedWithin(p, p.jobs[i], Next(p, RunFinish(i)).value);
  }

  lemma StageWithin<S, D, R, E>(p: Pipe<S, D, R, E>, m: Move<S, D, R, E>)
    requires |p.jobs| <= 1 && (p.down.action == Continue ==> !p.down.ended) && p.down.ended
    requires Next(p, m).Some? && (m.Take? || m.ReadAction?)
    ensures Within(p, Next(p, m).value)
  {
  }

  lemma NextWithin<S, D, R, E>(p: Pipe<S, D, R, E>, m: Move<S, D, R, E>)
    requires PipeInv(p) && p.down.ended && Next(p, m).Some?
    ensures Within(p, Next(p, m).value)
  {
    match m
    case Produce =>
      var f: ((), D) -> ((), StreamSpec.Reply<E>) := PushProxy;
      UpBind(p.up, Bind(f, ()));
      UpstreamWithin(p, Step(p.up, Bind(f, ())).stream);
    case Upstream(op) =>
      if op.Write? {
        UpWrite(p.up, op.datum);
      } else {
        UpResult(p.up, op);
      }
      UpstreamWithin(p, Step(p.up, op).stream);
    case Reply(i) => ReplyWithin(p, i);
    case Downstream(op) => StaysEnded(p.down, op);
    case RunWrite(i, error) => WriteWithin(p, i, error);
    case RunFinish(i) => FinishWithin(p, i);
    case _ => StageWithin(p, m);
  }

  /**
   Once the downstream consumer has answered Discard or Stop, or has failed, upstream hands over at most one
   more datum, and none while a datum job has yet to read the downstream action.
   */
  lemma {:induction false} StopReachesUpstream<S, D, R, E>(moves: seq<Move<S, D, R, E>>, k: nat)
    requires k <= |moves| && Run(moves).Some?
    ensures Run(moves[..k]).Some?
    ensures var p, q := Run(moves[..k]).value, Run(moves).value;
      p.down.ended ==> q.down.ended && |q.up.handed| + Left(q) <= |p.up.handed| + Left(p) <= |p.up.handed| + 1
    decreases |moves|
  {
    if k == |moves| {
      assert moves[..k] == moves;
    } else {
      var before := moves[..|moves| - 1];
      assert before[..k] == moves[..k];
      StopReachesUpstream(before, k);
      RunKeeps(before);
      if Run(moves[..k]).value.down.ended {
        NextWithin(Run(before).value, moves[|moves| - 1]);
      }
    }
  }

  // ---------------------------------------------------------------- downstream: the data and the result

  /** Only the consumer's answers and failures keep the stream from accepting. */
  ghost predicate Willing<S, D, R, E>(s: Stream<S, D, R, E>) {
    s.action != Continue ==> s.ended
  }

  /** Downstream has accepted what was written until its consumer wanted no more, and has the result passed on. */
  ghost predicate PassedOn<S, D, R, E>(p: Pipe<S, D, R, E>) {
    && p.down.accepted <= p.writes
    && (!p.down.ended ==> p.down.accepted == p.writes)
    && (p.finishes == [] ==> Willing(p.down))
    && (p.finishes != [] ==> p.down.result.ConsumerFailed? || p.down.given == Some(p.finishes[0]))
  }

  lemma {:induction false} DrainWilling<S, D, R, E>(s: Stream<S, D, R, E>)
    requires Willing(s) && Drain(s).Ok?
    ensures Willing(Drain(s).stream)
    decreases |s.buffer|
  {
    if Attentive(s) && s.action == Continue && s.buffer != [] {
      var (t, reply) := HandOver(s);
      if reply.Answer? {
        DrainWilling(Answered(t, reply.action));
      }
    }
  }

  lemma StepWilling<S, D, R, E>(s: Stream<S, D, R, E>, op: Op<S, D, R, E>)
    requires Willing(s) && Enabled(s, op) && Step(s, op).Ok? && !op.ProducerReject?
    ensures Willing(Step(s, op).stream)
  {
    match op
    case Bind(f, init) => DrainWilling(s.(binding := Some(Binding(f, init, init))));
    case Write(d) => DrainWilling(if s.action == Continue then Accept(s, d) else s.(failedSinceWrite := false));
    case ConsumerDone(a) => DrainWilling(Answered(s, a));
    case _ =>
  }

  lemma CallPasses<S, D, R, E>(p: Pipe<S, D, R, E>, op: Op<S, D, R, E>)
    requires DownPart(p.down, p.finishes != []) && PassedOn(p) && Enabled(p.down, op) && Step(p.down, op).Ok?
    requires op.Bind? || op.ConsumerDone? || op.ConsumerFail?
    ensures PassedOn(p.(down := Step(p.down, op).stream))
  {
    StepAffects(p.down, op);
    StreamRuns.StepGrows(p.down, op);
    if p.finishes == [] {
      StepWilling(p.down, op);
    }
  }

  lemma WritePasses<S, D, R, E>(p: Pipe<S, D, R, E>, job: Job<D, R, E>, q: Pipe<S, D, R, E>)
    requires Inv(p.down) && PassedOn(p) && WrittenBy(p, job, q)
    ensures PassedOn(q)
  {
    var d := job.task.datum;
    StepAffects(p.down, Op.Write(d));
    StreamRuns.StepGrows(p.down, Op.Write(d));
    StepWilling(p.down, Op.Write(d));
  }

  lemma FinishPasses<S, D, R, E>(p: Pipe<S, D, R, E>, job: Job<D, R, E>, q: Pipe<S, D, R, E>)
    requires PassedOn(p) && FinishedBy(p, job, q)
    ensures PassedOn(q)
  {
    Gives(p.down, job.task.how);
  }

  lemma JobWritePasses<S, D, R, E>(p: Pipe<S, D, R, E>, i: nat, error: E)
    requires PipeInv(p) && PassedOn(p) && Next(p, RunWrite(i, error)).Some?
    ensures PassedOn(Next(p, RunWrite(i, error)).value)
  {
    WriteIs(p, i, error);
    WritePasses(p, p.jobs[i], Next(p, RunWrite(i, error)).value);
  }

  lemma JobFinishPasses<S, D, R, E>(p: Pipe<S, D, R, E>, i: nat)
    requires PipeInv(p) && PassedOn(p) && Next(p, RunFinish(i)).Some?
    ensures PassedOn(Next(p, RunFinish(i)).value)
  {
    FinishIs(p, i);
    FinishPasses(p, p.jobs[i], Next(p, RunFinish(i)).value);
  }

  /** Most moves leave downstream and what it has been given alone. */
  lemma DownUntouched<S, D, R, E>(p: Pipe<S, D, R, E>, m: Move<S, D, R, E>)
    requires Next(p, m).Some? && !m.Downstream? && !m.RunWrite? && !m.RunFinish?
    ensures var q := Next(p, m).value; q.down == p.down && q.writes == p.writes && q.finishes == p.finishes
  {
  }

  lemma NextPasses<S, D, R, E>(p: Pipe<S, D, R, E>, m: Move<S, D, R, E>)
    requires PipeInv(p) && PassedOn(p) && Next(p, m).Some?
    ensures PassedOn(Next(p, m).value)
  {
    match m
    case Downstream(op) => CallPasses(p, op);
    case RunWrite(i, error) => JobWritePasses(p, i, error);
    case RunFinish(i) => JobFinishPasses(p, i);
    case _ => DownUntouched(p, m);
  }

  lemma {:induction false} RunPasses<S, D, R, E>(moves: seq<Move<S, D, R, E>>)
    requires Run(moves).Some?
    ensures PassedOn(Run(moves).value)
    decreases |moves|
  {
    if moves != [] {
      var before := moves[..|moves| - 1];
      RunPasses(before);
      RunKeeps(before);
      NextPasses(Run(before).value, moves[|moves| - 1]);
    }
  }

  /**
   Downstream accepts the data handed over upstream, in order, up to where its own consumer wants no more, and
   as soon as no job is pending it has the upstream result, unless its consumer has failed.
   */
  lemma DownstreamGetsAll<S, D, R, E>(moves: seq<Move<S, D, R, E>>)
    requires Run(moves).Some?
    ensures var p := Run(moves).value;
      && p.down.accepted <= p.up.accepted
      && (p.jobs == [] && !p.down.ended ==> p.down.accepted == p.up.handed)
      && (p.jobs == [] && p.up.binding.Some? && p.up.given.Some? && !p.down.result.ConsumerFailed? ==>
            p.down.given == p.up.given)
  {
    RunPasses(moves);
    RunKeeps(moves);
    PipelineOrder(moves);
    NothingIsLost(moves);
  }

  // ---------------------------------------------------------------- both ends are streams

  /** What a move does to the upstream stream, when the downstream action last read was `read`. */
  function UpCalls<S, D, R, E>(m: Move<S, D, R, E>, read: Option<Action>): seq<Op<(), D, R, E>> {
    match m
    case Produce => var f: ((), D) -> ((), StreamSpec.Reply<E>) := PushProxy; [Bind(f, ())]
    case Upstream(op) => [op]
    case Reply(_) => if read.Some? then [ConsumerDone(read.value)] else []
    case _ => []
  }

  /** What a move does to the downstream stream: the data and the result come from upstream. */
  function DownCalls<S, D, R, E>(p: Pipe<S, D, R, E>, m: Move<S, D, R, E>): seq<Op<S, D, R, E>> {
    match m
    case Downstream(op) => [op]
    case RunWrite(_, _) => if |p.writes| < |p.up.handed| then [Op.Write(p.up.handed[|p.writes|])] else []
    case RunFinish(_) => if p.up.given.Some? then [PassOn(p.up.given.value)] else []
    case _ => []
  }

  function UpOps<S, D, R, E>(moves: seq<Move<S, D, R, E>>): seq<Op<(), D, R, E>> {
    if moves == [] then []
    else
      var before, m := moves[..|moves| - 1], moves[|moves| - 1];
      UpOps(before) + UpCalls(m, LastRead(before))
  }

  function DownOps<S, D, R, E>(moves: seq<Move<S, D, R, E>>): seq<Op<S, D, R, E>> {
    if moves == [] then []
    else
      var before, m := moves[..|moves| - 1], moves[|moves| - 1];
      DownOps(before) + if Run(before).Some? then DownCalls(Run(before).value, m) else []
  }

  lemma ReplyAppends<S, D, R, E>(ops: seq<Op<(), D, R, E>>, p: Pipe<S, D, R, E>, i: nat, read: Option<Action>)
    requires UpPart(p) && ReadsAre(p, read) && Next(p, Move.Reply(i)).Some?
    requires StreamRuns.Run(Init(), ops) == Some(p.up)
    ensures StreamRuns.Run(Init(), ops + UpCalls<S, D, R, E>(Move.Reply(i), read))
        == Some(Next(p, Move.Reply(i)).value.up)
  {
    ReplyDone(p, i);
    JobRead(p, read, i, p.jobs[i].stage.action);
    RepliedAppends(ops, p, p.jobs[i], Next(p, Move.Reply(i)).value);
  }

  lemma RepliedAppends<S, D, R, E>(ops: seq<Op<(), D, R, E>>, p: Pipe<S, D, R, E>, job: Job<D, R, E>,
                                   q: Pipe<S, D, R, E>)
    requires StreamRuns.Run(Init(), ops) == Some(p.up) && RepliedBy(p, job, q)
    ensures StreamRuns.Run(Init(), ops + [ConsumerDone(job.stage.action)]) == Some(q.up)
  {
    UpDone(p.up, job.stage.action);
    StreamRuns.RunSnoc(Init(), ops, ConsumerDone(job.stage.action));
  }

  lemma ProducerAppends<S, D, R, E>(ops: seq<Op<(), D, R, E>>, p: Pipe<S, D, R, E>, m: Move<S, D, R, E>,
                                    read: Option<Action>)
    requires Next(p, m).Some? && (m.Produce? || m.Upstream?) && StreamRuns.Run(Init(), ops) == Some(p.up)
    ensures StreamRuns.Run(Init(), ops + UpCalls(m, read)) == Some(Next(p, m).value.up)
  {
    StreamRuns.RunSnoc(Init(), ops, UpCalls(m, read)[0]);
  }

  lemma UpUntouched<S, D, R, E>(p: Pipe<S, D, R, E>, m: Move<S, D, R, E>, read: Option<Action>)
    requires Next(p, m).Some? && !m.Produce? && !m.Upstream? && !m.Reply?
    ensures Next(p, m).value.up == p.up && UpCalls(m, read) == []
  {
  }

  lemma UpAppends<S, D, R, E>(ops: seq<Op<(), D, R, E>>, p: Pipe<S, D, R, E>, m: Move<S, D, R, E>, read: Option<Action>)
    requires UpPart(p) && ReadsAre(p, read) && Next(p, m).Some? && StreamRuns.Run(Init(), ops) == Some(p.up)
    ensures StreamRuns.Run(Init(), ops + UpCalls(m, read)) == Some(Next(p, m).value.up)
  {
    match m
    case Reply(i) => ReplyAppends(ops, p, i, read);
    case Produce => ProducerAppends(ops, p, m, read);
    case Upstream(_) => ProducerAppends(ops, p, m, read);
    case _ =>
      UpUntouched(p, m, read);
      NothingAppended(ops);
  }

  lemma FinishAppends<S, D, R, E>(ops: seq<Op<S, D, R, E>>, p: Pipe<S, D, R, E>, i: nat, q: Pipe<S, D, R, E>)
    requires StreamRuns.Run(Init(), ops) == Some(p.down) && i < |p.jobs| && FinishedBy(p, p.jobs[i], q)
    ensures StreamRuns.Run(Init(), ops + DownCalls(p, RunFinish(i))) == Some(q.down)
  {
    StreamRuns.RunSnoc(Init(), ops, PassOn(p.jobs[i].task.how));
  }

  lemma WriteAppends<S, D, R, E>(ops: seq<Op<S, D, R, E>>, p: Pipe<S, D, R, E>, i: nat, error: E, q: Pipe<S, D, R, E>)
    requires StreamRuns.Run(Init(), ops) == Some(p.down) && i < |p.jobs| && WrittenBy(p, p.jobs[i], q)
    ensures StreamRuns.Run(Init(), ops + DownCalls(p, RunWrite(i, error))) == Some(q.down)
  {
    StreamRuns.RunSnoc(Init(), ops, Op.Write(p.jobs[i].task.datum));
  }

  lemma ConsumerAppends<S, D, R, E>(ops: seq<Op<S, D, R, E>>, p: Pipe<S, D, R, E>, op: Op<S, D, R, E>)
    requires StreamRuns.Run(Init(), ops) == Some(p.down) && Next(p, Downstream(op)).Some?
    ensures StreamRuns.Run(Init(), ops + DownCalls(p, Downstream(op))) == Some(Next(p, Downstream(op)).value.down)
  {
    StreamRuns.RunSnoc(Init(), ops, op);
  }

  lemma JobWriteAppends<S, D, R, E>(ops: seq<Op<S, D, R, E>>, p: Pipe<S, D, R, E>, i: nat, error: E)
    requires PipeInv(p) && Next(p, RunWrite(i, error)).Some? && StreamRuns.Run(Init(), ops) == Some(p.down)
    ensures StreamRuns.Run(Init(), ops + DownCalls(p, RunWrite(i, error)))
        == Some(Next(p, RunWrite(i, error)).value.down)
  {
    WriteIs(p, i, error);
    WriteAppends(ops, p, i, error, Next(p, RunWrite(i, error)).value);
  }

  lemma JobFinishAppends<S, D, R, E>(ops: seq<Op<S, D, R, E>>, p: Pipe<S, D, R, E>, i: nat)
    requires PipeInv(p) && Next(p, RunFinish(i)).Some? && StreamRuns.Run(Init(), ops) == Some(p.down)
    ensures StreamRuns.Run(Init(), ops + DownCalls(p, RunFinish(i))) == Some(Next(p, RunFinish(i)).value.down)
  {
    FinishIs(p, i);
    FinishAppends(ops, p, i, Next(p, RunFinish(i)).value);
  }

  lemma DownAppends<S, D, R, E>(ops: seq<Op<S, D, R, E>>, p: Pipe<S, D, R, E>, m: Move<S, D, R, E>)
    requires PipeInv(p) && Next(p, m).Some? && StreamRuns.Run(Init(), ops) == Some(p.down)
    ensures StreamRuns.Run(Init(), ops + DownCalls(p, m)) == Some(Next(p, m).value.down)
  {
    match m
    case Downstream(op) => ConsumerAppends(ops, p, op);
    case RunWrite(i, error) => JobWriteAppends(ops, p, i, error);
    case RunFinish(i) => JobFinishAppends(ops, p, i);
    case _ =>
      DownUntouched(p, m);
      NothingAppended(ops);
  }

  /**
   Seen from either end a pipeline is a stream: the upstream one is called by the factory's producer and
   answered with the downstream actions that were read; the downstream one is written what upstream handed
   over, in order, and given the upstream result.  What holds of every run of a stream holds of both.
   */
  lemma {:induction false} EndsAreStreams<S, D, R, E>(moves: seq<Move<S, D, R, E>>)
    requires Run(moves).Some?
    ensures StreamRuns.Run(Init(), UpOps(moves)) == Some(Run(moves).value.up)
    ensures StreamRuns.Run(Init(), DownOps(moves)) == Some(Run(moves).value.down)
    decreases |moves|
  {
    if moves != [] {
      var before, m := moves[..|moves| - 1], moves[|moves| - 1];
      var p := Run(before).value;
      EndsAreStreams(before);
      RunKeeps(before);
      RunReads(before);
      UpAppends(UpOps(before), p, m, LastRead(before));
      DownAppends(DownOps(before), p, m);
    }
  }

  // ---------------------------------------------------------------- the jobs come to an end

  /** A step of a thread of the pool that runs the jobs. */
  predicate JobMove<S, D, R, E>(m: Move<S, D, R, E>) {
    m.Take? || m.RunWrite? || m.ReadAction? || m.Reply? || m.RunFinish?
  }

  predicate JobMoves<S, D, R, E>(moves: seq<Move<S, D, R, E>>) {
    forall i :: 0 <= i < |moves| ==> JobMove(moves[i])
  }

  /** The steps a job has before it. */
  function StepsOf<D, R, E>(job: Job<D, R, E>): nat {
    match job.stage
    case Queued => if job.task.Forward? then 4 else 2
    case Taken => if job.task.Forward? then 3 else 1
    case HasWritten => 2
    case _ => 1
  }

  /** At most four steps for every datum upstream may yet hand over, and two for the result. */
  function JobsLeft<S, D, R, E>(p: Pipe<S, D, R, E>): nat {
    (if p.jobs == [] then 0 else StepsOf(p.jobs[0])) + 4 * |p.up.buffer| + (if Finished(p.up) then 0 else 2)
  }

  /** The step that the pending job takes next. */
  function JobStep<S, D, R, E>(job: Job<D, R, E>, error: E): Move<S, D, R, E> {
    match job.stage
    case Queued => Take(0)
    case Taken => if job.task.Forward? then RunWrite(0, error) else RunFinish(0)
    case HasWritten => ReadAction(0)
    case _ => Move.Reply(0)
  }

  lemma StageSteps<S, D, R, E>(p: Pipe<S, D, R, E>, error: E)
    requires |p.jobs| == 1
    requires p.jobs[0].stage.Queued? || (p.jobs[0].stage.HasWritten? && p.jobs[0].task.Forward?)
    ensures var q := Next(p, JobStep(p.jobs[0], error)); q.Some? && JobsLeft(q.value) < JobsLeft(p)
  {
  }

  lemma WriteSteps<S, D, R, E>(p: Pipe<S, D, R, E>, error: E)
    requires PipeInv(p) && p.jobs != [] && p.jobs[0].task.Forward? && p.jobs[0].stage.Taken?
    ensures var q := Next(p, RunWrite(0, error)); q.Some? && JobsLeft(q.value) < JobsLeft(p)
  {
    WriteIs(p, 0, error);
  }

  lemma FinishSteps<S, D, R, E>(p: Pipe<S, D, R, E>)
    requires PipeInv(p) && p.jobs != [] && p.jobs[0].task.Finish?
    requires p.jobs[0].stage.Taken?
    ensures var q := Next(p, RunFinish(0)); q.Some? && JobsLeft(q.value) < JobsLeft(p)
  {
    FinishIs(p, 0);
  }

  /** What is buffered upstream shrinks by what an answer makes it hand over. */
  lemma BufferShrinks<D, R, E>(s: Stream<(), D, R, E>, a: Action)
    requires Inv(s) && ProxyBound(s) && !s.result.ConsumerFailed? && s.running
    ensures var t := Step(s, ConsumerDone(a)).stream;
      |t.buffer| + (if t.running then 1 else 0) <= |s.buffer| && (Finished(s) ==> Finished(t))
  {
    UpDone(s, a);
    StepAffects(s, ConsumerDone(a));
    var t := Step(s, ConsumerDone(a)).stream;
    assert t.accepted == s.accepted + [] == s.accepted;
    assert |t.accepted| == |t.handed| + |t.discarded| + |t.buffer|;
    assert |s.accepted| == |s.handed| + |s.discarded| + |s.buffer|;
    StreamRuns.StepGrows(s, ConsumerDone(a));
  }

  lemma AnswerSteps<S, D, R, E>(p: Pipe<S, D, R, E>, a: Action)
    requires UpBusy(p)
    ensures var q := WithUp(p.(jobs := []), Step(p.up, ConsumerDone(a)).stream);
      JobsLeft(q) <= 4 * |p.up.buffer| + (if Finished(p.up) then 0 else 2)
  {
    BufferShrinks(p.up, a);
    UpDone(p.up, a);
    var up := Step(p.up, ConsumerDone(a)).stream;
    if up.running {
      assert up.handed[|p.up.handed|..] == [up.handed[|p.up.handed|]];
    }
  }

  lemma ReplySteps<S, D, R, E>(p: Pipe<S, D, R, E>)
    requires PipeInv(p) && p.jobs != [] && p.jobs[0].stage.HasRead?
    ensures var q := Next(p, Move.Reply(0)); q.Some? && JobsLeft(q.value) < JobsLeft(p)
  {
    var q := Next(p, Move.Reply(0));
    ReplyIs(p, 0);
    AnswerSteps(p, p.jobs[0].stage.action);
  }

  lemma JobSteps<S, D, R, E>(p: Pipe<S, D, R, E>, error: E)
    requires PipeInv(p) && p.jobs != []
    ensures JobMove(JobStep<S, D, R, E>(p.jobs[0], error))
    ensures var q := Next(p, JobStep(p.jobs[0], error)); q.Some? && JobsLeft(q.value) < JobsLeft(p)
  {
    match p.jobs[0].stage
    case Queued => StageSteps(p, error);
    case HasWritten => StageSteps(p, error);
    case HasRead(_) => ReplySteps(p);
    case WriteThrew(_) =>
    case Taken =>
      if p.jobs[0].task.Forward? {
        WriteSteps(p, error);
      } else {
        FinishSteps(p);
      }
  }

  lemma JobNext<S, D, R, E>(moves: seq<Move<S, D, R, E>>, error: E) returns (m: Move<S, D, R, E>)
    requires Run(moves).Some? && Run(moves).value.jobs != []
    ensures JobMove(m) && Run(moves + [m]).Some?
    ensures JobsLeft(Run(moves + [m]).value) < JobsLeft(Run(moves).value)
  {
    RunKeeps(moves);
    JobSteps(Run(moves).value, error);
    m := JobStep(Run(moves).value.jobs[0], error);
    assert (moves + [m])[..|moves|] == moves;
  }

  lemma NothingAppended<T>(s: seq<T>)
    ensures s + [] == s
  {
  }

  lemma OneAppended<T>(s: seq<T>, x: T, t: seq<T>)
    ensures s + ([x] + t) == s + [x] + t
  {
  }

  /**
   From wherever a pipeline has got to, its jobs come to an end: in at most `JobsLeft` steps of the pool, whatever
   happened before, no job is left.
   */
  lemma {:induction false} JobsEnd<S, D, R, E>(moves: seq<Move<S, D, R, E>>, error: E)
    returns (more: seq<Move<S, D, R, E>>)
    requires Run(moves).Some?
    ensures JobMoves(more) && |more| <= JobsLeft(Run(moves).value)
    ensures Run(moves + more).Some? && Run(moves + more).value.jobs == []
    decreases JobsLeft(Run(moves).value)
  {
    if Run(moves).value.jobs == [] {
      more := [];
      NothingAppended(moves);
    } else {
      var m := JobNext(moves, error);
      var rest := JobsEnd(moves + [m], error);
      more := [m] + rest;
      OneAppended(moves, m, rest);
    }
  }

  // ---------------------------------------------------------------- calls from outside

  /** What the upstream takes from the factory: a call throws only for what the producer itself has done before. */
  lemma UpTakes<D, R, E>(s: Stream<(), D, R, E>, d: D)
    requires Inv(s) && ProxyBound(s) && !s.result.ConsumerFailed?
    ensures var f: ((), D) -> ((), StreamSpec.Reply<E>) := PushProxy;
      Step(s, Bind(f, ())).Ok? <==> s.binding.None?
    ensures Step(s, Op.Write(d)).Ok? <==> s.result.NoResult? || s.action != Continue
  {
    var f: ((), D) -> ((), StreamSpec.Reply<E>) := PushProxy;
    if s.binding.None? {
      DrainUp(s.(binding := Some(Binding(f, (), ()))));
    }
    if s.action != Continue {
      WriteDrains(s.(failedSinceWrite := false));
    } else if s.result.NoResult? {
      AcceptSound(s, d);
      WriteDrains(Accept(s, d));
    }
  }

  lemma WriteDrains<D, R, E>(s: Stream<(), D, R, E>)
    requires Sound(s) && !s.failedSinceWrite && ProxyBound(s) && !s.result.ConsumerFailed?
    ensures Drain(s).Ok?
  {
    if !s.running {
      DrainUp(s);
    }
  }

  lemma UpTakesResult<D, R, E>(s: Stream<(), D, R, E>, value: R, error: E)
    requires !s.result.ConsumerFailed?
    ensures Step(s, ProducerResolve(value)).Ok? <==> s.result.NoResult?
    ensures Step(s, ProducerReject(error)).Ok? <==> s.result.NoResult?
  {
  }

  /** A producer's call is a move exactly if the stream takes it. */
  lemma UpMoves<S, D, R, E>(p: Pipe<S, D, R, E>, op: Op<(), D, R, E>)
    requires op.Write? || op.ProducerResolve? || op.ProducerReject?
    ensures Next(p, Upstream(op)).Some? <==> Step(p.up, op).Ok?
  {
  }

  /**
   In every run the production task can bind the upstream once, and the factory's producer can write until it has
   given a result and give one result: whatever the downstream consumer does and wherever the jobs are.
   */
  lemma ProducerIsServed<S, D, R, E>(moves: seq<Move<S, D, R, E>>, d: D, value: R, error: E)
    requires Run(moves).Some?
    ensures var p := Run(moves).value;
      && (Next(p, Produce).Some? <==> p.up.binding.None?)
      && (Next(p, Upstream(Op.Write(d))).Some? <==> p.up.result.NoResult? || p.up.action != Continue)
      && (Next(p, Upstream(ProducerResolve(value))).Some? <==> p.up.result.NoResult?)
      && (Next(p, Upstream(ProducerReject(error))).Some? <==> p.up.result.NoResult?)
  {
    RunKeeps(moves);
    ProducerCan(Run(moves).value, d, value, error);
  }

  lemma ProducerCan<S, D, R, E>(p: Pipe<S, D, R, E>, d: D, value: R, error: E)
    requires Inv(p.up) && ProxyBound(p.up) && !p.up.result.ConsumerFailed?
    ensures Next(p, Produce).Some? <==> p.up.binding.None?
    ensures Next(p, Upstream(Op.Write(d))).Some? <==> p.up.result.NoResult? || p.up.action != Continue
    ensures Next(p, Upstream(ProducerResolve(value))).Some? <==> p.up.result.NoResult?
    ensures Next(p, Upstream(ProducerReject(error))).Some? <==> p.up.result.NoResult?
  {
    UpTakes(p.up, d);
    UpTakesResult(p.up, value, error);
    UpMoves(p, Op.Write(d));
    UpMoves(p, ProducerResolve(value));
    UpMoves(p, ProducerReject(error));
  }
}
