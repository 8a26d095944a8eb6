/**
 The promise stream state as the program keeps it: fields assigned by setters that re-run `UpdateState`,
 and a drain that re-enters itself through the consumer's answer.  Every public method is proved to
 perform exactly the step of StreamSpec, and the guards of the DEBUG build on state changes to never fire.
 */
module PromiseStream {
  import opened Wrappers
  import opened StreamSpec

  /** The phases entered so far, by the state graph of promise_stream.md. */
  ghost predicate LegalPath(path: seq<Phase>, phase: Phase) {
    match phase
    case Pending => path == []
    case Streaming1 => path == [Streaming1]
    case Streaming2 => path == [Streaming1, Streaming2]
    case Streaming3 => path == [Streaming1, Streaming2, Streaming3]
    case Completed => path == [Completed] || path == [Streaming1, Streaming2, Streaming3, Completed]
  }

  /** The transitions `set_state` lets through. */
  predicate ValidTransition(from: Phase, to: Phase) {
    match to
    case Pending => false
    case Streaming1 => from.Pending?
    case Streaming2 => from.Streaming1?
    case Streaming3 => from.Streaming2?
    case Completed => from.Pending? || from.Streaming3?
  }

  /** The flags justify the phase reached so far, and a result brings its completer. */
  ghost predicate Behind<S, D, R, E>(s: Stream<S, D, R, E>) {
    && (!s.result.NoResult? ==> s.completer.Some?)
    && match s.phase
       case Pending => true
       case Streaming1 => s.written
       case Streaming2 => s.written && !s.result.NoResult?
       case Streaming3 => s.written && !s.result.NoResult? && s.bufferIsEmpty
       case Completed => PhaseOf(s).Completed?
  }

  /** What `UpdateState` leads to; in `Completed` it runs the completer. */
  ghost function Updated<S, D, R, E>(s: Stream<S, D, R, E>): Stream<S, D, R, E> {
    if s.phase.Completed? && s.completer.Some? then
      s.(completer := None, completions := s.completions + [s.completer.value])
    else Refresh(s)
  }

  /** The flags call for a transition out of the current phase. */
  ghost predicate Due<S, D, R, E>(s: Stream<S, D, R, E>, to: Phase) {
    match s.phase
    case Pending => if s.written then to == Streaming1 else !s.result.NoResult? && to == Completed
    case Streaming1 => !s.result.NoResult? && to == Streaming2
    case Streaming2 => s.bufferIsEmpty && to == Streaming3
    case Streaming3 => !s.running && to == Completed
    case Completed => false
  }

  lemma MovesOn<S, D, R, E>(s: Stream<S, D, R, E>, to: Phase)
    requires Behind(s) && Due(s, to)
    ensures Behind(s.(phase := to)) && Updated(s.(phase := to)) == Updated(s) && ValidTransition(s.phase, to)
  {
  }

  lemma StaysPut<S, D, R, E>(s: Stream<S, D, R, E>)
    requires Behind(s) && !s.phase.Completed? && forall to :: !Due(s, to)
    ensures Updated(s) == s
  {
    assert !Due(s, Streaming1) && !Due(s, Streaming2) && !Due(s, Streaming3) && !Due(s, Completed);
  }

  lemma WithoutBuffer<S, D, R, E>(s: Stream<S, D, R, E>)
    requires Sound(s)
    ensures Sound(s.(buffer := [], accepted := s.handed + s.discarded))
  {
  }

  class PromiseStreamState<S, D, R, E> {
    var phase: Phase
    var action: Action
    var streamHasBeenWrittenTo: bool
    var bufferIsEmpty: bool
    var dataCallbackAssigned: bool
    var consumerIsRunning: bool
    var completer: Option<Settlement<R, E>>
    var result: ResultKind
    var buffer: seq<D>
    var onData: Option<Binding<S, D, E>>
    var proxyPromise: Option<Settlement<R, E>>

    ghost var accepted: seq<D>
    ghost var handed: seq<D>
    ghost var discarded: seq<D>
    ghost var given: Option<Settlement<R, E>>
    ghost var ended: bool
    ghost var failedSinceWrite: bool
    ghost var path: seq<Phase>

    ghost function View(): Stream<S, D, R, E>
      reads this
    {
      Stream(phase, action, streamHasBeenWrittenTo, bufferIsEmpty, consumerIsRunning, result, completer, buffer, onData,
             accepted, handed, discarded, given, if proxyPromise.Some? then [proxyPromise.value] else [],
             ended, failedSinceWrite)
    }

    /** The phases visited are a path of the state graph and the two records of a binding agree. */
    ghost predicate Wired()
      reads this
    {
      LegalPath(path, phase) && dataCallbackAssigned == onData.Some?
    }

    ghost predicate Valid()
      reads this
    {
      Wired() && Inv(View())
    }

    constructor ()
      ensures Valid() && View() == Init()
    {
      phase, action, streamHasBeenWrittenTo, bufferIsEmpty := Pending, Continue, false, true;
      dataCallbackAssigned, consumerIsRunning, completer, result := false, false, None, NoResult;
      buffer, onData, proxyPromise := [], None, None;
      accepted, handed, discarded, given, ended, failedSinceWrite, path := [], [], [], None, false, false, [];
    }

    // -------------------------------------------------------------- PromiseStreamStateBase

    method SetState(next: Phase)
      requires ValidTransition(phase, next) && Wired() && proxyPromise.None?
      requires Behind(View().(phase := next))
      modifies this
      ensures Wired() && View() == Updated(old(View()).(phase := next))
      decreases 10 - PhaseRank(next), 1
    {
      phase := next;
      path := path + [next];
      UpdateState();
    }

    static function PhaseRank(p: Phase): nat {
      match p
      case Pending => 0
      case Streaming1 => 1
      case Streaming2 => 2
      case Streaming3 => 3
      case Completed => 4
    }

    method UpdateState()
      requires Wired() && Behind(View()) && proxyPromise.None?
      modifies this
      ensures Wired() && View() == Updated(old(View()))
      decreases 10 - PhaseRank(phase), 0
    {
      ghost var s := View();
      match phase
      case Pending =>
        if streamHasBeenWrittenTo {
          MovesOn(s, Streaming1);
          SetState(Streaming1);
        } else if result != NoResult {
          MovesOn(s, Completed);
          SetState(Completed);
        } else {
          StaysPut(s);
        }
      case Streaming1 =>
        if result != NoResult {
          MovesOn(s, Streaming2);
          SetState(Streaming2);
        } else {
          StaysPut(s);
        }
      case Streaming2 =>
        if bufferIsEmpty {
          MovesOn(s, Streaming3);
          SetState(Streaming3);
        } else {
          StaysPut(s);
        }
      case Streaming3 =>
        if !consumerIsRunning {
          MovesOn(s, Completed);
          SetState(Completed);
        } else {
          StaysPut(s);
        }
      case Completed =>
        if result != NoResult {
          var callback := completer;
          completer := None;
          proxyPromise := callback;
        }
    }

    method SetStreamHasBeenWrittenTo() returns (threw: bool)
      requires Wired() && Sound(View().(buffer := [], accepted := handed + discarded)) && action == Continue
      modifies this
      ensures Wired() && threw == WriteBreaksContract(old(View()))
      ensures View() == if threw then old(View()) else
                          Refresh(old(View()).(written := true, bufferIsEmpty := false, failedSinceWrite := false))
    {
      if result.Resolved? || result.Rejected? {
        return true;
      }
      streamHasBeenWrittenTo := true;
      bufferIsEmpty := false;
      failedSinceWrite := false;
      UpdateState();
      return false;
    }

    method SetStreamResult(kind: ResultKind, how: Settlement<R, E>) returns (threw: bool)
      requires Wired() && Sound(View()) && !kind.NoResult?
      modifies this
      ensures Wired() && threw == GiveResult(old(View()), kind, how).Threw?
      ensures View() == GiveResult(old(View()), kind, how).stream
    {
      if result.ConsumerFailed? {
        return false;
      } else if result != NoResult {
        return true;
      }
      completer := Some(how);
      result := kind;
      given := Some(how);
      UpdateState();
      return false;
    }

    method SetBufferIsEmpty()
      requires Wired() && Sound(View().(discarded := [], accepted := handed + buffer)) && Attentive(View())
      requires buffer == []
      modifies this
      ensures Wired() && View() == Refresh(old(View()).(bufferIsEmpty := true))
    {
      if bufferIsEmpty {
        return;
      }
      bufferIsEmpty := true;
      UpdateState();
    }

    method SetConsumerIsRunning(value: bool) returns (threw: bool)
      requires Wired() && View().phase == PhaseOf(View())
      requires phase.Streaming1? || phase.Streaming2?
      requires !bufferIsEmpty && proxyPromise.None? && (result != NoResult ==> completer.Some?)
      modifies this
      ensures Wired() && threw == (old(consumerIsRunning) == value)
      ensures View() == old(View()).(running := value)
    {
      if consumerIsRunning == value {
        return true;
      }
      consumerIsRunning := value;
      UpdateState();
      return false;
    }

    // -------------------------------------------------------------- PromiseStreamState

    /** The first datum, if the consumer should be called on it now. */
    method TakeData() returns (datum: Option<D>)
      requires Wired() && Sound(View()) && !failedSinceWrite
      modifies this
      ensures Wired()
      ensures datum.Some? <==> Attentive(old(View())) && old(action == Continue && buffer != [])
      ensures datum.Some? ==> old(buffer) == [datum.value] + buffer && View() == old(View()).(buffer := buffer)
      ensures datum.None? ==> Drain(old(View())) == Ok(View())
    {
      if phase != Streaming1 && phase != Streaming2 {
        return None;
      }
      if onData.None? {
        return None;
      }
      if consumerIsRunning {
        return None;
      }
      if action != Continue {
        discarded := discarded + buffer;
        buffer := [];
      }
      if buffer == [] {
        SetBufferIsEmpty();
        return None;
      }
      datum := Some(buffer[0]);
      buffer := buffer[1..];
    }

    method ProcessData() returns (threw: bool)
      requires Wired() && Sound(View()) && !failedSinceWrite
      modifies this
      ensures Wired() && threw == Drain(old(View())).Threw? && View() == Drain(old(View())).stream
      decreases |buffer|, 0
    {
      ghost var s := View();
      var datum := TakeData();
      if datum.Some? {
        threw := CallDataCallback(datum.value, s);
      } else {
        threw := false;
      }
    }

    /** Call the consumer; `s` is the stream before the datum was taken. */
    method CallDataCallback(datum: D, ghost s: Stream<S, D, R, E>) returns (threw: bool)
      requires Wired() && Sound(s) && !s.failedSinceWrite && Attentive(s) && s.action == Continue
      requires s.buffer == [datum] + buffer && View() == s.(buffer := buffer)
      modifies this
      ensures Wired() && threw == Drain(s).Threw? && View() == Drain(s).stream
      decreases |buffer|, 2
    {
      HandOverSound(s);
      threw := SetConsumerIsRunning(true);
      var binding := onData.value;
      var (state, reply) := binding.consume(binding.state, datum);
      onData := Some(binding.(state := state));
      handed := handed + [datum];
      assert View() == HandOver(s).0 && reply == HandOver(s).1;
      match reply
      case Later =>
      case Answer(a) =>
        threw := OnAction(a);
      case Fail(error) =>
        threw := OnFailure(error);
        if threw {
          // the exception unwinds through this call
          var alreadyIdle := SetConsumerIsRunning(false);
        }
    }

    /** The consumer's promise resolves: the first callback bound to it. */
    method OnAction(a: Action) returns (threw: bool)
      requires Wired() && Sound(View()) && consumerIsRunning
      modifies this
      ensures Wired() && threw == Drain(Answered(old(View()), a)).Threw?
      ensures View() == Drain(Answered(old(View()), a)).stream
      decreases |buffer|, 1
    {
      action := a;
      ended := ended || a != Continue;
      threw := SetConsumerIsRunning(false);
      threw := ProcessData();
    }

    /** The consumer's promise rejects: the second callback bound to it. */
    method OnFailure(error: E) returns (threw: bool)
      requires Wired() && Sound(View()) && consumerIsRunning
      modifies this
      ensures Wired() && threw == !old(result).NoResult?
      ensures View() == if threw then old(View()).(action := Stop) else ConsumerFails(old(View()), error)
    {
      threw := DoReject(error, true);
      if !threw {
        threw := SetConsumerIsRunning(false);
        ended, failedSinceWrite := true, true;
      }
    }

    method DoResolve(value: R) returns (threw: bool)
      requires Wired() && Sound(View())
      modifies this
      ensures Wired() && threw == GiveResult(old(View()), Resolved, Settlement.Resolve(value)).Threw?
      ensures View() == GiveResult(old(View()), Resolved, Settlement.Resolve(value)).stream
    {
      threw := SetStreamResult(Resolved, Settlement.Resolve(value));
    }

    method DoReject(error: E, consumerFailed: bool) returns (threw: bool)
      requires Wired() && Sound(View())
      modifies this
      ensures var kind := if consumerFailed then ConsumerFailed else Rejected;
        && Wired()
        && threw == GiveResult(old(View()).(action := Stop), kind, Settlement.Reject(error)).Threw?
        && View() == GiveResult(old(View()).(action := Stop), kind, Settlement.Reject(error)).stream
    {
      action := Stop;
      threw := SetStreamResult(if consumerFailed then ConsumerFailed else Rejected, Settlement.Reject(error));
    }

    // -------------------------------------------------------------- calls from outside, each under the lock

    method Write(datum: D) returns (threw: bool)
      requires Valid()
      modifies this
      ensures threw == Step(old(View()), Op.Write(datum)).Threw?
      ensures View() == Step(old(View()), Op.Write(datum)).stream
      ensures !threw ==> Valid()
    {
      ghost var s := View();
      if action == Continue {
        threw := Enqueue(datum);
        if threw {
          return;
        }
        AcceptSound(s, datum);
      } else {
        failedSinceWrite := false;
      }
      threw := ProcessData();
      if !threw {
        StepInv(s, Op.Write(datum));
      }
    }

    /** What `write` does to the buffer while the consumer wants data. */
    method Enqueue(datum: D) returns (threw: bool)
      requires Wired() && Sound(View()) && action == Continue
      modifies this
      ensures Wired() && threw == WriteBreaksContract(old(View()))
      ensures View() == if threw then old(View()).(buffer := old(buffer) + [datum]) else Accept(old(View()), datum)
    {
      ghost var s := View();
      buffer := buffer + [datum];
      WithoutBuffer(s);
      assert View().(buffer := [], accepted := handed + discarded) ==
        s.(buffer := [], accepted := s.handed + s.discarded);
      threw := SetStreamHasBeenWrittenTo();
      if !threw {
        accepted := accepted + [datum];
        assert View() == Accept(s, datum);
      }
    }

    method SetDataCallback(consume: (S, D) -> (S, Reply<E>), init: S) returns (threw: bool)
      requires Valid()
      modifies this
      ensures threw == Step(old(View()), Bind(consume, init)).Threw?
      ensures View() == Step(old(View()), Bind(consume, init)).stream
      ensures !threw ==> Valid()
    {
      ghost var s := View();
      if onData.Some? {
        return true;
      }
      onData := Some(Binding(consume, init, init));
      dataCallbackAssigned := true;
      threw := ProcessData();
      if !threw {
        StepInv(s, Bind(consume, init));
      }
    }

    method Resolve(value: R) returns (threw: bool)
      requires Valid()
      modifies this
      ensures threw == Step(old(View()), ProducerResolve(value)).Threw?
      ensures View() == Step(old(View()), ProducerResolve(value)).stream
      ensures !threw ==> Valid()
    {
      ghost var s := View();
      threw := DoResolve(value);
      if !threw {
        StepInv(s, ProducerResolve(value));
      }
    }

    method Reject(error: E) returns (threw: bool)
      requires Valid()
      modifies this
      ensures threw == Step(old(View()), ProducerReject(error)).Threw?
      ensures View() == Step(old(View()), ProducerReject(error)).stream
      ensures !threw ==> Valid()
    {
      ghost var s := View();
      threw := DoReject(error, false);
      if !threw {
        StepInv(s, ProducerReject(error));
      }
    }

    /** An asynchronous consumer call answers. */
    method ConsumerDone(a: Action) returns (threw: bool)
      requires Valid() && consumerIsRunning
      modifies this
      ensures threw == Step(old(View()), Op.ConsumerDone(a)).Threw?
      ensures View() == Step(old(View()), Op.ConsumerDone(a)).stream
      ensures !threw ==> Valid()
    {
      ghost var s := View();
      threw := OnAction(a);
      if !threw {
        StepInv(s, Op.ConsumerDone(a));
      }
    }

    /** An asynchronous consumer call fails. */
    method ConsumerFail(error: E) returns (threw: bool)
      requires Valid() && consumerIsRunning
      modifies this
      ensures threw == Step(old(View()), Op.ConsumerFail(error)).Threw?
      ensures View() == Step(old(View()), Op.ConsumerFail(error)).stream
      ensures !threw ==> Valid()
    {
      ghost var s := View();
      threw := OnFailure(error);
      if !threw {
        StepInv(s, Op.ConsumerFail(error));
      }
    }
  }
}
