/**
 The queue of one thread pool.  Each method is what happens under one hold of the queue's mutex.
 */
module ConcurrentQueue {

  /** What a consumer finds when it holds the queue. */
  datatype Popped<+T> =
    | Item(out: T)
    | Nothing      // empty, and not to be waited for
    | MustWait     // empty: construct the wait guard, release the mutex and wait

  class ConcurrentQueue<T> {
    var events: seq<T>
    var nowaiting: bool
    ghost var pushed: seq<T>
    ghost var popped: seq<T>

    /** First in, first out, with nothing lost or repeated. */
    ghost predicate Valid()
      reads this
    {
      pushed == popped + events
    }

    constructor (nowaiting: bool)
      ensures Valid() && events == pushed == popped == [] && this.nowaiting == nowaiting
    {
      events, this.nowaiting := [], nowaiting;
      pushed, popped := [], [];
    }

    method Push(item: T)
      requires Valid()
      modifies this
      ensures Valid() && pushed == old(pushed) + [item] && popped == old(popped)
      ensures events == old(events) + [item] && nowaiting == old(nowaiting)
    {
      events := events + [item];
      pushed := pushed + [item];
    }

    /** The condition that ends a wait, tested before the wait and on every wake-up. */
    predicate EndWait()
      reads this
    {
      nowaiting || events != []
    }

    /** A consumer that gets `MustWait` comes back here once it has been woken. */
    method Pop() returns (r: Popped<T>)
      requires Valid()
      modifies this
      ensures Valid() && pushed == old(pushed) && nowaiting == old(nowaiting)
      ensures r.MustWait? <==> !old(EndWait())
      ensures r.Nothing? <==> old(nowaiting && events == [])
      ensures r.Item? <==> old(events) != []
      ensures if r.Item? then old(events) == [r.out] + events && popped == old(popped) + [r.out]
              else events == old(events) && popped == old(popped)
    {
      if !EndWait() {
        return MustWait;
      }
      if events == [] {
        return Nothing;
      }
      r := Item(events[0]);
      popped := popped + [events[0]];
      events := events[1..];
    }

    method SetNowaiting(value: bool)
      modifies this`nowaiting
      ensures nowaiting == value
    {
      nowaiting := value;
    }
  }
}
