/**
 * The bounded channel of `futures::channel::mpsc` as the bridge uses it: one
 * sender that only ever calls `try_send` and drops the error, and one receiver.
 * The subscription callback and every list callback feed such a channel.
 */
module Channel {
  import opened Wrappers
  import opened Sequences

  /** The `buffer` argument given to `channel(..)` at every call site. */
  const ChannelBuffer: nat := 1024

  /**
   * A `futures` bounded channel reserves one extra slot per sender; every
   * channel here has exactly one sender, moved into its callback.
   */
  const SenderSlots: nat := 1

  /** How many undelivered messages `try_send` accepts before it fails. */
  const Capacity: nat := ChannelBuffer + SenderSlots

  /** The queue after `try_send(x)`: `x` is appended if there is room, dropped otherwise. */
  function Offer<T>(q: seq<T>, x: T): seq<T> {
    if |q| < Capacity then q + [x] else q
  }

  /** The queue after offering `xs` one by one with no receive in between. */
  function OfferAll<T>(q: seq<T>, xs: seq<T>): seq<T>
    decreases |xs|
  {
    if xs == [] then q else OfferAll(Offer(q, xs[0]), xs[1..])
  }

  /**
   * Drop-on-full keeps a prefix: the messages that fit are enqueued in order,
   * every later one is lost, and the queue never exceeds the capacity.
   */
  lemma {:induction false} OfferAllKeepsPrefix<T>(q: seq<T>, xs: seq<T>)
    requires |q| <= Capacity
    ensures OfferAll(q, xs) == q + xs[..Min(|xs|, Capacity - |q|)]
    ensures |OfferAll(q, xs)| <= Capacity
    decreases |xs|
  {
    if xs != [] {
      var rest := xs[1..];
      if |q| < Capacity {
        OfferAllKeepsPrefix(q + [xs[0]], rest);
        assert [xs[0]] + rest[..Min(|rest|, Capacity - |q| - 1)] == xs[..Min(|xs|, Capacity - |q|)];
      } else {
        OfferAllKeepsPrefix(q, rest);
      }
    }
  }

  /** The shared buffer of one channel: what has been sent and not yet received. */
  class Channel<T> {
    var queue: seq<T>

    ghost predicate Valid()
      reads this
    {
      |queue| <= Capacity
    }

    /** `channel(ChannelBuffer)`: a new, empty channel. */
    constructor ()
      ensures Valid() && queue == []
    {
      queue := [];
    }

    /** `Sender::try_send`: enqueue if there is room; `ok` is false when the message was dropped. */
    method TrySend(x: T) returns (ok: bool)
      requires Valid()
      modifies this
      ensures Valid()
      ensures ok == (|old(queue)| < Capacity)
      ensures queue == Offer(old(queue), x)
    {
      ok := |queue| < Capacity;
      if ok {
        queue := queue + [x];
      }
    }

    /** The receiver takes the oldest undelivered message, if any (first in, first out). */
    method TryNext() returns (r: Option<T>)
      requires Valid()
      modifies this
      ensures Valid()
      ensures old(queue) == [] ==> r == None && queue == []
      ensures old(queue) != [] ==> r == Some(old(queue)[0]) && queue == old(queue)[1..]
    {
      if queue == [] {
        r := None;
      } else {
        r := Some(queue[0]);
        queue := queue[1..];
      }
    }
  }
}
