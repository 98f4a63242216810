/**
 * The adapters from libpulse callbacks to futures and streams: a one-slot
 * waker cell, the one-shot `CallbackFuture`, the `MakeOwned` normaliser and
 * the list-callback stream that feeds a bounded channel.
 *
 * The `Arc<Mutex<..>>` around the shared state only serialises accesses; the
 * model runs them one after another.
 */
module CallbackFuture {
  import opened Wrappers
  import opened Sequences
  import opened Introspect
  import opened ToStatic
  import opened Channel

  // ------------------------------------------------------------------ WakerSet

  /** A waker, identified by the task it wakes. */
  datatype Waker = Waker(task: nat)

  /** `Waker::will_wake`: both wake the same task. */
  predicate WillWake(a: Waker, b: Waker) {
    a.task == b.task
  }

  /** A cell holding at most one waker. */
  class WakerSet {
    var waker: Option<Waker>

    /** `WakerSet::new`: the cell starts empty. */
    constructor ()
      ensures waker == None
    {
      waker := None;
    }

    /**
     * `WakerSet::register`. The guard of the first arm binds the stored waker
     * under the argument's name, so it compares the stored waker with itself:
     * an occupied cell keeps what it holds and the `panic!` arm is dead.
     */
    method Register(w: Waker)
      modifies this
      ensures waker == if old(waker) == None then Some(w) else old(waker)
    {
      match waker
      case Some(stored) =>
        if WillWake(stored, stored) {
        } else {
          assert false;  // `panic!("Waker overflow")`
        }
      case None =>
        waker := Some(w);
    }

    /** `WakerSet::wake`: takes the stored waker (if any) and wakes it; `woken` is the waker woken. */
    method Wake() returns (woken: Option<Waker>)
      modifies this
      ensures waker == None
      ensures woken == old(waker)
    {
      woken := waker;
      waker := None;
    }
  }

  // ------------------------------------------------------------ CallbackFuture

  datatype CallbackFutureState<R> = Running(wakers: WakerSet) | Done(result: Option<R>)

  /** What one `poll` does: `Poll::Pending`, `Poll::Ready(r)`, or the panic of `unwrap` on `None`. */
  datatype PollOutcome<R> = Pending | Ready(value: R) | UnwrapOnNone

  /**
   * The state shared by the future and its callback. `Poll` is
   * `Future::poll`; `Callback` is the closure returned by `CallbackFuture::new`.
   */
  class CallbackFuture<R> {
    var state: CallbackFutureState<R>

    /** The objects a poll may change: this cell and, while running, its waker set. */
    ghost function Frame(): set<object>
      reads this
    {
      if state.Running? then {this, state.wakers} else {this}
    }

    /** `CallbackFuture::new`: running, with an empty waker set. */
    constructor ()
      ensures state.Running? && fresh(state.wakers) && state.wakers.waker == None
    {
      var wakers := new WakerSet();
      state := Running(wakers);
    }

    /**
     * The callback stores its result, replacing whatever state there was
     * (an earlier result too). It does not wake the registered waker: the
     * waker set is dropped untouched.
     */
    method Callback(r: R)
      modifies this
      ensures state == Done(Some(r))
    {
      state := Done(Some(r));
    }

    /**
     * `poll`: while running, registers `cx` and answers pending; once done,
     * hands out the result and leaves `Done(None)`; a poll after that
     * unwraps `None`.
     */
    method Poll(cx: Waker) returns (p: PollOutcome<R>)
      modifies Frame()
      ensures old(state).Running? ==>
        && p == Pending
        && state == old(state)
        && state.wakers.waker == (if old(state.wakers.waker) == None then Some(cx) else old(state.wakers.waker))
      ensures old(state) == Done(None) ==> p == UnwrapOnNone && state == Done(None)
      ensures old(state).Done? && old(state).result.Some? ==>
        p == Ready(old(state).result.value) && state == Done(None)
    {
      match state
      case Running(w) =>
        w.Register(cx);
        p := Pending;
      case Done(r) =>
        state := Done(None);
        if r.Some? {
          p := Ready(r.value);
        } else {
          p := UnwrapOnNone;
        }
    }
  }

  /**
   * The sequence poll, callback, poll, poll on a fresh future: the waker
   * registered by the first poll is still stored after the callback, never
   * woken; the result comes out once, and the poll after that unwraps `None`.
   */
  method PollCallbackPoll<R>(w: Waker, r: R)
    returns (first: PollOutcome<R>, stillStored: Option<Waker>, second: PollOutcome<R>, third: PollOutcome<R>)
    ensures first == Pending
    ensures stillStored == Some(w)
    ensures second == Ready(r)
    ensures third == UnwrapOnNone
  {
    var future := new CallbackFuture<R>();
    var wakers := future.state.wakers;
    first := future.Poll(w);
    future.Callback(r);
    stillStored := wakers.waker;
    second := future.Poll(w);
    third := future.Poll(w);
  }

  // ----------------------------------------------------------------- MakeOwned

  // The `MakeOwned` impls for `SinkPortInfo` and `SourcePortInfo` are the same
  // expressions as their `ToStatic` impls, so ports use `PortToStatic`.

  /** `SinkInfo::make_owned`: every text field copied to owned text, ports converted one by one. */
  function SinkMakeOwned(x: SinkInfo): (r: SinkInfo)
    ensures SinkIsStatic(r) && SinkContentEq(x, r)
  {
    x.(
      name := OwnText(x.name),
      description := OwnText(x.description),
      monitorSourceName := OwnText(x.monitorSourceName),
      driver := OwnText(x.driver),
      ports := Map(x.ports, PortToStatic),
      activePort := x.activePort.Map((b: Box<PortInfo>) => Box(PortToStatic(b.inner))))
  }

  function SourceMakeOwned(x: SourceInfo): (r: SourceInfo)
    ensures SourceIsStatic(r) && SourceContentEq(x, r)
  {
    x.(
      name := OwnText(x.name),
      description := OwnText(x.description),
      driver := OwnText(x.driver),
      ports := Map(x.ports, PortToStatic),
      activePort := x.activePort.Map((b: Box<PortInfo>) => Box(PortToStatic(b.inner))),
      monitorOfSinkName := OwnText(x.monitorOfSinkName))
  }

  /** The two normalisers of a sink agree on every input. */
  lemma SinkMakeOwnedIsToStatic(x: SinkInfo)
    ensures SinkMakeOwned(x) == SinkToStatic(x)
  {
    SinkToStaticUnique(x, SinkMakeOwned(x));
  }

  /** The two normalisers of a source agree on every input. */
  lemma SourceMakeOwnedIsToStatic(x: SourceInfo)
    ensures SourceMakeOwned(x) == SourceToStatic(x)
  {
    SourceToStaticUnique(x, SourceMakeOwned(x));
  }

  // ------------------------------------------------------ callback_list_stream

  /** libpulse's `ListResult`: one item, the end of the list, or an error. */
  datatype ListResult<T> = Item(item: T) | End | Error

  /** The queue after one call of the list callback. */
  function ListStep<T, O>(q: seq<O>, c: ListResult<T>, normalize: T -> O): seq<O> {
    match c
    case Item(it) => Offer(q, normalize(it))
    case End => q
    case Error => q
  }

  /** The queue after a series of list callbacks with no receive in between. */
  function ListSteps<T, O>(q: seq<O>, cs: seq<ListResult<T>>, normalize: T -> O): seq<O>
    decreases |cs|
  {
    if cs == [] then q else ListSteps(ListStep(q, cs[0], normalize), cs[1..], normalize)
  }

  /** Each item wrapped as `ListResult::Item`, in order. */
  function Items<T>(xs: seq<T>): seq<ListResult<T>> {
    Map(xs, (x: T) => Item(x))
  }

  /**
   * What a list stream's receiver yields when libpulse reports `items`: the
   * first `Capacity` of them, normalised, in the order they were reported.
   */
  function ListStreamOutput<T, O>(items: seq<T>, normalize: T -> O): (r: seq<O>)
    ensures |r| == Min(|items|, Capacity)
    ensures forall i :: 0 <= i < |r| ==> r[i] == normalize(items[i])
  {
    Map(items[..Min(|items|, Capacity)], normalize)
  }

  lemma {:induction false} ListStepsOfItems<T, O>(q: seq<O>, xs: seq<T>, normalize: T -> O)
    ensures ListSteps(q, Items(xs), normalize) == OfferAll(q, Map(xs, normalize))
    decreases |xs|
  {
    if xs != [] {
      assert Items(xs)[1..] == Items(xs[1..]);
      assert Map(xs, normalize)[1..] == Map(xs[1..], normalize);
      ListStepsOfItems(Offer(q, normalize(xs[0])), xs[1..], normalize);
    }
  }

  /**
   * A list of N items followed by `End` or `Error` fills a fresh stream with
   * the normalised items in order, up to the capacity; the terminal signal
   * adds nothing.
   */
  lemma ListCallbacksYieldItems<T, O>(items: seq<T>, terminal: ListResult<T>, normalize: T -> O)
    requires !terminal.Item?
    ensures ListSteps([], Items(items) + [terminal], normalize) == ListStreamOutput(items, normalize)
  {
    var q := ListSteps([], Items(items), normalize);
    ListStepsAppend([], Items(items), [terminal], normalize);
    assert ListSteps(q, [terminal], normalize) == q;
    ListStepsOfItems([], items, normalize);
    OfferAllKeepsPrefix([], Map(items, normalize));
    assert Map(items, normalize)[..Min(|items|, Capacity)] == ListStreamOutput(items, normalize);
  }

  lemma {:induction false} ListStepsAppend<T, O>(q: seq<O>, a: seq<ListResult<T>>, b: seq<ListResult<T>>, normalize: T -> O)
    ensures ListSteps(q, a + b, normalize) == ListSteps(ListSteps(q, a, normalize), b, normalize)
    decreases |a|
  {
    if a == [] {
      assert a + b == b;
    } else {
      assert (a + b)[1..] == a[1..] + b;
      ListStepsAppend(ListStep(q, a[0], normalize), a[1..], b, normalize);
    }
  }

  /**
   * `callback_list_stream`: the callback handed to libpulse together with
   * the receiving end of its channel.
   */
  class ListCallbackStream<T, O> {
    const normalize: T -> O
    const receiver: Channel<O>

    constructor (normalize: T -> O)
      ensures this.normalize == normalize
      ensures fresh(receiver) && receiver.Valid() && receiver.queue == []
    {
      this.normalize := normalize;
      receiver := new Channel<O>();
    }

    /** `Item` is normalised and offered to the channel (dropped when full); `End` and `Error` do nothing. */
    method Callback(c: ListResult<T>)
      requires receiver.Valid()
      modifies receiver
      ensures receiver.Valid()
      ensures receiver.queue == ListStep(old(receiver.queue), c, normalize)
    {
      match c
      case Item(it) =>
        var accepted := receiver.TrySend(normalize(it));
      case End =>
      case Error =>
    }
  }

  /** `callback_stream_sink_info`: a list stream normalising with `SinkInfo::make_owned`. */
  method CallbackStreamSinkInfo() returns (s: ListCallbackStream<SinkInfo, SinkInfo>)
    ensures fresh(s) && fresh(s.receiver)
    ensures s.normalize == SinkMakeOwned
    ensures s.receiver.Valid() && s.receiver.queue == []
  {
    s := new ListCallbackStream(SinkMakeOwned);
  }

  /** `callback_stream_source_info`: a list stream normalising with `SourceInfo::make_owned`. */
  method CallbackStreamSourceInfo() returns (s: ListCallbackStream<SourceInfo, SourceInfo>)
    ensures fresh(s) && fresh(s.receiver)
    ensures s.normalize == SourceMakeOwned
    ensures s.receiver.Valid() && s.receiver.queue == []
  {
    s := new ListCallbackStream(SourceMakeOwned);
  }
}
