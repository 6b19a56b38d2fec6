/**
 Collecting a connection's envelopes into batches: in order, none lost, bounded in number and size, and
 never behind a lease release that came after them.
 */
module IngestBatcher {
  import opened Common

  datatype Queued<T> = Queued(envelope: T, size: nat)

  /** What the ingest loop gets next, and when: an envelope, an ordered control message, or nothing in time. */
  datatype Input<T> = Envelope(queued: Queued<T>, now: Time) | Control(release: bool) | Elapsed(now: Time)

  /** What the loop does, in order. */
  datatype Output<T> = Flushed(batch: seq<Queued<T>>) | Handled(release: bool)

  function Bytes<T>(queue: seq<Queued<T>>): nat {
    if queue == [] then 0 else Bytes(queue[..|queue| - 1]) + queue[|queue| - 1].size
  }

  lemma BytesGrow<T>(queue: seq<Queued<T>>, item: Queued<T>)
    ensures Bytes(queue + [item]) == Bytes(queue) + item.size
  {
    assert (queue + [item])[..|queue|] == queue;
  }

  class Batcher<T> {
    const maxMessages: int
    const maxBytes: int
    var queued: seq<Queued<T>>
    var bytes: nat
    var firstAt: Option<Time>

    ghost predicate Valid()
      reads this
    {
      bytes == Bytes(queued) && (firstAt.None? <==> queued == [])
    }

    constructor (maxMessages: int, maxBytes: int)
      ensures Valid() && queued == [] && this.maxMessages == maxMessages && this.maxBytes == maxBytes
    {
      this.maxMessages, this.maxBytes := maxMessages, maxBytes;
      queued, bytes, firstAt := [], 0, None;
    }

    method Add(item: Queued<T>, now: Time)
      requires Valid()
      modifies this
      ensures Valid() && queued == old(queued) + [item]
      ensures firstAt == if old(firstAt).Some? then old(firstAt) else Some(now)
    {
      hide Bytes;
      if firstAt.None? {
        firstAt := Some(now);
      }
      BytesGrow(queued, item);
      queued := queued + [item];
      bytes := bytes + item.size;
    }

    predicate Full()
      reads this
    {
      |queued| >= maxMessages || bytes >= maxBytes
    }

    predicate WindowExpired(now: Time, window: Time)
      reads this
    {
      firstAt.Some? && now - firstAt.value >= window
    }

    /** How long the loop may wait: not at all past the window, for ever with nothing queued. */
    function PollTimeout(now: Time, window: Time): (wait: Option<Time>)
      requires Valid()
      reads this
      ensures wait.None? <==> queued == []
      ensures wait.Some? && WindowExpired(now, window) ==> wait.value == 0
      ensures wait.Some? && !WindowExpired(now, window) ==> wait.value + (now - firstAt.value) == window
    {
      if queued == [] || firstAt.None? then None else Some(Max(window - (now - firstAt.value), 0))
    }

    predicate ShouldFlush(now: Time, window: Time)
      reads this
    {
      queued != [] && (Full() || WindowExpired(now, window))
    }

    method Take() returns (batch: seq<Queued<T>>)
      requires Valid()
      modifies this
      ensures Valid() && batch == old(queued) && queued == []
    {
      batch := queued;
      queued, bytes, firstAt := [], 0, None;
    }
  }

  // ---------------------------------------------------------------- the loop

  /** The envelopes that arrived. */
  function Arrived<T>(inputs: seq<Input<T>>): seq<Queued<T>> {
    if inputs == [] then []
    else
      Arrived(inputs[..|inputs| - 1])
      + (if inputs[|inputs| - 1].Envelope? then [inputs[|inputs| - 1].queued] else [])
  }

  /** The envelopes that were handed on. */
  function HandedOn<T>(outputs: seq<Output<T>>): seq<Queued<T>> {
    if outputs == [] then []
    else
      HandedOn(outputs[..|outputs| - 1])
      + (if outputs[|outputs| - 1].Flushed? then outputs[|outputs| - 1].batch else [])
  }

  lemma HandingOn<T>(outputs: seq<Output<T>>, o: Output<T>)
    ensures HandedOn(outputs + [o]) == HandedOn(outputs) + if o.Flushed? then o.batch else []
  {
    assert (outputs + [o])[..|outputs|] == outputs;
  }

  lemma Arriving<T>(inputs: seq<Input<T>>, k: nat)
    requires k < |inputs|
    ensures Arrived(inputs[..k + 1]) == Arrived(inputs[..k]) + if inputs[k].Envelope? then [inputs[k].queued] else []
  {
    assert inputs[..k + 1][..k] == inputs[..k];
  }

  // ---------------------------------------------------------------- the loop, as a function of what came

  /** The loop between two inputs. */
  datatype Loop<T> = Loop(queue: seq<Queued<T>>, firstAt: Option<Time>, outputs: seq<Output<T>>)

  predicate Over<T>(queue: seq<Queued<T>>, maxMessages: int, maxBytes: int) {
    |queue| >= maxMessages || Bytes(queue) >= maxBytes
  }

  function Flush<T>(l: Loop<T>): Loop<T> {
    if l.queue == [] then l else Loop([], None, l.outputs + [Flushed(l.queue)])
  }

  function Turned<T>(l: Loop<T>, input: Input<T>, maxMessages: int, maxBytes: int, window: Time): Loop<T> {
    match input
    case Control(release) =>
      var l := if release then Flush(l) else l;
      l.(outputs := l.outputs + [Handled(release)])
    case Elapsed(_) => Flush(l)
    case Envelope(queued, now) =>
      var first := if l.firstAt.Some? then l.firstAt.value else now;
      var l := Loop(l.queue + [queued], Some(first), l.outputs);
      if Over(l.queue, maxMessages, maxBytes) || now - first >= window then Flush(l) else l
  }

  function Looped<T>(inputs: seq<Input<T>>, maxMessages: int, maxBytes: int, window: Time): Loop<T> {
    if inputs == [] then Loop([], None, [])
    else
      Turned(Looped(inputs[..|inputs| - 1], maxMessages, maxBytes, window), inputs[|inputs| - 1], maxMessages, maxBytes,
             window)
  }

  lemma LoopedNext<T>(inputs: seq<Input<T>>, k: nat, maxMessages: int, maxBytes: int, window: Time)
    requires k < |inputs|
    ensures Looped(inputs[..k + 1], maxMessages, maxBytes, window)
         == Turned(Looped(inputs[..k], maxMessages, maxBytes, window), inputs[k], maxMessages, maxBytes, window)
  {
    hide Turned;
    assert inputs[..k + 1][..k] == inputs[..k];
  }

  /** One item fewer and there was room: a batch is as small as the limits ask. */
  ghost predicate Bounded<T>(batch: seq<Queued<T>>, maxMessages: int, maxBytes: int) {
    batch != [] && (|batch| > 1 ==> |batch| <= maxMessages && Bytes(batch[..|batch| - 1]) < maxBytes)
  }

  /** What was arrived before a release was handed on before it. */
  ghost predicate NothingBehindReleases<T>(inputs: seq<Input<T>>, outputs: seq<Output<T>>) {
    forall n :: 0 <= n < |outputs| && outputs[n] == Handled(true) ==> JustBeforeRelease(inputs, HandedOn(outputs[..n]))
  }

  /** These are the envelopes that arrived before one of the releases. */
  ghost predicate JustBeforeRelease<T>(inputs: seq<Input<T>>, handed: seq<Queued<T>>) {
    exists k :: ReleaseAt(inputs, k) && handed == Arrived(inputs[..k])
  }

  ghost predicate ReleaseAt<T>(inputs: seq<Input<T>>, k: int) {
    0 <= k < |inputs| && inputs[k] == Control(true)
  }

  lemma StillBeforeRelease<T>(inputs: seq<Input<T>>, k: nat, handed: seq<Queued<T>>)
    requires k < |inputs| && JustBeforeRelease(inputs[..k], handed)
    ensures JustBeforeRelease(inputs[..k + 1], handed)
  {
    var m :| ReleaseAt(inputs[..k], m) && handed == Arrived(inputs[..k][..m]);
    assert ReleaseAt(inputs[..k + 1], m) && inputs[..k + 1][..m] == inputs[..k][..m];
  }

  lemma ReleasesStay<T>(inputs: seq<Input<T>>, k: nat, outputs: seq<Output<T>>, more: Output<T>)
    requires k < |inputs| && NothingBehindReleases(inputs[..k], outputs)
    requires more == Handled(true) ==> inputs[k] == Control(true) && HandedOn(outputs) == Arrived(inputs[..k])
    ensures NothingBehindReleases(inputs[..k + 1], outputs + [more])
  {
    var all := outputs + [more];
    forall n | 0 <= n < |all| && all[n] == Handled(true)
      ensures JustBeforeRelease(inputs[..k + 1], HandedOn(all[..n]))
    {
      if n < |outputs| {
        assert all[..n] == outputs[..n] && outputs[n] == Handled(true);
        StillBeforeRelease(inputs, k, HandedOn(outputs[..n]));
      } else {
        assert all[..n] == outputs && ReleaseAt(inputs[..k + 1], k) && inputs[..k + 1][..k] == inputs[..k];
      }
    }
  }

  lemma ReleasesWait<T>(inputs: seq<Input<T>>, k: nat, outputs: seq<Output<T>>)
    requires k < |inputs| && NothingBehindReleases(inputs[..k], outputs)
    ensures NothingBehindReleases(inputs[..k + 1], outputs)
  {
    forall n | 0 <= n < |outputs| && outputs[n] == Handled(true)
      ensures JustBeforeRelease(inputs[..k + 1], HandedOn(outputs[..n]))
    {
      StillBeforeRelease(inputs, k, HandedOn(outputs[..n]));
    }
  }

  ghost predicate AllBounded<T>(outputs: seq<Output<T>>, maxMessages: int, maxBytes: int) {
    forall n :: 0 <= n < |outputs| && outputs[n].Flushed? ==> Bounded(outputs[n].batch, maxMessages, maxBytes)
  }

  /** Waiting for one more item: the queue has room, or is empty. */
  ghost predicate Room<T>(queue: seq<Queued<T>>, maxMessages: int, maxBytes: int) {
    queue == [] || (|queue| < maxMessages && Bytes(queue) < maxBytes)
  }

  /** The queue becomes a batch. */
  method FlushNow<T>(batcher: Batcher<T>, inputs: seq<Input<T>>, before: seq<Output<T>>)
    returns (outputs: seq<Output<T>>)
    requires batcher.Valid() && Bounded(batcher.queued, batcher.maxMessages, batcher.maxBytes)
    requires AllBounded(before, batcher.maxMessages, batcher.maxBytes) && NothingBehindReleases(inputs, before)
    modifies batcher
    ensures batcher.Valid() && batcher.queued == [] && HandedOn(outputs) == HandedOn(before) + old(batcher.queued)
    ensures batcher.firstAt == None && outputs == before + [Flushed(old(batcher.queued))]
    ensures AllBounded(outputs, batcher.maxMessages, batcher.maxBytes) && NothingBehindReleases(inputs, outputs)
  {
    var batch := batcher.Take();
    outputs := before + [Flushed(batch)];
    HandingOn(before, Flushed(batch));
    forall n | 0 <= n < |outputs| && outputs[n] == Handled(true)
      ensures JustBeforeRelease(inputs, HandedOn(outputs[..n]))
    {
      assert before[n] == outputs[n] && outputs[..n] == before[..n];
    }
  }

  lemma NothingYet<T>(maxMessages: int, maxBytes: int)
    ensures HandedOn<T>([]) == [] && Arrived<T>([]) == []
    ensures AllBounded<T>([], maxMessages, maxBytes) && NothingBehindReleases<T>([], [])
  {
  }

  lemma NothingLooped<T>(maxMessages: int, maxBytes: int, window: Time)
    ensures Looped<T>([], maxMessages, maxBytes, window) == Loop([], None, [])
  {
  }

  lemma HandledIsBounded<T>(outputs: seq<Output<T>>, release: bool, maxMessages: int, maxBytes: int)
    requires AllBounded(outputs, maxMessages, maxBytes)
    ensures AllBounded(outputs + [Handled(release)], maxMessages, maxBytes)
  {
  }

  lemma RoomIsBounded<T>(queue: seq<Queued<T>>, maxMessages: int, maxBytes: int)
    requires queue != [] && Room(queue, maxMessages, maxBytes)
    ensures Bounded(queue, maxMessages, maxBytes)
  {
    assert Bytes(queue) == Bytes(queue[..|queue| - 1]) + queue[|queue| - 1].size;
  }

  /**
   The ingest loop: whatever comes, what is handed on and what is still queued are the envelopes in the order
   they arrived; every batch is bounded; and a release is handled after all that arrived before it.
   */
  method RunIngest<T>(batcher: Batcher<T>, inputs: seq<Input<T>>, window: Time) returns (outputs: seq<Output<T>>)
    requires batcher.Valid() && batcher.queued == []
    modifies batcher
    ensures batcher.Valid() && HandedOn(outputs) + batcher.queued == Arrived(inputs)
    ensures AllBounded(outputs, batcher.maxMessages, batcher.maxBytes)
    ensures Room(batcher.queued, batcher.maxMessages, batcher.maxBytes)
    ensures NothingBehindReleases(inputs, outputs)
    ensures Loop(batcher.queued, batcher.firstAt, outputs)
         == Looped(inputs, batcher.maxMessages, batcher.maxBytes, window)
  {
    hide Looped;
    hide Arrived, HandedOn, Bytes, NothingBehindReleases, AllBounded;
    outputs := [];
    NothingYet<T>(batcher.maxMessages, batcher.maxBytes);
    NothingLooped<T>(batcher.maxMessages, batcher.maxBytes, window);
    assert inputs[..0] == [];
    for k := 0 to |inputs|
      invariant batcher.Valid() && HandedOn(outputs) + batcher.queued == Arrived(inputs[..k])
      invariant AllBounded(outputs, batcher.maxMessages, batcher.maxBytes)
      invariant Room(batcher.queued, batcher.maxMessages, batcher.maxBytes)
      invariant NothingBehindReleases(inputs[..k], outputs)
      invariant Loop(batcher.queued, batcher.firstAt, outputs)
             == Looped(inputs[..k], batcher.maxMessages, batcher.maxBytes, window)
    {
      Arriving(inputs, k);
      LoopedNext(inputs, k, batcher.maxMessages, batcher.maxBytes, window);
      match inputs[k] {
        case Control(release) =>
          if release && batcher.queued != [] {
            RoomIsBounded(batcher.queued, batcher.maxMessages, batcher.maxBytes);
            outputs := FlushNow(batcher, inputs[..k], outputs);
          }
          HandingOn(outputs, Handled(release));
          HandledIsBounded(outputs, release, batcher.maxMessages, batcher.maxBytes);
          assert HandedOn(outputs) + [] == HandedOn(outputs) && Arrived(inputs[..k]) + [] == Arrived(inputs[..k]);
          ReleasesStay(inputs, k, outputs, Handled(release));
          outputs := outputs + [Handled(release)];
        case Elapsed(now) =>
          if batcher.queued != [] {
            RoomIsBounded(batcher.queued, batcher.maxMessages, batcher.maxBytes);
            outputs := FlushNow(batcher, inputs[..k], outputs);
          }
          ReleasesWait(inputs, k, outputs);
        case Envelope(queued, now) =>
          ReleasesWait(inputs, k, outputs);
          ghost var before := batcher.queued;
          batcher.Add(queued, now);
          assert batcher.queued[..|batcher.queued| - 1] == before;
          assert HandedOn(outputs) + batcher.queued == (HandedOn(outputs) + before) + [queued];
          if batcher.ShouldFlush(now, window) {
            outputs := FlushNow(batcher, inputs[..k + 1], outputs);
          }
      }
    }
    assert inputs[..|inputs|] == inputs;
  }

  // ---------------------------------------------------------------- when the loop hands on

  /** The control messages that came, and those handled. */
  function Controls<T>(inputs: seq<Input<T>>): seq<bool> {
    if inputs == [] then []
    else
      Controls(inputs[..|inputs| - 1])
      + (if inputs[|inputs| - 1].Control? then [inputs[|inputs| - 1].release] else [])
  }

  function Handlings<T>(outputs: seq<Output<T>>): seq<bool> {
    if outputs == [] then []
    else
      Handlings(outputs[..|outputs| - 1])
      + (if outputs[|outputs| - 1].Handled? then [outputs[|outputs| - 1].release] else [])
  }

  /** When each envelope arrived. */
  function Moments<T>(inputs: seq<Input<T>>): (moments: seq<Time>)
    ensures |moments| == |Arrived(inputs)|
  {
    if inputs == [] then []
    else
      Moments(inputs[..|inputs| - 1])
      + (if inputs[|inputs| - 1].Envelope? then [inputs[|inputs| - 1].now] else [])
  }

  /** The queue is what arrived from step `k` on, and nothing since then asked for it. */
  ghost predicate Waits<T>(inputs: seq<Input<T>>, l: Loop<T>, k: int, window: Time) {
    && 0 <= k < |inputs| && inputs[k].Envelope? && l.firstAt == Some(inputs[k].now)
    && l.queue == Arrived(inputs[k..])
    && forall m :: k <= m < |inputs| ==>
         inputs[m] == Control(false) || (inputs[m].Envelope? && inputs[m].now - inputs[k].now < window)
  }

  /** The last `size` envelopes to arrive span the window. */
  predicate Spans<T>(inputs: seq<Input<T>>, size: nat, window: Time) {
    var moments := Moments(inputs);
    1 <= size <= |moments| && moments[|moments| - 1] - moments[|moments| - size] >= window
  }

  /** Why a batch was handed on when it was: over a limit, over the window, or asked for by what came next. */
  ghost predicate DueAt<T>(inputs: seq<Input<T>>, outputs: seq<Output<T>>, n: int, k: int, maxMessages: int,
                           maxBytes: int, window: Time) {
    && 0 <= n < |outputs| && outputs[n].Flushed? && 0 <= k <= |inputs|
    && HandedOn(outputs[..n + 1]) == Arrived(inputs[..k])
    && (|| Over(outputs[n].batch, maxMessages, maxBytes)
        || Spans(inputs[..k], |outputs[n].batch|, window)
        || (k < |inputs| && (inputs[k].Elapsed? || inputs[k] == Control(true))))
  }

  ghost predicate Due<T>(inputs: seq<Input<T>>, outputs: seq<Output<T>>, n: int, maxMessages: int, maxBytes: int,
                         window: Time) {
    exists k :: DueAt(inputs, outputs, n, k, maxMessages, maxBytes, window)
  }

  lemma HandlingNext<T>(outputs: seq<Output<T>>, o: Output<T>)
    ensures Handlings(outputs + [o]) == Handlings(outputs) + if o.Handled? then [o.release] else []
  {
    assert (outputs + [o])[..|outputs|] == outputs;
  }

  lemma FlushHandles<T>(l: Loop<T>)
    ensures Handlings(Flush(l).outputs) == Handlings(l.outputs)
    ensures HandedOn(Flush(l).outputs) + Flush(l).queue == HandedOn(l.outputs) + l.queue
  {
    if l.queue != [] {
      HandlingNext(l.outputs, Flushed(l.queue));
      HandingOn(l.outputs, Flushed(l.queue));
    }
  }

  /** Every control message is handled, once and in order. */
  lemma {:induction false} ControlsAreHandled<T>(inputs: seq<Input<T>>, maxMessages: int, maxBytes: int, window: Time)
    ensures var l := Looped(inputs, maxMessages, maxBytes, window);
      && Handlings(l.outputs) == Controls(inputs)
      && HandedOn(l.outputs) + l.queue == Arrived(inputs)
  {
    hide Flush, Handlings, HandedOn, Over;
    if inputs == [] {
      NothingHandled<T>();
    } else {
      var front, last := inputs[..|inputs| - 1], inputs[|inputs| - 1];
      var l := Looped(front, maxMessages, maxBytes, window);
      ControlsAreHandled(front, maxMessages, maxBytes, window);
      match last
      case Control(release) =>
        FlushHandles(l);
        var before := if release then Flush(l) else l;
        HandlingNext(before.outputs, Handled(release));
        HandingOn(before.outputs, Handled(release));
        assert HandedOn(before.outputs) + [] == HandedOn(before.outputs);
      case Elapsed(_) => FlushHandles(l);
      case Envelope(queued, now) =>
        var first := if l.firstAt.Some? then l.firstAt.value else now;
        FlushHandles(Loop(l.queue + [queued], Some(first), l.outputs));
        assert HandedOn(l.outputs) + (l.queue + [queued]) == (HandedOn(l.outputs) + l.queue) + [queued];
    }
  }

  lemma NothingHandled<T>()
    ensures Handlings<T>([]) == [] && HandedOn<T>([]) == []
  {
  }

  /**
   What is still queued has waited for less than the window, is within the limits, and nothing has asked
   for it since its first envelope arrived.
   */
  lemma {:induction false} QueueWaitsOnlyInTheWindow<T>(inputs: seq<Input<T>>, maxMessages: int, maxBytes: int,
                                                        window: Time)
    ensures var l := Looped(inputs, maxMessages, maxBytes, window);
      && (l.queue == [] <==> l.firstAt.None?)
      && (l.queue != [] ==> !Over(l.queue, maxMessages, maxBytes) && exists k :: Waits(inputs, l, k, window))
  {
    hide Over;
    if inputs != [] {
      var front, last := inputs[..|inputs| - 1], inputs[|inputs| - 1];
      var before, l := Looped(front, maxMessages, maxBytes, window), Looped(inputs, maxMessages, maxBytes, window);
      QueueWaitsOnlyInTheWindow(front, maxMessages, maxBytes, window);
      if l.queue != [] {
        if before.queue == [] {
          WaitsFromNow(inputs, l, window);
        } else {
          var k :| Waits(front, before, k, window);
          WaitsOn(inputs, before, l, k, window);
        }
      }
    }
  }

  lemma WaitsFromNow<T>(inputs: seq<Input<T>>, l: Loop<T>, window: Time)
    requires inputs != [] && inputs[|inputs| - 1].Envelope? && 0 < window
    requires l.queue == [inputs[|inputs| - 1].queued] && l.firstAt == Some(inputs[|inputs| - 1].now)
    ensures Waits(inputs, l, |inputs| - 1, window)
  {
    assert inputs[|inputs| - 1..] == [inputs[|inputs| - 1]];
  }

  lemma WaitsOn<T>(inputs: seq<Input<T>>, before: Loop<T>, l: Loop<T>, k: int, window: Time)
    requires inputs != [] && Waits(inputs[..|inputs| - 1], before, k, window) && l.firstAt == before.firstAt
    requires var last := inputs[|inputs| - 1];
      || (last == Control(false) && l.queue == before.queue)
      || (last.Envelope? && l.queue == before.queue + [last.queued] && last.now - before.firstAt.value < window)
    ensures Waits(inputs, l, k, window)
  {
    assert inputs[k..][..|inputs| - 1 - k] == inputs[..|inputs| - 1][k..];
  }

  ghost predicate FirstMoment<T>(inputs: seq<Input<T>>, l: Loop<T>) {
    l.queue != [] ==>
      var moments := Moments(inputs);
      |l.queue| <= |moments| && l.firstAt == Some(moments[|moments| - |l.queue|])
  }

  lemma {:induction false} FirstIsTheFirstMoment<T>(inputs: seq<Input<T>>, maxMessages: int, maxBytes: int,
                                                    window: Time)
    ensures FirstMoment(inputs, Looped(inputs, maxMessages, maxBytes, window))
  {
    hide Over;
    if inputs != [] {
      FirstIsTheFirstMoment(inputs[..|inputs| - 1], maxMessages, maxBytes, window);
      QueueWaitsOnlyInTheWindow(inputs[..|inputs| - 1], maxMessages, maxBytes, window);
    }
  }

  lemma DueStays<T>(inputs: seq<Input<T>>, outputs: seq<Output<T>>, more: seq<Output<T>>, n: int, maxMessages: int,
                    maxBytes: int, window: Time)
    requires inputs != [] && outputs <= more
    requires Due(inputs[..|inputs| - 1], outputs, n, maxMessages, maxBytes, window)
    ensures Due(inputs, more, n, maxMessages, maxBytes, window)
  {
    hide HandedOn, Arrived, Over, Spans;
    var front := inputs[..|inputs| - 1];
    var k :| DueAt(front, outputs, n, k, maxMessages, maxBytes, window);
    assert more[..n + 1] == outputs[..n + 1] && front[..k] == inputs[..k];
    assert DueAt(inputs, more, n, k, maxMessages, maxBytes, window);
  }

  /** A flush asked for by the last input. */
  lemma DueByRequest<T>(inputs: seq<Input<T>>, l: Loop<T>, more: seq<Output<T>>, maxMessages: int, maxBytes: int,
                        window: Time)
    requires inputs != [] && l.queue != [] && l.outputs + [Flushed(l.queue)] <= more
    requires HandedOn(l.outputs) + l.queue == Arrived(inputs[..|inputs| - 1])
    requires inputs[|inputs| - 1].Elapsed? || inputs[|inputs| - 1] == Control(true)
    ensures Due(inputs, more, |l.outputs|, maxMessages, maxBytes, window)
  {
    hide HandedOn, Arrived, Over, Spans;
    HandingOn(l.outputs, Flushed(l.queue));
    assert more[..|l.outputs| + 1] == l.outputs + [Flushed(l.queue)];
    assert DueAt(inputs, more, |l.outputs|, |inputs| - 1, maxMessages, maxBytes, window);
  }

  /** A flush by the last envelope, over a limit or over the window. */
  lemma DueByEnvelope<T>(inputs: seq<Input<T>>, l: Loop<T>, maxMessages: int, maxBytes: int, window: Time)
    requires HandedOn(l.outputs) + l.queue == Arrived(inputs)
    requires Over(l.queue, maxMessages, maxBytes) || Spans(inputs, |l.queue|, window)
    ensures Due(inputs, l.outputs + [Flushed(l.queue)], |l.outputs|, maxMessages, maxBytes, window)
  {
    hide HandedOn, Arrived, Over, Spans;
    var more := l.outputs + [Flushed(l.queue)];
    HandingOn(l.outputs, Flushed(l.queue));
    assert more[..|l.outputs| + 1] == more && inputs[..|inputs|] == inputs;
    assert DueAt(inputs, more, |l.outputs|, |inputs|, maxMessages, maxBytes, window);
  }

  lemma SpansNow<T>(inputs: seq<Input<T>>, l: Loop<T>, window: Time)
    requires inputs != [] && inputs[|inputs| - 1].Envelope? && (l.queue == [] <==> l.firstAt.None?)
    requires FirstMoment(inputs[..|inputs| - 1], l)
    ensures var now := inputs[|inputs| - 1].now;
      var first := if l.firstAt.Some? then l.firstAt.value else now;
      now - first >= window ==> Spans(inputs, |l.queue| + 1, window)
  {
  }

  /** No batch is handed on before it is due. */
  lemma {:induction false} FlushesAreDue<T>(inputs: seq<Input<T>>, maxMessages: int, maxBytes: int, window: Time)
    ensures var outputs := Looped(inputs, maxMessages, maxBytes, window).outputs;
      forall n :: 0 <= n < |outputs| && outputs[n].Flushed? ==> Due(inputs, outputs, n, maxMessages, maxBytes, window)
  {
    hide Over, Due, HandedOn, Arrived, FirstMoment, Spans;
    if inputs != [] {
      var front, last := inputs[..|inputs| - 1], inputs[|inputs| - 1];
      var l := Looped(front, maxMessages, maxBytes, window);
      var outputs := Looped(inputs, maxMessages, maxBytes, window).outputs;
      FlushesAreDue(front, maxMessages, maxBytes, window);
      ControlsAreHandled(front, maxMessages, maxBytes, window);
      QueueWaitsOnlyInTheWindow(front, maxMessages, maxBytes, window);
      FirstIsTheFirstMoment(front, maxMessages, maxBytes, window);
      forall n | 0 <= n < |outputs| && outputs[n].Flushed?
        ensures Due(inputs, outputs, n, maxMessages, maxBytes, window)
      {
        if n < |l.outputs| {
          DueStays(inputs, l.outputs, outputs, n, maxMessages, maxBytes, window);
        } else if last.Envelope? {
          ArrivedNext(inputs);
          SpansNow(inputs, l, window);
          var own := Loop(l.queue + [last.queued], l.firstAt, l.outputs);
          assert HandedOn(l.outputs) + own.queue == (HandedOn(l.outputs) + l.queue) + [last.queued];
          DueByEnvelope(inputs, own, maxMessages, maxBytes, window);
        } else {
          DueByRequest(inputs, l, outputs, maxMessages, maxBytes, window);
        }
      }
    }
  }

  lemma ArrivedNext<T>(inputs: seq<Input<T>>)
    requires inputs != [] && inputs[|inputs| - 1].Envelope?
    ensures Arrived(inputs) == Arrived(inputs[..|inputs| - 1]) + [inputs[|inputs| - 1].queued]
  {
  }
}
