/** The bus of one replica as it runs: queues and dictionaries changed in place. */
module EventBusInPlace {
  import opened Common
  import opened NotifyBatches
  import opened EventBus

  /** The unbounded queue a subscriber reads from. */
  class Queue {
    var items: seq<Message>

    constructor ()
      ensures items == []
    {
      items := [];
    }
  }

  ghost predicate Listed(queues: seq<Queue>) {
    forall i, j :: 0 <= i < j < |queues| ==> queues[i] != queues[j]
  }

  /** A position of the queue in the list, or the length of the list. */
  method IndexOf(queues: seq<Queue>, queue: Queue) returns (k: nat)
    ensures k <= |queues| && queue !in queues[..k]
    ensures k < |queues| ==> queues[k] == queue
  {
    k := 0;
    while k < |queues| && queues[k] != queue
      invariant k <= |queues| && queue !in queues[..k]
    {
      k := k + 1;
    }
  }

  class LocalFanout {
    var subs: map<Id, seq<Queue>>

    /** No empty list is kept, and no list names a queue twice. */
    ghost predicate Valid()
      reads this
    {
      forall s :: s in subs ==> subs[s] != [] && Listed(subs[s])
    }

    function Queues(s: Id): seq<Queue>
      reads this
    {
      if s in subs then subs[s] else []
    }

    constructor ()
      ensures Valid() && subs == map[]
    {
      subs := map[];
    }

    method Subscribe(s: Id) returns (queue: Queue)
      requires Valid()
      modifies this
      ensures Valid() && fresh(queue) && queue.items == []
      ensures subs == old(subs)[s := old(Queues(s)) + [queue]]
    {
      queue := new Queue();
      var list := Queues(s);
      assert forall i :: 0 <= i < |list| ==> list[i] in list && list[i] != queue;
      subs := subs[s := list + [queue]];
    }

    method Unsubscribe(s: Id, queue: Queue)
      requires Valid()
      modifies this
      ensures Valid()
      ensures forall q :: q in Queues(s) <==> q in old(Queues(s)) && q != queue
      ensures forall t :: t != s ==> Queues(t) == old(Queues(t))
    {
      if s !in subs {
        return;
      }
      var list := subs[s];
      var k := IndexOf(list, queue);
      if k < |list| {
        list := list[..k] + list[k + 1..];
      }
      assert forall q :: q in list <==> q in subs[s] && q != queue by {
        RemovedAt(subs[s], k, queue, list);
      }
      subs := if list == [] then subs - {s} else subs[s := list];
    }

    static lemma RemovedAt(list: seq<Queue>, k: nat, queue: Queue, left: seq<Queue>)
      requires Listed(list) && k <= |list| && queue !in list[..k] && (k < |list| ==> list[k] == queue)
      requires left == if k < |list| then list[..k] + list[k + 1..] else list
      ensures Listed(left) && forall q :: q in left <==> q in list && q != queue
    {
      if k < |list| {
        assert forall q :: q in list <==> q in list[..k] || q == list[k] || q in list[k + 1..] by {
          assert list == list[..k] + [list[k]] + list[k + 1..];
        }
      } else {
        assert list[..k] == list;
      }
    }

    /** Every subscriber of the session gets the message once, at the end; no other queue changes. */
    method Dispatch(s: Id, message: Message)
      requires Valid()
      modifies Queues(s)
      ensures forall q :: q in Queues(s) ==> q.items == old(q.items) + [message]
    {
      var queues := Queues(s);
      for k := 0 to |queues|
        invariant forall i :: 0 <= i < k ==> queues[i].items == old(queues[i].items) + [message]
        invariant forall i :: k <= i < |queues| ==> queues[i].items == old(queues[i].items)
      {
        queues[k].items := queues[k].items + [message];
      }
    }
  }

  /** What one NOTIFY meets: a client that may raise, before or after the server took the payload. */
  datatype Call = Call(now: Time, wire: Wire)
  datatype Wire = Answered | RaisedBefore | RaisedAfter

  const CONNECT_BACKOFF: Time := 5_000_000

  function FateOf(wire: Wire): Fate {
    match wire
    case Answered => Sent
    case RaisedBefore => Failed
    case RaisedAfter => SentThenFailed
  }

  /** The batches that got out, in order: an error drops the rest. */
  function Out(batches: seq<seq<Delta>>, fates: seq<Fate>): seq<seq<Delta>>
    requires |fates| == |batches|
  {
    if batches == [] then []
    else
      (if Reaches(fates[0]) then [batches[0]] else [])
      + (if Remaining(batches, fates[0]) == [] then [] else Out(batches[1..], fates[1..]))
  }

  predicate Passed(fate: Fate) {
    fate.Sent? || fate.Skipped?
  }

  /** The sender got as far as batch `i`: none before it raised. */
  ghost predicate Reached(fates: seq<Fate>, i: nat)
    requires i <= |fates|
  {
    forall j :: 0 <= j < i ==> Passed(fates[j])
  }

  /**
   Each batch the sender gets to is skipped inside the backoff or when its payload is over the limit; else it meets what
   its call meets.
   */
  ghost predicate MeetsItsCalls(s: Id, batches: seq<seq<Delta>>, fates: seq<Fate>, notBefore: Time, wrapping: nat,
                                calls: (Id, nat) -> Call)
  {
    |fates| == |batches| && forall i :: 0 <= i < |fates| && Reached(fates, i) ==>
      var skipped := calls(s, i).now < notBefore || wrapping + EncodedSize(batches[i], SizeOf) > NOTIFY_LIMIT;
      fates[i] == if skipped then Skipped else FateOf(calls(s, i).wire)
  }

  /** The backoff a session leaves: started by the call that raised, if one did. */
  ghost predicate BacksOff(s: Id, fates: seq<Fate>, before: Time, after: Time, calls: (Id, nat) -> Call) {
    && (Reached(fates, |fates|) ==> after == before)
    && forall i :: 0 <= i < |fates| && Reached(fates, i) && !Passed(fates[i]) ==>
       after == calls(s, i).now + CONNECT_BACKOFF
  }

  class PostgresEventBus {
    const fanout: LocalFanout
    const origin: nat
    var live: map<Id, seq<Delta>>
    var running: bool
    var connectNotBefore: Time
    /** What the server took from this replica, in the order it took it. */
    ghost var wire: seq<Note>

    constructor (origin: nat)
      ensures fresh(fanout) && fanout.Valid() && live == map[] && wire == [] && this.origin == origin
    {
      fanout := new LocalFanout();
      this.origin, live, running, connectNotBefore, wire := origin, map[], false, 0, [];
    }

    /**
     `_notify`: skipped while the backoff lasts or when the payload is over the limit; else it reaches
     the server or raises, and the error handler of every caller starts the backoff.
     */
    method Notify(note: Note, payload: nat, call: Call) returns (fate: Fate)
      modifies this`wire, this`connectNotBefore
      ensures fate == if call.now < old(connectNotBefore) || payload > NOTIFY_LIMIT then Skipped else FateOf(call.wire)
      ensures wire == old(wire) + if Reaches(fate) then [note] else []
      ensures connectNotBefore
           == if fate.Failed? || fate.SentThenFailed? then call.now + CONNECT_BACKOFF else old(connectNotBefore)
    {
      if call.now < connectNotBefore {
        return Skipped;
      }
      if payload > NOTIFY_LIMIT {
        return Skipped;
      }
      fate := FateOf(call.wire);
      if Reaches(fate) {
        wire := wire + [note];
      }
      if !fate.Sent? {
        connectNotBefore := call.now + CONNECT_BACKOFF;
      }
    }

    /** A stored event: the body to the subscribers here, then one wake for the others. */
    method PublishEvent(s: Id, seqno: int, payload: nat, call: Call, starts: bool) returns (fate: Fate)
      requires fanout.Valid()
      modifies this`running, this`wire, this`connectNotBefore, fanout.Queues(s)
      ensures forall q :: q in fanout.Queues(s) ==> q.items == old(q.items) + [Stored(s, seqno)]
      ensures fate == if call.now < old(connectNotBefore) || (!old(running) && !starts) || payload > NOTIFY_LIMIT
                      then Skipped else FateOf(call.wire)
      ensures wire == old(wire) + if Reaches(fate) then [WakeNote(origin, s, seqno)] else []
      ensures running == (old(running) || (starts && call.now >= old(connectNotBefore)))
      ensures connectNotBefore ==
        if (!old(running) && call.now >= old(connectNotBefore) && !starts) || !Passed(fate)
        then call.now + CONNECT_BACKOFF else old(connectNotBefore)
    {
      if !running && call.now < connectNotBefore {
        fanout.Dispatch(s, Stored(s, seqno));
        return Skipped;
      }
      if !running {
        running := starts;
        if !starts {
          connectNotBefore := call.now + CONNECT_BACKOFF;
        }
      }
      fanout.Dispatch(s, Stored(s, seqno));
      fate := Notify(WakeNote(origin, s, seqno), payload, call);
    }

    /** A delta: to the subscribers here, and into the session's buffer. */
    method PublishLive(s: Id, delta: Delta, now: Time, starts: bool)
      requires fanout.Valid()
      modifies this`running, this`live, this`connectNotBefore, fanout.Queues(s)
      ensures forall q :: q in fanout.Queues(s) ==> q.items == old(q.items) + [Live(delta)]
      ensures live == if !old(running) && now < old(connectNotBefore) then old(live)
                      else old(live)[s := (if s in old(live) then old(live)[s] else []) + [delta]]
      ensures running == (old(running) || (starts && now >= old(connectNotBefore)))
      ensures connectNotBefore ==
        if !old(running) && now >= old(connectNotBefore) && !starts then now + CONNECT_BACKOFF
        else old(connectNotBefore)
    {
      if !running && now < connectNotBefore {
        fanout.Dispatch(s, Live(delta));
        return;
      }
      if !running {
        running := starts;
        if !starts {
          connectNotBefore := now + CONNECT_BACKOFF;
        }
      }
      fanout.Dispatch(s, Live(delta));
      live := live[s := (if s in live then live[s] else []) + [delta]];
    }

    /**
     One session of a flush: its batches are sent in order until one raises. What the server took is
     what `Out` lets through, and the batches are those of `split_notify_batches`.
     */
    method FlushSession(s: Id, items: seq<Delta>, wrapping: nat, calls: (Id, nat) -> Call)
      returns (ghost batches: seq<seq<Delta>>, ghost fates: seq<Fate>)
      modifies this`wire, this`connectNotBefore
      ensures Concat(batches) == items
      ensures Fits(batches, SizeOf, NOTIFY_LIMIT - LIVE_HEADROOM) && Full(batches, SizeOf, NOTIFY_LIMIT - LIVE_HEADROOM)
      ensures MeetsItsCalls(s, batches, fates, old(connectNotBefore), wrapping, calls)
      ensures BacksOff(s, fates, old(connectNotBefore), connectNotBefore, calls)
      ensures wire == old(wire) + Notes(s, Out(batches, fates))
    {
      hide Fits, Full, Concat, Out, EncodedSize, Notes;
      var cut := SplitNotifyBatches(items, SizeOf, NOTIFY_LIMIT - LIVE_HEADROOM);
      batches := cut;
      fates := seq(|cut|, _ => Failed);
      ghost var start := wire;
      NothingOut(batches, fates);
      NoNotes(s);
      assert start + [] == start;
      var k := 0;
      while k < |cut|
        invariant k <= |cut| == |fates| && connectNotBefore == old(connectNotBefore)
        invariant Reached(fates, k)
        invariant forall i :: 0 <= i < k ==>
          fates[i] == if calls(s, i).now < connectNotBefore || wrapping + EncodedSize(cut[i], SizeOf) > NOTIFY_LIMIT
                      then Skipped else FateOf(calls(s, i).wire)
        invariant forall i :: k <= i < |cut| ==> fates[i] == Failed
        invariant wire == start + Notes(s, Out(batches, fates))
        decreases |cut| - k
      {
        var note := LiveNote(origin, s, cut[k]);
        ghost var told := Notes(s, Out(batches, fates));
        var fate := Notify(note, wrapping + EncodedSize(cut[k], SizeOf), calls(s, k));
        OutGrows(batches, fates, k, fate, s);
        assert start + told + [note] == start + (told + [note]) && told + [] == told;
        fates := fates[k := fate];
        if !fate.Sent? && !fate.Skipped? {
          return;
        }
        k := k + 1;
      }
    }

    /** A flush: the buffers are taken over and emptied, then sent session by session. */
    method FlushLiveOnce(order: seq<Id>, wrapping: nat, calls: (Id, nat) -> Call)
      returns (ghost cut: map<Id, seq<seq<Delta>>>, ghost fates: map<Id, seq<Fate>>, ghost backoffs: seq<Time>)
      requires forall s :: s in order <==> s in live
      requires forall i, j :: 0 <= i < j < |order| ==> order[i] != order[j]
      modifies this`live, this`wire, this`connectNotBefore
      ensures live == map[] && Cuts(old(live), cut) && fates.Keys == cut.Keys
      ensures forall s :: s in cut ==> |fates[s]| == |cut[s]|
      ensures Backed(backoffs, old(connectNotBefore), connectNotBefore, order, cut, fates, wrapping, calls)
      ensures wire == old(wire) + AllNotes(order, cut, fates)
    {
      hide Planned, Out, Notes, AllNotes, Fits, Full, Concat, MeetsItsCalls, BacksOff;
      var pending := live;
      live := map[];
      cut, fates, backoffs := map[], map[], [connectNotBefore];
      NothingPlanned(pending);
      for k := 0 to |order|
        invariant live == map[] && Planned(pending, order[..k], cut, fates)
        invariant Backed(backoffs, old(connectNotBefore), connectNotBefore, order[..k], cut, fates, wrapping, calls)
        invariant wire == old(wire) + AllNotes(order[..k], cut, fates)
      {
        var s := order[k];
        ghost var told, before := AllNotes(order[..k], cut, fates), connectNotBefore;
        ghost var batches, mine := FlushSession(s, pending[s], wrapping, calls);
        MeetsAll(s, batches, mine, before, wrapping, calls);
        PlannedNext(pending, order, k, cut, fates, batches, mine);
        BackedNext(backoffs, old(connectNotBefore), before, connectNotBefore, order, k, cut, fates, batches, mine,
                   wrapping, calls);
        cut, fates, backoffs := cut[s := batches], fates[s := mine], backoffs + [connectNotBefore];
        assert old(wire) + told + Notes(s, Out(batches, mine)) == old(wire) + (told + Notes(s, Out(batches, mine)));
      }
      assert order[..|order|] == order;
      AllPlanned(pending, order, cut, fates);
    }

    /** The backoff from session to session: each one meets its calls under the backoff the one before it left. */
    static ghost predicate Backed(backoffs: seq<Time>, before: Time, after: Time, order: seq<Id>,
                                  cut: map<Id, seq<seq<Delta>>>, fates: map<Id, seq<Fate>>,
                                  wrapping: nat, calls: (Id, nat) -> Call)
    {
      && |backoffs| == |order| + 1 && backoffs[0] == before && backoffs[|order|] == after
      && forall k :: 0 <= k < |order| ==>
           && order[k] in cut && order[k] in fates
           && MeetsItsCalls(order[k], cut[order[k]], fates[order[k]], backoffs[k], wrapping, calls)
           && BacksOff(order[k], fates[order[k]], backoffs[k], backoffs[k + 1], calls)
    }

    static lemma BackedNext(backoffs: seq<Time>, first: Time, before: Time, after: Time, order: seq<Id>, k: nat,
                            cut: map<Id, seq<seq<Delta>>>, fates: map<Id, seq<Fate>>,
                            batches: seq<seq<Delta>>, mine: seq<Fate>, wrapping: nat, calls: (Id, nat) -> Call)
      requires k < |order| && order[k] !in order[..k]
      requires Backed(backoffs, first, before, order[..k], cut, fates, wrapping, calls)
      requires MeetsItsCalls(order[k], batches, mine, before, wrapping, calls)
      requires BacksOff(order[k], mine, before, after, calls)
      ensures Backed(backoffs + [after], first, after, order[..k + 1],
                     cut[order[k] := batches], fates[order[k] := mine], wrapping, calls)
    {
      hide MeetsItsCalls, BacksOff;
      assert forall i :: 0 <= i < k ==> order[..k + 1][i] == order[..k][i] && order[..k][i] in order[..k];
    }

    /** Every batch of every session, session after session. */
    ghost function EveryNote(order: seq<Id>, cut: map<Id, seq<seq<Delta>>>): seq<Note> {
      if order == [] then []
      else
        var s := order[|order| - 1];
        EveryNote(order[..|order| - 1], cut)
        + if s in cut then seq(|cut[s]|, i requires 0 <= i < |cut[s]| => LiveNote(origin, s, cut[s][i])) else []
    }

    lemma {:induction false} AllAnswered(s: Id, batches: seq<seq<Delta>>, fates: seq<Fate>, notBefore: Time,
                                         wrapping: nat, calls: (Id, nat) -> Call, n: nat)
      requires MeetsItsCalls(s, batches, fates, notBefore, wrapping, calls) && n <= |fates|
      requires forall i: nat :: calls(s, i).wire.Answered? && calls(s, i).now >= notBefore
      requires forall i :: 0 <= i < |batches| ==> wrapping + EncodedSize(batches[i], SizeOf) <= NOTIFY_LIMIT
      ensures forall i :: 0 <= i < n ==> fates[i] == Sent
    {
      hide EncodedSize;
      if n > 0 {
        AllAnswered(s, batches, fates, notBefore, wrapping, calls, n - 1);
        assert Reached(fates, n - 1);
      }
    }

    static lemma {:induction false} AllOut(batches: seq<seq<Delta>>, fates: seq<Fate>)
      requires |fates| == |batches| && forall i :: 0 <= i < |fates| ==> fates[i] == Sent
      ensures Out(batches, fates) == batches
    {
      if batches != [] {
        AllOut(batches[1..], fates[1..]);
      }
    }

    static lemma BackedFront(backoffs: seq<Time>, before: Time, after: Time, order: seq<Id>,
                             cut: map<Id, seq<seq<Delta>>>, fates: map<Id, seq<Fate>>,
                             wrapping: nat, calls: (Id, nat) -> Call)
      requires Backed(backoffs, before, after, order, cut, fates, wrapping, calls) && order != []
      ensures var n := |order| - 1;
        && |backoffs| == n + 2 && order[n] in cut && order[n] in fates
        && Backed(backoffs[..n + 1], before, backoffs[n], order[..n], cut, fates, wrapping, calls)
        && MeetsItsCalls(order[n], cut[order[n]], fates[order[n]], backoffs[n], wrapping, calls)
        && BacksOff(order[n], fates[order[n]], backoffs[n], after, calls)
    {
      hide MeetsItsCalls, BacksOff;
      var n := |order| - 1;
      assert forall k :: 0 <= k < n ==> order[..n][k] == order[k];
    }

    lemma SessionGoesOut(s: Id, batches: seq<seq<Delta>>, fates: seq<Fate>, notBefore: Time, after: Time,
                         wrapping: nat, calls: (Id, nat) -> Call)
      requires MeetsItsCalls(s, batches, fates, notBefore, wrapping, calls)
      requires BacksOff(s, fates, notBefore, after, calls)
      requires forall i: nat :: calls(s, i).wire.Answered? && calls(s, i).now >= notBefore
      requires forall i :: 0 <= i < |batches| ==> wrapping + EncodedSize(batches[i], SizeOf) <= NOTIFY_LIMIT
      ensures |fates| == |batches| && Out(batches, fates) == batches && after == notBefore
    {
      hide EncodedSize, Out;
      MeetsAll(s, batches, fates, notBefore, wrapping, calls);
      AllAnswered(s, batches, fates, notBefore, wrapping, calls, |fates|);
      AllOut(batches, fates);
      assert Reached(fates, |fates|);
    }

    /**
     Past the backoff, with every payload within the limit and every call answered, everything goes out: all batches
     of all sessions, in order, and no backoff is started.
     */
    lemma {:induction false} EverythingGoesOut(backoffs: seq<Time>, before: Time, after: Time, order: seq<Id>,
                                               cut: map<Id, seq<seq<Delta>>>, fates: map<Id, seq<Fate>>,
                                               wrapping: nat, calls: (Id, nat) -> Call)
      requires Backed(backoffs, before, after, order, cut, fates, wrapping, calls)
      requires forall s, i: nat :: calls(s, i).wire.Answered? && calls(s, i).now >= before
      requires forall s, i :: s in cut && 0 <= i < |cut[s]| ==>
        wrapping + EncodedSize(cut[s][i], SizeOf) <= NOTIFY_LIMIT
      ensures AllNotes(order, cut, fates) == EveryNote(order, cut) && after == before
    {
      hide EncodedSize, MeetsItsCalls, BacksOff, Out;
      if order != [] {
        var n := |order| - 1;
        hide Backed;
        BackedFront(backoffs, before, after, order, cut, fates, wrapping, calls);
        EverythingGoesOut(backoffs[..n + 1], before, backoffs[n], order[..n], cut, fates, wrapping, calls);
        SessionGoesOut(order[n], cut[order[n]], fates[order[n]], backoffs[n], after, wrapping, calls);
      }
    }

    static lemma MeetsAll(s: Id, batches: seq<seq<Delta>>, fates: seq<Fate>, notBefore: Time, wrapping: nat,
                          calls: (Id, nat) -> Call)
      requires MeetsItsCalls(s, batches, fates, notBefore, wrapping, calls)
      ensures |fates| == |batches|
    {
    }

    /** The batches and fates of the sessions flushed so far. */
    static ghost predicate Planned(pending: map<Id, seq<Delta>>, done: seq<Id>, cut: map<Id, seq<seq<Delta>>>,
                                   fates: map<Id, seq<Fate>>) {
      && (forall s :: s in cut <==> s in done) && (forall s :: s in fates <==> s in done)
      && (forall s :: s in cut && s in fates ==> |fates[s]| == |cut[s]|)
      && (forall s :: s in cut ==>
            && s in pending && Concat(cut[s]) == pending[s]
            && Fits(cut[s], SizeOf, NOTIFY_LIMIT - LIVE_HEADROOM) && Full(cut[s], SizeOf, NOTIFY_LIMIT - LIVE_HEADROOM))
    }

    lemma NothingPlanned(pending: map<Id, seq<Delta>>)
      ensures Planned(pending, [], map[], map[]) && AllNotes([], map[], map[]) == []
    {
    }

    static lemma AllPlanned(pending: map<Id, seq<Delta>>, order: seq<Id>, cut: map<Id, seq<seq<Delta>>>,
                            fates: map<Id, seq<Fate>>)
      requires Planned(pending, order, cut, fates) && forall s :: s in order <==> s in pending
      ensures Cuts(pending, cut) && fates.Keys == cut.Keys && forall s :: s in cut ==> |fates[s]| == |cut[s]|
    {
      hide Fits, Full, Concat;
    }

    lemma InNext(order: seq<Id>, k: nat)
      requires k < |order|
      ensures order[..k + 1][..k] == order[..k]
      ensures forall t :: t in order[..k + 1] <==> t in order[..k] || t == order[k]
    {
    }

    lemma NotesNext(order: seq<Id>, k: nat, cut: map<Id, seq<seq<Delta>>>, fates: map<Id, seq<Fate>>,
                    batches: seq<seq<Delta>>, mine: seq<Fate>)
      requires k < |order| && order[k] !in order[..k] && |mine| == |batches|
      requires forall s :: s in order[..k] ==> s in cut && s in fates
      ensures AllNotes(order[..k + 1], cut[order[k] := batches], fates[order[k] := mine])
           == AllNotes(order[..k], cut, fates) + Notes(order[k], Out(batches, mine))
    {
      hide Out, Notes;
      InNext(order, k);
      SameNotes(order[..k], cut, fates, cut[order[k] := batches], fates[order[k] := mine]);
    }

    lemma PlannedNext(pending: map<Id, seq<Delta>>, order: seq<Id>, k: nat,
                      cut: map<Id, seq<seq<Delta>>>, fates: map<Id, seq<Fate>>,
                      batches: seq<seq<Delta>>, mine: seq<Fate>)
      requires k < |order| && order[k] in pending && order[k] !in order[..k] && |mine| == |batches|
      requires Planned(pending, order[..k], cut, fates) && Concat(batches) == pending[order[k]]
      requires Fits(batches, SizeOf, NOTIFY_LIMIT - LIVE_HEADROOM)
      requires Full(batches, SizeOf, NOTIFY_LIMIT - LIVE_HEADROOM)
      ensures Planned(pending, order[..k + 1], cut[order[k] := batches], fates[order[k] := mine])
      ensures AllNotes(order[..k + 1], cut[order[k] := batches], fates[order[k] := mine])
           == AllNotes(order[..k], cut, fates) + Notes(order[k], Out(batches, mine))
    {
      hide Fits, Full, Concat, AllNotes;
      InNext(order, k);
      NotesNext(order, k, cut, fates, batches, mine);
    }

    /** The notes of a flush, session after session. */
    ghost function AllNotes(order: seq<Id>, cut: map<Id, seq<seq<Delta>>>, fates: map<Id, seq<Fate>>): seq<Note>
    {
      if order == [] then []
      else
        var s := order[|order| - 1];
        AllNotes(order[..|order| - 1], cut, fates)
        + if s in cut && s in fates && |fates[s]| == |cut[s]| then Notes(s, Out(cut[s], fates[s])) else []
    }

    lemma {:induction false} SameNotes(order: seq<Id>, cut: map<Id, seq<seq<Delta>>>, fates: map<Id, seq<Fate>>,
                                       cut': map<Id, seq<seq<Delta>>>, fates': map<Id, seq<Fate>>)
      requires forall s :: s in order ==>
        s in cut && s in fates && s in cut' && s in fates' && cut'[s] == cut[s] && fates'[s] == fates[s]
      ensures AllNotes(order, cut, fates) == AllNotes(order, cut', fates')
    {
      if order != [] {
        SameNotes(order[..|order| - 1], cut, fates, cut', fates');
      }
    }

    lemma NoNotes(s: Id)
      ensures Notes(s, []) == []
    {
    }

    ghost function Notes(s: Id, batches: seq<seq<Delta>>): seq<Note> {
      seq(|batches|, i requires 0 <= i < |batches| => LiveNote(origin, s, batches[i]))
    }

    lemma {:induction false} OutGrows(batches: seq<seq<Delta>>, fates: seq<Fate>, k: nat, fate: Fate, s: Id)
      requires |fates| == |batches| && k < |batches|
      requires forall i :: 0 <= i < k ==> fates[i].Sent? || fates[i].Skipped?
      requires forall i :: k <= i < |batches| ==> fates[i] == Failed
      ensures Out(batches, fates[k := fate]) == Out(batches, fates) + if Reaches(fate) then [batches[k]] else []
      ensures Notes(s, Out(batches, fates[k := fate]))
           == Notes(s, Out(batches, fates)) + if Reaches(fate) then [LiveNote(origin, s, batches[k])] else []
    {
      hide Notes;
      var after := fates[k := fate];
      if k == 0 {
        NothingOut(batches, fates);
        NothingOut(batches[1..], fates[1..]);
        assert after[1..] == fates[1..];
      } else {
        assert after[1..] == fates[1..][k - 1 := fate];
        OutGrows(batches[1..], fates[1..], k - 1, fate, s);
        var first := if Reaches(fates[0]) then [batches[0]] else [];
        assert Out(batches, fates) == first + Out(batches[1..], fates[1..]) by { OutNext(batches, fates); }
        assert Out(batches, after) == first + Out(batches[1..], after[1..]) by { OutNext(batches, after); }
      }
      NotesGrow(s, Out(batches, fates), batches[k]);
    }

    static lemma OutNext(batches: seq<seq<Delta>>, fates: seq<Fate>)
      requires |fates| == |batches| && batches != [] && (fates[0].Sent? || fates[0].Skipped?)
      ensures Out(batches, fates) == (if Reaches(fates[0]) then [batches[0]] else []) + Out(batches[1..], fates[1..])
    {
    }

    lemma NotesGrow(s: Id, out: seq<seq<Delta>>, batch: seq<Delta>)
      ensures Notes(s, out + [batch]) == Notes(s, out) + [LiveNote(origin, s, batch)]
      ensures Notes(s, out + []) == Notes(s, out) + []
    {
      assert out + [] == out;
    }

    static lemma NothingOut(batches: seq<seq<Delta>>, fates: seq<Fate>)
      requires |fates| == |batches| && forall i :: 0 <= i < |fates| ==> fates[i] == Failed
      ensures Out(batches, fates) == []
    {
    }

    /** A note from the server: nothing for the replica's own, else to the subscribers of its session. */
    method OnNotify(note: Note)
      requires fanout.Valid()
      modifies fanout.Queues(note.session)
      ensures forall q :: q in fanout.Queues(note.session) ==> q.items == old(q.items) + Heard(note, origin)
    {
      if note.origin == origin {
        return;
      }
      match note {
        case WakeNote(_, s, seqno) =>
          fanout.Dispatch(s, Wake(s, seqno));
        case LiveNote(_, s, batch) =>
          ghost var queues := fanout.Queues(s);
          for k := 0 to |batch|
            invariant forall q :: q in queues ==> q.items == old(q.items) + LiveMessages(batch)[..k]
          {
            fanout.Dispatch(s, Live(batch[k]));
          }
          assert LiveMessages(batch)[..|batch|] == LiveMessages(batch);
      }
    }
  }
}
