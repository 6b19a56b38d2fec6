/**
 The emitter, and `reconcile` as its inverse.

 One boot numbers its events from 1: a start opens a live session under its own number, a stop names
 a live start, a heartbeat lists exactly what is live. However the resulting log is shuffled and
 repeated, reconciling it gives back the stops.
 */
module LifecycleInversion {
  import opened Common
  import opened Decimal
  import opened LifecycleLog
  import opened LifecycleLaws

  /** The id of a session is a UUID; the emitter would send an empty one as no id at all. */
  type SessionId = s: string | s != "" witness "0"

  datatype Op = Begin(session: SessionId) | End(startSeq: int, reason: string, liveMs: int) | Pulse

  datatype Timed = Timed(at: Time, op: Op)

  /** What every event of a boot carries. */
  datatype Origin = Origin(boot: string, worker: Option<string>, instance: Option<string>, gap: Time)

  datatype LiveSession = LiveSession(session: SessionId, startSeq: int, startedAt: Time)

  function RemoveSeq(live: seq<LiveSession>, q: int): seq<LiveSession> {
    if live == [] then []
    else if live[0].startSeq == q then live[1..]
    else [live[0]] + RemoveSeq(live[1..], q)
  }

  /** The sessions live after these operations, oldest first. */
  function LiveAfter(ops: seq<Timed>): seq<LiveSession> {
    if ops == [] then []
    else
      var live, last := LiveAfter(ops[..|ops| - 1]), ops[|ops| - 1];
      match last.op
      case Begin(session) => live + [LiveSession(session, |ops|, last.at)]
      case End(q, _, _) => RemoveSeq(live, q)
      case Pulse => live
  }

  predicate IsLive(live: seq<LiveSession>, q: int) {
    exists i :: 0 <= i < |live| && live[i].startSeq == q
  }

  /** Stops name live starts. */
  predicate Proper(ops: seq<Timed>) {
    forall n :: 0 <= n < |ops| && ops[n].op.End? ==> IsLive(LiveAfter(ops[..n]), ops[n].op.startSeq)
  }

  function EventId(boot: string, n: nat): string {
    boot + ":" + Numeral(n)
  }

  function ListedEntries(live: seq<LiveSession>): seq<Entry> {
    seq(|live|, i requires 0 <= i < |live| =>
      Entry(Some(live[i].session), Some(live[i].startSeq), Some(live[i].startedAt)))
  }

  function Envelope(o: Origin, n: nat, at: Time, kind: Kind): Event {
    Event(Some(EventId(o.boot, n)), Some(o.boot), n, Some(at), o.worker, o.instance, kind)
  }

  /** The event of one operation, given those before it. */
  function EventOf(o: Origin, before: seq<Timed>, t: Timed): Event {
    Envelope(o, |before| + 1, t.at,
      match t.op
      case Begin(session) => LiveStart(Some(session))
      case End(q, reason, liveMs) => LiveStop(q, reason, Some(liveMs))
      case Pulse => Beat(Some(o.gap), ListedEntries(LiveAfter(before))))
  }

  function Emitted(o: Origin, ops: seq<Timed>): seq<Event> {
    if ops == [] then [] else Emitted(o, ops[..|ops| - 1]) + [EventOf(o, ops[..|ops| - 1], ops[|ops| - 1])]
  }

  function StartOf(live: seq<LiveSession>, q: int): LiveSession
    requires IsLive(live, q)
  {
    if live[0].startSeq == q then live[0] else StartOf(live[1..], q)
  }

  /** One record per stop, in stop order. */
  function StopRecords(o: Origin, ops: seq<Timed>): seq<Record>
    requires Proper(ops)
  {
    if ops == [] then []
    else
      var front, last := ops[..|ops| - 1], ops[|ops| - 1];
      ProperFront(ops);
      StopRecords(o, front)
      + (match last.op
         case End(q, reason, liveMs) =>
           var s := StartOf(LiveAfter(front), q);
           var why := if reason == "" then "stop" else reason;
           [Record(o.boot, Some(s.session), q, Some(s.startedAt), last.at, why, Some(liveMs))]
         case _ => [])
  }

  lemma ProperFront(ops: seq<Timed>)
    requires Proper(ops) && ops != []
    ensures Proper(ops[..|ops| - 1])
    ensures ops[|ops| - 1].op.End? ==> IsLive(LiveAfter(ops[..|ops| - 1]), ops[|ops| - 1].op.startSeq)
  {
    var front := ops[..|ops| - 1];
    forall n | 0 <= n < |front| && front[n].op.End?
      ensures IsLive(LiveAfter(front[..n]), front[n].op.startSeq)
    {
      assert front[..n] == ops[..n];
    }
  }

  /** The moment of the last heartbeat. */
  function LastPulse(ops: seq<Timed>): Option<Time> {
    if ops == [] then None
    else if ops[|ops| - 1].op.Pulse? then Some(ops[|ops| - 1].at)
    else LastPulse(ops[..|ops| - 1])
  }

  /** What is still live, closed at the last heartbeat. */
  function LostRecordsOf(o: Origin, live: seq<LiveSession>, at: Time): seq<Record> {
    seq(|live|, i requires 0 <= i < |live| =>
      Record(o.boot, Some(live[i].session), live[i].startSeq, Some(live[i].startedAt), at, "worker_lost", None))
  }

  predicate BootIsSilent(o: Origin, ops: seq<Timed>, now: Time, grace: Time) {
    LastPulse(ops).Some? && now - LastPulse(ops).value > 2 * o.gap + grace
  }

  // ---------------------------------------------------------------- the emitter, in place

  lemma EmittedGrows(o: Origin, ops: seq<Timed>, t: Timed)
    ensures Emitted(o, ops + [t]) == Emitted(o, ops) + [EventOf(o, ops, t)]
  {
    hide EventOf;
    assert (ops + [t])[..|ops + [t]| - 1] == ops;
  }

  /** Numbers events and queues them; a full queue drops the new event, never its number. */
  class LifecycleEmitter {
    const origin: Origin
    const limit: nat
    var seqno: nat
    var queue: seq<Event>
    ghost var history: seq<Timed>

    /** The queue holds events this emitter made, in the order they were made. */
    ghost predicate Valid()
      reads this
    {
      && seqno == |history|
      && |queue| <= limit
      && (forall i :: 0 <= i < |queue| ==> queue[i] in Emitted(origin, history))
      && StrictlyAscending(queue)
      && (forall i :: 0 <= i < |queue| ==> queue[i].seqno <= seqno)
    }

    constructor (origin: Origin, limit: nat)
      ensures Valid() && history == [] && queue == [] && this.origin == origin && this.limit == limit
    {
      this.origin, this.limit := origin, limit;
      seqno, queue, history := 0, [], [];
    }

    method Emit(t: Timed, live: seq<LiveSession>) returns (number: nat)
      requires Valid() && live == LiveAfter(history)
      modifies this
      ensures Valid() && history == old(history) + [t] && number == |history|
      ensures Emitted(origin, history) == Emitted(origin, old(history)) + [EventOf(origin, old(history), t)]
      ensures queue == old(queue) + (if |old(queue)| < limit then [EventOf(origin, old(history), t)] else [])
    {
      hide Emitted, EventId, ListedEntries, LiveAfter;
      EmittedGrows(origin, history, t);
      seqno := seqno + 1;
      var kind: Kind;
      match t.op {
        case Begin(session) => kind := LiveStart(Some(session));
        case End(q, reason, liveMs) => kind := LiveStop(q, reason, Some(liveMs));
        case Pulse => kind := Beat(Some(origin.gap), ListedEntries(live));
      }
      var event := Envelope(origin, seqno, t.at, kind);
      if |queue| < limit {
        queue := queue + [event];
      }
      history := history + [t];
      number := seqno;
    }

    /** The sender takes the oldest event. */
    method Take() returns (event: Event)
      requires Valid() && queue != []
      modifies this`queue
      ensures Valid() && [event] + queue == old(queue)
    {
      event := queue[0];
      queue := queue[1..];
    }
  }

  // ---------------------------------------------------------------- the emitted log is well identified

  lemma {:induction false} EmittedAt(o: Origin, ops: seq<Timed>, i: nat)
    requires i < |ops|
    ensures |Emitted(o, ops)| == |ops| && Emitted(o, ops)[i] == EventOf(o, ops[..i], ops[i])
  {
    var front := ops[..|ops| - 1];
    if i < |front| {
      EmittedAt(o, front, i);
      assert front[..i] == ops[..i];
    } else if front != [] {
      EmittedAt(o, front, 0);
    }
  }

  lemma IdsDiffer(boot: string, m: nat, n: nat)
    requires EventId(boot, m) == EventId(boot, n)
    ensures m == n
  {
    assert Numeral(m) == EventId(boot, m)[|boot| + 1..];
    assert Numeral(n) == EventId(boot, n)[|boot| + 1..];
    NumeralInjective(m, n);
  }

  lemma EmittedFacts(o: Origin, ops: seq<Timed>)
    ensures |Emitted(o, ops)| == |ops|
    ensures forall i :: 0 <= i < |ops| ==> var e := Emitted(o, ops)[i];
      e.id == Some(EventId(o.boot, i + 1)) && e.seqno == i + 1 && e.boot == Some(o.boot)
      && e.worker == o.worker && e.instance == o.instance
  {
    if ops != [] { EmittedAt(o, ops, 0); }
    forall i | 0 <= i < |ops|
      ensures Emitted(o, ops)[i] == EventOf(o, ops[..i], ops[i])
    {
      EmittedAt(o, ops, i);
    }
  }

  lemma EmittedIsIdentified(o: Origin, ops: seq<Timed>)
    ensures Identified(Emitted(o, ops)) && StrictlyAscending(Emitted(o, ops))
    ensures forall e :: e in Emitted(o, ops) ==> e.boot == Some(o.boot)
  {
    hide Emitted, EventId;
    EmittedFacts(o, ops);
    var log := Emitted(o, ops);
    forall e, f | e in log && f in log && e.id == f.id
      ensures e == f
    {
      var i :| 0 <= i < |log| && log[i] == e;
      var j :| 0 <= j < |log| && log[j] == f;
      IdsDiffer(o.boot, i + 1, j + 1);
    }
    forall e, f | e in log && f in log && e.seqno == f.seqno
      ensures e == f
    {
      var i :| 0 <= i < |log| && log[i] == e;
      var j :| 0 <= j < |log| && log[j] == f;
    }
  }

  // ---------------------------------------------------------------- the fold of the emitted log

  /** The open intervals are the live sessions, in the same order. */
  predicate Mirrors(o: Origin, opens: seq<Interval>, live: seq<LiveSession>) {
    |opens| == |live| && forall i :: 0 <= i < |live| ==>
      && opens[i].boot == o.boot && opens[i].session == Some(live[i].session)
      && opens[i].startSeq == live[i].startSeq && opens[i].startedAt == Some(live[i].startedAt)
  }

  predicate Ordered(live: seq<LiveSession>, bound: int) {
    && (forall i, j :: 0 <= i < j < |live| ==> live[i].startSeq < live[j].startSeq)
    && (forall i :: 0 <= i < |live| ==> live[i].startSeq <= bound)
  }

  /** The position of a live start. */
  function Position(live: seq<LiveSession>, q: int): (i: nat)
    requires IsLive(live, q)
    ensures i < |live| && live[i].startSeq == q && StartOf(live, q) == live[i]
  {
    if live[0].startSeq == q then 0
    else
      assert IsLive(live[1..], q) by { LiveBehind(live, q); }
      Position(live[1..], q) + 1
  }

  lemma LiveBehind(live: seq<LiveSession>, q: int)
    requires IsLive(live, q) && live[0].startSeq != q
    ensures IsLive(live[1..], q)
  {
    var k :| 0 <= k < |live| && live[k].startSeq == q;
    assert live[1..][k - 1].startSeq == q;
  }

  lemma PositionFirst(live: seq<LiveSession>, q: int)
    requires IsLive(live, q) && live[0].startSeq == q
    ensures Position(live, q) == 0 && RemoveSeq(live, q) == live[..0] + live[1..]
  {
    assert live[..0] + live[1..] == live[1..];
  }

  lemma PositionBehind(live: seq<LiveSession>, q: int)
    requires IsLive(live, q) && live[0].startSeq != q
    ensures IsLive(live[1..], q)
    ensures Position(live, q) == Position(live[1..], q) + 1
    ensures RemoveSeq(live, q) == [live[0]] + RemoveSeq(live[1..], q)
  {
    LiveBehind(live, q);
    hide IsLive, StartOf;
  }

  lemma {:induction false} RemovedAtPosition(live: seq<LiveSession>, q: int)
    requires IsLive(live, q)
    ensures var i := Position(live, q); RemoveSeq(live, q) == live[..i] + live[i + 1..]
  {
    assert live != [];
    hide *;
    if live[0].startSeq == q {
      PositionFirst(live, q);
    } else {
      PositionBehind(live, q);
      RemovedAtPosition(live[1..], q);
      CutBehind(live, Position(live[1..], q));
    }
  }

  lemma CutBehind(live: seq<LiveSession>, i: nat)
    requires i + 1 < |live|
    ensures [live[0]] + (live[1..][..i] + live[1..][i + 1..]) == live[..i + 1] + live[i + 2..]
  {
    assert live[1..][i + 1..] == live[i + 2..];
    assert [live[0]] + live[1..][..i] == live[..i + 1];
  }

  lemma RemovingKeepsOrder(live: seq<LiveSession>, i: nat, bound: int)
    requires Ordered(live, bound) && i < |live|
    ensures Ordered(live[..i] + live[i + 1..], bound)
  {
  }

  lemma {:induction false} LiveIsOrdered(ops: seq<Timed>)
    requires Proper(ops)
    ensures Ordered(LiveAfter(ops), |ops|)
  {
    hide Proper, Position, IsLive, RemoveSeq;
    if ops != [] {
      ProperFront(ops);
      LiveIsOrdered(ops[..|ops| - 1]);
      var live, last := LiveAfter(ops[..|ops| - 1]), ops[|ops| - 1];
      if last.op.End? {
        RemovedAtPosition(live, last.op.startSeq);
        RemovingKeepsOrder(live, Position(live, last.op.startSeq), |ops| - 1);
      }
    }
  }

  lemma FindMirrored(o: Origin, opens: seq<Interval>, live: seq<LiveSession>, bound: int, q: int)
    requires Mirrors(o, opens, live) && Ordered(live, bound)
    ensures IsLive(live, q) ==> Find(opens, o.boot, q) == Position(live, q)
    ensures !IsLive(live, q) ==> Find(opens, o.boot, q) == -1
  {
    var i := Find(opens, o.boot, q);
    assert i == -1 || live[i].startSeq == q;
    if IsLive(live, q) {
      var k := Position(live, q);
      assert IsAt(opens, k, o.boot, q);
      assert live[i].startSeq == live[k].startSeq;
    }
  }

  lemma ListOneMirrors(o: Origin, opens: seq<Interval>, live: seq<LiveSession>, bound: int, at: Time, n: nat)
    requires Mirrors(o, opens, live) && Ordered(live, bound) && n < |live|
    ensures Mirrors(o, ListOne(opens, o.boot, ListedEntries(live)[n], at), live)
  {
    hide Find, Ordered;
    IsLiveAt(live, n);
    FindMirrored(o, opens, live, bound, live[n].startSeq);
  }

  lemma IsLiveAt(live: seq<LiveSession>, n: nat)
    requires n < |live|
    ensures IsLive(live, live[n].startSeq)
  {
  }

  lemma ListAllGrows(opens: seq<Interval>, boot: string, entries: seq<Entry>, at: Time, n: nat)
    requires n < |entries|
    ensures ListAll(opens, boot, entries[..n + 1], at)
      == ListOne(ListAll(opens, boot, entries[..n], at), boot, entries[n], at)
  {
    hide ListOne;
    assert entries[..n + 1][..n] == entries[..n];
  }

  lemma {:induction false} ListingMirrors(o: Origin, opens: seq<Interval>, live: seq<LiveSession>, bound: int, at: Time,
                                          n: nat)
    requires Mirrors(o, opens, live) && Ordered(live, bound) && n <= |live|
    ensures Mirrors(o, ListAll(opens, o.boot, ListedEntries(live)[..n], at), live)
  {
    hide Mirrors, Ordered, ListOne;
    if n > 0 {
      ListingMirrors(o, opens, live, bound, at, n - 1);
      ListAllGrows(opens, o.boot, ListedEntries(live), at, n - 1);
      ListOneMirrors(o, ListAll(opens, o.boot, ListedEntries(live)[..n - 1], at), live, bound, at, n - 1);
    }
  }

  lemma {:induction false} NothingLost(opens: seq<Interval>, boot: string, entries: seq<Entry>, at: Time)
    requires forall i :: 0 <= i < |opens| ==> !Lost(opens[i], boot, entries)
    ensures Kept(opens, boot, entries) == opens && LostRecords(opens, boot, entries, at) == []
  {
    if opens != [] {
      NothingLost(opens[..|opens| - 1], boot, entries, at);
    }
  }

  /** What the fold of the log of `ops` leaves in the books. */
  ghost predicate Folded(o: Origin, b: Books, ops: seq<Timed>)
    requires Proper(ops)
  {
    && Mirrors(o, b.opens, LiveAfter(ops))
    && b.closed == StopRecords(o, ops)
    && (match LastPulse(ops)
        case None => b.intervals == [] && b.lastBeat == map[]
        case Some(at) => b.intervals == [(o.boot, o.gap)] && b.lastBeat == map[o.boot := at])
  }

  lemma NotLiveYet(live: seq<LiveSession>, bound: int)
    requires Ordered(live, bound)
    ensures !IsLive(live, bound + 1)
  {
  }

  lemma OneMoreMirrors(o: Origin, opens: seq<Interval>, live: seq<LiveSession>, s: LiveSession)
    requires Mirrors(o, opens, live)
    ensures Mirrors(o, opens + [Interval(o.boot, Some(s.session), s.startSeq, Some(s.startedAt), None)], live + [s])
  {
  }

  lemma FoldBegin(o: Origin, b: Books, ops: seq<Timed>)
    requires Proper(ops) && ops != [] && Proper(ops[..|ops| - 1]) && Folded(o, b, ops[..|ops| - 1])
    requires ops[|ops| - 1].op.Begin?
    ensures Folded(o, Step(b, o.boot, EventOf(o, ops[..|ops| - 1], ops[|ops| - 1])), ops)
  {
    hide EventId, Find, Mirrors, Ordered, IsLive;
    var front, last := ops[..|ops| - 1], ops[|ops| - 1];
    LiveIsOrdered(front);
    NotLiveYet(LiveAfter(front), |front|);
    FindMirrored(o, b.opens, LiveAfter(front), |front|, |ops|);
    OneMoreMirrors(o, b.opens, LiveAfter(front), LiveSession(last.op.session, |ops|, last.at));
    assert StopRecords(o, ops) == StopRecords(o, front) + [];
  }

  lemma WithoutMirrors(o: Origin, opens: seq<Interval>, live: seq<LiveSession>, i: nat)
    requires Mirrors(o, opens, live) && i < |live|
    ensures |opens| == |live| && Mirrors(o, Without(opens, i), live[..i] + live[i + 1..])
    ensures opens[i] == Interval(o.boot, Some(live[i].session), live[i].startSeq, Some(live[i].startedAt),
                                 opens[i].lastListed)
  {
  }

  lemma AfterEnd(o: Origin, ops: seq<Timed>)
    requires Proper(ops) && ops != [] && Proper(ops[..|ops| - 1]) && ops[|ops| - 1].op.End?
    ensures var front, last := ops[..|ops| - 1], ops[|ops| - 1];
      var q := last.op.startSeq;
      && LastPulse(ops) == LastPulse(front) && LiveAfter(ops) == RemoveSeq(LiveAfter(front), q)
      && IsLive(LiveAfter(front), q)
      && var s := StartOf(LiveAfter(front), q);
      && StopRecords(o, ops) == StopRecords(o, front) + [
        Record(o.boot, Some(s.session), q, Some(s.startedAt), last.at,
               if last.op.reason == "" then "stop" else last.op.reason, Some(last.op.liveMs))]
  {
    hide Proper, StartOf, RemoveSeq, IsLive;
    ProperFront(ops);
  }

  /** What a stop event does to the books. */
  lemma EndStep(o: Origin, b: Books, ops: seq<Timed>, i: nat)
    requires ops != [] && ops[|ops| - 1].op.End? && i < |b.opens|
    requires Find(b.opens, o.boot, ops[|ops| - 1].op.startSeq) == i
    ensures var last := ops[|ops| - 1];
      var r := Step(b, o.boot, EventOf(o, ops[..|ops| - 1], last));
      && r.opens == Without(b.opens, i) && r.lastBeat == b.lastBeat && r.intervals == b.intervals
      && r.closed == b.closed + [
        Close(b.opens[i], last.at, if last.op.reason == "" then "stop" else last.op.reason, Some(last.op.liveMs))]
  {
    hide EventId, Find, Without;
  }

  lemma FoldEnd(o: Origin, b: Books, ops: seq<Timed>)
    requires Proper(ops) && ops != [] && Proper(ops[..|ops| - 1]) && Folded(o, b, ops[..|ops| - 1])
    requires ops[|ops| - 1].op.End?
    ensures Folded(o, Step(b, o.boot, EventOf(o, ops[..|ops| - 1], ops[|ops| - 1])), ops)
  {
    hide EventOf, Step, Find, RemoveSeq, Without, IsLive, Ordered, Mirrors, LastPulse, LiveAfter, StopRecords, StartOf;
    hide Proper;
    var front, last := ops[..|ops| - 1], ops[|ops| - 1];
    LiveIsOrdered(front);
    AfterEnd(o, ops);
    FindMirrored(o, b.opens, LiveAfter(front), |front|, last.op.startSeq);
    var i := Position(LiveAfter(front), last.op.startSeq);
    RemovedAtPosition(LiveAfter(front), last.op.startSeq);
    WithoutMirrors(o, b.opens, LiveAfter(front), i);
    EndStep(o, b, ops, i);
  }

  lemma PulseLosesNothing(o: Origin, opens: seq<Interval>, live: seq<LiveSession>, bound: int, at: Time)
    requires Mirrors(o, opens, live) && Ordered(live, bound)
    ensures var entries := ListedEntries(live);
      var listed := ListAll(opens, o.boot, entries, at);
      Mirrors(o, Kept(listed, o.boot, entries), live) && LostRecords(listed, o.boot, entries, at) == []
  {
    var entries := ListedEntries(live);
    assert entries[..|live|] == entries;
    ListingMirrors(o, opens, live, bound, at, |live|);
    var listed := ListAll(opens, o.boot, entries, at);
    forall i | 0 <= i < |listed|
      ensures !Lost(listed[i], o.boot, entries)
    {
      assert entries[i].session == listed[i].session && entries[i].startSeq == Some(listed[i].startSeq);
    }
    NothingLost(listed, o.boot, entries, at);
  }

  lemma AfterPulse(o: Origin, ops: seq<Timed>)
    requires Proper(ops) && ops != [] && Proper(ops[..|ops| - 1]) && ops[|ops| - 1].op.Pulse?
    ensures LiveAfter(ops) == LiveAfter(ops[..|ops| - 1])
    ensures StopRecords(o, ops) == StopRecords(o, ops[..|ops| - 1])
    ensures LastPulse(ops) == Some(ops[|ops| - 1].at)
  {
    hide Proper;
    assert StopRecords(o, ops) == StopRecords(o, ops[..|ops| - 1]) + [];
  }

  lemma GapAgain(boot: string, gap: Time)
    ensures PutGap([], boot, gap) == [(boot, gap)] && PutGap([(boot, gap)], boot, gap) == [(boot, gap)]
  {
  }

  /** What a heartbeat event does to the books. */
  lemma PulseStep(o: Origin, b: Books, ops: seq<Timed>)
    requires ops != [] && ops[|ops| - 1].op.Pulse?
    ensures var last, entries := ops[|ops| - 1], ListedEntries(LiveAfter(ops[..|ops| - 1]));
      var r, listed := Step(b, o.boot, EventOf(o, ops[..|ops| - 1], last)), ListAll(b.opens, o.boot, entries, last.at);
      && r.opens == Kept(listed, o.boot, entries)
      && r.closed == b.closed + LostRecords(listed, o.boot, entries, last.at)
      && r.lastBeat == b.lastBeat[o.boot := last.at] && r.intervals == PutGap(b.intervals, o.boot, o.gap)
  {
    hide EventId, ListAll, Kept, LostRecords, ListedEntries, PutGap, LiveAfter;
  }

  lemma FoldPulse(o: Origin, b: Books, ops: seq<Timed>)
    requires Proper(ops) && ops != [] && Proper(ops[..|ops| - 1]) && Folded(o, b, ops[..|ops| - 1])
    requires ops[|ops| - 1].op.Pulse?
    ensures Folded(o, Step(b, o.boot, EventOf(o, ops[..|ops| - 1], ops[|ops| - 1])), ops)
  {
    hide EventOf, Step, ListAll, Kept, LostRecords, ListedEntries, Mirrors, LiveAfter, StopRecords, LastPulse, PutGap,
      Ordered;
    hide Proper;
    var front, last := ops[..|ops| - 1], ops[|ops| - 1];
    LiveIsOrdered(front);
    PulseLosesNothing(o, b.opens, LiveAfter(front), |front|, last.at);
    AfterPulse(o, ops);
    PulseStep(o, b, ops);
    GapAgain(o.boot, o.gap);
    assert b.closed + [] == b.closed;
  }

  lemma FoldStep(o: Origin, b: Books, ops: seq<Timed>)
    requires Proper(ops) && ops != [] && Proper(ops[..|ops| - 1]) && Folded(o, b, ops[..|ops| - 1])
    ensures Folded(o, Step(b, o.boot, EventOf(o, ops[..|ops| - 1], ops[|ops| - 1])), ops)
  {
    hide *;
    match ops[|ops| - 1].op
    case Begin(_) => FoldBegin(o, b, ops);
    case End(_, _, _) => FoldEnd(o, b, ops);
    case Pulse => FoldPulse(o, b, ops);
  }

  lemma {:induction false} FoldOfEmitted(o: Origin, ops: seq<Timed>)
    requires Proper(ops)
    ensures Folded(o, Fold(EMPTY, o.boot, Emitted(o, ops)), ops)
  {
    if ops != [] {
      ProperFront(ops);
      FoldOfEmitted(o, ops[..|ops| - 1]);
      FoldStep(o, Fold(EMPTY, o.boot, Emitted(o, ops[..|ops| - 1])), ops);
    }
  }

  // ---------------------------------------------------------------- reconcile inverts the emitter

  lemma {:induction false} OneBoot(events: seq<Event>, boot: string)
    requires forall e :: e in events ==> e.boot == Some(boot)
    ensures Boots(events) == (if events == [] then [] else [boot])
  {
    if events != [] {
      var front, last := events[..|events| - 1], events[|events| - 1];
      assert last in events && forall e :: e in front ==> e in events;
      OneBoot(front, boot);
    }
  }

  lemma {:induction false} CloseMirrored(o: Origin, opens: seq<Interval>, live: seq<LiveSession>, at: Time)
    requires Mirrors(o, opens, live)
    ensures BootRecords(opens, o.boot, at) == LostRecordsOf(o, live, at)
  {
    if opens != [] {
      CloseMirrored(o, opens[..|opens| - 1], live[..|live| - 1], at);
    }
  }

  lemma ShuffleFoldsToTheLog(o: Origin, ops: seq<Timed>, events: seq<Event>)
    requires SameEvents(events, Emitted(o, ops))
    ensures RowsOf(events, o.boot) == Emitted(o, ops)
    ensures Boots(Dedupe(events)) == (if Dedupe(events) == [] then [] else [o.boot])
    ensures Dedupe(events) == [] ==> Emitted(o, ops) == []
  {
    hide Emitted, RowsOf;
    var log := Emitted(o, ops);
    EmittedIsIdentified(o, ops);
    assert Identified(events);
    DedupeKeepsEvents(events);
    OneBoot(Dedupe(events), o.boot);
    RowsAreTheBootInOrder(events, o.boot);
    SortedIsUnique(RowsOf(events, o.boot), log);
    assert log == [] || log[0] in Dedupe(events);
  }

  /**
   `reconcile` inverts the emitter: from any shuffle of the log with any repetition it returns exactly the
   stopped sessions, in stop order, with their start, reason and duration; and, only if the last heartbeat
   is too old, after them the sessions still live.
   */
  lemma ReconcileInvertsEmitter(o: Origin, ops: seq<Timed>, events: seq<Event>, now: Time, grace: Time)
    requires Proper(ops) && SameEvents(events, Emitted(o, ops))
    ensures Reconciled(events, now, grace).closed
         == StopRecords(o, ops)
            + (if BootIsSilent(o, ops, now, grace) then LostRecordsOf(o, LiveAfter(ops), LastPulse(ops).value) else [])
  {
    hide Emitted, SameEvents, RowsOf, Fold, FoldBoots, Supersede, Expire, StopRecords, LiveAfter, LastPulse, Mirrors,
      BootRecords, LostRecordsOf, Dedupe, Boots;
    var b := Fold(EMPTY, o.boot, Emitted(o, ops));
    ShuffleFoldsToTheLog(o, ops, events);
    FoldOfEmitted(o, ops);
    BooksOfOneBoot(events, o.boot, Emitted(o, ops));
    ExpireOne(b, now, grace);
    if LastPulse(ops).Some? {
      CloseMirrored(o, b.opens, LiveAfter(ops), LastPulse(ops).value);
    }
    assert StopRecords(o, ops) + [] == StopRecords(o, ops);
  }

  /** With one boot there is nothing to supersede. */
  lemma BooksOfOneBoot(events: seq<Event>, boot: string, rows: seq<Event>)
    requires Boots(Dedupe(events)) == (if Dedupe(events) == [] then [] else [boot])
    requires rows == RowsOf(events, boot) && (Dedupe(events) == [] ==> rows == [])
    ensures var d, b := Dedupe(events), Fold(EMPTY, boot, rows);
      FoldBoots(EMPTY, d, Boots(d)) == b && Supersede(b, Boots(d)) == b
  {
    var d := Dedupe(events);
    if d != [] {
      assert [boot][..0] == [];
    }
  }

  lemma ExpireOne(b: Books, now: Time, grace: Time)
    requires |b.intervals| <= 1
    ensures Expire(b, b.intervals, now, grace) ==
      if b.intervals != [] && Silent(b, b.intervals[0].0, b.intervals[0].1, now, grace)
      then CloseBoot(b, b.intervals[0].0, b.lastBeat[b.intervals[0].0]) else b
  {
    if b.intervals != [] {
      assert b.intervals[..0] == [];
    }
  }
}
