/**
 The replay-and-acknowledge protocol end to end.

 A worker numbers the envelopes of each session, keeps them in its outbox until a cumulative ack and
 sends them in order over a socket; the API settles them in batches. Batches may roll back, stall
 sessions, or commit without the API learning of it; acks may be lost; the socket may close at any
 time; leases come and go; a worker may restart, or another one may take the sessions over. In every
 state any run reaches nothing is lost, nothing is applied twice and nothing is skipped but what was
 applied before. The log of settled envelopes is history: no step reads it.
 */
module Protocol {
  import opened Common
  import opened IngestStore
  import opened IngestLaws
  import opened IngestBatches
  import opened Delivery

  /** What the environment does to one envelope of a batch. */
  datatype Condition = Condition(now: Time, fault: Fault, artifact: ArtifactAnswer)

  /**
   `worker` holds the sessions at the moment. `issued` is the line of each session: every envelope it
   numbered, after those of earlier workers up to where it took over; its outbox still holds what
   lies above `acked`; `sent` is how far this connection got. `lane` is the socket with the queue behind it.
   */
  datatype System = System(
    db: Db,
    worker: Id,
    issued: map<Id, seq<Envelope>>,
    acked: map<Id, nat>,
    sent: map<Id, nat>,
    lane: seq<Envelope>,
    acks: set<(Id, nat)>,
    log: seq<Entry>)

  function Issued(sys: System, s: Id): seq<Envelope> {
    if s in sys.issued then sys.issued[s] else []
  }

  function Mark(marks: map<Id, nat>, s: Id): nat {
    if s in marks then marks[s] else 0
  }

  datatype Step =
    | Append(session: Id, turn: Option<Id>, payload: Payload, size: nat)
    | Send(session: Id)
    | Flush(conditions: seq<Condition>)          // settles the head of the lane; the outcome is reported
    | FlushUnreported(conditions: seq<Condition>) // commits, but the API takes it for a failure
    | DeliverAck(session: Id, n: nat)
    | Reconnect(hello: set<Id>)                  // the socket closes; a new one opens with these cursors
    | ChangeRows(sessions: map<Id, Session>)     // leases are granted, released, or expire
    | Recover(session: Id, now: Time)
    /** A worker starts, anew or instead of the last one, with what its spool holds of each session. */
    | TakeOver(worker: Id, starts: map<Id, nat>, spool: map<Id, seq<Envelope>>)

  function Attempts(lane: seq<Envelope>, conditions: seq<Condition>): seq<Attempt>
    requires |conditions| <= |lane|
  {
    seq(|conditions|, i requires 0 <= i < |conditions| =>
      Attempt(lane[i], conditions[i].now, conditions[i].fault, conditions[i].artifact))
  }

  function Envelopes(queue: seq<Attempt>): seq<Envelope> {
    seq(|queue|, i requires 0 <= i < |queue| => queue[i].envelope)
  }

  function Pairs(acks: map<Id, nat>): set<(Id, nat)> {
    set s | s in acks :: (s, acks[s])
  }

  predicate Enabled(sys: System, step: Step) {
    match step
    case Send(s) => Mark(sys.sent, s) < |Issued(sys, s)|
    case Flush(conditions) => |conditions| <= |sys.lane|
    case FlushUnreported(conditions) => |conditions| <= |sys.lane|
    case DeliverAck(s, n) => (s, n) in sys.acks
    case TakeOver(_, starts, spool) => forall s :: s in spool ==> Follows(spool[s], s, Start(sys, starts, s))
    case _ => true
  }

  /** Consecutive envelopes of the session, numbered from `n + 1` on. */
  predicate Follows(buffer: seq<Envelope>, s: Id, n: nat) {
    forall i :: 0 <= i < |buffer| ==> buffer[i].session == s && buffer[i].seqno == n + i + 1
  }

  /**
   Where the line of a session goes on when a worker starts: after the stored cursor, or, if its own spool
   begins later, after envelopes it had been acked for.
   */
  function Start(sys: System, starts: map<Id, nat>, s: Id): nat {
    var cursor := Cursor(sys.db, s);
    if s in starts && cursor <= starts[s] <= Max(cursor, Mark(sys.acked, s)) then starts[s] else cursor
  }

  function UpTo<T>(t: seq<T>, n: nat): seq<T> {
    if n <= |t| then t[..n] else t
  }

  function TakenOver(sys: System, worker: Id, starts: map<Id, nat>, spool: map<Id, seq<Envelope>>): System {
    var marks := map s | s in sys.issued.Keys + spool.Keys :: Start(sys, starts, s);
    var lines := map s | s in marks :: UpTo(Issued(sys, s), marks[s]) + (if s in spool then spool[s] else []);
    sys.(worker := worker, issued := lines, acked := marks, sent := marks, lane := [], acks := {})
  }

  /** One step; a step that is not enabled does nothing. */
  function Next(sys: System, step: Step): System {
    if !Enabled(sys, step) then sys
    else
      match step
      case Append(s, turn, payload, size) =>
        var e := Envelope(s, turn, |Issued(sys, s)| + 1, payload, size);
        sys.(issued := sys.issued[s := Issued(sys, s) + [e]])
      case Send(s) =>
        var n := Mark(sys.sent, s);
        sys.(lane := sys.lane + [Issued(sys, s)[n]], sent := sys.sent[s := n + 1])
      case Flush(conditions) =>
        var queue := Attempts(sys.lane, conditions);
        var b := IngestStore.Flush(sys.db, queue, sys.worker);
        sys.(db := b.db, lane := Envelopes(b.retry) + sys.lane[|conditions|..], acks := sys.acks + Pairs(b.acks),
             log := sys.log + Entries(Opening(sys.db), queue, sys.worker))
      case FlushUnreported(conditions) =>
        var queue := Attempts(sys.lane, conditions);
        sys.(db := IngestStore.Flush(sys.db, queue, sys.worker).db,
             log := sys.log + Entries(Opening(sys.db), queue, sys.worker))
      case DeliverAck(s, n) =>
        sys.(acked := sys.acked[s := Max(Mark(sys.acked, s), n)], sent := sys.sent[s := Max(Mark(sys.sent, s), n)])
      case Reconnect(hello) =>
        var acked := sys.acked +
          map s | s in hello && LeasedTo(sys.db, s, sys.worker) :: Max(Mark(sys.acked, s), Cursor(sys.db, s));
        sys.(acked := acked, sent := acked, lane := [], acks := {})
      case ChangeRows(sessions) => sys.(db := sys.db.(sessions := sessions), log := sys.log + [Rows(sessions)])
      case Recover(s, now) =>
        sys.(db := TurnRecovery.FailStale(sys.db, s, now), log := sys.log + [Recovery(s, now)])
      case TakeOver(worker, starts, spool) => TakenOver(sys, worker, starts, spool)
  }

  function Run(sys: System, steps: seq<Step>): System {
    if steps == [] then sys else Next(Run(sys, steps[..|steps| - 1]), steps[|steps| - 1])
  }

  /** Nothing has been ingested from workers yet; sessions, turns and the rest may be anything. */
  function Fresh(db: Db): Db {
    db.(cursors := map[], ledger := {})
  }

  function Initial(db: Db, worker: Id): System {
    System(Fresh(db), worker, map[], map[], map[], [], {}, [])
  }

  // ---------------------------------------------------------------- the invariant

  function Lane(lane: seq<Envelope>, s: Id): seq<Envelope> {
    if lane == [] then []
    else
      Lane(lane[..|lane| - 1], s) + (if lane[|lane| - 1].session == s then [lane[|lane| - 1]] else [])
  }

  /** Up to here everything of the session has left the lane. */
  function Base(sys: System, s: Id): int {
    Mark(sys.sent, s) - |Lane(sys.lane, s)|
  }

  /** The envelope was settled: applied, skipped, rejected or taken as a receipt. */
  predicate Done(log: seq<Entry>, e: Envelope) {
    exists i :: 0 <= i < |log| && log[i].Took? && log[i].attempt.envelope == e
  }

  predicate DoneUpTo(sys: System, s: Id, n: int) {
    n <= |Issued(sys, s)| && forall i :: 0 <= i < n ==> Done(sys.log, Issued(sys, s)[i])
  }

  predicate Numbered(sys: System, s: Id) {
    forall i :: 0 <= i < |Issued(sys, s)| ==> Issued(sys, s)[i].session == s && Issued(sys, s)[i].seqno == i + 1
  }

  ghost predicate SessionInv(sys: System, s: Id) {
    && Numbered(sys, s)
    && 0 <= Mark(sys.acked, s) <= Base(sys, s)
    && Mark(sys.sent, s) <= |Issued(sys, s)|
    && Lane(sys.lane, s) == Issued(sys, s)[Base(sys, s)..Mark(sys.sent, s)]
    && DoneUpTo(sys, s, Base(sys, s))
    && DoneUpTo(sys, s, Cursor(sys.db, s))
    && (forall n :: (s, n) in sys.acks ==> n <= Base(sys, s))
  }

  predicate AppliedTo(e: Entry, s: Id) {
    e.Took? && e.fate.Applied? && e.attempt.envelope.session == s
  }

  /** The envelope stands in the line of its session, not above the cursor. */
  predicate OnLine(sys: System, e: Envelope) {
    1 <= e.seqno <= Cursor(sys.db, e.session) && e.seqno <= |Issued(sys, e.session)|
    && Issued(sys, e.session)[e.seqno - 1] == e
  }

  /** Whatever was applied stands in the line, whoever holds the session now. */
  ghost predicate Genuine(sys: System, s: Id) {
    forall k :: 0 <= k < |sys.log| && AppliedTo(sys.log[k], s) ==> OnLine(sys, sys.log[k].attempt.envelope)
  }

  predicate AppliedBefore(log: seq<Entry>, e: Envelope, n: int) {
    exists k :: 0 <= k < n && k < |log| && log[k].Took? && log[k].fate.Applied? && log[k].attempt.envelope == e
  }

  /** Whatever was skipped had been applied: that envelope, not another one of its number. */
  ghost predicate SkipsRepeat(log: seq<Entry>) {
    forall i :: 0 <= i < |log| && log[i].Took? && log[i].fate.Skipped? ==>
      AppliedBefore(log, log[i].attempt.envelope, i)
  }

  ghost predicate History(db0: Db, sys: System) {
    Faithful(db0, sys.log) && SameContent(sys.db, Replay(db0, sys.log))
  }

  ghost predicate Inv(db0: Db, sys: System) {
    && (forall s :: SessionInv(sys, s) && Genuine(sys, s))
    && History(db0, sys)
    && SkipsRepeat(sys.log)
  }

  // ---------------------------------------------------------------- sequences

  lemma LaneGrows(lane: seq<Envelope>, e: Envelope, s: Id)
    ensures Lane(lane + [e], s) == Lane(lane, s) + (if e.session == s then [e] else [])
  {
    assert (lane + [e])[..|lane + [e]| - 1] == lane;
  }

  lemma {:induction false} LaneJoins(xs: seq<Envelope>, ys: seq<Envelope>, s: Id)
    ensures Lane(xs + ys, s) == Lane(xs, s) + Lane(ys, s)
  {
    if ys == [] {
      assert xs + ys == xs;
    } else {
      LaneJoins(xs, ys[..|ys| - 1], s);
      assert (xs + ys)[..|xs + ys| - 1] == xs + ys[..|ys| - 1];
    }
  }

  lemma {:induction false} LaneOfEnvelopes(queue: seq<Attempt>, s: Id)
    ensures Lane(Envelopes(queue), s) == Envelopes(Of(queue, s))
  {
    if queue != [] {
      var front, last := queue[..|queue| - 1], queue[|queue| - 1];
      LaneOfEnvelopes(front, s);
      assert Envelopes(queue)[..|queue| - 1] == Envelopes(front);
    }
  }

  lemma {:induction false} OfIsOf(queue: seq<Attempt>, s: Id)
    ensures forall i :: 0 <= i < |Of(queue, s)| ==> Of(queue, s)[i].envelope.session == s
    ensures forall i :: 0 <= i < |Of(queue, s)| ==> Of(queue, s)[i] in queue
  {
    if queue != [] {
      OfIsOf(queue[..|queue| - 1], s);
    }
  }

  lemma {:induction false} EntriesAreSettled(b: Batch, queue: seq<Attempt>, worker: Id)
    ensures var more, kept := Entries(b, queue, worker), Settled(b, queue, worker);
      |more| == |kept| && forall i :: 0 <= i < |more| ==> more[i].Took? && more[i].attempt == kept[i]
  {
    hide Settle, Held;
    if queue != [] {
      EntriesAreSettled(b, queue[..|queue| - 1], worker);
    }
  }

  lemma DoneStays(log: seq<Entry>, more: seq<Entry>, e: Envelope)
    requires Done(log, e)
    ensures Done(log + more, e)
  {
    var i :| 0 <= i < |log| && log[i].Took? && log[i].attempt.envelope == e;
    assert (log + more)[i] == log[i];
  }

  lemma DoneUpToStays(sys: System, sys': System, s: Id, n: int, more: seq<Entry>)
    requires DoneUpTo(sys, s, n) && sys'.log == sys.log + more
    requires Issued(sys, s) <= Issued(sys', s)
    ensures DoneUpTo(sys', s, n)
  {
    forall i | 0 <= i < n
      ensures Done(sys'.log, Issued(sys', s)[i])
    {
      DoneStays(sys.log, more, Issued(sys, s)[i]);
    }
  }

  // ---------------------------------------------------------------- a batch, seen from one session

  /** The session's part of a batch is the next stretch of what the worker issued. */
  lemma BatchIsNextStretch(sys: System, conditions: seq<Condition>, s: Id)
    requires SessionInv(sys, s) && |conditions| <= |sys.lane|
    ensures var mine, back := Of(Attempts(sys.lane, conditions), s), Lane(sys.lane[|conditions|..], s);
      && Lane(sys.lane, s) == Envelopes(mine) + back
      && Base(sys, s) + |mine| <= Mark(sys.sent, s)
      && (forall i :: 0 <= i < |mine| ==> mine[i].envelope == Issued(sys, s)[Base(sys, s) + i])
      && back == Issued(sys, s)[Base(sys, s) + |mine|..Mark(sys.sent, s)]
      && Ascending(mine)
  {
    var queue, n := Attempts(sys.lane, conditions), |conditions|;
    var mine, back := Of(queue, s), Lane(sys.lane[n..], s);
    assert Envelopes(queue) == sys.lane[..n];
    assert sys.lane == sys.lane[..n] + sys.lane[n..];
    LaneJoins(sys.lane[..n], sys.lane[n..], s);
    LaneOfEnvelopes(queue, s);
    var all := Issued(sys, s)[Base(sys, s)..Mark(sys.sent, s)];
    assert all == Envelopes(mine) + back;
    forall i | 0 <= i < |mine|
      ensures mine[i].envelope == Issued(sys, s)[Base(sys, s) + i]
    {
      assert Envelopes(mine)[i] == all[i];
    }
    assert back == all[|mine|..];
    forall i, j | 0 <= i < j < |mine|
      ensures mine[i].envelope.seqno < mine[j].envelope.seqno
    {
      assert Issued(sys, s)[Base(sys, s) + i].seqno < Issued(sys, s)[Base(sys, s) + j].seqno;
    }
  }

  /** The part of its stretch that a batch settles for the session. */
  function KeptOf(sys: System, conditions: seq<Condition>, s: Id): seq<Attempt>
    requires |conditions| <= |sys.lane|
  {
    Of(Settled(Opening(sys.db), Attempts(sys.lane, conditions), sys.worker), s)
  }

  lemma KeptIsPrefix(sys: System, conditions: seq<Condition>, s: Id)
    requires SessionInv(sys, s) && |conditions| <= |sys.lane|
    ensures var queue, kept := Attempts(sys.lane, conditions), KeptOf(sys, conditions, s);
      var b := IngestStore.Flush(sys.db, queue, sys.worker);
      && Of(queue, s) == kept + Of(b.retry, s)
      && Base(sys, s) + |kept| <= Mark(sys.sent, s)
      && (forall i :: 0 <= i < |kept| ==> kept[i].envelope == Issued(sys, s)[Base(sys, s) + i])
      && (s in b.acks <==> kept != [])
      && (s in b.acks ==> b.acks[s] == Base(sys, s) + |kept|)
      && Cursor(b.db, s)
         == (if LeasedTo(sys.db, s, sys.worker) && kept != [] then Max(Cursor(sys.db, s), Base(sys, s) + |kept|)
             else Cursor(sys.db, s))
  {
    hide Settled, IngestStore.Flush, Settle;
    var queue, kept := Attempts(sys.lane, conditions), KeptOf(sys, conditions, s);
    var b := IngestStore.Flush(sys.db, queue, sys.worker);
    var mine := Of(queue, s);
    BatchIsNextStretch(sys, conditions, s);
    AckCoversTheSettled(sys.db, queue, sys.worker, s);
    FlushAcksLast(sys.db, queue, sys.worker, s);
    forall i | 0 <= i < |kept|
      ensures kept[i].envelope == Issued(sys, s)[Base(sys, s) + i]
    {
      assert mine[i] == kept[i];
    }
  }

  lemma FlushAcksLast(db: Db, queue: seq<Attempt>, worker: Id, s: Id)
    requires Ascending(Of(queue, s))
    ensures var b, kept := IngestStore.Flush(db, queue, worker), Of(Settled(Opening(db), queue, worker), s);
      kept != [] ==> s in b.acks && b.acks[s] == kept[|kept| - 1].envelope.seqno
  {
    hide Settle, Held;
    SettlesAPrefix(db, queue, worker, s);
  }

  lemma KeptIsDone(sys: System, conditions: seq<Condition>, s: Id, i: nat)
    requires |conditions| <= |sys.lane| && i < |KeptOf(sys, conditions, s)|
    ensures var queue := Attempts(sys.lane, conditions);
      Done(sys.log + Entries(Opening(sys.db), queue, sys.worker), KeptOf(sys, conditions, s)[i].envelope)
  {
    hide Settled, Entries;
    var queue := Attempts(sys.lane, conditions);
    var all, more := Settled(Opening(sys.db), queue, sys.worker), Entries(Opening(sys.db), queue, sys.worker);
    EntriesAreSettled(Opening(sys.db), queue, sys.worker);
    OfIsOf(all, s);
    var a := Of(all, s)[i];
    var k :| 0 <= k < |all| && all[k] == a;
    assert (sys.log + more)[|sys.log| + k] == more[k];
  }

  lemma KeptDoneUpTo(sys: System, sys': System, conditions: seq<Condition>, s: Id)
    requires SessionInv(sys, s) && |conditions| <= |sys.lane| && sys'.issued == sys.issued
    requires sys'.log == sys.log + Entries(Opening(sys.db), Attempts(sys.lane, conditions), sys.worker)
    ensures DoneUpTo(sys', s, Base(sys, s) + |KeptOf(sys, conditions, s)|)
    ensures DoneUpTo(sys', s, Cursor(sys.db, s))
  {
    hide KeptOf, Entries, Lane, Done, Numbered, Attempts, Settled, IngestStore.Flush;
    var more := Entries(Opening(sys.db), Attempts(sys.lane, conditions), sys.worker);
    var base, kept := Base(sys, s), KeptOf(sys, conditions, s);
    KeptIsPrefix(sys, conditions, s);
    DoneUpToStays(sys, sys', s, base, more);
    DoneUpToStays(sys, sys', s, Cursor(sys.db, s), more);
    forall i | 0 <= i < base + |kept|
      ensures Done(sys'.log, Issued(sys', s)[i])
    {
      if i >= base {
        KeptIsDone(sys, conditions, s, i - base);
      }
    }
  }

  // ---------------------------------------------------------------- every step keeps the invariant

  lemma SplitOff<T>(t: seq<T>, lo: nat, hi: nat, x: seq<T>, y: seq<T>)
    requires lo <= hi <= |t| && t[lo..hi] == x + y
    ensures lo + |x| <= hi && y == t[lo + |x|..hi]
  {
    assert |t[lo..hi]| == |x| + |y|;
    assert y == t[lo..hi][|x|..];
  }

  lemma EnvelopesJoin(xs: seq<Attempt>, ys: seq<Attempt>)
    ensures Envelopes(xs + ys) == Envelopes(xs) + Envelopes(ys)
    ensures |Envelopes(xs)| == |xs|
  {
  }

  lemma SessionLane(sys: System, s: Id)
    requires SessionInv(sys, s)
    ensures 0 <= Base(sys, s) <= Mark(sys.sent, s) <= |Issued(sys, s)|
    ensures Lane(sys.lane, s) == Issued(sys, s)[Base(sys, s)..Mark(sys.sent, s)]
  {
  }

  lemma RetryLane(sys: System, conditions: seq<Condition>, s: Id)
    requires SessionInv(sys, s) && |conditions| <= |sys.lane|
    ensures var b := IngestStore.Flush(sys.db, Attempts(sys.lane, conditions), sys.worker);
      var base := Base(sys, s) + |KeptOf(sys, conditions, s)|;
      && base <= Mark(sys.sent, s)
      && Lane(Envelopes(b.retry) + sys.lane[|conditions|..], s) == Issued(sys, s)[base..Mark(sys.sent, s)]
  {
    hide *;
    var queue, kept := Attempts(sys.lane, conditions), KeptOf(sys, conditions, s);
    var b := IngestStore.Flush(sys.db, queue, sys.worker);
    var back, held := Lane(sys.lane[|conditions|..], s), Of(b.retry, s);
    SessionLane(sys, s);
    BatchIsNextStretch(sys, conditions, s);
    KeptIsPrefix(sys, conditions, s);
    LaneJoins(Envelopes(b.retry), sys.lane[|conditions|..], s);
    LaneOfEnvelopes(b.retry, s);
    EnvelopesJoin(kept, held);
    assert Envelopes(kept) + Envelopes(held) + back == Envelopes(kept) + (Envelopes(held) + back);
    SplitOff(Issued(sys, s), Base(sys, s), Mark(sys.sent, s), Envelopes(kept), Envelopes(held) + back);
  }

  lemma FlushEffect(sys: System, conditions: seq<Condition>)
    requires |conditions| <= |sys.lane|
    ensures var queue := Attempts(sys.lane, conditions);
      var b := IngestStore.Flush(sys.db, queue, sys.worker);
      Next(sys, Flush(conditions)) == sys.(
        db := b.db, lane := Envelopes(b.retry) + sys.lane[|conditions|..], acks := sys.acks + Pairs(b.acks),
        log := sys.log + Entries(Opening(sys.db), queue, sys.worker))
    ensures var queue := Attempts(sys.lane, conditions);
      Next(sys, FlushUnreported(conditions)) == sys.(
        db := IngestStore.Flush(sys.db, queue, sys.worker).db,
        log := sys.log + Entries(Opening(sys.db), queue, sys.worker))
  {
    hide IngestStore.Flush, TurnRecovery.FailStale, Entries, TakenOver, Attempts, Envelopes;
  }

  lemma FlushKeepsSession(sys: System, conditions: seq<Condition>, s: Id)
    requires SessionInv(sys, s) && |conditions| <= |sys.lane|
    ensures SessionInv(Next(sys, Flush(conditions)), s)
    ensures Base(Next(sys, Flush(conditions)), s) == Base(sys, s) + |KeptOf(sys, conditions, s)|
  {
    hide Next, KeptOf, IngestStore.Flush, Entries, Lane, DoneUpTo, Numbered, Envelopes, Attempts, Of;
    var sys' := Next(sys, Flush(conditions));
    FlushEffect(sys, conditions);
    RetryLane(sys, conditions, s);
    KeptIsPrefix(sys, conditions, s);
    KeptDoneUpTo(sys, sys', conditions, s);
    NumberedStays(sys, sys', s);
    FlushedUpTo(sys, sys', conditions, s);
  }

  /** The cursor goes no further than what is settled. */
  lemma FlushedUpTo(sys: System, sys': System, conditions: seq<Condition>, s: Id)
    requires SessionInv(sys, s) && |conditions| <= |sys.lane| && sys'.issued == sys.issued
    requires sys'.db == IngestStore.Flush(sys.db, Attempts(sys.lane, conditions), sys.worker).db
    requires sys'.log == sys.log + Entries(Opening(sys.db), Attempts(sys.lane, conditions), sys.worker)
    ensures DoneUpTo(sys', s, Cursor(sys'.db, s))
  {
    hide KeptOf, IngestStore.Flush, Entries, SessionInv, DoneUpTo, Attempts, Of;
    KeptIsPrefix(sys, conditions, s);
    KeptDoneUpTo(sys, sys', conditions, s);
  }

  lemma UnreportedKeepsSession(sys: System, conditions: seq<Condition>, s: Id)
    requires SessionInv(sys, s) && |conditions| <= |sys.lane|
    ensures SessionInv(Next(sys, FlushUnreported(conditions)), s)
  {
    hide Next, KeptOf, IngestStore.Flush, Entries, Lane, DoneUpTo, Numbered, Attempts;
    var sys' := Next(sys, FlushUnreported(conditions));
    FlushEffect(sys, conditions);
    DoneUpToStays(sys, sys', s, Base(sys, s), Entries(Opening(sys.db), Attempts(sys.lane, conditions), sys.worker));
    NumberedStays(sys, sys', s);
    FlushedUpTo(sys, sys', conditions, s);
  }

  lemma NumberedStays(sys: System, sys': System, s: Id)
    requires Numbered(sys, s) && Issued(sys', s) == Issued(sys, s)
    ensures Numbered(sys', s)
  {
  }

  lemma NumberedGrows(sys: System, sys': System, s: Id, e: Envelope)
    requires Numbered(sys, s) && Issued(sys', s) == Issued(sys, s) + [e]
    requires e.session == s && e.seqno == |Issued(sys, s)| + 1
    ensures Numbered(sys', s)
  {
  }

  lemma SliceStays<T>(t: seq<T>, t': seq<T>, lo: int, hi: int)
    requires 0 <= lo <= hi <= |t| && t <= t'
    ensures t'[lo..hi] == t[lo..hi]
  {
  }

  lemma AppendEffect(sys: System, step: Step, s: Id)
    requires step.Append?
    ensures var sys', n := Next(sys, step), |Issued(sys, step.session)| + 1;
      var e := Envelope(step.session, step.turn, n, step.payload, step.size);
      && sys' == sys.(issued := sys'.issued)
      && Issued(sys', s) == Issued(sys, s) + (if s == step.session then [e] else [])
  {
    hide IngestStore.Flush, TurnRecovery.FailStale, Entries, TakenOver;
  }

  lemma AppendKeepsSession(sys: System, step: Step, s: Id)
    requires SessionInv(sys, s) && step.Append?
    ensures SessionInv(Next(sys, step), s)
  {
    hide Next, Lane, Done, DoneUpTo, Numbered, Issued;
    var sys' := Next(sys, step);
    AppendEffect(sys, step, s);
    assert sys.log == sys.log + [];
    SliceStays(Issued(sys, s), Issued(sys', s), Base(sys, s), Mark(sys.sent, s));
    DoneUpToStays(sys, sys', s, Base(sys, s), []);
    DoneUpToStays(sys, sys', s, Cursor(sys.db, s), []);
    if s == step.session {
      NumberedGrows(sys, sys', s, Envelope(s, step.turn, |Issued(sys, s)| + 1, step.payload, step.size));
    } else {
      NumberedStays(sys, sys', s);
    }
  }

  lemma SendEffect(sys: System, z: Id)
    requires Enabled(sys, Send(z))
    ensures var n := Mark(sys.sent, z);
      Next(sys, Send(z)) == sys.(lane := sys.lane + [Issued(sys, z)[n]], sent := sys.sent[z := n + 1])
  {
    hide IngestStore.Flush, TurnRecovery.FailStale, Entries, TakenOver;
  }

  lemma SendKeepsSession(sys: System, z: Id, s: Id)
    requires SessionInv(sys, s) && SessionInv(sys, z) && Enabled(sys, Send(z))
    ensures SessionInv(Next(sys, Send(z)), s)
    ensures Base(Next(sys, Send(z)), s) == Base(sys, s)
  {
    hide Next, Lane, Done, DoneUpTo, Numbered;
    var sys', n := Next(sys, Send(z)), Mark(sys.sent, z);
    var e := Issued(sys, z)[n];
    SendEffect(sys, z);
    LaneGrows(sys.lane, e, s);
    NumberedAt(sys, z, n);
    if z == s {
      SendExtends(Issued(sys, s), Base(sys, s), n);
    } else {
      assert Lane(sys.lane, s) + [] == Lane(sys.lane, s);
    }
    assert sys.log + [] == sys.log;
    DoneUpToStays(sys, sys', s, Base(sys, s), []);
    DoneUpToStays(sys, sys', s, Cursor(sys.db, s), []);
    NumberedStays(sys, sys', s);
  }

  lemma NumberedAt(sys: System, s: Id, i: nat)
    requires SessionInv(sys, s) && i < |Issued(sys, s)|
    ensures Issued(sys, s)[i].session == s && Issued(sys, s)[i].seqno == i + 1
  {
  }

  lemma SendExtends(t: seq<Envelope>, lo: nat, n: nat)
    requires lo <= n < |t|
    ensures t[lo..n] + [t[n]] == t[lo..n + 1]
  {
  }

  lemma LoggedEffect(sys: System, step: Step, s: Id)
    requires step.ChangeRows? || step.Recover?
    ensures var sys' := Next(sys, step);
      && sys' == sys.(db := sys'.db, log := sys.log + LoggedAs(step)) && Cursor(sys'.db, s) == Cursor(sys.db, s)
  {
    hide IngestStore.Flush, TurnRecovery.FailStale, Entries, TakenOver;
    if step.Recover? {
      RecoveryKeepsLedger(sys.db, step.session, step.now);
    }
  }

  /** What a row change or a recovery adds to the history. */
  function LoggedAs(step: Step): seq<Entry> {
    match step
    case ChangeRows(sessions) => [Rows(sessions)]
    case Recover(s, now) => [Recovery(s, now)]
    case _ => []
  }

  /** Rows and recoveries are logged; they move nothing of the protocol. */
  lemma LoggedKeepsSession(sys: System, step: Step, s: Id)
    requires SessionInv(sys, s) && (step.ChangeRows? || step.Recover?)
    ensures SessionInv(Next(sys, step), s)
  {
    hide Next, Lane, Done, DoneUpTo, Numbered, LoggedAs;
    var sys' := Next(sys, step);
    LoggedEffect(sys, step, s);
    DoneUpToStays(sys, sys', s, Base(sys, s), LoggedAs(step));
    DoneUpToStays(sys, sys', s, Cursor(sys.db, s), LoggedAs(step));
    NumberedStays(sys, sys', s);
  }

  lemma AckKeepsSession(sys: System, z: Id, n: nat, s: Id)
    requires SessionInv(sys, s) && Enabled(sys, DeliverAck(z, n))
    ensures SessionInv(Next(sys, DeliverAck(z, n)), s)
  {
    hide IngestStore.Flush, TurnRecovery.FailStale, Entries, TakenOver, Lane, Done, DoneUpTo, Numbered;
    var sys' := Next(sys, DeliverAck(z, n));
    assert sys'.log == sys.log + [];
    DoneUpToStays(sys, sys', s, Base(sys, s), []);
    DoneUpToStays(sys, sys', s, Cursor(sys.db, s), []);
    NumberedStays(sys, sys', s);
  }

  lemma ReconnectEffect(sys: System, hello: set<Id>, s: Id)
    ensures var sys' := Next(sys, Reconnect(hello));
      && sys'.db == sys.db && sys'.issued == sys.issued && sys'.log == sys.log && sys'.lane == [] && sys'.acks == {}
      && Mark(sys'.acked, s) == Mark(sys'.sent, s)
      && (Mark(sys'.acked, s) == Mark(sys.acked, s)
         || Mark(sys'.acked, s) == Max(Mark(sys.acked, s), Cursor(sys.db, s)))
  {
    hide IngestStore.Flush, TurnRecovery.FailStale, Entries, TakenOver;
  }

  lemma ReconnectKeepsSession(sys: System, hello: set<Id>, s: Id)
    requires SessionInv(sys, s)
    ensures SessionInv(Next(sys, Reconnect(hello)), s)
  {
    hide Next, Done, Numbered;
    var sys' := Next(sys, Reconnect(hello));
    ReconnectEffect(sys, hello, s);
    NumberedStays(sys, sys', s);
    assert Lane([], s) == [];
  }

  lemma QuietKeepsSession(sys: System, step: Step, s: Id)
    requires SessionInv(sys, s) && Enabled(sys, step)
    requires step.DeliverAck? || step.Reconnect? || step.ChangeRows? || step.Recover?
    ensures SessionInv(Next(sys, step), s)
  {
    hide *;
    match step
    case DeliverAck(z, n) => AckKeepsSession(sys, z, n, s);
    case Reconnect(hello) => ReconnectKeepsSession(sys, hello, s);
    case _ => LoggedKeepsSession(sys, step, s);
  }

  lemma TakeOverStarts(sys: System, step: Step, s: Id)
    requires SessionInv(sys, s) && step.TakeOver? && Enabled(sys, step)
    ensures var sys', start := Next(sys, step), Start(sys, step.starts, s);
      && Mark(sys'.acked, s) == Mark(sys'.sent, s) == start && sys'.lane == [] && sys'.acks == {}
      && Cursor(sys.db, s) <= start <= Max(Cursor(sys.db, s), Mark(sys.acked, s)) && start <= |Issued(sys, s)|
      && Issued(sys', s) == Issued(sys, s)[..start] + (if s in step.spool then step.spool[s] else [])
  {
    hide IngestStore.Flush, TurnRecovery.FailStale, Entries, Lane, Done, Envelopes, Follows;
  }

  /** A worker that starts keeps what is settled, and numbers on from there. */
  lemma TakeOverKeepsSession(sys: System, step: Step, s: Id)
    requires SessionInv(sys, s) && step.TakeOver? && Enabled(sys, step)
    ensures SessionInv(Next(sys, step), s)
    ensures Base(Next(sys, step), s) == Start(sys, step.starts, s)
  {
    hide Next, Done;
    var sys', start := Next(sys, step), Start(sys, step.starts, s);
    TakeOverStarts(sys, step, s);
    TakeOverKeepsRest(sys, step);
    assert Lane([], s) == [];
    forall i | 0 <= i < start
      ensures Done(sys'.log, Issued(sys', s)[i])
    {
      assert Issued(sys', s)[i] == Issued(sys, s)[i];
    }
  }

  lemma TakeOverKeepsRest(sys: System, step: Step)
    requires step.TakeOver?
    ensures Next(sys, step).db == sys.db && Next(sys, step).log == sys.log
  {
  }

  lemma StepKeepsSession(sys: System, step: Step, s: Id)
    requires forall z :: SessionInv(sys, z)
    ensures SessionInv(Next(sys, step), s)
  {
    hide Next, SessionInv;
    if Enabled(sys, step) {
      match step
      case Append(_, _, _, _) => AppendKeepsSession(sys, step, s);
      case Send(z) => SendKeepsSession(sys, z, s);
      case Flush(conditions) => FlushKeepsSession(sys, conditions, s);
      case FlushUnreported(conditions) => UnreportedKeepsSession(sys, conditions, s);
      case TakeOver(_, _, _) => TakeOverKeepsSession(sys, step, s);
      case _ => QuietKeepsSession(sys, step, s);
    } else {
      DisabledDoesNothing(sys, step);
    }
  }

  lemma DisabledDoesNothing(sys: System, step: Step)
    requires !Enabled(sys, step)
    ensures Next(sys, step) == sys
  {
  }

  // ---------------------------------------------------------------- the history

  lemma FlushedHistory(db0: Db, sys: System, queue: seq<Attempt>)
    requires History(db0, sys)
    ensures var log := sys.log + Entries(Opening(sys.db), queue, sys.worker);
      Faithful(db0, log) && SameContent(IngestStore.Flush(sys.db, queue, sys.worker).db, Replay(db0, log))
  {
    hide Settle, Entries, Faithful, Replay;
    BatchExtendsHistory(db0, sys.log, sys.db, queue, sys.worker);
    var b := SettleAll(Opening(sys.db), queue, sys.worker);
    OnlyCursorsMove(b.db, b.acks, sys.worker);
  }

  lemma LoggedHistory(db0: Db, db: Db, log: seq<Entry>, e: Entry)
    requires Faithful(db0, log) && SameContent(db, Replay(db0, log)) && !e.Took?
    ensures Faithful(db0, log + [e]) && SameContent(After(db, e), Replay(db0, log + [e]))
  {
    hide Faithful, After, SameContent;
    AfterSameContent(db, Replay(db0, log), e);
    FaithfulGrows(db0, log, e);
    assert (log + [e])[..|log + [e]| - 1] == log;
  }

  lemma StepKeepsHistory(db0: Db, sys: System, step: Step)
    requires History(db0, sys)
    ensures History(db0, Next(sys, step))
  {
    hide Entries, Faithful, Replay, SameContent, IngestStore.Flush, TurnRecovery.FailStale, TakenOver, Start, Follows;
    if Enabled(sys, step) {
      match step
      case Flush(conditions) => FlushedHistory(db0, sys, Attempts(sys.lane, conditions));
      case FlushUnreported(conditions) => FlushedHistory(db0, sys, Attempts(sys.lane, conditions));
      case ChangeRows(sessions) => LoggedHistory(db0, sys.db, sys.log, Rows(sessions));
      case Recover(s, now) => LoggedHistory(db0, sys.db, sys.log, Recovery(s, now));
      case TakeOver(_, _, _) => TakeOverKeepsRest(sys, step);
      case _ =>
    }
  }

  // ---------------------------------------------------------------- applied envelopes stand in the line

  /** A step that logs `more`, none of it an application to `s`, and leaves the line below the cursor as it is. */
  lemma GenuineStays(sys: System, sys': System, s: Id, more: seq<Entry>)
    requires Genuine(sys, s) && sys'.log == sys.log + more
    requires Cursor(sys'.db, s) == Cursor(sys.db, s) <= |Issued(sys, s)|
    requires Cursor(sys.db, s) <= |Issued(sys', s)|
    requires Issued(sys', s)[..Cursor(sys.db, s)] == Issued(sys, s)[..Cursor(sys.db, s)]
    requires forall k :: 0 <= k < |more| ==> !AppliedTo(more[k], s)
    ensures Genuine(sys', s)
  {
    var cursor := Cursor(sys.db, s);
    forall k | |sys.log| <= k < |sys'.log|
      ensures !AppliedTo(sys'.log[k], s)
    {
      assert sys'.log[k] == more[k - |sys.log|];
    }
    forall k | 0 <= k < |sys'.log| && AppliedTo(sys'.log[k], s)
      ensures OnLine(sys', sys'.log[k].attempt.envelope)
    {
      var e := sys.log[k].attempt.envelope;
      assert sys'.log[k] == sys.log[k] && OnLine(sys, e);
      assert Issued(sys', s)[..cursor][e.seqno - 1] == Issued(sys, s)[..cursor][e.seqno - 1];
    }
  }

  lemma QuietKeepsGenuine(sys: System, step: Step, s: Id)
    requires SessionInv(sys, s) && Genuine(sys, s) && Enabled(sys, step)
    requires !step.Flush? && !step.FlushUnreported?
    ensures Genuine(Next(sys, step), s)
  {
    hide Genuine, TurnRecovery.FailStale, IngestStore.Flush, Entries, Envelopes, Lane, Done, TakenOver, Follows,
      Numbered;
    var sys' := Next(sys, step);
    assert sys.log + [] == sys.log;
    match step
    case Append(_, _, _, _) => GenuineStays(sys, sys', s, []);
    case TakeOver(_, _, _) =>
      TakeOverStarts(sys, step, s);
      TakeOverKeepsRest(sys, step);
      assert Issued(sys', s)[..Cursor(sys.db, s)] == Issued(sys, s)[..Cursor(sys.db, s)];
      GenuineStays(sys, sys', s, []);
    case ChangeRows(sessions) => GenuineStays(sys, sys', s, [Rows(sessions)]);
    case Recover(z, now) =>
      RecoveryKeepsLedger(sys.db, z, now);
      GenuineStays(sys, sys', s, [Recovery(z, now)]);
    case _ => GenuineStays(sys, sys', s, []);
  }

  lemma AppliedNeedsLease(db: Db, a: Attempt, worker: Id)
    ensures Judge(db, a, worker).fate.Applied? ==> LeasedTo(db, a.envelope.session, worker)
  {
    hide Deliver, Redeliver;
  }

  /** What a batch applies belongs to sessions leased to its worker. */
  lemma {:induction false} AppliedIsLeased(db: Db, queue: seq<Attempt>, worker: Id, s: Id)
    requires exists k :: 0 <= k < |Entries(Opening(db), queue, worker)|
                         && AppliedTo(Entries(Opening(db), queue, worker)[k], s)
    ensures LeasedTo(db, s, worker)
  {
    hide Judge, Settle, Held;
    var k :| 0 <= k < |Entries(Opening(db), queue, worker)| && AppliedTo(Entries(Opening(db), queue, worker)[k], s);
    var front, last := queue[..|queue| - 1], queue[|queue| - 1];
    var done, before := Entries(Opening(db), front, worker), SettleAll(Opening(db), front, worker);
    if k < |done| {
      assert AppliedTo(done[k], s);
      AppliedIsLeased(db, front, worker, s);
    } else {
      AppliedNeedsLease(before.db, last, worker);
      LeasesStay(Opening(db), front, worker);
    }
  }

  lemma {:induction false} OfHasAll(queue: seq<Attempt>, k: nat) returns (i: nat)
    requires k < |queue|
    ensures var mine := Of(queue, queue[k].envelope.session); i < |mine| && mine[i] == queue[k]
  {
    var front, last := queue[..|queue| - 1], queue[|queue| - 1];
    if k < |front| {
      i := OfHasAll(front, k);
    } else {
      i := |Of(front, last.envelope.session)|;
    }
  }

  /** What a batch settles for a session is the next stretch of its line. */
  lemma EntryIsIssued(sys: System, conditions: seq<Condition>, s: Id, j: nat)
    requires SessionInv(sys, s) && |conditions| <= |sys.lane|
    requires var more := Entries(Opening(sys.db), Attempts(sys.lane, conditions), sys.worker);
      j < |more| && more[j].Took? && more[j].attempt.envelope.session == s
    ensures var e := Entries(Opening(sys.db), Attempts(sys.lane, conditions), sys.worker)[j].attempt.envelope;
      && 1 <= e.seqno <= Base(sys, s) + |KeptOf(sys, conditions, s)| <= |Issued(sys, s)|
      && Issued(sys, s)[e.seqno - 1] == e && KeptOf(sys, conditions, s) != []
  {
    hide *;
    var queue := Attempts(sys.lane, conditions);
    var kept := Settled(Opening(sys.db), queue, sys.worker);
    EntriesAreSettled(Opening(sys.db), queue, sys.worker);
    var i := OfHasAll(kept, j);
    KeptIsPrefix(sys, conditions, s);
    SessionLane(sys, s);
    KeptUnfolds(sys, conditions, s);
    NumberedAt(sys, s, Base(sys, s) + i);
  }

  lemma KeptUnfolds(sys: System, conditions: seq<Condition>, s: Id)
    requires |conditions| <= |sys.lane|
    ensures KeptOf(sys, conditions, s) == Of(Settled(Opening(sys.db), Attempts(sys.lane, conditions), sys.worker), s)
  {
  }

  lemma FlushKeepsGenuine(sys: System, sys': System, conditions: seq<Condition>, s: Id)
    requires SessionInv(sys, s) && Genuine(sys, s) && |conditions| <= |sys.lane|
    requires var queue := Attempts(sys.lane, conditions);
      && sys'.db == IngestStore.Flush(sys.db, queue, sys.worker).db && sys'.issued == sys.issued
      && sys'.log == sys.log + Entries(Opening(sys.db), queue, sys.worker)
    ensures Genuine(sys', s)
  {
    hide IngestStore.Flush, Entries, Settled, KeptOf, SessionInv, Attempts, Lane;
    var queue := Attempts(sys.lane, conditions);
    var more := Entries(Opening(sys.db), queue, sys.worker);
    KeptIsPrefix(sys, conditions, s);
    forall k | 0 <= k < |sys'.log| && AppliedTo(sys'.log[k], s)
      ensures OnLine(sys', sys'.log[k].attempt.envelope)
    {
      if k < |sys.log| {
        assert sys'.log[k] == sys.log[k] && OnLine(sys, sys.log[k].attempt.envelope);
      } else {
        var j := k - |sys.log|;
        assert sys'.log[k] == more[j];
        EntryIsIssued(sys, conditions, s, j);
        AppliedIsLeased(sys.db, queue, sys.worker, s);
      }
    }
  }

  lemma StepKeepsGenuine(sys: System, step: Step, s: Id)
    requires SessionInv(sys, s) && Genuine(sys, s)
    ensures Genuine(Next(sys, step), s)
  {
    hide Genuine, SessionInv, Entries, IngestStore.Flush, TurnRecovery.FailStale, TakenOver, Start, Follows;
    if Enabled(sys, step) {
      match step
      case Flush(conditions) => FlushKeepsGenuine(sys, Next(sys, step), conditions, s);
      case FlushUnreported(conditions) => FlushKeepsGenuine(sys, Next(sys, step), conditions, s);
      case _ => QuietKeepsGenuine(sys, step, s);
    }
  }

  // ---------------------------------------------------------------- what is skipped was applied

  lemma AppliedBeforeStays(log: seq<Entry>, more: seq<Entry>, e: Envelope, n: nat)
    requires AppliedBefore(log, e, n)
    ensures AppliedBefore(log + more, e, n)
  {
    var k :| 0 <= k < n && k < |log| && log[k].Took? && log[k].fate.Applied? && log[k].attempt.envelope == e;
    assert (log + more)[k] == log[k];
  }

  /** A skipped entry of a batch: its key was applied before, and the line holds one envelope of that number. */
  lemma SkipIsRepeat(db0: Db, sys: System, log: seq<Entry>, i: nat)
    requires db0.ledger == {} && Faithful(db0, log) && i < |log| && log[i].Took? && log[i].fate.Skipped?
    requires var e := log[i].attempt.envelope;
      && 1 <= e.seqno <= |Issued(sys, e.session)| && Issued(sys, e.session)[e.seqno - 1] == e
      && sys.log == log && Genuine(sys, e.session)
    ensures AppliedBefore(log, log[i].attempt.envelope, i)
  {
    hide Faithful;
    var e := log[i].attempt.envelope;
    var k := SkippedAfterApplied(db0, log, i);
    assert AppliedTo(log[k], e.session);
    assert OnLine(sys, log[k].attempt.envelope);
  }

  lemma FlushKeepsSkips(db0: Db, sys: System, sys': System, conditions: seq<Condition>)
    requires db0.ledger == {} && |conditions| <= |sys.lane| && Faithful(db0, sys'.log) && SkipsRepeat(sys.log)
    requires sys'.issued == sys.issued
    requires sys'.log == sys.log + Entries(Opening(sys.db), Attempts(sys.lane, conditions), sys.worker)
    requires forall s :: SessionInv(sys, s) && Genuine(sys', s)
    ensures SkipsRepeat(sys'.log)
  {
    hide Faithful, SessionInv, Genuine, Entries, Attempts, AppliedBefore, KeptOf, Base;
    var more := Entries(Opening(sys.db), Attempts(sys.lane, conditions), sys.worker);
    forall i | 0 <= i < |sys'.log| && sys'.log[i].Took? && sys'.log[i].fate.Skipped?
      ensures AppliedBefore(sys'.log, sys'.log[i].attempt.envelope, i)
    {
      if i < |sys.log| {
        assert sys'.log[i] == sys.log[i];
        AppliedBeforeStays(sys.log, more, sys.log[i].attempt.envelope, i);
      } else {
        var s := more[i - |sys.log|].attempt.envelope.session;
        assert SessionInv(sys, s) && Genuine(sys', s);
        EntryIsIssued(sys, conditions, s, i - |sys.log|);
        SkipIsRepeat(db0, sys', sys'.log, i);
      }
    }
  }

  lemma LoggedKeepsSkips(log: seq<Entry>, more: seq<Entry>)
    requires SkipsRepeat(log) && forall k :: 0 <= k < |more| ==> !more[k].Took?
    ensures SkipsRepeat(log + more)
  {
    hide AppliedBefore;
    forall i | 0 <= i < |log + more| && (log + more)[i].Took? && (log + more)[i].fate.Skipped?
      ensures AppliedBefore(log + more, (log + more)[i].attempt.envelope, i)
    {
      if i < |log| {
        AppliedBeforeStays(log, more, log[i].attempt.envelope, i);
      }
    }
  }

  lemma StepKeepsSkips(db0: Db, sys: System, step: Step)
    requires db0.ledger == {} && SkipsRepeat(sys.log)
    requires Faithful(db0, Next(sys, step).log) && forall s :: SessionInv(sys, s) && Genuine(Next(sys, step), s)
    ensures SkipsRepeat(Next(sys, step).log)
  {
    hide Faithful, SessionInv, Genuine, Entries, SkipsRepeat, IngestStore.Flush, TurnRecovery.FailStale, TakenOver;
    hide Start, Follows;
    if Enabled(sys, step) {
      match step
      case Flush(conditions) => FlushKeepsSkips(db0, sys, Next(sys, step), conditions);
      case FlushUnreported(conditions) => FlushKeepsSkips(db0, sys, Next(sys, step), conditions);
      case ChangeRows(sessions) => LoggedKeepsSkips(sys.log, [Rows(sessions)]);
      case Recover(s, now) => LoggedKeepsSkips(sys.log, [Recovery(s, now)]);
      case TakeOver(_, _, _) => TakeOverKeepsRest(sys, step);
      case _ =>
    }
  }

  // ---------------------------------------------------------------- every run

  lemma InitialInv(db: Db, worker: Id)
    ensures Inv(Fresh(db), Initial(db, worker))
  {
  }

  lemma StepKeepsInv(db0: Db, sys: System, step: Step)
    requires Inv(db0, sys) && db0.ledger == {}
    ensures Inv(db0, Next(sys, step))
  {
    hide Next, SessionInv, Genuine, Faithful, SameContent, SkipsRepeat;
    forall s
      ensures SessionInv(Next(sys, step), s) && Genuine(Next(sys, step), s)
    {
      assert SessionInv(sys, s) && Genuine(sys, s);
      StepKeepsSession(sys, step, s);
      StepKeepsGenuine(sys, step, s);
    }
    StepKeepsHistory(db0, sys, step);
    StepKeepsSkips(db0, sys, step);
  }

  lemma {:induction false} RunKeepsInv(db: Db, worker: Id, steps: seq<Step>)
    ensures Inv(Fresh(db), Run(Initial(db, worker), steps))
  {
    hide Next, Inv;
    if steps == [] {
      InitialInv(db, worker);
    } else {
      RunKeepsInv(db, worker, steps[..|steps| - 1]);
      StepKeepsInv(Fresh(db), Run(Initial(db, worker), steps[..|steps| - 1]), steps[|steps| - 1]);
    }
  }
}
