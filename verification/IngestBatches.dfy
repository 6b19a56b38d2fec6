/**
 Batches: splitting a batch, stalls and cumulative acks.

 A batch that stalls nothing is the same as its envelopes ingested one at a time; a stall leaves
 no trace of the envelopes it holds back; and the cumulative ack covers exactly what was settled.
 */
module IngestBatches {
  import opened Common
  import opened IngestStore
  import opened IngestLaws

  // ---------------------------------------------------------------- envelopes never see the cursors

  function Moved(t: Try, c: map<Id, nat>): Try {
    match t
    case Kept(db, lists) => Kept(db.(cursors := c), lists)
    case Undone(_, _) => t
  }

  lemma ValidateIgnoresCursors(db: Db, e: Envelope, worker: Id, c: map<Id, nat>)
    ensures Validate(db.(cursors := c), e, worker) == Validate(db, e, worker)
  {
    assert TurnsOf(db.(cursors := c), e.session) == TurnsOf(db, e.session);
    assert RunningOf(db.(cursors := c), e.session) == RunningOf(db, e.session);
  }

  lemma TurnIgnoresCursors(db: Db, a: Attempt, t: Id, mark: TurnMark, c: map<Id, nat>)
    ensures ApplyTurn(db.(cursors := c), a, t, mark) == Moved(ApplyTurn(db, a, t, mark), c)
  {
    assert TurnsOf(db.(cursors := c), a.envelope.session) == TurnsOf(db, a.envelope.session);
  }

  lemma ItemIgnoresCursors(db: Db, a: Attempt, c: map<Id, nat>)
    requires a.envelope.session in db.sessions
    ensures a.envelope.payload.ItemAdded? ==> ApplyItemAdded(db.(cursors := c), a) == Moved(ApplyItemAdded(db, a), c)
    ensures a.envelope.payload.ItemDone? ==> ApplyItemDone(db.(cursors := c), a) == Moved(ApplyItemDone(db, a), c)
  {
  }

  lemma WorkIgnoresCursors(db: Db, a: Attempt, c: map<Id, nat>)
    ensures a.envelope.payload.Usage? ==> ApplyTurnUsage(db.(cursors := c), a) == Moved(ApplyTurnUsage(db, a), c)
    ensures ApplyArtifact(db.(cursors := c), a) == Moved(ApplyArtifact(db, a), c)
  {
  }

  lemma EventIgnoresCursors(db: Db, s: Id, event: Event, c: map<Id, nat>)
    ensures var (stored, wake) := AppendEvent(db, s, event);
      AppendEvent(db.(cursors := c), s, event) == (stored.(cursors := c), wake)
  {
  }

  lemma SandboxIgnoresCursors(db: Db, a: Attempt, c: map<Id, nat>)
    requires a.envelope.session in db.sessions && a.envelope.payload.SandboxReport?
    ensures ApplySandbox(db.(cursors := c), a) == Moved(ApplySandbox(db, a), c)
  {
    hide SandboxStatus.Transition;
  }

  lemma ApplyIgnoresCursors(db: Db, a: Attempt, c: map<Id, nat>)
    requires a.envelope.session in db.sessions
    ensures Apply(db.(cursors := c), a) == Moved(Apply(db, a), c)
  {
    hide ApplySandbox, ApplyTurn, ApplyItemAdded, ApplyItemDone, ApplyTurnUsage, ApplyArtifact, AppendEvent, ErrorEvent;
    var s := a.envelope.session;
    WorkIgnoresCursors(db, a, c);
    match a.envelope.payload
    case SandboxReport(_, _, _) => SandboxIgnoresCursors(db, a, c);
    case TurnStatus(t, mark) => TurnIgnoresCursors(db, a, t, mark, c);
    case ItemAdded(_, _, _, _) => ItemIgnoresCursors(db, a, c);
    case ItemDone(_, _, _) => ItemIgnoresCursors(db, a, c);
    case EventReport(kind, _, _, _, data) => EventIgnoresCursors(db, s, Event(kind, data), c);
    case ErrorReport(_, message, code) => EventIgnoresCursors(db, s, ErrorEvent(message, code), c);
    case _ =>
  }

  lemma GuardedIgnoresCursors(db: Db, a: Attempt, extra: Lists, c: map<Id, nat>)
    requires a.envelope.session in db.sessions
    ensures Guarded(db.(cursors := c), a, extra) == Moved(Guarded(db, a, extra), c)
  {
    hide Apply;
    ApplyIgnoresCursors(db, a, c);
  }

  lemma DeliverIgnoresCursors(db: Db, a: Attempt, worker: Id, c: map<Id, nat>)
    requires a.envelope.session in db.sessions
    ensures Deliver(db.(cursors := c), a, worker) == Moved(Deliver(db, a, worker), c)
  {
    hide Validate, Guarded;
    var claimed := db.(ledger := db.ledger + {KeyOf(a)});
    assert db.(cursors := c).(ledger := db.ledger + {KeyOf(a)}) == claimed.(cursors := c);
    ValidateIgnoresCursors(claimed, a.envelope, worker, c);
    GuardedIgnoresCursors(claimed, a, Receipts(a.envelope), c);
  }

  lemma RedeliverIgnoresCursors(db: Db, a: Attempt, c: map<Id, nat>)
    requires a.envelope.session in db.sessions
    ensures Redeliver(db.(cursors := c), a) == Moved(Redeliver(db, a), c)
  {
    hide Guarded;
    GuardedIgnoresCursors(db, a, NOTHING, c);
  }

  lemma UndoneIgnoresCursors(db: Db, cause: Cause, lists: Lists, c: map<Id, nat>)
    ensures var v := OnUndone(db, cause, lists);
      OnUndone(db.(cursors := c), cause, lists) == v.(db := v.db.(cursors := c))
  {
  }

  lemma JudgeIgnoresCursors(db: Db, a: Attempt, worker: Id, c: map<Id, nat>)
    ensures var v := Judge(db, a, worker);
      Judge(db.(cursors := c), a, worker) == v.(db := v.db.(cursors := c))
  {
    hide Deliver, Redeliver, OnUndone;
    if a.envelope.session in db.sessions {
      DeliverIgnoresCursors(db, a, worker, c);
      RedeliverIgnoresCursors(db, a, c);
      var first, again := Deliver(db, a, worker), Redeliver(db, a);
      if first.Undone? { UndoneIgnoresCursors(db, first.cause, first.lists, c); }
      if again.Undone? { UndoneIgnoresCursors(db, again.cause, again.lists, c); }
    }
  }

  lemma BookIgnoresCursors(b: Batch, a: Attempt, v: Verdict, c: map<Id, nat>)
    ensures var r := Book(b, a, v);
      Book(b.(db := b.db.(cursors := c)), a, v.(db := v.db.(cursors := c))) == r.(db := r.db.(cursors := c))
  {
    hide Raised, Append;
    match v.fate
    case Stalled =>
    case Rejected(_) =>
    case _ =>
  }

  lemma SettleIgnoresCursors(b: Batch, a: Attempt, worker: Id, c: map<Id, nat>)
    ensures var r := Settle(b, a, worker);
      Settle(b.(db := b.db.(cursors := c)), a, worker) == r.(db := r.db.(cursors := c))
  {
    hide Judge, Book;
    JudgeIgnoresCursors(b.db, a, worker, c);
    BookIgnoresCursors(b, a, Judge(b.db, a, worker), c);
  }

  lemma {:induction false} SettleAllIgnoresCursors(b: Batch, queue: seq<Attempt>, worker: Id, c: map<Id, nat>)
    ensures var r := SettleAll(b, queue, worker);
      SettleAll(b.(db := b.db.(cursors := c)), queue, worker) == r.(db := r.db.(cursors := c))
  {
    hide Settle;
    if queue != [] {
      var front, last := queue[..|queue| - 1], queue[|queue| - 1];
      SettleAllIgnoresCursors(b, front, worker, c);
      SettleIgnoresCursors(SettleAll(b, front, worker), last, worker, c);
    }
  }

  // ---------------------------------------------------------------- splitting a batch

  function AckOf(acks: map<Id, nat>, s: Id): nat {
    if s in acks then acks[s] else 0
  }

  function MergeAcks(a: map<Id, nat>, b: map<Id, nat>): map<Id, nat> {
    map s | s in a.Keys + b.Keys :: Max(AckOf(a, s), AckOf(b, s))
  }

  /** The outcome of one batch followed by the outcome of a later one. */
  function Then(b: Batch, later: Batch): Batch {
    Batch(later.db, b.stalled + later.stalled, MergeAcks(b.acks, later.acks),
          Append(b.lists, later.lists), b.rejected + later.rejected, b.retry + later.retry)
  }

  lemma RaisedMerges(a: map<Id, nat>, b: map<Id, nat>, s: Id, n: nat)
    ensures Raised(MergeAcks(a, b), s, n) == MergeAcks(a, Raised(b, s, n))
  {
  }

  lemma BookAfter(b: Batch, m: Batch, a: Attempt, v: Verdict)
    ensures Book(Then(b, m), a, v) == Then(b, Book(m, a, v))
  {
    RaisedMerges(b.acks, m.acks, a.envelope.session, a.envelope.seqno);
    assert b.lists.wakes + m.lists.wakes + v.lists.wakes == b.lists.wakes + (m.lists.wakes + v.lists.wakes);
    assert b.lists.replies + m.lists.replies + v.lists.replies == b.lists.replies + (m.lists.replies + v.lists.replies);
    assert b.lists.intents + m.lists.intents + v.lists.intents == b.lists.intents + (m.lists.intents + v.lists.intents);
    assert b.lists.wipes + m.lists.wipes + v.lists.wipes == b.lists.wipes + (m.lists.wipes + v.lists.wipes);
    assert b.lists.stopped + m.lists.stopped + v.lists.stopped == b.lists.stopped + (m.lists.stopped + v.lists.stopped);
    assert b.retry + m.retry + [a] == b.retry + (m.retry + [a]);
    if v.fate.Rejected? {
      var r := Refusal(a.envelope.session, a.envelope.seqno, v.fate.reason);
      assert b.rejected + m.rejected + [r] == b.rejected + (m.rejected + [r]);
    }
  }

  lemma ThenNothing(b: Batch)
    ensures Then(b, Opening(b.db)) == b
  {
    assert MergeAcks(b.acks, map[]) == b.acks;
    assert Append(b.lists, NOTHING) == b.lists;
    assert b.rejected + [] == b.rejected && b.retry + [] == b.retry;
  }

  lemma {:induction false} SettleAllAfter(b: Batch, queue: seq<Attempt>, worker: Id)
    requires b.stalled == {}
    ensures SettleAll(b, queue, worker) == Then(b, SettleAll(Opening(b.db), queue, worker))
  {
    hide Judge;
    if queue == [] {
      ThenNothing(b);
    } else {
      var front, last := queue[..|queue| - 1], queue[|queue| - 1];
      SettleAllAfter(b, front, worker);
      var m := SettleAll(Opening(b.db), front, worker);
      BookAfter(b, m, last, Judge(m.db, last, worker));
      assert b.retry + m.retry + [last] == b.retry + (m.retry + [last]);
    }
  }

  lemma {:induction false} SettleAllJoins(b: Batch, xs: seq<Attempt>, ys: seq<Attempt>, worker: Id)
    ensures SettleAll(b, xs + ys, worker) == SettleAll(SettleAll(b, xs, worker), ys, worker)
  {
    hide Settle;
    if ys == [] {
      assert xs + ys == xs;
    } else {
      SettleAllJoins(b, xs, ys[..|ys| - 1], worker);
      assert (xs + ys)[..|xs + ys| - 1] == xs + ys[..|ys| - 1];
    }
  }

  lemma {:induction false} LeasesStay(b: Batch, queue: seq<Attempt>, worker: Id)
    ensures SameLeases(b.db, SettleAll(b, queue, worker).db)
    ensures SettleAll(b, queue, worker).db.cursors == b.db.cursors
  {
    hide Judge;
    if queue != [] {
      LeasesStay(b, queue[..|queue| - 1], worker);
      OnlyAClaimWrites(SettleAll(b, queue[..|queue| - 1], worker).db, queue[|queue| - 1], worker);
    }
  }

  predicate Moves(db: Db, acks: map<Id, nat>, worker: Id, s: Id) {
    s in acks && LeasedTo(db, s, worker) && acks[s] > Cursor(db, s)
  }

  lemma CursorAfter(db: Db, acks: map<Id, nat>, worker: Id, s: Id)
    ensures var c := MoveCursors(db, acks, worker).cursors;
      && (s in c <==> s in db.cursors || Moves(db, acks, worker, s))
      && (s in c ==> c[s] == if Moves(db, acks, worker, s) then acks[s] else db.cursors[s])
  {
  }

  lemma CursorsComposeAt(db1: Db, db2: Db, a1: map<Id, nat>, a2: map<Id, nat>, worker: Id, s: Id)
    requires SameLeases(db1, db2) && db2.cursors == db1.cursors
    ensures var c := MoveCursors(db1, a1, worker).cursors;
      var l := MoveCursors(db2.(cursors := c), a2, worker).cursors;
      var r := MoveCursors(db2, MergeAcks(a1, a2), worker).cursors;
      (s in l <==> s in r) && (s in l ==> l[s] == r[s])
  {
    hide MoveCursors;
    var c := MoveCursors(db1, a1, worker).cursors;
    CursorAfter(db1, a1, worker, s);
    CursorAfter(db2.(cursors := c), a2, worker, s);
    CursorAfter(db2, MergeAcks(a1, a2), worker, s);
  }

  lemma CursorsCompose(db1: Db, db2: Db, a1: map<Id, nat>, a2: map<Id, nat>, worker: Id)
    requires SameLeases(db1, db2) && db2.cursors == db1.cursors
    ensures var c := MoveCursors(db1, a1, worker).cursors;
      MoveCursors(db2.(cursors := c), a2, worker) == MoveCursors(db2, MergeAcks(a1, a2), worker)
  {
    hide MoveCursors, MergeAcks, SameLeases;
    var c := MoveCursors(db1, a1, worker).cursors;
    var l := MoveCursors(db2.(cursors := c), a2, worker).cursors;
    var r := MoveCursors(db2, MergeAcks(a1, a2), worker).cursors;
    forall s
      ensures s in l <==> s in r
      ensures s in l ==> l[s] == r[s]
    {
      CursorsComposeAt(db1, db2, a1, a2, worker, s);
    }
    assert l == r;
    OnlyCursorsMove(db2.(cursors := c), a2, worker);
    OnlyCursorsMove(db2, MergeAcks(a1, a2), worker);
  }

  lemma OnlyCursorsMove(db: Db, acks: map<Id, nat>, worker: Id)
    ensures MoveCursors(db, acks, worker) == db.(cursors := MoveCursors(db, acks, worker).cursors)
  {
  }

  /** Splitting a batch after a part that stalls nothing changes neither the store nor the outcome. */
  lemma FlushSplits(db: Db, xs: seq<Attempt>, ys: seq<Attempt>, worker: Id)
    requires SettleAll(Opening(db), xs, worker).stalled == {}
    ensures Flush(db, xs + ys, worker) == Then(Flush(db, xs, worker), Flush(Flush(db, xs, worker).db, ys, worker))
  {
    hide Settle, Judge;
    var b1 := SettleAll(Opening(db), xs, worker);
    var b2 := SettleAll(Opening(b1.db), ys, worker);
    var c := MoveCursors(b1.db, b1.acks, worker).cursors;
    SettleAllJoins(Opening(db), xs, ys, worker);
    SettleAllAfter(b1, ys, worker);
    LeasesStay(Opening(db), xs, worker);
    LeasesStay(Opening(b1.db), ys, worker);
    SettleAllIgnoresCursors(Opening(b1.db), ys, worker, c);
    CursorsCompose(b1.db, b2.db, b1.acks, b2.acks, worker);
  }

  predicate FreeOfTransients(queue: seq<Attempt>) {
    forall i :: 0 <= i < |queue| ==> queue[i].fault.NoFault? || !queue[i].fault.transient
  }

  lemma {:induction false} NoTransientNoStall(b: Batch, queue: seq<Attempt>, worker: Id)
    requires FreeOfTransients(queue) && b.stalled == {}
    ensures SettleAll(b, queue, worker).stalled == {} && SettleAll(b, queue, worker).retry == b.retry
  {
    if queue != [] {
      NoTransientNoStall(b, queue[..|queue| - 1], worker);
      StallNeedsTransient(SettleAll(b, queue[..|queue| - 1], worker).db, queue[|queue| - 1], worker);
    }
  }

  lemma StallNeedsTransient(db: Db, a: Attempt, worker: Id)
    ensures Judge(db, a, worker).fate.Stalled? ==> a.fault.Fault? && a.fault.transient
  {
    hide Apply, Validate;
    if a.envelope.session in db.sessions {
      NeverTransient(db, a);
      NeverTransient(db.(ledger := db.ledger + {KeyOf(a)}), a);
    }
  }

  lemma {:induction false} StallsOnlyGrow(b: Batch, queue: seq<Attempt>, n: nat, worker: Id)
    requires n <= |queue|
    ensures SettleAll(b, queue[..n], worker).stalled <= SettleAll(b, queue, worker).stalled
  {
    hide Judge;
    if n == |queue| {
      assert queue[..n] == queue;
    } else {
      StallsOnlyGrow(b, queue[..|queue| - 1], n, worker);
      assert queue[..|queue| - 1][..n] == queue[..n];
    }
  }

  /** Every envelope in a batch of its own. */
  function OneByOne(db: Db, queue: seq<Attempt>, worker: Id): Batch {
    if queue == [] then Opening(db)
    else
      var before := OneByOne(db, queue[..|queue| - 1], worker);
      Then(before, Flush(before.db, [queue[|queue| - 1]], worker))
  }

  /** Batching refines one-at-a-time ingest: the same store, the same outcome. */
  lemma {:induction false} BatchingRefinesOneByOne(db: Db, queue: seq<Attempt>, worker: Id)
    requires SettleAll(Opening(db), queue, worker).stalled == {}
    ensures Flush(db, queue, worker) == OneByOne(db, queue, worker)
  {
    hide Judge, Settle;
    if queue == [] {
      assert MoveCursors(db, map[], worker) == db;
    } else {
      var front, last := queue[..|queue| - 1], queue[|queue| - 1];
      assert queue == front + [last];
      StallsOnlyGrow(Opening(db), queue, |front|, worker);
      BatchingRefinesOneByOne(db, front, worker);
      FlushSplits(db, front, [last], worker);
    }
  }

  // ---------------------------------------------------------------- stalls leave no trace

  /** The envelope goes to the retry list. */
  predicate Held(b: Batch, a: Attempt, worker: Id) {
    a.envelope.session in b.stalled || Judge(b.db, a, worker).fate.Stalled?
  }

  /** The part of a queue that was settled: applied, skipped, rejected or taken as a receipt. */
  function Settled(b: Batch, queue: seq<Attempt>, worker: Id): seq<Attempt> {
    if queue == [] then []
    else
      var front, last := queue[..|queue| - 1], queue[|queue| - 1];
      Settled(b, front, worker) + (if Held(SettleAll(b, front, worker), last, worker) then [] else [last])
  }

  predicate SafeReleases(queue: seq<Attempt>) {
    forall i :: 0 <= i < |queue| ==> queue[i].fault.NoFault? || !queue[i].fault.place.AtRelease?
  }

  lemma StalledChangesNothing(db: Db, a: Attempt, worker: Id)
    ensures var v := Judge(db, a, worker);
      v.fate.Stalled? ==> v.db == db && v.lists.wakes == []
                          && (a.fault.NoFault? || !a.fault.place.AtRelease? ==> v.lists == NOTHING)
  {
    hide Apply, Validate;
    if a.envelope.session in db.sessions {
      NeverTransient(db, a);
      NeverTransient(db.(ledger := db.ledger + {KeyOf(a)}), a);
    }
  }

  /** Batch `c` saw only what batch `b` settled. */
  predicate SameButHeld(b: Batch, c: Batch) {
    && c.db == b.db && c.acks == b.acks && c.rejected == b.rejected && c.lists.wakes == b.lists.wakes
    && c.stalled == {} && c.retry == []
  }

  lemma SettleHeld(b: Batch, c: Batch, a: Attempt, worker: Id)
    requires SameButHeld(b, c)
    ensures Held(b, a, worker) ==> SameButHeld(Settle(b, a, worker), c)
    ensures !Held(b, a, worker) ==> SameButHeld(Settle(b, a, worker), Settle(c, a, worker))
    ensures (a.fault.NoFault? || !a.fault.place.AtRelease?) && c.lists == b.lists ==>
              (if Held(b, a, worker) then c else Settle(c, a, worker)).lists == Settle(b, a, worker).lists
  {
    hide Judge;
    StalledChangesNothing(b.db, a, worker);
    assert Append(b.lists, NOTHING) == b.lists;
  }

  /** What a batch settles it settles as if the held envelopes had never come. */
  lemma {:induction false} StallsLeaveNoTrace(db: Db, queue: seq<Attempt>, worker: Id)
    ensures var b, kept := SettleAll(Opening(db), queue, worker), Settled(Opening(db), queue, worker);
      var c := SettleAll(Opening(db), kept, worker);
      SameButHeld(b, c) && (SafeReleases(queue) ==> c.lists == b.lists)
  {
    hide Settle, Held;
    if queue != [] {
      var front, last := queue[..|queue| - 1], queue[|queue| - 1];
      StallsLeaveNoTrace(db, front, worker);
      var kept := Settled(Opening(db), front, worker);
      assert (kept + [last])[..|kept + [last]| - 1] == kept;
      SettleHeld(SettleAll(Opening(db), front, worker), SettleAll(Opening(db), kept, worker), last, worker);
      assert kept + [] == kept;
    }
  }

  /** Any batch leaves the store, acks, rejections and wakes of its settled envelopes ingested one at a time. */
  lemma FlushIsOneByOne(db: Db, queue: seq<Attempt>, worker: Id)
    ensures var b, c := Flush(db, queue, worker), OneByOne(db, Settled(Opening(db), queue, worker), worker);
      b.db == c.db && b.acks == c.acks && b.rejected == c.rejected && b.lists.wakes == c.lists.wakes
  {
    StallsLeaveNoTrace(db, queue, worker);
    BatchingRefinesOneByOne(db, Settled(Opening(db), queue, worker), worker);
  }

  // ---------------------------------------------------------------- the cumulative ack

  /** The envelopes of one session. */
  function Of(queue: seq<Attempt>, s: Id): seq<Attempt> {
    if queue == [] then []
    else
      Of(queue[..|queue| - 1], s)
      + (if queue[|queue| - 1].envelope.session == s then [queue[|queue| - 1]] else [])
  }

  predicate Ascending(queue: seq<Attempt>) {
    forall i, j :: 0 <= i < j < |queue| ==> queue[i].envelope.seqno < queue[j].envelope.seqno
  }

  /** Of the envelopes `queue` of one session, `kept` were settled, and batch `b` booked it so. */
  predicate SettledPrefix(b: Batch, queue: seq<Attempt>, kept: seq<Attempt>, s: Id) {
    && queue == kept + Of(b.retry, s)
    && (s !in b.stalled ==> Of(b.retry, s) == [])
    && (s in b.acks <==> kept != [])
    && (kept != [] ==> b.acks[s] == kept[|kept| - 1].envelope.seqno)
  }

  lemma OfGrows(queue: seq<Attempt>, a: Attempt, s: Id)
    ensures Of(queue + [a], s) == Of(queue, s) + (if a.envelope.session == s then [a] else [])
  {
    assert (queue + [a])[..|queue + [a]| - 1] == queue;
  }

  /** Held envelopes join `retry` and stall their session; all others only raise the ack. */
  lemma SettleBooks(b: Batch, a: Attempt, worker: Id)
    ensures var r, s := Settle(b, a, worker), a.envelope.session;
      if Held(b, a, worker) then r.retry == b.retry + [a] && r.acks == b.acks && r.stalled == b.stalled + {s}
      else
        && r.retry == b.retry && r.acks == Raised(b.acks, s, a.envelope.seqno)
        && r.stalled == b.stalled && s !in b.stalled
  {
    hide Judge;
  }

  lemma LastIsBelow(queue: seq<Attempt>, a: Attempt)
    requires Ascending(queue + [a]) && queue != []
    ensures queue[|queue| - 1].envelope.seqno < a.envelope.seqno
  {
    var all := queue + [a];
    assert all[|queue| - 1] == queue[|queue| - 1] && all[|queue|] == a;
  }

  lemma RaisedTo(acks: map<Id, nat>, z: Id, n: nat, s: Id)
    ensures s in Raised(acks, z, n) <==> s == z || s in acks
    ensures s != z && s in acks ==> Raised(acks, z, n)[s] == acks[s]
    ensures s == z && (s in acks ==> acks[s] < n) ==> Raised(acks, z, n)[s] == n
  {
  }

  lemma PrefixElsewhere(b: Batch, r: Batch, a: Attempt, queue: seq<Attempt>, kept: seq<Attempt>, s: Id)
    requires SettledPrefix(b, queue, kept, s) && a.envelope.session != s
    requires r.retry == b.retry || r.retry == b.retry + [a]
    requires r.acks == b.acks || r.acks == Raised(b.acks, a.envelope.session, a.envelope.seqno)
    requires s in r.stalled <==> s in b.stalled
    ensures SettledPrefix(r, queue, kept, s)
  {
    hide Of, Raised;
    OfGrows(b.retry, a, s);
    assert Of(b.retry, s) + [] == Of(b.retry, s);
    RaisedTo(b.acks, a.envelope.session, a.envelope.seqno, s);
  }

  lemma PrefixHeld(b: Batch, r: Batch, a: Attempt, queue: seq<Attempt>, kept: seq<Attempt>, s: Id)
    requires SettledPrefix(b, queue, kept, s) && a.envelope.session == s
    requires r.retry == b.retry + [a] && r.acks == b.acks && s in r.stalled
    ensures SettledPrefix(r, queue + [a], kept, s)
  {
    hide Of;
    OfGrows(b.retry, a, s);
    assert kept + Of(b.retry, s) + [a] == kept + (Of(b.retry, s) + [a]);
  }

  lemma PrefixSettled(b: Batch, r: Batch, a: Attempt, queue: seq<Attempt>, kept: seq<Attempt>, s: Id)
    requires SettledPrefix(b, queue, kept, s) && a.envelope.session == s && Ascending(queue + [a])
    requires r.retry == b.retry && s !in b.stalled && r.acks == Raised(b.acks, s, a.envelope.seqno)
    ensures SettledPrefix(r, queue + [a], kept + [a], s)
  {
    hide Of, Raised, Ascending;
    assert kept + [] == kept == queue;
    assert (kept + [a]) + [] == kept + [a];
    if kept != [] {
      LastIsBelow(queue, a);
    }
    RaisedTo(b.acks, s, a.envelope.seqno, s);
  }

  lemma SettlePrefixStep(b: Batch, a: Attempt, queue: seq<Attempt>, kept: seq<Attempt>, worker: Id, s: Id)
    requires SettledPrefix(b, queue, kept, s)
    requires a.envelope.session == s ==> Ascending(queue + [a])
    ensures a.envelope.session != s ==> SettledPrefix(Settle(b, a, worker), queue, kept, s)
    ensures a.envelope.session == s ==>
              SettledPrefix(Settle(b, a, worker), queue + [a], if Held(b, a, worker) then kept else kept + [a], s)
  {
    hide *;
    var r := Settle(b, a, worker);
    SettleBooks(b, a, worker);
    if a.envelope.session != s {
      PrefixElsewhere(b, r, a, queue, kept, s);
    } else if Held(b, a, worker) {
      PrefixHeld(b, r, a, queue, kept, s);
    } else {
      PrefixSettled(b, r, a, queue, kept, s);
    }
  }

  /** Within each session a batch settles a prefix and holds back the rest; it acks the end of the prefix. */
  lemma {:induction false} SettlesAPrefix(db: Db, queue: seq<Attempt>, worker: Id, s: Id)
    requires Ascending(Of(queue, s))
    ensures SettledPrefix(SettleAll(Opening(db), queue, worker), Of(queue, s),
                          Of(Settled(Opening(db), queue, worker), s), s)
  {
    hide Settle, Held, Of, Ascending, SettledPrefix;
    if queue == [] {
      NothingSettled(db, worker, s);
    } else {
      var front, last := queue[..|queue| - 1], queue[|queue| - 1];
      var done, before := Settled(Opening(db), front, worker), SettleAll(Opening(db), front, worker);
      assert queue == front + [last];
      OfGrows(front, last, s);
      OfGrows(done, last, s);
      Associates(done, [], []);
      Associates(Of(front, s), [], []);
      Associates(Of(done, s), [], []);
      FrontAscends(Of(front, s), if last.envelope.session == s then [last] else []);
      SettlesAPrefix(db, front, worker, s);
      SettlePrefixStep(before, last, Of(front, s), Of(done, s), worker, s);
    }
  }

  lemma NothingSettled(db: Db, worker: Id, s: Id)
    ensures SettledPrefix(SettleAll(Opening(db), [], worker), Of([], s), Of(Settled(Opening(db), [], worker), s), s)
  {
  }

  lemma FrontAscends(xs: seq<Attempt>, ys: seq<Attempt>)
    requires Ascending(xs + ys)
    ensures Ascending(xs)
  {
    forall i, j | 0 <= i < j < |xs|
      ensures xs[i].envelope.seqno < xs[j].envelope.seqno
    {
      assert (xs + ys)[i] == xs[i] && (xs + ys)[j] == xs[j];
    }
  }

  /** The last of the settled tells them from the held. */
  lemma AckSplits(all: seq<Attempt>, kept: seq<Attempt>, held: seq<Attempt>)
    requires Ascending(all) && all == kept + held && kept != []
    ensures forall i :: 0 <= i < |all| ==>
      (all[i].envelope.seqno <= kept[|kept| - 1].envelope.seqno <==> i < |kept|)
  {
    assert all[|kept| - 1] == kept[|kept| - 1];
  }

  /**
   The ack of a batch covers exactly what the batch settled: it stays below every envelope put in
   `retry`, and the cursor of a leased session rises to it and never falls.
   */
  lemma AckCoversTheSettled(db: Db, queue: seq<Attempt>, worker: Id, s: Id)
    requires Ascending(Of(queue, s))
    ensures var b, kept := Flush(db, queue, worker), Of(Settled(Opening(db), queue, worker), s);
      && Of(queue, s) == kept + Of(b.retry, s)
      && (s in b.acks <==> kept != [])
      && (s in b.acks ==> forall i :: 0 <= i < |Of(queue, s)| ==>
            (Of(queue, s)[i].envelope.seqno <= b.acks[s] <==> i < |kept|))
      && Cursor(b.db, s)
         == (if LeasedTo(db, s, worker) && s in b.acks then Max(Cursor(db, s), b.acks[s]) else Cursor(db, s))
  {
    hide SettleAll, Settled, Of, Ascending, MoveCursors, LeasedTo;
    SettlesAPrefix(db, queue, worker, s);
    var b := SettleAll(Opening(db), queue, worker);
    var kept := Of(Settled(Opening(db), queue, worker), s);
    if kept != [] {
      AckSplits(Of(queue, s), kept, Of(b.retry, s));
    }
    FlushedCursor(db, queue, worker, s);
  }

  lemma FlushedCursor(db: Db, queue: seq<Attempt>, worker: Id, s: Id)
    ensures var b := Flush(db, queue, worker);
      Cursor(b.db, s)
      == (if LeasedTo(db, s, worker) && s in b.acks then Max(Cursor(db, s), b.acks[s]) else Cursor(db, s))
  {
    hide SettleAll;
    var b := SettleAll(Opening(db), queue, worker);
    LeasesStay(Opening(db), queue, worker);
    CursorAfter(b.db, b.acks, worker, s);
  }
}
