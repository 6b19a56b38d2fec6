/**
 What every run of the protocol guarantees: nothing is lost, nothing is applied twice, nothing is skipped
 but what was applied, across restarts and takeovers; and the sessions that stay leased to whoever
 settles them see their envelopes exactly once and in order.
 */
module ProtocolGuarantees {
  import opened Common
  import opened IngestStore
  import opened IngestLaws
  import opened IngestBatches
  import opened Delivery
  import opened Protocol

  /** The envelope itself was applied, rejected or taken as a receipt. */
  predicate Delivered(log: seq<Entry>, e: Envelope) {
    exists i :: 0 <= i < |log| && log[i].Took? && log[i].attempt.envelope == e
                && (log[i].fate.Applied? || log[i].fate.Rejected? || log[i].fate.Receipt?)
  }

  lemma DoneIsDelivered(db0: Db, log: seq<Entry>, e: Envelope)
    requires Faithful(db0, log) && SkipsRepeat(log) && Done(log, e)
    ensures Delivered(log, e)
  {
    hide Replay;
    var i :| 0 <= i < |log| && log[i].Took? && log[i].attempt.envelope == e;
    if log[i].fate.Skipped? {
      assert AppliedBefore(log, e, i);
      var k :| 0 <= k < i && log[k].Took? && log[k].fate.Applied? && log[k].attempt.envelope == e;
      assert log[k].fate.Applied?;
    } else {
      assert !log[i].fate.Stalled?;
    }
  }

  /**
   Nothing is lost: the worker drops an envelope, and a stored cursor steps over one, only when that very
   envelope was applied, rejected or taken as a receipt; everything else is still in the outbox.
   */
  lemma NothingIsLost(db: Db, worker: Id, steps: seq<Step>, s: Id, i: nat)
    ensures var sys := Run(Initial(db, worker), steps);
      && Mark(sys.acked, s) <= |Issued(sys, s)| && Cursor(sys.db, s) <= |Issued(sys, s)|
      && (i < Mark(sys.acked, s) || i < Cursor(sys.db, s) ==> Delivered(sys.log, Issued(sys, s)[i]))
  {
    hide Delivered, Faithful, SkipsRepeat, Done, Run;
    RunKeepsInv(db, worker, steps);
    var sys := Run(Initial(db, worker), steps);
    assert SessionInv(sys, s);
    if i < Mark(sys.acked, s) || i < Cursor(sys.db, s) {
      DoneIsDelivered(Fresh(db), sys.log, Issued(sys, s)[i]);
    }
  }

  /**
   The store is at every moment the replay of the settled envelopes, one at a time in the order they
   were settled, and among them no envelope was applied twice.
   */
  lemma StoreIsReplayOfTheLog(db: Db, worker: Id, steps: seq<Step>, key: (Id, nat))
    ensures var sys := Run(Initial(db, worker), steps);
      && SameContent(sys.db, Replay(Fresh(db), sys.log))
      && Faithful(Fresh(db), sys.log)
      && Applications(sys.log, key) <= 1
      && (key in sys.db.ledger <==> Applications(sys.log, key) == 1)
  {
    hide Faithful, Run, Replay, Applications;
    RunKeepsInv(db, worker, steps);
    AppliedAtMostOnce(Fresh(db), Run(Initial(db, worker), steps).log, key);
  }

  /**
   Whoever numbers on after a takeover meets no ledger row: the rows lie at or below the stored cursor,
   each for the envelope that stands there. So an envelope is skipped only if it was itself applied before.
   */
  lemma SkippedOnlyIfApplied(db: Db, worker: Id, steps: seq<Step>, i: nat)
    ensures var sys := Run(Initial(db, worker), steps);
      && (forall key :: key in sys.db.ledger ==> 1 <= key.1 <= Cursor(sys.db, key.0) <= |Issued(sys, key.0)|)
      && (i < |sys.log| && sys.log[i].Took? && sys.log[i].fate.Skipped?
          ==> AppliedBefore(sys.log, sys.log[i].attempt.envelope, i))
  {
    hide Faithful, Run, AppliedBefore, Replay, Applications;
    RunKeepsInv(db, worker, steps);
    var sys := Run(Initial(db, worker), steps);
    forall key | key in sys.db.ledger
      ensures 1 <= key.1 <= Cursor(sys.db, key.0) <= |Issued(sys, key.0)|
    {
      AppliedAtMostOnce(Fresh(db), sys.log, key);
      var k := FindApplication(sys.log, key);
      assert SessionInv(sys, key.0) && Genuine(sys, key.0);
      assert AppliedTo(sys.log[k], key.0);
    }
  }

  // ---------------------------------------------------------------- exactly once, in order

  /**
   Whenever a batch is settled or a `hello` is answered the session is leased to the worker at hand and named
   in the answer, and every commit is reported. Leases may move and workers restart in between.
   */
  predicate Steady(sys: System, step: Step, s: Id) {
    match step
    case Flush(_) => LeasedTo(sys.db, s, sys.worker)
    case FlushUnreported(_) => false
    case Reconnect(hello) => s in hello && LeasedTo(sys.db, s, sys.worker)
    case _ => true
  }

  ghost predicate SteadyRun(sys: System, steps: seq<Step>, s: Id) {
    forall i :: 0 <= i < |steps| ==> Steady(Run(sys, steps[..i]), steps[i], s)
  }

  /** The envelopes of one session in the order they were settled. */
  function LogOf(log: seq<Entry>, s: Id): seq<Envelope> {
    if log == [] then []
    else
      var last := log[|log| - 1];
      LogOf(log[..|log| - 1], s)
      + (if last.Took? && last.attempt.envelope.session == s then [last.attempt.envelope] else [])
  }

  ghost predicate InStep(sys: System, s: Id) {
    && Cursor(sys.db, s) == Base(sys, s) <= |Issued(sys, s)|
    && LogOf(sys.log, s) == Issued(sys, s)[..Base(sys, s)]
  }

  lemma LogOfGrows(log: seq<Entry>, e: Entry, s: Id)
    ensures LogOf(log + [e], s)
         == LogOf(log, s) + (if e.Took? && e.attempt.envelope.session == s then [e.attempt.envelope] else [])
  {
    assert (log + [e])[..|log + [e]| - 1] == log;
  }

  lemma Associates<T>(a: seq<T>, b: seq<T>, c: seq<T>)
    ensures a + (b + c) == a + b + c && a + [] == a
  {
  }

  lemma {:induction false} LogOfBatch(log: seq<Entry>, b: Batch, queue: seq<Attempt>, worker: Id, s: Id)
    ensures LogOf(log + Entries(b, queue, worker), s) == LogOf(log, s) + Envelopes(Of(Settled(b, queue, worker), s))
  {
    hide SettleAll, Held, Judge, LogOf, Envelopes;
    if queue == [] {
      Associates(log, [], []);
      Associates(LogOf(log, s), [], []);
      NoEnvelopes();
    } else {
      var front, last := queue[..|queue| - 1], queue[|queue| - 1];
      LogOfBatch(log, b, front, worker, s);
      var before := SettleAll(b, front, worker);
      var kept, more := Settled(b, front, worker), Entries(b, front, worker);
      if Held(before, last, worker) {
        Associates(kept, [], []);
        Associates(more, [], []);
      } else {
        var e := Took(last, worker, Judge(before.db, last, worker).fate);
        OfGrows(kept, last, s);
        LogOfGrows(log + more, e, s);
        Associates(log, more, [e]);
        EnvelopesGrow(Of(kept, s), last);
        Associates(Of(kept, s), [], []);
        Associates(LogOf(log, s), Envelopes(Of(kept, s)), [last.envelope]);
        Associates(LogOf(log, s) + Envelopes(Of(kept, s)), [], []);
      }
    }
  }

  lemma NoEnvelopes()
    ensures Envelopes([]) == []
  {
  }

  lemma EnvelopesGrow(queue: seq<Attempt>, a: Attempt)
    ensures Envelopes(queue + [a]) == Envelopes(queue) + [a.envelope]
  {
  }

  lemma FlushKeepsInStep(sys: System, conditions: seq<Condition>, s: Id)
    requires SessionInv(sys, s) && InStep(sys, s) && |conditions| <= |sys.lane| && LeasedTo(sys.db, s, sys.worker)
    ensures InStep(Next(sys, Flush(conditions)), s)
  {
    hide IngestStore.Flush, Entries, Settled, SessionInv, Lane, Done, TurnRecovery.FailStale, TakenOver, LogOf;
    var sys', kept := Next(sys, Flush(conditions)), KeptOf(sys, conditions, s);
    var queue, base := Attempts(sys.lane, conditions), Base(sys, s);
    KeptIsPrefix(sys, conditions, s);
    SessionLane(sys, s);
    FlushKeepsSession(sys, conditions, s);
    LogOfBatch(sys.log, Opening(sys.db), queue, sys.worker, s);
    assert Envelopes(kept) == Issued(sys, s)[base..base + |kept|];
    assert Issued(sys, s)[..base] + Issued(sys, s)[base..base + |kept|] == Issued(sys, s)[..base + |kept|];
  }

  lemma SendKeepsInStep(sys: System, z: Id, s: Id)
    requires SessionInv(sys, z) && SessionInv(sys, s) && InStep(sys, s) && Enabled(sys, Send(z))
    ensures InStep(Next(sys, Send(z)), s)
  {
    hide TurnRecovery.FailStale, IngestStore.Flush, Entries, Base, LogOf, TakenOver;
    SendKeepsSession(sys, z, s);
  }

  lemma TakeOverKeepsInStep(sys: System, step: Step, s: Id)
    requires SessionInv(sys, s) && InStep(sys, s) && step.TakeOver? && Enabled(sys, step)
    ensures InStep(Next(sys, step), s)
  {
    hide Next, Lane, Done, LogOf;
    TakeOverStarts(sys, step, s);
    TakeOverKeepsSession(sys, step, s);
    TakeOverKeepsRest(sys, step);
  }

  lemma QuietKeepsInStep(sys: System, step: Step, s: Id)
    requires SessionInv(sys, s) && InStep(sys, s) && Steady(sys, step, s) && Enabled(sys, step)
    requires !step.Send? && !step.Flush? && !step.TakeOver?
    ensures InStep(Next(sys, step), s)
  {
    hide TurnRecovery.FailStale, IngestStore.Flush, Entries, LogOf, DoneUpTo, Protocol.Numbered, Envelopes, TakenOver;
    match step
    case Recover(z, now) =>
      RecoveryKeepsLedger(sys.db, z, now);
      LogOfGrows(sys.log, Recovery(z, now), s);
    case ChangeRows(sessions) => LogOfGrows(sys.log, Rows(sessions), s);
    case Append(_, _, _, _) => assert Issued(Next(sys, step), s)[..Base(sys, s)] == Issued(sys, s)[..Base(sys, s)];
    case _ =>
  }

  lemma StepKeepsInStep(sys: System, step: Step, s: Id)
    requires (forall z :: SessionInv(sys, z)) && InStep(sys, s) && Steady(sys, step, s)
    ensures InStep(Next(sys, step), s)
  {
    hide InStep, SessionInv, Next;
    assert SessionInv(sys, s);
    if Enabled(sys, step) {
      match step
      case Send(z) => SendKeepsInStep(sys, z, s);
      case Flush(conditions) => FlushKeepsInStep(sys, conditions, s);
      case TakeOver(_, _, _) => TakeOverKeepsInStep(sys, step, s);
      case _ => QuietKeepsInStep(sys, step, s);
    } else {
      DisabledDoesNothing(sys, step);
    }
  }

  lemma {:induction false} InStepThroughout(db: Db, worker: Id, steps: seq<Step>, s: Id)
    requires SteadyRun(Initial(db, worker), steps, s)
    ensures InStep(Run(Initial(db, worker), steps), s)
  {
    hide Next, Steady;
    if steps != [] {
      var front := steps[..|steps| - 1];
      forall i | 0 <= i < |front|
        ensures Steady(Run(Initial(db, worker), front[..i]), front[i], s)
      {
        assert front[..i] == steps[..i];
      }
      InStepThroughout(db, worker, front, s);
      RunKeepsInv(db, worker, front);
      StepKeepsInStep(Run(Initial(db, worker), front), steps[|steps| - 1], s);
    }
  }

  /**
   A session that is leased to the worker at hand whenever batches are settled, in a run whose commits are all
   reported: its envelopes are settled exactly once each and in the order they were issued, up to the
   cursor; the rest are, in order, on the wire or still in the outbox. Restarts and takeovers included.
   */
  lemma ExactlyOnceInOrder(db: Db, worker: Id, steps: seq<Step>, s: Id)
    requires SteadyRun(Initial(db, worker), steps, s)
    ensures var sys := Run(Initial(db, worker), steps);
      && Cursor(sys.db, s) <= Mark(sys.sent, s) <= |Issued(sys, s)|
      && LogOf(sys.log, s) == Issued(sys, s)[..Cursor(sys.db, s)]
      && Lane(sys.lane, s) == Issued(sys, s)[Cursor(sys.db, s)..Mark(sys.sent, s)]
  {
    hide Run;
    InStepThroughout(db, worker, steps, s);
    RunKeepsInv(db, worker, steps);
    SessionLane(Run(Initial(db, worker), steps), s);
  }

  // ---------------------------------------------------------------- why the reports are needed

  /**
   Without the reports it fails: a commit taken for a failure is tried again, and the envelope it
   settled is settled a second time (and skipped, its ledger row being there).
   */
  lemma UnreportedCommitSettlesTwice(db: Db, worker: Id, s: Id, payload: Payload, size: nat, c: Condition)
    requires c.fault.NoFault?
    ensures var e, steps := Envelope(s, None, 1, payload, size),
        [Append(s, None, payload, size), Send(s), FlushUnreported([c]), Flush([c])];
      var sys := Run(Initial(db, worker), steps);
      LogOf(sys.log, s) == [e, e] && Issued(sys, s) == [e]
  {
    hide *;
    var e := Envelope(s, None, 1, payload, size);
    var a := Attempt(e, c.now, c.fault, c.artifact);
    var s1, s2, s3, s4 := Append(s, None, payload, size), Send(s), FlushUnreported([c]), Flush([c]);
    var sys2 := Run(Initial(db, worker), [s1, s2]);
    OnTheWire(db, worker, s, payload, size);
    RunGrows(Initial(db, worker), [s1, s2], s3);
    assert [s1, s2] + [s3] == [s1, s2, s3];
    CommitOfOne(sys2, e, c, s3);
    var sys3 := Run(Initial(db, worker), [s1, s2, s3]);
    RunGrows(Initial(db, worker), [s1, s2, s3], s4);
    assert [s1, s2, s3] + [s4] == [s1, s2, s3, s4];
    CommitOfOne(sys3, e, c, s4);
    OneSettled([], sys2.db, a, sys2.worker, s);
    OneSettled(sys3.log, sys3.db, a, sys3.worker, s);
    LogOfNothing(s);
  }

  lemma LogOfNothing(s: Id)
    ensures LogOf([], s) == []
  {
  }

  lemma RunGrows(sys: System, steps: seq<Step>, step: Step)
    ensures Run(sys, steps + [step]) == Next(Run(sys, steps), step)
  {
    hide Next;
    assert (steps + [step])[..|steps|] == steps;
  }

  lemma OnTheWire(db: Db, worker: Id, s: Id, payload: Payload, size: nat)
    ensures var sys := Run(Initial(db, worker), [Append(s, None, payload, size), Send(s)]);
      var e := Envelope(s, None, 1, payload, size);
      sys.lane == [e] && sys.log == [] && Issued(sys, s) == [e]
  {
    var s1, s2 := Append(s, None, payload, size), Send(s);
    var none: seq<Step> := [];
    assert [s1, s2][..1] == [s1] && [s1][..0] == none;
    assert Run(Initial(db, worker), [s1]) == Next(Initial(db, worker), s1);
  }

  /** Both kinds of commit log the batch; the unreported one leaves the lane as it was. */
  lemma CommitOfOne(sys: System, e: Envelope, c: Condition, step: Step)
    requires sys.lane == [e] && (step == FlushUnreported([c]) || step == Flush([c]))
    ensures var next := Next(sys, step);
      && next.log == sys.log + Entries(Opening(sys.db), [Attempt(e, c.now, c.fault, c.artifact)], sys.worker)
      && Issued(next, e.session) == Issued(sys, e.session) && (step.FlushUnreported? ==> next.lane == sys.lane)
  {
    hide IngestStore.Flush, Entries;
    assert Attempts([e], [c]) == [Attempt(e, c.now, c.fault, c.artifact)];
  }

  lemma OneSettled(log: seq<Entry>, db: Db, a: Attempt, worker: Id, s: Id)
    requires a.fault.NoFault? && a.envelope.session == s
    ensures LogOf(log + Entries(Opening(db), [a], worker), s) == LogOf(log, s) + [a.envelope]
  {
    hide Judge, Entries, LogOf;
    LogOfBatch(log, Opening(db), [a], worker, s);
    OneKept(db, a, worker);
    assert Of([a], s) == [a] by {
      assert [a][..0] == [];
    }
    assert Envelopes([a]) == [a.envelope];
  }

  lemma OneKept(db: Db, a: Attempt, worker: Id)
    requires a.fault.NoFault?
    ensures Settled(Opening(db), [a], worker) == [a]
  {
    hide Judge;
    assert [a][..0] == [];
    StallNeedsTransient(db, a, worker);
  }
}
