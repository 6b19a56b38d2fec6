/**
 Lifecycle exports of a batch. They are handed out after the commit so that a replay exports nothing
 twice; this file says exactly when that works.
 */
module IngestExports {
  import opened Common
  import opened IngestStore
  import opened IngestLaws
  import opened IngestBatches
  import opened Delivery

  predicate IsLifecycle(a: Attempt) {
    a.envelope.payload.LifecycleStart? || a.envelope.payload.LifecycleStop?
  }

  /** The export a lifecycle envelope asks for. */
  function IntentOf(e: Envelope): seq<Intent> {
    match e.payload
    case LifecycleStart(cause) => [StartIntent(e.session, e.seqno, cause)]
    case LifecycleStop(reason, liveMs) => [StopIntent(e.session, e.seqno, reason, liveMs)]
    case _ => []
  }

  /** The exports of the envelopes that were applied. */
  function Exports(log: seq<Entry>): seq<Intent> {
    if log == [] then []
    else
      var last := log[|log| - 1];
      Exports(log[..|log| - 1]) + (if last.Took? && last.fate.Applied? then IntentOf(last.attempt.envelope) else [])
  }

  /** A new lifecycle envelope of a leased session, not oversized, whose savepoint fails when it is released. */
  predicate ReleaseFails(db: Db, a: Attempt, worker: Id) {
    && IsLifecycle(a) && a.fault.Fault? && a.fault.place.AtRelease?
    && LeasedTo(db, a.envelope.session, worker) && a.envelope.size <= MAX_MESSAGE_BYTES && KeyOf(a) !in db.ledger
  }

  function Leaks(b: Batch, queue: seq<Attempt>, worker: Id): nat {
    if queue == [] then 0
    else
      var front, last := queue[..|queue| - 1], queue[|queue| - 1];
      var before := SettleAll(b, front, worker);
      Leaks(b, front, worker)
      + (if last.envelope.session !in before.stalled && ReleaseFails(before.db, last, worker) then 1 else 0)
  }

  lemma ApplyIntents(db: Db, a: Attempt)
    requires a.envelope.session in db.sessions
    ensures Apply(db, a).lists.intents == (if Apply(db, a).Kept? then IntentOf(a.envelope) else [])
    ensures IsLifecycle(a) ==> Apply(db, a) == Kept(db, NOTHING.(intents := IntentOf(a.envelope)))
  {
    hide TurnStamp;
    match a.envelope.payload
    case SandboxReport(_, _, _) => assert ApplySandbox(db, a).lists.intents == [];
    case TurnStatus(t, mark) => assert ApplyTurn(db, a, t, mark).lists.intents == [];
    case _ =>
  }

  /** An envelope hands out an export if it is applied, or if its release fails after it was. */
  lemma JudgeIntents(db: Db, a: Attempt, worker: Id)
    ensures var v := Judge(db, a, worker);
      v.lists.intents == if v.fate.Applied? || ReleaseFails(db, a, worker) then IntentOf(a.envelope) else []
    ensures ReleaseFails(db, a, worker) ==> !Judge(db, a, worker).fate.Applied? && IntentOf(a.envelope) != []
  {
    hide Apply, Validate;
    if a.envelope.session in db.sessions {
      ApplyIntents(db, a);
      ApplyIntents(db.(ledger := db.ledger + {KeyOf(a)}), a);
      if IsLifecycle(a) && LeasedTo(db, a.envelope.session, worker) && a.envelope.size <= MAX_MESSAGE_BYTES {
        LifecycleIsValid(db.(ledger := db.ledger + {KeyOf(a)}), a.envelope, worker);
      }
    }
  }

  lemma LifecycleIsValid(db: Db, e: Envelope, worker: Id)
    requires e.payload.LifecycleStart? || e.payload.LifecycleStop?
    requires LeasedTo(db, e.session, worker) && e.size <= MAX_MESSAGE_BYTES
    ensures Validate(db, e, worker).None?
  {
  }

  lemma {:induction false} ExportsJoin(xs: seq<Entry>, e: Entry)
    ensures Exports(xs + [e]) == Exports(xs) + (if e.Took? && e.fate.Applied? then IntentOf(e.attempt.envelope) else [])
  {
    assert (xs + [e])[..|xs + [e]| - 1] == xs;
  }

  lemma SettleExports(b: Batch, a: Attempt, worker: Id)
    requires a.envelope.session !in b.stalled
    ensures Settle(b, a, worker).lists.intents == b.lists.intents + Judge(b.db, a, worker).lists.intents
    ensures Held(b, a, worker) ==> !Judge(b.db, a, worker).fate.Applied?
  {
    hide Judge;
  }

  /** The exports of a batch are those of its applied envelopes, plus one for every failed release. */
  lemma {:induction false} ExportsCounted(db: Db, queue: seq<Attempt>, worker: Id)
    ensures var b, log := SettleAll(Opening(db), queue, worker), Entries(Opening(db), queue, worker);
      && |b.lists.intents| == |Exports(log)| + Leaks(Opening(db), queue, worker)
      && (Leaks(Opening(db), queue, worker) == 0 ==> b.lists.intents == Exports(log))
  {
    hide Judge, ReleaseFails;
    if queue != [] {
      var front, last := queue[..|queue| - 1], queue[|queue| - 1];
      ExportsCounted(db, front, worker);
      var before, log := SettleAll(Opening(db), front, worker), Entries(Opening(db), front, worker);
      if last.envelope.session !in before.stalled {
        JudgeIntents(before.db, last, worker);
        OneIntent(last.envelope);
        SettleExports(before, last, worker);
        ExportsJoin(log, Took(last, worker, Judge(before.db, last, worker).fate));
      }
      assert log + [] == log;
    }
  }

  lemma OneIntent(e: Envelope)
    ensures |IntentOf(e)| <= 1
  {
  }

  /**
   A batch exports exactly the lifecycle envelopes it applied if and only if none of its lifecycle envelopes
   meets a failing release: only the wakes are trimmed when a savepoint is undone.
   */
  lemma ExportsExactIffReleasesHold(db: Db, queue: seq<Attempt>, worker: Id)
    ensures Flush(db, queue, worker).lists.intents == Exports(Entries(Opening(db), queue, worker))
      <==> Leaks(Opening(db), queue, worker) == 0
  {
    hide SettleAll, Leaks, Entries;
    ExportsCounted(db, queue, worker);
  }

  lemma StartVerdicts(db: Db, worker: Id, a: Attempt)
    requires a.envelope.payload.LifecycleStart? && a.envelope.size <= MAX_MESSAGE_BYTES
    requires LeasedTo(db, a.envelope.session, worker) && KeyOf(a) !in db.ledger
    requires a.fault == NoFault || a.fault == Fault(AtRelease, true)
    ensures var v := Judge(db, a, worker);
      && v.lists == NOTHING.(intents := IntentOf(a.envelope))
      && (if a.fault.NoFault? then v.fate == Applied else v.fate == Stalled && v.db == db)
  {
    hide Apply;
    ApplyIntents(db.(ledger := db.ledger + {KeyOf(a)}), a);
  }

  lemma FlushOne(db: Db, a: Attempt, worker: Id)
    ensures Flush(db, [a], worker).lists == Append(NOTHING, Judge(db, a, worker).lists)
    ensures Judge(db, a, worker).fate.Stalled? ==> Flush(db, [a], worker).db == Judge(db, a, worker).db
  {
    hide Judge;
    assert [a][..0] == [];
    assert SettleAll(Opening(db), [a], worker) == Settle(Opening(db), a, worker);
    var v := Judge(db, a, worker);
    assert MoveCursors(v.db, map[], worker) == v.db;
  }

  /** One failed release, then the retry: the same start is exported twice, and applied once. */
  lemma FailedReleaseExportsTwice(db: Db, worker: Id, s: Id, cause: string, now: Time)
    requires LeasedTo(db, s, worker) && (s, 1) !in db.ledger
    ensures var e := Envelope(s, None, 1, LifecycleStart(cause), 100);
      var first := Flush(db, [Attempt(e, now, Fault(AtRelease, true), Stored)], worker);
      var again := Flush(first.db, [Attempt(e, now, NoFault, Stored)], worker);
      && first.db == db
      && first.lists.intents + again.lists.intents == [StartIntent(s, 1, cause), StartIntent(s, 1, cause)]
  {
    hide Judge, Flush;
    var e := Envelope(s, None, 1, LifecycleStart(cause), 100);
    var a, r := Attempt(e, now, Fault(AtRelease, true), Stored), Attempt(e, now, NoFault, Stored);
    StartVerdicts(db, worker, a);
    StartVerdicts(db, worker, r);
    FlushOne(db, a, worker);
    FlushOne(db, r, worker);
  }
}
