/**
 The history of the store: envelopes of any workers settled one at a time, row changes and recoveries
 in between. Whatever the batches were, a batch is a piece of such a history.
 */
module Delivery {
  import opened Common
  import opened IngestStore
  import opened IngestLaws
  import opened IngestBatches
  import TurnRecovery

  // ---------------------------------------------------------------- the history of the store

  datatype Entry =
    | Took(attempt: Attempt, worker: Id, fate: Fate)
    | Rows(sessions: map<Id, Session>)
    | Recovery(session: Id, now: Time)

  function After(db: Db, e: Entry): Db {
    match e
    case Took(a, worker, _) => Judge(db, a, worker).db
    case Rows(sessions) => db.(sessions := sessions)
    case Recovery(s, now) => TurnRecovery.FailStale(db, s, now)
  }

  /** The store after a history, one envelope at a time. */
  function Replay(db: Db, log: seq<Entry>): Db {
    if log == [] then db else After(Replay(db, log[..|log| - 1]), log[|log| - 1])
  }

  /** Each recorded fate is the one the envelope met, and none was held back. */
  ghost predicate Faithful(db: Db, log: seq<Entry>) {
    forall i :: 0 <= i < |log| && log[i].Took? ==>
      log[i].fate == Judge(Replay(db, log[..i]), log[i].attempt, log[i].worker).fate && !log[i].fate.Stalled?
  }

  predicate IsApplication(e: Entry, key: (Id, nat)) {
    e.Took? && e.fate.Applied? && KeyOf(e.attempt) == key
  }

  function Applications(log: seq<Entry>, key: (Id, nat)): nat {
    if log == [] then 0
    else Applications(log[..|log| - 1], key) + (if IsApplication(log[|log| - 1], key) then 1 else 0)
  }

  lemma {:induction false} FindApplication(log: seq<Entry>, key: (Id, nat)) returns (i: nat)
    requires Applications(log, key) > 0
    ensures i < |log| && IsApplication(log[i], key)
  {
    i := |log| - 1;
    if !IsApplication(log[i], key) {
      i := FindApplication(log[..i], key);
    }
  }

  lemma RecoveryKeepsLedger(db: Db, s: Id, now: Time)
    ensures TurnRecovery.FailStale(db, s, now).ledger == db.ledger
    ensures TurnRecovery.FailStale(db, s, now).cursors == db.cursors
  {
    hide TurnRecovery.FailStale, Newest;
    TurnRecovery.FailStaleTables(db, s, now);
  }

  lemma {:induction false} FaithfulFront(db: Db, log: seq<Entry>, n: nat)
    requires Faithful(db, log) && n <= |log|
    ensures Faithful(db, log[..n])
  {
    forall i | 0 <= i < n && log[i].Took?
      ensures log[..n][i].fate == Judge(Replay(db, log[..n][..i]), log[..n][i].attempt, log[..n][i].worker).fate
    {
      assert log[..n][..i] == log[..i];
    }
  }

  /** In any history an envelope is applied at most once, and its ledger row tells whether it was. */
  lemma {:induction false} AppliedAtMostOnce(db: Db, log: seq<Entry>, key: (Id, nat))
    requires Faithful(db, log)
    ensures Applications(log, key) <= 1
    ensures key in Replay(db, log).ledger <==> key in db.ledger || Applications(log, key) == 1
    ensures key in db.ledger ==> Applications(log, key) == 0
  {
    hide Judge, TurnRecovery.FailStale;
    if log != [] {
      var front, last := log[..|log| - 1], log[|log| - 1];
      FaithfulFront(db, log, |front|);
      AppliedAtMostOnce(db, front, key);
      var before := Replay(db, front);
      match last {
        case Took(a, worker, _) => OnlyAClaimWrites(before, a, worker);
        case Recovery(s, now) => RecoveryKeepsLedger(before, s, now);
        case Rows(_) =>
      }
    }
  }

  lemma SkippedMeansClaimed(db: Db, a: Attempt, worker: Id)
    ensures Judge(db, a, worker).fate.Skipped? ==> KeyOf(a) in db.ledger
  {
    hide Apply, Validate;
    if a.envelope.session in db.sessions {
      NeverTransient(db.(ledger := db.ledger + {KeyOf(a)}), a);
    }
  }

  /** What is skipped was applied before, under the same key. */
  lemma SkippedAfterApplied(db: Db, log: seq<Entry>, i: nat) returns (k: nat)
    requires Faithful(db, log) && i < |log| && log[i].Took? && log[i].fate.Skipped?
    requires KeyOf(log[i].attempt) !in db.ledger
    ensures k < i && IsApplication(log[k], KeyOf(log[i].attempt))
  {
    hide Judge;
    var front, key := log[..i], KeyOf(log[i].attempt);
    FaithfulFront(db, log, i);
    AppliedAtMostOnce(db, front, key);
    SkippedMeansClaimed(Replay(db, front), log[i].attempt, log[i].worker);
    k := FindApplication(front, key);
  }

  /** And only an application leaves a trace in the store, but for a presign that runs again for its reply. */
  lemma OnlyApplicationsLeaveATrace(db: Db, log: seq<Entry>, i: nat)
    requires Faithful(db, log) && i < |log| && log[i].Took?
    requires !log[i].fate.Applied? && !Rereplies(log[i].attempt)
    ensures Replay(db, log[..i + 1]) == Replay(db, log[..i])
  {
    hide Judge;
    assert log[..i + 1][..i] == log[..i];
    OnlyAClaimWrites(Replay(db, log[..i]), log[i].attempt, log[i].worker);
  }

  /** Two stores that differ at most in their cursors. */
  predicate SameContent(x: Db, y: Db) {
    x == y.(cursors := x.cursors)
  }

  lemma IdledIgnoresCursors(db: Db, s: Id, c: map<Id, nat>)
    requires s in db.sessions
    ensures TurnRecovery.Idled(db.(cursors := c), s) == TurnRecovery.Idled(db, s).(cursors := c)
  {
  }

  lemma FailTurnIgnoresCursors(db: Db, s: Id, t: Id, c: map<Id, nat>)
    requires s in db.sessions && t in TurnsOf(db, s) && t in TurnsOf(db.(cursors := c), s)
    ensures TurnRecovery.FailTurn(db.(cursors := c), s, t) == TurnRecovery.FailTurn(db, s, t).(cursors := c)
  {
    hide AppendEvent, TurnRecovery.TurnFailed, TurnRecovery.Idled;
    var ended := db.(turns := db.turns[t := db.turns[t].(state := Over(Failed))]);
    var logged := Logged(ended, s, t, "failed", NO_USAGE, Some(TurnRecovery.CODE));
    var failed := AppendEvent(logged, s, TurnRecovery.TurnFailed(t)).0;
    var told := AppendEvent(failed, s, TurnRecovery.INTERRUPTED).0;
    TurnRecovery.AppendKeepsTables(logged, s, TurnRecovery.TurnFailed(t));
    TurnRecovery.AppendKeepsTables(failed, s, TurnRecovery.INTERRUPTED);
    EventIgnoresCursors(logged, s, TurnRecovery.TurnFailed(t), c);
    EventIgnoresCursors(failed, s, TurnRecovery.INTERRUPTED, c);
    IdledIgnoresCursors(told, s, c);
    EventIgnoresCursors(TurnRecovery.Idled(told, s), s, TurnRecovery.IDLE, c);
  }

  lemma RecoveryIgnoresCursors(db: Db, s: Id, now: Time, c: map<Id, nat>)
    ensures TurnRecovery.FailStale(db.(cursors := c), s, now) == TurnRecovery.FailStale(db, s, now).(cursors := c)
  {
    hide Newest, AppendEvent, TurnRecovery.FailTurn, TurnRecovery.Idled;
    var moved, t := db.(cursors := c), RunningTurn(db, s);
    assert TurnsOf(moved, s) == TurnsOf(db, s) && RunningOf(moved, s) == RunningOf(db, s);
    assert RunningTurn(moved, s) == t;
    assert TurnRecovery.Recoverable(moved, s, now) == TurnRecovery.Recoverable(db, s, now);
    if !TurnRecovery.Recoverable(db, s, now) || (t.Some? && t.value in db.logs) {
      assert TurnRecovery.FailStale(db, s, now) == db && TurnRecovery.FailStale(moved, s, now) == moved;
    } else if t.Some? {
      FailTurnIgnoresCursors(db, s, t.value, c);
      assert TurnRecovery.FailStale(moved, s, now) == TurnRecovery.FailTurn(moved, s, t.value);
    } else {
      IdledIgnoresCursors(db, s, c);
      EventIgnoresCursors(TurnRecovery.Idled(db, s), s, TurnRecovery.IDLE, c);
    }
  }

  lemma AfterSameContent(x: Db, y: Db, e: Entry)
    requires SameContent(x, y)
    ensures SameContent(After(x, e), After(y, e))
    ensures e.Took? ==> Judge(x, e.attempt, e.worker).fate == Judge(y, e.attempt, e.worker).fate
  {
    hide Judge, TurnRecovery.FailStale;
    match e
    case Took(a, worker, _) => JudgeIgnoresCursors(y, a, worker, x.cursors);
    case Recovery(s, now) => RecoveryIgnoresCursors(y, s, now, x.cursors);
    case Rows(_) =>
  }

  // ---------------------------------------------------------------- a batch as a piece of history

  function Entries(b: Batch, queue: seq<Attempt>, worker: Id): seq<Entry> {
    if queue == [] then []
    else
      var front, last := queue[..|queue| - 1], queue[|queue| - 1];
      var before := SettleAll(b, front, worker);
      Entries(b, front, worker)
      + (if Held(before, last, worker) then [] else [Took(last, worker, Judge(before.db, last, worker).fate)])
  }

  lemma FaithfulGrows(db: Db, log: seq<Entry>, e: Entry)
    requires Faithful(db, log)
    requires e.Took? ==> e.fate == Judge(Replay(db, log), e.attempt, e.worker).fate && !e.fate.Stalled?
    ensures Faithful(db, log + [e])
  {
    forall i | 0 <= i < |log + [e]| && (log + [e])[i].Took?
      ensures (log + [e])[i].fate
           == Judge(Replay(db, (log + [e])[..i]), (log + [e])[i].attempt, (log + [e])[i].worker).fate
      ensures !(log + [e])[i].fate.Stalled?
    {
      assert (log + [e])[..i] == log[..i];
      if i == |log| {
        assert log[..i] == log;
      }
    }
  }

  lemma SettleExtendsHistory(db0: Db, log: seq<Entry>, b: Batch, a: Attempt, worker: Id)
    requires Faithful(db0, log) && SameContent(b.db, Replay(db0, log))
    ensures Held(b, a, worker) ==> Settle(b, a, worker).db == b.db
    ensures !Held(b, a, worker) ==>
      var longer := log + [Took(a, worker, Judge(b.db, a, worker).fate)];
      Faithful(db0, longer) && SameContent(Settle(b, a, worker).db, Replay(db0, longer))
  {
    hide Judge;
    StalledChangesNothing(b.db, a, worker);
    if !Held(b, a, worker) {
      var e := Took(a, worker, Judge(b.db, a, worker).fate);
      AfterSameContent(b.db, Replay(db0, log), e);
      FaithfulGrows(db0, log, e);
      assert (log + [e])[..|log + [e]| - 1] == log;
    }
  }

  /** A settled batch extends the history by its entries, starting from a store that `db0` and `log` explain. */
  lemma {:induction false} BatchExtendsHistory(db0: Db, log: seq<Entry>, db: Db, queue: seq<Attempt>, worker: Id)
    requires Faithful(db0, log) && SameContent(db, Replay(db0, log))
    ensures var more := Entries(Opening(db), queue, worker);
      && Faithful(db0, log + more)
      && SameContent(SettleAll(Opening(db), queue, worker).db, Replay(db0, log + more))
  {
    hide Judge, Settle, Held, Faithful, Replay;
    if queue == [] {
      assert log + [] == log;
    } else {
      var front, last := queue[..|queue| - 1], queue[|queue| - 1];
      var done := Entries(Opening(db), front, worker);
      var before := SettleAll(Opening(db), front, worker);
      BatchExtendsHistory(db0, log, db, front, worker);
      SettleExtendsHistory(db0, log + done, before, last, worker);
      assert done + [] == done;
      var e := Took(last, worker, Judge(before.db, last, worker).fate);
      assert log + (done + [e]) == log + done + [e];
    }
  }
}
