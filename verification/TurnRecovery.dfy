/** Recovery of a turn whose worker is gone: `fail_stale_in_progress` and its place among ingest batches. */
module TurnRecovery {
  import opened Common
  import opened Json
  import opened IngestStore
  import opened IngestLaws
  import opened IngestBatches
  import opened IngestTurns

  const RUNNING := {"in_progress", "requires_action"}

  predicate LeaseLive(until: Option<Time>, now: Time) {
    until.Some? && until.value > now
  }

  predicate Recoverable(db: Db, s: Id, now: Time) {
    s in db.sessions && db.sessions[s].status in RUNNING && !LeaseLive(db.sessions[s].leaseUntil, now)
  }

  const IDLE := Event("agent.session.idle", map[])

  function Idled(db: Db, s: Id): Db
    requires s in db.sessions
  {
    db.(sessions := db.sessions[s := db.sessions[s].(status := "idle", actions := [])])
  }

  const MESSAGE := "Turn interrupted"
  const CODE := "turn_interrupted"

  /** `turn_failed_data` of an interrupted turn */
  function TurnFailed(t: Id): Event {
    Event("agent.session.turn.failed", map[
      "turn_id" := Ref(t), "message" := Text(MESSAGE), "code" := Text(CODE), "failure_source" := Text("internal"),
      "upstream_status" := Null, "retryable" := Flag(true)])
  }

  /** `session_error_data` of an interrupted turn */
  const INTERRUPTED := Event(SESSION_ERROR, map[
    "message" := Text(MESSAGE), "code" := Text(CODE), "detail_code" := Text(CODE), "failure_source" := Text("internal"),
    "upstream_status" := Null, "retryable" := Flag(true)])

  /** `_fail_turn_in_db`, when the turn has no log row yet. */
  function FailTurn(db: Db, s: Id, t: Id): Db
    requires s in db.sessions && t in TurnsOf(db, s)
  {
    var ended := db.(turns := db.turns[t := db.turns[t].(state := Over(Failed))]);
    var logged := Logged(ended, s, t, "failed", NO_USAGE, Some(CODE));
    var told := AppendEvent(AppendEvent(logged, s, TurnFailed(t)).0, s, INTERRUPTED).0;
    AppendEvent(Idled(told, s), s, IDLE).0
  }

  /** The running turn has a log row already; failing it would write a second one. */
  predicate Blocked(db: Db, s: Id) {
    RunningTurn(db, s).Some? && RunningTurn(db, s).value in db.logs
  }

  /** What `fail_stale_in_progress` leaves in the store: when it raises, the transaction around it is undone. */
  function FailStale(db: Db, s: Id, now: Time): Db {
    if !Recoverable(db, s, now) then db
    else
      match RunningTurn(db, s)
      case Some(t) => if t in db.logs then db else FailTurn(db, s, t)
      case None => AppendEvent(Idled(db, s), s, IDLE).0
  }

  function FailedTurn(db: Db, t: Id): Turn
    requires t in db.turns
  {
    db.turns[t].(state := Over(Failed))
  }

  /** The tables an appended event leaves alone. */
  predicate SameButEvents(x: Db, y: Db) {
    y == x.(events := y.events)
  }

  lemma AppendKeepsTables(db: Db, s: Id, event: Event)
    ensures SameButEvents(db, AppendEvent(db, s, event).0)
  {
  }

  lemma FailTurnTables(db: Db, s: Id, t: Id)
    requires s in db.sessions && t in TurnsOf(db, s)
    ensures var turns, log := db.turns[t := FailedTurn(db, t)], TurnLog(s, "failed", NO_USAGE, Some(CODE));
      SameButEvents(Idled(db, s).(turns := turns, logs := db.logs[t := log]), FailTurn(db, s, t))
  {
    hide AppendEvent, TurnFailed;
    var ended := db.(turns := db.turns[t := db.turns[t].(state := Over(Failed))]);
    var logged := Logged(ended, s, t, "failed", NO_USAGE, Some(CODE));
    var failed := AppendEvent(logged, s, TurnFailed(t)).0;
    AppendKeepsTables(logged, s, TurnFailed(t));
    AppendKeepsTables(failed, s, INTERRUPTED);
    var told := AppendEvent(failed, s, INTERRUPTED).0;
    AppendKeepsTables(Idled(told, s), s, IDLE);
  }

  /** What recovery writes besides events. */
  lemma FailStaleTables(db: Db, s: Id, now: Time)
    ensures var db', t := FailStale(db, s, now), RunningTurn(db, s);
      if !Recoverable(db, s, now) || Blocked(db, s) then db' == db
      else if t.None? then SameButEvents(Idled(db, s), db')
      else SameButEvents(Idled(db, s).(turns := db.turns[t.value := FailedTurn(db, t.value)],
                           logs := db.logs[t.value := TurnLog(s, "failed", NO_USAGE, Some(CODE))]), db')
  {
    hide FailTurn, AppendEvent, Newest;
    if Recoverable(db, s, now) {
      AppendKeepsTables(Idled(db, s), s, IDLE);
      if RunningTurn(db, s).Some? && !Blocked(db, s) {
        FailTurnTables(db, s, RunningTurn(db, s).value);
      }
    }
  }

  /** The data say the turn was interrupted. */
  predicate Interrupted(data: Data) {
    && {"message", "code", "failure_source", "upstream_status", "retryable"} <= data.Keys
    && data["message"] == Text("Turn interrupted") && data["code"] == Text("turn_interrupted")
    && data["failure_source"] == Text("internal") && data["upstream_status"] == Null && data["retryable"] == Flag(true)
  }

  predicate TellsOfTurn(e: Event, t: Id) {
    && e.name == "agent.session.turn.failed" && Interrupted(e.data) && |e.data| == 6
    && "turn_id" in e.data && e.data["turn_id"] == Ref(t)
  }

  predicate TellsOfError(e: Event) {
    && e.name == "agent.session.error" && Interrupted(e.data) && |e.data| == 6
    && "detail_code" in e.data && e.data["detail_code"] == Text("turn_interrupted")
  }

  lemma AppendTells(db: Db, s: Id, event: Event)
    ensures Events(AppendEvent(db, s, event).0, s) == Events(db, s) + [event]
    ensures forall z :: z != s ==> Events(AppendEvent(db, s, event).0, z) == Events(db, z)
  {
  }

  lemma BodyTellsOfTurn(t: Id)
    ensures TellsOfTurn(TurnFailed(t), t)
  {
    var common := {"message", "code", "failure_source", "upstream_status", "retryable"};
    assert TurnFailed(t).data.Keys == common + {"turn_id"};
  }

  lemma BodyTellsOfError()
    ensures TellsOfError(INTERRUPTED)
  {
    var common := {"message", "code", "failure_source", "upstream_status", "retryable"};
    assert INTERRUPTED.data.Keys == common + {"detail_code"};
  }

  /** The three events of a turn that fails, in this order. */
  predicate TellsInterruption(before: seq<Event>, after: seq<Event>, t: Id) {
    && |after| == |before| + 3 && before <= after
    && TellsOfTurn(after[|before|], t) && TellsOfError(after[|before| + 1])
    && after[|before| + 2] == Event("agent.session.idle", map[])
  }

  lemma ThreeTell(before: seq<Event>, t: Id)
    ensures TellsInterruption(before, before + [TurnFailed(t)] + [INTERRUPTED] + [IDLE], t)
  {
    hide TurnFailed, TellsOfTurn, TellsOfError;
    BodyTellsOfTurn(t);
    BodyTellsOfError();
  }

  ghost predicate LogGrew(db: Db, after: Db, s: Id, events: seq<Event>) {
    Events(after, s) == events && forall z :: z != s ==> Events(after, z) == Events(db, z)
  }

  lemma AppendGrows(db: Db, before: Db, s: Id, events: seq<Event>, event: Event)
    requires LogGrew(db, before, s, events)
    ensures LogGrew(db, AppendEvent(before, s, event).0, s, events + [event])
  {
    hide AppendEvent, Events;
    AppendTells(before, s, event);
  }

  lemma SameLogs(db: Db, before: Db, after: Db, s: Id, events: seq<Event>)
    requires LogGrew(db, before, s, events) && after.events == before.events
    ensures LogGrew(db, after, s, events)
  {
  }

  lemma FailTurnTells(db: Db, s: Id, t: Id)
    requires s in db.sessions && t in TurnsOf(db, s)
    ensures TellsInterruption(Events(db, s), Events(FailTurn(db, s, t), s), t)
    ensures forall z :: z != s ==> Events(FailTurn(db, s, t), z) == Events(db, z)
  {
    hide AppendEvent, TurnFailed, TellsInterruption, LogGrew, Events;
    var ended := db.(turns := db.turns[t := db.turns[t].(state := Over(Failed))]);
    var logged := Logged(ended, s, t, "failed", NO_USAGE, Some(CODE));
    var failed := AppendEvent(logged, s, TurnFailed(t)).0;
    AppendKeepsTables(logged, s, TurnFailed(t));
    AppendKeepsTables(failed, s, INTERRUPTED);
    var told := AppendEvent(failed, s, INTERRUPTED).0;
    var events := Events(db, s);
    NoGrowth(db, s);
    SameLogs(db, db, logged, s, events);
    AppendGrows(db, logged, s, events, TurnFailed(t));
    AppendGrows(db, failed, s, events + [TurnFailed(t)], INTERRUPTED);
    SameLogs(db, told, Idled(told, s), s, events + [TurnFailed(t)] + [INTERRUPTED]);
    AppendGrows(db, Idled(told, s), s, events + [TurnFailed(t)] + [INTERRUPTED], IDLE);
    GrewTo(db, FailTurn(db, s, t), s, events + [TurnFailed(t)] + [INTERRUPTED] + [IDLE]);
    ThreeTell(events, t);
  }

  lemma NoGrowth(db: Db, s: Id)
    ensures LogGrew(db, db, s, Events(db, s))
  {
  }

  lemma GrewTo(db: Db, after: Db, s: Id, events: seq<Event>)
    requires LogGrew(db, after, s, events)
    ensures Events(after, s) == events && forall z :: z != s ==> Events(after, z) == Events(db, z)
  {
  }

  /** The session waits for a turn, and no lease of it reaches past this moment. */
  predicate LeftBehind(db: Db, s: Id, now: Time) {
    && s in db.sessions
    && (db.sessions[s].status == "in_progress" || db.sessions[s].status == "requires_action")
    && (db.sessions[s].leaseUntil == None || db.sessions[s].leaseUntil.value <= now)
  }

  /**
   What recovery tells: the session's log gains the failed turn, the error and the idle status, in this
   order; the idle status alone when no turn ran. Nothing changes when the session was not left behind or
   its running turn has a log row. The logs of other sessions stay as they were.
   */
  lemma RecoveryTells(db: Db, s: Id, now: Time)
    ensures var db', t := FailStale(db, s, now), RunningTurn(db, s);
      && (forall z :: z != s ==> Events(db', z) == Events(db, z))
      && (!LeftBehind(db, s, now) || (t.Some? && t.value in db.logs) ==> db' == db)
      && (LeftBehind(db, s, now) && t.None? ==> Events(db', s) == Events(db, s) + [Event("agent.session.idle", map[])])
      && (LeftBehind(db, s, now) && t.Some? && t.value !in db.logs ==>
           TellsInterruption(Events(db, s), Events(db', s), t.value))
  {
    hide AppendEvent, FailTurn, Newest, TellsInterruption;
    var t := RunningTurn(db, s);
    if Recoverable(db, s, now) && !Blocked(db, s) {
      if t.None? {
        AppendTells(Idled(db, s), s, IDLE);
      } else {
        FailTurnTells(db, s, t.value);
      }
    }
  }

  // ---------------------------------------------------------------- the code, in place

  /** `list_turns`: the turns of a session, oldest first. */
  function Ordered(turns: map<Id, Turn>, among: set<Id>): (r: seq<Id>)
    requires among <= turns.Keys
    ensures forall t :: t in r <==> t in among
    ensures forall i, j :: 0 <= i <= j < |r| ==> NotAfter(turns, r[i], r[j])
  {
    if among == {} then []
    else
      var last := Newest(turns, among).value;
      Ordered(turns, among - {last}) + [last]
  }

  /** One database session: the store as its transaction sees it. */
  class DbSession {
    var db: Db

    constructor (db: Db)
      ensures this.db == db
    {
      this.db := db;
    }

    method PersistEvent(s: Id, event: Event)
      modifies this
      ensures db == AppendEvent(old(db), s, event).0
    {
      db := AppendEvent(db, s, event).0;
    }

    method UpdateSessionIdle(s: Id)
      requires s in db.sessions
      modifies this
      ensures db == Idled(old(db), s)
    {
      var row := db.sessions[s];
      row := row.(status := "idle");
      row := row.(actions := []);
      db := db.(sessions := db.sessions[s := row]);
    }

    /** The insert into `turn_logs`, which allows one row per turn. */
    method WriteTurnLog(s: Id, t: Id) returns (raised: bool)
      modifies this
      ensures raised <==> t in old(db).logs
      ensures db == if raised then old(db) else Logged(old(db), s, t, "failed", NO_USAGE, Some(CODE))
    {
      if !Loggable(db, t, "failed") { return true; }
      db := Logged(db, s, t, "failed", NO_USAGE, Some(CODE));
      return false;
    }

    method FailTurnInDb(s: Id, t: Id) returns (raised: bool)
      requires s in db.sessions && t in TurnsOf(db, s)
      modifies this
      ensures raised <==> t in old(db).logs
      ensures !raised ==> db == FailTurn(old(db), s, t)
    {
      db := db.(turns := db.turns[t := db.turns[t].(state := Over(Failed))]);
      raised := WriteTurnLog(s, t);
      if raised { return; }
      PersistEvent(s, TurnFailed(t));
      PersistEvent(s, INTERRUPTED);
      UpdateSessionIdle(s);
      PersistEvent(s, IDLE);
    }

    /** The call with the transaction around it. */
    method FailStaleInProgress(s: Id, now: Time) returns (raised: bool)
      modifies this
      ensures db == FailStale(old(db), s, now)
      ensures raised <==> Recoverable(old(db), s, now) && Blocked(old(db), s)
    {
      hide FailTurn;
      if s !in db.sessions || db.sessions[s].status !in RUNNING { return false; }
      if LeaseLive(db.sessions[s].leaseUntil, now) { return false; }
      var turns, before := Ordered(db.turns, TurnsOf(db, s)), db;
      var i := |turns|;
      while i > 0
        invariant 0 <= i <= |turns| && db == old(db)
        invariant forall k :: i <= k < |turns| ==> db.turns[turns[k]].state != InProgress
      {
        i := i - 1;
        if db.turns[turns[i]].state == InProgress {
          assert turns[i] in turns;
          LastRunning(db, s, turns, i);
          raised := FailTurnInDb(s, turns[i]);
          if raised {
            db := before;
          }
          return;
        }
      }
      forall t
        ensures t !in RunningOf(db, s)
      {
        assert t in TurnsOf(db, s) ==> t in turns;
      }
      assert RunningOf(db, s) == {};
      UpdateSessionIdle(s);
      PersistEvent(s, IDLE);
      return false;
    }
  }

  /** The last running turn in the order of `list_turns` is what the running-turn query returns. */
  lemma LastRunning(db: Db, s: Id, turns: seq<Id>, i: nat)
    requires turns == Ordered(db.turns, TurnsOf(db, s)) && i < |turns|
    requires db.turns[turns[i]].state == InProgress
    requires forall k :: i < k < |turns| ==> db.turns[turns[k]].state != InProgress
    ensures RunningTurn(db, s) == Some(turns[i])
  {
    var among := RunningOf(db, s);
    assert turns[i] in turns;
    forall u | u in among
      ensures NotAfter(db.turns, u, turns[i])
    {
      assert u in turns;
    }
    NewestUnique(db.turns, among, turns[i]);
  }

  // ---------------------------------------------------------------- what recovery achieves

  /** Recovery ends the newest running turn and no other, and leaves the session idle with nothing required. */
  lemma RecoveryEndsTheNewest(db: Db, s: Id, now: Time)
    requires Recoverable(db, s, now) && !Blocked(db, s)
    ensures var db', newest := FailStale(db, s, now), RunningTurn(db, s);
      && RunningOf(db', s) == (if newest.Some? then RunningOf(db, s) - {newest.value} else {})
      && db'.sessions[s].status == "idle" && db'.sessions[s].actions == []
      && (forall t :: t in db.turns && Some(t) != newest ==> t in db'.turns && db'.turns[t] == db.turns[t])
      && db'.ledger == db.ledger && db'.cursors == db.cursors
  {
    hide FailStale, Recoverable;
    var db', newest := FailStale(db, s, now), RunningTurn(db, s);
    FailStaleTables(db, s, now);
    if newest.Some? {
      assert newest.value in RunningOf(db, s);
    }
    assert RunningOf(db', s) == (if newest.Some? then RunningOf(db, s) - {newest.value} else {});
  }

  /** So it leaves no turn running exactly when none was, or one that has no log row yet. */
  lemma RecoveryEndsAllIffOne(db: Db, s: Id, now: Time)
    requires Recoverable(db, s, now)
    ensures RunningOf(FailStale(db, s, now), s) == {} <==> |RunningOf(db, s)| <= 1 && !Blocked(db, s)
  {
    var running, newest := RunningOf(db, s), RunningTurn(db, s);
    if !Blocked(db, s) {
      hide FailStale;
      RecoveryEndsTheNewest(db, s, now);
      if newest.Some? {
        assert |running - {newest.value}| == |running| - 1;
      }
    }
  }

  lemma SoundMeansOne(db: Db, s: Id)
    requires TurnsSound(db)
    ensures |RunningOf(db, s)| <= 1
  {
    if RunningOf(db, s) != {} {
      var t := RunningTurn(db, s).value;
      forall u | u in RunningOf(db, s)
        ensures u == t
      {
        assert LatestTurn(db, s) == Some(u) && LatestTurn(db, s) == Some(t);
      }
      assert RunningOf(db, s) == {t};
    }
  }

  /**
   In a sound store recovery leaves nothing running if and only if the running turn has no log row yet.
   Either way a second call, at any time, changes nothing: a blocked session stays as it is for good.
   */
  lemma RecoveryIsComplete(db: Db, s: Id, now: Time, later: Time)
    requires TurnsSound(db) && Recoverable(db, s, now)
    ensures var db' := FailStale(db, s, now);
      && (RunningOf(db', s) == {} <==> !Blocked(db, s))
      && TurnsSound(db') && OverStaysOver(db, db')
      && FailStale(db', s, later) == db'
  {
    SoundMeansOne(db, s);
    RecoveryEndsAllIffOne(db, s, now);
    RecoveryKeepsSound(db, s, now);
    if !Blocked(db, s) {
      RecoveryEndsTheNewest(db, s, now);
    }
  }

  lemma RecoveryKeepsSound(db: Db, s: Id, now: Time)
    requires TurnsSound(db)
    ensures TurnsSound(FailStale(db, s, now)) && OverStaysOver(db, FailStale(db, s, now))
  {
    hide FailStale, Recoverable;
    var db', newest := FailStale(db, s, now), RunningTurn(db, s);
    FailStaleTables(db, s, now);
    if Recoverable(db, s, now) && newest.Some? && !Blocked(db, s) {
      ChangeKeepsSound(db, db', s, None, Rewritten(newest.value, FailedTurn(db, newest.value)));
    } else {
      assert db'.turns == db.turns;
      ChangeKeepsSound(db, db', s, None, Same);
    }
  }

  // ---------------------------------------------------------------- when recovery is never blocked

  /** Only a turn that is over has a log row. */
  ghost predicate LogsClosed(db: Db) {
    forall t :: t in db.logs ==> t in db.turns && db.turns[t].state.Over?
  }

  lemma ClosedLogsNeverBlock(db: Db, s: Id)
    requires LogsClosed(db)
    ensures !Blocked(db, s)
  {
    if RunningTurn(db, s).Some? {
      assert RunningTurn(db, s).value in RunningOf(db, s);
    }
  }

  /** A usage report, in order otherwise, for a turn that still runs. */
  predicate LogsEarly(db: Db, e: Envelope) {
    && e.payload.Usage? && e.payload.turn in RunningOf(db, e.session)
    && EnvelopeTurn(e) == LatestTurn(db, e.session)
    && Loggable(db, e.payload.turn, ClosingStatus(e.payload.closing))
  }

  /** The logs after an applied envelope. */
  function LogsBy(db: Db, a: Attempt): map<Id, TurnLog> {
    match a.envelope.payload
    case Usage(t, counts, closing, error) =>
      db.logs[t := TurnLog(a.envelope.session, ClosingStatus(closing), UsageFrom(counts), error)]
    case _ => db.logs
  }

  lemma SandboxLogsNothing(db: Db, a: Attempt)
    requires a.envelope.session in db.sessions && a.envelope.payload.SandboxReport?
    ensures ApplySandbox(db, a).Kept? ==> ApplySandbox(db, a).db.logs == db.logs
  {
    hide SandboxStatus.Transition;
  }

  lemma TurnLogsNothing(db: Db, a: Attempt, t: Id, mark: TurnMark)
    ensures ApplyTurn(db, a, t, mark).Kept? ==> ApplyTurn(db, a, t, mark).db.logs == db.logs
  {
    hide TurnStamp;
  }

  lemma ItemLogsNothing(db: Db, a: Attempt)
    requires a.envelope.session in db.sessions
    ensures a.envelope.payload.ItemAdded? && ApplyItemAdded(db, a).Kept? ==> ApplyItemAdded(db, a).db.logs == db.logs
    ensures a.envelope.payload.ItemDone? && ApplyItemDone(db, a).Kept? ==> ApplyItemDone(db, a).db.logs == db.logs
    ensures ApplyArtifact(db, a).Kept? ==> ApplyArtifact(db, a).db.logs == db.logs
  {
  }

  lemma ApplyLogs(db: Db, a: Attempt)
    requires a.envelope.session in db.sessions
    ensures Apply(db, a).Kept? ==> Apply(db, a).db.logs == LogsBy(db, a)
  {
    hide ApplySandbox, ApplyTurn, ApplyItemAdded, ApplyItemDone, ApplyArtifact, Events;
    ItemLogsNothing(db, a);
    match a.envelope.payload
    case SandboxReport(_, _, _) => SandboxLogsNothing(db, a);
    case TurnStatus(t, mark) => TurnLogsNothing(db, a, t, mark);
    case _ =>
  }

  lemma UnappliedLogs(db: Db, a: Attempt, worker: Id)
    ensures !Judge(db, a, worker).fate.Applied? ==> Judge(db, a, worker).db.logs == db.logs
  {
    hide Validate, Apply;
    if a.envelope.session in db.sessions && Rereplies(a) {
      ApplyLogs(db, a);
    }
  }

  lemma JudgeLogs(db: Db, a: Attempt, worker: Id)
    ensures Judge(db, a, worker).db.logs == if Judge(db, a, worker).fate.Applied? then LogsBy(db, a) else db.logs
  {
    hide Judge, Validate, Apply;
    UnappliedLogs(db, a, worker);
    if Judge(db, a, worker).fate.Applied? {
      JudgeApplied(db, a, worker);
      ApplyLogs(db.(ledger := db.ledger + {KeyOf(a)}), a);
    }
  }

  lemma UsageJudged(db: Db, a: Attempt, worker: Id)
    requires a.envelope.payload.Usage?
    ensures var e := a.envelope;
      Judge(db, a, worker).fate.Applied? <==>
        && Reaches(db, a, worker) && EnvelopeTurn(e) == LatestTurn(db, e.session)
        && e.payload.turn in TurnsOf(db, e.session)
        && Loggable(db, e.payload.turn, ClosingStatus(e.payload.closing))
  {
    hide Newest, Judge;
    AppliedIff(db, a, worker);
    assert TurnsOf(db.(ledger := db.ledger + {KeyOf(a)}), a.envelope.session) == TurnsOf(db, a.envelope.session);
  }

  /**
   Logged turns are over: ingest keeps it, except for exactly one kind of envelope, a usage report that
   `LogsEarly` for a turn that still runs. Where it holds, no recovery is blocked.
   */
  lemma KeepsLogsClosedUnless(db: Db, a: Attempt, worker: Id)
    requires LogsClosed(db)
    ensures LogsClosed(Judge(db, a, worker).db) <==> !(Reaches(db, a, worker) && LogsEarly(db, a.envelope))
  {
    hide Judge, Newest, Validate;
    var v, e := Judge(db, a, worker), a.envelope;
    JudgeLogs(db, a, worker);
    JudgeChangesTurns(db, a, worker);
    if e.payload.Usage? {
      UsageJudged(db, a, worker);
      if v.fate.Applied? {
        UsageLogs(db, v.db, a);
      }
    }
  }

  lemma UsageLogs(db: Db, db': Db, a: Attempt)
    requires LogsClosed(db) && a.envelope.payload.Usage? && a.envelope.payload.turn in TurnsOf(db, a.envelope.session)
    requires db'.turns == Changed(db.turns, a.envelope.session, ChangeBy(db, a)) && db'.logs == LogsBy(db, a)
    ensures LogsClosed(db') <==> a.envelope.payload.turn !in RunningOf(db, a.envelope.session)
  {
    assert a.envelope.payload.turn in db'.logs;
  }

  lemma RecoveryKeepsLogsClosed(db: Db, s: Id, now: Time)
    requires LogsClosed(db)
    ensures LogsClosed(FailStale(db, s, now))
  {
    hide FailStale, Blocked, Recoverable;
    FailStaleTables(db, s, now);
  }

  /** Where only ended turns are logged, recovery leaves nothing running, and keeps it so. */
  lemma RecoveryEndsWhereLogsAreClosed(db: Db, s: Id, now: Time)
    requires TurnsSound(db) && LogsClosed(db) && Recoverable(db, s, now)
    ensures var db' := FailStale(db, s, now);
      RunningOf(db', s) == {} && TurnsSound(db') && LogsClosed(db')
  {
    hide FailStale, Recoverable, LogsClosed;
    ClosedLogsNeverBlock(db, s);
    RecoveryIsComplete(db, s, now, now);
    RecoveryKeepsLogsClosed(db, s, now);
  }

  /** Once a usage report came too early, no recovery ever ends the turn. */
  lemma EarlyLogBlocksRecovery(db: Db, a: Attempt, worker: Id, now: Time)
    requires TurnsSound(db) && Reaches(db, a, worker) && LogsEarly(db, a.envelope)
    ensures var db', s := Judge(db, a, worker).db, a.envelope.session;
      && RunningTurn(db', s) == Some(a.envelope.payload.turn) && Blocked(db', s)
      && FailStale(db', s, now) == db'
  {
    hide Judge, Newest, FailTurn, Recoverable;
    var s, t := a.envelope.session, a.envelope.payload.turn;
    UsageJudged(db, a, worker);
    JudgeLogs(db, a, worker);
    OnlyTurnStatusMovesReads(db, a, worker, s);
    assert RunningTurn(db, s).value in RunningOf(db, s);
    assert LatestTurn(db, s) == Some(t) && LatestTurn(db, s) == RunningTurn(db, s);
  }

  // ---------------------------------------------------------------- every run

  /** What may happen to the store: a batch of some worker, a recovery, or a change of session rows such as a lease. */
  datatype Work =
    | Batched(queue: seq<Attempt>, worker: Id)
    | Recovered(session: Id, now: Time)
    | RowsChanged(sessions: map<Id, Session>)

  function Do(db: Db, w: Work): Db {
    match w
    case Batched(queue, worker) => Flush(db, queue, worker).db
    case Recovered(s, now) => FailStale(db, s, now)
    case RowsChanged(sessions) => db.(sessions := sessions)
  }

  function DoAll(db: Db, work: seq<Work>): Db {
    if work == [] then db else Do(DoAll(db, work[..|work| - 1]), work[|work| - 1])
  }

  predicate WorkAgrees(work: seq<Work>) {
    forall i :: 0 <= i < |work| && work[i].Batched? ==> AllAgree(work[i].queue)
  }

  /** In every run at most one turn of a session runs, it is the newest, and a turn that ended never runs again. */
  lemma {:induction false} EveryRunKeepsOneRunningTurn(db: Db, work: seq<Work>, n: nat)
    requires TurnsSound(db) && WorkAgrees(work) && n <= |work|
    ensures TurnsSound(DoAll(db, work))
    ensures forall s :: |RunningOf(DoAll(db, work), s)| <= 1
    ensures OverStaysOver(DoAll(db, work[..n]), DoAll(db, work))
    decreases |work|
  {
    hide FailStale, Flush, TurnsSound, OverStaysOver, AllAgree, RunningOf;
    if n == |work| {
      OverIsReflexive(DoAll(db, work));
      assert work[..n] == work;
    }
    if work != [] {
      var front, last := work[..|work| - 1], work[|work| - 1];
      var before := DoAll(db, front);
      EveryRunKeepsOneRunningTurn(db, front, if n < |work| then n else 0);
      match last {
        case Batched(queue, worker) => BatchKeepsOneRunningTurn(before, queue, worker);
        case Recovered(s, now) => RecoveryKeepsSound(before, s, now);
        case RowsChanged(_) => ChangeKeepsSound(before, DoAll(db, work), 0, None, Same);
      }
      if n < |work| {
        assert front[..n] == work[..n];
        OverIsTransitive(DoAll(db, work[..n]), before, DoAll(db, work));
      }
    }
    forall s
      ensures |RunningOf(DoAll(db, work), s)| <= 1
    {
      SoundMeansOne(DoAll(db, work), s);
    }
  }
}
