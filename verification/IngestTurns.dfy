/** The turn state machine under ingest: one running turn per session, the newest, and no way back from the end. */
module IngestTurns {
  import opened Common
  import opened IngestStore
  import opened IngestLaws
  import opened IngestBatches

  // ---------------------------------------------------------------- reads

  lemma NewestUnique(turns: map<Id, Turn>, among: set<Id>, t: Id)
    requires among <= turns.Keys && IsNewest(turns, among, t)
    ensures Newest(turns, among) == Some(t)
  {
    var r := Newest(turns, among).value;
    assert NotAfter(turns, r, t) && NotAfter(turns, t, r);
  }

  /** The turns of session `s` are the same in both stores. */
  ghost predicate SameTurns(db: Db, db': Db, s: Id) {
    && TurnsOf(db', s) == TurnsOf(db, s)
    && forall t :: t in TurnsOf(db, s) ==> db'.turns[t] == db.turns[t]
  }

  lemma SameTurnsSameReads(db: Db, db': Db, s: Id)
    requires SameTurns(db, db', s)
    ensures LatestTurn(db', s) == LatestTurn(db, s) && RunningTurn(db', s) == RunningTurn(db, s)
  {
    forall t | t in RunningOf(db, s) || t in RunningOf(db', s)
      ensures t in RunningOf(db, s) && t in RunningOf(db', s)
    {
      assert t in TurnsOf(db, s) && t in TurnsOf(db', s);
    }
    assert RunningOf(db', s) == RunningOf(db, s);
    if TurnsOf(db, s) != {} {
      NewestUnique(db'.turns, TurnsOf(db', s), LatestTurn(db, s).value);
    }
    if RunningOf(db, s) != {} {
      NewestUnique(db'.turns, RunningOf(db', s), RunningTurn(db, s).value);
    }
  }

  /** Only the latest turn of a session may be running; so at most one is, and it is the newest. */
  ghost predicate TurnsSound(db: Db) {
    forall t :: t in db.turns && db.turns[t].state == InProgress ==> LatestTurn(db, db.turns[t].session) == Some(t)
  }

  /** A turn that is over stays over, in its session, wherever the store goes. */
  ghost predicate OverStaysOver(db: Db, db': Db) {
    forall t :: t in db.turns ==>
      && t in db'.turns
      && db'.turns[t].session == db.turns[t].session
      && db'.turns[t].createdAt == db.turns[t].createdAt
      && (db.turns[t].state.Over? ==> db'.turns[t].state.Over?)
  }

  // ---------------------------------------------------------------- what one envelope does to turns

  datatype TurnChange = Same | Opened(t: Id, stamp: Time) | Rewritten(t: Id, turn: Turn)

  function Changed(turns: map<Id, Turn>, s: Id, c: TurnChange): map<Id, Turn> {
    match c
    case Same => turns
    case Opened(t, stamp) => turns[t := Turn(s, InProgress, stamp, None)]
    case Rewritten(t, turn) => turns[t := turn]
  }

  /** A turn is opened in `s` only when none runs there, or the header names the one that does. */
  ghost predicate Permitted(db: Db, s: Id, named: Option<Id>, c: TurnChange) {
    match c
    case Same => true
    case Opened(t, stamp) =>
      && t !in db.turns
      && (forall u :: u in TurnsOf(db, s) ==> db.turns[u].createdAt < stamp)
      && (RunningTurn(db, s).None? || RunningTurn(db, s) == named)
    case Rewritten(t, turn) =>
      && t in TurnsOf(db, s)
      && turn.session == s && turn.createdAt == db.turns[t].createdAt
      && (turn.state == db.turns[t].state || turn.state.Over?)
  }

  /** The turn change an applied envelope makes. */
  function ChangeBy(db: Db, a: Attempt): TurnChange {
    var s := a.envelope.session;
    match a.envelope.payload
    case TurnStatus(t, Started) =>
      if t in db.turns && db.turns[t].session == s then Same else Opened(t, TurnStamp(db, s, a.now))
    case TurnStatus(t, Ended(outcome)) =>
      if t in db.turns then Rewritten(t, db.turns[t].(state := Over(outcome))) else Same
    case Usage(t, counts, _, _) =>
      if t in db.turns then Rewritten(t, db.turns[t].(usage := Some(UsageFrom(counts)))) else Same
    case _ => Same
  }

  lemma OthersKeepTurns(db: Db, a: Attempt)
    requires a.envelope.session in db.sessions
    ensures var p := a.envelope.payload;
      var r := if p.SandboxReport? then ApplySandbox(db, a) else if p.ItemAdded? then ApplyItemAdded(db, a)
               else if p.ItemDone? then ApplyItemDone(db, a) else ApplyArtifact(db, a);
      r.Kept? ==> r.db.turns == db.turns
  {
    hide SandboxStatus.Transition;
  }

  lemma UsageChangesTurns(db: Db, a: Attempt)
    requires a.envelope.payload.Usage?
    ensures var r, c := ApplyTurnUsage(db, a), ChangeBy(db, a);
      r.Kept? ==> r.db.turns == Changed(db.turns, a.envelope.session, c) && c.t in TurnsOf(db, a.envelope.session)
  {
    hide UsageFrom;
  }

  lemma StatusChangesTurns(db: Db, a: Attempt)
    requires a.envelope.payload.TurnStatus?
    ensures var r, c := ApplyTurn(db, a, a.envelope.payload.turn, a.envelope.payload.mark), ChangeBy(db, a);
      r.Kept? ==> && r.db.turns == Changed(db.turns, a.envelope.session, c)
                  && (c.Opened? ==> c.t !in db.turns)
                  && (c.Rewritten? ==> c.t in TurnsOf(db, a.envelope.session))
  {
    hide TurnStamp;
  }

  lemma ApplyChangesTurns(db: Db, a: Attempt)
    requires a.envelope.session in db.sessions
    ensures var r, c := Apply(db, a), ChangeBy(db, a);
      r.Kept? ==> && r.db.turns == Changed(db.turns, a.envelope.session, c)
                  && (c.Opened? ==> c.t !in db.turns)
                  && (c.Rewritten? ==> c.t in TurnsOf(db, a.envelope.session))
  {
    hide ApplySandbox, ApplyItemAdded, ApplyItemDone, ApplyArtifact, ApplyTurn, ApplyTurnUsage, Events, TurnsOf,
      TurnStamp;
    OthersKeepTurns(db, a);
    match a.envelope.payload
    case TurnStatus(_, _) => StatusChangesTurns(db, a);
    case Usage(_, _, _, _) => UsageChangesTurns(db, a);
    case _ =>
  }

  /** The guard of `_validate` that a started turn must pass. */
  lemma StartedPasses(db: Db, e: Envelope, worker: Id)
    requires Validate(db, e, worker).None? && e.payload.TurnStatus? && e.payload.mark.Started?
    ensures RunningTurn(db, e.session).None? || RunningTurn(db, e.session) == EnvelopeTurn(e)
  {
  }

  lemma GuardedApplies(db: Db, a: Attempt, extra: Lists)
    requires a.envelope.session in db.sessions
    ensures Guarded(db, a, extra).Kept? ==> Apply(db, a).Kept? && Guarded(db, a, extra).db == Apply(db, a).db
  {
    hide Apply;
  }

  lemma DeliverApplies(db: Db, a: Attempt, worker: Id)
    requires a.envelope.session in db.sessions
    ensures var r, claimed := Deliver(db, a, worker), db.(ledger := db.ledger + {KeyOf(a)});
      r.Kept? ==> && Validate(claimed, a.envelope, worker).None?
                  && Apply(claimed, a).Kept? && r.db == Apply(claimed, a).db
  {
    hide Guarded, Validate, Apply;
    GuardedApplies(db.(ledger := db.ledger + {KeyOf(a)}), a, Receipts(a.envelope));
  }

  lemma RedeliverKeepsTurns(db: Db, a: Attempt)
    requires a.envelope.session in db.sessions
    ensures Redeliver(db, a).Kept? ==> Redeliver(db, a).db.turns == db.turns
  {
    hide Guarded, Apply;
    if Rereplies(a) {
      GuardedApplies(db, a, NOTHING);
      ApplyChangesTurns(db, a);
    }
  }

  lemma JudgeApplied(db: Db, a: Attempt, worker: Id)
    ensures var v, claimed := Judge(db, a, worker), db.(ledger := db.ledger + {KeyOf(a)});
      && (v.fate.Applied? ==> && a.envelope.session in db.sessions
                              && Validate(claimed, a.envelope, worker).None?
                              && Apply(claimed, a).Kept? && v.db == Apply(claimed, a).db)
      && (!v.fate.Applied? ==> v.db.turns == db.turns)
  {
    hide Deliver, Redeliver, Validate, Apply;
    if a.envelope.session in db.sessions {
      DeliverApplies(db, a, worker);
      RedeliverKeepsTurns(db, a);
    }
  }

  lemma JudgeChangesTurns(db: Db, a: Attempt, worker: Id)
    ensures var v, s := Judge(db, a, worker), a.envelope.session;
      var c := if v.fate.Applied? then ChangeBy(db, a) else Same;
      v.db.turns == Changed(db.turns, s, c) && Permitted(db, s, EnvelopeTurn(a.envelope), c)
  {
    hide Judge, Validate, Apply;
    var claimed, s := db.(ledger := db.ledger + {KeyOf(a)}), a.envelope.session;
    JudgeApplied(db, a, worker);
    if Judge(db, a, worker).fate.Applied? {
      ApplyChangesTurns(claimed, a);
      assert TurnsOf(claimed, s) == TurnsOf(db, s) && RunningOf(claimed, s) == RunningOf(db, s);
      assert ChangeBy(claimed, a) == ChangeBy(db, a);
      if ChangeBy(db, a).Opened? {
        StartedPasses(claimed, a.envelope, worker);
      }
    }
  }

  /** Turn reads of other sessions never change, and those of the envelope's own only with an applied `turn.status`. */
  lemma OnlyTurnStatusMovesReads(db: Db, a: Attempt, worker: Id, s: Id)
    requires s != a.envelope.session || !a.envelope.payload.TurnStatus? || !Judge(db, a, worker).fate.Applied?
    ensures var db' := Judge(db, a, worker).db;
      LatestTurn(db', s) == LatestTurn(db, s) && RunningTurn(db', s) == RunningTurn(db, s)
  {
    hide Judge;
    JudgeChangesTurns(db, a, worker);
    var db' := Judge(db, a, worker).db;
    assert TurnsOf(db', s) == TurnsOf(db, s);
    if a.envelope.payload.Usage? && s == a.envelope.session {
      UsageMovesNoRead(db, db', s, a.envelope.payload.turn, UsageFrom(a.envelope.payload.counts));
    } else {
      SameTurnsSameReads(db, db', s);
    }
  }

  lemma UsageMovesNoRead(db: Db, db': Db, s: Id, t: Id, usage: TokenUsage)
    requires db'.turns == db.turns ||
      (t in TurnsOf(db, s) && db'.turns == db.turns[t := db.turns[t].(usage := Some(usage))])
    ensures LatestTurn(db', s) == LatestTurn(db, s) && RunningTurn(db', s) == RunningTurn(db, s)
  {
    assert TurnsOf(db', s) == TurnsOf(db, s) && RunningOf(db', s) == RunningOf(db, s);
    if TurnsOf(db, s) != {} {
      NewestUnique(db'.turns, TurnsOf(db', s), LatestTurn(db, s).value);
    }
    if RunningOf(db, s) != {} {
      NewestUnique(db'.turns, RunningOf(db', s), RunningTurn(db, s).value);
    }
  }

  // ---------------------------------------------------------------- the turn state machine

  lemma RewriteKeepsLatest(db: Db, db': Db, s: Id, t: Id, turn: Turn)
    requires t in TurnsOf(db, s) && turn.session == s && turn.createdAt == db.turns[t].createdAt
    requires db'.turns == db.turns[t := turn]
    ensures forall z :: LatestTurn(db', z) == LatestTurn(db, z)
  {
    forall z
      ensures LatestTurn(db', z) == LatestTurn(db, z)
    {
      assert TurnsOf(db', z) == TurnsOf(db, z);
      if TurnsOf(db, z) != {} {
        NewestUnique(db'.turns, TurnsOf(db', z), LatestTurn(db, z).value);
      }
    }
  }

  lemma OpenedIsLatest(db: Db, db': Db, s: Id, t: Id, stamp: Time)
    requires t !in db.turns && db'.turns == db.turns[t := Turn(s, InProgress, stamp, None)]
    requires forall u :: u in TurnsOf(db, s) ==> db.turns[u].createdAt < stamp
    ensures LatestTurn(db', s) == Some(t)
    ensures forall z :: z != s ==> LatestTurn(db', z) == LatestTurn(db, z)
  {
    assert TurnsOf(db', s) == TurnsOf(db, s) + {t};
    NewestUnique(db'.turns, TurnsOf(db', s), t);
    forall z | z != s
      ensures LatestTurn(db', z) == LatestTurn(db, z)
    {
      assert TurnsOf(db', z) == TurnsOf(db, z);
      SameTurnsSameReads(db, db', z);
    }
  }

  /** The change opens a turn while another one of the session is running. */
  ghost predicate OpensBeside(db: Db, s: Id, c: TurnChange) {
    c.Opened? && RunningTurn(db, s).Some?
  }

  lemma ChangeKeepsSound(db: Db, db': Db, s: Id, named: Option<Id>, c: TurnChange)
    requires TurnsSound(db) && Permitted(db, s, named, c) && db'.turns == Changed(db.turns, s, c)
    ensures OverStaysOver(db, db')
    ensures TurnsSound(db') <==> !OpensBeside(db, s, c)
  {
    match c
    case Same =>
      forall z
        ensures LatestTurn(db', z) == LatestTurn(db, z)
      {
        assert TurnsOf(db', z) == TurnsOf(db, z);
      }
    case Rewritten(t, turn) => RewriteKeepsLatest(db, db', s, t, turn);
    case Opened(t, stamp) =>
      OpenedIsLatest(db, db', s, t, stamp);
      if RunningTurn(db, s).Some? {
        var u := RunningTurn(db, s).value;
        assert u in db'.turns && db'.turns[u].state == InProgress && LatestTurn(db', db'.turns[u].session) != Some(u);
      } else {
        forall u | u in db'.turns && db'.turns[u].state == InProgress
          ensures LatestTurn(db', db'.turns[u].session) == Some(u)
        {
          assert u == t || u !in RunningOf(db, s);
        }
      }
  }

  /** The envelope gets as far as `_apply` without a fault. */
  predicate Reaches(db: Db, a: Attempt, worker: Id) {
    LeasedTo(db, a.envelope.session, worker) && a.envelope.size <= MAX_MESSAGE_BYTES
    && a.fault.NoFault? && KeyOf(a) !in db.ledger
  }

  /** A `started` whose header names the running turn while its payload names a turn nobody knows. */
  predicate StartsBeside(db: Db, e: Envelope) {
    && e.payload.TurnStatus? && e.payload.mark.Started? && e.payload.turn !in db.turns
    && RunningTurn(db, e.session).Some? && e.turn == RunningTurn(db, e.session)
  }

  /** What reaches `_apply` is applied if and only if it is valid and applying keeps it. */
  lemma AppliedIff(db: Db, a: Attempt, worker: Id)
    ensures var claimed := db.(ledger := db.ledger + {KeyOf(a)});
      Judge(db, a, worker).fate.Applied? <==>
        && Reaches(db, a, worker) && !a.envelope.payload.WorkspaceReaped?
        && Validate(claimed, a.envelope, worker).None? && Apply(claimed, a).Kept?
  {
    hide Apply, Validate;
  }

  lemma StartedBeside(db: Db, a: Attempt, worker: Id)
    ensures Reaches(db, a, worker) && StartsBeside(db, a.envelope)
        <==> Judge(db, a, worker).fate.Applied? && OpensBeside(db, a.envelope.session, ChangeBy(db, a))
  {
    hide Judge, Apply, Validate, TurnStamp;
    var claimed, s, e := db.(ledger := db.ledger + {KeyOf(a)}), a.envelope.session, a.envelope;
    AppliedIff(db, a, worker);
    if Reaches(db, a, worker) && e.payload.TurnStatus? && e.payload.mark.Started? {
      StartedIsJudged(claimed, a, worker);
      assert TurnsOf(claimed, s) == TurnsOf(db, s) && RunningOf(claimed, s) == RunningOf(db, s);
      if RunningTurn(db, s).Some? {
        assert RunningTurn(db, s).value in db.turns;
      }
    }
  }

  lemma StartedIsJudged(db: Db, a: Attempt, worker: Id)
    requires a.envelope.payload.TurnStatus? && a.envelope.payload.mark.Started?
    requires LeasedTo(db, a.envelope.session, worker) && a.envelope.size <= MAX_MESSAGE_BYTES
    ensures var s, t, running := a.envelope.session, a.envelope.payload.turn, RunningTurn(db, a.envelope.session);
      && (Validate(db, a.envelope, worker).None? <==> running.None? || running == EnvelopeTurn(a.envelope))
      && (Apply(db, a).Kept? <==> t !in db.turns || db.turns[t].session == s)
  {
    hide TurnStamp, Newest;
  }

  /**
   One running turn per session, the newest: ingest keeps it, except for exactly one kind of
   envelope, a `started` that `StartsBeside` the running turn. A turn that is over stays over always.
   */
  lemma KeepsOneRunningTurnUnless(db: Db, a: Attempt, worker: Id)
    requires TurnsSound(db)
    ensures TurnsSound(Judge(db, a, worker).db) <==> !(Reaches(db, a, worker) && StartsBeside(db, a.envelope))
    ensures OverStaysOver(db, Judge(db, a, worker).db)
  {
    hide Judge;
    var v := Judge(db, a, worker);
    JudgeChangesTurns(db, a, worker);
    StartedBeside(db, a, worker);
    var c := if v.fate.Applied? then ChangeBy(db, a) else Same;
    ChangeKeepsSound(db, v.db, a.envelope.session, EnvelopeTurn(a.envelope), c);
  }

  /** Header and payload name the same turn, or the header names none. */
  predicate HeaderAgrees(e: Envelope) {
    e.turn.None? || e.turn == PayloadTurn(e.payload)
  }

  lemma AgreeingHeadersNeverStartBeside(db: Db, e: Envelope)
    requires HeaderAgrees(e)
    ensures !StartsBeside(db, e)
  {
    if RunningTurn(db, e.session).Some? {
      assert RunningTurn(db, e.session).value in RunningOf(db, e.session);
    }
  }

  /** The store of one session in which turn 10 runs. */
  function OneRunning(): Db {
    var columns := SandboxStatus.Row(false, None, None, None, None, None, None, None, None, None, None, None, None);
    var row := Session(1, Some(2), Some(3), None, "in_progress", [], columns);
    Db(map[7 := row], map[], {}, map[10 := Turn(7, InProgress, 0, None)], map[], map[], map[], [])
  }

  lemma OneRunningIsSound()
    ensures TurnsSound(OneRunning()) && RunningOf(OneRunning(), 7) == {10} && RunningTurn(OneRunning(), 7) == Some(10)
  {
    var db := OneRunning();
    assert TurnsOf(db, 7) == {10} && RunningOf(db, 7) == {10};
    NewestUnique(db.turns, {10}, 10);
  }

  lemma SecondTurnRuns(db: Db, a: Attempt, worker: Id)
    requires Reaches(db, a, worker) && StartsBeside(db, a.envelope)
    ensures var s, t := a.envelope.session, a.envelope.payload.turn;
      RunningOf(Judge(db, a, worker).db, s) == RunningOf(db, s) + {t} && t !in RunningOf(db, s)
  {
    hide Judge, Reaches, Newest, TurnStamp;
    JudgeChangesTurns(db, a, worker);
    StartedBeside(db, a, worker);
  }

  /** A header and a payload that disagree do leave two turns running. */
  lemma DisagreeingHeaderStartsTwo()
    ensures exists db: Db, a: Attempt, worker: Id ::
      TurnsSound(db) && Reaches(db, a, worker) && StartsBeside(db, a.envelope)
      && |RunningOf(Judge(db, a, worker).db, a.envelope.session)| == 2
  {
    hide Judge, TurnsSound, RunningOf, RunningTurn;
    var db, a := OneRunning(), Attempt(Envelope(7, Some(10), 1, TurnStatus(11, Started), 100), 5, NoFault, Stored);
    OneRunningIsSound();
    assert Reaches(db, a, 2) && StartsBeside(db, a.envelope);
    SecondTurnRuns(db, a, 2);
    assert RunningOf(Judge(db, a, 2).db, 7) == {10, 11};
  }

  predicate AllAgree(queue: seq<Attempt>) {
    forall i :: 0 <= i < |queue| ==> HeaderAgrees(queue[i].envelope)
  }

  lemma OverIsTransitive(a: Db, b: Db, c: Db)
    requires OverStaysOver(a, b) && OverStaysOver(b, c)
    ensures OverStaysOver(a, c)
  {
  }

  /** Whole batches of envelopes whose headers agree keep the turn state machine sound. */
  lemma {:induction false} BatchKeepsOneRunningTurn(db: Db, queue: seq<Attempt>, worker: Id)
    requires TurnsSound(db) && AllAgree(queue)
    ensures TurnsSound(SettleAll(Opening(db), queue, worker).db)
    ensures OverStaysOver(db, SettleAll(Opening(db), queue, worker).db)
    ensures TurnsSound(Flush(db, queue, worker).db) && OverStaysOver(db, Flush(db, queue, worker).db)
  {
    hide Judge, TurnsSound, OverStaysOver, Reaches, StartsBeside, MoveCursors;
    if queue == [] {
      OverIsReflexive(db);
    } else {
      var front, last := queue[..|queue| - 1], queue[|queue| - 1];
      BatchKeepsOneRunningTurn(db, front, worker);
      var b := SettleAll(Opening(db), front, worker);
      KeepsOneRunningTurnUnless(b.db, last, worker);
      AgreeingHeadersNeverStartBeside(b.db, last.envelope);
      OverIsTransitive(db, b.db, Judge(b.db, last, worker).db);
    }
    var done := SettleAll(Opening(db), queue, worker);
    CursorsMoveNoTurn(done.db, done.acks, worker);
    OverIsTransitive(db, done.db, MoveCursors(done.db, done.acks, worker));
  }

  lemma OverIsReflexive(db: Db)
    ensures OverStaysOver(db, db)
  {
  }

  lemma CursorsMoveNoTurn(db: Db, acks: map<Id, nat>, worker: Id)
    requires TurnsSound(db)
    ensures TurnsSound(MoveCursors(db, acks, worker))
    ensures OverStaysOver(db, MoveCursors(db, acks, worker))
  {
    ChangeKeepsSound(db, MoveCursors(db, acks, worker), 0, None, Same);
  }
}
