/**
 What each kind of envelope does: when it is applied, what the store and the lists then hold, and why it is
 refused. Everything is stated over the rows and the fields of the envelope.
 */
module IngestEffects {
  import opened Common
  import opened Json
  import opened IngestStore
  import opened IngestLaws
  import SandboxStatus

  /** It comes from the worker that holds the session, is not oversized, is new, and nothing fails under it. */
  predicate Arrives(db: Db, a: Attempt, worker: Id) {
    var s := a.envelope.session;
    && s in db.sessions && db.sessions[s].worker == Some(worker) && db.sessions[s].lease != None
    && a.envelope.size <= 1_048_576 && (s, a.envelope.seqno) !in db.ledger && a.fault == NoFault
  }

  /** The store with the envelope's ledger row. */
  function Claimed(db: Db, a: Attempt): Db {
    db.(ledger := db.ledger + {(a.envelope.session, a.envelope.seqno)})
  }

  function Refused(db: Db, reason: string): Verdict {
    Verdict(Rejected(reason), db, NOTHING)
  }

  /** The turn named by the header or, if it names none, by a field of the payload. */
  function Named(header: Option<Id>, raw: RawId): Option<Id> {
    match (header, raw)
    case (Some(id), _) => Some(id)
    case (None, GoodId(id)) => Some(id)
    case (None, _) => None
  }

  function Owned(db: Db, t: Id, s: Id): bool {
    t in db.turns && db.turns[t].session == s
  }

  /** The store with one more event in the log of the session, and the wake that tells it. */
  function WithEvent(db: Db, a: Attempt, event: Event): Verdict {
    var s, claimed := a.envelope.session, Claimed(db, a);
    var log := Events(db, s);
    Verdict(Applied, claimed.(events := db.events[s := log + [event]]), NOTHING.(wakes := [Wake(s, |log| + 1, event)]))
  }

  /** Reads and checks see the claimed row as little as the store sees them. */
  lemma SameReads(db: Db, a: Attempt)
    ensures LatestTurn(Claimed(db, a), a.envelope.session) == LatestTurn(db, a.envelope.session)
    ensures RunningTurn(Claimed(db, a), a.envelope.session) == RunningTurn(db, a.envelope.session)
    ensures TurnStamp(Claimed(db, a), a.envelope.session, a.now) == TurnStamp(db, a.envelope.session, a.now)
  {
    var s := a.envelope.session;
    assert TurnsOf(Claimed(db, a), s) == TurnsOf(db, s) && RunningOf(Claimed(db, a), s) == RunningOf(db, s);
  }

  /** The verdict on an envelope that arrives, by way of its two checks. */
  lemma Arrived(db: Db, a: Attempt, worker: Id)
    requires Arrives(db, a, worker) && !a.envelope.payload.WorkspaceReaped?
    ensures var v, reason := Judge(db, a, worker), Validate(Claimed(db, a), a.envelope, worker);
      if reason.Some? then v == Refused(db, reason.value)
      else
        var r := Apply(Claimed(db, a), a);
        if r.Kept? then v == Verdict(Applied, r.db, Append(r.lists, Receipts(a.envelope)))
        else v == OnUndone(db, r.cause, r.lists)
  {
    hide Validate, Apply;
    NeverTransient(Claimed(db, a), a);
  }

  lemma Plain(lists: Lists)
    ensures Append(lists, NOTHING) == lists
  {
  }

  // ---------------------------------------------------------------- turns

  lemma StartedDoes(db: Db, a: Attempt, worker: Id)
    requires a.envelope.payload.TurnStatus? && a.envelope.payload.mark == Started
    ensures var v, s, t := Judge(db, a, worker), a.envelope.session, a.envelope.payload.turn;
      var named, running := Named(a.envelope.turn, GoodId(t)), RunningTurn(db, s);
      && (v.fate == Applied <==>
            Arrives(db, a, worker) && (running == None || running == named) && (t in db.turns ==> Owned(db, t, s)))
      && (v.fate == Applied ==> v == Verdict(Applied, Claimed(db, a).(
            turns := if t in db.turns then db.turns
                     else db.turns[t := Turn(s, InProgress, TurnStamp(db, s, a.now), None)]), NOTHING))
      && (Arrives(db, a, worker) && v.fate != Applied ==>
            v == Refused(db, if running != None && running != named then TURN_MISMATCH else INGEST_ERROR))
  {
    hide Judge, Newest, TurnStamp, LatestTurn;
    SameReads(db, a);
    if Arrives(db, a, worker) { Arrived(db, a, worker); }
    OnlyArrivals(db, a, worker);
  }

  /** Only what arrives is applied. */
  lemma OnlyArrivals(db: Db, a: Attempt, worker: Id)
    ensures Judge(db, a, worker).fate == Applied ==> Arrives(db, a, worker)
  {
    hide Validate, Apply;
  }

  lemma EndedDoes(db: Db, a: Attempt, worker: Id)
    requires a.envelope.payload.TurnStatus? && a.envelope.payload.mark.Ended?
    ensures var v, s, t := Judge(db, a, worker), a.envelope.session, a.envelope.payload.turn;
      var named, outcome := Named(a.envelope.turn, GoodId(t)), a.envelope.payload.mark.outcome;
      && (v.fate == Applied <==> Arrives(db, a, worker) && LatestTurn(db, s) == named && Owned(db, t, s))
      && (v.fate == Applied ==>
            v == Verdict(Applied, Claimed(db, a).(turns := db.turns[t := db.turns[t].(state := Over(outcome))]),
                         NOTHING))
      && (Arrives(db, a, worker) && v.fate != Applied ==>
            v == Refused(db, if LatestTurn(db, s) != named then TURN_MISMATCH else UNKNOWN_TURN))
  {
    hide Judge, Newest, TurnStamp;
    SameReads(db, a);
    if Arrives(db, a, worker) { Arrived(db, a, worker); }
    OnlyArrivals(db, a, worker);
  }

  function Floored(n: int): nat {
    if n < 0 then 0 else n
  }

  lemma UsageDoes(db: Db, a: Attempt, worker: Id)
    requires a.envelope.payload.Usage?
    ensures var v, s, p := Judge(db, a, worker), a.envelope.session, a.envelope.payload;
      var named, counts := Named(a.envelope.turn, GoodId(p.turn)), p.counts;
      var closing := if p.closing == "" then "completed" else p.closing;
      var closes := closing == "completed" || closing == "failed" || closing == "cancelled";
      var total := if counts.total.Some? then Floored(counts.total.value) else 0;
      var usage := TokenUsage(Floored(counts.prompt), Floored(counts.completion), Floored(counts.cacheRead),
                              Floored(counts.cacheWrite), total);
      && (v.fate == Applied <==>
            && Arrives(db, a, worker) && LatestTurn(db, s) == named && Owned(db, p.turn, s)
            && p.turn !in db.logs && closes)
      && (v.fate == Applied ==> v == Verdict(Applied, Claimed(db, a).(
            turns := db.turns[p.turn := db.turns[p.turn].(usage := Some(usage))],
            logs := db.logs[p.turn := TurnLog(s, closing, usage, p.error)]), NOTHING))
      && (Arrives(db, a, worker) && v.fate != Applied ==>
            v == Refused(db, if LatestTurn(db, s) != named then TURN_MISMATCH
                             else if !Owned(db, p.turn, s) then UNKNOWN_TURN else INGEST_ERROR))
  {
    hide Judge, Newest, TurnStamp;
    SameReads(db, a);
    if Arrives(db, a, worker) { Arrived(db, a, worker); }
    OnlyArrivals(db, a, worker);
  }

  // ---------------------------------------------------------------- items

  lemma ItemAddedDoes(db: Db, a: Attempt, worker: Id)
    requires a.envelope.payload.ItemAdded?
    ensures var v, s, p := Judge(db, a, worker), a.envelope.session, a.envelope.payload;
      var named, running := Named(a.envelope.turn, p.raw), RunningTurn(db, s);
      && (v.fate == Applied <==>
            && Arrives(db, a, worker) && running != None && running == named && (p.raw.NoId? || p.raw.GoodId?)
            && (p.item in db.items ==> db.items[p.item].tenant == db.sessions[s].tenant))
      && (v.fate == Applied ==>
            var item := Item(db.sessions[s].tenant, s, Named(None, p.raw), p.kind, p.data);
            v == Verdict(Applied, Claimed(db, a).(
              items := if p.item in db.items then db.items else db.items[p.item := item]), NOTHING))
      && (Arrives(db, a, worker) && v.fate != Applied ==>
            v == Refused(db, if named == None then INVALID_ENVELOPE
                             else if running != named then TURN_MISMATCH else INGEST_ERROR))
  {
    hide Judge, Newest, TurnStamp;
    SameReads(db, a);
    if Arrives(db, a, worker) { Arrived(db, a, worker); }
    OnlyArrivals(db, a, worker);
  }

  lemma ItemDoneDoes(db: Db, a: Attempt, worker: Id)
    requires a.envelope.payload.ItemDone?
    ensures var v, s, p := Judge(db, a, worker), a.envelope.session, a.envelope.payload;
      var named, known := Named(a.envelope.turn, p.raw), p.item in db.items && db.items[p.item].session == s;
      && (v.fate == Applied <==>
            && Arrives(db, a, worker) && named != None && LatestTurn(db, s) == named && known && !p.raw.BadId?
            && (p.raw.GoodId? && db.items[p.item].turn != None ==> db.items[p.item].turn == Some(p.raw.id)))
      && (v.fate == Applied ==>
            var item := db.items[p.item];
            v == Verdict(Applied, Claimed(db, a).(
              items := db.items[p.item := Item(item.tenant, item.session, item.turn, item.kind, item.data + p.data)]),
              NOTHING))
      && (Arrives(db, a, worker) && v.fate != Applied ==>
            v == Refused(db, if named == None then INVALID_ENVELOPE
                             else if LatestTurn(db, s) == named && !known then UNKNOWN_TURN else TURN_MISMATCH))
  {
    hide Judge, Newest, TurnStamp;
    SameReads(db, a);
    if Arrives(db, a, worker) { Arrived(db, a, worker); }
    OnlyArrivals(db, a, worker);
  }

  // ---------------------------------------------------------------- events and session rows

  lemma EventReportDoes(db: Db, a: Attempt, worker: Id)
    requires a.envelope.payload.EventReport?
    ensures var v, s, p := Judge(db, a, worker), a.envelope.session, a.envelope.payload;
      var named := Named(a.envelope.turn, if p.raw.NoId? || p.raw.EmptyId? then p.dataTurn else p.raw);
      && (v.fate == Applied <==>
            Arrives(db, a, worker) && p.standing == PublicType && (named == None || LatestTurn(db, s) == named))
      && (v.fate == Applied ==> v == WithEvent(db, a, Event(p.kind, p.data)))
      && (Arrives(db, a, worker) && v.fate != Applied ==>
            v == Refused(db, if p.standing == UnknownType then UNKNOWN_EVENT
                             else if p.standing == LiveType then LIVE_EVENT else TURN_MISMATCH))
  {
    hide Judge, Newest, TurnStamp, Events;
    SameReads(db, a);
    if Arrives(db, a, worker) { Arrived(db, a, worker); }
    OnlyArrivals(db, a, worker);
    SameLog(db, a);
  }

  lemma SameLog(db: Db, a: Attempt)
    ensures Events(Claimed(db, a), a.envelope.session) == Events(db, a.envelope.session)
    ensures forall rows ::
      Events(Claimed(db, a).(sessions := rows), a.envelope.session) == Events(db, a.envelope.session)
    ensures forall w :: Append(NOTHING.(wakes := [w]), NOTHING) == NOTHING.(wakes := [w])
  {
  }

  lemma ErrorReportDoes(db: Db, a: Attempt, worker: Id)
    requires a.envelope.payload.ErrorReport?
    ensures var v, s, p := Judge(db, a, worker), a.envelope.session, a.envelope.payload;
      var named := Named(a.envelope.turn, p.raw);
      var message, code := if p.message.Some? then p.message.value else "", if p.code.Some? then p.code.value else "";
      && (v.fate == Applied <==> Arrives(db, a, worker) && (named == None || LatestTurn(db, s) == named))
      && (v.fate == Applied ==> v == WithEvent(db, a, Event("agent.session.error",
            map["message" := Text(message), "code" := Text(if code == "" then "internal" else code)])))
      && (Arrives(db, a, worker) && v.fate != Applied ==> v == Refused(db, TURN_MISMATCH))
  {
    hide Judge, Newest, TurnStamp, Events;
    SameReads(db, a);
    if Arrives(db, a, worker) { Arrived(db, a, worker); }
    OnlyArrivals(db, a, worker);
    SameLog(db, a);
  }

  lemma SessionStatusDoes(db: Db, a: Attempt, worker: Id)
    requires a.envelope.payload.SessionStatus?
    ensures var v, s, p := Judge(db, a, worker), a.envelope.session, a.envelope.payload;
      var named := Named(a.envelope.turn, p.raw);
      var says := p.status != None || (p.actions != None && p.actions.value != []);
      && (v.fate == Applied <==> Arrives(db, a, worker) && (named == None || LatestTurn(db, s) == named) && says)
      && (v.fate == Applied ==>
            var row := db.sessions[s];
            v == Verdict(Applied, Claimed(db, a).(sessions := db.sessions[s := row.(
                   status := if p.status == None then row.status else p.status.value,
                   actions := if p.actions == None then row.actions else p.actions.value)]), NOTHING))
      && (Arrives(db, a, worker) && v.fate != Applied ==>
            v == Refused(db, if named != None && LatestTurn(db, s) != named then TURN_MISMATCH else INVALID_ENVELOPE))
  {
    hide Judge, Newest, TurnStamp;
    SameReads(db, a);
    if Arrives(db, a, worker) { Arrived(db, a, worker); }
    OnlyArrivals(db, a, worker);
  }

  /** A report for a hosted session changes its sandbox columns and tells the notice; the status machine says how. */
  lemma SandboxReportDoes(db: Db, a: Attempt, worker: Id)
    requires a.envelope.payload.SandboxReport?
    ensures var v, s, p := Judge(db, a, worker), a.envelope.session, a.envelope.payload;
      var named := Named(a.envelope.turn, p.raw);
      && (v.fate == Applied <==>
            Arrives(db, a, worker) && !p.phase.Unknown? && (named == None || LatestTurn(db, s) == named))
      && (v.fate == Applied && !db.sessions[s].sandbox.hosted ==> v == Verdict(Applied, Claimed(db, a), NOTHING))
      && (v.fate == Applied && db.sessions[s].sandbox.hosted ==>
            var (row, notice) := SandboxStatus.Transition(db.sessions[s].sandbox, p.phase, p.fields, a.now);
            notice.Some? &&
            var told := WithEvent(db, a, Event(notice.value.name, notice.value.data));
            v == told.(db := told.db.(sessions := db.sessions[s := db.sessions[s].(sandbox := row)])))
      && (Arrives(db, a, worker) && v.fate != Applied ==>
            v == Refused(db, if p.phase.Unknown? then INVALID_ENVELOPE else TURN_MISMATCH))
  {
    hide Judge, Newest, TurnStamp, Events, SandboxStatus.Transition;
    SameReads(db, a);
    if Arrives(db, a, worker) { Arrived(db, a, worker); }
    OnlyArrivals(db, a, worker);
    SameLog(db, a);
    if a.envelope.session in db.sessions {
      KnownPhaseTells(db.sessions[a.envelope.session].sandbox, a.envelope.payload.phase, a.envelope.payload.fields,
                      a.now);
    }
  }

  lemma KnownPhaseTells(row: SandboxStatus.Row, phase: SandboxStatus.Phase, fields: SandboxStatus.Fields, now: Time)
    ensures SandboxStatus.Transition(row, phase, fields, now).1.None? <==> phase.Unknown?
  {
  }

  // ---------------------------------------------------------------- receipts, exports and artifacts

  lemma ReceiptsDo(db: Db, a: Attempt, worker: Id)
    requires Arrives(db, a, worker)
    ensures var v, s, n, p := Judge(db, a, worker), a.envelope.session, a.envelope.seqno, a.envelope.payload;
      && (p.SessionStopped? ==> v == Verdict(Applied, Claimed(db, a), Lists([], [], [], [s], [s])))
      && (p.LifecycleStart? ==>
            v == Verdict(Applied, Claimed(db, a), Lists([], [], [StartIntent(s, n, p.cause)], [], [])))
      && (p.LifecycleStop? ==>
            v == Verdict(Applied, Claimed(db, a), Lists([], [], [StopIntent(s, n, p.reason, p.liveMs)], [], [])))
  {
    hide Judge, RunningTurn, LatestTurn;
    if !a.envelope.payload.WorkspaceReaped? {
      Arrived(db, a, worker);
    }
  }

  lemma ReapedIsReceipt(db: Db, a: Attempt, worker: Id)
    requires a.envelope.payload.WorkspaceReaped?
    ensures Judge(db, a, worker)
      == if a.envelope.session in db.sessions then Verdict(Receipt, db, NOTHING) else Refused(db, NOT_LEASED)
  {
  }

  /** The reply to a presign; completing an upload has none. */
  function Reply(a: Attempt, ok: bool): Lists {
    if a.envelope.payload.ArtifactPresign?
    then Lists([], [PresignReply(a.envelope.session, a.envelope.seqno, ok)], [], [], [])
    else Lists([], [], [], [], [])
  }

  predicate WellFormed(p: Payload) {
    (p.ArtifactPresign? && p.wellFormed) || (p.ArtifactCompleted? && p.wellFormed)
  }

  lemma ArtifactDoes(db: Db, a: Attempt, worker: Id)
    requires a.envelope.payload.ArtifactPresign? || a.envelope.payload.ArtifactCompleted?
    requires Arrives(db, a, worker)
    ensures Judge(db, a, worker) ==
      if !WellFormed(a.envelope.payload) then Refused(db, INVALID_ENVELOPE)
      else if a.artifact == Stored then
        Verdict(Applied, Claimed(db, a).(writes := db.writes + [KeyOf(a)]), Reply(a, true))
      else Verdict(Rejected(a.artifact.code), db, Reply(a, false))
  {
    hide Judge, RunningTurn, LatestTurn;
    Arrived(db, a, worker);
  }

  // ---------------------------------------------------------------- what does not arrive, and what fails on the way

  /** A failure: tried again later if it is transient, refused for good if not. */
  function Struck(db: Db, a: Attempt, lists: Lists): Verdict
    requires a.fault.Fault?
  {
    Verdict(if a.fault.transient then Stalled else Rejected(INGEST_ERROR), db, lists)
  }

  /** The session is leased to the worker and the envelope is of a size to be looked at. */
  predicate Heeded(db: Db, a: Attempt, worker: Id) {
    var s := a.envelope.session;
    && s in db.sessions && db.sessions[s].worker == Some(worker) && db.sessions[s].lease != None
    && a.envelope.size <= 1_048_576 && !a.envelope.payload.WorkspaceReaped?
  }

  lemma UnheededIsRefused(db: Db, a: Attempt, worker: Id)
    requires !Heeded(db, a, worker) && !a.envelope.payload.WorkspaceReaped?
    ensures var s := a.envelope.session;
      var held := s in db.sessions && db.sessions[s].worker == Some(worker) && db.sessions[s].lease != None;
      Judge(db, a, worker) == Refused(db, if held then OVERSIZE else NOT_LEASED)
  {
  }

  predicate FailsAt(a: Attempt, place: Place) {
    a.fault.Fault? && a.fault.place == place
  }

  predicate Known(db: Db, a: Attempt) {
    (a.envelope.session, a.envelope.seqno) in db.ledger
  }

  /** A failing claim, and a failing read of a new envelope, leave nothing at all. */
  lemma EarlyFailuresLeaveNothing(db: Db, a: Attempt, worker: Id)
    requires Heeded(db, a, worker)
    requires FailsAt(a, AtClaim) || (FailsAt(a, AtRead) && !Known(db, a))
    ensures Judge(db, a, worker) == Struck(db, a, NOTHING)
  {
  }

  /** A known envelope is skipped: a stop is noted again, a presign runs again for its reply, nothing else happens. */
  lemma KnownIsSkipped(db: Db, a: Attempt, worker: Id)
    requires Heeded(db, a, worker) && Known(db, a) && !FailsAt(a, AtClaim)
    ensures var v, p := Judge(db, a, worker), a.envelope.payload;
      var again :=
        if FailsAt(a, AtWrite) then Struck(db, a, if a.fault.transient then NOTHING else Reply(a, false))
        else if a.artifact.Refused? then Verdict(Rejected(a.artifact.code), db, Reply(a, false))
        else if FailsAt(a, AtRelease) then Struck(db, a, Reply(a, true))
        else Verdict(Skipped, db.(writes := db.writes + [(a.envelope.session, a.envelope.seqno)]), Reply(a, true));
      && (p.SessionStopped? ==> v == Verdict(Skipped, db, Lists([], [], [], [], [a.envelope.session])))
      && (!p.SessionStopped? && !p.ArtifactPresign? ==> v == Verdict(Skipped, db, NOTHING))
      && (p.ArtifactPresign? ==> v == again)
  {
    hide RunningTurn, LatestTurn;
  }

  /** The checks that come before any write, over the fields of the envelope and the turns of its session. */
  predicate Admitted(db: Db, e: Envelope) {
    var p, running, latest := e.payload, RunningTurn(db, e.session), LatestTurn(db, e.session);
    match p
    case TurnStatus(t, Started) => running == None || running == Named(e.turn, GoodId(t))
    case TurnStatus(t, Ended(_)) => latest == Named(e.turn, GoodId(t))
    case ItemAdded(_, _, raw, _) => running != None && running == Named(e.turn, raw)
    case ItemDone(_, raw, _) => latest != None && latest == Named(e.turn, raw)
    case Usage(t, _, _, _) => latest == Named(e.turn, GoodId(t))
    case EventReport(_, standing, raw, dataTurn, _) =>
      standing == PublicType && MayName(latest, Named(e.turn, if raw.NoId? || raw.EmptyId? then dataTurn else raw))
    case SessionStatus(raw, status, actions) =>
      MayName(latest, Named(e.turn, raw)) && (status != None || (actions != None && actions.value != []))
    case ErrorReport(raw, _, _) => MayName(latest, Named(e.turn, raw))
    case SandboxReport(raw, phase, _) => !phase.Unknown? && MayName(latest, Named(e.turn, raw))
    case ArtifactPresign(wellFormed) => wellFormed
    case ArtifactCompleted(wellFormed) => wellFormed
    case _ => true
  }

  predicate MayName(latest: Option<Id>, named: Option<Id>) {
    named == None || named == latest
  }

  lemma AdmittedIsValid(db: Db, e: Envelope, worker: Id)
    requires LeasedTo(db, e.session, worker) && e.size <= MAX_MESSAGE_BYTES && !e.payload.WorkspaceReaped?
    ensures Validate(db, e, worker).None? <==> Admitted(db, e)
  {
    hide Newest;
  }

  /**
   A new envelope that the checks refuse is refused as if nothing failed. Else a failing write leaves the store as it
   was, and so does a failing release; but of what was handed out only the wakes are taken back.
   */
  lemma LateFailures(db: Db, a: Attempt, worker: Id)
    requires Heeded(db, a, worker) && !Known(db, a) && (FailsAt(a, AtWrite) || FailsAt(a, AtRelease))
    ensures var v, calm := Judge(db, a, worker), Judge(db, a.(fault := NoFault), worker);
      var p := a.envelope.payload;
      var artifact := p.ArtifactPresign? || p.ArtifactCompleted?;
      && (!Admitted(db, a.envelope) ==> v == calm && v.fate.Rejected?)
      && (Admitted(db, a.envelope) && FailsAt(a, AtWrite) ==>
            v == Struck(db, a, if artifact && !a.fault.transient then Reply(a, false) else NOTHING))
      && (Admitted(db, a.envelope) && FailsAt(a, AtRelease) ==>
            v == if calm.fate == Applied then Struck(db, a, calm.lists.(wakes := [])) else calm)
  {
    hide Validate, Apply, Admitted;
    SameReads(db, a);
    AdmittedIsValid(Claimed(db, a), a.envelope, worker);
    assert Admitted(Claimed(db, a), a.envelope) == Admitted(db, a.envelope) by { AdmittedAlike(db, a); }
    SameApply(Claimed(db, a), a);
    NeverTransient(Claimed(db, a), a);
  }

  lemma AdmittedAlike(db: Db, a: Attempt)
    ensures Admitted(Claimed(db, a), a.envelope) == Admitted(db, a.envelope)
  {
    hide LatestTurn, RunningTurn;
    SameReads(db, a);
  }

  lemma SameApply(db: Db, a: Attempt)
    requires a.envelope.session in db.sessions
    ensures Apply(db, a.(fault := NoFault)) == Apply(db, a)
  {
  }

  // ---------------------------------------------------------------- what a batch hands out

  /** An envelope of a session that had not stalled, with its verdict. */
  datatype Hearing = Hearing(attempt: Attempt, verdict: Verdict)

  function Hearings(b: Batch, queue: seq<Attempt>, worker: Id): seq<Hearing> {
    if queue == [] then []
    else
      var front, last := queue[..|queue| - 1], queue[|queue| - 1];
      var before := SettleAll(b, front, worker);
      Hearings(b, front, worker)
      + (if last.envelope.session in before.stalled then [] else [Hearing(last, Judge(before.db, last, worker))])
  }

  /** Everything the verdicts hand out, list by list. */
  function HandedOut(hs: seq<Hearing>): Lists {
    if hs == [] then Lists([], [], [], [], [])
    else
      var before, more := HandedOut(hs[..|hs| - 1]), hs[|hs| - 1].verdict.lists;
      Lists(before.wakes + more.wakes, before.replies + more.replies, before.intents + more.intents,
            before.wipes + more.wipes, before.stopped + more.stopped)
  }

  /** One line per refused envelope, with its number and the reason. */
  function RefusedIn(hs: seq<Hearing>): seq<Refusal> {
    if hs == [] then []
    else
      var last := hs[|hs| - 1];
      var e := last.attempt.envelope;
      RefusedIn(hs[..|hs| - 1])
      + (if last.verdict.fate.Rejected? then [Refusal(e.session, e.seqno, last.verdict.fate.reason)] else [])
  }

  /** The largest number settled of a session. */
  function LargestSettled(hs: seq<Hearing>, s: Id): Option<nat> {
    if hs == [] then None
    else
      var before, last := LargestSettled(hs[..|hs| - 1], s), hs[|hs| - 1];
      var n := last.attempt.envelope.seqno;
      if last.attempt.envelope.session != s || last.verdict.fate.Stalled? then before
      else if before.Some? && before.value > n then before
      else Some(n)
  }

  lemma HearingsGrow(hs: seq<Hearing>, h: Hearing, s: Id)
    ensures var e, v, before := h.attempt.envelope, h.verdict, LargestSettled(hs, s);
      && HandedOut(hs + [h]) == Append(HandedOut(hs), v.lists)
      && RefusedIn(hs + [h])
         == RefusedIn(hs) + (if v.fate.Rejected? then [Refusal(e.session, e.seqno, v.fate.reason)] else [])
      && LargestSettled(hs + [h], s)
         == (if e.session != s || v.fate.Stalled? || (before.Some? && before.value > e.seqno) then before
             else Some(e.seqno))
  {
    assert (hs + [h])[..|hs|] == hs;
  }

  predicate AckedUpTo(acks: map<Id, nat>, s: Id, n: Option<nat>) {
    if s in acks then n == Some(acks[s]) else n == None
  }

  lemma BookTellsOne(b: Batch, h: Hearing, hs: seq<Hearing>, s: Id)
    requires b.lists == HandedOut(hs) && b.rejected == RefusedIn(hs) && AckedUpTo(b.acks, s, LargestSettled(hs, s))
    ensures var r, more := Book(b, h.attempt, h.verdict), hs + [h];
      r.lists == HandedOut(more) && r.rejected == RefusedIn(more) && AckedUpTo(r.acks, s, LargestSettled(more, s))
  {
    hide HandedOut, RefusedIn, LargestSettled;
    HearingsGrow(hs, h, s);
    assert b.rejected + [] == b.rejected;
  }

  /** A batch hands out what its verdicts hand out, lists what they refuse, and acks the largest number it settled. */
  lemma {:induction false} BatchTells(db: Db, queue: seq<Attempt>, worker: Id, s: Id)
    ensures var b, hs := SettleAll(Opening(db), queue, worker), Hearings(Opening(db), queue, worker);
      b.lists == HandedOut(hs) && b.rejected == RefusedIn(hs) && AckedUpTo(b.acks, s, LargestSettled(hs, s))
    ensures var b, hs := Flush(db, queue, worker), Hearings(Opening(db), queue, worker);
      b.lists == HandedOut(hs) && b.rejected == RefusedIn(hs) && AckedUpTo(b.acks, s, LargestSettled(hs, s))
  {
    hide Judge, Book, HandedOut, RefusedIn, LargestSettled, AckedUpTo, MoveCursors;
    if queue == [] {
      NothingHeard(s);
    } else {
      var front, last := queue[..|queue| - 1], queue[|queue| - 1];
      BatchTells(db, front, worker, s);
      var before, hs := SettleAll(Opening(db), front, worker), Hearings(Opening(db), front, worker);
      if last.envelope.session in before.stalled {
        assert hs + [] == hs;
      } else {
        BookTellsOne(before, Hearing(last, Judge(before.db, last, worker)), hs, s);
      }
    }
  }

  lemma NothingHeard(s: Id)
    ensures HandedOut([]) == NOTHING && RefusedIn([]) == [] && AckedUpTo(map[], s, LargestSettled([], s))
  {
  }
}
