/**
 The ingest code: one transaction per batch, one savepoint per envelope, a cache of turn reads.

 Exceptions are values here: a method that may raise returns the cause, or `None`. Each method is
 proved against the functions of `IngestStore`, which read turns afresh and know no cache.
 */
module Ingest {
  import opened Common
  import opened IngestStore
  import opened IngestLaws
  import opened IngestBatches
  import opened IngestTurns
  import SandboxStatus

  /** The open transaction: the store as it will be committed, or dropped. */
  class Transaction {
    var db: Db

    constructor (db: Db)
      ensures this.db == db
    {
      this.db := db;
    }
  }

  /** Per-batch cache of turn lookups, dropped for a session when a `turn.status` applies there. */
  class TurnCache {
    var running: map<Id, Option<Id>>
    var latest: map<Id, Option<Id>>

    /** Every entry is what a fresh read would return. */
    ghost predicate Coherent(db: Db)
      reads this
    {
      && (forall s :: s in running ==> running[s] == RunningTurn(db, s))
      && (forall s :: s in latest ==> latest[s] == LatestTurn(db, s))
    }

    constructor ()
      ensures running == map[] && latest == map[]
    {
      running, latest := map[], map[];
    }

    method RunningId(db: Db, s: Id) returns (r: Option<Id>)
      requires Coherent(db)
      modifies this
      ensures Coherent(db) && r == RunningTurn(db, s)
    {
      if s !in running {
        running := running[s := RunningTurn(db, s)];
      }
      r := running[s];
    }

    method LatestId(db: Db, s: Id) returns (r: Option<Id>)
      requires Coherent(db)
      modifies this
      ensures Coherent(db) && r == LatestTurn(db, s)
    {
      if s !in latest {
        latest := latest[s := LatestTurn(db, s)];
      }
      r := latest[s];
    }

    method Invalidate(s: Id)
      modifies this
      ensures running == old(running) - {s} && latest == old(latest) - {s}
    {
      running := running - {s};
      latest := latest - {s};
    }
  }

  class IngestOutcome {
    var acks: map<Id, nat>
    var wakes: seq<Wake>
    var rejected: seq<Refusal>
    var presignReplies: seq<Reply>
    var wipes: seq<Id>
    var lifecycle: seq<Intent>
    var retry: seq<Attempt>
    var stopped: seq<Id>

    constructor ()
      ensures acks == map[] && rejected == [] && retry == [] && AsLists() == NOTHING
    {
      acks, rejected, retry := map[], [], [];
      wakes, presignReplies, wipes, lifecycle, stopped := [], [], [], [], [];
    }

    function AsLists(): Lists
      reads this
    {
      Lists(wakes, presignReplies, lifecycle, wipes, stopped)
    }

    method Acknowledge(s: Id, n: nat)
      modifies this`acks
      ensures acks == Raised(old(acks), s, n)
    {
      acks := acks[s := Max(if s in acks then acks[s] else 0, n)];
    }
  }

  datatype Claim = Claimed | AlreadyThere | ClaimError(transient: bool)

  /** Insert the ledger row. */
  method ClaimRow(tx: Transaction, a: Attempt) returns (r: Claim)
    modifies tx
    ensures a.fault.Fault? && a.fault.place.AtClaim? ==> r == ClaimError(a.fault.transient)
    ensures !(a.fault.Fault? && a.fault.place.AtClaim?) ==>
              r == (if KeyOf(a) in old(tx.db).ledger then AlreadyThere else Claimed)
    ensures tx.db == if r.Claimed? then old(tx.db).(ledger := old(tx.db).ledger + {KeyOf(a)}) else old(tx.db)
  {
    if a.fault.Fault? && a.fault.place.AtClaim? { return ClaimError(a.fault.transient); }
    if KeyOf(a) in tx.db.ledger { return AlreadyThere; }
    tx.db := tx.db.(ledger := tx.db.ledger + {KeyOf(a)});
    return Claimed;
  }

  method ValidateEnvelope(db: Db, e: Envelope, worker: Id, cache: TurnCache) returns (r: Option<string>)
    requires cache.Coherent(db)
    modifies cache
    ensures cache.Coherent(db) && r == Validate(db, e, worker)
  {
    var s, p := e.session, e.payload;
    if e.size > MAX_MESSAGE_BYTES { return Some(OVERSIZE); }
    if !LeasedTo(db, s, worker) { return Some(NOT_LEASED); }
    if p.SandboxReport? && p.phase.Unknown? { return Some(INVALID_ENVELOPE); }
    if p.ArtifactPresign? { return if p.wellFormed then None else Some(INVALID_ENVELOPE); }
    if p.ArtifactCompleted? { return if p.wellFormed then None else Some(INVALID_ENVELOPE); }
    if p.SessionStopped? || p.WorkspaceReaped? || p.LifecycleStart? || p.LifecycleStop? { return None; }
    if p.EventReport? {
      if p.standing.UnknownType? { return Some(UNKNOWN_EVENT); }
      if p.standing.LiveType? { return Some(LIVE_EVENT); }
    }
    var turn := EnvelopeTurn(e);
    if (p.ItemAdded? || p.ItemDone? || p.Usage?) && turn.None? { return Some(INVALID_ENVELOPE); }
    if p.TurnStatus? && p.mark.Started? {
      if turn.None? { return Some(INVALID_ENVELOPE); }
      var running := cache.RunningId(db, s);
      return if running.Some? && running != turn then Some(TURN_MISMATCH) else None;
    }
    if p.ItemAdded? {
      var running := cache.RunningId(db, s);
      return if running.None? || running != turn then Some(TURN_MISMATCH) else None;
    }
    if turn.Some? {
      var latest := cache.LatestId(db, s);
      if latest.None? || latest != turn { return Some(TURN_MISMATCH); }
    }
    if p.SessionStatus? && p.status.None? && (p.actions.None? || p.actions.value == []) {
      return Some(INVALID_ENVELOPE);
    }
    return None;
  }

  /** What `_apply` raised, if anything, fits the specification. */
  ghost predicate AppliedAs(spec: Try, raised: Option<Cause>, db: Db, before: Lists, after: Lists) {
    && after == Append(before, spec.lists)
    && (match spec
        case Kept(db', _) => raised.None? && db == db'
        case Undone(cause, _) => raised == Some(cause))
  }

  /** The turn reads of every session but `s` are the same. */
  ghost predicate ReadsElsewhere(db: Db, db': Db, s: Id) {
    forall z :: z != s ==> LatestTurn(db', z) == LatestTurn(db, z) && RunningTurn(db', z) == RunningTurn(db, z)
  }

  lemma ElsewhereUntouched(db: Db, db': Db, s: Id)
    requires forall z :: z != s ==> SameTurns(db, db', z)
    ensures ReadsElsewhere(db, db', s)
  {
    forall z | z != s
      ensures LatestTurn(db', z) == LatestTurn(db, z) && RunningTurn(db', z) == RunningTurn(db, z)
    {
      SameTurnsSameReads(db, db', z);
    }
  }

  method ApplyTurnStatus(tx: Transaction, a: Attempt, t: Id, mark: TurnMark, cache: TurnCache)
    returns (raised: Option<Cause>)
    requires cache.Coherent(tx.db)
    modifies tx, cache
    ensures var spec := ApplyTurn(old(tx.db), a, t, mark);
      spec.lists == NOTHING && (if spec.Kept? then raised.None? && tx.db == spec.db else raised == Some(spec.cause))
    ensures cache.Coherent(old(tx.db))
    ensures raised.None? ==> cache.Coherent(tx.db)
  {
    var s := a.envelope.session;
    ghost var before := tx.db;
    match mark {
      case Started =>
        if !(t in tx.db.turns && tx.db.turns[t].session == s) {
          if t in tx.db.turns { return Some(Error(false)); }
          var turn := Turn(s, InProgress, TurnStamp(tx.db, s, a.now), None);
          tx.db := tx.db.(turns := tx.db.turns[t := turn]);
        }
      case Ended(outcome) =>
        if t !in tx.db.turns || tx.db.turns[t].session != s { return Some(Reject(UNKNOWN_TURN)); }
        tx.db := tx.db.(turns := tx.db.turns[t := tx.db.turns[t].(state := Over(outcome))]);
    }
    ElsewhereUntouched(before, tx.db, s);
    cache.Invalidate(s);
    return None;
  }

  method StoreEvent(tx: Transaction, outcome: IngestOutcome, s: Id, event: Event)
    modifies tx, outcome`wakes
    ensures tx.db == AppendEvent(old(tx.db), s, event).0
    ensures outcome.wakes == old(outcome.wakes) + [AppendEvent(old(tx.db), s, event).1]
  {
    var number := |Events(tx.db, s)| + 1;
    tx.db := tx.db.(events := tx.db.events[s := Events(tx.db, s) + [event]]);
    outcome.wakes := outcome.wakes + [Wake(s, number, event)];
  }

  lemma AppendNothing(l: Lists)
    ensures Append(l, NOTHING) == l
  {
  }

  method ApplyItem(tx: Transaction, a: Attempt) returns (raised: Option<Cause>)
    requires a.envelope.session in tx.db.sessions && (a.envelope.payload.ItemAdded? || a.envelope.payload.ItemDone?)
    modifies tx
    ensures var added := a.envelope.payload.ItemAdded?;
      var spec := if added then ApplyItemAdded(old(tx.db), a) else ApplyItemDone(old(tx.db), a);
      spec.lists == NOTHING && (if spec.Kept? then raised.None? && tx.db == spec.db else raised == Some(spec.cause))
    ensures tx.db.turns == old(tx.db).turns
  {
    var s, p := a.envelope.session, a.envelope.payload;
    if p.ItemAdded? {
      var tenant := tx.db.sessions[s].tenant;
      if p.raw.BadId? || p.raw.EmptyId? { return Some(Error(false)); }
      if p.item in tx.db.items && tx.db.items[p.item].tenant == tenant { return None; }
      if p.item in tx.db.items { return Some(Error(false)); }
      tx.db := tx.db.(items := tx.db.items[p.item := Item(tenant, s, OfRaw(p.raw), p.kind, p.data)]);
      return None;
    }
    if p.item !in tx.db.items || tx.db.items[p.item].session != s { return Some(Reject(UNKNOWN_TURN)); }
    var item := tx.db.items[p.item];
    if p.raw.BadId? { return Some(Reject(TURN_MISMATCH)); }
    if p.raw.GoodId? && item.turn.Some? && p.raw.id != item.turn.value { return Some(Reject(TURN_MISMATCH)); }
    tx.db := tx.db.(items := tx.db.items[p.item := item.(data := item.data + p.data)]);
    return None;
  }

  method ApplyUsage(tx: Transaction, a: Attempt, cache: TurnCache) returns (raised: Option<Cause>)
    requires a.envelope.session in tx.db.sessions && a.envelope.payload.Usage? && cache.Coherent(tx.db)
    modifies tx
    ensures var spec := ApplyTurnUsage(old(tx.db), a);
      spec.lists == NOTHING && (if spec.Kept? then raised.None? && tx.db == spec.db else raised == Some(spec.cause))
    ensures cache.Coherent(old(tx.db)) && (raised.None? ==> cache.Coherent(tx.db))
  {
    var s, p := a.envelope.session, a.envelope.payload;
    ghost var before := tx.db;
    if p.turn !in tx.db.turns || tx.db.turns[p.turn].session != s { return Some(Reject(UNKNOWN_TURN)); }
    var usage := UsageFrom(p.counts);
    tx.db := tx.db.(turns := tx.db.turns[p.turn := tx.db.turns[p.turn].(usage := Some(usage))]);
    if !Loggable(tx.db, p.turn, ClosingStatus(p.closing)) { return Some(Error(false)); }
    tx.db := Logged(tx.db, s, p.turn, ClosingStatus(p.closing), usage, p.error);
    UsageMovesNoRead(before, tx.db, s, p.turn, usage);
    ElsewhereUntouched(before, tx.db, s);
    return None;
  }

  method ApplyEnvelope(tx: Transaction, outcome: IngestOutcome, a: Attempt, cache: TurnCache)
    returns (raised: Option<Cause>)
    requires a.envelope.session in tx.db.sessions && cache.Coherent(tx.db)
    modifies tx, outcome`wakes, outcome`presignReplies, outcome`lifecycle, cache
    ensures AppliedAs(Apply(old(tx.db), a), raised, tx.db, old(outcome.AsLists()), outcome.AsLists())
    ensures cache.Coherent(old(tx.db))
    ensures raised.None? ==> cache.Coherent(tx.db)
  {
    hide SandboxStatus.Transition, ApplyTurn, ApplyTurnUsage, ApplyItemAdded, ApplyItemDone, ApplySandbox,
      ApplyArtifact, LatestTurn, RunningTurn, ErrorEvent, TurnCache.Coherent;
    var e, s, p := a.envelope, a.envelope.session, a.envelope.payload;
    ghost var before := tx.db;
    AppendNothing(outcome.AsLists());
    raised := None;
    match p {
      case SandboxReport(_, phase, fields) =>
        raised := ApplySandboxReport(tx, outcome, a);
      case SessionStopped =>
      case WorkspaceReaped =>
      case LifecycleStart(cause) =>
        outcome.lifecycle := outcome.lifecycle + [StartIntent(s, e.seqno, cause)];
      case LifecycleStop(reason, liveMs) =>
        outcome.lifecycle := outcome.lifecycle + [StopIntent(s, e.seqno, reason, liveMs)];
      case TurnStatus(t, mark) =>
        raised := ApplyTurnStatus(tx, a, t, mark, cache);
        return;
      case ItemAdded(_, _, _, _) =>
        raised := ApplyItem(tx, a);
      case ItemDone(_, _, _) =>
        raised := ApplyItem(tx, a);
      case Usage(_, _, _, _) =>
        raised := ApplyUsage(tx, a, cache);
        return;
      case EventReport(kind, _, _, _, data) =>
        StoreEvent(tx, outcome, s, Event(kind, data));
      case SessionStatus(_, status, actions) =>
        var row := tx.db.sessions[s];
        if status.Some? { row := row.(status := status.value); }
        if actions.Some? { row := row.(actions := actions.value); }
        tx.db := tx.db.(sessions := tx.db.sessions[s := row]);
      case ErrorReport(_, message, code) =>
        StoreEvent(tx, outcome, s, ErrorEvent(message, code));
      case ArtifactPresign(_) =>
        raised := ApplyArtifactWork(tx, outcome, a);
      case ArtifactCompleted(_) =>
        raised := ApplyArtifactWork(tx, outcome, a);
    }
    SameTurnsCoherent(before, tx.db, cache);
  }

  lemma SameTurnsCoherent(db: Db, db': Db, cache: TurnCache)
    requires cache.Coherent(db) && db'.turns == db.turns
    ensures cache.Coherent(db')
  {
    forall z
      ensures LatestTurn(db', z) == LatestTurn(db, z) && RunningTurn(db', z) == RunningTurn(db, z)
    {
      assert TurnsOf(db', z) == TurnsOf(db, z) && RunningOf(db', z) == RunningOf(db, z);
    }
  }

  method ApplySandboxReport(tx: Transaction, outcome: IngestOutcome, a: Attempt) returns (raised: Option<Cause>)
    requires a.envelope.session in tx.db.sessions && a.envelope.payload.SandboxReport?
    modifies tx, outcome`wakes
    ensures AppliedAs(ApplySandbox(old(tx.db), a), raised, tx.db, old(outcome.AsLists()), outcome.AsLists())
    ensures tx.db.turns == old(tx.db).turns
  {
    hide SandboxStatus.Transition;
    var s, p := a.envelope.session, a.envelope.payload;
    var row := tx.db.sessions[s];
    AppendNothing(outcome.AsLists());
    if !row.sandbox.hosted { return None; }
    var (sandbox, notice) := SandboxStatus.Transition(row.sandbox, p.phase, p.fields, a.now);
    tx.db := tx.db.(sessions := tx.db.sessions[s := row.(sandbox := sandbox)]);
    if notice.None? { return Some(Reject(INVALID_ENVELOPE)); }
    StoreEvent(tx, outcome, s, Event(notice.value.name, notice.value.data));
    return None;
  }

  method ApplyArtifactWork(tx: Transaction, outcome: IngestOutcome, a: Attempt) returns (raised: Option<Cause>)
    modifies tx, outcome`presignReplies
    ensures AppliedAs(ApplyArtifact(old(tx.db), a), raised, tx.db, old(outcome.AsLists()), outcome.AsLists())
    ensures tx.db.turns == old(tx.db).turns
  {
    var e := a.envelope;
    AppendNothing(outcome.AsLists());
    if e.payload.ArtifactPresign? {
      outcome.presignReplies := outcome.presignReplies + [PresignReply(e.session, e.seqno, a.artifact.Stored?)];
    }
    match a.artifact {
      case Refused(code) => return Some(Reject(code));
      case Stored =>
        tx.db := tx.db.(writes := tx.db.writes + [KeyOf(a)]);
        return None;
    }
  }

  /** The state of the batch loop, as the specification names it. */
  function View(tx: Transaction, outcome: IngestOutcome, stalled: set<Id>): Batch
    reads tx, outcome
  {
    Batch(tx.db, stalled, outcome.acks, outcome.AsLists(), outcome.rejected, outcome.retry)
  }

  /** Apply inside a savepoint: kept, or the store is what it was at `savepoint`. */
  method ApplyGuarded(tx: Transaction, outcome: IngestOutcome, a: Attempt, cache: TurnCache,
                      first: bool, savepoint: Db) returns (raised: Option<Cause>)
    requires a.envelope.session in tx.db.sessions && cache.Coherent(tx.db) && cache.Coherent(savepoint)
    requires savepoint.turns == tx.db.turns
    modifies tx, outcome, cache
    ensures outcome.acks == old(outcome.acks) && outcome.rejected == old(outcome.rejected)
    ensures outcome.retry == old(outcome.retry)
    ensures var spec := Guarded(old(tx.db), a, if first then Receipts(a.envelope) else NOTHING);
      && outcome.AsLists() == Append(old(outcome.AsLists()), spec.lists)
      && (match spec
          case Kept(db', _) => raised.None? && tx.db == db'
          case Undone(cause, _) => raised == Some(cause) && tx.db == savepoint)
    ensures cache.Coherent(tx.db)
  {
    hide Apply, Validate;
    var e := a.envelope;
    AppendNothing(outcome.AsLists());
    ghost var entry := tx.db;
    if a.fault.Fault? && a.fault.place.AtWrite? {
      tx.db := savepoint;
      if (e.payload.ArtifactPresign? || e.payload.ArtifactCompleted?) && !a.fault.transient {
        if e.payload.ArtifactPresign? {
          outcome.presignReplies := outcome.presignReplies + [PresignReply(e.session, e.seqno, false)];
        }
        return Some(Reject(INGEST_ERROR));
      }
      return Some(Error(a.fault.transient));
    }
    raised := ApplyEnvelope(tx, outcome, a, cache);
    SameTurnsCoherent(entry, savepoint, cache);
    if raised.Some? {
      tx.db := savepoint;
      return;
    }
    ghost var applied := outcome.AsLists();
    AppendNothing(applied);
    if first && e.payload.SessionStopped? {
      outcome.wipes := outcome.wipes + [e.session];
      outcome.stopped := outcome.stopped + [e.session];
    }
    AppendJoins(old(outcome.AsLists()), Apply(entry, a).lists, if first then Receipts(e) else NOTHING);
    if a.fault.Fault? && a.fault.place.AtRelease? {
      tx.db := savepoint;
      return Some(Error(a.fault.transient));
    }
  }

  lemma AppendJoins(x: Lists, y: Lists, z: Lists)
    ensures Append(Append(x, y), z) == Append(x, Append(y, z))
  {
    assert x.wakes + y.wakes + z.wakes == x.wakes + (y.wakes + z.wakes);
    assert x.replies + y.replies + z.replies == x.replies + (y.replies + z.replies);
    assert x.intents + y.intents + z.intents == x.intents + (y.intents + z.intents);
    assert x.wipes + y.wipes + z.wipes == x.wipes + (y.wipes + z.wipes);
    assert x.stopped + y.stopped + z.stopped == x.stopped + (y.stopped + z.stopped);
  }

  /** The first savepoint of an envelope: claim, validate, apply. */
  method DeliverInSavepoint(tx: Transaction, outcome: IngestOutcome, a: Attempt, worker: Id, cache: TurnCache)
    returns (raised: Option<Cause>)
    requires a.envelope.session in tx.db.sessions && cache.Coherent(tx.db)
    modifies tx, outcome, cache
    ensures outcome.acks == old(outcome.acks) && outcome.rejected == old(outcome.rejected)
    ensures outcome.retry == old(outcome.retry)
    ensures var spec := Deliver(old(tx.db), a, worker);
      && outcome.AsLists() == Append(old(outcome.AsLists()), spec.lists)
      && (match spec
          case Kept(db', _) => raised.None? && tx.db == db'
          case Undone(cause, _) => raised == Some(cause) && tx.db == old(tx.db))
    ensures cache.Coherent(tx.db)
  {
    hide Guarded, Validate;
    AppendNothing(outcome.AsLists());
    var savepoint := tx.db;
    var claim := ClaimRow(tx, a);
    match claim {
      case ClaimError(transient) => return Some(Error(transient));
      case AlreadyThere => return Some(Duplicate);
      case Claimed =>
    }
    if a.fault.Fault? && a.fault.place.AtRead? {
      tx.db := savepoint;
      return Some(Error(a.fault.transient));
    }
    SameTurnsCoherent(savepoint, tx.db, cache);
    var reason := ValidateEnvelope(tx.db, a.envelope, worker, cache);
    SameTurnsCoherent(tx.db, savepoint, cache);
    if reason.Some? {
      tx.db := savepoint;
      return Some(Reject(reason.value));
    }
    raised := ApplyGuarded(tx, outcome, a, cache, true, savepoint);
  }

  /** The duplicate path. */
  method RedeliverDuplicate(tx: Transaction, outcome: IngestOutcome, a: Attempt, cache: TurnCache)
    returns (raised: Option<Cause>)
    requires a.envelope.session in tx.db.sessions && cache.Coherent(tx.db)
    modifies tx, outcome, cache
    ensures outcome.acks == old(outcome.acks) && outcome.rejected == old(outcome.rejected)
    ensures outcome.retry == old(outcome.retry)
    ensures var spec := Redeliver(old(tx.db), a);
      && outcome.AsLists() == Append(old(outcome.AsLists()), spec.lists)
      && (match spec
          case Kept(db', _) => raised.None? && tx.db == db'
          case Undone(cause, _) => raised == Some(cause) && tx.db == old(tx.db))
    ensures cache.Coherent(tx.db)
  {
    hide Guarded;
    AppendNothing(outcome.AsLists());
    raised := None;
    if a.envelope.payload.SessionStopped? {
      outcome.stopped := outcome.stopped + [a.envelope.session];
    }
    if a.envelope.payload.ArtifactPresign? {
      raised := ApplyGuarded(tx, outcome, a, cache, false, tx.db);
    }
  }

  /** Everything the loop body does for one envelope of a session that has not stalled, before it is booked. */
  method Handle(tx: Transaction, outcome: IngestOutcome, a: Attempt, worker: Id, cache: TurnCache, present: bool)
    returns (fate: Fate)
    requires cache.Coherent(tx.db) && present == (a.envelope.session in tx.db.sessions)
    modifies tx, outcome, cache
    ensures outcome.acks == old(outcome.acks) && outcome.rejected == old(outcome.rejected)
    ensures outcome.retry == old(outcome.retry)
    ensures Verdict(fate, tx.db, NOTHING) == Judge(old(tx.db), a, worker).(lists := NOTHING)
    ensures outcome.AsLists() == Append(old(outcome.AsLists()), Judge(old(tx.db), a, worker).lists)
    ensures cache.Coherent(tx.db)
  {
    hide Deliver, Redeliver;
    AppendNothing(outcome.AsLists());
    if present && a.envelope.payload.WorkspaceReaped? { return Receipt; }
    if !present || !LeasedTo(tx.db, a.envelope.session, worker) { return Rejected(NOT_LEASED); }
    if a.envelope.size > MAX_MESSAGE_BYTES { return Rejected(OVERSIZE); }
    var wakesBefore := |outcome.wakes|;
    ghost var entry := tx.db;
    DuplicateIsSilent(tx.db, a, worker);
    var raised := DeliverInSavepoint(tx, outcome, a, worker, cache);
    if raised.None? { return Applied; }
    if raised.value.Duplicate? {
      raised := RedeliverDuplicate(tx, outcome, a, cache);
      if raised.None? { return Skipped; }
    }
    outcome.wakes := outcome.wakes[..wakesBefore];
    match raised.value {
      case Duplicate => return Skipped;
      case Reject(reason) => return Rejected(reason);
      case Error(transient) => return if transient then Stalled else Rejected(INGEST_ERROR);
    }
  }

  /** The store behind all transactions. */
  class Store {
    var db: Db

    constructor (db: Db)
      ensures this.db == db
    {
      this.db := db;
    }
  }

  /** One turn of the loop for a session that has not stalled. */
  method TakeOne(tx: Transaction, outcome: IngestOutcome, a: Attempt, worker: Id, cache: TurnCache,
                 stalled: set<Id>, present: bool)
    returns (stalled': set<Id>)
    requires cache.Coherent(tx.db) && present == (a.envelope.session in tx.db.sessions)
    requires a.envelope.session !in stalled
    modifies tx, outcome, cache
    ensures View(tx, outcome, stalled') == Settle(old(View(tx, outcome, stalled)), a, worker)
    ensures cache.Coherent(tx.db)
  {
    hide Judge;
    var s := a.envelope.session;
    var fate := Handle(tx, outcome, a, worker, cache, present);
    stalled' := stalled;
    match fate {
      case Stalled =>
        stalled' := stalled + {s};
        outcome.retry := outcome.retry + [a];
      case Rejected(reason) =>
        outcome.rejected := outcome.rejected + [Refusal(s, a.envelope.seqno, reason)];
        outcome.Acknowledge(s, a.envelope.seqno);
      case _ =>
        outcome.Acknowledge(s, a.envelope.seqno);
    }
  }

  /** Apply one batch in a single transaction. When it does not commit the store keeps nothing of it. */
  method FlushBatch(store: Store, queue: seq<Attempt>, worker: Id, commits: bool) returns (outcome: IngestOutcome)
    modifies store
    ensures fresh(outcome)
    ensures store.db == if commits then Flush(old(store.db), queue, worker).db else old(store.db)
    ensures var b := Flush(old(store.db), queue, worker);
      && outcome.acks == b.acks && outcome.AsLists() == b.lists
      && outcome.rejected == b.rejected && outcome.retry == b.retry
  {
    hide Settle, Held;
    outcome := new IngestOutcome();
    var cache := new TurnCache();
    var tx := new Transaction(store.db);
    var stalled: set<Id> := {};
    var rows: map<Id, bool> := map[];
    for i := 0 to |queue|
      invariant fresh(outcome) && fresh(cache) && fresh(tx) && store.db == old(store.db)
      invariant View(tx, outcome, stalled) == SettleAll(Opening(store.db), queue[..i], worker)
      invariant cache.Coherent(tx.db)
      invariant forall s :: s in rows ==> rows[s] == (s in tx.db.sessions)
    {
      var a := queue[i];
      var s := a.envelope.session;
      assert queue[..i + 1][..i] == queue[..i];
      SettleKeepsRows(View(tx, outcome, stalled), a, worker);
      if s in stalled {
        outcome.retry := outcome.retry + [a];
      } else {
        if s !in rows {
          rows := rows[s := s in tx.db.sessions];
        }
        stalled := TakeOne(tx, outcome, a, worker, cache, stalled, rows[s]);
      }
    }
    assert queue[..|queue|] == queue;
    WriteCursors(tx, outcome.acks, worker);
    if commits {
      store.db := tx.db;
    }
  }

  lemma SettleKeepsRows(b: Batch, a: Attempt, worker: Id)
    ensures Settle(b, a, worker).db.sessions.Keys == b.db.sessions.Keys
    ensures a.envelope.session in b.stalled ==> Settle(b, a, worker) == b.(retry := b.retry + [a])
  {
    hide Judge;
    OnlyAClaimWrites(b.db, a, worker);
  }

  /** The loop over `acks` that closes a batch. */
  method WriteCursors(tx: Transaction, acks: map<Id, nat>, worker: Id)
    modifies tx
    ensures tx.db == MoveCursors(old(tx.db), acks, worker)
  {
    ghost var before := tx.db;
    var left := acks.Keys;
    while left != {}
      invariant left <= acks.Keys
      invariant tx.db == before.(cursors := tx.db.cursors)
      invariant forall k ::
        k in tx.db.cursors <==> k in before.cursors || (k !in left && Moves(before, acks, worker, k))
      invariant forall k :: k in tx.db.cursors ==>
        tx.db.cursors[k] == if k !in left && Moves(before, acks, worker, k) then acks[k] else before.cursors[k]
      decreases left
    {
      var s :| s in left;
      if LeasedTo(tx.db, s, worker) && acks[s] > Cursor(tx.db, s) {
        tx.db := tx.db.(cursors := tx.db.cursors[s := acks[s]]);
      }
      left := left - {s};
    }
    ghost var spec := MoveCursors(before, acks, worker);
    forall k
      ensures k in tx.db.cursors <==> k in spec.cursors
      ensures k in tx.db.cursors ==> tx.db.cursors[k] == spec.cursors[k]
    {
      CursorAfter(before, acks, worker, k);
    }
    assert tx.db.cursors == spec.cursors;
  }
}
