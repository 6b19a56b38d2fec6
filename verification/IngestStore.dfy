/**
 The store that worker envelopes are ingested into, and what one envelope does to it.

 Everything here is a function of values: `Ingest` holds the code that changes a store in
 place and is proved against these functions.
 */
module IngestStore {
  import opened Common
  import opened Json
  import SandboxStatus

  // ---------------------------------------------------------------- envelopes

  const MAX_MESSAGE_BYTES := 1_048_576

  /** A turn id as it stands in a payload: no text at all, the empty text, not a UUID, or a UUID. */
  datatype RawId = NoId | EmptyId | BadId | GoodId(id: Id)

  datatype Outcome = Completed | Failed | Cancelled

  datatype TurnMark = Started | Ended(outcome: Outcome)

  /** How the protocol classes an event type: not public at all, a live delta that is never stored, or storable. */
  datatype EventClass = UnknownType | LiveType | PublicType

  /** Token counts as a worker reports them, and as they are stored: a negative or missing count is zero. */
  datatype RawUsage = RawUsage(prompt: int, completion: int, cacheRead: int, cacheWrite: int, total: Option<int>)

  datatype TokenUsage = TokenUsage(prompt: nat, completion: nat, cacheRead: nat, cacheWrite: nat, total: nat)

  function UsageFrom(raw: RawUsage): TokenUsage {
    TokenUsage(Max(raw.prompt, 0), Max(raw.completion, 0), Max(raw.cacheRead, 0), Max(raw.cacheWrite, 0),
               if raw.total.Some? then Max(raw.total.value, 0) else 0)
  }

  const NO_USAGE := TokenUsage(0, 0, 0, 0, 0)

  datatype Payload =
    | TurnStatus(turn: Id, mark: TurnMark)
    | ItemAdded(item: Id, kind: string, raw: RawId, data: Data)
    | ItemDone(item: Id, raw: RawId, data: Data)
    | Usage(turn: Id, counts: RawUsage, closing: string, error: Option<string>)
    | EventReport(kind: string, standing: EventClass, raw: RawId, dataTurn: RawId, data: Data)
    | SessionStatus(raw: RawId, status: Option<string>, actions: Option<seq<string>>)
    | ErrorReport(raw: RawId, message: Option<string>, code: Option<string>)
    | SandboxReport(raw: RawId, phase: SandboxStatus.Phase, fields: SandboxStatus.Fields)
    | SessionStopped
    | WorkspaceReaped
    | LifecycleStart(cause: string)
    | LifecycleStop(reason: string, liveMs: int)
    | ArtifactPresign(wellFormed: bool)
    | ArtifactCompleted(wellFormed: bool)

  datatype Envelope = Envelope(session: Id, turn: Option<Id>, seqno: nat, payload: Payload, size: nat)

  function OfRaw(raw: RawId): Option<Id> {
    if raw.GoodId? then Some(raw.id) else None
  }

  /** The turn a payload names by itself. */
  function PayloadTurn(p: Payload): Option<Id> {
    match p
    case TurnStatus(t, _) => Some(t)
    case ItemAdded(_, _, t, _) => OfRaw(t)
    case ItemDone(_, t, _) => OfRaw(t)
    case Usage(t, _, _, _) => Some(t)
    case EventReport(_, _, t, dt, _) => if t.NoId? || t.EmptyId? then OfRaw(dt) else OfRaw(t)
    case SessionStatus(t, _, _) => OfRaw(t)
    case ErrorReport(t, _, _) => OfRaw(t)
    case SandboxReport(t, _, _) => OfRaw(t)
    case _ => None
  }

  /** `envelope_turn_id`: the header's turn if it has one, else the payload's. */
  function EnvelopeTurn(e: Envelope): Option<Id> {
    if e.turn.Some? then e.turn else PayloadTurn(e.payload)
  }

  // ---------------------------------------------------------------- the store

  datatype TurnState = InProgress | Over(outcome: Outcome)

  datatype Turn = Turn(session: Id, state: TurnState, createdAt: Time, usage: Option<TokenUsage>)

  datatype Item = Item(tenant: Id, session: Id, turn: Option<Id>, kind: string, data: Data)

  datatype Event = Event(name: string, data: Data)

  datatype Session = Session(
    tenant: Id,
    worker: Option<Id>,
    lease: Option<Id>,
    leaseUntil: Option<Time>,
    status: string,
    actions: seq<string>,
    sandbox: SandboxStatus.Row)

  datatype TurnLog = TurnLog(session: Id, status: string, usage: TokenUsage, error: Option<string>)

  /**
   The tables. The primary keys are the map keys; the ledger is the set of claimed
   `(session_id, worker_seq)` pairs; `cursors` is the column `sessions.worker_seq`; the events of a
   session are numbered from 1 in the order of their sequence. `logs` is `turn_logs`, one row per
   turn. `writes` lists the artifact writes.
   */
  datatype Db = Db(
    sessions: map<Id, Session>,
    cursors: map<Id, nat>,
    ledger: set<(Id, nat)>,
    turns: map<Id, Turn>,
    items: map<Id, Item>,
    events: map<Id, seq<Event>>,
    logs: map<Id, TurnLog>,
    writes: seq<(Id, nat)>)

  function Cursor(db: Db, s: Id): nat {
    if s in db.cursors then db.cursors[s] else 0
  }

  function Events(db: Db, s: Id): seq<Event> {
    if s in db.events then db.events[s] else []
  }

  predicate LeasedTo(db: Db, s: Id, worker: Id) {
    s in db.sessions && db.sessions[s].worker == Some(worker) && db.sessions[s].lease.Some?
  }

  // ---------------------------------------------------------------- turn reads

  /** The order of `ORDER BY created_at, id`. */
  predicate NotAfter(turns: map<Id, Turn>, a: Id, b: Id)
    requires a in turns && b in turns
  {
    turns[a].createdAt < turns[b].createdAt || (turns[a].createdAt == turns[b].createdAt && a <= b)
  }

  predicate IsNewest(turns: map<Id, Turn>, among: set<Id>, t: Id)
    requires among <= turns.Keys
  {
    t in among && forall u :: u in among ==> NotAfter(turns, u, t)
  }

  lemma {:induction false} NewestExists(turns: map<Id, Turn>, among: set<Id>)
    requires among <= turns.Keys && among != {}
    ensures exists t :: IsNewest(turns, among, t)
  {
    var u :| u in among;
    if among == {u} {
      assert IsNewest(turns, among, u);
    } else {
      NewestExists(turns, among - {u});
      var t :| IsNewest(turns, among - {u}, t);
      var best := if NotAfter(turns, u, t) then t else u;
      forall v | v in among
        ensures NotAfter(turns, v, best)
      {
        assert v == u || v in among - {u};
      }
      assert IsNewest(turns, among, best);
    }
  }

  /** One `ORDER BY created_at DESC, id DESC LIMIT 1` read. */
  function Newest(turns: map<Id, Turn>, among: set<Id>): (r: Option<Id>)
    requires among <= turns.Keys
    ensures r.None? <==> among == {}
    ensures r.Some? ==> IsNewest(turns, among, r.value)
  {
    if among == {} then None
    else
      NewestExists(turns, among);
      var t :| t in among && IsNewest(turns, among, t);
      Some(t)
  }

  function TurnsOf(db: Db, s: Id): set<Id> {
    set t | t in db.turns && db.turns[t].session == s
  }

  function RunningOf(db: Db, s: Id): set<Id> {
    set t | t in db.turns && db.turns[t].session == s && db.turns[t].state == InProgress
  }

  /** `get_latest_turn` */
  function LatestTurn(db: Db, s: Id): Option<Id> {
    Newest(db.turns, TurnsOf(db, s))
  }

  /** `get_running_turn` */
  function RunningTurn(db: Db, s: Id): Option<Id> {
    Newest(db.turns, RunningOf(db, s))
  }

  /** `_stamp_after_newest`: a creation stamp later than every turn of the session, whatever the clock says. */
  function TurnStamp(db: Db, s: Id, now: Time): (r: Time)
    ensures forall t :: t in TurnsOf(db, s) ==> db.turns[t].createdAt < r
    ensures now <= r && (now < r ==> exists t :: t in TurnsOf(db, s) && r == db.turns[t].createdAt + 1)
  {
    var newest := LatestTurn(db, s);
    if newest.Some? && now <= db.turns[newest.value].createdAt then db.turns[newest.value].createdAt + 1 else now
  }

  // ---------------------------------------------------------------- one envelope

  const NOT_LEASED := "not_leased"
  const TURN_MISMATCH := "turn_mismatch"
  const UNKNOWN_TURN := "unknown_turn"
  const UNKNOWN_EVENT := "unknown_event"
  const LIVE_EVENT := "live_event"
  const OVERSIZE := "oversize"
  const INVALID_ENVELOPE := "invalid_envelope"
  const INGEST_ERROR := "ingest_error"

  /** A stored event handed to the fan-out: the session, the event's number and its body. */
  datatype Wake = Wake(session: Id, number: nat, event: Event)

  datatype Reply = PresignReply(session: Id, seqno: nat, ok: bool)

  datatype Intent = StartIntent(session: Id, seqno: nat, cause: string)
                  | StopIntent(session: Id, seqno: nat, reason: string, liveMs: int)

  /** The lists of the outcome that applying an envelope appends to. */
  datatype Lists = Lists(wakes: seq<Wake>, replies: seq<Reply>, intents: seq<Intent>, wipes: seq<Id>, stopped: seq<Id>)

  const NOTHING := Lists([], [], [], [], [])

  function Append(a: Lists, b: Lists): Lists {
    Lists(a.wakes + b.wakes, a.replies + b.replies, a.intents + b.intents, a.wipes + b.wipes, a.stopped + b.stopped)
  }

  function WithoutWakes(a: Lists): Lists {
    a.(wakes := [])
  }

  /** Where the environment may fail while one envelope is handled. */
  datatype Place = AtClaim | AtRead | AtWrite | AtRelease

  datatype Fault = NoFault | Fault(place: Place, transient: bool)

  /** What issuing or completing an upload answers: it is stored, or refused with a code. */
  datatype ArtifactAnswer = Stored | Refused(code: string)

  /** One envelope with what its environment does while it is handled. */
  datatype Attempt = Attempt(envelope: Envelope, now: Time, fault: Fault, artifact: ArtifactAnswer)

  function KeyOf(a: Attempt): (Id, nat) {
    (a.envelope.session, a.envelope.seqno)
  }

  /** Why a savepoint was rolled back. */
  datatype Cause = Duplicate | Reject(reason: string) | Error(transient: bool)

  /** The end of a savepoint: kept with a new store, or undone. Both leave what was appended to the lists. */
  datatype Try = Kept(db: Db, lists: Lists) | Undone(cause: Cause, lists: Lists)

  function Raise(a: Attempt): Try {
    Undone(Error(a.fault.Fault? && a.fault.transient), NOTHING)
  }

  /** `_validate`: the reason to reject, if any. */
  function Validate(db: Db, e: Envelope, worker: Id): Option<string> {
    var s, p, turn := e.session, e.payload, EnvelopeTurn(e);
    if e.size > MAX_MESSAGE_BYTES then Some(OVERSIZE)
    else if !LeasedTo(db, s, worker) then Some(NOT_LEASED)
    else if p.SandboxReport? && p.phase.Unknown? then Some(INVALID_ENVELOPE)
    else if p.ArtifactPresign? then (if p.wellFormed then None else Some(INVALID_ENVELOPE))
    else if p.ArtifactCompleted? then (if p.wellFormed then None else Some(INVALID_ENVELOPE))
    else if p.SessionStopped? || p.WorkspaceReaped? || p.LifecycleStart? || p.LifecycleStop? then None
    else if p.EventReport? && p.standing.UnknownType? then Some(UNKNOWN_EVENT)
    else if p.EventReport? && p.standing.LiveType? then Some(LIVE_EVENT)
    else if (p.ItemAdded? || p.ItemDone? || p.Usage?) && turn.None? then Some(INVALID_ENVELOPE)
    else if p.TurnStatus? && p.mark.Started? then
      if turn.None? then Some(INVALID_ENVELOPE)
      else if RunningTurn(db, s).Some? && RunningTurn(db, s) != turn then Some(TURN_MISMATCH)
      else None
    else if p.ItemAdded? then
      if RunningTurn(db, s).None? || RunningTurn(db, s) != turn then Some(TURN_MISMATCH) else None
    else if turn.Some? && LatestTurn(db, s) != turn then Some(TURN_MISMATCH)
    else if p.SessionStatus? && p.status.None? && (p.actions.None? || p.actions.value == []) then Some(INVALID_ENVELOPE)
    else None
  }

  function AppendEvent(db: Db, s: Id, event: Event): (Db, Wake) {
    (db.(events := db.events[s := Events(db, s) + [event]]), Wake(s, |Events(db, s)| + 1, event))
  }

  function WakesOf(w: Wake): Lists {
    NOTHING.(wakes := [w])
  }

  function ApplyTurn(db: Db, a: Attempt, t: Id, mark: TurnMark): Try {
    var s := a.envelope.session;
    match mark
    case Started =>
      if t in db.turns && db.turns[t].session == s then Kept(db, NOTHING)
      else if t in db.turns then Undone(Error(false), NOTHING)
      else Kept(db.(turns := db.turns[t := Turn(s, InProgress, TurnStamp(db, s, a.now), None)]), NOTHING)
    case Ended(outcome) =>
      if t !in db.turns || db.turns[t].session != s then Undone(Reject(UNKNOWN_TURN), NOTHING)
      else Kept(db.(turns := db.turns[t := db.turns[t].(state := Over(outcome))]), NOTHING)
  }

  function ApplyItemAdded(db: Db, a: Attempt): Try
    requires a.envelope.payload.ItemAdded? && a.envelope.session in db.sessions
  {
    var s, p := a.envelope.session, a.envelope.payload;
    var tenant := db.sessions[s].tenant;
    if p.raw.BadId? || p.raw.EmptyId? then Undone(Error(false), NOTHING)
    else if p.item in db.items && db.items[p.item].tenant == tenant then Kept(db, NOTHING)
    else if p.item in db.items then Undone(Error(false), NOTHING)
    else Kept(db.(items := db.items[p.item := Item(tenant, s, OfRaw(p.raw), p.kind, p.data)]), NOTHING)
  }

  function ApplyItemDone(db: Db, a: Attempt): Try
    requires a.envelope.payload.ItemDone?
  {
    var s, p := a.envelope.session, a.envelope.payload;
    if p.item !in db.items || db.items[p.item].session != s then Undone(Reject(UNKNOWN_TURN), NOTHING)
    else
      var item := db.items[p.item];
      if p.raw.BadId? then Undone(Reject(TURN_MISMATCH), NOTHING)
      else if p.raw.GoodId? && item.turn.Some? && p.raw.id != item.turn.value then
        Undone(Reject(TURN_MISMATCH), NOTHING)
      else Kept(db.(items := db.items[p.item := item.(data := item.data + p.data)]), NOTHING)
  }

  function ApplySandbox(db: Db, a: Attempt): Try
    requires a.envelope.payload.SandboxReport? && a.envelope.session in db.sessions
  {
    var s, p := a.envelope.session, a.envelope.payload;
    var row := db.sessions[s];
    if !row.sandbox.hosted then Kept(db, NOTHING)
    else
      var (sandbox, notice) := SandboxStatus.Transition(row.sandbox, p.phase, p.fields, a.now);
      if notice.None? then Undone(Reject(INVALID_ENVELOPE), NOTHING)
      else
        var moved := db.(sessions := db.sessions[s := row.(sandbox := sandbox)]);
        var (stored, wake) := AppendEvent(moved, s, Event(notice.value.name, notice.value.data));
        Kept(stored, WakesOf(wake))
  }

  const CLOSINGS := {"completed", "failed", "cancelled"}

  /** The constraints of `turn_logs`: one row per turn, with a status that closes it. */
  predicate Loggable(db: Db, t: Id, status: string) {
    t !in db.logs && status in CLOSINGS
  }

  function Logged(db: Db, s: Id, t: Id, status: string, usage: TokenUsage, error: Option<string>): Db {
    db.(logs := db.logs[t := TurnLog(s, status, usage, error)])
  }

  function ClosingStatus(closing: string): string {
    if closing == "" then "completed" else closing
  }

  function ApplyTurnUsage(db: Db, a: Attempt): Try
    requires a.envelope.payload.Usage?
  {
    var s, p := a.envelope.session, a.envelope.payload;
    if p.turn !in db.turns || db.turns[p.turn].session != s then Undone(Reject(UNKNOWN_TURN), NOTHING)
    else if !Loggable(db, p.turn, ClosingStatus(p.closing)) then Undone(Error(false), NOTHING)
    else
      var counted := db.(turns := db.turns[p.turn := db.turns[p.turn].(usage := Some(UsageFrom(p.counts)))]);
      Kept(Logged(counted, s, p.turn, ClosingStatus(p.closing), UsageFrom(p.counts), p.error), NOTHING)
  }

  const SESSION_ERROR := "agent.session.error"

  function ErrorEvent(message: Option<string>, code: Option<string>): Event {
    Event(SESSION_ERROR, map["message" := TextOr(message, ""), "code" := TextOr(code, "internal")])
  }

  function ArtifactReply(e: Envelope, ok: bool): Lists {
    if e.payload.ArtifactPresign? then NOTHING.(replies := [PresignReply(e.session, e.seqno, ok)]) else NOTHING
  }

  function ApplyArtifact(db: Db, a: Attempt): Try {
    match a.artifact
    case Refused(code) => Undone(Reject(code), ArtifactReply(a.envelope, false))
    case Stored => Kept(db.(writes := db.writes + [KeyOf(a)]), ArtifactReply(a.envelope, true))
  }

  /** `_apply`: what the envelope does to the store once it is claimed and valid. */
  function Apply(db: Db, a: Attempt): Try
    requires a.envelope.session in db.sessions
  {
    var e, s := a.envelope, a.envelope.session;
    match e.payload
    case SandboxReport(_, _, _) => ApplySandbox(db, a)
    case SessionStopped => Kept(db, NOTHING)
    case WorkspaceReaped => Kept(db, NOTHING)
    case LifecycleStart(cause) => Kept(db, NOTHING.(intents := [StartIntent(s, e.seqno, cause)]))
    case LifecycleStop(reason, liveMs) => Kept(db, NOTHING.(intents := [StopIntent(s, e.seqno, reason, liveMs)]))
    case TurnStatus(t, mark) => ApplyTurn(db, a, t, mark)
    case ItemAdded(_, _, _, _) => ApplyItemAdded(db, a)
    case ItemDone(_, _, _) => ApplyItemDone(db, a)
    case Usage(_, _, _, _) => ApplyTurnUsage(db, a)
    case EventReport(kind, _, _, _, data) =>
      var (stored, wake) := AppendEvent(db, s, Event(kind, data));
      Kept(stored, WakesOf(wake))
    case SessionStatus(_, status, actions) =>
      var row := db.sessions[s];
      Kept(db.(sessions := db.sessions[s := row.(
        status := if status.Some? then status.value else row.status,
        actions := if actions.Some? then actions.value else row.actions)]), NOTHING)
    case ErrorReport(_, message, code) =>
      var (stored, wake) := AppendEvent(db, s, ErrorEvent(message, code));
      Kept(stored, WakesOf(wake))
    case ArtifactPresign(_) => ApplyArtifact(db, a)
    case ArtifactCompleted(_) => ApplyArtifact(db, a)
  }

  /** A write that fails. Artifact work answers its permanent failures itself. */
  function StruckWrite(a: Attempt): Try
    requires a.fault.Fault?
  {
    var p := a.envelope.payload;
    if (p.ArtifactPresign? || p.ArtifactCompleted?) && !a.fault.transient
    then Undone(Reject(INGEST_ERROR), ArtifactReply(a.envelope, false))
    else Raise(a)
  }

  /** What the savepoint of a first delivery also appends when it is about to be kept. */
  function Receipts(e: Envelope): Lists {
    if e.payload.SessionStopped? then NOTHING.(wipes := [e.session], stopped := [e.session]) else NOTHING
  }

  /** Apply, then `extra`, inside a savepoint whose writes or whose release may fail. */
  function Guarded(db: Db, a: Attempt, extra: Lists): Try
    requires a.envelope.session in db.sessions
  {
    if a.fault.Fault? && a.fault.place.AtWrite? then StruckWrite(a)
    else
      match Apply(db, a)
      case Undone(cause, lists) => Undone(cause, lists)
      case Kept(db', lists) =>
        var all := Append(lists, extra);
        if a.fault.Fault? && a.fault.place.AtRelease? then Undone(Error(a.fault.transient), all) else Kept(db', all)
  }

  /** Claim, validate and apply in one savepoint. */
  function Deliver(db: Db, a: Attempt, worker: Id): Try
    requires a.envelope.session in db.sessions
  {
    if a.fault.Fault? && a.fault.place.AtClaim? then Raise(a)
    else if KeyOf(a) in db.ledger then Undone(Duplicate, NOTHING)
    else if a.fault.Fault? && a.fault.place.AtRead? then Raise(a)
    else
      var claimed := db.(ledger := db.ledger + {KeyOf(a)});
      var reason := Validate(claimed, a.envelope, worker);
      if reason.Some? then Undone(Reject(reason.value), NOTHING)
      else Guarded(claimed, a, Receipts(a.envelope))
  }

  /** The duplicate path: a presign runs again for its reply, a stop is noted again, the rest is skipped. */
  function Redeliver(db: Db, a: Attempt): Try
    requires a.envelope.session in db.sessions
  {
    if a.envelope.payload.ArtifactPresign? then Guarded(db, a, NOTHING)
    else if a.envelope.payload.SessionStopped? then Kept(db, NOTHING.(stopped := [a.envelope.session]))
    else Kept(db, NOTHING)
  }

  /** What became of one envelope that was not held back by an earlier transient failure. */
  datatype Fate =
    | Receipt                      // lease-free: acked, nothing else
    | Applied
    | Skipped                      // already in the ledger
    | Rejected(reason: string)
    | Stalled                      // transient failure: tried again later

  /** The fate of an envelope, the store after it and what it appended to the lists. */
  datatype Verdict = Verdict(fate: Fate, db: Db, lists: Lists)

  function OnUndone(db: Db, cause: Cause, lists: Lists): Verdict {
    match cause
    case Duplicate => Verdict(Skipped, db, lists)
    case Reject(reason) => Verdict(Rejected(reason), db, WithoutWakes(lists))
    case Error(transient) =>
      Verdict(if transient then Stalled else Rejected(INGEST_ERROR), db, WithoutWakes(lists))
  }

  function Judge(db: Db, a: Attempt, worker: Id): Verdict {
    var e, s := a.envelope, a.envelope.session;
    if s in db.sessions && e.payload.WorkspaceReaped? then Verdict(Receipt, db, NOTHING)
    else if !LeasedTo(db, s, worker) then Verdict(Rejected(NOT_LEASED), db, NOTHING)
    else if e.size > MAX_MESSAGE_BYTES then Verdict(Rejected(OVERSIZE), db, NOTHING)
    else
      var first := Deliver(db, a, worker);
      match first
      case Kept(db', lists) => Verdict(Applied, db', lists)
      case Undone(Duplicate, _) =>
        (match Redeliver(db, a)
         case Kept(db', lists) => Verdict(Skipped, db', lists)
         case Undone(cause, lists) => OnUndone(db, cause, lists))
      case Undone(cause, lists) => OnUndone(db, cause, lists)
  }

  // ---------------------------------------------------------------- one batch

  datatype Refusal = Refusal(session: Id, seqno: nat, reason: string)

  /** The working state of a batch: the store inside its transaction and the outcome so far. */
  datatype Batch = Batch(
    db: Db,
    stalled: set<Id>,
    acks: map<Id, nat>,
    lists: Lists,
    rejected: seq<Refusal>,
    retry: seq<Attempt>)

  function Opening(db: Db): Batch {
    Batch(db, {}, map[], NOTHING, [], [])
  }

  function Raised(acks: map<Id, nat>, s: Id, n: nat): map<Id, nat> {
    acks[s := Max(if s in acks then acks[s] else 0, n)]
  }

  /** How the batch loop books a verdict. */
  function Book(b: Batch, a: Attempt, v: Verdict): Batch {
    var e, s := a.envelope, a.envelope.session;
    var heard := b.(db := v.db, lists := Append(b.lists, v.lists));
    match v.fate
    case Stalled => heard.(stalled := b.stalled + {s}, retry := b.retry + [a])
    case Rejected(reason) =>
      heard.(rejected := b.rejected + [Refusal(s, e.seqno, reason)], acks := Raised(b.acks, s, e.seqno))
    case _ => heard.(acks := Raised(b.acks, s, e.seqno))
  }

  /** One turn of the batch loop. */
  function Settle(b: Batch, a: Attempt, worker: Id): Batch {
    if a.envelope.session in b.stalled then b.(retry := b.retry + [a])
    else Book(b, a, Judge(b.db, a, worker))
  }

  function SettleAll(b: Batch, queue: seq<Attempt>, worker: Id): Batch {
    if queue == [] then b
    else Settle(SettleAll(b, queue[..|queue| - 1], worker), queue[|queue| - 1], worker)
  }

  /** The cursor writes that close a batch. */
  function MoveCursors(db: Db, acks: map<Id, nat>, worker: Id): Db {
    db.(cursors := db.cursors +
      map s | s in acks && LeasedTo(db, s, worker) && acks[s] > Cursor(db, s) :: acks[s])
  }

  /** A committed batch. */
  function Flush(db: Db, queue: seq<Attempt>, worker: Id): Batch {
    var b := SettleAll(Opening(db), queue, worker);
    b.(db := MoveCursors(b.db, b.acks, worker))
  }
}
