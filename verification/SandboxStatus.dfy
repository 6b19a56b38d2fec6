/**
 The sandbox status machine of a hosted session: the `sandbox_*` columns, the
 environment row kept beside them, and the two public views of both.
 */
module SandboxStatus {
  import opened Common
  import opened Json

  /** Three times the five-second interval at which a worker reports its live sandboxes. */
  const STALE_AFTER: Time := 15_000_000

  datatype State = Starting | Ready | Stopped | Failed

  /** `environments.status`; a row created elsewhere may hold any other text. */
  datatype RowStatus = Pending | Connected | Disconnected | FailedRow | OtherStatus(text: string)

  datatype View = Provisioning | ConnectedView | DisconnectedView | FailedView

  /** The phase field of a transition: the three known phases, or any other text. */
  datatype Phase = ToStarting | ToReady | ToStopped | Unknown(text: string)

  /** The optional fields of one transition report. */
  datatype Fields = Fields(
    worker: Option<Id>,
    image: Option<string>,
    version: Option<string>,
    size: Option<string>,
    bootMs: Option<int>,
    reason: Option<string>,
    cause: Option<string>,
    runMode: Option<string>,
    lockWaitMs: Option<int>,
    setupMs: Option<int>,
    liveMs: Option<int>)

  /**
   The sandbox columns of a session row, the id in its environment settings, and the status of the
   session's environment row if it has one.
   */
  datatype Row = Row(
    hosted: bool,
    environmentId: Option<string>,
    state: Option<State>,
    reason: Option<string>,
    since: Option<Time>,
    seenAt: Option<Time>,
    worker: Option<Id>,
    image: Option<string>,
    version: Option<string>,
    size: Option<string>,
    coldBoots: Option<nat>,
    lastBootMs: Option<int>,
    environment: Option<RowStatus>)

  /** The public event a report announces. */
  datatype Notice = Notice(name: string, data: Data)

  const PENDING := "agent.session.environment.pending"
  const CONNECTED := "agent.session.environment.connected"
  const DISCONNECTED := "agent.session.environment.disconnected"

  function RowStatusOf(s: State): RowStatus {
    match s
    case Starting => Pending
    case Ready => Connected
    case Stopped => Disconnected
    case Failed => FailedRow
  }

  function OpenAiStatus(s: Option<State>): View {
    match s
    case None => DisconnectedView
    case Some(Starting) => Provisioning
    case Some(Ready) => ConnectedView
    case Some(Stopped) => DisconnectedView
    case Some(Failed) => FailedView
  }

  /** The view computed from a stored environment row. */
  function StoredStatus(s: Option<RowStatus>): View {
    match s
    case Some(Pending) => Provisioning
    case Some(Connected) => ConnectedView
    case Some(FailedRow) => FailedView
    case _ => DisconnectedView
  }

  function SeenMoment(row: Row): Option<Time> {
    if row.seenAt.Some? then row.seenAt else row.since
  }

  predicate Live(row: Row) {
    row.state == Some(Starting) || row.state == Some(Ready)
  }

  predicate Stale(row: Row, now: Time) {
    Live(row) && SeenMoment(row).Some? && now - SeenMoment(row).value >= STALE_AFTER
  }

  const WORKER_LOST := "worker_lost"

  function EffectiveState(row: Row, now: Time): (Option<State>, Option<string>) {
    if !Live(row) then (row.state, row.reason)
    else
      match SeenMoment(row)
      case None => (row.state, row.reason)
      case Some(seen) =>
        if now - seen >= STALE_AFTER then (Some(Stopped), Some(WORKER_LOST)) else (row.state, row.reason)
  }

  /** The view computed from the sandbox columns; only hosted sessions have one. */
  function EnvironmentStatus(row: Row, now: Time): Option<View> {
    if !row.hosted then None else Some(OpenAiStatus(EffectiveState(row, now).0))
  }

  function Synced(row: Row, s: State): Row {
    if row.environment.None? then row else row.(environment := Some(RowStatusOf(s)))
  }

  function Or<T>(given: Option<T>, kept: Option<T>): Option<T> {
    if given.Some? then given else kept
  }

  /** The columns every report touches, known phase or not. */
  function Touched(row: Row, fields: Fields, now: Time): Row {
    row.(seenAt := Some(now), since := Some(now), worker := Or(fields.worker, row.worker))
  }

  /** `_sandbox_data` */
  function SandboxData(row: Row, sandbox: Data): Data {
    var data := map["sandbox" := Object(sandbox)];
    if row.environmentId.Some? && row.environmentId.value != ""
    then data["environment_id" := Text(row.environmentId.value)]
    else data
  }

  /** The announcements tell the columns as they stand after the report. */
  function PendingNotice(row: Row, fields: Fields): Notice {
    Notice(PENDING, SandboxData(row, map[
      "state" := Text("starting"), "cold" := Flag(true), "cause" := TextOr(fields.cause, "spawn"),
      "image" := OptionalText(row.image), "size" := OptionalText(row.size)]))
  }

  function ConnectedNotice(row: Row, fields: Fields): Notice {
    Notice(CONNECTED, SandboxData(row, map[
      "state" := Text("ready"), "image" := OptionalText(row.image), "image_version" := OptionalText(row.version),
      "size" := OptionalText(row.size), "run_mode" := OptionalText(fields.runMode),
      "boot_ms" := NumberOrZero(fields.bootMs), "lock_wait_ms" := NumberOrZero(fields.lockWaitMs),
      "setup_ms" := NumberOrZero(fields.setupMs)]))
  }

  function DisconnectedNotice(row: Row, fields: Fields): Notice {
    Notice(DISCONNECTED, SandboxData(row, map[
      "state" := Text("stopped"), "reason" := OptionalText(row.reason), "live_ms" := NumberOrZero(fields.liveMs)]))
  }

  /** What `apply_transition` leaves in the row, and the event it announces (none for an unknown phase). */
  function Transition(row: Row, phase: Phase, fields: Fields, now: Time): (Row, Option<Notice>) {
    var t := Touched(row, fields, now);
    match phase
    case ToStarting =>
      var r := t.(state := Some(Starting), reason := None,
                  image := Or(fields.image, t.image), size := Or(fields.size, t.size));
      (Synced(r, Starting), Some(PendingNotice(r, fields)))
    case ToReady =>
      var r := t.(state := Some(Ready), reason := None,
                  coldBoots := Some((if t.coldBoots.Some? then t.coldBoots.value else 0) + 1),
                  image := Or(fields.image, t.image), version := Or(fields.version, t.version),
                  size := Or(fields.size, t.size), lastBootMs := Or(fields.bootMs, t.lastBootMs));
      (Synced(r, Ready), Some(ConnectedNotice(r, fields)))
    case ToStopped =>
      var r := t.(state := Some(Stopped), reason := Some(if fields.reason.Some? then fields.reason.value else "stop"));
      (Synced(r, Stopped), Some(DisconnectedNotice(r, fields)))
    case Unknown(_) => (t, None)
  }

  /** What `note_failed` leaves in the row; sessions without a hosted sandbox are left alone. */
  function NoteFailed(row: Row, code: Option<string>, now: Time): Row {
    if !row.hosted then row
    else Synced(row.(state := Some(Failed), reason := code, since := Some(now), seenAt := Some(now)), Failed)
  }

  /** What `expire_if_stale` leaves in the row, and whether it announced a disconnect. */
  function Expire(row: Row, now: Time): (Row, bool) {
    if !row.hosted then (row, false)
    else
      var (state, reason) := EffectiveState(row, now);
      if state == row.state || reason != Some(WORKER_LOST) then (row, false)
      else (Synced(row.(state := Some(Stopped), reason := Some(WORKER_LOST), since := Some(now)), Stopped), true)
  }

  /** What `touch_seen` leaves in the row: only a starting or ready sandbox is refreshed. */
  function TouchSeen(row: Row, now: Time): Row {
    if Live(row) then row.(seenAt := Some(now)) else row
  }

  // ---------------------------------------------------------------- runs

  datatype Action =
    | Report(phase: Phase, fields: Fields)
    | Failure(code: Option<string>)
    | Expiry
    | Touch

  datatype Step = Step(at: Time, action: Action)

  function Perform(row: Row, step: Step): Row {
    match step.action
    case Report(phase, fields) => if row.hosted then Transition(row, phase, fields, step.at).0 else row
    case Failure(code) => NoteFailed(row, code, step.at)
    case Expiry => Expire(row, step.at).0
    case Touch => TouchSeen(row, step.at)
  }

  function Run(row: Row, steps: seq<Step>): Row {
    if steps == [] then row
    else Perform(Run(row, steps[..|steps| - 1]), steps[|steps| - 1])
  }

  predicate Advancing(steps: seq<Step>) {
    forall i, j :: 0 <= i < j < |steps| ==> steps[i].at <= steps[j].at
  }

  /** A session row as it is created: no phase recorded, no boot counted. */
  predicate Fresh(row: Row) {
    row.state.None? && row.reason.None? && row.since.None? && row.seenAt.None? && row.coldBoots.None?
  }

  function ReadyReports(row: Row, steps: seq<Step>): nat {
    if steps == [] then 0
    else
      var last := steps[|steps| - 1];
      ReadyReports(row, steps[..|steps| - 1])
      + (if row.hosted && last.action.Report? && last.action.phase.ToReady? then 1 else 0)
  }

  /** A sign of life of the sandbox: a report, a failure or a touch. */
  predicate SignOfLife(step: Step) {
    !step.action.Expiry?
  }

  /** The invariant of every run. */
  ghost predicate Consistent(row: Row) {
    && (row.state.Some? && row.environment.Some? ==> row.environment.value == RowStatusOf(row.state.value))
    && (row.state.Some? ==> row.hosted && row.seenAt.Some? && row.since.Some?)
    && (row.state.None? ==> row.reason.None?)
  }

  lemma {:induction false} RunKeepsRowsInStep(row: Row, steps: seq<Step>)
    requires Fresh(row)
    ensures var r := Run(row, steps);
      && Consistent(r) && r.hosted == row.hosted && r.environment.Some? == row.environment.Some?
      && Boots(r) == ReadyReports(row, steps)
  {
    hide Perform;
    if steps != [] {
      RunKeepsRowsInStep(row, steps[..|steps| - 1]);
      StepKeepsRowsInStep(Run(row, steps[..|steps| - 1]), steps[|steps| - 1]);
    }
  }

  function Boots(row: Row): nat {
    if row.coldBoots.Some? then row.coldBoots.value else 0
  }

  lemma ReportKeepsRowsInStep(row: Row, phase: Phase, fields: Fields, now: Time)
    requires Consistent(row) && row.hosted
    ensures var r := Transition(row, phase, fields, now).0;
      && Consistent(r) && r.hosted && r.environment.Some? == row.environment.Some?
      && Boots(r) == Boots(row) + (if phase.ToReady? then 1 else 0)
      && r.seenAt == Some(now)
  {
    hide PendingNotice, ConnectedNotice, DisconnectedNotice, Or;
  }

  lemma StepKeepsRowsInStep(row: Row, step: Step)
    requires Consistent(row)
    ensures var r := Perform(row, step);
      && Consistent(r) && r.hosted == row.hosted && r.environment.Some? == row.environment.Some?
      && Boots(r) == Boots(row) + (if row.hosted && step.action.Report? && step.action.phase.ToReady? then 1 else 0)
  {
    hide Transition;
    if row.hosted && step.action.Report? {
      ReportKeepsRowsInStep(row, step.action.phase, step.action.fields, step.at);
    }
  }

  /**
   Exactly when the two public views of a hosted session agree: once a phase is recorded and an
   environment row exists, they differ if and only if the row is live but stale.
   */
  lemma ViewsAgreeUnlessStale(row: Row, steps: seq<Step>, now: Time)
    requires Fresh(row) && row.environment.Some?
    requires Run(row, steps).state.Some?
    ensures var r := Run(row, steps);
      (EnvironmentStatus(r, now) == Some(StoredStatus(r.environment))) <==> !Stale(r, now)
  {
    RunKeepsRowsInStep(row, steps);
  }

  /** Expiry ends every disagreement: right after it, and for as long as no later step runs, the views agree. */
  lemma ExpiryReconcilesViews(row: Row, steps: seq<Step>, at: Time, later: Time)
    requires Fresh(row) && row.environment.Some?
    requires Run(row, steps).state.Some?
    ensures var r := Run(row, steps + [Step(at, Expiry)]);
      && EnvironmentStatus(r, at) == Some(StoredStatus(r.environment))
      && (!Live(r) ==> EnvironmentStatus(r, later) == Some(StoredStatus(r.environment)))
      && EnvironmentStatus(r, at) == EnvironmentStatus(Run(row, steps), at)
  {
    assert (steps + [Step(at, Expiry)])[..|steps|] == steps;
    RunKeepsRowsInStep(row, steps);
    RunKeepsRowsInStep(row, steps + [Step(at, Expiry)]);
  }

  /** A sandbox that is live after a step was seen in it, or lives on as it did after an expiry that found it fresh. */
  lemma LiveStep(row: Row, step: Step)
    requires Consistent(row) && Live(Perform(row, step))
    ensures if step.action.Expiry? then Perform(row, step) == row else Perform(row, step).seenAt == Some(step.at)
  {
    hide Transition;
    if row.hosted && step.action.Report? {
      ReportKeepsRowsInStep(row, step.action.phase, step.action.fields, step.at);
    }
  }

  /** The moment of the last sign of life is what staleness is measured from. */
  lemma {:induction false} SeenSinceEveryReport(row: Row, steps: seq<Step>, i: nat)
    requires Fresh(row) && Advancing(steps)
    requires i < |steps| && SignOfLife(steps[i])
    requires Live(Run(row, steps))
    ensures SeenMoment(Run(row, steps)).Some? && SeenMoment(Run(row, steps)).value >= steps[i].at
  {
    hide Perform, Consistent;
    var front, last := steps[..|steps| - 1], steps[|steps| - 1];
    RunKeepsRowsInStep(row, front);
    assert steps[i].at <= last.at;
    LiveStep(Run(row, front), last);
    if last.action.Expiry? {
      SeenSinceEveryReport(row, front, i);
    }
  }

  /** No sandbox is declared lost within the stale window of any sign of life. */
  lemma {:induction false} ExpiryOnlyAfterSilence(row: Row, steps: seq<Step>, at: Time)
    requires Fresh(row) && Advancing(steps)
    requires Expire(Run(row, steps), at).1
    ensures Expire(Run(row, steps), at).0.state == Some(Stopped)
    ensures forall i :: 0 <= i < |steps| && SignOfLife(steps[i]) ==> at - steps[i].at >= STALE_AFTER
  {
    var r := Run(row, steps);
    RunKeepsRowsInStep(row, steps);
    assert Live(r);
    forall i | 0 <= i < |steps| && SignOfLife(steps[i])
      ensures at - steps[i].at >= STALE_AFTER
    {
      SeenSinceEveryReport(row, steps, i);
    }
  }

  // ---------------------------------------------------------------- the row updated in place

  /** A session row whose sandbox columns, and environment row, are written column by column. */
  class SessionColumns {
    const hosted: bool
    const environmentId: Option<string>
    var state: Option<State>
    var reason: Option<string>
    var since: Option<Time>
    var seenAt: Option<Time>
    var worker: Option<Id>
    var image: Option<string>
    var version: Option<string>
    var size: Option<string>
    var coldBoots: Option<nat>
    var lastBootMs: Option<int>
    var environment: Option<RowStatus>

    function Columns(): Row
      reads this
    {
      Row(hosted, environmentId, state, reason, since, seenAt, worker, image, version, size, coldBoots, lastBootMs,
          environment)
    }

    constructor (hosted: bool, environmentId: Option<string>, environment: Option<RowStatus>)
      ensures Fresh(Columns()) && Columns().hosted == hosted
      ensures Columns().environmentId == environmentId && Columns().environment == environment
    {
      this.hosted := hosted;
      this.environmentId := environmentId;
      this.environment := environment;
      state, reason, since, seenAt, worker := None, None, None, None, None;
      image, version, size, coldBoots, lastBootMs := None, None, None, None, None;
    }

    method SyncEnvironmentRow(s: State)
      modifies this`environment
      ensures Columns() == Synced(old(Columns()), s)
    {
      if environment.Some? {
        environment := Some(RowStatusOf(s));
      }
    }

    /** The columns of a ready report. */
    method RecordBoot(fields: Fields)
      modifies this
      ensures Columns() == old(Columns()).(
        state := Some(Ready), reason := None, coldBoots := Some(Boots(old(Columns())) + 1),
        image := Or(fields.image, old(image)), version := Or(fields.version, old(version)),
        size := Or(fields.size, old(size)), lastBootMs := Or(fields.bootMs, old(lastBootMs)))
    {
      state := Some(Ready);
      reason := None;
      coldBoots := Some((if coldBoots.Some? then coldBoots.value else 0) + 1);
      if fields.image.Some? { image := fields.image; }
      if fields.version.Some? { version := fields.version; }
      if fields.size.Some? { size := fields.size; }
      if fields.bootMs.Some? { lastBootMs := fields.bootMs; }
    }

    method ApplyTransition(phase: Phase, fields: Fields, now: Time) returns (notice: Option<Notice>)
      modifies this
      ensures (Columns(), notice) == Transition(old(Columns()), phase, fields, now)
    {
      hide Synced, SandboxData;
      seenAt := Some(now);
      since := Some(now);
      if fields.worker.Some? { worker := fields.worker; }
      match phase {
        case ToStarting =>
          state := Some(Starting);
          reason := None;
          if fields.image.Some? { image := fields.image; }
          if fields.size.Some? { size := fields.size; }
          notice := Some(PendingNotice(Columns(), fields));
        case ToReady =>
          RecordBoot(fields);
          notice := Some(ConnectedNotice(Columns(), fields));
        case ToStopped =>
          state := Some(Stopped);
          reason := Some(if fields.reason.Some? then fields.reason.value else "stop");
          notice := Some(DisconnectedNotice(Columns(), fields));
        case Unknown(_) =>
          notice := None;
          return;
      }
      SyncEnvironmentRow(state.value);
    }

    method NoteFailedInPlace(code: Option<string>, now: Time)
      modifies this
      ensures Columns() == NoteFailed(old(Columns()), code, now)
    {
      if !hosted { return; }
      state := Some(Failed);
      reason := code;
      since := Some(now);
      seenAt := Some(now);
      SyncEnvironmentRow(Failed);
    }

    method ExpireIfStale(now: Time) returns (announced: bool)
      modifies this
      ensures (Columns(), announced) == Expire(old(Columns()), now)
    {
      if !hosted { return false; }
      var (seen, why) := EffectiveState(Columns(), now);
      if seen == state || why != Some(WORKER_LOST) { return false; }
      state := Some(Stopped);
      reason := Some(WORKER_LOST);
      since := Some(now);
      SyncEnvironmentRow(Stopped);
      return true;
    }

    method TouchSeenInPlace(now: Time)
      modifies this`seenAt
      ensures Columns() == TouchSeen(old(Columns()), now)
    {
      if state == Some(Starting) || state == Some(Ready) {
        seenAt := Some(now);
      }
    }
  }
}
