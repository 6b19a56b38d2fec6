/** The sandbox columns after any run, told from the steps alone, and what a report announces. */
module SandboxHistory {
  import opened Common
  import opened Json
  import opened SandboxStatus

  // ---------------------------------------------------------------- columns that are carried over

  /** The last value any step carries. */
  function Last<T>(steps: seq<Step>, carried: Step -> Option<T>): Option<T> {
    if steps == [] then None
    else if carried(steps[|steps| - 1]).Some? then carried(steps[|steps| - 1])
    else Last(steps[..|steps| - 1], carried)
  }

  /** What a report carries, in its first two phases, in its second, and in any. */
  function ImageIn(step: Step): Option<string> {
    match step.action
    case Report(ToStarting, fields) => fields.image
    case Report(ToReady, fields) => fields.image
    case _ => None
  }

  function SizeIn(step: Step): Option<string> {
    match step.action
    case Report(ToStarting, fields) => fields.size
    case Report(ToReady, fields) => fields.size
    case _ => None
  }

  function VersionIn(step: Step): Option<string> {
    match step.action
    case Report(ToReady, fields) => fields.version
    case _ => None
  }

  function BootMsIn(step: Step): Option<int> {
    match step.action
    case Report(ToReady, fields) => fields.bootMs
    case _ => None
  }

  function WorkerIn(step: Step): Option<Id> {
    match step.action
    case Report(_, fields) => fields.worker
    case _ => None
  }

  /** The last value carried, or what the row had before; a row without a hosted sandbox keeps what it had. */
  function Carried<T>(row: Row, steps: seq<Step>, carried: Step -> Option<T>, before: Option<T>): Option<T> {
    if row.hosted && Last(steps, carried).Some? then Last(steps, carried) else before
  }

  function OneCarried<T>(row: Row, step: Step, carried: Step -> Option<T>, before: Option<T>): Option<T> {
    if row.hosted && carried(step).Some? then carried(step) else before
  }

  lemma ReportCarries(row: Row, step: Step)
    requires row.hosted && step.action.Report?
    ensures var r := Perform(row, step);
      && r.image == OneCarried(row, step, ImageIn, row.image) && r.size == OneCarried(row, step, SizeIn, row.size)
      && r.version == OneCarried(row, step, VersionIn, row.version)
      && r.lastBootMs == OneCarried(row, step, BootMsIn, row.lastBootMs)
      && r.worker == OneCarried(row, step, WorkerIn, row.worker)
      && r.hosted == row.hosted && r.environmentId == row.environmentId
  {
    hide PendingNotice, ConnectedNotice, DisconnectedNotice, RowStatusOf;
    match step.action.phase
    case ToStarting =>
    case ToReady =>
    case ToStopped =>
    case Unknown(_) =>
  }

  lemma StepCarries(row: Row, step: Step)
    ensures var r := Perform(row, step);
      && r.image == OneCarried(row, step, ImageIn, row.image) && r.size == OneCarried(row, step, SizeIn, row.size)
      && r.version == OneCarried(row, step, VersionIn, row.version)
      && r.lastBootMs == OneCarried(row, step, BootMsIn, row.lastBootMs)
      && r.worker == OneCarried(row, step, WorkerIn, row.worker)
      && r.hosted == row.hosted && r.environmentId == row.environmentId
  {
    hide Transition, EffectiveState, RowStatusOf;
    if row.hosted && step.action.Report? {
      ReportCarries(row, step);
    }
  }

  lemma LastGrows<T>(row: Row, before: Row, steps: seq<Step>, carried: Step -> Option<T>, was: Option<T>)
    requires steps != [] && before.hosted == row.hosted
    ensures var front, last := steps[..|steps| - 1], steps[|steps| - 1];
      Carried(row, steps, carried, was) == OneCarried(before, last, carried, Carried(row, front, carried, was))
  {
  }

  lemma {:induction false} ColumnsAreTheLastReported(row: Row, steps: seq<Step>)
    ensures var r := Run(row, steps);
      && r.image == Carried(row, steps, ImageIn, row.image) && r.size == Carried(row, steps, SizeIn, row.size)
      && r.version == Carried(row, steps, VersionIn, row.version)
      && r.lastBootMs == Carried(row, steps, BootMsIn, row.lastBootMs)
      && r.worker == Carried(row, steps, WorkerIn, row.worker)
      && r.hosted == row.hosted && r.environmentId == row.environmentId
  {
    hide Perform, Carried, OneCarried;
    if steps == [] {
      NothingCarried(row);
    } else {
      var front, last := steps[..|steps| - 1], steps[|steps| - 1];
      var before := Run(row, front);
      ColumnsAreTheLastReported(row, front);
      StepCarries(before, last);
      LastGrows(row, before, steps, ImageIn, row.image);
      LastGrows(row, before, steps, SizeIn, row.size);
      LastGrows(row, before, steps, VersionIn, row.version);
      LastGrows(row, before, steps, BootMsIn, row.lastBootMs);
      LastGrows(row, before, steps, WorkerIn, row.worker);
    }
  }

  lemma NothingCarried(row: Row)
    ensures Carried(row, [], ImageIn, row.image) == row.image && Carried(row, [], SizeIn, row.size) == row.size
    ensures Carried(row, [], VersionIn, row.version) == row.version
    ensures Carried(row, [], BootMsIn, row.lastBootMs) == row.lastBootMs
    ensures Carried(row, [], WorkerIn, row.worker) == row.worker
  {
  }

  // ---------------------------------------------------------------- state, reason and moments

  predicate IsLive(state: Option<State>) {
    state == Some(Starting) || state == Some(Ready)
  }

  /** The last step is an expiry that finds a live sandbox unseen for fifteen seconds. */
  predicate ExpiresNow(row: Row, steps: seq<Step>) {
    steps != [] && steps[|steps| - 1].action.Expiry? &&
    var before, at := Run(row, steps[..|steps| - 1]), steps[|steps| - 1].at;
    var seen := if before.seenAt.Some? then before.seenAt else before.since;
    row.hosted && IsLive(before.state) && seen.Some? && at - seen.value >= 15_000_000
  }

  /** The last step moves the state of the sandbox. */
  predicate MovesNow(row: Row, steps: seq<Step>) {
    steps != [] &&
    match steps[|steps| - 1].action
    case Report(phase, _) => row.hosted && !phase.Unknown?
    case Failure(_) => row.hosted
    case Expiry => ExpiresNow(row, steps)
    case Touch => false
  }

  /** State and reason as the last moving step leaves them. */
  function Standing(row: Row, steps: seq<Step>): (Option<State>, Option<string>) {
    if steps == [] then (row.state, row.reason)
    else if !MovesNow(row, steps) then Standing(row, steps[..|steps| - 1])
    else
      match steps[|steps| - 1].action
      case Report(ToStarting, _) => (Some(Starting), None)
      case Report(ToReady, _) => (Some(Ready), None)
      case Report(_, fields) => (Some(Stopped), if fields.reason == None then Some("stop") else fields.reason)
      case Failure(code) => (Some(Failed), code)
      case _ => (Some(Stopped), Some("worker_lost"))
  }

  /** The status of the environment row, if there is one, as the last moving step leaves it. */
  function Environment(row: Row, steps: seq<Step>): Option<RowStatus> {
    if steps == [] || row.environment == None then row.environment
    else if !MovesNow(row, steps) then Environment(row, steps[..|steps| - 1])
    else
      match steps[|steps| - 1].action
      case Report(ToStarting, _) => Some(Pending)
      case Report(ToReady, _) => Some(Connected)
      case Failure(_) => Some(FailedRow)
      case _ => Some(Disconnected)
  }

  /** The moment of the last report, failure or effective expiry. */
  function Since(row: Row, steps: seq<Step>): Option<Time> {
    if steps == [] then row.since
    else
      var last := steps[|steps| - 1];
      if (row.hosted && (last.action.Report? || last.action.Failure?)) || ExpiresNow(row, steps) then Some(last.at)
      else Since(row, steps[..|steps| - 1])
  }

  /** The moment of the last report or failure, or of a touch that found the sandbox live. */
  function Seen(row: Row, steps: seq<Step>): Option<Time> {
    if steps == [] then row.seenAt
    else
      var front, last := steps[..|steps| - 1], steps[|steps| - 1];
      if row.hosted && (last.action.Report? || last.action.Failure?) then Some(last.at)
      else if last.action.Touch? && IsLive(Run(row, front).state) then Some(last.at)
      else Seen(row, front)
  }

  lemma ReportStands(row: Row, phase: Phase, fields: Fields, now: Time)
    ensures var r := Transition(row, phase, fields, now).0;
      && r.seenAt == r.since == Some(now)
      && (phase.ToStarting? ==> r.state == Some(Starting) && r.reason == None)
      && (phase.ToReady? ==> r.state == Some(Ready) && r.reason == None)
      && (phase.ToStopped? ==>
            r.state == Some(Stopped) && r.reason == (if fields.reason == None then Some("stop") else fields.reason))
      && (phase.Unknown? ==> r.state == row.state && r.reason == row.reason && r.environment == row.environment)
      && (row.environment == None ==> r.environment == None)
      && (row.environment != None ==>
            && (phase.ToStarting? ==> r.environment == Some(Pending))
            && (phase.ToReady? ==> r.environment == Some(Connected))
            && (phase.ToStopped? ==> r.environment == Some(Disconnected)))
  {
    hide PendingNotice, ConnectedNotice, DisconnectedNotice, Or;
  }

  lemma StepStands(row: Row, steps: seq<Step>)
    requires steps != [] && Run(row, steps[..|steps| - 1]).hosted == row.hosted
    ensures var front, last := steps[..|steps| - 1], steps[|steps| - 1];
      var before, r := Run(row, front), Run(row, steps);
      && (!MovesNow(row, steps) ==> (r.state, r.reason) == (before.state, before.reason))
      && (MovesNow(row, steps) ==> (r.state, r.reason) == Standing(row, steps))
      && (!MovesNow(row, steps) || before.environment == None ==> r.environment == before.environment)
      && (MovesNow(row, steps) && before.environment != None && row.environment != None ==>
            r.environment == Environment(row, steps))
      && r.since == (if (row.hosted && (last.action.Report? || last.action.Failure?)) || ExpiresNow(row, steps)
                     then Some(last.at) else before.since)
      && r.seenAt == (if (row.hosted && (last.action.Report? || last.action.Failure?))
                         || (last.action.Touch? && IsLive(before.state))
                      then Some(last.at) else before.seenAt)
  {
    hide Transition, Run;
    var before, last := Run(row, steps[..|steps| - 1]), steps[|steps| - 1];
    assert Run(row, steps) == Perform(before, last) by { LastPerformed(row, steps); }
    if last.action.Report? {
      ReportStands(before, last.action.phase, last.action.fields, last.at);
    }
  }

  lemma LastPerformed(row: Row, steps: seq<Step>)
    requires steps != []
    ensures Run(row, steps) == Perform(Run(row, steps[..|steps| - 1]), steps[|steps| - 1])
  {
  }

  /**
   Over every run: state, reason and environment row are those of the last step that moved the sandbox, and the two
   moments are those of the last steps that count for them.
   */
  lemma {:induction false} StateIsTheLastMove(row: Row, steps: seq<Step>)
    ensures var r := Run(row, steps);
      && (r.state, r.reason) == Standing(row, steps) && r.environment == Environment(row, steps)
      && r.since == Since(row, steps) && r.seenAt == Seen(row, steps)
      && (r.environment == None <==> row.environment == None)
  {
    hide Perform, MovesNow, ExpiresNow;
    if steps != [] {
      StateIsTheLastMove(row, steps[..|steps| - 1]);
      ColumnsAreTheLastReported(row, steps[..|steps| - 1]);
      StepStands(row, steps);
    }
  }

  /** The public view: what the state says, unless it is live and has not been seen for fifteen seconds. */
  lemma ViewIsTheState(row: Row, now: Time)
    ensures var seen := if row.seenAt.Some? then row.seenAt else row.since;
      var lost := IsLive(row.state) && seen.Some? && now - seen.value >= 15_000_000;
      var view := EnvironmentStatus(row, now);
      && (view == None <==> !row.hosted)
      && (view == Some(Provisioning) <==> row.hosted && row.state == Some(Starting) && !lost)
      && (view == Some(ConnectedView) <==> row.hosted && row.state == Some(Ready) && !lost)
      && (view == Some(FailedView) <==> row.hosted && row.state == Some(Failed))
  {
  }

  // ---------------------------------------------------------------- the announcement of a report

  function Shown(text: Option<string>): Datum {
    match text
    case Some(t) => Text(t)
    case None => Null
  }

  function Counted(n: Option<int>): Datum {
    match n
    case Some(k) => Number(k)
    case None => Number(0)
  }

  function Caused(cause: Option<string>): Datum {
    match cause
    case Some("") => Text("spawn")
    case Some(c) => Text(c)
    case None => Text("spawn")
  }

  function Header(told: Data, id: Option<string>): Data {
    match id
    case None => map["sandbox" := Object(told)]
    case Some("") => map["sandbox" := Object(told)]
    case Some(text) => map["sandbox" := Object(told), "environment_id" := Text(text)]
  }

  lemma Spelled(text: Option<string>, n: Option<int>)
    ensures OptionalText(text) == Shown(text) && NumberOrZero(n) == Counted(n) && TextOr(text, "spawn") == Caused(text)
  {
  }

  lemma SpelledData(row: Row, told: Data)
    ensures SandboxData(row, told) == Header(told, row.environmentId)
  {
  }

  function PendingBody(r: Row, fields: Fields): Data {
    map["state" := Text("starting"), "cold" := Flag(true), "cause" := Caused(fields.cause),
        "image" := Shown(r.image), "size" := Shown(r.size)]
  }

  function ConnectedBody(r: Row, fields: Fields): Data {
    map["state" := Text("ready"), "image" := Shown(r.image), "image_version" := Shown(r.version),
        "size" := Shown(r.size), "run_mode" := Shown(fields.runMode), "boot_ms" := Counted(fields.bootMs),
        "lock_wait_ms" := Counted(fields.lockWaitMs), "setup_ms" := Counted(fields.setupMs)]
  }

  function GoneBody(r: Row, fields: Fields): Data {
    map["state" := Text("stopped"), "reason" := Shown(r.reason), "live_ms" := Counted(fields.liveMs)]
  }

  lemma PendingTells(r: Row, fields: Fields)
    ensures PendingNotice(r, fields)
         == Notice("agent.session.environment.pending", Header(PendingBody(r, fields), r.environmentId))
  {
    hide SandboxData, Header, OptionalText, Shown, TextOr, Caused;
    Spelled(fields.cause, None);
    Spelled(r.image, None);
    Spelled(r.size, None);
    SpelledData(r, PendingBody(r, fields));
  }

  lemma ConnectedTells(r: Row, fields: Fields)
    ensures ConnectedNotice(r, fields)
         == Notice("agent.session.environment.connected", Header(ConnectedBody(r, fields), r.environmentId))
  {
    hide SandboxData, Header, OptionalText, Shown, NumberOrZero, Counted;
    Spelled(r.image, fields.bootMs);
    Spelled(r.version, fields.lockWaitMs);
    Spelled(r.size, fields.setupMs);
    Spelled(fields.runMode, None);
    SpelledData(r, ConnectedBody(r, fields));
  }

  lemma GoneTells(r: Row, fields: Fields)
    ensures DisconnectedNotice(r, fields)
         == Notice("agent.session.environment.disconnected", Header(GoneBody(r, fields), r.environmentId))
  {
    hide SandboxData, Header, OptionalText, Shown, NumberOrZero, Counted;
    Spelled(r.reason, fields.liveMs);
    SpelledData(r, GoneBody(r, fields));
  }

  /** A known phase is announced with the columns as they stand after the report and the report's own fields. */
  lemma NoticeTellsTheColumns(row: Row, phase: Phase, fields: Fields, now: Time)
    ensures var r, notice := Transition(row, phase, fields, now).0, Transition(row, phase, fields, now).1;
      var id := row.environmentId;
      && (phase.ToStarting? ==>
            notice == Some(Notice("agent.session.environment.pending", Header(PendingBody(r, fields), id))))
      && (phase.ToReady? ==>
            notice == Some(Notice("agent.session.environment.connected", Header(ConnectedBody(r, fields), id))))
      && (phase.ToStopped? ==>
            notice == Some(Notice("agent.session.environment.disconnected", Header(GoneBody(r, fields), id))))
      && (phase.Unknown? ==> notice == None)
  {
    hide Or, RowStatusOf, Header, PendingNotice, ConnectedNotice, DisconnectedNotice;
    forall x: Row
      ensures PendingNotice(x, fields)
           == Notice("agent.session.environment.pending", Header(PendingBody(x, fields), x.environmentId))
      ensures ConnectedNotice(x, fields)
           == Notice("agent.session.environment.connected", Header(ConnectedBody(x, fields), x.environmentId))
      ensures DisconnectedNotice(x, fields)
           == Notice("agent.session.environment.disconnected", Header(GoneBody(x, fields), x.environmentId))
    {
      PendingTells(x, fields);
      ConnectedTells(x, fields);
      GoneTells(x, fields);
    }
  }

  /** An expiry announces a disconnect if and only if it ends a live sandbox unseen for fifteen seconds. */
  lemma ExpiryAnnounces(row: Row, steps: seq<Step>, at: Time)
    ensures Expire(Run(row, steps), at).1 <==> ExpiresNow(row, steps + [Step(at, Expiry)])
  {
    hide Run;
    assert (steps + [Step(at, Expiry)])[..|steps|] == steps;
    ColumnsAreTheLastReported(row, steps);
  }
}
