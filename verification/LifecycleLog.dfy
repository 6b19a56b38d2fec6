/**
 Reconciliation of the lifecycle log: what `reconcile` computes, as functions of values.

 The log is lossy, duplicated and reordered. It is deduplicated by event id, grouped by boot, sorted
 by sequence number and folded; then boots that were replaced or fell silent are closed.
 Moments and spans are in microseconds.
 */
module LifecycleLog {
  import opened Common

  datatype Entry = Entry(session: Option<string>, startSeq: Option<int>, startedAt: Option<Time>)

  datatype Kind =
    | LiveStart(session: Option<string>)
    | LiveStop(startSeq: int, reason: string, liveMs: Option<int>)
    | Beat(interval: Option<Time>, live: seq<Entry>)
    | OtherKind

  /** An event as it arrives; fields that are missing or of the wrong type are `None`. */
  datatype Event = Event(
    id: Option<string>,
    boot: Option<string>,
    seqno: int,
    at: Option<Time>,
    worker: Option<string>,
    instance: Option<string>,
    kind: Kind)

  datatype Interval = Interval(boot: string, session: Option<string>, startSeq: int, startedAt: Option<Time>,
                               lastListed: Option<Time>)

  datatype Record = Record(boot: string, session: Option<string>, startSeq: int, startedAt: Option<Time>,
                           closedAt: Time, reason: string, liveMs: Option<int>)

  datatype Identity = Identity(worker: Option<string>, instance: Option<string>)

  /** `opens` and `intervals` are dictionaries in insertion order. */
  datatype Books = Books(
    opens: seq<Interval>,
    closed: seq<Record>,
    lastBeat: map<string, Time>,
    lastEvent: map<string, Time>,
    intervals: seq<(string, Time)>,
    identity: map<string, Identity>)

  const EMPTY := Books([], [], map[], map[], [], map[])

  // ---------------------------------------------------------------- order of the input

  predicate Heard(events: seq<Event>, id: string) {
    exists i :: 0 <= i < |events| && events[i].id == Some(id)
  }

  /** Keep the first event of each id, and every event without one. */
  function Dedupe(events: seq<Event>): seq<Event> {
    if events == [] then []
    else
      var front, last := events[..|events| - 1], events[|events| - 1];
      Dedupe(front) + (if last.id.Some? && Heard(front, last.id.value) then [] else [last])
  }

  /** The boots in the order they are first seen. */
  function Boots(events: seq<Event>): seq<string> {
    if events == [] then []
    else
      var front, last := events[..|events| - 1], events[|events| - 1];
      Boots(front) + (if last.boot.Some? && last.boot.value !in Boots(front) then [last.boot.value] else [])
  }

  function OfBoot(events: seq<Event>, boot: string): seq<Event> {
    if events == [] then []
    else
      var front, last := events[..|events| - 1], events[|events| - 1];
      OfBoot(front, boot) + (if last.boot == Some(boot) then [last] else [])
  }

  /** Insert behind everything that is not later: the sort is stable. */
  function Insert(rows: seq<Event>, e: Event): seq<Event> {
    if rows == [] || rows[|rows| - 1].seqno <= e.seqno then rows + [e]
    else Insert(rows[..|rows| - 1], e) + [rows[|rows| - 1]]
  }

  function SortBySeq(events: seq<Event>): seq<Event> {
    if events == [] then [] else Insert(SortBySeq(events[..|events| - 1]), events[|events| - 1])
  }

  // ---------------------------------------------------------------- dictionaries in insertion order

  predicate IsAt(opens: seq<Interval>, i: int, boot: string, q: int) {
    0 <= i < |opens| && opens[i].boot == boot && opens[i].startSeq == q
  }

  /** The index of the interval with this key, or -1. */
  function Find(opens: seq<Interval>, boot: string, q: int): (i: int)
    ensures i == -1 || IsAt(opens, i, boot, q)
    ensures i == -1 ==> forall k :: !IsAt(opens, k, boot, q)
  {
    if opens == [] then -1
    else
      var n := |opens| - 1;
      if opens[n].boot == boot && opens[n].startSeq == q then n
      else
        var i := Find(opens[..n], boot, q);
        assert forall k :: IsAt(opens, k, boot, q) && k != n ==> IsAt(opens[..n], k, boot, q);
        i
  }

  function Put(opens: seq<Interval>, iv: Interval): seq<Interval> {
    var i := Find(opens, iv.boot, iv.startSeq);
    if i < 0 then opens + [iv] else opens[i := iv]
  }

  function Without(opens: seq<Interval>, i: nat): seq<Interval>
    requires i < |opens|
  {
    opens[..i] + opens[i + 1..]
  }

  function PutGap(gaps: seq<(string, Time)>, boot: string, gap: Time): seq<(string, Time)> {
    if gaps == [] then [(boot, gap)]
    else if gaps[0].0 == boot then [(boot, gap)] + gaps[1..]
    else [gaps[0]] + PutGap(gaps[1..], boot, gap)
  }

  // ---------------------------------------------------------------- the fold

  function Close(iv: Interval, at: Time, reason: string, liveMs: Option<int>): Record {
    Record(iv.boot, iv.session, iv.startSeq, iv.startedAt, at, reason, liveMs)
  }

  /** The notes every event leaves: the boot's last moment and who it says it is. */
  function Note(b: Books, boot: string, e: Event): Books {
    var known := if boot in b.identity then b.identity[boot] else Identity(None, None);
    b.(lastEvent := if e.at.Some? then b.lastEvent[boot := e.at.value] else b.lastEvent,
       identity := b.identity[boot := Identity(if e.worker.Some? then e.worker else known.worker,
                                               if e.instance.Some? then e.instance else known.instance)])
  }

  /** One well-formed entry of a heartbeat: opened if unknown, else marked as listed. */
  function ListOne(opens: seq<Interval>, boot: string, entry: Entry, at: Time): seq<Interval> {
    if entry.session.None? || entry.startSeq.None? then opens
    else
      var i := Find(opens, boot, entry.startSeq.value);
      if i < 0 then opens + [Interval(boot, entry.session, entry.startSeq.value, entry.startedAt, Some(at))]
      else opens[i := opens[i].(lastListed := Some(at))]
  }

  function ListAll(opens: seq<Interval>, boot: string, live: seq<Entry>, at: Time): seq<Interval> {
    if live == [] then opens else ListOne(ListAll(opens, boot, live[..|live| - 1], at), boot, live[|live| - 1], at)
  }

  /** The pairs a heartbeat lists. */
  predicate Listed(live: seq<Entry>, session: Option<string>, q: int) {
    session.Some? && exists i :: 0 <= i < |live| && live[i].session == session && live[i].startSeq == Some(q)
  }

  /** The interval belongs to the boot and its heartbeat does not list it. */
  predicate Lost(iv: Interval, boot: string, live: seq<Entry>) {
    iv.boot == boot && !Listed(live, iv.session, iv.startSeq)
  }

  function Kept(opens: seq<Interval>, boot: string, live: seq<Entry>): seq<Interval> {
    if opens == [] then []
    else
      var front, last := opens[..|opens| - 1], opens[|opens| - 1];
      Kept(front, boot, live) + (if Lost(last, boot, live) then [] else [last])
  }

  function LostRecords(opens: seq<Interval>, boot: string, live: seq<Entry>, at: Time): seq<Record> {
    if opens == [] then []
    else
      var front, last := opens[..|opens| - 1], opens[|opens| - 1];
      LostRecords(front, boot, live, at)
      + (if Lost(last, boot, live)
         then [Close(last, if last.lastListed.Some? then last.lastListed.value else at, "lost", None)]
         else [])
  }

  function Step(b0: Books, boot: string, e: Event): Books {
    var b := Note(b0, boot, e);
    match e.kind
    case LiveStart(session) => b.(opens := Put(b.opens, Interval(boot, session, e.seqno, e.at, None)))
    case LiveStop(q, reason, liveMs) =>
      var i := Find(b.opens, boot, q);
      if i < 0 then b
      else if e.at.None? then b.(opens := Without(b.opens, i))
      else b.(opens := Without(b.opens, i),
              closed := b.closed + [Close(b.opens[i], e.at.value, if reason == "" then "stop" else reason, liveMs)])
    case Beat(interval, live) =>
      if e.at.None? then b
      else
        var listed := ListAll(b.opens, boot, live, e.at.value);
        b.(opens := Kept(listed, boot, live),
           closed := b.closed + LostRecords(listed, boot, live, e.at.value),
           lastBeat := b.lastBeat[boot := e.at.value],
           intervals := if interval.Some? then PutGap(b.intervals, boot, interval.value) else b.intervals)
    case OtherKind => b
  }

  function Fold(b: Books, boot: string, rows: seq<Event>): Books {
    if rows == [] then b else Step(Fold(b, boot, rows[..|rows| - 1]), boot, rows[|rows| - 1])
  }

  function FoldBoots(b: Books, events: seq<Event>, boots: seq<string>): Books {
    if boots == [] then b
    else
      var boot := boots[|boots| - 1];
      Fold(FoldBoots(b, events, boots[..|boots| - 1]), boot, SortBySeq(OfBoot(events, boot)))
  }

  // ---------------------------------------------------------------- closing whole boots

  function Others(opens: seq<Interval>, boot: string): seq<Interval> {
    if opens == [] then []
    else
      var front, last := opens[..|opens| - 1], opens[|opens| - 1];
      Others(front, boot) + (if last.boot == boot then [] else [last])
  }

  function BootRecords(opens: seq<Interval>, boot: string, at: Time): seq<Record> {
    if opens == [] then []
    else
      var front, last := opens[..|opens| - 1], opens[|opens| - 1];
      BootRecords(front, boot, at) + (if last.boot == boot then [Close(last, at, "worker_lost", None)] else [])
  }

  function CloseBoot(b: Books, boot: string, at: Time): Books {
    b.(opens := Others(b.opens, boot), closed := b.closed + BootRecords(b.opens, boot, at))
  }

  /** The last sign of a boot: its last heartbeat, else its last event with a moment. */
  function LastSign(b: Books, boot: string): Option<Time> {
    if boot in b.lastBeat then Some(b.lastBeat[boot])
    else if boot in b.lastEvent then Some(b.lastEvent[boot])
    else None
  }

  function CloseReplaced(b: Books, prior: string): Books {
    match LastSign(b, prior)
    case None => b
    case Some(at) => CloseBoot(b, prior, at)
  }

  function IdentityOf(b: Books, boot: string): Identity {
    if boot in b.identity then b.identity[boot] else Identity(None, None)
  }

  predicate Names(name: Option<string>) {
    name.Some? && name.value != ""
  }

  datatype Seen = Seen(workers: map<string, string>, instances: map<string, string>)

  /** The boots the next one replaces: the last seen of its worker, and the last seen of its instance. */
  function Replaces(b: Books, seen: Seen, boot: string): seq<string> {
    var who := IdentityOf(b, boot);
    (if Names(who.worker) && who.worker.value in seen.workers && seen.workers[who.worker.value] != boot
     then [seen.workers[who.worker.value]] else [])
    + (if Names(who.instance) && who.instance.value in seen.instances && seen.instances[who.instance.value] != boot
       then [seen.instances[who.instance.value]] else [])
  }

  function CloseEach(b: Books, priors: seq<string>): Books {
    if priors == [] then b else CloseReplaced(CloseEach(b, priors[..|priors| - 1]), priors[|priors| - 1])
  }

  function SeenAfter(b: Books, seen: Seen, boot: string): Seen {
    var who := IdentityOf(b, boot);
    Seen(if Names(who.worker) then seen.workers[who.worker.value := boot] else seen.workers,
         if Names(who.instance) then seen.instances[who.instance.value := boot] else seen.instances)
  }

  function SeenAll(b: Books, boots: seq<string>): Seen {
    if boots == [] then Seen(map[], map[]) else SeenAfter(b, SeenAll(b, boots[..|boots| - 1]), boots[|boots| - 1])
  }

  function Supersede(b: Books, boots: seq<string>): Books {
    if boots == [] then b
    else
      var front, boot := boots[..|boots| - 1], boots[|boots| - 1];
      CloseEach(Supersede(b, front), Replaces(b, SeenAll(b, front), boot))
  }

  predicate Silent(b: Books, boot: string, gap: Time, now: Time, grace: Time) {
    boot in b.lastBeat && now - b.lastBeat[boot] > 2 * gap + grace
  }

  function Expire(b: Books, gaps: seq<(string, Time)>, now: Time, grace: Time): Books {
    if gaps == [] then b
    else
      var before, (boot, gap) := Expire(b, gaps[..|gaps| - 1], now, grace), gaps[|gaps| - 1];
      if Silent(before, boot, gap, now, grace) then CloseBoot(before, boot, before.lastBeat[boot]) else before
  }

  /** The books when `reconcile` returns; it hands out `closed`. */
  function Reconciled(events: seq<Event>, now: Time, grace: Time): Books {
    var ordered := Dedupe(events);
    var folded := FoldBoots(EMPTY, ordered, Boots(ordered));
    var superseded := Supersede(folded, Boots(ordered));
    Expire(superseded, superseded.intervals, now, grace)
  }
}
