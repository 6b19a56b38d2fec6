/**
 The event bus over N replicas, as steps: subscribers and publishers on every replica, NOTIFY as a
 queue per listener, flushes that fail part way, listeners that come and go.

 The number of a delta is its place among what its replica published for its session. The bus never
 looks at it; it is how the model tells deltas apart.
 */
module EventBus {
  import opened Common
  import opened NotifyBatches

  datatype Delta = Delta(origin: nat, session: Id, n: nat, size: nat)

  datatype Message = Stored(session: Id, seqno: int) | Wake(session: Id, seqno: int) | Live(delta: Delta)

  datatype Note = WakeNote(origin: nat, session: Id, seqno: int) | LiveNote(origin: nat, session: Id, batch: seq<Delta>)

  /**
   `waking` are the publishes still waiting for their NOTIFY, `flushing` the batches the flush in
   progress has yet to send, `channel` what the listening connection has yet to hand over.
   */
  datatype Replica = Replica(
    subs: map<Id, seq<nat>>,
    live: map<Id, seq<Delta>>,
    flushing: map<Id, seq<seq<Delta>>>,
    waking: multiset<(Id, int)>,
    listening: bool,
    channel: seq<Note>)

  /** `since` is how many deltas its replica had published for the session when the queue was opened. */
  datatype Home = Home(replica: nat, session: Id, since: nat)

  /** Queues are numbered in the order they are opened; `said` counts the deltas of a replica for a session. */
  datatype Bus = Bus(
    replicas: seq<Replica>,
    queues: seq<seq<Message>>,
    homes: seq<Home>,
    published: multiset<(Id, int)>,
    said: map<(nat, Id), nat>)

  /** What becomes of one NOTIFY: an error may come before or after the server took it. */
  datatype Fate = Sent | Skipped | Failed | SentThenFailed

  predicate Reaches(fate: Fate) {
    fate.Sent? || fate.SentThenFailed?
  }

  /** An error drops the rest of the session's batches. */
  function Remaining(batches: seq<seq<Delta>>, fate: Fate): seq<seq<Delta>>
    requires batches != []
  {
    if fate.Sent? || fate.Skipped? then batches[1..] else []
  }

  datatype Step =
    | Subscribe(r: nat, session: Id)
    | Unsubscribe(r: nat, session: Id, queue: nat)
    | PublishEvent(r: nat, session: Id, seqno: int, remote: bool)
    | SendWake(r: nat, session: Id, seqno: int, fate: Fate)
    | PublishLive(r: nat, session: Id, size: nat, remote: bool)
    | StartFlush(r: nat, cut: map<Id, seq<seq<Delta>>>)
    | SendBatch(r: nat, session: Id, fate: Fate)
    | AbandonFlush(r: nat)
    | Receive(r: nat)
    | Disconnect(r: nat)
    | Listen(r: nat)

  function SizeOf(d: Delta): nat {
    d.size
  }

  /** The batches `split_notify_batches` makes of every session's buffer. */
  ghost predicate Cuts(live: map<Id, seq<Delta>>, cut: map<Id, seq<seq<Delta>>>) {
    cut.Keys == live.Keys && forall s :: s in live ==>
      && Concat(cut[s]) == live[s]
      && Fits(cut[s], SizeOf, NOTIFY_LIMIT - LIVE_HEADROOM) && Full(cut[s], SizeOf, NOTIFY_LIMIT - LIVE_HEADROOM)
  }

  function Subs(rep: Replica, s: Id): seq<nat> {
    if s in rep.subs then rep.subs[s] else []
  }

  function Buffered(rep: Replica, s: Id): seq<Delta> {
    if s in rep.live then rep.live[s] else []
  }

  function Unsent(rep: Replica, s: Id): seq<seq<Delta>> {
    if s in rep.flushing then rep.flushing[s] else []
  }

  function Said(bus: Bus, r: nat, s: Id): nat {
    if (r, s) in bus.said then bus.said[(r, s)] else 0
  }

  function RemoveOne(list: seq<nat>, q: nat): seq<nat> {
    if list == [] then [] else if list[0] == q then list[1..] else [list[0]] + RemoveOne(list[1..], q)
  }

  /** Put the messages on the queues listed, each once. */
  function Dispatch(queues: seq<seq<Message>>, to: seq<nat>, messages: seq<Message>): (after: seq<seq<Message>>)
    ensures |after| == |queues|
  {
    seq(|queues|, q requires 0 <= q < |queues| => if q in to then queues[q] + messages else queues[q])
  }

  function LiveMessages(batch: seq<Delta>): seq<Message> {
    seq(|batch|, i requires 0 <= i < |batch| => Live(batch[i]))
  }

  /** NOTIFY reaches every connection that listens, the sender's own too. */
  function Broadcast(replicas: seq<Replica>, note: Note): (after: seq<Replica>)
    ensures |after| == |replicas|
  {
    seq(|replicas|, i requires 0 <= i < |replicas| =>
      if replicas[i].listening then replicas[i].(channel := replicas[i].channel + [note]) else replicas[i])
  }

  /** What a listener puts on its queues for a note: nothing for its own. */
  function Heard(note: Note, r: nat): seq<Message> {
    if note.origin == r then []
    else match note
      case WakeNote(_, s, seqno) => [Wake(s, seqno)]
      case LiveNote(_, _, batch) => LiveMessages(batch)
  }

  ghost predicate Enabled(bus: Bus, step: Step) {
    step.r < |bus.replicas| &&
    var rep := bus.replicas[step.r];
    match step
    case SendWake(_, s, seqno, _) => (s, seqno) in rep.waking
    case StartFlush(_, cut) => rep.flushing == map[] && Cuts(rep.live, cut)
    case SendBatch(_, s, _) => Unsent(rep, s) != []
    case Receive(_) => rep.channel != []
    case _ => true
  }

  /** The row of the replica that moves, before a note reaches its channel. */
  ghost function OwnRow(bus: Bus, step: Step): Replica
    requires Enabled(bus, step)
  {
    var r, rep := step.r, bus.replicas[step.r];
    match step
    case Subscribe(_, s) => rep.(subs := rep.subs[s := Subs(rep, s) + [|bus.queues|]])
    case Unsubscribe(_, s, q) =>
      var left := RemoveOne(Subs(rep, s), q);
      rep.(subs := if left == [] then rep.subs - {s} else rep.subs[s := left])
    case PublishEvent(_, s, seqno, remote) =>
      if remote then rep.(waking := rep.waking + multiset{(s, seqno)}) else rep
    case SendWake(_, s, seqno, _) => rep.(waking := rep.waking - multiset{(s, seqno)})
    case PublishLive(_, s, size, remote) =>
      if remote then rep.(live := rep.live[s := Buffered(rep, s) + [Delta(r, s, Said(bus, r, s), size)]]) else rep
    case StartFlush(_, cut) => rep.(live := map[], flushing := cut)
    case SendBatch(_, s, fate) =>
      var left := Remaining(Unsent(rep, s), fate);
      rep.(flushing := if left == [] then rep.flushing - {s} else rep.flushing[s := left])
    case AbandonFlush(_) => rep.(flushing := map[])
    case Receive(_) => rep.(channel := rep.channel[1..])
    case Disconnect(_) => rep.(listening := false, channel := [])
    case Listen(_) => rep.(listening := true)
  }

  /** One step; a step that is not enabled does nothing. */
  ghost function Next(bus: Bus, step: Step): Bus {
    if !Enabled(bus, step) then bus
    else
      var r, rep := step.r, bus.replicas[step.r];
      var rows := bus.replicas[r := OwnRow(bus, step)];
      match step
      case Subscribe(_, s) =>
        bus.(replicas := rows, queues := bus.queues + [[]], homes := bus.homes + [Home(r, s, Said(bus, r, s))])
      case PublishEvent(_, s, seqno, _) =>
        bus.(replicas := rows, queues := Dispatch(bus.queues, Subs(rep, s), [Stored(s, seqno)]),
             published := bus.published + multiset{(s, seqno)})
      case SendWake(_, s, seqno, fate) =>
        bus.(replicas := if Reaches(fate) then Broadcast(rows, WakeNote(r, s, seqno)) else rows)
      case PublishLive(_, s, size, _) =>
        bus.(replicas := rows, queues := Dispatch(bus.queues, Subs(rep, s), [Live(Delta(r, s, Said(bus, r, s), size))]),
             said := bus.said[(r, s) := Said(bus, r, s) + 1])
      case SendBatch(_, s, fate) =>
        bus.(replicas := if Reaches(fate) then Broadcast(rows, LiveNote(r, s, Unsent(rep, s)[0])) else rows)
      case Receive(_) =>
        var note := rep.channel[0];
        bus.(replicas := rows, queues := Dispatch(bus.queues, Subs(rep, note.session), Heard(note, r)))
      case _ => bus.(replicas := rows)
  }

  ghost function Run(bus: Bus, steps: seq<Step>): Bus {
    if steps == [] then bus else Next(Run(bus, steps[..|steps| - 1]), steps[|steps| - 1])
  }

  const IDLE := Replica(map[], map[], map[], multiset{}, false, [])

  /** N replicas that have not done anything yet. */
  function Initial(n: nat): Bus {
    Bus(seq(n, _ => IDLE), [], [], multiset{}, map[])
  }

  // ---------------------------------------------------------------- what a step does to one replica, column by column

  /** A broadcast touches channels only. */
  lemma RowsAfter(bus: Bus, step: Step, r: nat)
    requires r < |bus.replicas|
    ensures |Next(bus, step).replicas| == |bus.replicas|
    ensures var row, next := bus.replicas[r], Next(bus, step).replicas[r];
      next == (if Enabled(bus, step) && step.r == r then OwnRow(bus, step) else row).(channel := next.channel)
  {
    hide OwnRow, Cuts, Heard, Dispatch, Unsent, Said, Subs;
  }

  lemma ChannelAfter(bus: Bus, step: Step, r: nat)
    requires r < |bus.replicas|
    ensures |Next(bus, step).replicas| == |bus.replicas|
    ensures var rep := bus.replicas[r];
      Next(bus, step).replicas[r].channel ==
        if !Enabled(bus, step) then rep.channel
        else if step.SendWake? && Reaches(step.fate) && rep.listening then
          rep.channel + [WakeNote(step.r, step.session, step.seqno)]
        else if step.SendBatch? && Reaches(step.fate) && rep.listening then
          rep.channel + [LiveNote(step.r, step.session, Unsent(bus.replicas[step.r], step.session)[0])]
        else if step.Receive? && step.r == r then rep.channel[1..]
        else if step.Disconnect? && step.r == r then []
        else rep.channel
  {
    hide Cuts, Heard, RemoveOne, Dispatch, Remaining, Buffered, Unsent, Said, Subs;
  }

  lemma SaidAfter(bus: Bus, step: Step, r: nat, s: Id)
    ensures Said(Next(bus, step), r, s) == Said(bus, r, s)
      + if Enabled(bus, step) && step.PublishLive? && step.r == r && step.session == s then 1 else 0
  {
    hide OwnRow, Cuts, Heard, Dispatch, Unsent, Subs, Broadcast;
  }

  /** Only subscribing opens a queue. */
  lemma HomesAfter(bus: Bus, step: Step)
    ensures var opens := Enabled(bus, step) && step.Subscribe?;
      && Next(bus, step).homes
         == (if opens then bus.homes + [Home(step.r, step.session, Said(bus, step.r, step.session))] else bus.homes)
      && |Next(bus, step).queues| == |bus.queues| + (if opens then 1 else 0)
      && (opens ==> Next(bus, step).queues == bus.queues + [[]])
  {
    hide OwnRow, Cuts, Heard, Unsent, Said, Subs, Broadcast;
  }

  // ---------------------------------------------------------------- queues belong to one session of one replica

  predicate NoRepeats(list: seq<nat>) {
    forall i, j :: 0 <= i < j < |list| ==> list[i] != list[j]
  }

  ghost predicate OwnSubs(homes: seq<Home>, i: nat, subs: seq<nat>, s: Id) {
    NoRepeats(subs) && forall q :: q in subs ==> q < |homes| && homes[q].replica == i && homes[q].session == s
  }

  ghost predicate Settled(bus: Bus) {
    && |bus.homes| == |bus.queues|
    && (forall i, s :: 0 <= i < |bus.replicas| ==> OwnSubs(bus.homes, i, Subs(bus.replicas[i], s), s))
  }

  lemma {:induction false} RemovedIsFewer(list: seq<nat>, q: nat)
    requires NoRepeats(list)
    ensures NoRepeats(RemoveOne(list, q))
    ensures forall x :: x in RemoveOne(list, q) <==> x in list && x != q
  {
    if list != [] {
      assert forall x :: x in list <==> x == list[0] || x in list[1..];
      assert forall x :: x in list[1..] ==> x != list[0];
      assert NoRepeats(list[1..]);
      if list[0] != q {
        RemovedIsFewer(list[1..], q);
        OneBefore(list[0], RemoveOne(list[1..], q));
      }
    }
  }

  lemma OneBefore(x: nat, list: seq<nat>)
    requires NoRepeats(list) && x !in list
    ensures NoRepeats([x] + list)
  {
  }

  lemma SettledNext(bus: Bus, step: Step)
    requires Settled(bus)
    ensures Settled(Next(bus, step))
  {
    hide OwnSubs, Next;
    Lengths(bus, step);
    forall i, s | 0 <= i < |bus.replicas|
      ensures OwnSubs(Next(bus, step).homes, i, Subs(Next(bus, step).replicas[i], s), s)
    {
      OwnSubsNext(bus, step, i, s);
    }
  }

  lemma Lengths(bus: Bus, step: Step)
    requires |bus.homes| == |bus.queues|
    ensures var next := Next(bus, step); |next.homes| == |next.queues| && |next.replicas| == |bus.replicas|
  {
    hide Next, Enabled;
    HomesAfter(bus, step);
    if bus.replicas != [] {
      RowsAfter(bus, step, 0);
    } else {
      NoReplicas(bus, step);
    }
  }

  lemma NoReplicas(bus: Bus, step: Step)
    requires bus.replicas == []
    ensures Next(bus, step) == bus
  {
  }

  lemma OwnSubsNext(bus: Bus, step: Step, i: nat, s: Id)
    requires Settled(bus) && i < |bus.replicas| && |Next(bus, step).replicas| == |bus.replicas|
    ensures OwnSubs(Next(bus, step).homes, i, Subs(Next(bus, step).replicas[i], s), s)
  {
    hide Next, RemoveOne, NoRepeats, Remaining, Buffered, Unsent, Cuts;
    assert OwnSubs(bus.homes, i, Subs(bus.replicas[i], s), s);
    RowsAfter(bus, step, i);
    HomesAfter(bus, step);
    if i == step.r && Enabled(bus, step) {
      if step.Unsubscribe? {
        assert OwnSubs(bus.homes, i, Subs(bus.replicas[i], step.session), step.session);
        RemovedIsFewer(Subs(bus.replicas[i], step.session), step.queue);
      } else if step.Subscribe? && step.session == s {
        OneMore(Subs(bus.replicas[i], s), |bus.queues|);
      }
    }
  }

  lemma OneMore(list: seq<nat>, q: nat)
    requires NoRepeats(list) && q !in list
    ensures NoRepeats(list + [q])
  {
  }

  // ---------------------------------------------------------------- a stored event, seen by one queue

  /** How often a queue got the event, as a body or as a wake. */
  function Tellings(queue: seq<Message>, s: Id, e: int): nat {
    if queue == [] then 0
    else
      Tellings(queue[..|queue| - 1], s, e)
      + (if queue[|queue| - 1] == Stored(s, e) || queue[|queue| - 1] == Wake(s, e) then 1 else 0)
  }

  /** How many wakes for the event a channel still brings to this replica. */
  function Coming(channel: seq<Note>, r: nat, s: Id, e: int): nat {
    if channel == [] then 0
    else
      Coming(channel[1..], r, s, e)
      + (if channel[0].WakeNote? && channel[0].origin != r && channel[0].session == s && channel[0].seqno == e
         then 1 else 0)
  }

  /** How many publishes elsewhere have yet to send theirs. */
  function Waiting(replicas: seq<Replica>, r: nat, s: Id, e: int): nat {
    if replicas == [] then 0
    else
      var k := |replicas| - 1;
      Waiting(replicas[..k], r, s, e) + (if k == r then 0 else replicas[k].waking[(s, e)])
  }

  /** What can still reach a queue of this replica. */
  function Pending(bus: Bus, r: nat, s: Id, e: int): nat
    requires r < |bus.replicas|
  {
    Coming(bus.replicas[r].channel, r, s, e) + Waiting(bus.replicas, r, s, e)
  }

  /** What a queue got of an event, and what can still reach it, was published that often. */
  ghost predicate ToldOnce(bus: Bus, s: Id, e: int) {
    && |bus.homes| == |bus.queues|
    && (forall r :: 0 <= r < |bus.replicas| ==> Pending(bus, r, s, e) <= bus.published[(s, e)])
    && (forall q :: 0 <= q < |bus.queues| ==>
          && bus.homes[q].replica < |bus.replicas|
          && Tellings(bus.queues[q], s, e) + Pending(bus, bus.homes[q].replica, s, e) <= bus.published[(s, e)])
  }

  lemma {:induction false} TellingsJoin(a: seq<Message>, b: seq<Message>, s: Id, e: int)
    ensures Tellings(a + b, s, e) == Tellings(a, s, e) + Tellings(b, s, e)
  {
    if b == [] {
      assert a + b == a;
    } else {
      assert (a + b)[..|a + b| - 1] == a + b[..|b| - 1];
      TellingsJoin(a, b[..|b| - 1], s, e);
    }
  }

  lemma {:induction false} NoTellingsInLive(batch: seq<Delta>, s: Id, e: int)
    ensures Tellings(LiveMessages(batch), s, e) == 0
  {
    if batch != [] {
      NoTellingsInLive(batch[..|batch| - 1], s, e);
      assert LiveMessages(batch)[..|batch| - 1] == LiveMessages(batch[..|batch| - 1]);
    }
  }

  /** A note is at most one telling, and only where it counts as coming. */
  lemma HeardTells(note: Note, r: nat, s: Id, e: int)
    ensures Tellings(Heard(note, r), s, e) == Coming([note], r, s, e)
  {
    if note.LiveNote? {
      NoTellingsInLive(note.batch, s, e);
    } else {
      assert [Wake(note.session, note.seqno)][..0] == [];
    }
  }

  lemma {:induction false} ComingJoins(a: seq<Note>, b: seq<Note>, r: nat, s: Id, e: int)
    ensures Coming(a + b, r, s, e) == Coming(a, r, s, e) + Coming(b, r, s, e)
  {
    if a == [] {
      assert a + b == b;
    } else {
      assert (a + b)[1..] == a[1..] + b;
      ComingJoins(a[1..], b, r, s, e);
    }
  }

  lemma {:induction false} WaitingUpdated(replicas: seq<Replica>, k: nat, rep: Replica, r: nat, s: Id, e: int)
    requires k < |replicas|
    ensures Waiting(replicas[k := rep], r, s, e)
         == Waiting(replicas, r, s, e) + (if k == r then 0 else rep.waking[(s, e)] as int - replicas[k].waking[(s, e)])
  {
    var n := |replicas| - 1;
    if k < n {
      assert replicas[k := rep][..n] == replicas[..n][k := rep];
      WaitingUpdated(replicas[..n], k, rep, r, s, e);
    } else {
      assert replicas[k := rep][..n] == replicas[..n];
    }
  }

  lemma {:induction false} WaitingSame(a: seq<Replica>, b: seq<Replica>, r: nat, s: Id, e: int)
    requires |a| == |b| && forall i :: 0 <= i < |a| ==> a[i].waking == b[i].waking
    ensures Waiting(a, r, s, e) == Waiting(b, r, s, e)
  {
    if a != [] {
      WaitingSame(a[..|a| - 1], b[..|b| - 1], r, s, e);
    }
  }

  /** How the pending count of a replica moves when replica `k` changes to `rep`. */
  lemma PendingUpdated(bus: Bus, bus': Bus, k: nat, rep: Replica, r: nat, s: Id, e: int)
    requires k < |bus.replicas| && r < |bus.replicas| && bus'.replicas == bus.replicas[k := rep]
    ensures Pending(bus', r, s, e) == Pending(bus, r, s, e)
      + (if k == r then Coming(rep.channel, r, s, e) - Coming(bus.replicas[r].channel, r, s, e)
         else rep.waking[(s, e)] as int - bus.replicas[k].waking[(s, e)])
  {
    WaitingUpdated(bus.replicas, k, rep, r, s, e);
  }

  lemma ComingOfNothing(r: nat, s: Id, e: int)
    ensures Coming([], r, s, e) == 0 && Tellings([], s, e) == 0
  {
  }

  /** A step that neither tells nor sends. */
  lemma QuietStep(bus: Bus, bus': Bus, k: nat, rep: Replica, s: Id, e: int)
    requires ToldOnce(bus, s, e) && k < |bus.replicas|
    requires bus'.replicas == bus.replicas[k := rep] && rep.waking == bus.replicas[k].waking
    requires rep.channel == bus.replicas[k].channel || rep.channel == []
    requires bus'.published == bus.published && |bus'.homes| == |bus'.queues|
    requires |bus.queues| <= |bus'.queues| && bus.homes == bus'.homes[..|bus.homes|]
    requires forall q :: 0 <= q < |bus.queues| ==> Tellings(bus'.queues[q], s, e) == Tellings(bus.queues[q], s, e)
    requires forall q :: |bus.queues| <= q < |bus'.queues| ==> bus'.queues[q] == [] && bus'.homes[q].replica == k
    ensures ToldOnce(bus', s, e)
  {
    hide Pending, Tellings, Coming;
    forall r | 0 <= r < |bus.replicas|
      ensures Pending(bus', r, s, e) <= Pending(bus, r, s, e)
    {
      PendingUpdated(bus, bus', k, rep, r, s, e);
      ComingOfNothing(r, s, e);
    }
    ComingOfNothing(k, s, e);
    forall q | 0 <= q < |bus'.queues|
      ensures bus'.homes[q].replica < |bus'.replicas|
      ensures Tellings(bus'.queues[q], s, e) + Pending(bus', bus'.homes[q].replica, s, e) <= bus'.published[(s, e)]
    {
      if q < |bus.queues| { assert bus'.homes[q] == bus.homes[q]; }
    }
  }

  lemma PublishTells(bus: Bus, step: Step, s: Id, e: int)
    requires Settled(bus) && ToldOnce(bus, s, e) && step.PublishEvent? && Enabled(bus, step)
    ensures ToldOnce(Next(bus, step), s, e)
  {
    hide Pending, Tellings, Coming;
    var next, k := Next(bus, step), step.r;
    var more := if step.session == s && step.seqno == e then 1 else 0;
    assert next.published[(s, e)] == bus.published[(s, e)] + more;
    forall r | 0 <= r < |bus.replicas|
      ensures Pending(next, r, s, e) <= Pending(bus, r, s, e) + (if r == k then 0 else more)
    {
      PendingUpdated(bus, next, k, next.replicas[k], r, s, e);
    }
    forall q | 0 <= q < |bus.queues|
      ensures Tellings(next.queues[q], s, e) <= Tellings(bus.queues[q], s, e)
        + (if bus.homes[q].replica == k then more else 0)
    {
      TellingsJoin(bus.queues[q], [Stored(step.session, step.seqno)], s, e);
      OneTelling(Stored(step.session, step.seqno), s, e);
    }
  }

  lemma OneTelling(m: Message, s: Id, e: int)
    ensures Tellings([m], s, e) == if m == Stored(s, e) || m == Wake(s, e) then 1 else 0
  {
    assert [m][..0] == [];
  }

  /** A broadcast note comes once to every listener but its sender's own. */
  lemma BroadcastComes(replicas: seq<Replica>, note: Note, r: nat, s: Id, e: int)
    requires r < |replicas|
    ensures Coming(Broadcast(replicas, note)[r].channel, r, s, e)
         <= Coming(replicas[r].channel, r, s, e)
            + (if note.WakeNote? && note.origin != r && note.session == s && note.seqno == e then 1 else 0)
    ensures Waiting(Broadcast(replicas, note), r, s, e) == Waiting(replicas, r, s, e)
  {
    ComingJoins(replicas[r].channel, [note], r, s, e);
    WaitingSame(Broadcast(replicas, note), replicas, r, s, e);
  }

  lemma SendWakeTells(bus: Bus, step: Step, s: Id, e: int)
    requires ToldOnce(bus, s, e) && step.SendWake? && Enabled(bus, step)
    ensures ToldOnce(Next(bus, step), s, e)
  {
    hide Tellings, Coming, Waiting, Broadcast;
    var next, k := Next(bus, step), step.r;
    var note := WakeNote(k, step.session, step.seqno);
    var rep := bus.replicas[k].(waking := bus.replicas[k].waking - multiset{(step.session, step.seqno)});
    var quiet := bus.(replicas := bus.replicas[k := rep]);
    forall r | 0 <= r < |bus.replicas|
      ensures Pending(next, r, s, e) <= Pending(bus, r, s, e)
    {
      PendingUpdated(bus, quiet, k, rep, r, s, e);
      BroadcastComes(quiet.replicas, note, r, s, e);
    }
  }

  lemma SendBatchTells(bus: Bus, step: Step, s: Id, e: int)
    requires ToldOnce(bus, s, e) && step.SendBatch? && Enabled(bus, step)
    ensures ToldOnce(Next(bus, step), s, e)
  {
    hide Tellings, Coming, Waiting, Broadcast;
    var next, k := Next(bus, step), step.r;
    var batches := Unsent(bus.replicas[k], step.session);
    var left := Remaining(batches, step.fate);
    var rep := bus.replicas[k].(flushing := if left == [] then bus.replicas[k].flushing - {step.session}
                                            else bus.replicas[k].flushing[step.session := left]);
    var quiet := bus.(replicas := bus.replicas[k := rep]);
    forall r | 0 <= r < |bus.replicas|
      ensures Pending(next, r, s, e) <= Pending(bus, r, s, e)
    {
      PendingUpdated(bus, quiet, k, rep, r, s, e);
      BroadcastComes(quiet.replicas, LiveNote(k, step.session, batches[0]), r, s, e);
    }
  }

  lemma ReceiveTells(bus: Bus, step: Step, s: Id, e: int)
    requires Settled(bus) && ToldOnce(bus, s, e) && step.Receive? && Enabled(bus, step)
    ensures ToldOnce(Next(bus, step), s, e)
  {
    hide Tellings, Coming, Waiting, Heard;
    var next, k := Next(bus, step), step.r;
    var channel := bus.replicas[k].channel;
    var told := Coming([channel[0]], k, s, e);
    assert channel == [channel[0]] + channel[1..];
    ComingJoins([channel[0]], channel[1..], k, s, e);
    HeardTells(channel[0], k, s, e);
    forall r | 0 <= r < |bus.replicas|
      ensures Pending(next, r, s, e) == Pending(bus, r, s, e) - (if r == k then told else 0)
    {
      PendingUpdated(bus, next, k, next.replicas[k], r, s, e);
    }
    forall q | 0 <= q < |bus.queues|
      ensures Tellings(next.queues[q], s, e) <= Tellings(bus.queues[q], s, e)
        + (if bus.homes[q].replica == k then told else 0)
    {
      TellingsJoin(bus.queues[q], Heard(channel[0], k), s, e);
    }
  }

  lemma LiveTells(bus: Bus, step: Step, s: Id, e: int)
    requires ToldOnce(bus, s, e) && step.PublishLive? && Enabled(bus, step)
    ensures ToldOnce(Next(bus, step), s, e)
  {
    hide Tellings, Coming, Waiting, Pending;
    var next, k := Next(bus, step), step.r;
    var delta := Delta(k, step.session, Said(bus, k, step.session), step.size);
    forall q | 0 <= q < |bus.queues|
      ensures Tellings(next.queues[q], s, e) == Tellings(bus.queues[q], s, e)
    {
      TellingsJoin(bus.queues[q], [Live(delta)], s, e);
      OneTelling(Live(delta), s, e);
    }
    QuietStep(bus, next, k, next.replicas[k], s, e);
  }

  lemma ToldOnceNext(bus: Bus, step: Step, s: Id, e: int)
    requires Settled(bus) && ToldOnce(bus, s, e)
    ensures ToldOnce(Next(bus, step), s, e)
  {
    hide ToldOnce, Tellings, Coming, Waiting, Pending, Settled;
    if Enabled(bus, step) {
      match step
      case PublishEvent(_, _, _, _) => PublishTells(bus, step, s, e);
      case SendWake(_, _, _, _) => SendWakeTells(bus, step, s, e);
      case PublishLive(_, _, _, _) => LiveTells(bus, step, s, e);
      case SendBatch(_, _, _) => SendBatchTells(bus, step, s, e);
      case Receive(_) => ReceiveTells(bus, step, s, e);
      case _ =>
        assert |bus.homes| == |bus.queues| by { SameLength(bus, s, e); }
        QuietStep(bus, Next(bus, step), step.r, Next(bus, step).replicas[step.r], s, e);
    }
  }

  lemma SameLength(bus: Bus, s: Id, e: int)
    requires ToldOnce(bus, s, e)
    ensures |bus.homes| == |bus.queues|
  {
  }

  lemma {:induction false} RunTells(n: nat, steps: seq<Step>, s: Id, e: int)
    ensures var bus := Run(Initial(n), steps); Settled(bus) && ToldOnce(bus, s, e)
  {
    hide ToldOnce, Settled, Next;
    if steps == [] {
      NothingTold(n, s, e);
    } else {
      RunTells(n, steps[..|steps| - 1], s, e);
      SettledNext(Run(Initial(n), steps[..|steps| - 1]), steps[|steps| - 1]);
      ToldOnceNext(Run(Initial(n), steps[..|steps| - 1]), steps[|steps| - 1], s, e);
    }
  }

  lemma {:induction false} NothingTold(n: nat, s: Id, e: int)
    ensures Settled(Initial(n)) && ToldOnce(Initial(n), s, e)
  {
    var none := Initial(n);
    forall r | 0 <= r < n
      ensures Pending(none, r, s, e) == 0
    {
      NobodyWaits(none.replicas, r, s, e);
    }
  }

  lemma {:induction false} NobodyWaits(replicas: seq<Replica>, r: nat, s: Id, e: int)
    requires forall i :: 0 <= i < |replicas| ==> replicas[i] == IDLE
    ensures Waiting(replicas, r, s, e) == 0
  {
    if replicas != [] {
      NobodyWaits(replicas[..|replicas| - 1], r, s, e);
    }
  }

  /**
   However many replicas and listeners, in every run: a queue gets a stored event, as the body from its
   own replica or as a wake from another, at most as often as the event was published.
   */
  lemma NoQueueIsToldTwice(n: nat, steps: seq<Step>, q: nat, s: Id, e: int)
    requires q < |Run(Initial(n), steps).queues|
    ensures Tellings(Run(Initial(n), steps).queues[q], s, e) <= Run(Initial(n), steps).published[(s, e)]
  {
    hide Run;
    RunTells(n, steps, s, e);
  }
}
