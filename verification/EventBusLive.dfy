/**
 Live deltas over the bus: they may be lost on the way to another replica, but what arrives is in
 order and without repeats; on their own replica nothing is lost.
 */
module EventBusLive {
  import opened Common
  import opened NotifyBatches
  import opened EventBus

  // ---------------------------------------------------------------- deltas in queues, channels and buffers

  function QueueDeltas(queue: seq<Message>): seq<Delta> {
    if queue == [] then []
    else
      QueueDeltas(queue[..|queue| - 1])
      + (if queue[|queue| - 1].Live? then [queue[|queue| - 1].delta] else [])
  }

  function NoteDeltas(note: Note): seq<Delta> {
    if note.LiveNote? then note.batch else []
  }

  function ChannelDeltas(channel: seq<Note>): seq<Delta> {
    if channel == [] then [] else NoteDeltas(channel[0]) + ChannelDeltas(channel[1..])
  }

  /** The numbers of the deltas this replica published for this session. */
  function From(deltas: seq<Delta>, r: nat, s: Id): seq<nat> {
    if deltas == [] then []
    else
      var last := deltas[|deltas| - 1];
      From(deltas[..|deltas| - 1], r, s) + (if last.origin == r && last.session == s then [last.n] else [])
  }

  predicate AllFrom(deltas: seq<Delta>, r: nat, s: Id) {
    forall i :: 0 <= i < |deltas| ==> deltas[i].origin == r && deltas[i].session == s
  }

  predicate Rising(numbers: seq<nat>, bound: nat) {
    && (forall i, j :: 0 <= i < j < |numbers| ==> numbers[i] < numbers[j])
    && (forall i :: 0 <= i < |numbers| ==> numbers[i] < bound)
  }

  lemma {:induction false} QueueDeltasJoin(a: seq<Message>, b: seq<Message>)
    ensures QueueDeltas(a + b) == QueueDeltas(a) + QueueDeltas(b)
  {
    if b == [] {
      assert a + b == a;
    } else {
      assert (a + b)[..|a + b| - 1] == a + b[..|b| - 1];
      QueueDeltasJoin(a, b[..|b| - 1]);
    }
  }

  lemma {:induction false} LiveMessagesCarry(batch: seq<Delta>)
    ensures QueueDeltas(LiveMessages(batch)) == batch
  {
    if batch != [] {
      LiveMessagesCarry(batch[..|batch| - 1]);
      assert LiveMessages(batch)[..|batch| - 1] == LiveMessages(batch[..|batch| - 1]);
    }
  }

  lemma OneMessage(m: Message)
    ensures QueueDeltas([m]) == if m.Live? then [m.delta] else []
  {
    assert [m][..0] == [];
  }

  lemma HeardCarries(note: Note, l: nat)
    ensures QueueDeltas(Heard(note, l)) == if note.origin == l then [] else NoteDeltas(note)
  {
    match note
    case WakeNote(_, s, seqno) => OneMessage(Wake(s, seqno));
    case LiveNote(_, _, batch) => LiveMessagesCarry(batch);
  }

  lemma {:induction false} ChannelDeltasJoin(a: seq<Note>, b: seq<Note>)
    ensures ChannelDeltas(a + b) == ChannelDeltas(a) + ChannelDeltas(b)
  {
    if a == [] {
      assert a + b == b;
    } else {
      assert (a + b)[1..] == a[1..] + b;
      ChannelDeltasJoin(a[1..], b);
    }
  }

  lemma {:induction false} FromJoin(a: seq<Delta>, b: seq<Delta>, r: nat, s: Id)
    ensures From(a + b, r, s) == From(a, r, s) + From(b, r, s)
  {
    if b == [] {
      assert a + b == a;
    } else {
      assert (a + b)[..|a + b| - 1] == a + b[..|b| - 1];
      FromJoin(a, b[..|b| - 1], r, s);
    }
  }

  lemma {:induction false} FromElsewhere(deltas: seq<Delta>, o: nat, t: Id, r: nat, s: Id)
    requires AllFrom(deltas, o, t) && (o != r || t != s)
    ensures From(deltas, r, s) == []
  {
    if deltas != [] {
      FromElsewhere(deltas[..|deltas| - 1], o, t, r, s);
    }
  }

  lemma DroppingKeepsRising(a: seq<nat>, b: seq<nat>, c: seq<nat>, bound: nat)
    requires Rising(a + b + c, bound)
    ensures Rising(a + c, bound)
  {
    var all := a + b + c;
    forall i | 0 <= i < |a + c|
      ensures (a + c)[i] == all[if i < |a| then i else i + |b|]
    {
    }
  }

  // ---------------------------------------------------------------- everything on its way is where it belongs

  function SessionOf(m: Message): Id {
    if m.Live? then m.delta.session else m.session
  }

  ghost predicate GenuineNote(note: Note) {
    AllFrom(NoteDeltas(note), note.origin, note.session)
  }

  ghost predicate GenuineReplica(rep: Replica, r: nat) {
    && (forall s :: AllFrom(Buffered(rep, s), r, s))
    && (forall s :: AllFrom(Concat(Unsent(rep, s)), r, s))
    && (forall i :: 0 <= i < |rep.channel| ==> GenuineNote(rep.channel[i]))
  }

  ghost predicate OwnQueue(queue: seq<Message>, s: Id) {
    forall i :: 0 <= i < |queue| ==> SessionOf(queue[i]) == s
  }

  /** Buffers, batches and notes hold the deltas of their own replica and session; queues are of one session. */
  ghost predicate Genuine(bus: Bus) {
    && Settled(bus)
    && (forall r :: 0 <= r < |bus.replicas| ==> GenuineReplica(bus.replicas[r], r))
    && (forall q :: 0 <= q < |bus.queues| ==> OwnQueue(bus.queues[q], bus.homes[q].session))
  }

  /** The batches after the first are a part of the batches. */
  lemma FirstAndRest(batches: seq<seq<Delta>>)
    requires batches != []
    ensures Concat(batches) == batches[0] + Concat(batches[1..])
  {
    assert batches == [batches[0]] + batches[1..];
    ConcatJoins([batches[0]], batches[1..]);
    assert [batches[0]][..0] == [] && Concat([batches[0]]) == Concat<Delta>([]) + batches[0];
  }

  lemma RemainingIsGenuine(batches: seq<seq<Delta>>, fate: Fate, r: nat, s: Id)
    requires batches != [] && AllFrom(Concat(batches), r, s)
    ensures AllFrom(Concat(Remaining(batches, fate)), r, s) && AllFrom(batches[0], r, s)
  {
    FirstAndRest(batches);
    var all, first, rest := Concat(batches), batches[0], Concat(batches[1..]);
    forall i | 0 <= i < |rest|
      ensures rest[i] == all[|first| + i]
    {
    }
    forall i | 0 <= i < |first|
      ensures first[i] == all[i]
    {
    }
  }

  lemma BufferIsGenuine(bus: Bus, r: nat, s: Id)
    requires Genuine(bus) && r < |bus.replicas|
    ensures AllFrom(Buffered(bus.replicas[r], s), r, s) && AllFrom(Concat(Unsent(bus.replicas[r], s)), r, s)
  {
    hide Settled, OwnQueue, AllFrom, Concat;
    assert GenuineReplica(bus.replicas[r], r);
  }

  lemma OneMoreFrom(deltas: seq<Delta>, d: Delta)
    requires AllFrom(deltas, d.origin, d.session)
    ensures AllFrom(deltas + [d], d.origin, d.session)
  {
  }

  lemma GenuineBuffersNext(bus: Bus, step: Step, r: nat, s: Id)
    requires Genuine(bus) && r < |bus.replicas|
    ensures |Next(bus, step).replicas| == |bus.replicas|
    ensures AllFrom(Buffered(Next(bus, step).replicas[r], s), r, s)
  {
    hide Genuine, Next, Remaining, Cuts, Unsent, Subs, Said, RemoveOne, AllFrom;
    BufferIsGenuine(bus, r, s);
    RowsAfter(bus, step, r);
    NoneFrom(r, s);
    if step.PublishLive? && step.session == s {
      OneMoreFrom(Buffered(bus.replicas[r], s), Delta(r, s, Said(bus, r, s), step.size));
    }
  }

  lemma NoneFrom(r: nat, s: Id)
    ensures AllFrom([], r, s) && AllFrom(Concat<Delta>([]), r, s)
  {
  }

  lemma GenuineUnsentNext(bus: Bus, step: Step, r: nat, s: Id)
    requires Genuine(bus) && r < |bus.replicas|
    ensures |Next(bus, step).replicas| == |bus.replicas|
    ensures AllFrom(Concat(Unsent(Next(bus, step).replicas[r], s)), r, s)
  {
    hide Genuine, Next, Remaining, Fits, Full, Subs, Said, RemoveOne, AllFrom, Concat;
    BufferIsGenuine(bus, r, s);
    RowsAfter(bus, step, r);
    NoneFrom(r, s);
    if Enabled(bus, step) && step.SendBatch? && step.r == r && step.session == s {
      RemainingIsGenuine(Unsent(bus.replicas[r], s), step.fate, r, s);
    }
  }

  ghost predicate GenuineChannel(channel: seq<Note>) {
    forall i :: 0 <= i < |channel| ==> GenuineNote(channel[i])
  }

  lemma ChannelIsGenuine(bus: Bus, r: nat)
    requires Genuine(bus) && r < |bus.replicas|
    ensures GenuineChannel(bus.replicas[r].channel)
  {
    hide Settled, OwnQueue, GenuineNote;
    assert GenuineReplica(bus.replicas[r], r);
  }

  lemma ChannelsStayGenuine(channel: seq<Note>, note: Note)
    requires GenuineChannel(channel)
    ensures GenuineNote(note) ==> GenuineChannel(channel + [note])
    ensures GenuineChannel([]) && (channel != [] ==> GenuineChannel(channel[1..]))
  {
    hide GenuineNote;
  }

  lemma WakeIsGenuine(o: nat, s: Id, seqno: int)
    ensures GenuineNote(WakeNote(o, s, seqno))
  {
  }

  lemma GenuineChannelNext(bus: Bus, step: Step, r: nat)
    requires Genuine(bus) && r < |bus.replicas|
    ensures |Next(bus, step).replicas| == |bus.replicas|
    ensures GenuineChannel(Next(bus, step).replicas[r].channel)
  {
    hide Genuine, Next, GenuineChannel, GenuineNote, Cuts, Unsent;
    var channel := bus.replicas[r].channel;
    ChannelIsGenuine(bus, r);
    ChannelAfter(bus, step, r);
    if Enabled(bus, step) && step.SendBatch? {
      BatchIsGenuine(bus, step);
      ChannelsStayGenuine(channel, LiveNote(step.r, step.session, Unsent(bus.replicas[step.r], step.session)[0]));
    } else if step.SendWake? {
      WakeIsGenuine(step.r, step.session, step.seqno);
      ChannelsStayGenuine(channel, WakeNote(step.r, step.session, step.seqno));
    } else {
      ChannelsStayGenuine(channel, WakeNote(r, 0, 0));
    }
  }

  lemma GenuineReplicaNext(bus: Bus, step: Step, r: nat)
    requires Genuine(bus) && r < |bus.replicas|
    ensures GenuineReplica(Next(bus, step).replicas[r], r)
  {
    hide Concat, Genuine, AllFrom, Next, GenuineNote;
    SameReplicas(bus, step);
    GenuineChannelNext(bus, step, r);
    forall s
      ensures AllFrom(Buffered(Next(bus, step).replicas[r], s), r, s)
      ensures AllFrom(Concat(Unsent(Next(bus, step).replicas[r], s)), r, s)
    {
      GenuineBuffersNext(bus, step, r, s);
      GenuineUnsentNext(bus, step, r, s);
    }
  }

  lemma HeardIsOwn(note: Note, l: nat)
    requires GenuineNote(note)
    ensures OwnQueue(Heard(note, l), note.session)
  {
  }

  lemma OwnQueueNext(bus: Bus, step: Step, q: nat)
    requires Genuine(bus) && q < |Next(bus, step).queues|
    ensures q < |Next(bus, step).homes| && OwnQueue(Next(bus, step).queues[q], Next(bus, step).homes[q].session)
  {
    hide Concat, GenuineNote, Heard, RemoveOne, Remaining, Fits, Full, Broadcast, NoRepeats;
    if q < |bus.queues| {
      assert OwnQueue(bus.queues[q], bus.homes[q].session);
      if step.r < |bus.replicas| && step.Receive? && bus.replicas[step.r].channel != [] {
        var note := bus.replicas[step.r].channel[0];
        assert OwnSubs(bus.homes, step.r, Subs(bus.replicas[step.r], note.session), note.session);
        assert GenuineReplica(bus.replicas[step.r], step.r);
        HeardIsOwn(note, step.r);
      } else if step.r < |bus.replicas| && (step.PublishEvent? || step.PublishLive?) {
        assert OwnSubs(bus.homes, step.r, Subs(bus.replicas[step.r], step.session), step.session);
      }
    }
  }

  lemma GenuineNext(bus: Bus, step: Step)
    requires Genuine(bus)
    ensures Genuine(Next(bus, step))
  {
    hide Next, Settled, GenuineReplica, OwnQueue;
    SettledNext(bus, step);
    SameReplicas(bus, step);
    forall r | 0 <= r < |bus.replicas|
      ensures GenuineReplica(Next(bus, step).replicas[r], r)
    {
      GenuineReplicaNext(bus, step, r);
    }
    forall q | 0 <= q < |Next(bus, step).queues|
      ensures q < |Next(bus, step).homes| && OwnQueue(Next(bus, step).queues[q], Next(bus, step).homes[q].session)
    {
      OwnQueueNext(bus, step, q);
    }
  }

  lemma SameReplicas(bus: Bus, step: Step)
    ensures |Next(bus, step).replicas| == |bus.replicas|
  {
    hide OwnRow, Cuts, Heard, Dispatch;
  }

  // ---------------------------------------------------------------- the line of deltas towards a replica

  /** What of a replica's deltas for a session is still on its way to this one. */
  function OnTheWay(bus: Bus, r: nat, s: Id, l: nat): seq<nat>
    requires r < |bus.replicas| && l < |bus.replicas|
  {
    if l == r then []
    else
      From(ChannelDeltas(bus.replicas[l].channel), r, s)
      + From(Concat(Unsent(bus.replicas[r], s)), r, s)
      + From(Buffered(bus.replicas[r], s), r, s)
  }

  /** What was got, then what is still on its way, is in order and without repeats. */
  ghost predicate Flows(bus: Bus, r: nat, s: Id, l: nat, got: seq<nat>)
    requires r < |bus.replicas| && l < |bus.replicas|
  {
    Rising(got + OnTheWay(bus, r, s, l), Said(bus, r, s))
  }

  function Got(queue: seq<Message>, r: nat, s: Id): seq<nat> {
    From(QueueDeltas(queue), r, s)
  }

  ghost predicate InLine(bus: Bus, r: nat, s: Id) {
    && r < |bus.replicas| && |bus.homes| == |bus.queues|
    && (forall l :: 0 <= l < |bus.replicas| ==> Flows(bus, r, s, l, []))
    && (forall q :: 0 <= q < |bus.queues| && bus.homes[q].session == s ==>
          bus.homes[q].replica < |bus.replicas| && Flows(bus, r, s, bus.homes[q].replica, Got(bus.queues[q], r, s)))
  }

  lemma GotJoins(queue: seq<Message>, messages: seq<Message>, r: nat, s: Id)
    ensures Got(queue + messages, r, s) == Got(queue, r, s) + Got(messages, r, s)
  {
    QueueDeltasJoin(queue, messages);
    FromJoin(QueueDeltas(queue), QueueDeltas(messages), r, s);
  }

  function FromNote(note: Note, r: nat, s: Id): seq<nat> {
    From(NoteDeltas(note), r, s)
  }

  function FromChannel(channel: seq<Note>, r: nat, s: Id): seq<nat> {
    From(ChannelDeltas(channel), r, s)
  }

  lemma ChannelGrows(channel: seq<Note>, note: Note, r: nat, s: Id)
    ensures FromChannel(channel + [note], r, s) == FromChannel(channel, r, s) + FromNote(note, r, s)
  {
    ChannelDeltasJoin(channel, [note]);
    assert [note][1..] == [] && NoteDeltas(note) + [] == NoteDeltas(note);
    FromJoin(ChannelDeltas(channel), NoteDeltas(note), r, s);
  }

  lemma ChannelHead(channel: seq<Note>, r: nat, s: Id)
    requires channel != []
    ensures FromChannel(channel, r, s) == FromNote(channel[0], r, s) + FromChannel(channel[1..], r, s)
  {
    FromJoin(NoteDeltas(channel[0]), ChannelDeltas(channel[1..]), r, s);
  }

  lemma NoteFromElsewhere(note: Note, r: nat, s: Id)
    requires GenuineNote(note) && (note.origin != r || note.session != s)
    ensures FromNote(note, r, s) == []
  {
    FromElsewhere(NoteDeltas(note), note.origin, note.session, r, s);
  }

  /** Sending a batch moves its deltas on, loses them, or loses the rest. */
  lemma SendBatchFlows(bus: Bus, step: Step, r: nat, s: Id, l: nat, got: seq<nat>)
    requires Genuine(bus) && r < |bus.replicas| && l < |bus.replicas| && Flows(bus, r, s, l, got)
    requires step.SendBatch? && Enabled(bus, step) && l != r
    ensures |Next(bus, step).replicas| == |bus.replicas| && Flows(Next(bus, step), r, s, l, got)
  {
    hide Genuine, From, ChannelDeltas, Concat, Rising, Remaining;
    var next := Next(bus, step);
    var batches := Unsent(bus.replicas[step.r], step.session);
    var note := LiveNote(step.r, step.session, batches[0]);
    ChannelGrows(bus.replicas[l].channel, note, r, s);
    var c, b := FromChannel(bus.replicas[l].channel, r, s), From(Buffered(bus.replicas[r], s), r, s);
    assert Buffered(next.replicas[r], s) == Buffered(bus.replicas[r], s);
    if step.r == r && step.session == s {
      SendBatchOfThisLine(bus, step, r, s, l, got);
    } else {
      BatchIsGenuine(bus, step);
      NoteFromElsewhere(note, r, s);
      assert Unsent(next.replicas[r], s) == Unsent(bus.replicas[r], s);
      assert c + [] == c;
    }
  }

  lemma BatchIsGenuine(bus: Bus, step: Step)
    requires Genuine(bus) && step.SendBatch? && Enabled(bus, step)
    ensures GenuineNote(LiveNote(step.r, step.session, Unsent(bus.replicas[step.r], step.session)[0]))
  {
    hide Settled, OwnQueue, Concat;
    assert GenuineReplica(bus.replicas[step.r], step.r);
    RemainingIsGenuine(Unsent(bus.replicas[step.r], step.session), step.fate, step.r, step.session);
  }

  lemma SendBatchOfThisLine(bus: Bus, step: Step, r: nat, s: Id, l: nat, got: seq<nat>)
    requires r < |bus.replicas| && l < |bus.replicas| && Flows(bus, r, s, l, got)
    requires step.SendBatch? && Enabled(bus, step) && l != r && step.r == r && step.session == s
    ensures |Next(bus, step).replicas| == |bus.replicas| && Flows(Next(bus, step), r, s, l, got)
  {
    hide From, ChannelDeltas, Concat, Rising, Next, Said, Subs, RemoveOne, Cuts;
    var next, batches := Next(bus, step), Unsent(bus.replicas[r], s);
    RowsAfter(bus, step, r);
    ChannelAfter(bus, step, l);
    SaidAfter(bus, step, r, s);
    ChannelGrows(bus.replicas[l].channel, LiveNote(r, s, batches[0]), r, s);
    FirstAndRest(batches);
    FromJoin(batches[0], Concat(batches[1..]), r, s);
    NoDeltasNoNumbers(r, s);
    var c, b := From(ChannelDeltas(bus.replicas[l].channel), r, s), From(Buffered(bus.replicas[r], s), r, s);
    var x, y := From(batches[0], r, s), From(Concat(batches[1..]), r, s);
    var reached := Reaches(step.fate) && bus.replicas[l].listening;
    var goesOn := step.fate.Sent? || step.fate.Skipped?;
    BatchLine(got, c, x, y, b, reached, goesOn, Said(bus, r, s));
    assert From(ChannelDeltas(next.replicas[l].channel), r, s) == c + if reached then x else [];
    assert From(Concat(Unsent(next.replicas[r], s)), r, s) == if goesOn then y else [];
  }

  lemma BatchLine(got: seq<nat>, c: seq<nat>, x: seq<nat>, y: seq<nat>, b: seq<nat>, reached: bool, goesOn: bool,
                  bound: nat)
    requires Rising(got + (c + (x + y) + b), bound)
    ensures Rising(got + (c + (if reached then x else []) + (if goesOn then y else []) + b), bound)
  {
    hide Rising;
    assert got + (c + (x + y) + b) == got + c + x + y + b;
    DropWhatWasLost(got + c, x, y, b, reached, goesOn, bound);
    assert got + (c + (if reached then x else []) + (if goesOn then y else []) + b)
        == got + c + (if reached then x else []) + (if goesOn then y else []) + b;
  }

  lemma NoDeltasNoNumbers(r: nat, s: Id)
    ensures From([], r, s) == [] && Concat<Delta>([]) == [] && ChannelDeltas([]) == []
  {
  }

  lemma DropWhatWasLost(c: seq<nat>, x: seq<nat>, y: seq<nat>, b: seq<nat>, keepX: bool, keepY: bool, bound: nat)
    requires Rising(c + x + y + b, bound)
    ensures Rising(c + (if keepX then x else []) + (if keepY then y else []) + b, bound)
  {
    assert c + x + y + b == c + x + (y + b);
    assert c + x + [] + b == (c + x) + b && c + [] + [] + b == c + b && c + [] + y + b == c + (y + b);
    assert c + x + y + b == c + (x + y) + b;
    if keepX && !keepY {
      DroppingKeepsRising(c + x, y, b, bound);
    } else if !keepX && keepY {
      DroppingKeepsRising(c, x, y + b, bound);
    } else if !keepX {
      DroppingKeepsRising(c, x + y, b, bound);
    }
  }

  /** A flush starts: the buffer becomes the batches. */
  lemma StartFlushFlows(bus: Bus, step: Step, r: nat, s: Id, l: nat, got: seq<nat>)
    requires r < |bus.replicas| && l < |bus.replicas| && Flows(bus, r, s, l, got)
    requires step.StartFlush? && Enabled(bus, step)
    ensures Flows(Next(bus, step), r, s, l, got)
  {
    hide From, ChannelDeltas, Concat, Rising, Fits, Full;
    NoDeltasNoNumbers(r, s);
    var next := Next(bus, step);
    if step.r == r {
      assert Concat(Unsent(next.replicas[r], s)) == Buffered(bus.replicas[r], s);
      assert Concat(Unsent(bus.replicas[r], s)) == [];
    }
    assert got + OnTheWay(next, r, s, l) == got + OnTheWay(bus, r, s, l);
  }

  lemma ReceiveRows(bus: Bus, step: Step)
    requires step.Receive? && Enabled(bus, step)
    ensures var rep := bus.replicas[step.r];
      Next(bus, step).replicas == bus.replicas[step.r := rep.(channel := rep.channel[1..])]
    ensures Next(bus, step).said == bus.said
  {
    hide Heard, Dispatch, Subs;
  }

  /** What leaves a channel leaves the line of its replica, and no other line. */
  lemma ReceiveShortens(bus: Bus, step: Step, r: nat, s: Id, l: nat)
    requires r < |bus.replicas| && l < |bus.replicas| && step.Receive? && Enabled(bus, step)
    ensures |Next(bus, step).replicas| == |bus.replicas| && Said(Next(bus, step), r, s) == Said(bus, r, s)
    ensures OnTheWay(bus, r, s, l)
         == (if step.r == l && l != r then FromNote(bus.replicas[l].channel[0], r, s) else [])
           + OnTheWay(Next(bus, step), r, s, l)
  {
    hide From, ChannelDeltas, Concat, Next, FromNote;
    ReceiveRows(bus, step);
    var next := Next(bus, step);
    assert Buffered(next.replicas[r], s) == Buffered(bus.replicas[r], s);
    assert Unsent(next.replicas[r], s) == Unsent(bus.replicas[r], s);
    var u, b := From(Concat(Unsent(bus.replicas[r], s)), r, s), From(Buffered(bus.replicas[r], s), r, s);
    if step.r == l && l != r {
      ChannelHead(bus.replicas[l].channel, r, s);
      Regroup(FromNote(bus.replicas[l].channel[0], r, s), FromChannel(bus.replicas[l].channel[1..], r, s), u, b);
    } else {
      assert [] + OnTheWay(next, r, s, l) == OnTheWay(next, r, s, l);
    }
  }

  lemma Regroup(x: seq<nat>, c: seq<nat>, u: seq<nat>, b: seq<nat>)
    ensures (x + c) + u + b == x + (c + u + b)
  {
  }

  /** What a listener hears of another's deltas is what the note carries. */
  lemma HeardOf(bus: Bus, r: nat, s: Id, l: nat)
    requires Genuine(bus) && l < |bus.replicas| && bus.replicas[l].channel != []
    ensures var note := bus.replicas[l].channel[0];
      Got(Heard(note, l), r, s) == if l == r then [] else FromNote(note, r, s)
  {
    hide Genuine, From, Heard, GenuineNote;
    var note := bus.replicas[l].channel[0];
    HeadIsGenuine(bus, l);
    HeardCarries(note, l);
    NoDeltasNoNumbers(r, s);
    if note.origin != r { NoteFromElsewhere(note, r, s); }
  }

  /** A listener takes a note: its deltas leave the line, for those who are subscribed into the queue. */
  lemma ReceiveFlows(bus: Bus, step: Step, r: nat, s: Id, l: nat, got: seq<nat>)
    requires Genuine(bus) && r < |bus.replicas| && l < |bus.replicas| && Flows(bus, r, s, l, got)
    requires step.Receive? && Enabled(bus, step)
    ensures |Next(bus, step).replicas| == |bus.replicas| && Flows(Next(bus, step), r, s, l, got)
    ensures step.r == l ==> Flows(Next(bus, step), r, s, l, got + Got(Heard(bus.replicas[l].channel[0], l), r, s))
  {
    hide Genuine, Rising, Heard, Next, OnTheWay, Got, FromNote;
    ReceiveShortens(bus, step, r, s, l);
    HeardOf(bus, r, s, step.r);
    var x := if step.r == l && l != r then FromNote(bus.replicas[l].channel[0], r, s) else [];
    var way := OnTheWay(Next(bus, step), r, s, l);
    assert got + OnTheWay(bus, r, s, l) == got + x + way;
    DroppingKeepsRising(got, x, way, Said(bus, r, s));
  }

  lemma HeadIsGenuine(bus: Bus, l: nat)
    requires Genuine(bus) && l < |bus.replicas| && bus.replicas[l].channel != []
    ensures GenuineNote(bus.replicas[l].channel[0])
  {
    hide Settled, OwnQueue, GenuineNote;
    assert GenuineReplica(bus.replicas[l], l);
  }

  /** A delta is published: the next number, behind everything on its way. */
  lemma PublishLiveFlows(bus: Bus, step: Step, r: nat, s: Id, l: nat, got: seq<nat>)
    requires r < |bus.replicas| && l < |bus.replicas| && Flows(bus, r, s, l, got)
    requires step.PublishLive? && Enabled(bus, step)
    ensures Flows(Next(bus, step), r, s, l, got)
    ensures l == r == step.r && step.session == s ==> Flows(Next(bus, step), r, s, l, got + [Said(bus, r, s)])
  {
    hide From, ChannelDeltas, Concat, Rising, Next, Remaining, RemoveOne, Subs, Cuts;
    RowsAfter(bus, step, r);
    ChannelAfter(bus, step, l);
    SaidAfter(bus, step, r, s);
    var next, said := Next(bus, step), Said(bus, r, s);
    var delta := Delta(step.r, step.session, Said(bus, step.r, step.session), step.size);
    assert Unsent(next.replicas[r], s) == Unsent(bus.replicas[r], s);
    RisingGrows(got + OnTheWay(bus, r, s, l), said);
    if step.r == r && step.session == s {
      FromJoin(Buffered(bus.replicas[r], s), [delta], r, s);
      OneDelta(delta, r, s);
      assert Said(next, r, s) == said + 1;
      if l != r {
        assert got + OnTheWay(next, r, s, l) == (got + OnTheWay(bus, r, s, l)) + (if step.remote then [said] else []);
        assert (got + OnTheWay(bus, r, s, l)) + [] == got + OnTheWay(bus, r, s, l);
      } else {
        assert got + [] == got && (got + [said]) + [] == got + [said];
      }
    } else {
      assert Buffered(next.replicas[r], s) == Buffered(bus.replicas[r], s);
      assert OnTheWay(next, r, s, l) == OnTheWay(bus, r, s, l) && Said(next, r, s) == said;
    }
  }

  lemma RisingGrows(numbers: seq<nat>, bound: nat)
    requires Rising(numbers, bound)
    ensures Rising(numbers, bound + 1) && Rising(numbers + [bound], bound + 1)
  {
  }

  lemma OneDelta(d: Delta, r: nat, s: Id)
    ensures From([d], r, s) == if d.origin == r && d.session == s then [d.n] else []
  {
    assert [d][..0] == [];
  }

  /** An abandoned flush or a lost listener cuts part of the line off. */
  lemma CutOffFlows(bus: Bus, step: Step, r: nat, s: Id, l: nat, got: seq<nat>)
    requires r < |bus.replicas| && l < |bus.replicas| && Flows(bus, r, s, l, got)
    requires (step.AbandonFlush? || step.Disconnect?) && Enabled(bus, step)
    ensures |Next(bus, step).replicas| == |bus.replicas| && Flows(Next(bus, step), r, s, l, got)
  {
    hide From, ChannelDeltas, Concat, Rising, Next, Enabled, Said, Remaining, RemoveOne, Subs;
    RowsAfter(bus, step, r);
    ChannelAfter(bus, step, l);
    SaidAfter(bus, step, r, s);
    if l != r {
      NoDeltasNoNumbers(r, s);
      CutLine(got, From(ChannelDeltas(bus.replicas[l].channel), r, s),
              From(Concat(Unsent(bus.replicas[r], s)), r, s), From(Buffered(bus.replicas[r], s), r, s),
              Said(bus, r, s));
    }
  }

  lemma CutLine(got: seq<nat>, c: seq<nat>, u: seq<nat>, b: seq<nat>, bound: nat)
    requires Rising(got + (c + u + b), bound)
    ensures Rising(got + ([] + u + b), bound) && Rising(got + (c + [] + b), bound)
  {
    hide Rising;
    assert got + (c + u + b) == got + c + (u + b) == got + c + u + b;
    DroppingKeepsRising(got, c, u + b, bound);
    DroppingKeepsRising(got + c, u, b, bound);
    assert got + ([] + u + b) == got + (u + b);
    assert got + (c + [] + b) == got + c + b;
  }

  lemma Associates<T>(a: seq<T>, b: seq<T>, c: seq<T>)
    ensures a + (b + c) == a + b + c && a + [] == a && [] + a == a
  {
  }

  /** Every other step leaves the line alone. */
  lemma OtherStepFlows(bus: Bus, step: Step, r: nat, s: Id, l: nat, got: seq<nat>)
    requires r < |bus.replicas| && l < |bus.replicas| && Flows(bus, r, s, l, got)
    requires step.SendWake? || step.Subscribe? || step.Unsubscribe? || step.PublishEvent? || step.Listen?
    requires Enabled(bus, step)
    ensures |Next(bus, step).replicas| == |bus.replicas| && Flows(Next(bus, step), r, s, l, got)
  {
    hide From, ChannelDeltas, Concat, Rising, Next;
    OtherStepRows(bus, step, r, l);
    var next := Next(bus, step);
    assert Buffered(next.replicas[r], s) == Buffered(bus.replicas[r], s);
    assert Unsent(next.replicas[r], s) == Unsent(bus.replicas[r], s);
    var c := FromChannel(bus.replicas[l].channel, r, s);
    if step.SendWake? {
      WakesAreNotDeltas(step.r, step.session, step.seqno, r, s);
      ChannelGrows(bus.replicas[l].channel, WakeNote(step.r, step.session, step.seqno), r, s);
      assert c + [] == c;
    }
    assert FromChannel(next.replicas[l].channel, r, s) == c;
  }

  lemma WakesAreNotDeltas(o: nat, t: Id, seqno: int, r: nat, s: Id)
    ensures FromNote(WakeNote(o, t, seqno), r, s) == []
  {
  }

  /** Such a step leaves buffers and batches, and adds at most a wake to a channel. */
  lemma OtherStepRows(bus: Bus, step: Step, r: nat, l: nat)
    requires r < |bus.replicas| && l < |bus.replicas|
    requires step.SendWake? || step.Subscribe? || step.Unsubscribe? || step.PublishEvent? || step.Listen?
    requires Enabled(bus, step)
    ensures var next := Next(bus, step);
      && |next.replicas| == |bus.replicas| && next.said == bus.said
      && next.replicas[r].live == bus.replicas[r].live && next.replicas[r].flushing == bus.replicas[r].flushing
      && (next.replicas[l].channel == bus.replicas[l].channel
          || (step.SendWake? &&
              next.replicas[l].channel
              == bus.replicas[l].channel + [WakeNote(step.r, step.session, step.seqno)]))
  {
    hide Next;
    if step.SendWake? {
      SendWakeRows(bus, step, r, l);
    } else {
      OwnRowOnly(bus, step);
    }
  }

  lemma SendWakeRows(bus: Bus, step: Step, r: nat, l: nat)
    requires r < |bus.replicas| && l < |bus.replicas| && step.SendWake? && Enabled(bus, step)
    ensures var next := Next(bus, step);
      && |next.replicas| == |bus.replicas| && next.said == bus.said
      && next.replicas[r].live == bus.replicas[r].live && next.replicas[r].flushing == bus.replicas[r].flushing
      && (next.replicas[l].channel == bus.replicas[l].channel
          || next.replicas[l].channel == bus.replicas[l].channel + [WakeNote(step.r, step.session, step.seqno)])
  {
    hide Dispatch, RemoveOne, Subs, Cuts, Heard, Remaining, Unsent, Buffered, Said, Broadcast;
    var rep := bus.replicas[step.r];
    var sent := bus.replicas[step.r := rep.(waking := rep.waking - multiset{(step.session, step.seqno)})];
    BroadcastRow(sent, WakeNote(step.r, step.session, step.seqno), r);
    BroadcastRow(sent, WakeNote(step.r, step.session, step.seqno), l);
  }

  lemma BroadcastRow(replicas: seq<Replica>, note: Note, i: nat)
    requires i < |replicas|
    ensures var after := Broadcast(replicas, note)[i];
      && after.live == replicas[i].live && after.flushing == replicas[i].flushing
      && (after.channel == replicas[i].channel || after.channel == replicas[i].channel + [note])
  {
  }

  /** Subscribing, publishing an event and listening change one replica's own tables. */
  lemma OwnRowOnly(bus: Bus, step: Step)
    requires step.Subscribe? || step.Unsubscribe? || step.PublishEvent? || step.Listen?
    requires Enabled(bus, step)
    ensures var next, rep := Next(bus, step), bus.replicas[step.r];
      && |next.replicas| == |bus.replicas| && next.said == bus.said
      && next.replicas == bus.replicas[step.r := next.replicas[step.r]]
      && next.replicas[step.r].live == rep.live && next.replicas[step.r].flushing == rep.flushing
      && next.replicas[step.r].channel == rep.channel
  {
    hide Dispatch, RemoveOne, Subs, Cuts, Heard, Remaining, Unsent, Buffered, Said;
  }

  // ---------------------------------------------------------------- every run

  lemma FlowsNext(bus: Bus, step: Step, r: nat, s: Id, l: nat, got: seq<nat>)
    requires Genuine(bus) && r < |bus.replicas| && l < |bus.replicas| && Flows(bus, r, s, l, got)
    ensures |Next(bus, step).replicas| == |bus.replicas| && Flows(Next(bus, step), r, s, l, got)
  {
    hide Genuine, Flows, OnTheWay, Cuts;
    SameReplicas(bus, step);
    if Enabled(bus, step) {
      match step
      case SendBatch(_, _, _) => SendBatchLine(bus, step, r, s, l, got);
      case StartFlush(_, _) => StartFlushFlows(bus, step, r, s, l, got);
      case Receive(_) => ReceiveFlows(bus, step, r, s, l, got);
      case PublishLive(_, _, _, _) => PublishLiveFlows(bus, step, r, s, l, got);
      case AbandonFlush(_) => CutOffFlows(bus, step, r, s, l, got);
      case Disconnect(_) => CutOffFlows(bus, step, r, s, l, got);
      case _ => OtherStepFlows(bus, step, r, s, l, got);
    }
  }

  lemma SendBatchLine(bus: Bus, step: Step, r: nat, s: Id, l: nat, got: seq<nat>)
    requires Genuine(bus) && r < |bus.replicas| && l < |bus.replicas| && Flows(bus, r, s, l, got)
    requires step.SendBatch? && Enabled(bus, step)
    ensures |Next(bus, step).replicas| == |bus.replicas| && Flows(Next(bus, step), r, s, l, got)
  {
    hide Genuine, Rising;
    if l != r {
      SendBatchFlows(bus, step, r, s, l, got);
    }
  }

  /** What a step puts on a queue keeps the line in order. */
  lemma QueueFlowsNext(bus: Bus, step: Step, r: nat, s: Id, q: nat)
    requires Genuine(bus) && InLine(bus, r, s) && q < |bus.queues| && bus.homes[q].session == s
    ensures var next, l := Next(bus, step), bus.homes[q].replica;
      |next.replicas| == |bus.replicas| && q < |next.queues| && Flows(next, r, s, l, Got(next.queues[q], r, s))
  {
    hide Genuine, Flows, OnTheWay, Cuts, Got, Heard;
    var next, l := Next(bus, step), bus.homes[q].replica;
    var got := Got(bus.queues[q], r, s);
    FlowsNext(bus, step, r, s, l, got);
    if Enabled(bus, step) && next.queues[q] != bus.queues[q] {
      ToOwnReplica(bus, step, q);
      if step.Receive? {
        var note := bus.replicas[l].channel[0];
        GotJoins(bus.queues[q], Heard(note, l), r, s);
        ReceiveFlows(bus, step, r, s, l, got);
      } else if step.PublishLive? {
        var delta := Delta(step.r, step.session, Said(bus, step.r, step.session), step.size);
        GotJoins(bus.queues[q], [Live(delta)], r, s);
        GotOne(Live(delta), r, s);
        PublishLiveFlows(bus, step, r, s, l, got);
        assert got + [] == got;
      } else {
        GotJoins(bus.queues[q], [Stored(step.session, step.seqno)], r, s);
        GotOne(Stored(step.session, step.seqno), r, s);
        assert got + [] == got;
      }
    }
  }

  lemma GotOne(m: Message, r: nat, s: Id)
    ensures Got([m], r, s) == if m.Live? && m.delta.origin == r && m.delta.session == s then [m.delta.n] else []
  {
    OneMessage(m);
    if m.Live? { OneDelta(m.delta, r, s); }
  }

  /** A queue grows only by what its replica hears or publishes for its session. */
  lemma ToOwnReplica(bus: Bus, step: Step, q: nat)
    requires Genuine(bus) && Enabled(bus, step) && q < |bus.queues| && q < |Next(bus, step).queues|
    requires Next(bus, step).queues[q] != bus.queues[q]
    ensures q < |bus.homes| && bus.homes[q].replica == step.r
    ensures step.Receive? || step.PublishLive? || step.PublishEvent?
    ensures step.Receive? ==>
      Next(bus, step).queues[q] == bus.queues[q] + Heard(bus.replicas[step.r].channel[0], step.r)
    ensures step.PublishLive? ==> bus.homes[q].session == step.session
    ensures step.PublishLive? ==>
      Next(bus, step).queues[q] == bus.queues[q]
        + [Live(Delta(step.r, step.session, Said(bus, step.r, step.session), step.size))]
    ensures step.PublishEvent? ==> Next(bus, step).queues[q] == bus.queues[q] + [Stored(step.session, step.seqno)]
  {
    hide GenuineReplica, OwnQueue, Cuts, Heard, NoRepeats;
    if step.Receive? {
      var t := bus.replicas[step.r].channel[0].session;
      assert OwnSubs(bus.homes, step.r, Subs(bus.replicas[step.r], t), t);
    } else if step.PublishLive? || step.PublishEvent? {
      assert OwnSubs(bus.homes, step.r, Subs(bus.replicas[step.r], step.session), step.session);
    }
  }

  lemma InLineNext(bus: Bus, step: Step, r: nat, s: Id)
    requires Genuine(bus) && InLine(bus, r, s)
    ensures InLine(Next(bus, step), r, s)
  {
    hide Genuine, Flows, OnTheWay, Cuts, Dispatch;
    var next := Next(bus, step);
    SameReplicas(bus, step);
    forall l | 0 <= l < |bus.replicas|
      ensures Flows(next, r, s, l, [])
    {
      FlowsNext(bus, step, r, s, l, []);
    }
    forall q | 0 <= q < |next.queues| && q < |next.homes| && next.homes[q].session == s
      ensures next.homes[q].replica < |next.replicas|
      ensures Flows(next, r, s, next.homes[q].replica, Got(next.queues[q], r, s))
    {
      if q < |bus.queues| {
        QueueFlowsNext(bus, step, r, s, q);
      }
    }
  }

  lemma {:induction false} RunFlows(n: nat, steps: seq<Step>, r: nat, s: Id)
    requires r < n
    ensures var bus := Run(Initial(n), steps); Genuine(bus) && InLine(bus, r, s) && |bus.replicas| == n
  {
    hide Genuine, InLine, Next;
    if steps == [] {
      NothingSaid(n, r, s);
    } else {
      var before := Run(Initial(n), steps[..|steps| - 1]);
      RunFlows(n, steps[..|steps| - 1], r, s);
      GenuineNext(before, steps[|steps| - 1]);
      InLineNext(before, steps[|steps| - 1], r, s);
      SameReplicas(before, steps[|steps| - 1]);
    }
  }

  lemma NothingSaid(n: nat, r: nat, s: Id)
    requires r < n
    ensures Genuine(Initial(n)) && InLine(Initial(n), r, s)
  {
    NoDeltasNoNumbers(r, s);
  }

  /**
   However many replicas and listeners, however flushes fail and listeners come and go: what a queue gets
   of one publisher's deltas for its session comes in the order they were published, without repeats,
   and nothing else comes under that name.
   */
  lemma LiveArrivesInOrder(n: nat, steps: seq<Step>, r: nat, q: nat)
    requires r < n && q < |Run(Initial(n), steps).queues|
    ensures var bus := Run(Initial(n), steps);
      q < |bus.homes| && Rising(Got(bus.queues[q], r, bus.homes[q].session), Said(bus, r, bus.homes[q].session))
      && OwnQueue(bus.queues[q], bus.homes[q].session)
  {
    hide Run, OnTheWay, Settled, GenuineReplica, OwnQueue;
    var bus := Run(Initial(n), steps);
    RunFlows(n, steps, r, 0);
    SettledLengths(bus);
    var s := bus.homes[q].session;
    RunFlows(n, steps, r, s);
    var l := bus.homes[q].replica;
    DroppingKeepsRising(Got(bus.queues[q], r, s), OnTheWay(bus, r, s, l), [], Said(bus, r, s));
    assert Got(bus.queues[q], r, s) + OnTheWay(bus, r, s, l) + [] == Got(bus.queues[q], r, s) + OnTheWay(bus, r, s, l);
    assert Got(bus.queues[q], r, s) + [] == Got(bus.queues[q], r, s);
  }

  lemma SettledLengths(bus: Bus)
    requires Genuine(bus)
    ensures |bus.homes| == |bus.queues|
  {
  }

  // ---------------------------------------------------------------- on the publisher's own replica

  /** Every number from one moment to another. */
  predicate AllSince(numbers: seq<nat>, since: nat, said: nat) {
    since + |numbers| == said && forall i :: 0 <= i < |numbers| ==> numbers[i] == since + i
  }

  ghost predicate CompleteAtHome(bus: Bus, r: nat, s: Id)
    requires r < |bus.replicas|
  {
    forall q :: q in Subs(bus.replicas[r], s) ==>
      q < |bus.queues| && q < |bus.homes| && AllSince(Got(bus.queues[q], r, s), bus.homes[q].since, Said(bus, r, s))
  }

  /** What one step does to a subscribed queue at home: a published delta comes at once, nothing else counts. */
  lemma HomeQueueNext(bus: Bus, step: Step, r: nat, s: Id, q: nat)
    requires Genuine(bus) && r < |bus.replicas| && q < |bus.queues| && q in Subs(bus.replicas[r], s)
    ensures var next := Next(bus, step);
      q < |next.queues| && Got(next.queues[q], r, s) == Got(bus.queues[q], r, s)
        + (if step.PublishLive? && step.r == r && step.session == s then [Said(bus, r, s)] else [])
  {
    hide GenuineReplica, OwnQueue, Cuts, Got, Heard, NoRepeats;
    var next, got := Next(bus, step), Got(bus.queues[q], r, s);
    assert OwnSubs(bus.homes, r, Subs(bus.replicas[r], s), s);
    assert got + [] == got;
    if Enabled(bus, step) && next.queues[q] != bus.queues[q] {
      ToOwnReplica(bus, step, q);
      if step.Receive? {
        var note := bus.replicas[r].channel[0];
        GotJoins(bus.queues[q], Heard(note, r), r, s);
        HeardAtHome(bus, r, s);
      } else if step.PublishLive? {
        var delta := Delta(step.r, step.session, Said(bus, step.r, step.session), step.size);
        GotJoins(bus.queues[q], [Live(delta)], r, s);
        GotOne(Live(delta), r, s);
      } else {
        GotJoins(bus.queues[q], [Stored(step.session, step.seqno)], r, s);
        GotOne(Stored(step.session, step.seqno), r, s);
      }
    }
  }

  lemma HeardAtHome(bus: Bus, r: nat, s: Id)
    requires Genuine(bus) && r < |bus.replicas| && bus.replicas[r].channel != []
    ensures Got(Heard(bus.replicas[r].channel[0], r), r, s) == []
  {
    var note := bus.replicas[r].channel[0];
    HeadIsGenuine(bus, r);
    HeardCarries(note, r);
    if note.origin != r { NoteFromElsewhere(note, r, s); }
  }

  /** Only a new queue joins the subscribers. */
  lemma WhoIsSubscribed(bus: Bus, step: Step, r: nat, s: Id, q: nat)
    requires Genuine(bus) && r < |bus.replicas| && |Next(bus, step).replicas| == |bus.replicas|
    requires q in Subs(Next(bus, step).replicas[r], s)
    ensures var next := Next(bus, step);
      if q in Subs(bus.replicas[r], s) then
        q < |bus.queues| && q < |bus.homes| && q < |next.homes| && next.homes[q] == bus.homes[q]
      else
        && |bus.homes| == q < |next.homes| && next.homes[q].since == Said(bus, r, s)
        && q < |next.queues| && next.queues[q] == []
        && Said(next, r, s) == Said(bus, r, s)
  {
    hide GenuineReplica, OwnQueue, Cuts, RemoveOne, NoRepeats, Next, Remaining, Said, Unsent, Buffered;
    assert OwnSubs(bus.homes, r, Subs(bus.replicas[r], s), s);
    RowsAfter(bus, step, r);
    HomesAfter(bus, step);
    SaidAfter(bus, step, r, s);
    if step.Unsubscribe? && step.r == r {
      OwnSubsAt(bus, r, step.session);
      RemovedIsFewer(Subs(bus.replicas[r], step.session), step.queue);
    }
  }

  lemma CompleteNext(bus: Bus, step: Step, r: nat, s: Id)
    requires Genuine(bus) && r < |bus.replicas| && CompleteAtHome(bus, r, s)
    ensures |Next(bus, step).replicas| == |bus.replicas| && CompleteAtHome(Next(bus, step), r, s)
  {
    hide Genuine, Got, Next, Said, Subs;
    var next := Next(bus, step);
    SameReplicas(bus, step);
    forall q | q in Subs(next.replicas[r], s)
      ensures q < |next.queues| && q < |next.homes|
      ensures AllSince(Got(next.queues[q], r, s), next.homes[q].since, Said(next, r, s))
    {
      WhoIsSubscribed(bus, step, r, s, q);
      if q in Subs(bus.replicas[r], s) {
        HomeQueueNext(bus, step, r, s, q);
        SaidAfter(bus, step, r, s);
      } else {
        GotNothing(r, s);
      }
    }
  }

  lemma OwnSubsAt(bus: Bus, r: nat, s: Id)
    requires Genuine(bus) && r < |bus.replicas|
    ensures NoRepeats(Subs(bus.replicas[r], s))
  {
    assert OwnSubs(bus.homes, r, Subs(bus.replicas[r], s), s);
  }

  lemma GotNothing(r: nat, s: Id)
    ensures Got([], r, s) == []
  {
  }

  /** A subscriber on the publisher's own replica has every delta published since it subscribed. */
  lemma {:induction false} NothingIsLostAtHome(n: nat, steps: seq<Step>, r: nat, s: Id)
    requires r < n
    ensures var bus := Run(Initial(n), steps); r < |bus.replicas| && CompleteAtHome(bus, r, s)
  {
    hide Genuine, CompleteAtHome, Next;
    if steps == [] {
      assert CompleteAtHome(Initial(n), r, s) by { NobodyAtHome(n, r, s); }
    } else {
      var before := Run(Initial(n), steps[..|steps| - 1]);
      NothingIsLostAtHome(n, steps[..|steps| - 1], r, s);
      RunFlows(n, steps[..|steps| - 1], r, s);
      CompleteNext(before, steps[|steps| - 1], r, s);
    }
  }

  lemma NobodyAtHome(n: nat, r: nat, s: Id)
    requires r < n
    ensures CompleteAtHome(Initial(n), r, s)
  {
  }
}
