/** Delivery over the bus: who is subscribed, what the queues hold, and that what is sent arrives. */
module EventBusDelivery {
  import opened Common
  import opened NotifyBatches
  import opened EventBus

  // ---------------------------------------------------------------- who is subscribed

  /** How many queues the steps open. */
  function Opened(n: nat, steps: seq<Step>): nat {
    if steps == [] then 0
    else
      var last := steps[|steps| - 1];
      Opened(n, steps[..|steps| - 1]) + (if last.Subscribe? && last.r < n then 1 else 0)
  }

  ghost predicate OpensAt(n: nat, steps: seq<Step>, i: int, q: nat, r: nat, s: Id) {
    0 <= i < |steps| && steps[i] == Subscribe(r, s) && r < n && Opened(n, steps[..i]) == q
  }

  ghost predicate StaysFrom(steps: seq<Step>, i: int, q: nat, r: nat, s: Id) {
    forall j :: 0 <= i < j < |steps| ==> steps[j] != Unsubscribe(r, s, q)
  }

  /** A step opened the queue for this session of this replica, and none after it has taken it away. */
  ghost predicate Attached(n: nat, steps: seq<Step>, q: nat, r: nat, s: Id) {
    exists i :: OpensAt(n, steps, i, q, r, s) && StaysFrom(steps, i, q, r, s)
  }

  lemma AttachedNext(n: nat, steps: seq<Step>, q: nat, r: nat, s: Id)
    requires steps != []
    ensures var front, last := steps[..|steps| - 1], steps[|steps| - 1];
      Attached(n, steps, q, r, s)
      <==> (last == Subscribe(r, s) && r < n && q == Opened(n, front))
           || (Attached(n, front, q, r, s) && last != Unsubscribe(r, s, q))
  {
    hide Opened;
    var front, last := steps[..|steps| - 1], steps[|steps| - 1];
    forall i | 0 <= i < |front|
      ensures OpensAt(n, steps, i, q, r, s) <==> OpensAt(n, front, i, q, r, s)
    {
      assert steps[..i] == front[..i];
    }
    if last == Subscribe(r, s) && r < n && q == Opened(n, front) {
      assert OpensAt(n, steps, |front|, q, r, s) && StaysFrom(steps, |front|, q, r, s);
    }
    if Attached(n, front, q, r, s) && last != Unsubscribe(r, s, q) {
      var i :| OpensAt(n, front, i, q, r, s) && StaysFrom(front, i, q, r, s);
      assert OpensAt(n, steps, i, q, r, s) && StaysFrom(steps, i, q, r, s);
    }
    if Attached(n, steps, q, r, s) {
      var i :| OpensAt(n, steps, i, q, r, s) && StaysFrom(steps, i, q, r, s);
      if i < |front| {
        assert OpensAt(n, front, i, q, r, s) && StaysFrom(front, i, q, r, s);
      }
    }
  }

  lemma SubsAfter(bus: Bus, step: Step, r: nat, s: Id)
    requires r < |bus.replicas|
    ensures |Next(bus, step).replicas| == |bus.replicas|
    ensures var before := Subs(bus.replicas[r], s);
      Subs(Next(bus, step).replicas[r], s)
      == if step == Subscribe(r, s) then before + [|bus.queues|]
         else if step.Unsubscribe? && step.r == r && step.session == s then RemoveOne(before, step.queue)
         else before
  {
    hide Next, RemoveOne, Remaining, Buffered, Unsent, Cuts;
    RowsAfter(bus, step, r);
  }

  lemma {:induction false} RunIsSettled(n: nat, steps: seq<Step>)
    ensures var bus := Run(Initial(n), steps);
      Settled(bus) && |bus.replicas| == n && |bus.queues| == Opened(n, steps)
  {
    hide Settled, Next, Enabled;
    if steps == [] {
      NothingTold(n, 0, 0);
    } else {
      var front, last := steps[..|steps| - 1], steps[|steps| - 1];
      RunIsSettled(n, front);
      var bus := Run(Initial(n), front);
      SettledNext(bus, last);
      SettledLengths(bus);
      Lengths(bus, last);
      HomesAfter(bus, last);
      if last.Subscribe? { SubscribingIsEnabled(bus, last); }
    }
  }

  lemma SettledLengths(bus: Bus)
    requires Settled(bus)
    ensures |bus.homes| == |bus.queues|
  {
  }

  lemma SubscribingIsEnabled(bus: Bus, step: Step)
    requires step.Subscribe?
    ensures Enabled(bus, step) <==> step.r < |bus.replicas|
  {
  }

  /** In every run a queue is on the list of its session exactly from its opening until it is taken away. */
  lemma {:induction false} SubscribedUntilUnsubscribed(n: nat, steps: seq<Step>, q: nat, r: nat, s: Id)
    requires r < n
    ensures |Run(Initial(n), steps).replicas| == n
    ensures q in Subs(Run(Initial(n), steps).replicas[r], s) <==> Attached(n, steps, q, r, s)
  {
    hide Settled, Next, Attached, Opened, OwnSubs;
    RunIsSettled(n, steps);
    if steps == [] {
      NobodyAttached(n, q, r, s);
    } else {
      var front, last := steps[..|steps| - 1], steps[|steps| - 1];
      var bus := Run(Initial(n), front);
      RunIsSettled(n, front);
      SubscribedUntilUnsubscribed(n, front, q, r, s);
      AttachedNext(n, steps, q, r, s);
      SubsAfter(bus, last, r, s);
      ListsHaveNoRepeats(bus, r, s);
      if last.Unsubscribe? && last.r == r && last.session == s {
        RemovedIsFewer(Subs(bus.replicas[r], s), last.queue);
      }
    }
  }

  lemma NobodyAttached(n: nat, q: nat, r: nat, s: Id)
    requires r < n
    ensures !Attached(n, [], q, r, s) && Subs(Run(Initial(n), []).replicas[r], s) == []
  {
  }

  lemma ListsHaveNoRepeats(bus: Bus, r: nat, s: Id)
    requires Settled(bus) && r < |bus.replicas|
    ensures NoRepeats(Subs(bus.replicas[r], s))
    ensures forall q :: q in Subs(bus.replicas[r], s) ==>
      q < |bus.homes| && q < |bus.queues| && bus.homes[q].replica == r && bus.homes[q].session == s
  {
    assert OwnSubs(bus.homes, r, Subs(bus.replicas[r], s), s);
  }

  // ---------------------------------------------------------------- what a queue holds

  /** What a note tells the subscribers of a session on this replica: nothing if it is the replica's own. */
  function Tells(note: Note, r: nat, s: Id): seq<Message> {
    if note.origin == r || note.session != s then []
    else if note.WakeNote? then [Wake(s, note.seqno)]
    else seq(|note.batch|, i requires 0 <= i < |note.batch| => Live(note.batch[i]))
  }

  /** What a step tells the subscribers of a session on this replica. */
  ghost function Told(bus: Bus, step: Step, r: nat, s: Id): seq<Message> {
    if step.r != r || r >= |bus.replicas| then []
    else if step.PublishEvent? && step.session == s then [Stored(s, step.seqno)]
    else if step.PublishLive? && step.session == s then [Live(Delta(r, s, Said(bus, r, s), step.size))]
    else if step.Receive? && bus.replicas[r].channel != [] then Tells(bus.replicas[r].channel[0], r, s)
    else []
  }

  lemma HeardIsTold(note: Note, r: nat)
    ensures Heard(note, r) == Tells(note, r, note.session)
  {
  }

  lemma QueueAfter(bus: Bus, step: Step, q: nat)
    requires Settled(bus) && q < |bus.queues| && bus.homes[q].replica < |bus.replicas|
    ensures q < |Next(bus, step).queues|
    ensures var r, s := bus.homes[q].replica, bus.homes[q].session;
      Next(bus, step).queues[q]
      == bus.queues[q] + (if q in Subs(bus.replicas[r], s) then Told(bus, step, r, s) else [])
  {
    hide Cuts, OwnSubs, Heard, Said, Broadcast, OwnRow;
    var r, s := bus.homes[q].replica, bus.homes[q].session;
    assert bus.queues[q] + [] == bus.queues[q];
    if Enabled(bus, step) {
      match step
      case PublishEvent(k, t, _, _) => ListsHaveNoRepeats(bus, k, t);
      case PublishLive(k, t, _, _) => ListsHaveNoRepeats(bus, k, t);
      case Receive(k) =>
        ListsHaveNoRepeats(bus, k, bus.replicas[k].channel[0].session);
        HeardIsTold(bus.replicas[k].channel[0], k);
      case _ =>
    }
  }

  /** All a queue of this session on this replica was told while it was attached. */
  ghost function Contents(n: nat, steps: seq<Step>, q: nat, r: nat, s: Id): seq<Message> {
    if steps == [] then []
    else
      var front := steps[..|steps| - 1];
      Contents(n, front, q, r, s)
      + (if Attached(n, front, q, r, s) then Told(Run(Initial(n), front), steps[|steps| - 1], r, s) else [])
  }

  lemma {:induction false} NothingBeforeOpening(n: nat, steps: seq<Step>, q: nat, r: nat, s: Id)
    requires r < n && q >= Opened(n, steps)
    ensures Contents(n, steps, q, r, s) == []
  {
    hide Next, Attached, Told, Settled;
    if steps != [] {
      var front := steps[..|steps| - 1];
      NothingBeforeOpening(n, front, q, r, s);
      RunIsSettled(n, front);
      SubscribedUntilUnsubscribed(n, front, q, r, s);
      ListsHaveNoRepeats(Run(Initial(n), front), r, s);
    }
  }

  /**
   In every run a queue holds, in order, exactly what was told on its replica for its session while it was
   attached: the events and deltas published there, and the notes the listener took from the others.
   */
  lemma {:induction false} QueueHoldsWhatItWasTold(n: nat, steps: seq<Step>, q: nat)
    requires q < |Run(Initial(n), steps).queues|
    ensures var bus := Run(Initial(n), steps);
      && q < |bus.homes| && bus.homes[q].replica < n
      && bus.queues[q] == Contents(n, steps, q, bus.homes[q].replica, bus.homes[q].session)
  {
    hide Next, Attached, Told, Settled, Enabled;
    if steps == [] {
      RunIsSettled(n, steps);
    } else {
      var front, last := steps[..|steps| - 1], steps[|steps| - 1];
      var before, bus := Run(Initial(n), front), Run(Initial(n), steps);
      RunIsSettled(n, front);
      SettledLengths(before);
      HomesAfter(before, last);
      if q < |before.queues| {
        var r, s := before.homes[q].replica, before.homes[q].session;
        QueueHoldsWhatItWasTold(n, front, q);
        QueueAfter(before, last, q);
        SubscribedUntilUnsubscribed(n, front, q, r, s);
      } else {
        OpenedOnAReplica(before, last);
        NothingBeforeOpening(n, front, q, last.r, last.session);
        SubscribedUntilUnsubscribed(n, front, q, last.r, last.session);
        ListsHaveNoRepeats(before, last.r, last.session);
        assert bus.homes[q] == Home(last.r, last.session, Said(before, last.r, last.session));
      }
    }
  }

  lemma OpenedOnAReplica(bus: Bus, step: Step)
    requires Enabled(bus, step)
    ensures step.r < |bus.replicas|
  {
  }

  // ---------------------------------------------------------------- what waits and who listens

  /** The wakes a replica owes for an event: one more with each publish, one fewer with each that is sent. */
  function Owed(n: nat, steps: seq<Step>, r: nat, s: Id, e: int): nat {
    if steps == [] then 0
    else
      var before, last := Owed(n, steps[..|steps| - 1], r, s, e), steps[|steps| - 1];
      if last == PublishEvent(r, s, e, true) && r < n then before + 1
      else if last.SendWake? && last.r == r && last.session == s && last.seqno == e && before > 0 then before - 1
      else before
  }

  lemma {:induction false} WakesWaitUntilSent(n: nat, steps: seq<Step>, r: nat, s: Id, e: int)
    requires r < n
    ensures |Run(Initial(n), steps).replicas| == n
    ensures Run(Initial(n), steps).replicas[r].waking[(s, e)] == Owed(n, steps, r, s, e)
  {
    hide Next, Settled;
    if steps != [] {
      var front, last := steps[..|steps| - 1], steps[|steps| - 1];
      WakesWaitUntilSent(n, front, r, s, e);
      WakingAfter(Run(Initial(n), front), last, r, s, e);
    }
  }

  lemma WakingAfter(bus: Bus, step: Step, r: nat, s: Id, e: int)
    requires r < |bus.replicas|
    ensures |Next(bus, step).replicas| == |bus.replicas|
    ensures var before := bus.replicas[r].waking[(s, e)];
      Next(bus, step).replicas[r].waking[(s, e)]
      == if step == PublishEvent(r, s, e, true) then before + 1
         else if step.SendWake? && step.r == r && step.session == s && step.seqno == e && before > 0 then before - 1
         else before
  {
    hide Next, Subs, RemoveOne, Remaining, Buffered, Unsent, Cuts, Said;
    RowsAfter(bus, step, r);
  }

  /** The replica has listened since it last came back. */
  predicate Listens(steps: seq<Step>, r: nat) {
    if steps == [] then false
    else
      var last := steps[|steps| - 1];
      if last == Listen(r) then true else if last == Disconnect(r) then false else Listens(steps[..|steps| - 1], r)
  }

  lemma {:induction false} ListeningIsToldByTheSteps(n: nat, steps: seq<Step>, r: nat)
    requires r < n
    ensures |Run(Initial(n), steps).replicas| == n
    ensures Run(Initial(n), steps).replicas[r].listening == Listens(steps, r)
  {
    hide Next, Settled;
    if steps != [] {
      var front, last := steps[..|steps| - 1], steps[|steps| - 1];
      ListeningIsToldByTheSteps(n, front, r);
      ListeningAfter(Run(Initial(n), front), last, r);
    }
  }

  lemma ListeningAfter(bus: Bus, step: Step, r: nat)
    requires r < |bus.replicas|
    ensures |Next(bus, step).replicas| == |bus.replicas|
    ensures Next(bus, step).replicas[r].listening
         == (step == Listen(r) || (bus.replicas[r].listening && step != Disconnect(r)))
  {
    hide Next, Subs, RemoveOne, Remaining, Buffered, Unsent, Cuts, Said;
    RowsAfter(bus, step, r);
  }

  // ---------------------------------------------------------------- what is sent arrives

  /** What the notes tell, one after the other. */
  function AllTold(notes: seq<Note>, r: nat, s: Id): seq<Message> {
    if notes == [] then [] else AllTold(notes[..|notes| - 1], r, s) + Tells(notes[|notes| - 1], r, s)
  }

  lemma {:induction false} AllToldJoins(a: seq<Note>, b: seq<Note>, r: nat, s: Id)
    ensures AllTold(a + b, r, s) == AllTold(a, r, s) + AllTold(b, r, s)
  {
    hide Tells;
    if b == [] {
      assert a + b == a;
    } else {
      assert (a + b)[..|a + b| - 1] == a + b[..|b| - 1];
      AllToldJoins(a, b[..|b| - 1], r, s);
    }
  }

  /** The listener takes `m` notes. */
  function Receiving(r: nat, m: nat): seq<Step> {
    seq(m, _ => Receive(r))
  }

  ghost predicate ToldAll(bus: Bus, after: Bus, r: nat, s: Id, q: nat, notes: seq<Note>) {
    q < |bus.queues| && q < |after.queues| && after.queues[q] == bus.queues[q] + AllTold(notes, r, s)
  }

  /** The bus as it was, but for one channel and what its queues were told. */
  ghost predicate Drained(bus: Bus, after: Bus, r: nat, m: nat) {
    && Settled(bus) && Settled(after) && r < |bus.replicas| && m <= |bus.replicas[r].channel|
    && after.homes == bus.homes && |after.queues| == |bus.queues|
    && |after.replicas| == |bus.replicas| && after.replicas[r].channel == bus.replicas[r].channel[m..]
    && (forall i, s :: 0 <= i < |bus.replicas| ==> Subs(after.replicas[i], s) == Subs(bus.replicas[i], s))
    && (forall s, q :: q in Subs(bus.replicas[r], s) ==> ToldAll(bus, after, r, s, q, bus.replicas[r].channel[..m]))
  }

  lemma DrainedNext(bus: Bus, before: Bus, r: nat, m: nat)
    requires Drained(bus, before, r, m) && m < |bus.replicas[r].channel|
    ensures Drained(bus, Next(before, Receive(r)), r, m + 1)
  {
    hide Settled, Tells, Enabled, AllTold, Next;
    var after, channel := Next(before, Receive(r)), bus.replicas[r].channel;
    SettledNext(before, Receive(r));
    HomesAfter(before, Receive(r));
    ChannelAfter(before, Receive(r), r);
    assert channel[m..][1..] == channel[m + 1..];
    ReceivingIsEnabled(before, r);
    forall i, s | 0 <= i < |bus.replicas|
      ensures Subs(after.replicas[i], s) == Subs(bus.replicas[i], s)
    {
      SubsAfter(before, Receive(r), i, s);
    }
    forall s, q | q in Subs(bus.replicas[r], s)
      ensures ToldAll(bus, after, r, s, q, channel[..m + 1])
    {
      ListsHaveNoRepeats(before, r, s);
      assert ToldAll(bus, before, r, s, q, channel[..m]);
      QueueAfter(before, Receive(r), q);
      AllToldNext(channel, m, r, s);
      assert before.queues[q] + Tells(channel[m], r, s)
          == bus.queues[q] + (AllTold(channel[..m], r, s) + Tells(channel[m], r, s));
    }
  }

  lemma AllToldNext(notes: seq<Note>, m: nat, r: nat, s: Id)
    requires m < |notes|
    ensures AllTold(notes[..m + 1], r, s) == AllTold(notes[..m], r, s) + Tells(notes[m], r, s)
  {
    assert notes[..m + 1][..m] == notes[..m];
  }

  lemma ReceivingIsEnabled(bus: Bus, r: nat)
    requires r < |bus.replicas| && bus.replicas[r].channel != []
    ensures Enabled(bus, Receive(r))
  {
  }

  lemma {:induction false} ChannelDrains(bus: Bus, r: nat, m: nat)
    requires Settled(bus) && r < |bus.replicas| && m <= |bus.replicas[r].channel|
    ensures Drained(bus, Run(bus, Receiving(r, m)), r, m)
  {
    hide Next, Settled;
    if m == 0 {
      NothingDrained(bus, r);
    } else {
      assert Receiving(r, m)[..m - 1] == Receiving(r, m - 1);
      ChannelDrains(bus, r, m - 1);
      DrainedNext(bus, Run(bus, Receiving(r, m - 1)), r, m - 1);
    }
  }

  lemma NothingDrained(bus: Bus, r: nat)
    requires Settled(bus) && r < |bus.replicas|
    ensures Drained(bus, bus, r, 0)
  {
    forall s, q | q in Subs(bus.replicas[r], s)
      ensures ToldAll(bus, bus, r, s, q, bus.replicas[r].channel[..0])
    {
      ListsHaveNoRepeats(bus, r, s);
    }
  }

  lemma {:induction false} RunJoins(bus: Bus, a: seq<Step>, b: seq<Step>)
    ensures Run(bus, a + b) == Run(Run(bus, a), b)
  {
    hide Next;
    if b == [] {
      assert a + b == a;
    } else {
      assert (a + b)[..|a + b| - 1] == a + b[..|b| - 1];
      RunJoins(bus, a, b[..|b| - 1]);
    }
  }

  ghost predicate SameQueue(bus: Bus, after: Bus, q: nat) {
    q < |bus.queues| && q < |after.queues| && after.queues[q] == bus.queues[q]
  }

  /** The bus but for the channel of a listening replica, which has got these notes more. */
  ghost predicate Sent(bus: Bus, after: Bus, r: nat, notes: seq<Note>) {
    && Settled(after) && |after.replicas| == |bus.replicas| && r < |bus.replicas|
    && after.replicas[r].listening && after.replicas[r].channel == bus.replicas[r].channel + notes
    && (forall s :: Subs(after.replicas[r], s) == Subs(bus.replicas[r], s))
    && (forall s, q :: q in Subs(bus.replicas[r], s) ==> SameQueue(bus, after, q))
  }

  lemma DrainedTells(bus: Bus, r: nat, s: Id, q: nat)
    requires Settled(bus) && r < |bus.replicas| && q in Subs(bus.replicas[r], s)
    ensures var end := Run(bus, Receiving(r, |bus.replicas[r].channel|));
      && r < |end.replicas| && end.replicas[r].channel == [] && ToldAll(bus, end, r, s, q, bus.replicas[r].channel)
  {
    hide Settled, AllTold, Run;
    var channel := bus.replicas[r].channel;
    ChannelDrains(bus, r, |channel|);
    assert channel[..|channel|] == channel;
  }

  /** Once the channel is drained, the subscribers there have been told what it held and the notes. */
  lemma SentIsTold(bus: Bus, after: Bus, r: nat, notes: seq<Note>, s: Id, q: nat)
    requires Sent(bus, after, r, notes) && q in Subs(bus.replicas[r], s)
    ensures var end := Run(after, Receiving(r, |bus.replicas[r].channel| + |notes|));
      && r < |end.replicas| && end.replicas[r].channel == []
      && q < |bus.queues| && q < |end.queues|
      && end.queues[q] == bus.queues[q] + AllTold(bus.replicas[r].channel, r, s) + AllTold(notes, r, s)
  {
    hide Settled, AllTold, Run, Subs;
    var channel := bus.replicas[r].channel;
    assert SameQueue(bus, after, q);
    assert q in Subs(after.replicas[r], s);
    DrainedTells(after, r, s, q);
    AllToldJoins(channel, notes, r, s);
    Associate(bus.queues[q], AllTold(channel, r, s), AllTold(notes, r, s));
  }

  lemma Associate(a: seq<Message>, b: seq<Message>, c: seq<Message>)
    ensures a + (b + c) == a + b + c
  {
  }

  /** A step of another replica that tells nobody here. */
  lemma ElsewhereStep(bus: Bus, before: Bus, step: Step, r: nat, notes: seq<Note>, more: seq<Note>)
    requires Sent(bus, before, r, notes) && step.r != r && Enabled(before, step)
    requires Next(before, step).replicas[r].channel == before.replicas[r].channel + more
    ensures Sent(bus, Next(before, step), r, notes + more)
  {
    hide Settled, Next, Enabled, Told;
    var after := Next(before, step);
    SettledNext(before, step);
    HomesAfter(before, step);
    ListeningAfter(before, step, r);
    SettledLengths(after);
    assert bus.replicas[r].channel + notes + more == bus.replicas[r].channel + (notes + more);
    forall s
      ensures Subs(after.replicas[r], s) == Subs(bus.replicas[r], s)
    {
      SubsAfter(before, step, r, s);
    }
    forall s, q | q in Subs(bus.replicas[r], s)
      ensures SameQueue(bus, after, q)
    {
      assert SameQueue(bus, before, q);
      ListsHaveNoRepeats(before, r, s);
      QueueAfter(before, step, q);
      NobodyTold(before, step, r, s);
    }
  }

  lemma NobodyTold(bus: Bus, step: Step, r: nat, s: Id)
    requires step.r != r
    ensures Told(bus, step, r, s) == []
  {
  }

  lemma NothingSent(bus: Bus, r: nat)
    requires Settled(bus) && r < |bus.replicas| && bus.replicas[r].listening
    ensures Sent(bus, bus, r, [])
  {
    assert bus.replicas[r].channel + [] == bus.replicas[r].channel;
    forall s, q | q in Subs(bus.replicas[r], s)
      ensures SameQueue(bus, bus, q)
    {
      ListsHaveNoRepeats(bus, r, s);
    }
  }

  lemma TwoSteps(bus: Bus, x: Step, y: Step, rest: seq<Step>)
    ensures Run(bus, [x, y] + rest) == Run(Next(Next(bus, x), y), rest)
  {
    hide Next;
    RunJoins(bus, [x, y], rest);
    assert [x, y][..1] == [x] && [x][..0] == [];
    assert Run(bus, [x]) == Next(Run(bus, []), x);
  }

  /** At once a stored event is with every subscriber on the replica that publishes it, as its body. */
  lemma PublishedIsHeardAtHome(bus: Bus, k: nat, s: Id, e: int, remote: bool, q: nat)
    requires Settled(bus) && k < |bus.replicas| && q in Subs(bus.replicas[k], s)
    ensures var after := Next(bus, PublishEvent(k, s, e, remote));
      q < |bus.queues| && q < |after.queues| && after.queues[q] == bus.queues[q] + [Stored(s, e)]
  {
    hide Next;
    ListsHaveNoRepeats(bus, k, s);
    QueueAfter(bus, PublishEvent(k, s, e, remote), q);
  }

  lemma WakeGoesOut(bus: Bus, k: nat, s: Id, e: int, fate: Fate, r: nat)
    requires Settled(bus) && k < |bus.replicas| && r < |bus.replicas| && k != r && bus.replicas[r].listening
    requires Reaches(fate)
    ensures Sent(bus, Next(Next(bus, PublishEvent(k, s, e, true)), SendWake(k, s, e, fate)), r, [WakeNote(k, s, e)])
  {
    hide Sent, Settled, Next, Enabled;
    var publish, send := PublishEvent(k, s, e, true), SendWake(k, s, e, fate);
    var published := Next(bus, publish);
    var none: seq<Note> := [];
    assert none + none == none;
    NothingSent(bus, r);
    PublishIsEnabled(bus, k, s, e);
    ChannelAfter(bus, publish, r);
    assert bus.replicas[r].channel + [] == bus.replicas[r].channel;
    ElsewhereStep(bus, bus, publish, r, none, none);
    WakingAfter(bus, publish, k, s, e);
    SendIsEnabled(published, k, s, e, fate);
    ListeningAfter(bus, publish, r);
    ChannelAfter(published, send, r);
    ElsewhereStep(bus, published, send, r, none, [WakeNote(k, s, e)]);
    assert none + [WakeNote(k, s, e)] == [WakeNote(k, s, e)];
  }

  lemma PublishIsEnabled(bus: Bus, k: nat, s: Id, e: int)
    requires k < |bus.replicas|
    ensures Enabled(bus, PublishEvent(k, s, e, true))
  {
  }

  lemma SendIsEnabled(bus: Bus, k: nat, s: Id, e: int, fate: Fate)
    requires k < |bus.replicas| && bus.replicas[k].waking[(s, e)] > 0
    ensures Enabled(bus, SendWake(k, s, e, fate))
  {
  }

  lemma OneNoteTold(note: Note, r: nat, s: Id)
    ensures AllTold([note], r, s) == Tells(note, r, s)
  {
    hide Tells;
    assert [note][..0] == [];
  }

  /**
   A stored event reaches every subscriber of its session on every other replica that listens: once its
   wake is sent and the listener has taken what was on its way, they have been told that and the wake.
   */
  lemma PublishedReachesTheOthers(bus: Bus, k: nat, s: Id, e: int, fate: Fate, r: nat, q: nat)
    requires Settled(bus) && k < |bus.replicas| && r < |bus.replicas| && k != r && bus.replicas[r].listening
    requires Reaches(fate) && q in Subs(bus.replicas[r], s)
    ensures var channel := bus.replicas[r].channel;
      var steps := [PublishEvent(k, s, e, true), SendWake(k, s, e, fate)] + Receiving(r, |channel| + 1);
      && q < |bus.queues| && q < |Run(bus, steps).queues|
      && Run(bus, steps).queues[q] == bus.queues[q] + AllTold(channel, r, s) + [Wake(s, e)]
  {
    hide Sent, Settled, Next, AllTold, Run;
    var publish, send := PublishEvent(k, s, e, true), SendWake(k, s, e, fate);
    var after, note := Next(Next(bus, publish), send), WakeNote(k, s, e);
    WakeGoesOut(bus, k, s, e, fate, r);
    SentIsTold(bus, after, r, [note], s, q);
    OneNoteTold(note, r, s);
    TwoSteps(bus, publish, send, Receiving(r, |bus.replicas[r].channel| + 1));
  }

  // ---------------------------------------------------------------- a whole flush

  function Sending(k: nat, s: Id, m: nat): seq<Step> {
    seq(m, _ => SendBatch(k, s, Fate.Sent))
  }

  /** The notes of these batches. */
  function NotesOf(k: nat, s: Id, batches: seq<seq<Delta>>): seq<Note> {
    seq(|batches|, i requires 0 <= i < |batches| => LiveNote(k, s, batches[i]))
  }

  lemma UnsentAfter(bus: Bus, k: nat, s: Id)
    requires k < |bus.replicas| && Unsent(bus.replicas[k], s) != []
    ensures var step := SendBatch(k, s, Fate.Sent);
      && Enabled(bus, step) && k < |Next(bus, step).replicas|
      && Unsent(Next(bus, step).replicas[k], s) == Unsent(bus.replicas[k], s)[1..]
  {
    hide Next, Subs, RemoveOne, Buffered, Cuts, Said;
    RowsAfter(bus, SendBatch(k, s, Fate.Sent), k);
  }

  lemma FlushingAfter(bus: Bus, k: nat, cut: map<Id, seq<seq<Delta>>>, s: Id)
    requires k < |bus.replicas| && bus.replicas[k].flushing == map[] && Cuts(bus.replicas[k].live, cut)
    ensures var step := StartFlush(k, cut);
      && Enabled(bus, step) && k < |Next(bus, step).replicas|
      && Unsent(Next(bus, step).replicas[k], s) == (if s in cut then cut[s] else [])
      && Concat(Unsent(Next(bus, step).replicas[k], s)) == Buffered(bus.replicas[k], s)
  {
    hide Next, Subs, RemoveOne, Said, Fits, Full;
    RowsAfter(bus, StartFlush(k, cut), k);
  }

  lemma {:induction false} BatchesGoOut(bus: Bus, before: Bus, k: nat, s: Id, r: nat, m: nat)
    requires Sent(bus, before, r, []) && k != r && k < |before.replicas| && m <= |Unsent(before.replicas[k], s)|
    ensures var batches, after := Unsent(before.replicas[k], s), Run(before, Sending(k, s, m));
      && Sent(bus, after, r, NotesOf(k, s, batches[..m]))
      && k < |after.replicas| && Unsent(after.replicas[k], s) == batches[m..]
  {
    hide Sent, Next, Enabled, Unsent;
    var batches := Unsent(before.replicas[k], s);
    if m == 0 {
      assert NotesOf(k, s, batches[..0]) == [];
    } else {
      assert Sending(k, s, m)[..m - 1] == Sending(k, s, m - 1);
      BatchesGoOut(bus, before, k, s, r, m - 1);
      var now := Run(before, Sending(k, s, m - 1));
      BatchGoesOut(bus, now, k, s, r, NotesOf(k, s, batches[..m - 1]));
      assert NotesOf(k, s, batches[..m - 1]) + [LiveNote(k, s, batches[m - 1])] == NotesOf(k, s, batches[..m]);
    }
  }

  lemma BatchGoesOut(bus: Bus, before: Bus, k: nat, s: Id, r: nat, notes: seq<Note>)
    requires Sent(bus, before, r, notes) && k != r && k < |before.replicas| && Unsent(before.replicas[k], s) != []
    ensures var batches, after := Unsent(before.replicas[k], s), Next(before, SendBatch(k, s, Fate.Sent));
      && Sent(bus, after, r, notes + [LiveNote(k, s, batches[0])])
      && k < |after.replicas| && Unsent(after.replicas[k], s) == batches[1..]
  {
    hide Settled, Next, Enabled, Unsent;
    UnsentAfter(before, k, s);
    ChannelAfter(before, SendBatch(k, s, Fate.Sent), r);
    var note := LiveNote(k, s, Unsent(before.replicas[k], s)[0]);
    ElsewhereStep(bus, before, SendBatch(k, s, Fate.Sent), r, notes, [note]);
  }

  lemma {:induction false} NotesTellTheDeltas(k: nat, s: Id, batches: seq<seq<Delta>>, r: nat)
    requires k != r
    ensures AllTold(NotesOf(k, s, batches), r, s) == LiveMessages(Concat(batches))
  {
    hide Tells;
    if batches != [] {
      var front, last := batches[..|batches| - 1], batches[|batches| - 1];
      NotesTellTheDeltas(k, s, front, r);
      assert NotesOf(k, s, batches)[..|front|] == NotesOf(k, s, front);
      DeltasTold(LiveNote(k, s, last), r);
      assert LiveMessages(Concat(front) + last) == LiveMessages(Concat(front)) + LiveMessages(last);
    }
  }

  lemma DeltasTold(note: Note, r: nat)
    requires note.LiveNote? && note.origin != r
    ensures Tells(note, r, note.session) == LiveMessages(note.batch)
  {
  }

  lemma ThreeRuns(bus: Bus, x: Step, a: seq<Step>, b: seq<Step>)
    ensures Run(bus, [x] + a + b) == Run(Run(Next(bus, x), a), b)
  {
    hide Next;
    RunJoins(bus, [x] + a, b);
    RunJoins(bus, [x], a);
    assert [x][..0] == [];
    assert Run(bus, [x]) == Next(Run(bus, []), x);
  }

  /** The whole flush as the others' channels see it. */
  lemma FlushGoesOut(bus: Bus, k: nat, s: Id, cut: map<Id, seq<seq<Delta>>>, r: nat) returns (batches: seq<seq<Delta>>)
    requires Settled(bus) && k < |bus.replicas| && r < |bus.replicas| && k != r && bus.replicas[r].listening
    requires bus.replicas[k].flushing == map[] && Cuts(bus.replicas[k].live, cut)
    ensures batches == (if s in cut then cut[s] else []) && Concat(batches) == Buffered(bus.replicas[k], s)
    ensures Sent(bus, Run(Next(bus, StartFlush(k, cut)), Sending(k, s, |batches|)), r, NotesOf(k, s, batches))
  {
    hide Sent, Settled, Next, Run, Unsent, Buffered, Cuts, Enabled;
    var start, none: seq<Note> := StartFlush(k, cut), [];
    var started := Next(bus, start);
    assert none + none == none && bus.replicas[r].channel + none == bus.replicas[r].channel;
    NothingSent(bus, r);
    FlushingAfter(bus, k, cut, s);
    ChannelAfter(bus, start, r);
    ElsewhereStep(bus, bus, start, r, none, none);
    batches := Unsent(started.replicas[k], s);
    BatchesGoOut(bus, started, k, s, r, |batches|);
    assert batches[..|batches|] == batches;
  }

  /**
   A flush whose calls all go through reaches every subscriber on every other replica that listens: once
   the listener has taken what was on its way, they have been told that and all that was buffered, in order.
   */
  lemma FlushReachesTheOthers(bus: Bus, k: nat, s: Id, cut: map<Id, seq<seq<Delta>>>, r: nat, q: nat)
    requires Settled(bus) && k < |bus.replicas| && r < |bus.replicas| && k != r && bus.replicas[r].listening
    requires bus.replicas[k].flushing == map[] && Cuts(bus.replicas[k].live, cut) && q in Subs(bus.replicas[r], s)
    ensures var channel, m := bus.replicas[r].channel, if s in cut then |cut[s]| else 0;
      var steps := [StartFlush(k, cut)] + Sending(k, s, m) + Receiving(r, |channel| + m);
      && q < |bus.queues| && q < |Run(bus, steps).queues|
      && Run(bus, steps).queues[q]
         == bus.queues[q] + AllTold(channel, r, s) + LiveMessages(Buffered(bus.replicas[k], s))
  {
    hide *;
    var start, channel := StartFlush(k, cut), bus.replicas[r].channel;
    var batches := FlushGoesOut(bus, k, s, cut, r);
    SentIsTold(bus, Run(Next(bus, start), Sending(k, s, |batches|)), r, NotesOf(k, s, batches), s, q);
    NotesTellTheDeltas(k, s, batches, r);
    ThreeRuns(bus, start, Sending(k, s, |batches|), Receiving(r, |channel| + |batches|));
    assert |NotesOf(k, s, batches)| == |batches| by { AsManyNotes(k, s, batches); }
  }

  lemma AsManyNotes(k: nat, s: Id, batches: seq<seq<Delta>>)
    ensures |NotesOf(k, s, batches)| == |batches|
  {
  }
}
