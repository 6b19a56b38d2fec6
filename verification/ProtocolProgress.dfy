/** What a worker can always still do: from any state of any run a faultless exchange settles all it holds. */
module ProtocolProgress {
  import opened Common
  import opened IngestStore
  import opened IngestLaws
  import opened IngestBatches
  import opened Delivery
  import opened Protocol
  import opened ProtocolGuarantees

  function Sending(s: Id, m: nat): seq<Step> {
    seq(m, _ => Send(s))
  }

  lemma {:induction false} RunJoins(sys: System, a: seq<Step>, b: seq<Step>)
    ensures Run(sys, a + b) == Run(Run(sys, a), b)
  {
    hide Next;
    if b == [] {
      assert a + b == a;
    } else {
      assert (a + b)[..|a + b| - 1] == a + b[..|b| - 1];
      RunJoins(sys, a, b[..|b| - 1]);
    }
  }

  /** Where the worker goes on after a `hello` that names the session: behind its acks and the stored cursor. */
  function From(sys: System, s: Id): nat {
    Max(Mark(sys.acked, s), Cursor(sys.db, s))
  }

  /** The connection has sent `j` envelopes of the session from `from` on, and nothing else. */
  predicate HasSent(sys: System, now: System, s: Id, from: nat, j: nat) {
    && now.db == sys.db && now.worker == sys.worker && Issued(now, s) == Issued(sys, s)
    && Mark(now.acked, s) == from && Mark(now.sent, s) == from + j && |now.lane| == j && |Lane(now.lane, s)| == j
  }

  lemma HelloStartsOver(sys: System, s: Id)
    requires LeasedTo(sys.db, s, sys.worker)
    ensures HasSent(sys, Next(sys, Reconnect({s})), s, From(sys, s), 0)
  {
    hide LeasedTo;
  }

  lemma SendsOne(sys: System, now: System, s: Id, from: nat, j: nat)
    requires HasSent(sys, now, s, from, j) && from + j < |Issued(sys, s)|
    requires Issued(now, s)[from + j].session == s
    ensures HasSent(sys, Next(now, Send(s)), s, from, j + 1)
  {
    var e := Issued(now, s)[from + j];
    assert (now.lane + [e])[..|now.lane|] == now.lane;
  }

  /** Every line of a run is numbered and its marks are in it. */
  lemma LineOfRun(db: Db, worker: Id, steps: seq<Step>, s: Id)
    ensures SessionInv(Run(Initial(db, worker), steps), s)
    ensures Cursor(Run(Initial(db, worker), steps).db, s) <= |Issued(Run(Initial(db, worker), steps), s)|
  {
    hide Run, Lane, Done;
    RunKeepsInv(db, worker, steps);
  }

  lemma {:induction false} SendsAll(db: Db, worker: Id, steps: seq<Step>, s: Id, sys: System, from: nat, j: nat)
    requires HasSent(sys, Run(Initial(db, worker), steps), s, from, 0) && from + j <= |Issued(sys, s)|
    ensures HasSent(sys, Run(Initial(db, worker), steps + Sending(s, j)), s, from, j)
  {
    hide Next, HasSent, SessionInv, Run;
    if j == 0 {
      assert steps + Sending(s, 0) == steps;
    } else {
      SendsAll(db, worker, steps, s, sys, from, j - 1);
      var before := steps + Sending(s, j - 1);
      var now := Run(Initial(db, worker), before);
      assert steps + Sending(s, j) == before + [Send(s)];
      OneMoreStep(Initial(db, worker), before, Send(s));
      LineOfRun(db, worker, before, s);
      InItsLine(sys, now, s, from, j - 1);
      SendsOne(sys, now, s, from, j - 1);
    }
  }

  lemma InItsLine(sys: System, now: System, s: Id, from: nat, j: nat)
    requires HasSent(sys, now, s, from, j) && SessionInv(now, s) && from + j < |Issued(sys, s)|
    ensures from + j < |Issued(now, s)| && Issued(now, s)[from + j].session == s
  {
    hide Lane, Done;
  }

  lemma OneMoreStep(sys: System, steps: seq<Step>, step: Step)
    ensures Run(sys, steps + [step]) == Next(Run(sys, steps), step)
  {
    hide Next;
    assert (steps + [step])[..|steps|] == steps;
  }

  /** No envelope meets a failure that would pass. */
  predicate Calm(conditions: seq<Condition>) {
    forall i :: 0 <= i < |conditions| ==> conditions[i].fault.NoFault? || !conditions[i].fault.transient
  }

  lemma AllIsKept(now: System, s: Id, conditions: seq<Condition>)
    requires SessionInv(now, s) && |conditions| == |now.lane| == |Lane(now.lane, s)| && Calm(conditions)
    ensures |KeptOf(now, conditions, s)| == |conditions|
  {
    hide Settled, IngestStore.Flush, KeptOf, SessionInv, OnLine;
    var queue := Attempts(now.lane, conditions);
    NothingRetried(now.db, queue, now.worker);
    BatchIsNextStretch(now, conditions, s);
    KeptIsPrefix(now, conditions, s);
    assert now.lane[|conditions|..] == [];
    assert |Of(queue, s)| == |Envelopes(Of(queue, s))|;
  }

  lemma SettledByFlush(now: System, s: Id, conditions: seq<Condition>)
    requires SessionInv(now, s) && |conditions| == |now.lane| && |KeptOf(now, conditions, s)| == |conditions|
    requires LeasedTo(now.db, s, now.worker) && Calm(conditions)
    ensures var end, n := Next(now, Step.Flush(conditions)), Base(now, s) + |conditions|;
      && Cursor(end.db, s) == (if conditions == [] then Cursor(now.db, s) else Max(Cursor(now.db, s), n))
      && end.lane == [] && end.issued == now.issued && end.acked == now.acked
      && (conditions != [] ==> (s, n) in end.acks)
  {
    hide Settled, IngestStore.Flush, KeptOf, SessionInv, LeasedTo;
    var queue := Attempts(now.lane, conditions);
    var b := IngestStore.Flush(now.db, queue, now.worker);
    NothingRetried(now.db, queue, now.worker);
    KeptIsPrefix(now, conditions, s);
    if conditions != [] { assert (s, b.acks[s]) in Pairs(b.acks); }
  }

  /** A calm batch settles the whole lane. */
  lemma CalmBatchSettlesAll(sys: System, now: System, s: Id, from: nat, j: nat, conditions: seq<Condition>)
    requires HasSent(sys, now, s, from, j) && SessionInv(now, s) && LeasedTo(sys.db, s, sys.worker)
    requires |conditions| == j && Calm(conditions) && from == From(sys, s) && from + j == |Issued(sys, s)|
    ensures var end := Next(now, Step.Flush(conditions));
      && (j > 0 ==> Cursor(end.db, s) == |Issued(sys, s)|) && end.lane == [] && Issued(end, s) == Issued(sys, s)
      && Mark(end.acked, s) == from && (j > 0 ==> (s, |Issued(sys, s)|) in end.acks)
  {
    hide LeasedTo, KeptOf, Lane, Next, Calm;
    AllIsKept(now, s, conditions);
    SettledByFlush(now, s, conditions);
    LineCoversCursor(now, s);
  }

  lemma LineCoversCursor(now: System, s: Id)
    requires SessionInv(now, s)
    ensures Mark(now.acked, s) <= Base(now, s) && Cursor(now.db, s) <= |Issued(now, s)|
  {
    hide Lane, Done;
  }

  lemma NothingRetried(db: Db, queue: seq<Attempt>, worker: Id)
    requires FreeOfTransients(queue)
    ensures IngestStore.Flush(db, queue, worker).retry == []
  {
    hide SettleAll;
    NoTransientNoStall(Opening(db), queue, worker);
  }

  /**
   From every state of every run in which the session is leased to the worker: a reconnect that names it, the
   envelopes it still holds, one calm batch and its ack settle them all. The ack is then at the end of the
   line, so nothing is left in the outbox, and so is the cursor if there was anything to send.
   */
  lemma EverythingGetsThrough(db: Db, worker: Id, steps: seq<Step>, s: Id, conditions: seq<Condition>)
    requires var sys := Run(Initial(db, worker), steps);
      && LeasedTo(sys.db, s, sys.worker) && Calm(conditions)
      && |conditions| + From(sys, s) == |Issued(sys, s)|
    ensures var sys := Run(Initial(db, worker), steps);
      var n := |Issued(sys, s)|;
      var more := [Reconnect({s})] + Sending(s, |conditions|) + [Step.Flush(conditions), DeliverAck(s, n)];
      var end := Run(Initial(db, worker), steps + more);
      && Issued(end, s) == Issued(sys, s) && end.lane == []
      && Mark(end.acked, s) == n && (conditions != [] ==> Cursor(end.db, s) == n)
  {
    hide Next, HasSent, SessionInv, Run, LeasedTo;
    var sys, j := Run(Initial(db, worker), steps), |conditions|;
    var hello := steps + [Reconnect({s})];
    OneMoreStep(Initial(db, worker), steps, Reconnect({s}));
    HelloStartsOver(sys, s);
    SendsAll(db, worker, hello, s, sys, From(sys, s), j);
    var sent := hello + Sending(s, j);
    var now := Run(Initial(db, worker), sent);
    LineOfRun(db, worker, sent, s);
    CalmBatchSettlesAll(sys, now, s, From(sys, s), j, conditions);
    OneMoreStep(Initial(db, worker), sent, Step.Flush(conditions));
    AckIsTaken(Run(Initial(db, worker), sent + [Step.Flush(conditions)]), s, |Issued(sys, s)|);
    OneMoreStep(Initial(db, worker), sent + [Step.Flush(conditions)], DeliverAck(s, |Issued(sys, s)|));
    assert steps + ([Reconnect({s})] + Sending(s, j) + [Step.Flush(conditions), DeliverAck(s, |Issued(sys, s)|)])
        == sent + [Step.Flush(conditions)] + [DeliverAck(s, |Issued(sys, s)|)];
  }

  lemma AckIsTaken(sys: System, s: Id, n: nat)
    requires Mark(sys.acked, s) <= n && ((s, n) in sys.acks || Mark(sys.acked, s) == n)
    ensures var end := Next(sys, DeliverAck(s, n));
      && Mark(end.acked, s) == n && end.db == sys.db && end.lane == sys.lane && Issued(end, s) == Issued(sys, s)
  {
  }
}
