/** Laws of ingest: what one envelope and one batch may and may not do to the store. */
module IngestLaws {
  import opened Common
  import opened IngestStore

  // ---------------------------------------------------------------- the ledger decides who may write

  /** A presign that is delivered again runs again for its reply; nothing else writes without its ledger row. */
  predicate Rereplies(a: Attempt) {
    a.envelope.payload.ArtifactPresign?
  }

  /** Claims, cursors and leases are the same in both stores. */
  ghost predicate SameClaims(db: Db, db': Db) {
    && db'.ledger == db.ledger
    && db'.cursors == db.cursors
    && SameLeases(db, db')
  }

  ghost predicate SameLeases(db: Db, db': Db) {
    && db'.sessions.Keys == db.sessions.Keys
    && forall s :: s in db.sessions ==>
         db'.sessions[s].worker == db.sessions[s].worker && db'.sessions[s].lease == db.sessions[s].lease
  }

  lemma SandboxKeepsClaims(db: Db, a: Attempt)
    requires a.envelope.session in db.sessions && a.envelope.payload.SandboxReport?
    ensures ApplySandbox(db, a).Kept? ==> SameClaims(db, ApplySandbox(db, a).db)
  {
    hide SandboxStatus.Transition;
  }

  lemma TurnKeepsClaims(db: Db, a: Attempt, t: Id, mark: TurnMark)
    requires a.envelope.session in db.sessions
    ensures ApplyTurn(db, a, t, mark).Kept? ==> SameClaims(db, ApplyTurn(db, a, t, mark).db)
  {
  }

  lemma ItemKeepsClaims(db: Db, a: Attempt)
    requires a.envelope.session in db.sessions
    ensures a.envelope.payload.ItemAdded? && ApplyItemAdded(db, a).Kept? ==> SameClaims(db, ApplyItemAdded(db, a).db)
    ensures a.envelope.payload.ItemDone? && ApplyItemDone(db, a).Kept? ==> SameClaims(db, ApplyItemDone(db, a).db)
    ensures a.envelope.payload.Usage? && ApplyTurnUsage(db, a).Kept? ==> SameClaims(db, ApplyTurnUsage(db, a).db)
  {
  }

  lemma ApplyKeepsClaims(db: Db, a: Attempt)
    requires a.envelope.session in db.sessions
    ensures Apply(db, a).Kept? ==> SameClaims(db, Apply(db, a).db)
  {
    hide ApplySandbox, ApplyTurn, ApplyItemAdded, ApplyItemDone, ApplyTurnUsage, Events;
    match a.envelope.payload
    case SandboxReport(_, _, _) => SandboxKeepsClaims(db, a);
    case TurnStatus(t, mark) => TurnKeepsClaims(db, a, t, mark);
    case ItemAdded(_, _, _, _) => ItemKeepsClaims(db, a);
    case ItemDone(_, _, _) => ItemKeepsClaims(db, a);
    case Usage(_, _, _, _) => ItemKeepsClaims(db, a);
    case _ =>
  }

  lemma GuardedKeepsClaims(db: Db, a: Attempt, extra: Lists)
    requires a.envelope.session in db.sessions
    ensures Guarded(db, a, extra).Kept? ==> SameClaims(db, Guarded(db, a, extra).db)
  {
    hide Apply, SameClaims;
    ApplyKeepsClaims(db, a);
  }

  /** A savepoint that is kept claims its row and writes within its claims. */
  lemma DeliverClaims(db: Db, a: Attempt, worker: Id)
    requires a.envelope.session in db.sessions
    ensures var r := Deliver(db, a, worker);
      r.Kept? ==> && KeyOf(a) !in db.ledger && r.db.ledger == db.ledger + {KeyOf(a)}
                  && r.db.cursors == db.cursors && SameLeases(db, r.db)
  {
    hide Guarded, Validate;
    GuardedKeepsClaims(db.(ledger := db.ledger + {KeyOf(a)}), a, Receipts(a.envelope));
  }

  lemma RedeliverClaims(db: Db, a: Attempt)
    requires a.envelope.session in db.sessions
    ensures Redeliver(db, a).Kept? ==> SameClaims(db, Redeliver(db, a).db)
    ensures Redeliver(db, a).Kept? && !Rereplies(a) ==> Redeliver(db, a).db == db
  {
    hide Guarded;
    GuardedKeepsClaims(db, a, NOTHING);
  }

  /** An envelope writes if and only if it claims its ledger row, which no earlier delivery of it did. */
  lemma OnlyAClaimWrites(db: Db, a: Attempt, worker: Id)
    ensures var v := Judge(db, a, worker);
      && v.db.cursors == db.cursors && SameLeases(db, v.db)
      && (v.fate.Applied? <==> KeyOf(a) in v.db.ledger && KeyOf(a) !in db.ledger)
      && v.db.ledger == (if v.fate.Applied? then db.ledger + {KeyOf(a)} else db.ledger)
      && (!v.fate.Applied? && !(v.fate.Skipped? && Rereplies(a)) ==> v.db == db)
  {
    hide Deliver, Redeliver;
    if a.envelope.session in db.sessions {
      DeliverClaims(db, a, worker);
      RedeliverClaims(db, a);
    }
  }

  // ---------------------------------------------------------------- wakes are the appended events

  /** The bodies handed out for one session, in order. */
  function Bodies(wakes: seq<Wake>, s: Id): seq<Event> {
    if wakes == [] then []
    else
      var last := wakes[|wakes| - 1];
      Bodies(wakes[..|wakes| - 1], s) + (if last.session == s then [last.event] else [])
  }

  /** Each wake of the session carries the number its event has in a log that held `base` events before. */
  predicate Numbered(wakes: seq<Wake>, s: Id, base: nat) {
    if wakes == [] then true
    else
      var front, last := wakes[..|wakes| - 1], wakes[|wakes| - 1];
      Numbered(front, s, base) && (last.session == s ==> last.number == base + |Bodies(front, s)| + 1)
  }

  /** `wakes` tells exactly how the event log of session `s` grew. */
  ghost predicate Tells(db: Db, db': Db, wakes: seq<Wake>, s: Id) {
    && Events(db', s) == Events(db, s) + Bodies(wakes, s)
    && Numbered(wakes, s, |Events(db, s)|)
  }

  lemma {:induction false} BodiesJoin(xs: seq<Wake>, ys: seq<Wake>, s: Id, base: nat)
    ensures Bodies(xs + ys, s) == Bodies(xs, s) + Bodies(ys, s)
    ensures Numbered(xs, s, base) && Numbered(ys, s, base + |Bodies(xs, s)|) ==> Numbered(xs + ys, s, base)
  {
    if ys == [] {
      assert xs + ys == xs;
    } else {
      BodiesJoin(xs, ys[..|ys| - 1], s, base);
      assert (xs + ys)[..|xs + ys| - 1] == xs + ys[..|ys| - 1];
    }
  }

  /** One call appends at most one event, to the log of session `s`, and hands out its body and number. */
  ghost predicate AppendsOne(db: Db, db': Db, wakes: seq<Wake>, s: Id) {
    || (wakes == [] && db'.events == db.events)
    || (|wakes| == 1 && wakes[0].session == s && wakes[0].number == |Events(db, s)| + 1
        && db'.events == db.events[s := Events(db, s) + [wakes[0].event]])
  }

  lemma AppendsOneTells(db: Db, db': Db, wakes: seq<Wake>, s: Id, t: Id)
    requires AppendsOne(db, db', wakes, s)
    ensures Tells(db, db', wakes, t)
  {
    if wakes != [] {
      assert wakes[..0] == [];
    }
  }

  lemma SandboxAppendsOne(db: Db, a: Attempt)
    requires a.envelope.session in db.sessions && a.envelope.payload.SandboxReport?
    ensures var r := ApplySandbox(db, a);
      r.Kept? ==> AppendsOne(db, r.db, r.lists.wakes, a.envelope.session)
  {
  }

  lemma ItemAppendsNone(db: Db, a: Attempt)
    requires a.envelope.session in db.sessions
    ensures var p := a.envelope.payload;
      var r := if p.ItemAdded? then ApplyItemAdded(db, a) else if p.ItemDone? then ApplyItemDone(db, a)
               else if p.Usage? then ApplyTurnUsage(db, a) else ApplyArtifact(db, a);
      r.lists.wakes == [] && (r.Kept? ==> r.db.events == db.events)
  {
  }

  lemma TurnAppendsNone(db: Db, a: Attempt, t: Id, mark: TurnMark)
    ensures var r := ApplyTurn(db, a, t, mark);
      r.lists.wakes == [] && (r.Kept? ==> r.db.events == db.events)
  {
    hide TurnStamp;
  }

  lemma ApplyAppendsOne(db: Db, a: Attempt)
    requires a.envelope.session in db.sessions
    ensures var r := Apply(db, a);
      r.Kept? ==> AppendsOne(db, r.db, r.lists.wakes, a.envelope.session)
  {
    hide ApplySandbox, ApplyTurn, ApplyItemAdded, ApplyItemDone, ApplyTurnUsage, ApplyArtifact, Events;
    match a.envelope.payload
    case SandboxReport(_, _, _) => SandboxAppendsOne(db, a);
    case TurnStatus(t, mark) => TurnAppendsNone(db, a, t, mark);
    case ItemAdded(_, _, _, _) => ItemAppendsNone(db, a);
    case ItemDone(_, _, _) => ItemAppendsNone(db, a);
    case Usage(_, _, _, _) => ItemAppendsNone(db, a);
    case ArtifactPresign(_) => ItemAppendsNone(db, a);
    case ArtifactCompleted(_) => ItemAppendsNone(db, a);
    case _ =>
  }

  lemma GuardedAppendsOne(db: Db, a: Attempt, extra: Lists)
    requires a.envelope.session in db.sessions && extra.wakes == []
    ensures var r := Guarded(db, a, extra);
      r.Kept? ==> AppendsOne(db, r.db, r.lists.wakes, a.envelope.session)
  {
    hide Apply, AppendsOne;
    ApplyAppendsOne(db, a);
    var r := Apply(db, a);
    assert r.lists.wakes + [] == r.lists.wakes;
  }

  lemma DeliverAppendsOne(db: Db, a: Attempt, worker: Id)
    requires a.envelope.session in db.sessions
    ensures var r := Deliver(db, a, worker);
      r.Kept? ==> AppendsOne(db, r.db, r.lists.wakes, a.envelope.session)
  {
    hide Guarded, Validate;
    GuardedAppendsOne(db.(ledger := db.ledger + {KeyOf(a)}), a, Receipts(a.envelope));
  }

  lemma RedeliverAppendsOne(db: Db, a: Attempt)
    requires a.envelope.session in db.sessions
    ensures var r := Redeliver(db, a);
      r.Kept? ==> AppendsOne(db, r.db, r.lists.wakes, a.envelope.session)
  {
    hide Guarded;
    GuardedAppendsOne(db, a, NOTHING);
  }

  lemma JudgeAppendsOne(db: Db, a: Attempt, worker: Id)
    ensures var v := Judge(db, a, worker);
      AppendsOne(db, v.db, v.lists.wakes, a.envelope.session)
  {
    hide Deliver, Redeliver;
    if a.envelope.session in db.sessions {
      DeliverAppendsOne(db, a, worker);
      RedeliverAppendsOne(db, a);
      DuplicateIsSilent(db, a, worker);
    }
  }

  /** A duplicate is noticed before anything is appended, and is never found twice. */
  lemma DuplicateIsSilent(db: Db, a: Attempt, worker: Id)
    requires a.envelope.session in db.sessions
    ensures Deliver(db, a, worker).Undone? && Deliver(db, a, worker).cause.Duplicate? ==>
              Deliver(db, a, worker).lists == NOTHING
    ensures Redeliver(db, a).Undone? ==> !Redeliver(db, a).cause.Duplicate?
  {
    hide Apply, Validate;
    NeverTransient(db, a);
    NeverTransient(db.(ledger := db.ledger + {KeyOf(a)}), a);
  }

  /** No body of an envelope fails transiently by itself, and none is taken for a duplicate. */
  lemma NeverTransient(db: Db, a: Attempt)
    requires a.envelope.session in db.sessions
    ensures Apply(db, a).Undone? ==> Apply(db, a).cause != Error(true) && Apply(db, a).cause != Duplicate
  {
    hide TurnStamp, Loggable;
  }

  lemma Associates<T>(a: seq<T>, b: seq<T>, c: seq<T>)
    ensures a + (b + c) == a + b + c && a + [] == a
  {
  }

  lemma BookTells(db: Db, b: Batch, a: Attempt, v: Verdict, s: Id)
    requires Tells(db, b.db, b.lists.wakes, s) && Tells(b.db, v.db, v.lists.wakes, s)
    ensures Tells(db, Book(b, a, v).db, Book(b, a, v).lists.wakes, s)
  {
    hide Bodies, Numbered, Events, Raised;
    BodiesJoin(b.lists.wakes, v.lists.wakes, s, |Events(db, s)|);
    Associates(Events(db, s), Bodies(b.lists.wakes, s), Bodies(v.lists.wakes, s));
  }

  lemma SettleTells(db: Db, b: Batch, a: Attempt, worker: Id, s: Id)
    requires Tells(db, b.db, b.lists.wakes, s)
    ensures Tells(db, Settle(b, a, worker).db, Settle(b, a, worker).lists.wakes, s)
  {
    hide Judge, Book, Tells, AppendsOne;
    if a.envelope.session !in b.stalled {
      var v := Judge(b.db, a, worker);
      JudgeAppendsOne(b.db, a, worker);
      AppendsOneTells(b.db, v.db, v.lists.wakes, a.envelope.session, s);
      BookTells(db, b, a, v, s);
    }
  }

  /** Whatever the verdicts, the wakes of a batch are exactly the events it stored, in order and numbered as stored. */
  lemma {:induction false} WakesMirrorStore(db: Db, queue: seq<Attempt>, worker: Id, s: Id)
    ensures Tells(db, SettleAll(Opening(db), queue, worker).db, SettleAll(Opening(db), queue, worker).lists.wakes, s)
    ensures Tells(db, Flush(db, queue, worker).db, Flush(db, queue, worker).lists.wakes, s)
  {
    if queue != [] {
      WakesMirrorStore(db, queue[..|queue| - 1], worker, s);
      SettleTells(db, SettleAll(Opening(db), queue[..|queue| - 1], worker), queue[|queue| - 1], worker, s);
    }
  }
}
