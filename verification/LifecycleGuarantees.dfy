/** What holds of every log when `reconcile` returns. */
module LifecycleGuarantees {
  import opened Common
  import opened LifecycleLog
  import opened LifecycleLaws
  import opened LifecycleReadings

  // ---------------------------------------------------------------- where records come from

  /** A start event of the boot, or an entry of one of its heartbeats, opened this session under this number. */
  ghost predicate OpenedBy(e: Event, boot: string, session: Option<string>, q: int, startedAt: Option<Time>) {
    e.boot == Some(boot) && match e.kind
      case LiveStart(s) => s == session && e.seqno == q && e.at == startedAt
      case Beat(_, live) => e.at.Some? && session.Some? && Entry(session, Some(q), startedAt) in live
      case _ => false
  }

  ghost predicate Sourced(events: seq<Event>, boot: string, session: Option<string>, q: int, startedAt: Option<Time>) {
    exists e :: e in events && OpenedBy(e, boot, session, q, startedAt)
  }

  /** The moment is one an event of the boot carries. */
  ghost predicate Dated(events: seq<Event>, boot: string, at: Time) {
    exists e :: e in events && e.boot == Some(boot) && e.at == Some(at)
  }

  ghost predicate SourcedInterval(events: seq<Event>, iv: Interval) {
    && Sourced(events, iv.boot, iv.session, iv.startSeq, iv.startedAt)
    && (iv.lastListed.Some? ==> Dated(events, iv.boot, iv.lastListed.value))
  }

  ghost predicate SourcedRecord(events: seq<Event>, r: Record) {
    Sourced(events, r.boot, r.session, r.startSeq, r.startedAt) && Dated(events, r.boot, r.closedAt)
  }

  ghost predicate SourcedOpens(events: seq<Event>, opens: seq<Interval>) {
    forall iv :: iv in opens ==> SourcedInterval(events, iv)
  }

  ghost predicate SourcedClosed(events: seq<Event>, closed: seq<Record>) {
    forall r :: r in closed ==> SourcedRecord(events, r)
  }

  ghost predicate SourcedBooks(events: seq<Event>, b: Books) {
    && SourcedOpens(events, b.opens)
    && SourcedClosed(events, b.closed)
    && (forall boot :: boot in b.lastBeat ==> Dated(events, boot, b.lastBeat[boot]))
    && (forall boot :: boot in b.lastEvent ==> Dated(events, boot, b.lastEvent[boot]))
  }

  lemma EntryIsSourced(events: seq<Event>, opens: seq<Interval>, e: Event, entry: Entry)
    requires SourcedOpens(events, opens) && e in events && e.boot.Some? && e.at.Some? && e.kind.Beat?
    requires entry in e.kind.live
    ensures SourcedOpens(events, ListOne(opens, e.boot.value, entry, e.at.value))
  {
    hide Find;
    assert Dated(events, e.boot.value, e.at.value);
    if entry.session.Some? && entry.startSeq.Some? {
      assert entry == Entry(entry.session, Some(entry.startSeq.value), entry.startedAt);
      assert OpenedBy(e, e.boot.value, entry.session, entry.startSeq.value, entry.startedAt);
      var i := Find(opens, e.boot.value, entry.startSeq.value);
      if i >= 0 {
        assert SourcedInterval(events, opens[i]);
      }
    }
  }

  lemma {:induction false} ListingIsSourced(events: seq<Event>, opens: seq<Interval>, e: Event, n: nat)
    requires SourcedOpens(events, opens) && e in events && e.boot.Some? && e.at.Some? && e.kind.Beat?
    requires n <= |e.kind.live|
    ensures SourcedOpens(events, ListAll(opens, e.boot.value, e.kind.live[..n], e.at.value))
  {
    hide SourcedOpens, ListOne;
    if n > 0 {
      var live := e.kind.live;
      assert live[..n][..n - 1] == live[..n - 1];
      ListingIsSourced(events, opens, e, n - 1);
      EntryIsSourced(events, ListAll(opens, e.boot.value, live[..n - 1], e.at.value), e, live[n - 1]);
    }
  }

  lemma {:induction false} LosingIsSourced(events: seq<Event>, opens: seq<Interval>, boot: string, live: seq<Entry>,
                                           at: Time)
    requires SourcedOpens(events, opens) && Dated(events, boot, at)
    ensures SourcedOpens(events, Kept(opens, boot, live)) && SourcedClosed(events, LostRecords(opens, boot, live, at))
  {
    hide Dated, Sourced, Listed;
    if opens != [] {
      var front, last := opens[..|opens| - 1], opens[|opens| - 1];
      LosingIsSourced(events, front, boot, live, at);
      assert SourcedInterval(events, last);
    }
  }

  lemma NoteIsSourced(events: seq<Event>, b: Books, boot: string, e: Event)
    requires SourcedBooks(events, b) && e in events && e.boot == Some(boot)
    ensures SourcedBooks(events, Note(b, boot, e))
  {
    hide SourcedOpens, SourcedClosed;
    if e.at.Some? { assert Dated(events, boot, e.at.value); }
  }

  lemma StartIsSourced(events: seq<Event>, opens: seq<Interval>, boot: string, e: Event)
    requires SourcedOpens(events, opens) && e in events && e.boot == Some(boot) && e.kind.LiveStart?
    ensures SourcedOpens(events, Put(opens, Interval(boot, e.kind.session, e.seqno, e.at, None)))
  {
    hide Find;
    assert OpenedBy(e, boot, e.kind.session, e.seqno, e.at);
    assert SourcedInterval(events, Interval(boot, e.kind.session, e.seqno, e.at, None));
  }

  lemma BeatIsSourced(events: seq<Event>, opens: seq<Interval>, boot: string, e: Event)
    requires SourcedOpens(events, opens) && e in events && e.boot == Some(boot) && e.kind.Beat? && e.at.Some?
    ensures var listed := ListAll(opens, boot, e.kind.live, e.at.value);
      && SourcedOpens(events, Kept(listed, boot, e.kind.live))
      && SourcedClosed(events, LostRecords(listed, boot, e.kind.live, e.at.value))
      && Dated(events, boot, e.at.value)
  {
    hide ListAll, Kept, LostRecords, SourcedOpens, SourcedClosed;
    var live := e.kind.live;
    assert live[..|live|] == live;
    ListingIsSourced(events, opens, e, |live|);
    LosingIsSourced(events, ListAll(opens, boot, live, e.at.value), boot, live, e.at.value);
  }

  lemma StopIsSourced(events: seq<Event>, b: Books, boot: string, e: Event)
    requires SourcedBooks(events, b) && e in events && e.boot == Some(boot) && e.kind.LiveStop?
    requires e.at.Some? ==> Dated(events, boot, e.at.value)
    ensures var i := Find(b.opens, boot, e.kind.startSeq);
      i >= 0 ==> (
        && SourcedOpens(events, Without(b.opens, i))
        && (e.at.Some? ==> SourcedRecord(events,
              Close(b.opens[i], e.at.value, if e.kind.reason == "" then "stop" else e.kind.reason, e.kind.liveMs))))
  {
    hide Dated, Sourced;
    var i := Find(b.opens, boot, e.kind.startSeq);
    if i >= 0 {
      assert SourcedInterval(events, b.opens[i]);
    }
  }

  lemma StepIsSourced(events: seq<Event>, b0: Books, boot: string, e: Event)
    requires SourcedBooks(events, b0) && e in events && e.boot == Some(boot)
    ensures SourcedBooks(events, Step(b0, boot, e))
  {
    hide Find, ListAll, Kept, LostRecords, Note, Put, Without, SourcedOpens, Dated, SourcedRecord, Close;
    NoteIsSourced(events, b0, boot, e);
    var b := Note(b0, boot, e);
    match e.kind
    case LiveStart(_) => StartIsSourced(events, b.opens, boot, e);
    case LiveStop(_, _, _) =>
      if e.at.Some? { assert Dated(events, boot, e.at.value) by { Carries(events, boot, e); } }
      StopIsSourced(events, b, boot, e);
    case Beat(_, _) => if e.at.Some? { BeatIsSourced(events, b.opens, boot, e); }
    case OtherKind =>
  }

  lemma Carries(events: seq<Event>, boot: string, e: Event)
    requires e in events && e.boot == Some(boot) && e.at.Some?
    ensures Dated(events, boot, e.at.value)
  {
  }

  lemma {:induction false} FoldIsSourced(events: seq<Event>, b: Books, boot: string, rows: seq<Event>)
    requires SourcedBooks(events, b) && forall e :: e in rows ==> e in events && e.boot == Some(boot)
    ensures SourcedBooks(events, Fold(b, boot, rows))
  {
    hide SourcedBooks, Step;
    if rows != [] {
      FoldIsSourced(events, b, boot, rows[..|rows| - 1]);
      StepIsSourced(events, Fold(b, boot, rows[..|rows| - 1]), boot, rows[|rows| - 1]);
    }
  }

  lemma {:induction false} InsertMembers(rows: seq<Event>, e: Event)
    ensures forall f :: f in Insert(rows, e) ==> f in rows || f == e
  {
    if rows != [] && rows[|rows| - 1].seqno > e.seqno {
      InsertMembers(rows[..|rows| - 1], e);
    }
  }

  lemma {:induction false} SortMembers(xs: seq<Event>)
    ensures forall f :: f in SortBySeq(xs) ==> f in xs
  {
    if xs != [] {
      SortMembers(xs[..|xs| - 1]);
      InsertMembers(SortBySeq(xs[..|xs| - 1]), xs[|xs| - 1]);
    }
  }

  lemma {:induction false} OfBootMembers(xs: seq<Event>, boot: string)
    ensures forall f :: f in OfBoot(xs, boot) ==> f in xs && f.boot == Some(boot)
  {
    if xs != [] { OfBootMembers(xs[..|xs| - 1], boot); }
  }

  lemma {:induction false} DedupeMembers(xs: seq<Event>)
    ensures forall f :: f in Dedupe(xs) ==> f in xs
  {
    if xs != [] { DedupeMembers(xs[..|xs| - 1]); }
  }

  lemma {:induction false} FoldBootsIsSourced(events: seq<Event>, ordered: seq<Event>, boots: seq<string>)
    requires forall e :: e in ordered ==> e in events
    ensures SourcedBooks(events, FoldBoots(EMPTY, ordered, boots))
  {
    hide Fold, SortBySeq, OfBoot, Sourced;
    if boots != [] {
      var boot := boots[|boots| - 1];
      FoldBootsIsSourced(events, ordered, boots[..|boots| - 1]);
      OfBootMembers(ordered, boot);
      SortMembers(OfBoot(ordered, boot));
      FoldIsSourced(events, FoldBoots(EMPTY, ordered, boots[..|boots| - 1]), boot, SortBySeq(OfBoot(ordered, boot)));
    }
  }

  // ---------------------------------------------------------------- closing boots

  function Outside(opens: seq<Interval>, gone: set<string>): seq<Interval> {
    if opens == [] then []
    else
      var front, last := opens[..|opens| - 1], opens[|opens| - 1];
      Outside(front, gone) + (if last.boot in gone then [] else [last])
  }

  function Farewell(b: Books, iv: Interval): Record
    requires LastSign(b, iv.boot).Some?
  {
    Close(iv, LastSign(b, iv.boot).value, "worker_lost", None)
  }

  /**
   Against `b`, the boots in `gone` were closed: their intervals left, each in exactly one record dated
   by the boot's last sign; nothing else changed.
   */
  ghost predicate Gone(b: Books, after: Books, gone: set<string>) {
    && after == b.(opens := after.opens, closed := after.closed)
    && (forall boot :: boot in gone ==> LastSign(b, boot).Some?)
    && after.opens == Outside(b.opens, gone)
    && |b.closed| <= |after.closed| && after.closed[..|b.closed|] == b.closed
    && |after.closed| - |b.closed| == |b.opens| - |after.opens|
    && (forall r :: r in after.closed[|b.closed|..] <==>
         exists iv :: iv in b.opens && iv.boot in gone && r == Farewell(b, iv))
  }

  lemma {:induction false} OthersOutside(opens: seq<Interval>, gone: set<string>, boot: string)
    ensures Others(Outside(opens, gone), boot) == Outside(opens, gone + {boot})
  {
    if opens != [] {
      var front, last := opens[..|opens| - 1], opens[|opens| - 1];
      OthersOutside(front, gone, boot);
      var kept := Outside(front, gone);
      if last.boot in gone {
        assert kept + [] == kept;
      } else {
        assert (kept + [last])[..|kept|] == kept;
      }
    }
  }

  lemma {:induction false} OutsideMembers(opens: seq<Interval>, gone: set<string>)
    ensures forall iv :: iv in Outside(opens, gone) <==> iv in opens && iv.boot !in gone
  {
    if opens != [] {
      OutsideMembers(opens[..|opens| - 1], gone);
      assert forall iv :: iv in opens <==> iv in opens[..|opens| - 1] || iv == opens[|opens| - 1];
    }
  }

  lemma {:induction false} OutsideNothing(opens: seq<Interval>)
    ensures Outside(opens, {}) == opens
  {
    if opens != [] { OutsideNothing(opens[..|opens| - 1]); }
  }

  lemma {:induction false} BootRecordsMembers(opens: seq<Interval>, boot: string, at: Time)
    ensures forall r :: r in BootRecords(opens, boot, at) <==>
      exists iv :: iv in opens && iv.boot == boot && r == Close(iv, at, "worker_lost", None)
    ensures |BootRecords(opens, boot, at)| + |Others(opens, boot)| == |opens|
  {
    if opens != [] {
      var front, last := opens[..|opens| - 1], opens[|opens| - 1];
      BootRecordsMembers(front, boot, at);
      forall r
        ensures r in BootRecords(opens, boot, at) <==>
          exists iv :: iv in opens && iv.boot == boot && r == Close(iv, at, "worker_lost", None)
      {
        if r in BootRecords(front, boot, at) {
          var iv :| iv in front && iv.boot == boot && r == Close(iv, at, "worker_lost", None);
          assert iv in opens;
        } else if r in BootRecords(opens, boot, at) {
          assert last in opens;
        }
        if iv :| iv in opens && iv.boot == boot && r == Close(iv, at, "worker_lost", None) {
          if iv != last { assert iv in front; }
        }
      }
    }
  }

  lemma NothingGone(b: Books)
    ensures Gone(b, b, {})
  {
    OutsideNothing(b.opens);
  }

  lemma OneMoreGone(b: Books, after: Books, gone: set<string>, boot: string)
    requires Gone(b, after, gone) && LastSign(b, boot).Some?
    ensures Gone(b, CloseBoot(after, boot, LastSign(b, boot).value), gone + {boot})
  {
    hide BootRecords, Others, Outside, LastSign;
    var at := LastSign(b, boot).value;
    OthersOutside(b.opens, gone, boot);
    OutsideMembers(b.opens, gone);
    BootRecordsMembers(after.opens, boot, at);
    var n, end := |b.closed|, CloseBoot(after, boot, at);
    assert end.closed[n..] == after.closed[n..] + BootRecords(after.opens, boot, at);
    assert end.closed[..n] == after.closed[..n];
    forall r
      ensures r in end.closed[n..] <==> exists iv :: iv in b.opens && iv.boot in gone + {boot} && r == Farewell(b, iv)
    {
      if r in BootRecords(after.opens, boot, at) {
        var iv :| iv in after.opens && iv.boot == boot && r == Close(iv, at, "worker_lost", None);
        assert r == Farewell(b, iv);
      }
      if iv :| iv in b.opens && iv.boot in gone + {boot} && r == Farewell(b, iv) {
        if iv.boot !in gone {
          assert iv in after.opens;
        }
      }
    }
  }

  // ---------------------------------------------------------------- replaced boots

  /** A boot claims a seat by its worker's name, and one by its instance's. */
  datatype Seat = WorkerSeat | InstanceSeat

  function NameOn(b: Books, seat: Seat, boot: string): Option<string> {
    if seat.WorkerSeat? then IdentityOf(b, boot).worker else IdentityOf(b, boot).instance
  }

  predicate SameSeat(b: Books, seat: Seat, x: string, y: string) {
    Names(NameOn(b, seat, x)) && NameOn(b, seat, x) == NameOn(b, seat, y)
  }

  /** A boot seen later took a seat of this one, and this one left a sign to date its end by. */
  ghost predicate Replaced(b: Books, boots: seq<string>, x: string) {
    LastSign(b, x).Some?
    && exists i, j, seat :: 0 <= i < j < |boots| && boots[i] == x && SameSeat(b, seat, x, boots[j])
  }

  ghost function AllReplaced(b: Books, boots: seq<string>): set<string> {
    set x | x in boots && Replaced(b, boots, x)
  }

  ghost predicate Distinct(boots: seq<string>) {
    forall i, j :: 0 <= i < j < |boots| ==> boots[i] != boots[j]
  }

  ghost predicate LatestAt(b: Books, boots: seq<string>, seat: Seat, name: string, k: int) {
    && 0 <= k < |boots| && name != "" && NameOn(b, seat, boots[k]) == Some(name)
    && forall m :: k < m < |boots| ==> NameOn(b, seat, boots[m]) != Some(name)
  }

  /** The table holds the last boot of each name. */
  ghost predicate HoldsLatest(b: Books, boots: seq<string>, seat: Seat, table: map<string, string>) {
    && (forall name :: name in table ==> exists k :: LatestAt(b, boots, seat, name, k) && boots[k] == table[name])
    && (forall k :: 0 <= k < |boots| && Names(NameOn(b, seat, boots[k])) ==> NameOn(b, seat, boots[k]).value in table)
  }

  function TableOf(seen: Seen, seat: Seat): map<string, string> {
    if seat.WorkerSeat? then seen.workers else seen.instances
  }

  lemma NextOfName(b: Books, front: seq<string>, boot: string, seat: Seat, table: map<string, string>)
    requires HoldsLatest(b, front, seat, table)
    ensures var name := NameOn(b, seat, boot);
      HoldsLatest(b, front + [boot], seat, if Names(name) then table[name.value := boot] else table)
  {
    var boots, own := front + [boot], NameOn(b, seat, boot);
    var after := if Names(own) then table[own.value := boot] else table;
    forall name | name in after
      ensures exists k :: LatestAt(b, boots, seat, name, k) && boots[k] == after[name]
    {
      if own == Some(name) && name != "" {
        assert LatestAt(b, boots, seat, name, |front|);
      } else {
        var k :| LatestAt(b, front, seat, name, k) && front[k] == table[name];
        assert LatestAt(b, boots, seat, name, k);
      }
    }
    forall k | 0 <= k < |boots| && Names(NameOn(b, seat, boots[k]))
      ensures NameOn(b, seat, boots[k]).value in after
    {
      if k < |front| { assert boots[k] == front[k]; }
    }
  }

  lemma {:induction false} SeenHoldsLatest(b: Books, boots: seq<string>, seat: Seat)
    ensures HoldsLatest(b, boots, seat, TableOf(SeenAll(b, boots), seat))
  {
    if boots != [] {
      var front, boot := boots[..|boots| - 1], boots[|boots| - 1];
      SeenHoldsLatest(b, front, seat);
      NextOfName(b, front, boot, seat, TableOf(SeenAll(b, front), seat));
      assert front + [boot] == boots;
    }
  }

  ghost function Signed(b: Books, boots: seq<string>): set<string> {
    set x | x in boots && LastSign(b, x).Some?
  }

  lemma ReplacedStaysReplaced(b: Books, front: seq<string>, boot: string, x: string)
    requires x in AllReplaced(b, front)
    ensures x in AllReplaced(b, front + [boot])
  {
    hide SameSeat;
    var boots := front + [boot];
    var i, j, seat :| 0 <= i < j < |front| && front[i] == x && SameSeat(b, seat, x, front[j]);
    assert boots[i] == x && boots[j] == front[j];
  }

  lemma ReplacedNowOrBefore(b: Books, front: seq<string>, boot: string, x: string)
    requires Distinct(front + [boot]) && x in AllReplaced(b, front + [boot])
    ensures x in AllReplaced(b, front) + Signed(b, Replaces(b, SeenAll(b, front), boot))
  {
    hide SameSeat, SeenAll, Replaces, Distinct, Signed;
    var boots := front + [boot];
    var i, j, seat :| 0 <= i < j < |boots| && boots[i] == x && SameSeat(b, seat, x, boots[j]);
    assert front[i] == x;
    if j < |front| {
      assert front[j] == boots[j];
    } else {
      ReplacedIsPrior(b, front, boot, seat, i);
    }
  }

  /** Closing the last boot of each name is enough: the earlier ones were closed in their turn. */
  lemma ReplacingTheLatest(b: Books, front: seq<string>, boot: string)
    requires Distinct(front + [boot])
    ensures AllReplaced(b, front + [boot]) == AllReplaced(b, front) + Signed(b, Replaces(b, SeenAll(b, front), boot))
  {
    hide SeenAll, AllReplaced, Replaces, Distinct;
    var all, before := AllReplaced(b, front + [boot]), AllReplaced(b, front);
    var now := Signed(b, Replaces(b, SeenAll(b, front), boot));
    forall x
      ensures x in all <==> x in before + now
    {
      if x in all { ReplacedNowOrBefore(b, front, boot, x); }
      if x in before { ReplacedStaysReplaced(b, front, boot, x); }
      if x in now { PriorIsReplaced(b, front, boot, x); }
    }
  }

  lemma ReplacedIsPrior(b: Books, front: seq<string>, boot: string, seat: Seat, i: nat)
    requires Distinct(front + [boot]) && i < |front|
    requires SameSeat(b, seat, front[i], boot) && LastSign(b, front[i]).Some?
    ensures front[i] in AllReplaced(b, front) + Signed(b, Replaces(b, SeenAll(b, front), boot))
  {
    hide SeenAll;
    SeenHoldsLatest(b, front, seat);
    var name := NameOn(b, seat, boot).value;
    var table := TableOf(SeenAll(b, front), seat);
    var k :| LatestAt(b, front, seat, name, k) && front[k] == table[name];
    assert (front + [boot])[i] != (front + [boot])[|front|];
    assert i <= k;
    if i < k {
      assert SameSeat(b, seat, front[i], front[k]);
    } else {
      assert front[i] in Replaces(b, SeenAll(b, front), boot);
    }
  }

  lemma PriorIsReplaced(b: Books, front: seq<string>, boot: string, x: string)
    requires x in Replaces(b, SeenAll(b, front), boot) && LastSign(b, x).Some?
    ensures x in AllReplaced(b, front + [boot])
  {
    hide SeenAll;
    var boots, who := front + [boot], IdentityOf(b, boot);
    var seat := if Names(who.worker) && who.worker.value in SeenAll(b, front).workers
                   && x == SeenAll(b, front).workers[who.worker.value] then WorkerSeat else InstanceSeat;
    SeenHoldsLatest(b, front, seat);
    var name := NameOn(b, seat, boot).value;
    var k :| LatestAt(b, front, seat, name, k) && front[k] == TableOf(SeenAll(b, front), seat)[name];
    assert boots[k] == x && boots[|front|] == boot && SameSeat(b, seat, x, boot);
  }

  lemma {:induction false} CloseEachGone(b: Books, after: Books, gone: set<string>, priors: seq<string>)
    requires Gone(b, after, gone)
    ensures Gone(b, CloseEach(after, priors), gone + Signed(b, priors))
  {
    hide Gone, CloseBoot, LastSign;
    if priors == [] {
      assert gone + Signed(b, priors) == gone;
    } else {
      var front, last := priors[..|priors| - 1], priors[|priors| - 1];
      CloseEachGone(b, after, gone, front);
      SameSigns(b, CloseEach(after, front), gone + Signed(b, front), last);
      if LastSign(b, last).Some? {
        OneMoreGone(b, CloseEach(after, front), gone + Signed(b, front), last);
        assert gone + Signed(b, front) + {last} == gone + Signed(b, priors);
      } else {
        assert Signed(b, front) == Signed(b, priors);
      }
    }
  }

  lemma SameSigns(b: Books, after: Books, gone: set<string>, boot: string)
    requires Gone(b, after, gone)
    ensures LastSign(after, boot) == LastSign(b, boot)
  {
  }

  lemma {:induction false} SupersedeClosesTheReplaced(b: Books, boots: seq<string>)
    requires Distinct(boots)
    ensures Gone(b, Supersede(b, boots), AllReplaced(b, boots))
  {
    hide Gone, CloseEach, Replaced, Replaces, SeenAll, Signed;
    if boots == [] {
      NothingGone(b);
      assert AllReplaced(b, boots) == {};
    } else {
      var front, boot := boots[..|boots| - 1], boots[|boots| - 1];
      assert boots == front + [boot];
      SupersedeClosesTheReplaced(b, front);
      CloseEachGone(b, Supersede(b, front), AllReplaced(b, front), Replaces(b, SeenAll(b, front), boot));
      ReplacingTheLatest(b, front, boot);
    }
  }

  // ---------------------------------------------------------------- silent boots

  ghost predicate FellSilent(b: Books, gaps: seq<(string, Time)>, now: Time, grace: Time, boot: string) {
    exists i :: 0 <= i < |gaps| && gaps[i].0 == boot && Silent(b, boot, gaps[i].1, now, grace)
  }

  ghost function AllSilent(b: Books, gaps: seq<(string, Time)>, now: Time, grace: Time): set<string> {
    set x | x in b.lastBeat && FellSilent(b, gaps, now, grace, x)
  }

  lemma {:induction false} ExpireClosesTheSilent(b: Books, after: Books, gone: set<string>, gaps: seq<(string, Time)>,
                                                 now: Time, grace: Time)
    requires Gone(b, after, gone)
    ensures Gone(b, Expire(after, gaps, now, grace), gone + AllSilent(b, gaps, now, grace))
  {
    hide Gone, CloseBoot;
    if gaps == [] {
      assert gone + AllSilent(b, gaps, now, grace) == gone;
    } else {
      var front := gaps[..|gaps| - 1];
      var (boot, gap) := gaps[|gaps| - 1];
      ExpireClosesTheSilent(b, after, gone, front, now, grace);
      var before := Expire(after, front, now, grace);
      SameBeats(b, before, gone + AllSilent(b, front, now, grace));
      forall x
        ensures FellSilent(b, gaps, now, grace, x)
                <==> FellSilent(b, front, now, grace, x) || (x == boot && Silent(b, boot, gap, now, grace))
      {
        if FellSilent(b, front, now, grace, x) {
          var i :| 0 <= i < |front| && front[i].0 == x && Silent(b, x, front[i].1, now, grace);
          assert gaps[i] == front[i];
        }
        if x == boot && Silent(b, boot, gap, now, grace) { assert gaps[|gaps| - 1].0 == x; }
        if FellSilent(b, gaps, now, grace, x) {
          var i :| 0 <= i < |gaps| && gaps[i].0 == x && Silent(b, x, gaps[i].1, now, grace);
          if i < |front| { assert front[i] == gaps[i]; }
        }
      }
      if Silent(b, boot, gap, now, grace) {
        OneMoreGone(b, before, gone + AllSilent(b, front, now, grace), boot);
        assert gone + AllSilent(b, front, now, grace) + {boot} == gone + AllSilent(b, gaps, now, grace);
      } else {
        assert AllSilent(b, front, now, grace) == AllSilent(b, gaps, now, grace);
      }
    }
  }

  lemma SameBeats(b: Books, after: Books, gone: set<string>)
    requires Gone(b, after, gone)
    ensures after.lastBeat == b.lastBeat
  {
  }

  // ---------------------------------------------------------------- when `reconcile` returns

  /** The name the last of the boot's rows to carry one carries. */
  function SaidName(events: seq<Event>, seat: Seat, boot: string): Option<string> {
    LastCarried(RowsOf(events, boot), if seat.WorkerSeat? then WorkerOf else InstanceOf)
  }

  /** The last sign of a boot: the moment of its last heartbeat, else the last moment of its rows. */
  function SaidSign(events: seq<Event>, boot: string): Option<Time> {
    var rows := RowsOf(events, boot);
    if LastCarried(rows, BeatOf).Some? then LastCarried(rows, BeatOf) else LastCarried(rows, MomentOf)
  }

  ghost predicate SaysSame(events: seq<Event>, seat: Seat, x: string, y: string) {
    Names(SaidName(events, seat, x)) && SaidName(events, seat, x) == SaidName(events, seat, y)
  }

  /** A boot seen later says the same worker, or the same instance. */
  ghost predicate Succeeded(events: seq<Event>, x: string) {
    var boots := Boots(Dedupe(events));
    exists i, j, seat :: 0 <= i < j < |boots| && boots[i] == x && SaysSame(events, seat, x, boots[j])
  }

  /** Its last heartbeat is more than twice its last interval, and the grace, ago. */
  predicate FellQuiet(events: seq<Event>, now: Time, grace: Time, boot: string) {
    var beat, gap := LastCarried(RowsOf(events, boot), BeatOf), LastCarried(RowsOf(events, boot), GapOf);
    beat.Some? && gap.Some? && now - beat.value > 2 * gap.value + grace
  }

  ghost predicate MustEnd(events: seq<Event>, now: Time, grace: Time, boot: string) {
    (SaidSign(events, boot).Some? && Succeeded(events, boot)) || FellQuiet(events, now, grace, boot)
  }

  /** The interval ended with its boot, at the boot's last sign. */
  predicate EndsWithItsBoot(events: seq<Event>, iv: Interval, r: Record) {
    var at := SaidSign(events, iv.boot);
    at.Some? && r == Record(iv.boot, iv.session, iv.startSeq, iv.startedAt, at.value, "worker_lost", None)
  }

  lemma NamesAreSaid(events: seq<Event>, boot: string)
    ensures forall seat :: NameOn(AllFolded(events), seat, boot) == SaidName(events, seat, boot)
    ensures LastSign(AllFolded(events), boot) == SaidSign(events, boot)
  {
    hide AllFolded, RowsOf, LastCarried;
    TablesAreRead(events, boot);
  }

  lemma FarewellIsSaid(events: seq<Event>, iv: Interval, r: Record)
    requires LastSign(AllFolded(events), iv.boot).Some?
    ensures EndsWithItsBoot(events, iv, r) <==> r == Farewell(AllFolded(events), iv)
  {
    hide AllFolded, SaidSign, LastSign;
    NamesAreSaid(events, iv.boot);
  }

  lemma SilenceIsSaid(events: seq<Event>, now: Time, grace: Time, boot: string)
    ensures FellSilent(AllFolded(events), AllFolded(events).intervals, now, grace, boot)
            <==> FellQuiet(events, now, grace, boot)
  {
    hide AllFolded, RowsOf, LastCarried;
    TablesAreRead(events, boot);
    var b := AllFolded(events);
    if i :| 0 <= i < |b.intervals| && b.intervals[i].0 == boot && Silent(b, boot, b.intervals[i].1, now, grace) {
      assert (boot, b.intervals[i].1) in b.intervals;
    }
    if FellQuiet(events, now, grace, boot) {
      var gap := LastCarried(RowsOf(events, boot), GapOf).value;
      assert (boot, gap) in b.intervals;
      var i :| 0 <= i < |b.intervals| && b.intervals[i] == (boot, gap);
      assert Silent(b, boot, b.intervals[i].1, now, grace);
    }
  }

  lemma ReplacementIsSaid(events: seq<Event>, boot: string)
    ensures Replaced(AllFolded(events), Boots(Dedupe(events)), boot)
            <==> SaidSign(events, boot).Some? && Succeeded(events, boot)
  {
    hide AllFolded, RowsOf, LastCarried, SaidSign, LastSign, SaidName, NameOn, Dedupe, Boots;
    var b, boots := AllFolded(events), Boots(Dedupe(events));
    NamesAreSaid(events, boot);
    forall j, seat | 0 <= j < |boots|
      ensures SameSeat(b, seat, boot, boots[j]) <==> SaysSame(events, seat, boot, boots[j])
    {
      NamesAreSaid(events, boots[j]);
    }
  }

  /** Both ends come to the same whether read off the tables or off the events. */
  lemma EndsAreSaid(events: seq<Event>, now: Time, grace: Time)
    ensures var b, boots := AllFolded(events), Boots(Dedupe(events));
      forall x ::
        x in AllReplaced(b, boots) + AllSilent(b, b.intervals, now, grace) <==> MustEnd(events, now, grace, x)
  {
    hide AllFolded, Dedupe, Boots, Replaced, FellSilent, FellQuiet, Succeeded, SaidSign;
    var b, boots := AllFolded(events), Boots(Dedupe(events));
    forall x
      ensures x in AllReplaced(b, boots) + AllSilent(b, b.intervals, now, grace) <==> MustEnd(events, now, grace, x)
    {
      SilenceIsSaid(events, now, grace, x);
      ReplacementIsSaid(events, x);
      SilentHasBeat(b, now, grace, x);
      ReplacedIsSeen(b, boots, x);
    }
  }

  lemma SilentHasBeat(b: Books, now: Time, grace: Time, x: string)
    ensures FellSilent(b, b.intervals, now, grace, x) ==> x in b.lastBeat
  {
  }

  lemma ReplacedIsSeen(b: Books, boots: seq<string>, x: string)
    ensures Replaced(b, boots, x) ==> x in boots
  {
  }

  /**
   An interval the fold left open is still open when `reconcile` returns if and only if its boot neither
   was succeeded nor fell quiet; every other one is in one record, dated by its boot's last sign, and the
   records of the fold stay in front. Names, signs and intervals are those the boot's rows carry last.
   */
  lemma ReplacedAndSilentBootsEnd(events: seq<Event>, now: Time, grace: Time)
    ensures var b, end := AllFolded(events), Reconciled(events, now, grace);
      && (forall iv :: iv in end.opens <==> iv in b.opens && !MustEnd(events, now, grace, iv.boot))
      && |b.closed| <= |end.closed| && end.closed[..|b.closed|] == b.closed
      && |end.closed| + |end.opens| == |b.closed| + |b.opens|
      && (forall r :: r in end.closed[|b.closed|..] <==>
           exists iv :: iv in b.opens && MustEnd(events, now, grace, iv.boot) && EndsWithItsBoot(events, iv, r))
  {
    hide FoldBoots, Supersede, Expire, Dedupe, Boots, LastSign, AllReplaced, AllSilent, MustEnd, EndsWithItsBoot;
    hide Farewell;
    var b, boots := AllFolded(events), Boots(Dedupe(events));
    BootsAreDistinct(Dedupe(events));
    SupersedeClosesTheReplaced(b, boots);
    ExpireClosesTheSilent(b, Supersede(b, boots), AllReplaced(b, boots), b.intervals, now, grace);
    var gone := AllReplaced(b, boots) + AllSilent(b, b.intervals, now, grace);
    OutsideMembers(b.opens, gone);
    EndsAreSaid(events, now, grace);
    forall iv: Interval, r: Record | iv.boot in gone
      ensures EndsWithItsBoot(events, iv, r) <==> r == Farewell(AllFolded(events), iv)
    {
      FarewellIsSaid(events, iv, r);
    }
  }

  lemma EndIsSourced(events: seq<Event>, iv: Interval, r: Record)
    requires SourcedBooks(events, AllFolded(events)) && SourcedInterval(events, iv) && EndsWithItsBoot(events, iv, r)
    ensures SourcedRecord(events, r)
  {
    hide AllFolded, Sourced, Dated, SaidSign;
    NamesAreSaid(events, iv.boot);
  }

  /**
   Whatever was lost, repeated or reordered: every record comes from a start event or a heartbeat entry of
   its boot with that session, number and start, and is dated by a moment one of the boot's events carries.
   */
  lemma EveryRecordHasASource(events: seq<Event>, now: Time, grace: Time)
    ensures SourcedClosed(events, Reconciled(events, now, grace).closed)
    ensures SourcedOpens(events, Reconciled(events, now, grace).opens)
  {
    hide FoldBoots, Supersede, Expire, Dedupe, Boots, Sourced, Dated, MustEnd;
    var b, end := AllFolded(events), Reconciled(events, now, grace);
    DedupeMembers(events);
    FoldBootsIsSourced(events, Dedupe(events), Boots(Dedupe(events)));
    ReplacedAndSilentBootsEnd(events, now, grace);
    forall r | r in end.closed
      ensures SourcedRecord(events, r)
    {
      if r !in b.closed {
        assert r in end.closed[|b.closed|..];
        var iv :| iv in b.opens && MustEnd(events, now, grace, iv.boot) && EndsWithItsBoot(events, iv, r);
        EndIsSourced(events, iv, r);
      }
    }
  }
}
