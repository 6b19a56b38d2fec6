/** What each kind of event does to the open intervals and the records, stated over both as sets and lists. */
module LifecycleSteps {
  import opened Common
  import opened LifecycleLog
  import opened LifecycleHeartbeats

  predicate Under(iv: Interval, boot: string, q: int) {
    iv.boot == boot && iv.startSeq == q
  }

  /** The books differ at most in their tables. */
  predicate SameIntervals(b: Books, after: Books) {
    after.opens == b.opens && after.closed == b.closed
  }

  /** A start opens its own interval, in place of one that was open under its number. */
  lemma StartOpens(b: Books, boot: string, e: Event)
    requires Keyed(b.opens) && e.kind.LiveStart?
    ensures var after := Step(b, boot, e);
      && after.closed == b.closed
      && forall iv :: iv in after.opens <==>
           iv == Interval(boot, e.kind.session, e.seqno, e.at, None) || (iv in b.opens && !Under(iv, boot, e.seqno))
  {
    hide Find;
    var own, i := Interval(boot, e.kind.session, e.seqno, e.at, None), Find(b.opens, boot, e.seqno);
    var opens := Step(b, boot, e).opens;
    forall iv
      ensures iv in opens <==> iv == own || (iv in b.opens && !Under(iv, boot, e.seqno))
    {
      if iv in b.opens {
        var k :| 0 <= k < |b.opens| && b.opens[k] == iv;
        assert Under(iv, boot, e.seqno) <==> IsAt(b.opens, k, boot, e.seqno);
        if k != i { assert opens[k] == iv; }
      }
      if i >= 0 {
        assert opens[i] == own;
      } else {
        assert opens[|b.opens|] == own;
      }
    }
  }

  /** A stop ends the interval under its number, if one is open: a record of it is left when the stop has a moment. */
  lemma StopEnds(b: Books, boot: string, e: Event)
    requires Keyed(b.opens) && e.kind.LiveStop?
    ensures var after := Step(b, boot, e);
      && (forall iv :: iv in after.opens <==> iv in b.opens && !Under(iv, boot, e.kind.startSeq))
      && (forall iv :: iv in b.opens && Under(iv, boot, e.kind.startSeq) && e.at.Some? ==>
           after.closed == b.closed + [
             Record(boot, iv.session, iv.startSeq, iv.startedAt, e.at.value,
                    if e.kind.reason == "" then "stop" else e.kind.reason, e.kind.liveMs)])
      && (e.at.None? || (forall iv :: iv in b.opens ==> !Under(iv, boot, e.kind.startSeq)) ==> after.closed == b.closed)
  {
    hide Find;
    var q := e.kind.startSeq;
    var i := Find(b.opens, boot, q);
    if i < 0 {
      forall iv | iv in b.opens
        ensures !Under(iv, boot, q)
      {
        var k :| 0 <= k < |b.opens| && b.opens[k] == iv;
        assert !IsAt(b.opens, k, boot, q);
      }
    } else {
      WithoutOne(b.opens, i);
    }
  }

  lemma WithoutOne(opens: seq<Interval>, i: nat)
    requires Keyed(opens) && i < |opens|
    ensures forall iv :: iv in opens && Under(iv, opens[i].boot, opens[i].startSeq) ==> iv == opens[i]
    ensures forall iv :: iv in Without(opens, i) <==> iv in opens && !Under(iv, opens[i].boot, opens[i].startSeq)
  {
    forall iv | iv in opens
      ensures iv in Without(opens, i) <==> !Under(iv, opens[i].boot, opens[i].startSeq)
      ensures Under(iv, opens[i].boot, opens[i].startSeq) ==> iv == opens[i]
    {
      var k :| 0 <= k < |opens| && opens[k] == iv;
      if k < i { assert Without(opens, i)[k] == iv; }
      if k > i { assert Without(opens, i)[k - 1] == iv; }
    }
  }

  /** A heartbeat without a moment, and an event of another kind, change no interval. */
  lemma OthersChangeNothing(b: Books, boot: string, e: Event)
    requires e.kind.OtherKind? || (e.kind.Beat? && e.at.None?)
    ensures SameIntervals(b, Step(b, boot, e))
  {
  }

  // ---------------------------------------------------------------- heartbeats

  /** A well-formed entry names the number. */
  predicate Cites(entry: Entry, q: int) {
    entry.session.Some? && entry.startSeq == Some(q)
  }

  ghost predicate Named(live: seq<Entry>, q: int) {
    exists i :: 0 <= i < |live| && Cites(live[i], q)
  }

  /** The first entry to name the number. */
  ghost predicate FirstNaming(live: seq<Entry>, q: int, i: int) {
    0 <= i < |live| && Cites(live[i], q) && forall k :: 0 <= k < i ==> !Cites(live[k], q)
  }

  ghost predicate NoneUnder(opens: seq<Interval>, boot: string, q: int) {
    forall iv :: iv in opens ==> !Under(iv, boot, q)
  }

  /** The interval of an entry that opens one. */
  ghost predicate OpenedBy(opens: seq<Interval>, boot: string, live: seq<Entry>, at: Time, iv: Interval) {
    && iv.boot == boot && iv.lastListed == Some(at) && NoneUnder(opens, boot, iv.startSeq)
    && exists i :: FirstNaming(live, iv.startSeq, i)
                   && iv.session == live[i].session && iv.startedAt == live[i].startedAt
  }

  /** What the entries make of an interval that was open. */
  ghost function Marked(iv: Interval, boot: string, live: seq<Entry>, at: Time): Interval {
    if iv.boot == boot && Named(live, iv.startSeq) then iv.(lastListed := Some(at)) else iv
  }

  /** Entries mark what is open under their numbers, and open the rest behind it. */
  ghost predicate Taken(opens: seq<Interval>, boot: string, live: seq<Entry>, at: Time, listed: seq<Interval>) {
    && |opens| <= |listed|
    && (forall i :: 0 <= i < |opens| ==> listed[i] == Marked(opens[i], boot, live, at))
    && (forall i :: |opens| <= i < |listed| ==> OpenedBy(opens, boot, live, at, listed[i]))
    && (forall q :: Named(live, q) ==> Find(listed, boot, q) >= 0)
  }

  lemma FirstStays(live: seq<Entry>, q: int, i: int)
    requires live != [] && FirstNaming(live[..|live| - 1], q, i)
    ensures FirstNaming(live, q, i)
  {
    var front := live[..|live| - 1];
    forall k | 0 <= k < i
      ensures !Cites(live[k], q)
    {
      assert live[k] == front[k];
    }
  }

  lemma NamedNext(live: seq<Entry>, q: int)
    requires live != []
    ensures Named(live, q) <==> Named(live[..|live| - 1], q) || Cites(live[|live| - 1], q)
    ensures Cites(live[|live| - 1], q) && !Named(live[..|live| - 1], q) ==> FirstNaming(live, q, |live| - 1)
  {
    var front := live[..|live| - 1];
    if i :| 0 <= i < |front| && Cites(front[i], q) { assert live[i] == front[i]; }
    if i :| 0 <= i < |live| && Cites(live[i], q) {
      if i < |front| { assert live[i] == front[i]; }
    }
    if !Named(front, q) {
      forall k | 0 <= k < |front|
        ensures !Cites(live[k], q)
      {
        assert live[k] == front[k];
      }
    }
  }

  lemma OpenedStays(opens: seq<Interval>, boot: string, live: seq<Entry>, at: Time, iv: Interval)
    requires live != [] && OpenedBy(opens, boot, live[..|live| - 1], at, iv)
    ensures OpenedBy(opens, boot, live, at, iv)
  {
    hide NoneUnder;
    var front := live[..|live| - 1];
    var i :| FirstNaming(front, iv.startSeq, i) && iv.session == front[i].session && iv.startedAt == front[i].startedAt;
    FirstStays(live, iv.startSeq, i);
    assert live[i] == front[i];
  }

  lemma MarkNext(iv: Interval, boot: string, live: seq<Entry>, at: Time)
    requires live != []
    ensures Marked(iv, boot, live, at)
         == var before := Marked(iv, boot, live[..|live| - 1], at);
            if iv.boot == boot && Cites(live[|live| - 1], iv.startSeq) then before.(lastListed := Some(at)) else before
  {
    hide Named;
    NamedNext(live, iv.startSeq);
  }

  /** The entry finds its number open. */
  lemma TakeMarks(opens: seq<Interval>, boot: string, live: seq<Entry>, at: Time, listed: seq<Interval>, q: int)
    requires live != [] && Taken(opens, boot, live[..|live| - 1], at, listed) && Keyed(listed)
    requires Cites(live[|live| - 1], q) && Find(listed, boot, q) >= 0
    ensures var i := Find(listed, boot, q);
      Taken(opens, boot, live, at, listed[i := listed[i].(lastListed := Some(at))])
  {
    hide Find, Named, Marked, OpenedBy, Cites;
    var front, i := live[..|live| - 1], Find(listed, boot, q);
    var more := listed[i := listed[i].(lastListed := Some(at))];
    forall k | 0 <= k < |listed| && k != i
      ensures !Under(listed[k], boot, q)
    {
    }
    forall k | 0 <= k < |opens|
      ensures more[k] == Marked(opens[k], boot, live, at)
    {
      MarkNext(opens[k], boot, live, at);
      MarkKeepsKey(opens[k], boot, front, at);
      CitesOnly(live[|live| - 1], q, opens[k].startSeq);
    }
    forall k | |opens| <= k < |more|
      ensures OpenedBy(opens, boot, live, at, more[k])
    {
      AlreadyListed(opens, boot, front, at, listed[k]);
      OpenedStays(opens, boot, live, at, listed[k]);
    }
    forall p | Named(live, p)
      ensures Find(more, boot, p) >= 0
    {
      NamedNext(live, p);
      CitesOnly(live[|live| - 1], q, p);
      FindOverRelisted(listed, i, at, boot, p);
    }
  }

  lemma MarkKeepsKey(iv: Interval, boot: string, live: seq<Entry>, at: Time)
    ensures var r := Marked(iv, boot, live, at);
      r.boot == iv.boot && r.startSeq == iv.startSeq && r.session == iv.session && r.startedAt == iv.startedAt
  {
  }

  lemma CitesOnly(entry: Entry, q: int, p: int)
    requires Cites(entry, q)
    ensures Cites(entry, p) <==> p == q
  {
  }

  lemma AlreadyListed(opens: seq<Interval>, boot: string, live: seq<Entry>, at: Time, iv: Interval)
    requires OpenedBy(opens, boot, live, at, iv)
    ensures iv.(lastListed := Some(at)) == iv
  {
  }

  /** The entry opens its number. */
  lemma TakeOpens(opens: seq<Interval>, boot: string, live: seq<Entry>, at: Time, listed: seq<Interval>, q: int)
    requires live != [] && Taken(opens, boot, live[..|live| - 1], at, listed)
    requires Cites(live[|live| - 1], q) && Find(listed, boot, q) < 0
    ensures var last := live[|live| - 1];
      Taken(opens, boot, live, at, listed + [Interval(boot, last.session, q, last.startedAt, Some(at))])
  {
    hide Find, Named, Marked, OpenedBy, Cites;
    var front, last := live[..|live| - 1], live[|live| - 1];
    var own := Interval(boot, last.session, q, last.startedAt, Some(at));
    forall k | 0 <= k < |opens|
      ensures listed[k] == Marked(opens[k], boot, live, at) && !Under(opens[k], boot, q)
    {
      MarkNext(opens[k], boot, live, at);
      MarkKeepsKey(opens[k], boot, front, at);
      CitesOnly(last, q, opens[k].startSeq);
      assert !IsAt(listed, k, boot, q);
    }
    NamedNext(live, q);
    NowOpened(opens, boot, live, at, own);
    forall k | |opens| <= k < |listed|
      ensures OpenedBy(opens, boot, live, at, listed[k])
    {
      OpenedStays(opens, boot, live, at, listed[k]);
    }
    forall p | Named(live, p)
      ensures Find(listed + [own], boot, p) >= 0
    {
      NamedNext(live, p);
      CitesOnly(last, q, p);
      FindBehind(listed, own, boot, p);
    }
  }

  lemma NowOpened(opens: seq<Interval>, boot: string, live: seq<Entry>, at: Time, iv: Interval)
    requires iv.boot == boot && iv.lastListed == Some(at) && NoneUnder(opens, boot, iv.startSeq)
    requires FirstNaming(live, iv.startSeq, |live| - 1)
    requires iv.session == live[|live| - 1].session && iv.startedAt == live[|live| - 1].startedAt
    ensures OpenedBy(opens, boot, live, at, iv)
  {
  }

  lemma FindBehind(opens: seq<Interval>, iv: Interval, boot: string, q: int)
    ensures Find(opens + [iv], boot, q) == if Under(iv, boot, q) then |opens| else Find(opens, boot, q)
  {
    assert (opens + [iv])[..|opens|] == opens;
  }

  lemma TakeNothing(opens: seq<Interval>, boot: string, live: seq<Entry>, at: Time, listed: seq<Interval>)
    requires live != [] && Taken(opens, boot, live[..|live| - 1], at, listed)
    requires live[|live| - 1].session.None? || live[|live| - 1].startSeq.None?
    ensures Taken(opens, boot, live, at, listed)
  {
    hide Find, Named, Marked, OpenedBy;
    forall k | 0 <= k < |opens|
      ensures listed[k] == Marked(opens[k], boot, live, at)
    {
      MarkNext(opens[k], boot, live, at);
    }
    forall k | |opens| <= k < |listed|
      ensures OpenedBy(opens, boot, live, at, listed[k])
    {
      OpenedStays(opens, boot, live, at, listed[k]);
    }
    forall p | Named(live, p)
      ensures Find(listed, boot, p) >= 0
    {
      NamedNext(live, p);
    }
  }

  lemma {:induction false} AllTaken(opens: seq<Interval>, boot: string, live: seq<Entry>, at: Time)
    requires Keyed(opens)
    ensures Taken(opens, boot, live, at, ListAll(opens, boot, live, at))
  {
    hide Taken, Find, Keyed;
    if live == [] {
      NothingTaken(opens, boot, at);
    } else {
      var front, last := live[..|live| - 1], live[|live| - 1];
      var listed := ListAll(opens, boot, front, at);
      AllTaken(opens, boot, front, at);
      ListAllKeepsKeys(opens, boot, front, at);
      if last.session.None? || last.startSeq.None? {
        TakeNothing(opens, boot, live, at, listed);
      } else if Find(listed, boot, last.startSeq.value) >= 0 {
        TakeMarks(opens, boot, live, at, listed, last.startSeq.value);
      } else {
        TakeOpens(opens, boot, live, at, listed, last.startSeq.value);
      }
    }
  }

  lemma NothingTaken(opens: seq<Interval>, boot: string, at: Time)
    ensures Taken(opens, boot, [], at, opens)
  {
  }

  // ---------------------------------------------------------------- what a heartbeat leaves

  /** The record of an interval its boot stopped listing: it ends when the boot last listed its number. */
  ghost predicate LostAs(iv: Interval, boot: string, live: seq<Entry>, at: Time, r: Record) {
    r == Record(boot, iv.session, iv.startSeq, iv.startedAt,
                if Named(live, iv.startSeq) || iv.lastListed.None? then at else iv.lastListed.value, "lost", None)
  }

  lemma {:induction false} LostMembers(opens: seq<Interval>, boot: string, live: seq<Entry>, at: Time)
    ensures forall r :: r in LostRecords(opens, boot, live, at) <==>
      exists iv :: iv in opens && Lost(iv, boot, live)
                   && r == Close(iv, if iv.lastListed.Some? then iv.lastListed.value else at, "lost", None)
  {
    hide Lost;
    if opens != [] {
      var front, last := opens[..|opens| - 1], opens[|opens| - 1];
      LostMembers(front, boot, live, at);
      var rs := LostRecords(front, boot, live, at);
      forall r
        ensures r in LostRecords(opens, boot, live, at) <==>
          exists iv :: iv in opens && Lost(iv, boot, live)
                       && r == Close(iv, if iv.lastListed.Some? then iv.lastListed.value else at, "lost", None)
      {
        if r in rs {
          var iv :| iv in front && Lost(iv, boot, live)
                    && r == Close(iv, if iv.lastListed.Some? then iv.lastListed.value else at, "lost", None);
          assert iv in opens;
        } else if r in LostRecords(opens, boot, live, at) {
          assert last in opens;
        }
        if iv :| iv in opens && Lost(iv, boot, live)
                 && r == Close(iv, if iv.lastListed.Some? then iv.lastListed.value else at, "lost", None) {
          if iv != last { assert iv in front; }
        }
      }
    }
  }

  ghost predicate OncePerNumber(rs: seq<Record>) {
    forall i, j :: 0 <= i < j < |rs| ==> rs[i].startSeq != rs[j].startSeq
  }

  lemma {:induction false} LostOnce(opens: seq<Interval>, boot: string, live: seq<Entry>, at: Time)
    requires Keyed(opens)
    ensures OncePerNumber(LostRecords(opens, boot, live, at))
  {
    hide Lost;
    if opens != [] {
      var front, last := opens[..|opens| - 1], opens[|opens| - 1];
      LostOnce(front, boot, live, at);
      LostMembers(front, boot, live, at);
      var rs := LostRecords(front, boot, live, at);
      if Lost(last, boot, live) {
        LostIsOfBoot(last, boot, live);
        forall i | 0 <= i < |rs|
          ensures rs[i].startSeq != last.startSeq
        {
          assert rs[i] in rs;
          var iv :| iv in front && Lost(iv, boot, live)
                    && rs[i] == Close(iv, if iv.lastListed.Some? then iv.lastListed.value else at, "lost", None);
          LostIsOfBoot(iv, boot, live);
        }
      }
    }
  }

  lemma LostIsOfBoot(iv: Interval, boot: string, live: seq<Entry>)
    requires Lost(iv, boot, live)
    ensures iv.boot == boot
  {
  }

  /** What a heartbeat leaves open of a boot: what it listed of the open intervals, and what its entries opened. */
  ghost predicate StillOpen(opens: seq<Interval>, boot: string, live: seq<Entry>, at: Time, iv: Interval) {
    || (exists was :: was in opens && !Lost(was, boot, live) && iv == Marked(was, boot, live, at))
    || OpenedBy(opens, boot, live, at, iv)
  }

  ghost predicate LostFrom(opens: seq<Interval>, boot: string, live: seq<Entry>, at: Time, r: Record) {
    exists iv :: iv in opens && Lost(iv, boot, live) && LostAs(iv, boot, live, at, r)
  }

  lemma OpenedIsListed(opens: seq<Interval>, boot: string, live: seq<Entry>, at: Time, iv: Interval)
    requires OpenedBy(opens, boot, live, at, iv)
    ensures !Lost(iv, boot, live)
  {
    var i :| FirstNaming(live, iv.startSeq, i) && iv.session == live[i].session && iv.startedAt == live[i].startedAt;
    assert live[i].session == iv.session && live[i].startSeq == Some(iv.startSeq);
  }

  lemma MarkedIsAlikeLost(iv: Interval, boot: string, live: seq<Entry>, at: Time)
    ensures Lost(Marked(iv, boot, live, at), boot, live) <==> Lost(iv, boot, live)
  {
    hide Named, Listed;
  }

  /** An entry that opens an interval opens just one. */
  lemma OpenedIsTaken(opens: seq<Interval>, boot: string, live: seq<Entry>, at: Time, listed: seq<Interval>,
                      iv: Interval)
    requires Taken(opens, boot, live, at, listed) && OpenedBy(opens, boot, live, at, iv)
    ensures iv in listed
  {
    hide Find, Marked;
    var q := iv.startSeq;
    var i :| FirstNaming(live, q, i) && iv.session == live[i].session && iv.startedAt == live[i].startedAt;
    assert Named(live, q);
    var k := Find(listed, boot, q);
    assert forall m :: 0 <= m < |opens| ==> !Under(opens[m], boot, q);
    if k < |opens| {
      MarkKeepsKey(opens[k], boot, live, at);
      assert false;
    } else {
      var own := listed[k];
      assert OpenedBy(opens, boot, live, at, own);
      var j :| FirstNaming(live, q, j) && own.session == live[j].session && own.startedAt == live[j].startedAt;
      assert i == j;
    }
  }

  lemma OpenAfterListing(opens: seq<Interval>, boot: string, live: seq<Entry>, at: Time, iv: Interval)
    requires Keyed(opens)
    ensures iv in Kept(ListAll(opens, boot, live, at), boot, live) <==> StillOpen(opens, boot, live, at, iv)
  {
    hide Find, Marked, OpenedBy, Lost, ListAll;
    var listed := ListAll(opens, boot, live, at);
    AllTaken(opens, boot, live, at);
    KeptIsTheRest(listed, boot, live);
    if iv in listed && !Lost(iv, boot, live) {
      var k :| 0 <= k < |listed| && listed[k] == iv;
      if k < |opens| {
        MarkedIsAlikeLost(opens[k], boot, live, at);
        assert opens[k] in opens;
      }
    }
    if was :| was in opens && !Lost(was, boot, live) && iv == Marked(was, boot, live, at) {
      MarkedIsAlikeLost(was, boot, live, at);
      var k :| 0 <= k < |opens| && opens[k] == was;
      assert listed[k] == iv;
    }
    if OpenedBy(opens, boot, live, at, iv) {
      OpenedIsTaken(opens, boot, live, at, listed, iv);
      OpenedIsListed(opens, boot, live, at, iv);
    }
  }

  lemma LostAfterListing(opens: seq<Interval>, boot: string, live: seq<Entry>, at: Time, r: Record)
    requires Keyed(opens)
    ensures r in LostRecords(ListAll(opens, boot, live, at), boot, live, at) <==> LostFrom(opens, boot, live, at, r)
  {
    hide Find, OpenedBy, Lost, ListAll;
    var listed := ListAll(opens, boot, live, at);
    AllTaken(opens, boot, live, at);
    LostMembers(listed, boot, live, at);
    if r in LostRecords(listed, boot, live, at) {
      var iv :| iv in listed && Lost(iv, boot, live)
                && r == Close(iv, if iv.lastListed.Some? then iv.lastListed.value else at, "lost", None);
      var k :| 0 <= k < |listed| && listed[k] == iv;
      if k < |opens| {
        MarkedIsAlikeLost(opens[k], boot, live, at);
        LostIsOfBoot(opens[k], boot, live);
        assert LostAs(opens[k], boot, live, at, r);
      } else {
        OpenedIsListed(opens, boot, live, at, iv);
      }
    }
    if iv :| iv in opens && Lost(iv, boot, live) && LostAs(iv, boot, live, at, r) {
      MarkedIsAlikeLost(iv, boot, live, at);
      LostIsOfBoot(iv, boot, live);
      var k :| 0 <= k < |opens| && opens[k] == iv;
      assert listed[k] in listed;
    }
  }

  /**
   A heartbeat leaves exactly the intervals it lists, marked with its moment, and opens those it lists for
   the first time. Each other interval of the boot ends in one record.
   */
  lemma HeartbeatSettles(b: Books, boot: string, e: Event)
    requires Keyed(b.opens) && e.kind.Beat? && e.at.Some?
    ensures var after, live, at := Step(b, boot, e), e.kind.live, e.at.value;
      && (forall iv :: iv in after.opens <==> StillOpen(b.opens, boot, live, at, iv))
      && |b.closed| <= |after.closed| && after.closed[..|b.closed|] == b.closed
      && (forall r :: r in after.closed[|b.closed|..] <==> LostFrom(b.opens, boot, live, at, r))
      && OncePerNumber(after.closed[|b.closed|..])
  {
    hide Find, ListAll, Kept, LostRecords, StillOpen, LostFrom, OncePerNumber, PutGap;
    var live, at := e.kind.live, e.at.value;
    var listed := ListAll(b.opens, boot, live, at);
    forall iv
      ensures iv in Kept(listed, boot, live) <==> StillOpen(b.opens, boot, live, at, iv)
    {
      OpenAfterListing(b.opens, boot, live, at, iv);
    }
    forall r
      ensures r in LostRecords(listed, boot, live, at) <==> LostFrom(b.opens, boot, live, at, r)
    {
      LostAfterListing(b.opens, boot, live, at, r);
    }
    ListAllKeepsKeys(b.opens, boot, live, at);
    LostOnce(listed, boot, live, at);
    assert Step(b, boot, e).closed[|b.closed|..] == LostRecords(listed, boot, live, at);
  }
}
