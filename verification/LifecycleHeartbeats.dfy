/** What one heartbeat does to the open intervals, whatever was lost before it. */
module LifecycleHeartbeats {
  import opened Common
  import opened LifecycleLog

  /** `opens` is a dictionary: one interval per boot and start number. */
  ghost predicate Keyed(opens: seq<Interval>) {
    forall i, j :: 0 <= i < j < |opens| ==> opens[i].boot != opens[j].boot || opens[i].startSeq != opens[j].startSeq
  }

  lemma PutKeepsKeys(opens: seq<Interval>, iv: Interval)
    requires Keyed(opens)
    ensures Keyed(Put(opens, iv))
  {
    var i := Find(opens, iv.boot, iv.startSeq);
    forall k | 0 <= k < |opens| && i < 0
      ensures opens[k].boot != iv.boot || opens[k].startSeq != iv.startSeq
    {
      assert !IsAt(opens, k, iv.boot, iv.startSeq);
    }
  }

  lemma ListOneKeepsKeys(opens: seq<Interval>, boot: string, entry: Entry, at: Time)
    requires Keyed(opens)
    ensures Keyed(ListOne(opens, boot, entry, at))
  {
    if entry.session.Some? && entry.startSeq.Some? {
      var i := Find(opens, boot, entry.startSeq.value);
      forall k | 0 <= k < |opens| && i < 0
        ensures opens[k].boot != boot || opens[k].startSeq != entry.startSeq.value
      {
        assert !IsAt(opens, k, boot, entry.startSeq.value);
      }
    }
  }

  lemma {:induction false} ListAllKeepsKeys(opens: seq<Interval>, boot: string, live: seq<Entry>, at: Time)
    requires Keyed(opens)
    ensures Keyed(ListAll(opens, boot, live, at))
  {
    if live != [] {
      ListAllKeepsKeys(opens, boot, live[..|live| - 1], at);
      ListOneKeepsKeys(ListAll(opens, boot, live[..|live| - 1], at), boot, live[|live| - 1], at);
    }
  }

  /** `Kept` drops the lost intervals and nothing else, and keeps the order. */
  lemma {:induction false} KeptIsTheRest(opens: seq<Interval>, boot: string, live: seq<Entry>)
    ensures forall iv :: iv in Kept(opens, boot, live) <==> iv in opens && !Lost(iv, boot, live)
    ensures Keyed(opens) ==> Keyed(Kept(opens, boot, live))
  {
    hide Lost;
    if opens != [] {
      var front, last := opens[..|opens| - 1], opens[|opens| - 1];
      KeptIsTheRest(front, boot, live);
      assert forall iv :: iv in opens <==> iv in front || iv == last;
      if Keyed(opens) {
        forall iv | iv in Kept(front, boot, live)
          ensures iv.boot != last.boot || iv.startSeq != last.startSeq
        {
          assert iv in front;
        }
      }
    }
  }

  lemma StepKeepsKeys(b: Books, boot: string, e: Event)
    requires Keyed(b.opens)
    ensures Keyed(Step(b, boot, e).opens)
  {
    hide Find, Kept, ListAll, Lost, LostRecords;
    match e.kind
    case LiveStart(session) => PutKeepsKeys(b.opens, Interval(boot, session, e.seqno, e.at, None));
    case Beat(_, live) =>
      if e.at.Some? {
        ListAllKeepsKeys(b.opens, boot, live, e.at.value);
        KeptIsTheRest(ListAll(b.opens, boot, live, e.at.value), boot, live);
      }
    case _ =>
  }

  // ---------------------------------------------------------------- who holds a start number

  ghost predicate Opens(opens: seq<Interval>, boot: string, session: Option<string>, q: int) {
    exists i :: IsAt(opens, i, boot, q) && opens[i].session == session
  }

  /** The first session a heartbeat lists under this number. */
  function FirstListed(live: seq<Entry>, q: int): Option<string> {
    if live == [] then None
    else
      var before, last := FirstListed(live[..|live| - 1], q), live[|live| - 1];
      if before.None? && last.startSeq == Some(q) then last.session else before
  }

  /** The session holding the number: the one already open under it, else the first listed. */
  function Holder(opens: seq<Interval>, boot: string, live: seq<Entry>, q: int): Option<string> {
    var i := Find(opens, boot, q);
    if i >= 0 then opens[i].session else FirstListed(live, q)
  }

  /** After the entries are taken in, exactly the holder of each listed number is open. */
  lemma {:induction false} ListingOpensTheHolders(opens: seq<Interval>, boot: string, live: seq<Entry>, at: Time,
                                                  q: int)
    ensures var i, listed := Find(opens, boot, q), ListAll(opens, boot, live, at);
      && (i >= 0 ==> Find(listed, boot, q) == i && listed[i].session == opens[i].session)
      && (i < 0 ==> (Find(listed, boot, q) >= 0 <==> FirstListed(live, q).Some?)
                    && (Find(listed, boot, q) >= 0 ==> listed[Find(listed, boot, q)].session == FirstListed(live, q)))
  {
    if live != [] {
      var front, last := live[..|live| - 1], live[|live| - 1];
      ListingOpensTheHolders(opens, boot, front, at, q);
      FindAfterListOne(ListAll(opens, boot, front, at), boot, last, at, q);
    }
  }

  lemma FindAfterListOne(opens: seq<Interval>, boot: string, entry: Entry, at: Time, q: int)
    ensures var i, after := Find(opens, boot, q), ListOne(opens, boot, entry, at);
      if i >= 0 then Find(after, boot, q) == i && after[i].session == opens[i].session
      else if entry.session.Some? && entry.startSeq == Some(q)
        then Find(after, boot, q) == |opens| && after[|opens|].session == entry.session
        else Find(after, boot, q) < 0
  {
    var after := ListOne(opens, boot, entry, at);
    if entry.session.Some? && entry.startSeq.Some? {
      var k := Find(opens, boot, entry.startSeq.value);
      if k >= 0 {
        FindOverRelisted(opens, k, at, boot, q);
      } else {
        assert after[..|opens|] == opens;
      }
    }
  }

  lemma {:induction false} FindOverRelisted(opens: seq<Interval>, k: nat, at: Time, boot: string, q: int)
    requires k < |opens|
    ensures Find(opens[k := opens[k].(lastListed := Some(at))], boot, q) == Find(opens, boot, q)
  {
    var n := |opens| - 1;
    var after := opens[k := opens[k].(lastListed := Some(at))];
    if k == n {
      assert after[..n] == opens[..n];
    } else {
      FindOverRelisted(opens[..n], k, at, boot, q);
      assert after[..n] == opens[..n][k := opens[k].(lastListed := Some(at))];
    }
  }

  lemma {:induction false} ListingLeavesOtherBoots(opens: seq<Interval>, boot: string, live: seq<Entry>, at: Time,
                                                   other: string)
    requires other != boot
    ensures forall iv: Interval :: iv.boot == other ==> (iv in ListAll(opens, boot, live, at) <==> iv in opens)
  {
    if live != [] {
      var front, last := live[..|live| - 1], live[|live| - 1];
      ListingLeavesOtherBoots(opens, boot, front, at, other);
      var before, after := ListAll(opens, boot, front, at), ListAll(opens, boot, live, at);
      if last.session.Some? && last.startSeq.Some? && Find(before, boot, last.startSeq.value) >= 0 {
        var k := Find(before, boot, last.startSeq.value);
        UpdateElsewhere(before, k, before[k].(lastListed := Some(at)), other);
      }
    }
  }

  lemma UpdateElsewhere(opens: seq<Interval>, k: nat, iv: Interval, other: string)
    requires k < |opens| && opens[k].boot != other && iv.boot != other
    ensures forall x: Interval :: x.boot == other ==> (x in opens[k := iv] <==> x in opens)
  {
    forall x: Interval | x.boot == other && x in opens
      ensures x in opens[k := iv]
    {
      var i :| 0 <= i < |opens| && opens[i] == x;
      assert opens[k := iv][i] == x;
    }
  }

  /**
   After a heartbeat the boot's open intervals are among those it lists, and a listed session is open
   exactly when it holds its number: no other session was open under it or listed before it. The other
   boots are left alone.
   */
  lemma HeartbeatLeavesTheListed(b: Books, boot: string, e: Event)
    requires e.kind.Beat? && e.at.Some? && Keyed(b.opens)
    ensures var after := Step(b, boot, e).opens;
      && (forall iv :: iv in after && iv.boot == boot ==> Listed(e.kind.live, iv.session, iv.startSeq))
      && (forall session, q :: Listed(e.kind.live, session, q) ==>
           (Opens(after, boot, session, q) <==> Holder(b.opens, boot, e.kind.live, q) == session))
      && (forall iv: Interval :: iv.boot != boot ==> (iv in after <==> iv in b.opens))
  {
    hide Find, ListAll, Kept, FirstListed, LostRecords, Listed;
    var live, at := e.kind.live, e.at.value;
    var listed := ListAll(b.opens, boot, live, at);
    KeptIsTheRest(listed, boot, live);
    forall session, q | Listed(live, session, q)
      ensures Opens(Kept(listed, boot, live), boot, session, q) <==> Holder(b.opens, boot, live, q) == session
    {
      ListedHolderIsOpen(b.opens, boot, live, at, session, q);
    }
    forall iv: Interval | iv.boot != boot
      ensures iv in listed <==> iv in b.opens
    {
      ListingLeavesOtherBoots(b.opens, boot, live, at, iv.boot);
    }
  }

  lemma ListedHolderIsOpen(opens: seq<Interval>, boot: string, live: seq<Entry>, at: Time, session: Option<string>,
                           q: int)
    requires Keyed(opens) && Listed(live, session, q)
    ensures Opens(Kept(ListAll(opens, boot, live, at), boot, live), boot, session, q)
            <==> Holder(opens, boot, live, q) == session
  {
    hide Find, ListAll, Kept, FirstListed, Listed;
    var listed := ListAll(opens, boot, live, at);
    var kept := Kept(listed, boot, live);
    KeptIsTheRest(listed, boot, live);
    ListAllKeepsKeys(opens, boot, live, at);
    ListingOpensTheHolders(opens, boot, live, at, q);
    ListedIsFound(live, session, q);
    var i := Find(listed, boot, q);
    if Opens(kept, boot, session, q) {
      var k :| IsAt(kept, k, boot, q) && kept[k].session == session;
      assert kept[k] in listed;
      var m :| 0 <= m < |listed| && listed[m] == kept[k];
      assert IsAt(listed, m, boot, q);
      assert IsAt(listed, i, boot, q);
    }
    if Holder(opens, boot, live, q) == session {
      assert listed[i] in kept;
      var k :| 0 <= k < |kept| && kept[k] == listed[i];
      assert IsAt(kept, k, boot, q);
    }
  }

  lemma {:induction false} ListedIsFound(live: seq<Entry>, session: Option<string>, q: int)
    requires Listed(live, session, q)
    ensures FirstListed(live, q).Some?
  {
    var i :| 0 <= i < |live| && live[i].session == session && live[i].startSeq == Some(q);
    var front := live[..|live| - 1];
    if i < |front| {
      assert front[i].session == session && front[i].startSeq == Some(q);
      ListedIsFound(front, session, q);
    }
  }
}
