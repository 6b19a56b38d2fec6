/** What `reconcile` guarantees, whatever was lost, repeated or reordered on the way. */
module LifecycleLaws {
  import opened Common
  import opened LifecycleLog

  // ---------------------------------------------------------------- order and repetition do not matter

  ghost predicate SameEvents(xs: seq<Event>, ys: seq<Event>) {
    forall e :: e in xs <==> e in ys
  }

  /** Every event has an id of its own, and within a boot a sequence number of its own. */
  ghost predicate Identified(xs: seq<Event>) {
    && (forall e :: e in xs ==> e.id.Some?)
    && (forall e, f :: e in xs && f in xs && e.id == f.id ==> e == f)
    && (forall e, f :: e in xs && f in xs && e.boot == f.boot && e.seqno == f.seqno ==> e == f)
  }

  predicate StrictlyAscending(rows: seq<Event>) {
    forall i, j :: 0 <= i < j < |rows| ==> rows[i].seqno < rows[j].seqno
  }

  lemma {:induction false} DedupeKeepsEvents(xs: seq<Event>)
    requires Identified(xs)
    ensures SameEvents(Dedupe(xs), xs)
    ensures forall i, j :: 0 <= i < j < |Dedupe(xs)| ==> Dedupe(xs)[i] != Dedupe(xs)[j]
  {
    if xs != [] {
      var front, last := xs[..|xs| - 1], xs[|xs| - 1];
      assert forall e :: e in xs <==> e in front || e == last;
      DedupeKeepsEvents(front);
      if Heard(front, last.id.value) {
        var i :| 0 <= i < |front| && front[i].id == last.id;
        assert front[i] in xs && front[i] == last;
      } else {
        assert last !in front;
      }
    }
  }

  lemma {:induction false} OfBootKeepsEvents(xs: seq<Event>, boot: string)
    requires forall i, j :: 0 <= i < j < |xs| ==> xs[i] != xs[j]
    ensures forall e :: e in OfBoot(xs, boot) <==> e in xs && e.boot == Some(boot)
    ensures forall i, j :: 0 <= i < j < |OfBoot(xs, boot)| ==> OfBoot(xs, boot)[i] != OfBoot(xs, boot)[j]
  {
    if xs != [] {
      var front, last := xs[..|xs| - 1], xs[|xs| - 1];
      OfBootKeepsEvents(front, boot);
      assert forall e :: e in xs <==> e in front || e == last;
      assert last !in front;
    }
  }

  lemma {:induction false} InsertKeepsOrder(rows: seq<Event>, e: Event)
    requires StrictlyAscending(rows) && forall r :: r in rows ==> r.seqno != e.seqno
    ensures StrictlyAscending(Insert(rows, e))
    ensures forall f :: f in Insert(rows, e) <==> f in rows || f == e
  {
    if rows != [] && rows[|rows| - 1].seqno > e.seqno {
      var front, last := rows[..|rows| - 1], rows[|rows| - 1];
      InsertKeepsOrder(front, e);
      var r := Insert(front, e);
      forall f | f in r
        ensures f.seqno < last.seqno
      {
        assert f in front || f == e;
      }
      forall i, j | 0 <= i < j < |r + [last]|
        ensures (r + [last])[i].seqno < (r + [last])[j].seqno
      {
        if j == |r| { assert r[i] in r; }
      }
    }
  }

  lemma {:induction false} SortIsSorted(xs: seq<Event>)
    requires forall i, j :: 0 <= i < j < |xs| ==> xs[i].seqno != xs[j].seqno
    ensures StrictlyAscending(SortBySeq(xs))
    ensures SameEvents(SortBySeq(xs), xs)
  {
    if xs != [] {
      var front, last := xs[..|xs| - 1], xs[|xs| - 1];
      SortIsSorted(front);
      forall r | r in SortBySeq(front)
        ensures r.seqno != last.seqno
      {
        assert r in front;
        var i :| 0 <= i < |front| && front[i] == r;
        assert xs[i].seqno != xs[|xs| - 1].seqno;
      }
      InsertKeepsOrder(SortBySeq(front), last);
      assert forall e :: e in xs <==> e in front || e == last;
    }
  }

  lemma {:induction false} SortedIsUnique(xs: seq<Event>, ys: seq<Event>)
    requires StrictlyAscending(xs) && StrictlyAscending(ys) && SameEvents(xs, ys)
    ensures xs == ys
  {
    assert ys == [] || ys[0] in xs;
    if xs != [] {
      assert xs[|xs| - 1] in ys;
      assert ys[|ys| - 1] in xs;
      var x, y := xs[|xs| - 1], ys[|ys| - 1];
      assert x.seqno == y.seqno;
      assert x == y;
      var xf, yf := xs[..|xs| - 1], ys[..|ys| - 1];
      forall e
        ensures e in xf <==> e in yf
      {
        if e in xf { assert e in ys; }
        if e in yf { assert e in xs; }
      }
      SortedIsUnique(xf, yf);
    }
  }

  /** The rows a boot is folded over. */
  function RowsOf(events: seq<Event>, boot: string): seq<Event> {
    SortBySeq(OfBoot(Dedupe(events), boot))
  }

  lemma RowsAreTheBootInOrder(xs: seq<Event>, boot: string)
    requires Identified(xs)
    ensures StrictlyAscending(RowsOf(xs, boot))
    ensures forall e :: e in RowsOf(xs, boot) <==> e in xs && e.boot == Some(boot)
  {
    DedupeKeepsEvents(xs);
    var d := Dedupe(xs);
    OfBootKeepsEvents(d, boot);
    var mine := OfBoot(d, boot);
    forall i, j | 0 <= i < j < |mine|
      ensures mine[i].seqno != mine[j].seqno
    {
      assert mine[i] in mine && mine[j] in mine;
    }
    SortIsSorted(mine);
  }

  /** Any shuffle and any duplication of a log is folded over the same rows. */
  lemma ShufflesFoldAlike(xs: seq<Event>, ys: seq<Event>, boot: string)
    requires Identified(xs) && SameEvents(xs, ys)
    ensures RowsOf(xs, boot) == RowsOf(ys, boot)
  {
    RowsAreTheBootInOrder(xs, boot);
    RowsAreTheBootInOrder(ys, boot);
    SortedIsUnique(RowsOf(xs, boot), RowsOf(ys, boot));
  }

  lemma {:induction false} ShufflesFoldBootsAlike(xs: seq<Event>, ys: seq<Event>, b: Books, boots: seq<string>)
    requires Identified(xs) && SameEvents(xs, ys)
    ensures FoldBoots(b, Dedupe(xs), boots) == FoldBoots(b, Dedupe(ys), boots)
  {
    hide Fold, SortBySeq, OfBoot, Dedupe, Identified, SameEvents;
    if boots != [] {
      ShufflesFoldBootsAlike(xs, ys, b, boots[..|boots| - 1]);
      ShufflesFoldAlike(xs, ys, boots[|boots| - 1]);
    }
  }

  /** So shuffles and duplications that leave the boots in their first-seen order reconcile to the same books. */
  lemma ShufflesReconcileAlike(xs: seq<Event>, ys: seq<Event>, now: Time, grace: Time)
    requires Identified(xs) && SameEvents(xs, ys) && Boots(Dedupe(xs)) == Boots(Dedupe(ys))
    ensures Reconciled(xs, now, grace) == Reconciled(ys, now, grace)
  {
    hide Identified, SameEvents, Dedupe, Boots, FoldBoots, Supersede, Expire;
    ShufflesFoldBootsAlike(xs, ys, EMPTY, Boots(Dedupe(xs)));
  }

  /** One boot whose whole log is the start of one session. */
  function OneStart(boot: string, worker: string, at: Time): Event {
    Event(Some(boot), Some(boot), 1, Some(at), Some(worker), None, LiveStart(Some("s")))
  }

  function StartedBy(boot: string, at: Time): Interval {
    Interval(boot, Some("s"), 1, Some(at), None)
  }

  lemma FoldOfOneStart(b: Books, boot: string, worker: string, at: Time)
    requires Find(b.opens, boot, 1) == -1 && boot !in b.identity
    ensures var e := OneStart(boot, worker, at);
      Fold(b, boot, SortBySeq([e])) == b.(
        opens := b.opens + [StartedBy(boot, at)],
        lastEvent := b.lastEvent[boot := at],
        identity := b.identity[boot := Identity(Some(worker), None)])
  {
    var e := OneStart(boot, worker, at);
    var none: seq<Event> := [];
    assert [e][..0] == none;
    assert SortBySeq([e]) == [e];
  }

  /** Two boots of one worker, one event each, in the order given: the first seen is closed, the other stays open. */
  lemma FirstSeenIsReplaced(first: string, second: string, worker: string, at: Time, later: Time, now: Time,
                            grace: Time)
    requires first != second && worker != ""
    ensures var b := Reconciled([OneStart(first, worker, at), OneStart(second, worker, later)], now, grace);
      b.opens == [StartedBy(second, later)] && b.closed == [Close(StartedBy(first, at), at, "worker_lost", None)]
  {
    hide Fold, SortBySeq, Dedupe, Boots, OfBoot, Supersede, Find, FoldBoots;
    var e, f := OneStart(first, worker, at), OneStart(second, worker, later);
    var events := [e, f];
    TwoEvents(e, f);
    var b1 := Fold(EMPTY, first, SortBySeq([e]));
    NothingFound([], first, 1);
    FoldOfOneStart(EMPTY, first, worker, at);
    assert [] + [StartedBy(first, at)] == [StartedBy(first, at)];
    NothingFound(b1.opens, second, 1);
    FoldOfOneStart(b1, second, worker, later);
    var b2 := Fold(b1, second, SortBySeq([f]));
    FoldsOfTwo(events, first, second);
    SupersedeTwo(b2, first, second, worker, at, later);
  }

  lemma NothingFound(opens: seq<Interval>, boot: string, q: int)
    requires forall i :: 0 <= i < |opens| ==> opens[i].boot != boot
    ensures Find(opens, boot, q) == -1
  {
  }

  lemma DedupeGrows(xs: seq<Event>, e: Event)
    requires e.id.Some?
    ensures Dedupe(xs + [e]) == Dedupe(xs) + (if Heard(xs, e.id.value) then [] else [e])
  {
    hide Heard;
    assert (xs + [e])[..|xs|] == xs;
  }

  lemma BootsGrow(xs: seq<Event>, e: Event)
    requires e.boot.Some?
    ensures Boots(xs + [e]) == Boots(xs) + (if e.boot.value in Boots(xs) then [] else [e.boot.value])
  {
    assert (xs + [e])[..|xs|] == xs;
  }

  lemma OfBootGrows(xs: seq<Event>, e: Event, boot: string)
    ensures OfBoot(xs + [e], boot) == OfBoot(xs, boot) + (if e.boot == Some(boot) then [e] else [])
  {
    assert (xs + [e])[..|xs|] == xs;
  }

  lemma Plus<T>(x: T, y: T)
    ensures [] + [x] == [x] && [x] + [y] == [x, y] && [x] + [] == [x]
  {
  }

  lemma TwoEvents(e: Event, f: Event)
    requires e.id.Some? && f.id.Some? && e.id != f.id && e.boot.Some? && f.boot.Some? && e.boot != f.boot
    ensures Dedupe([e, f]) == [e, f] && Boots([e, f]) == [e.boot.value, f.boot.value]
    ensures OfBoot([e, f], e.boot.value) == [e] && OfBoot([e, f], f.boot.value) == [f]
  {
    hide Dedupe, Boots, OfBoot;
    var none: seq<Event> := [];
    NoEvents();
    Plus(e, f);
    Plus(f, e);
    Plus(e.boot.value, f.boot.value);
    DedupeGrows(none, e);
    DedupeGrows([e], f);
    BootsGrow(none, e);
    BootsGrow([e], f);
    OfBootGrows(none, e, e.boot.value);
    OfBootGrows([e], f, e.boot.value);
    OfBootGrows(none, e, f.boot.value);
    OfBootGrows([e], f, f.boot.value);
    assert none + [e] == [e];
  }

  lemma NoEvents()
    ensures Dedupe([]) == [] && Boots([]) == [] && forall boot :: OfBoot([], boot) == []
  {
  }

  lemma FoldsOfTwo(events: seq<Event>, first: string, second: string)
    ensures FoldBoots(EMPTY, events, [first, second])
         == Fold(Fold(EMPTY, first, SortBySeq(OfBoot(events, first))), second, SortBySeq(OfBoot(events, second)))
  {
    hide Fold, SortBySeq, OfBoot;
    var none: seq<string> := [];
    assert [first, second][..1] == [first] && [first][..0] == none;
    assert FoldBoots(EMPTY, events, [first]) == Fold(EMPTY, first, SortBySeq(OfBoot(events, first)));
  }

  lemma SupersedeTwo(b: Books, first: string, second: string, worker: string, at: Time, later: Time)
    requires first != second && worker != ""
    requires b == Books([StartedBy(first, at), StartedBy(second, later)], [], map[],
                        map[first := at, second := later], [],
                        map[first := Identity(Some(worker), None), second := Identity(Some(worker), None)])
    ensures Supersede(b, [first, second])
         == b.(opens := [StartedBy(second, later)], closed := [Close(StartedBy(first, at), at, "worker_lost", None)])
  {
    hide CloseBoot;
    var none: seq<string> := [];
    assert [first, second][..1] == [first] && [first][..0] == none;
    assert SeenAll(b, [first]) == Seen(map[worker := first], map[]);
    assert Replaces(b, SeenAll(b, none), first) == none;
    assert Replaces(b, SeenAll(b, [first]), second) == [first] + [];
    assert CloseEach(b, none) == b && Supersede(b, none) == b && Supersede(b, [first]) == b;
    assert Supersede(b, [first, second]) == CloseBoot(b, first, at);
    CloseFirst(b, StartedBy(first, at), StartedBy(second, later), at);
  }

  lemma OthersGrow(opens: seq<Interval>, iv: Interval, boot: string, at: Time)
    ensures Others(opens + [iv], boot) == Others(opens, boot) + (if iv.boot == boot then [] else [iv])
    ensures BootRecords(opens + [iv], boot, at)
         == BootRecords(opens, boot, at) + (if iv.boot == boot then [Close(iv, at, "worker_lost", None)] else [])
  {
    assert (opens + [iv])[..|opens|] == opens;
  }

  lemma NoOthers(boot: string, at: Time)
    ensures Others([], boot) == [] && BootRecords([], boot, at) == []
  {
  }

  lemma CloseFirst(b: Books, x: Interval, y: Interval, at: Time)
    requires b.opens == [x, y] && x.boot != y.boot && b.closed == []
    ensures CloseBoot(b, x.boot, at) == b.(opens := [y], closed := [Close(x, at, "worker_lost", None)])
  {
    hide Others, BootRecords, Close;
    var none: seq<Interval> := [];
    var r := Close(x, at, "worker_lost", None);
    NoOthers(x.boot, at);
    OthersGrow(none, x, x.boot, at);
    OthersGrow([x], y, x.boot, at);
    Plus(x, y);
    Plus(y, x);
    Plus(r, r);
    assert none + [x] == [x];
  }

  /** Which boot counts as replaced does depend on the order: turned round, the same two events close the other one. */
  lemma ReorderingEndsTheOtherBoot(now: Time, grace: Time)
    ensures var e, f := OneStart("a", "w", 1), OneStart("b", "w", 2);
      && Identified([e, f]) && SameEvents([e, f], [f, e])
      && Reconciled([e, f], now, grace).opens == [StartedBy("b", 2)]
      && Reconciled([f, e], now, grace).opens == [StartedBy("a", 1)]
  {
    hide Reconciled;
    FirstSeenIsReplaced("a", "b", "w", 1, 2, now, grace);
    FirstSeenIsReplaced("b", "a", "w", 2, 1, now, grace);
  }
}
