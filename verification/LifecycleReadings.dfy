/** What the fold reads off the log: its rows, its tables and its steps, stated over the events. */
module LifecycleReadings {
  import opened Common
  import opened LifecycleLog
  import opened LifecycleLaws
  import opened LifecycleHeartbeats

  // ---------------------------------------------------------------- rows and boots

  /** An event counts for a boot when it names the boot and no event before it carries its id. */
  ghost predicate Counts(events: seq<Event>, k: int, boot: string) {
    && 0 <= k < |events| && events[k].boot == Some(boot)
    && (events[k].id.Some? ==> forall j :: 0 <= j < k ==> events[j].id != events[k].id)
  }

  /** The rows are the events at these places of the log. */
  ghost predicate Places(events: seq<Event>, rows: seq<Event>, ks: seq<nat>) {
    |ks| == |rows| && forall i :: 0 <= i < |ks| ==> ks[i] < |events| && rows[i] == events[ks[i]]
  }

  ghost predicate Before(events: seq<Event>, j: nat, k: nat) {
    && j < |events| && k < |events|
    && (events[j].seqno < events[k].seqno || (events[j].seqno == events[k].seqno && j < k))
  }

  ghost predicate InOrder(events: seq<Event>, ks: seq<nat>) {
    forall i, j :: 0 <= i < j < |ks| ==> Before(events, ks[i], ks[j])
  }

  lemma CountsBefore(events: seq<Event>, k: nat, boot: string)
    requires k < |events| - 1
    ensures Counts(events, k, boot) <==> Counts(events[..|events| - 1], k, boot)
  {
  }

  lemma CountsInRange(events: seq<Event>, boot: string)
    ensures forall k :: Counts(events, k, boot) ==> 0 <= k < |events|
  {
  }

  lemma LastCounts(events: seq<Event>, boot: string)
    requires events != []
    ensures var front, last := events[..|events| - 1], events[|events| - 1];
      Counts(events, |events| - 1, boot) <==> last.boot == Some(boot) && !(last.id.Some? && Heard(front, last.id.value))
  {
    var front, last := events[..|events| - 1], events[|events| - 1];
    if last.id.Some? && Heard(front, last.id.value) {
      var i :| 0 <= i < |front| && front[i].id == last.id;
      assert events[i].id == last.id;
    }
    if last.boot == Some(boot) && !Counts(events, |events| - 1, boot) {
      var j :| 0 <= j < |events| - 1 && events[j].id == last.id;
      assert front[j].id == last.id;
    }
  }

  lemma CountedRowsGrow(events: seq<Event>, boot: string)
    requires events != []
    ensures OfBoot(Dedupe(events), boot)
         == OfBoot(Dedupe(events[..|events| - 1]), boot)
            + (if Counts(events, |events| - 1, boot) then [events[|events| - 1]] else [])
  {
    hide Heard, Counts, OfBoot;
    var front, last := events[..|events| - 1], events[|events| - 1];
    LastCounts(events, boot);
    if last.id.Some? && Heard(front, last.id.value) {
      assert Dedupe(events) == Dedupe(front);
    } else {
      OfBootGrows(Dedupe(front), last, boot);
    }
  }

  lemma PlacesGrow(events: seq<Event>, rows: seq<Event>, ks: seq<nat>)
    requires events != [] && Places(events[..|events| - 1], rows, ks)
    ensures Places(events, rows, ks)
    ensures Places(events, rows + [events[|events| - 1]], ks + [|events| - 1])
  {
  }

  lemma CountedGrow(events: seq<Event>, boot: string, ks: seq<nat>)
    requires events != [] && forall k: nat :: k in ks <==> Counts(events[..|events| - 1], k, boot)
    ensures var more := if Counts(events, |events| - 1, boot) then ks + [|events| - 1] else ks;
      forall k: nat :: k in more <==> Counts(events, k, boot)
  {
    hide Counts;
    var n := |events| - 1;
    var more := if Counts(events, n, boot) then ks + [n] else ks;
    CountsInRange(events, boot);
    CountsInRange(events[..n], boot);
    forall k: nat
      ensures k in more <==> Counts(events, k, boot)
    {
      if k < n { CountsBefore(events, k, boot); }
    }
  }

  /** The rows of a boot are the events that count for it, in the order they arrive. */
  lemma {:induction false} CountedEvents(events: seq<Event>, boot: string) returns (ks: seq<nat>)
    ensures Places(events, OfBoot(Dedupe(events), boot), ks)
    ensures forall i, j :: 0 <= i < j < |ks| ==> ks[i] < ks[j]
    ensures forall k: nat :: k in ks <==> Counts(events, k, boot)
  {
    hide Counts, OfBoot, Dedupe;
    CountsInRange(events, boot);
    if events == [] {
      ks := [];
      NoEvents();
    } else {
      var n := |events| - 1;
      var before := CountedEvents(events[..n], boot);
      CountsInRange(events[..n], boot);
      CountedRowsGrow(events, boot);
      PlacesGrow(events, OfBoot(Dedupe(events[..n]), boot), before);
      CountedGrow(events, boot, before);
      ks := if Counts(events, n, boot) then before + [n] else before;
      assert forall i :: 0 <= i < |before| ==> before[i] in before;
    }
  }

  lemma {:induction false} InsertPlaces(events: seq<Event>, rows: seq<Event>, ks: seq<nat>, n: nat)
    returns (more: seq<nat>)
    requires n < |events| && Places(events, rows, ks) && InOrder(events, ks) && forall k :: k in ks ==> k < n
    ensures Places(events, Insert(rows, events[n]), more) && InOrder(events, more)
    ensures forall k :: k in more <==> k in ks || k == n
  {
    hide Before;
    if rows == [] || rows[|rows| - 1].seqno <= events[n].seqno {
      more := ks + [n];
      forall i | 0 <= i < |ks|
        ensures Before(events, ks[i], n)
      {
        assert ks[i] in ks;
        LaterStill(events, ks, i, n);
      }
    } else {
      var m := |rows| - 1;
      assert forall k :: k in ks <==> k in ks[..m] || k == ks[m];
      var inner := InsertPlaces(events, rows[..m], ks[..m], n);
      more := inner + [ks[m]];
      forall i | 0 <= i < |inner|
        ensures Before(events, inner[i], ks[m])
      {
        assert inner[i] in inner;
        if inner[i] == n {
          EarlierNumber(events, n, ks[m]);
        } else {
          var j :| 0 <= j < m && ks[..m][j] == inner[i];
          assert Before(events, ks[j], ks[m]);
        }
      }
    }
  }

  lemma EarlierNumber(events: seq<Event>, j: nat, k: nat)
    requires j < |events| && k < |events| && events[j].seqno < events[k].seqno
    ensures Before(events, j, k)
  {
  }

  lemma LaterStill(events: seq<Event>, ks: seq<nat>, i: nat, n: nat)
    requires n < |events| && InOrder(events, ks) && i < |ks| && ks[i] < n
    requires ks[|ks| - 1] < |events| && events[ks[|ks| - 1]].seqno <= events[n].seqno
    ensures Before(events, ks[i], n)
  {
    if i < |ks| - 1 { assert Before(events, ks[i], ks[|ks| - 1]); }
  }

  lemma {:induction false} SortPlaces(events: seq<Event>, rows: seq<Event>, ks: seq<nat>) returns (sorted: seq<nat>)
    requires Places(events, rows, ks) && forall i, j :: 0 <= i < j < |ks| ==> ks[i] < ks[j]
    ensures Places(events, SortBySeq(rows), sorted) && InOrder(events, sorted)
    ensures forall k :: k in sorted <==> k in ks
  {
    hide Insert, Before;
    if rows == [] {
      sorted := [];
    } else {
      var m := |rows| - 1;
      var front := SortPlaces(events, rows[..m], ks[..m]);
      assert forall k :: k in ks <==> k in ks[..m] || k == ks[m];
      sorted := InsertPlaces(events, SortBySeq(rows[..m]), front, ks[m]);
    }
  }

  /**
   The rows of a boot, whatever was repeated or left without an id: every event that counts for it, once,
   by number and then by arrival.
   */
  lemma RowsAreTheCounted(events: seq<Event>, boot: string) returns (ks: seq<nat>)
    ensures Places(events, RowsOf(events, boot), ks) && InOrder(events, ks)
    ensures forall k: nat :: k in ks <==> Counts(events, k, boot)
  {
    hide SortBySeq, OfBoot, Dedupe, Counts, Before;
    var arrived := CountedEvents(events, boot);
    ks := SortPlaces(events, OfBoot(Dedupe(events), boot), arrived);
  }

  /** Boot `x` counts before boot `y` does. */
  ghost predicate SeenFirst(events: seq<Event>, x: string, y: string) {
    exists k :: Counts(events, k, x) && forall m :: 0 <= m <= k ==> !Counts(events, m, y)
  }

  lemma SeenFirstStays(events: seq<Event>, x: string, y: string)
    requires events != [] && SeenFirst(events[..|events| - 1], x, y)
    ensures SeenFirst(events, x, y)
  {
    hide Counts;
    var front := events[..|events| - 1];
    CountsInRange(front, x);
    var k :| Counts(front, k, x) && forall m :: 0 <= m <= k ==> !Counts(front, m, y);
    CountsBefore(events, k, x);
    forall m | 0 <= m <= k
      ensures !Counts(events, m, y)
    {
      CountsBefore(events, m, y);
    }
  }

  ghost predicate Seen(events: seq<Event>, x: string) {
    exists k :: Counts(events, k, x)
  }

  lemma OldBeforeNew(events: seq<Event>, x: string, y: string)
    requires events != [] && Seen(events[..|events| - 1], x) && !Seen(events[..|events| - 1], y)
    ensures SeenFirst(events, x, y)
  {
    hide Counts;
    var front := events[..|events| - 1];
    CountsInRange(front, x);
    var k :| Counts(front, k, x);
    CountsBefore(events, k, x);
    forall m | 0 <= m <= k
      ensures !Counts(events, m, y)
    {
      CountsBefore(events, m, y);
    }
  }

  lemma SeenNow(events: seq<Event>, x: string)
    requires events != []
    ensures Seen(events, x) <==> Seen(events[..|events| - 1], x) || Counts(events, |events| - 1, x)
  {
    hide Counts;
    var front := events[..|events| - 1];
    CountsInRange(front, x);
    CountsInRange(events, x);
    if k :| Counts(front, k, x) { CountsBefore(events, k, x); }
    if k :| Counts(events, k, x) {
      if k < |front| { CountsBefore(events, k, x); }
    }
  }

  lemma BootsGrowBy(events: seq<Event>)
    requires events != []
    ensures var boots, last := Boots(Dedupe(events[..|events| - 1])), events[|events| - 1];
      Boots(Dedupe(events))
      == if last.boot.Some? && Counts(events, |events| - 1, last.boot.value) && last.boot.value !in boots
         then boots + [last.boot.value] else boots
  {
    hide Heard, Counts;
    var front, last := events[..|events| - 1], events[|events| - 1];
    if last.boot.Some? { LastCounts(events, last.boot.value); }
    if last.id.Some? && Heard(front, last.id.value) {
      assert Dedupe(events) == Dedupe(front);
    } else {
      assert (Dedupe(front) + [last])[..|Dedupe(front)|] == Dedupe(front);
    }
  }

  /** The boots are those an event counts for, each once, by the first such event. */
  lemma {:induction false} BootsAsSeen(events: seq<Event>)
    ensures var boots := Boots(Dedupe(events));
      && (forall x :: x in boots <==> Seen(events, x))
      && (forall i, j :: 0 <= i < j < |boots| ==> SeenFirst(events, boots[i], boots[j]))
  {
    hide Counts, Seen, SeenFirst, Dedupe, Boots;
    if events == [] {
      NoEvents();
      NothingSeen();
    } else {
      var front, last := events[..|events| - 1], events[|events| - 1];
      var boots, more := Boots(Dedupe(front)), Boots(Dedupe(events));
      BootsAsSeen(front);
      BootsGrowBy(events);
      forall x
        ensures x in more <==> Seen(events, x)
      {
        SeenNow(events, x);
        LastNamesItsBoot(events, x);
      }
      forall i, j | 0 <= i < j < |more|
        ensures SeenFirst(events, more[i], more[j])
      {
        assert more[i] in boots;
        if j < |boots| { SeenFirstStays(events, boots[i], boots[j]); } else { OldBeforeNew(events, more[i], more[j]); }
      }
    }
  }

  lemma NothingSeen()
    ensures forall x :: !Seen([], x)
  {
  }

  lemma LastNamesItsBoot(events: seq<Event>, x: string)
    requires events != []
    ensures Counts(events, |events| - 1, x) ==> events[|events| - 1].boot == Some(x)
  {
  }

  // ---------------------------------------------------------------- tables

  /** The value is the one the last row to carry one carries; without such a row it is none. */
  ghost predicate IsLast<T>(rows: seq<Event>, carried: Event -> Option<T>, value: Option<T>) {
    if value.None? then forall i :: 0 <= i < |rows| ==> carried(rows[i]).None?
    else exists i :: 0 <= i < |rows| && carried(rows[i]) == value
                     && forall j :: i < j < |rows| ==> carried(rows[j]).None?
  }

  function LastCarried<T>(rows: seq<Event>, carried: Event -> Option<T>): Option<T> {
    if rows == [] then None
    else if carried(rows[|rows| - 1]).Some? then carried(rows[|rows| - 1])
    else LastCarried(rows[..|rows| - 1], carried)
  }

  lemma {:induction false} LastIsLast<T>(rows: seq<Event>, carried: Event -> Option<T>)
    ensures IsLast(rows, carried, LastCarried(rows, carried))
  {
    if rows != [] && carried(rows[|rows| - 1]).None? {
      var front := rows[..|rows| - 1];
      LastIsLast(front, carried);
      if LastCarried(front, carried).Some? {
        var i :| 0 <= i < |front| && carried(front[i]) == LastCarried(front, carried)
                 && forall j :: i < j < |front| ==> carried(front[j]).None?;
        assert carried(rows[i]) == LastCarried(front, carried);
      }
    }
  }

  function WorkerOf(e: Event): Option<string> { e.worker }

  function InstanceOf(e: Event): Option<string> { e.instance }

  function MomentOf(e: Event): Option<Time> { e.at }

  /** The moment of a heartbeat. */
  function BeatOf(e: Event): Option<Time> {
    if e.kind.Beat? then e.at else None
  }

  /** The interval a dated heartbeat announces. */
  function GapOf(e: Event): Option<Time> {
    if e.kind.Beat? && e.at.Some? then e.kind.interval else None
  }

  function At(table: map<string, Time>, boot: string): Option<Time> {
    if boot in table then Some(table[boot]) else None
  }

  ghost predicate OneGapEach(gaps: seq<(string, Time)>) {
    forall i, j :: 0 <= i < j < |gaps| ==> gaps[i].0 != gaps[j].0
  }

  ghost predicate HasGap(gaps: seq<(string, Time)>, boot: string, gap: Option<Time>) {
    forall t :: (boot, t) in gaps <==> gap == Some(t)
  }

  /** The tables say of the boot what its rows carry last. */
  ghost predicate Tells(b: Books, boot: string, rows: seq<Event>) {
    && IdentityOf(b, boot) == Identity(LastCarried(rows, WorkerOf), LastCarried(rows, InstanceOf))
    && At(b.lastEvent, boot) == LastCarried(rows, MomentOf)
    && At(b.lastBeat, boot) == LastCarried(rows, BeatOf)
    && HasGap(b.intervals, boot, LastCarried(rows, GapOf))
  }

  ghost predicate SameTables(b: Books, after: Books, boot: string) {
    && IdentityOf(after, boot) == IdentityOf(b, boot)
    && At(after.lastEvent, boot) == At(b.lastEvent, boot) && At(after.lastBeat, boot) == At(b.lastBeat, boot)
    && forall t :: (boot, t) in after.intervals <==> (boot, t) in b.intervals
  }

  lemma {:induction false} GapIsPut(gaps: seq<(string, Time)>, boot: string, gap: Time)
    requires OneGapEach(gaps)
    ensures OneGapEach(PutGap(gaps, boot, gap))
    ensures forall p :: p in PutGap(gaps, boot, gap) <==> p == (boot, gap) || (p in gaps && p.0 != boot)
  {
    if gaps != [] {
      assert forall p :: p in gaps <==> p == gaps[0] || p in gaps[1..];
      if gaps[0].0 == boot {
        assert forall p :: p in gaps[1..] ==> p.0 != boot;
      } else {
        GapIsPut(gaps[1..], boot, gap);
        var rest := PutGap(gaps[1..], boot, gap);
        forall j | 0 <= j < |rest|
          ensures rest[j].0 != gaps[0].0
        {
          assert rest[j] in rest;
        }
      }
    }
  }

  lemma Carries<T>(rows: seq<Event>, e: Event, carried: Event -> Option<T>)
    ensures LastCarried(rows + [e], carried) == if carried(e).Some? then carried(e) else LastCarried(rows, carried)
  {
    assert (rows + [e])[..|rows|] == rows;
  }

  lemma SameTablesStill(b: Books, middle: Books, after: Books, boot: string)
    requires SameTables(b, middle, boot) && SameTables(middle, after, boot)
    ensures SameTables(b, after, boot)
  {
  }

  /** What one event writes into the tables. */
  ghost predicate TablesMove(b: Books, after: Books, boot: string, e: Event) {
    && after.lastEvent == (if e.at.Some? then b.lastEvent[boot := e.at.value] else b.lastEvent)
    && after.lastBeat == (if BeatOf(e).Some? then b.lastBeat[boot := e.at.value] else b.lastBeat)
    && after.intervals == (if GapOf(e).Some? then PutGap(b.intervals, boot, GapOf(e).value) else b.intervals)
    && after.identity == b.identity[boot := Identity(
         if e.worker.Some? then e.worker else IdentityOf(b, boot).worker,
         if e.instance.Some? then e.instance else IdentityOf(b, boot).instance)]
  }

  lemma StepMovesTables(b: Books, boot: string, e: Event)
    ensures TablesMove(b, Step(b, boot, e), boot, e)
  {
    hide PutGap, Put, Find, Kept, ListAll, LostRecords, Without, Close;
  }

  lemma MovedTables(b: Books, after: Books, boot: string, e: Event)
    requires OneGapEach(b.intervals) && TablesMove(b, after, boot, e)
    ensures OneGapEach(after.intervals)
    ensures forall other :: other != boot ==> SameTables(b, after, other)
  {
    hide OneGapEach, PutGap;
    if GapOf(e).Some? { GapIsPut(b.intervals, boot, GapOf(e).value); }
  }

  lemma MovedGap(b: Books, after: Books, boot: string, e: Event, gap: Option<Time>)
    requires OneGapEach(b.intervals) && TablesMove(b, after, boot, e) && HasGap(b.intervals, boot, gap)
    ensures HasGap(after.intervals, boot, if GapOf(e).Some? then GapOf(e) else gap)
  {
    hide OneGapEach, PutGap;
    if GapOf(e).Some? { GapIsPut(b.intervals, boot, GapOf(e).value); }
  }

  lemma MovedTells(b: Books, after: Books, boot: string, e: Event, rows: seq<Event>)
    requires OneGapEach(b.intervals) && TablesMove(b, after, boot, e) && Tells(b, boot, rows)
    ensures Tells(after, boot, rows + [e])
  {
    hide LastCarried, OneGapEach, PutGap, HasGap;
    Carries(rows, e, WorkerOf);
    Carries(rows, e, InstanceOf);
    Carries(rows, e, MomentOf);
    Carries(rows, e, BeatOf);
    Carries(rows, e, GapOf);
    MovedGap(b, after, boot, e, LastCarried(rows, GapOf));
  }

  lemma {:induction false} FoldTells(b: Books, boot: string, rows: seq<Event>)
    requires OneGapEach(b.intervals) && Tells(b, boot, [])
    ensures OneGapEach(Fold(b, boot, rows).intervals) && Tells(Fold(b, boot, rows), boot, rows)
    ensures forall other :: other != boot ==> SameTables(b, Fold(b, boot, rows), other)
  {
    hide Step, OneGapEach, Tells, TablesMove, SameTables;
    if rows == [] {
      Unmoved(b);
    } else {
      var n := |rows| - 1;
      var before := Fold(b, boot, rows[..n]);
      FoldTells(b, boot, rows[..n]);
      StepMovesTables(before, boot, rows[n]);
      MovedTables(before, Step(before, boot, rows[n]), boot, rows[n]);
      MovedTells(before, Step(before, boot, rows[n]), boot, rows[n], rows[..n]);
      assert rows[..n] + [rows[n]] == rows;
      forall other | other != boot
        ensures SameTables(b, Fold(b, boot, rows), other)
      {
        SameTablesStill(b, before, Fold(b, boot, rows), other);
      }
    }
  }

  lemma Unmoved(b: Books)
    ensures forall boot :: SameTables(b, b, boot)
  {
  }

  lemma TellsOnlyOfTheTables(b: Books, after: Books, boot: string, rows: seq<Event>)
    requires SameTables(b, after, boot) && Tells(b, boot, rows)
    ensures Tells(after, boot, rows)
  {
    hide LastCarried;
  }

  lemma NothingTold()
    ensures OneGapEach(EMPTY.intervals) && forall boot :: Tells(EMPTY, boot, [])
  {
  }

  lemma {:induction false} FoldBootsTells(ordered: seq<Event>, boots: seq<string>)
    requires forall i, j :: 0 <= i < j < |boots| ==> boots[i] != boots[j]
    ensures OneGapEach(FoldBoots(EMPTY, ordered, boots).intervals)
    ensures forall boot ::
      Tells(FoldBoots(EMPTY, ordered, boots), boot, if boot in boots then SortBySeq(OfBoot(ordered, boot)) else [])
  {
    hide Tells, SameTables, OneGapEach, Fold, SortBySeq, OfBoot;
    if boots == [] {
      NothingTold();
    } else {
      var front, last := boots[..|boots| - 1], boots[|boots| - 1];
      var before := FoldBoots(EMPTY, ordered, front);
      FoldBootsTells(ordered, front);
      assert last !in front;
      FoldTells(before, last, SortBySeq(OfBoot(ordered, last)));
      forall boot | boot != last
        ensures Tells(FoldBoots(EMPTY, ordered, boots), boot,
                      if boot in boots then SortBySeq(OfBoot(ordered, boot)) else [])
      {
        assert boot in boots <==> boot in front;
        TellsOnlyOfTheTables(before, FoldBoots(EMPTY, ordered, boots), boot,
                             if boot in front then SortBySeq(OfBoot(ordered, boot)) else []);
      }
    }
  }

  lemma {:induction false} NoRowsOfOthers(xs: seq<Event>, boot: string)
    requires boot !in Boots(xs)
    ensures OfBoot(xs, boot) == []
  {
    if xs != [] { NoRowsOfOthers(xs[..|xs| - 1], boot); }
  }

  lemma {:induction false} BootsAreDistinct(events: seq<Event>)
    ensures forall i, j :: 0 <= i < j < |Boots(events)| ==> Boots(events)[i] != Boots(events)[j]
  {
    if events != [] { BootsAreDistinct(events[..|events| - 1]); }
  }

  /** The books after every boot is folded, before whole boots are closed. */
  function AllFolded(events: seq<Event>): Books {
    FoldBoots(EMPTY, Dedupe(events), Boots(Dedupe(events)))
  }

  /**
   After the fold the tables say of each boot, whoever came before or after it, what its rows carry last:
   worker, instance, moment, heartbeat and interval.
   */
  lemma TablesAreRead(events: seq<Event>, boot: string)
    ensures Tells(AllFolded(events), boot, RowsOf(events, boot)) && OneGapEach(AllFolded(events).intervals)
  {
    hide Tells, FoldBoots, SortBySeq, OfBoot, Dedupe, Boots, OneGapEach;
    var ordered := Dedupe(events);
    BootsAreDistinct(ordered);
    FoldBootsTells(ordered, Boots(ordered));
    if boot !in Boots(ordered) {
      NoRowsOfOthers(ordered, boot);
      NothingSorted();
    }
  }

  lemma NothingSorted()
    ensures SortBySeq([]) == []
  {
  }
}
