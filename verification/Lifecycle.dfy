/** `reconcile` as it runs: its loops, with their tables filled and emptied on the way. */
module Lifecycle {
  import opened Common
  import opened LifecycleLog
  import opened LifecycleHeartbeats

  method Reconcile(events: seq<Event>, now: Time, grace: Time) returns (closed: seq<Record>)
    ensures closed == Reconciled(events, now, grace).closed
  {
    var ordered := DropRepeats(events);
    var boots, byBoot := GroupByBoot(ordered);
    var b := FoldAll(ordered, boots, byBoot);
    b := CloseReplacedBoots(b, boots);
    b := CloseSilentBoots(b, now, grace);
    closed := b.closed;
  }

  method DropRepeats(events: seq<Event>) returns (ordered: seq<Event>)
    ensures ordered == Dedupe(events)
  {
    var seen: set<string> := {};
    ordered := [];
    for k := 0 to |events|
      invariant ordered == Dedupe(events[..k])
      invariant forall id :: id in seen <==> Heard(events[..k], id)
    {
      var event := events[k];
      assert events[..k + 1][..k] == events[..k];
      HeardNext(events, k);
      if event.id.Some? {
        if event.id.value in seen {
          continue;
        }
        seen := seen + {event.id.value};
      }
      ordered := ordered + [event];
    }
    assert events[..|events|] == events;
  }

  lemma HeardNext(events: seq<Event>, k: nat)
    requires k < |events|
    ensures forall id :: Heard(events[..k + 1], id) <==> Heard(events[..k], id) || events[k].id == Some(id)
  {
    forall id
      ensures Heard(events[..k + 1], id) <==> Heard(events[..k], id) || events[k].id == Some(id)
    {
      if Heard(events[..k], id) {
        var i :| 0 <= i < k && events[..k][i].id == Some(id);
        assert events[..k + 1][i].id == Some(id);
      }
      if events[k].id == Some(id) { assert events[..k + 1][k].id == Some(id); }
      if Heard(events[..k + 1], id) {
        var i :| 0 <= i < k + 1 && events[..k + 1][i].id == Some(id);
        if i < k { assert events[..k][i].id == Some(id); }
      }
    }
  }

  method GroupByBoot(ordered: seq<Event>) returns (boots: seq<string>, byBoot: map<string, seq<Event>>)
    ensures boots == Boots(ordered) && byBoot.Keys == set x | x in boots
    ensures forall boot :: boot in byBoot ==> byBoot[boot] == OfBoot(ordered, boot)
  {
    hide OfBoot, Boots, Grouped;
    boots, byBoot := [], map[];
    NothingGrouped();
    for k := 0 to |ordered|
      invariant boots == Boots(ordered[..k])
      invariant forall x :: x in byBoot <==> x in boots
      invariant Grouped(byBoot, ordered[..k])
    {
      var event := ordered[k];
      GroupedNext(byBoot, ordered, k);
      BootsNext(ordered, k);
      if event.boot.None? {
        continue;
      }
      var boot := event.boot.value;
      ghost var grown := byBoot[boot := (if boot in byBoot then byBoot[boot] else []) + [event]];
      if boot !in byBoot {
        byBoot := byBoot[boot := []];
        boots := boots + [boot];
      }
      byBoot := byBoot[boot := byBoot[boot] + [event]];
      assert byBoot == grown;
    }
    assert ordered[..|ordered|] == ordered;
    forall boot | boot in byBoot
      ensures byBoot[boot] == OfBoot(ordered, boot)
    {
      GroupOf(byBoot, ordered, boot);
    }
  }

  /** The groups are the events of each boot, in order. */
  ghost predicate Grouped(byBoot: map<string, seq<Event>>, events: seq<Event>) {
    forall boot :: OfBoot(events, boot) == if boot in byBoot then byBoot[boot] else []
  }

  lemma GroupOf(byBoot: map<string, seq<Event>>, events: seq<Event>, boot: string)
    requires Grouped(byBoot, events)
    ensures OfBoot(events, boot) == if boot in byBoot then byBoot[boot] else []
  {
  }

  lemma NothingGrouped()
    ensures Grouped(map[], []) && Boots([]) == []
  {
  }

  lemma BootsNext(ordered: seq<Event>, k: nat)
    requires k < |ordered|
    ensures var boots, boot := Boots(ordered[..k]), ordered[k].boot;
      Boots(ordered[..k + 1]) == if boot.Some? && boot.value !in boots then boots + [boot.value] else boots
  {
    assert ordered[..k + 1][..k] == ordered[..k];
  }

  lemma GroupedNext(byBoot: map<string, seq<Event>>, ordered: seq<Event>, k: nat)
    requires k < |ordered| && Grouped(byBoot, ordered[..k])
    ensures var boot := ordered[k].boot;
      if boot.None? then Grouped(byBoot, ordered[..k + 1])
      else Grouped(byBoot[boot.value := (if boot.value in byBoot then byBoot[boot.value] else []) + [ordered[k]]],
                   ordered[..k + 1])
  {
    assert ordered[..k + 1][..k] == ordered[..k];
  }

  method FoldAll(ordered: seq<Event>, boots: seq<string>, byBoot: map<string, seq<Event>>) returns (b: Books)
    requires boots == Boots(ordered) && byBoot.Keys == set x | x in boots
    requires forall boot :: boot in byBoot ==> byBoot[boot] == OfBoot(ordered, boot)
    ensures b == FoldBoots(EMPTY, ordered, boots) && Keyed(b.opens)
  {
    hide Fold, SortBySeq, OfBoot, Boots;
    b := EMPTY;
    for k := 0 to |boots|
      invariant b == FoldBoots(EMPTY, ordered, boots[..k]) && Keyed(b.opens)
    {
      assert boots[..k + 1][..k] == boots[..k];
      var boot := boots[k];
      assert boot in byBoot;
      b := FoldRows(b, boot, SortBySeq(byBoot[boot]));
    }
    assert boots[..|boots|] == boots;
  }

  method FoldRows(before: Books, boot: string, rows: seq<Event>) returns (b: Books)
    requires Keyed(before.opens)
    ensures b == Fold(before, boot, rows) && Keyed(b.opens)
  {
    hide Step, Keyed;
    b := before;
    for n := 0 to |rows|
      invariant b == Fold(before, boot, rows[..n]) && Keyed(b.opens)
    {
      assert rows[..n + 1][..n] == rows[..n];
      StepKeepsKeys(b, boot, rows[n]);
      b := TakeEvent(b, boot, rows[n]);
    }
    assert rows[..|rows|] == rows;
  }

  /** The notes every event leaves. */
  method TakeNote(before: Books, boot: string, e: Event) returns (b: Books)
    ensures b == Note(before, boot, e)
  {
    b := before;
    if e.at.Some? {
      b := b.(lastEvent := b.lastEvent[boot := e.at.value]);
    }
    var who := if boot in b.identity then b.identity[boot] else Identity(None, None);
    b := b.(identity := b.identity[boot := Identity(if e.worker.Some? then e.worker else who.worker,
                                                    if e.instance.Some? then e.instance else who.instance)]);
  }

  lemma NoteKeepsOpens(b: Books, boot: string, e: Event)
    ensures Note(b, boot, e).opens == b.opens
    ensures e.at.Some? ==> boot in Note(b, boot, e).lastEvent && Note(b, boot, e).lastEvent[boot] == e.at.value
  {
  }

  method TakeEvent(before: Books, boot: string, e: Event) returns (b: Books)
    requires Keyed(before.opens)
    ensures b == Step(before, boot, e)
  {
    hide Find, Put, PutGap, ListAll, Kept, LostRecords, Close, Note, Keyed;
    b := TakeNote(before, boot, e);
    NoteKeepsOpens(before, boot, e);
    match e.kind {
      case LiveStart(session) =>
        b := b.(opens := Put(b.opens, Interval(boot, session, e.seqno, e.at, None)));
      case LiveStop(q, reason, liveMs) =>
        var opens, item := Pop(b.opens, boot, q);
        b := b.(opens := opens);
        if item.Some? && e.at.Some? {
          var why := if reason == "" then "stop" else reason;
          b := b.(closed := b.closed + [Close(item.value, e.at.value, why, liveMs)]);
        }
      case Beat(interval, live) =>
        if e.at.Some? {
          b := TakeHeartbeat(b, boot, interval, live, e.at.value);
        }
      case OtherKind =>
    }
  }

  /** A heartbeat: open and mark what it lists, close what it does not. */
  method TakeHeartbeat(before: Books, boot: string, interval: Option<Time>, live: seq<Entry>, at: Time)
    returns (b: Books)
    requires Keyed(before.opens) && boot in before.lastEvent && before.lastEvent[boot] == at
    ensures var listed := ListAll(before.opens, boot, live, at);
      b == before.(
        opens := Kept(listed, boot, live), closed := before.closed + LostRecords(listed, boot, live, at),
        lastBeat := before.lastBeat[boot := at],
        intervals := if interval.Some? then PutGap(before.intervals, boot, interval.value) else before.intervals)
  {
    hide ListAll, Kept, LostRecords, PutGap;
    b := before;
    if interval.Some? {
      b := b.(intervals := PutGap(b.intervals, boot, interval.value));
    }
    var opens, listed := TakeEntries(b.opens, boot, live, at);
    ListAllKeepsKeys(b.opens, boot, live, at);
    var kept, lost := CloseUnlisted(opens, boot, live, listed, b.lastEvent, at);
    b := b.(opens := kept, closed := b.closed + lost, lastBeat := b.lastBeat[boot := at]);
  }

  /** A dictionary pop: the interval under this key leaves, if there is one. */
  method Pop(before: seq<Interval>, boot: string, q: int) returns (opens: seq<Interval>, item: Option<Interval>)
    ensures var i := Find(before, boot, q);
      if i < 0 then opens == before && item == None
      else opens == Without(before, i) && item == Some(before[i])
  {
    var i := Find(before, boot, q);
    opens, item := before, None;
    if i >= 0 {
      opens, item := before[..i] + before[i + 1..], Some(before[i]);
    }
  }

  /** First loop of a heartbeat: open what is unknown, mark the rest, and remember the pairs. */
  method TakeEntries(before: seq<Interval>, boot: string, live: seq<Entry>, at: Time)
    returns (opens: seq<Interval>, listed: set<(string, int)>)
    ensures opens == ListAll(before, boot, live, at)
    ensures PairsOf(listed, live)
  {
    opens, listed := before, {};
    for k := 0 to |live|
      invariant opens == ListAll(before, boot, live[..k], at)
      invariant PairsOf(listed, live[..k])
    {
      assert live[..k + 1][..k] == live[..k];
      PairsNext(listed, live, k);
      var entry := live[k];
      assert listed + {} == listed;
      if entry.session.None? || entry.startSeq.None? {
        continue;
      }
      var session, q := entry.session.value, entry.startSeq.value;
      assert EntryPair(entry) == {(session, q)};
      listed := listed + {(session, q)};
      var i := Find(opens, boot, q);
      if i < 0 {
        opens := opens + [Interval(boot, entry.session, q, entry.startedAt, Some(at))];
      } else {
        opens := opens[i := opens[i].(lastListed := Some(at))];
      }
    }
    assert live[..|live|] == live;
  }

  lemma PairsNext(listed: set<(string, int)>, live: seq<Entry>, k: nat)
    requires k < |live| && PairsOf(listed, live[..k])
    ensures PairsOf(listed + EntryPair(live[k]), live[..k + 1])
  {
    hide Listed;
    forall p: (string, int)
      ensures p in listed + EntryPair(live[k]) <==> Listed(live[..k + 1], Some(p.0), p.1)
    {
      PairListedNext(live, k, p.0, p.1);
    }
  }

  /** The pairs in the set are the pairs listed. */
  ghost predicate PairsOf(listed: set<(string, int)>, live: seq<Entry>) {
    forall p: (string, int) :: p in listed <==> Listed(live, Some(p.0), p.1)
  }

  ghost function EntryPair(entry: Entry): set<(string, int)> {
    if entry.session.Some? && entry.startSeq.Some? then {(entry.session.value, entry.startSeq.value)} else {}
  }

  lemma LostByPairs(listed: set<(string, int)>, live: seq<Entry>, item: Interval, boot: string)
    requires PairsOf(listed, live)
    ensures Lost(item, boot, live)
            <==> item.boot == boot && !(item.session.Some? && (item.session.value, item.startSeq) in listed)
  {
    if item.session.Some? {
      var p := (item.session.value, item.startSeq);
      assert p in listed <==> Listed(live, Some(p.0), p.1);
    }
  }

  lemma PairListedNext(live: seq<Entry>, k: nat, session: string, q: int)
    requires k < |live|
    ensures Listed(live[..k + 1], Some(session), q)
      <==> Listed(live[..k], Some(session), q) || (live[k].session == Some(session) && live[k].startSeq == Some(q))
  {
    var front, more := live[..k], live[..k + 1];
    if Listed(front, Some(session), q) {
      var i :| 0 <= i < k && front[i].session == Some(session) && front[i].startSeq == Some(q);
      assert more[i] == front[i];
    }
    if live[k].session == Some(session) && live[k].startSeq == Some(q) { assert more[k] == live[k]; }
    if Listed(more, Some(session), q) {
      var i :| 0 <= i < k + 1 && more[i].session == Some(session) && more[i].startSeq == Some(q);
      if i < k { assert front[i] == more[i]; }
    }
  }

  /** Second loop of a heartbeat: over a snapshot of the dictionary, popping what the heartbeat left out. */
  method CloseUnlisted(before: seq<Interval>, boot: string, live: seq<Entry>, listed: set<(string, int)>,
                       lastEvent: map<string, Time>, at: Time)
    returns (opens: seq<Interval>, records: seq<Record>)
    requires Keyed(before) && boot in lastEvent && lastEvent[boot] == at
    requires PairsOf(listed, live)
    ensures opens == Kept(before, boot, live) && records == LostRecords(before, boot, live, at)
  {
    hide *;
    opens, records := before, [];
    NothingKept(before, boot, live, at);
    for k := 0 to |before|
      invariant opens == Kept(before[..k], boot, live) + before[k..]
      invariant records == LostRecords(before[..k], boot, live, at)
    {
      KeptNext(before, k, boot, live, at);
      var item := before[k];
      LostByPairs(listed, live, item, boot);
      if item.boot != boot || (item.session.Some? && (item.session.value, item.startSeq) in listed) {
        continue;
      }
      var end := if item.lastListed.Some? then item.lastListed.value
                 else if boot in lastEvent then lastEvent[boot] else at;
      FindInSnapshot(before, k, boot, live);
      WithoutStanding(Kept(before[..k], boot, live), before, k);
      var rest, _ := Pop(opens, item.boot, item.startSeq);
      opens := rest;
      records := records + [Close(item, end, "lost", None)];
    }
    assert before[..|before|] == before;
    assert opens == Kept(before, boot, live) + [];
  }

  /** In a dictionary a key is found where it stands. */
  lemma FindWhereItStands(opens: seq<Interval>, n: nat)
    requires Keyed(opens) && n < |opens|
    ensures Find(opens, opens[n].boot, opens[n].startSeq) == n
  {
    hide Find;
    assert IsAt(opens, n, opens[n].boot, opens[n].startSeq);
  }

  /** Part of a prefix, followed by the rest, is still a dictionary. */
  lemma PartAndRestAreKeyed(items: seq<Interval>, k: nat, part: seq<Interval>)
    requires Keyed(items) && Keyed(part) && k <= |items| && forall iv :: iv in part ==> iv in items[..k]
    ensures Keyed(part + items[k..])
  {
    var opens := part + items[k..];
    forall i, j | 0 <= i < j < |opens|
      ensures opens[i].boot != opens[j].boot || opens[i].startSeq != opens[j].startSeq
    {
      if i < |part| <= j {
        assert part[i] in items[..k];
        var m :| 0 <= m < k && items[m] == part[i];
        assert items[m] == opens[i] && items[k + (j - |part|)] == opens[j];
      } else if |part| <= i {
        assert items[k + (i - |part|)] == opens[i] && items[k + (j - |part|)] == opens[j];
      }
    }
  }

  lemma WithoutStanding(part: seq<Interval>, items: seq<Interval>, k: nat)
    requires k < |items|
    ensures |part| < |part + items[k..]| && Without(part + items[k..], |part|) == part + items[k + 1..]
  {
  }

  lemma KeyedFront(items: seq<Interval>, k: nat)
    requires Keyed(items) && k <= |items|
    ensures Keyed(items[..k])
  {
  }

  lemma NothingKept(opens: seq<Interval>, boot: string, live: seq<Entry>, at: Time)
    ensures Kept(opens[..0], boot, live) + opens[0..] == opens && LostRecords(opens[..0], boot, live, at) == []
  {
  }

  lemma KeptNext(opens: seq<Interval>, k: nat, boot: string, live: seq<Entry>, at: Time)
    requires k < |opens|
    ensures var front, last := opens[..k], opens[k];
      && Kept(opens[..k + 1], boot, live)
         == (if Lost(last, boot, live) then Kept(front, boot, live) else Kept(front, boot, live) + [last])
      && LostRecords(opens[..k + 1], boot, live, at) == (
           if Lost(last, boot, live)
           then LostRecords(front, boot, live, at)
             + [Close(last, if last.lastListed.Some? then last.lastListed.value else at, "lost", None)]
           else LostRecords(front, boot, live, at))
      && (!Lost(last, boot, live) ==>
            Kept(opens[..k + 1], boot, live) + opens[k + 1..] == Kept(front, boot, live) + opens[k..])
  {
    hide Lost;
    assert opens[..k + 1][..k] == opens[..k];
    HeadOfTheRest(Kept(opens[..k], boot, live), opens, k);
  }

  lemma FindInSnapshot(before: seq<Interval>, k: nat, boot: string, live: seq<Entry>)
    requires Keyed(before) && k < |before|
    ensures var kept := Kept(before[..k], boot, live);
      Find(kept + before[k..], before[k].boot, before[k].startSeq) == |kept|
  {
    hide Kept, Find, Keyed;
    KeyedFront(before, k);
    KeptIsTheRest(before[..k], boot, live);
    PartAndRestAreKeyed(before, k, Kept(before[..k], boot, live));
    FindWhereItStands(Kept(before[..k], boot, live) + before[k..], |Kept(before[..k], boot, live)|);
  }

  // ---------------------------------------------------------------- closing boots

  /** Close every interval of a boot, over a snapshot of the dictionary. */
  method CloseAllOf(items: seq<Interval>, boot: string, at: Time) returns (opens: seq<Interval>, records: seq<Record>)
    requires Keyed(items)
    ensures opens == Others(items, boot) && Keyed(opens)
    ensures records == BootRecords(items, boot, at)
  {
    hide *;
    opens, records := items, [];
    NothingClosed(items, boot, at);
    for k := 0 to |items|
      invariant opens == Others(items[..k], boot) + items[k..]
      invariant records == BootRecords(items[..k], boot, at)
    {
      OthersNext(items, k, boot, at);
      var item := items[k];
      if item.boot == boot {
        FindAmongOthers(items, k, boot);
        WithoutStanding(Others(items[..k], boot), items, k);
        var rest, _ := Pop(opens, item.boot, item.startSeq);
        opens, records := rest, records + [Close(item, at, "worker_lost", None)];
      }
    }
    assert items[..|items|] == items;
    assert opens == Others(items, boot) + [];
    OthersAreKeyed(items, boot);
  }

  lemma NothingClosed(items: seq<Interval>, boot: string, at: Time)
    ensures Others(items[..0], boot) + items[0..] == items && BootRecords(items[..0], boot, at) == []
  {
  }

  lemma OthersNext(items: seq<Interval>, k: nat, boot: string, at: Time)
    requires k < |items|
    ensures var front, last := items[..k], items[k];
      && Others(items[..k + 1], boot)
         == (if last.boot == boot then Others(front, boot) else Others(front, boot) + [last])
      && BootRecords(items[..k + 1], boot, at) == (
           if last.boot == boot then BootRecords(front, boot, at) + [Close(last, at, "worker_lost", None)]
           else BootRecords(front, boot, at))
      && (last.boot != boot ==> Others(items[..k + 1], boot) + items[k + 1..] == Others(front, boot) + items[k..])
  {
    assert items[..k + 1][..k] == items[..k];
    HeadOfTheRest(Others(items[..k], boot), items, k);
  }

  lemma HeadOfTheRest(part: seq<Interval>, items: seq<Interval>, k: nat)
    requires k < |items|
    ensures part + items[k..] == part + [items[k]] + items[k + 1..]
  {
    assert items[k..] == [items[k]] + items[k + 1..];
  }

  lemma {:induction false} OthersAreKeyed(opens: seq<Interval>, boot: string)
    ensures forall iv :: iv in Others(opens, boot) <==> iv in opens && iv.boot != boot
    ensures Keyed(opens) ==> Keyed(Others(opens, boot))
  {
    if opens != [] {
      var front, last := opens[..|opens| - 1], opens[|opens| - 1];
      OthersAreKeyed(front, boot);
      assert forall iv :: iv in opens <==> iv in front || iv == last;
      if Keyed(opens) {
        forall iv | iv in Others(front, boot)
          ensures iv.boot != last.boot || iv.startSeq != last.startSeq
        {
          assert iv in front;
        }
      }
    }
  }

  lemma FindAmongOthers(items: seq<Interval>, k: nat, boot: string)
    requires Keyed(items) && k < |items| && items[k].boot == boot
    ensures Find(Others(items[..k], boot) + items[k..], boot, items[k].startSeq) == |Others(items[..k], boot)|
  {
    hide Others, Find, Keyed;
    KeyedFront(items, k);
    OthersAreKeyed(items[..k], boot);
    PartAndRestAreKeyed(items, k, Others(items[..k], boot));
    FindWhereItStands(Others(items[..k], boot) + items[k..], |Others(items[..k], boot)|);
  }

  method CloseReplacedBoots(folded: Books, boots: seq<string>) returns (b: Books)
    requires Keyed(folded.opens)
    ensures b == Supersede(folded, boots) && Keyed(b.opens)
  {
    hide CloseEach, Keyed;
    b := folded;
    var workers: map<string, string>, instances: map<string, string> := map[], map[];
    for k := 0 to |boots|
      invariant b == Supersede(folded, boots[..k]) && Keyed(b.opens) && b.identity == folded.identity
      invariant Seen(workers, instances) == SeenAll(folded, boots[..k])
    {
      assert boots[..k + 1][..k] == boots[..k];
      var boot := boots[k];
      var who := if boot in b.identity then b.identity[boot] else Identity(None, None);
      var previous: seq<string> := [];
      if Names(who.worker) && who.worker.value in workers && workers[who.worker.value] != boot {
        previous := previous + [workers[who.worker.value]];
      }
      if Names(who.instance) && who.instance.value in instances && instances[who.instance.value] != boot {
        previous := previous + [instances[who.instance.value]];
      }
      assert previous == Replaces(folded, SeenAll(folded, boots[..k]), boot);
      b := ClosePriors(b, previous);
      if Names(who.worker) {
        workers := workers[who.worker.value := boot];
      }
      if Names(who.instance) {
        instances := instances[who.instance.value := boot];
      }
    }
    assert boots[..|boots|] == boots;
  }

  method ClosePriors(before: Books, previous: seq<string>) returns (b: Books)
    requires Keyed(before.opens)
    ensures b == CloseEach(before, previous) && Keyed(b.opens) && b.identity == before.identity
  {
    b := before;
    for n := 0 to |previous|
      invariant b == CloseEach(before, previous[..n]) && Keyed(b.opens) && b.identity == before.identity
    {
      assert previous[..n + 1][..n] == previous[..n];
      var prior := previous[n];
      var at := if prior in b.lastBeat then Some(b.lastBeat[prior])
                else if prior in b.lastEvent then Some(b.lastEvent[prior]) else None;
      if at.None? {
        continue;
      }
      var opens, records := CloseAllOf(b.opens, prior, at.value);
      b := b.(opens := opens, closed := b.closed + records);
    }
    assert previous[..|previous|] == previous;
  }

  method CloseSilentBoots(before: Books, now: Time, grace: Time) returns (b: Books)
    requires Keyed(before.opens)
    ensures b == Expire(before, before.intervals, now, grace)
  {
    b := before;
    var gaps := before.intervals;
    for k := 0 to |gaps|
      invariant b == Expire(before, gaps[..k], now, grace) && Keyed(b.opens)
    {
      assert gaps[..k + 1][..k] == gaps[..k];
      var (boot, gap) := gaps[k];
      if boot !in b.lastBeat {
        continue;
      }
      var seenAt := b.lastBeat[boot];
      if now - seenAt <= 2 * gap + grace {
        continue;
      }
      var opens, records := CloseAllOf(b.opens, boot, seenAt);
      b := b.(opens := opens, closed := b.closed + records);
    }
    assert gaps[..|gaps|] == gaps;
  }
}
