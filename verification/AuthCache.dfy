/**
 The authentication cache: bounded, least recently used first out, with a time to live. It is compared
 with a plain map that never forgets: what was put last under each key, and when.

 One call reads the clock once here. The scan of `invalidate_where` deletes an expired entry while it
 walks the dictionary, and the dictionary raises at its next step if there is one.
 */
module AuthCache {
  import opened Common

  datatype Answer = Identity(id: Id) | Reject(code: int)

  datatype Item = Item(key: string, expires: Time, answer: Answer)

  /** `items` in dictionary order: the least recently used first. */
  datatype Cache = Cache(ttl: Time, max: nat, items: seq<Item>, evictions: nat)

  datatype Call =
    | Get(key: string, now: Time)
    | Put(key: string, answer: Answer, now: Time)
    | Invalidate(key: string)
    | InvalidateWhere(doomed: set<Answer>, now: Time)
    | Clear

  datatype Result =
    | Found(answer: Answer)
    | Missing
    | Stored
    | Dropped(was: bool)
    | Counted(count: nat)
    | Raised

  function IndexOf(items: seq<Item>, key: string): (i: int)
    ensures -1 <= i < |items|
    ensures i >= 0 ==> items[i].key == key
    ensures i < 0 ==> forall k :: 0 <= k < |items| ==> items[k].key != key
  {
    if items == [] then -1
    else if items[|items| - 1].key == key then |items| - 1
    else IndexOf(items[..|items| - 1], key)
  }

  function Without(items: seq<Item>, i: nat): seq<Item>
    requires i < |items|
  {
    items[..i] + items[i + 1..]
  }

  function Forget(items: seq<Item>, key: string): seq<Item> {
    var i := IndexOf(items, key);
    if i < 0 then items else Without(items, i)
  }

  function Evicted(items: seq<Item>, max: nat): seq<Item> {
    if |items| <= max then items else items[|items| - max..]
  }

  /** An expired identity the scan deletes. */
  predicate Stale(item: Item, now: Time) {
    item.answer.Identity? && now >= item.expires
  }

  predicate Doomed(item: Item, doomed: set<Answer>, now: Time) {
    item.answer.Identity? && now < item.expires && item.answer in doomed
  }

  /** The first expired identity of the scan, or the length. */
  function FirstStale(items: seq<Item>, now: Time): (i: nat)
    ensures i <= |items|
    ensures i < |items| ==> Stale(items[i], now)
    ensures forall k :: 0 <= k < i ==> !Stale(items[k], now)
  {
    if items == [] then 0
    else
      var i := FirstStale(items[..|items| - 1], now);
      if i < |items| - 1 || Stale(items[|items| - 1], now) then i else |items|
  }

  function Spared(items: seq<Item>, doomed: set<Answer>, now: Time): seq<Item> {
    if items == [] then []
    else
      var last := items[|items| - 1];
      Spared(items[..|items| - 1], doomed, now) + (if Doomed(last, doomed, now) then [] else [last])
  }

  /** The keys the scan picks, in order. */
  function Hits(items: seq<Item>, doomed: set<Answer>, now: Time): seq<string> {
    if items == [] then []
    else
      var last := items[|items| - 1];
      Hits(items[..|items| - 1], doomed, now) + (if Doomed(last, doomed, now) then [last.key] else [])
  }

  function After(c: Cache, call: Call): (Cache, Result) {
    match call
    case Get(key, now) =>
      var i := if c.max == 0 then -1 else IndexOf(c.items, key);
      if i < 0 then (c, Missing)
      else if now >= c.items[i].expires then (c.(items := Without(c.items, i)), Missing)
      else (c.(items := Without(c.items, i) + [c.items[i]]), Found(c.items[i].answer))
    case Put(key, answer, now) =>
      if c.max == 0 then (c, Stored)
      else
        var items := Forget(c.items, key) + [Item(key, now + c.ttl, answer)];
        (c.(items := Evicted(items, c.max), evictions := c.evictions + Max(0, |items| - c.max)), Stored)
    case Invalidate(key) =>
      (c.(items := Forget(c.items, key)), Dropped(IndexOf(c.items, key) >= 0))
    case InvalidateWhere(doomed, now) =>
      var i := FirstStale(c.items, now);
      if i + 1 < |c.items| then (c.(items := Without(c.items, i)), Raised)
      else
        var seen := c.items[..i];
        (c.(items := Spared(seen, doomed, now)), Counted(|Hits(seen, doomed, now)|))
    case Clear => (c.(items := []), Counted(|c.items|))
  }

  // ---------------------------------------------------------------- the plain map

  datatype Stamp = Stamp(answer: Answer, at: Time)

  /**
   `plain` is what was put last under each key and not taken back; `others` is which other keys were put
   or hit since the key was; `clock` the last moment read.
   */
  datatype History = History(cache: Cache, plain: map<string, Stamp>, others: map<string, set<string>>,
                             clock: Option<Time>)

  function Moment(call: Call): Option<Time> {
    match call
    case Get(_, now) => Some(now)
    case Put(_, _, now) => Some(now)
    case InvalidateWhere(_, now) => Some(now)
    case _ => None
  }

  function Remembered(plain: map<string, Stamp>, call: Call, result: Result): map<string, Stamp> {
    match call
    case Put(key, answer, now) => plain[key := Stamp(answer, now)]
    case Invalidate(key) => plain - {key}
    case InvalidateWhere(doomed, _) =>
      if result.Raised? then plain
      else map key | key in plain && !(plain[key].answer.Identity? && plain[key].answer in doomed) :: plain[key]
    case Clear => map[]
    case Get(_, _) => plain
  }

  function Touched(others: map<string, set<string>>, key: string): map<string, set<string>> {
    map k | k in others.Keys + {key} :: if k == key then {} else others[k] + {key}
  }

  function OthersAfter(others: map<string, set<string>>, call: Call, result: Result): map<string, set<string>> {
    if call.Put? || result.Found? then
      match call
      case Get(key, _) => Touched(others, key)
      case Put(key, _, _) => Touched(others, key)
      case _ => others
    else others
  }

  function Lived(h: History, call: Call): History {
    var (cache, result) := After(h.cache, call);
    History(cache, Remembered(h.plain, call, result), OthersAfter(h.others, call, result),
            if Moment(call).Some? then Moment(call) else h.clock)
  }

  function Run(ttl: Time, max: nat, calls: seq<Call>): History {
    if calls == [] then History(Cache(ttl, max, [], 0), map[], map[], None)
    else Lived(Run(ttl, max, calls[..|calls| - 1]), calls[|calls| - 1])
  }

  /** The clock does not run backwards. */
  predicate OnTime(h: History, call: Call) {
    Moment(call).Some? && h.clock.Some? ==> h.clock.value <= Moment(call).value
  }

  predicate Clocked(calls: seq<Call>) {
    forall i, j :: 0 <= i < j < |calls| && Moment(calls[i]).Some? && Moment(calls[j]).Some? ==>
      Moment(calls[i]).value <= Moment(calls[j]).value
  }

  // ---------------------------------------------------------------- what every call keeps

  ghost predicate Distinct(items: seq<Item>) {
    forall i, j :: 0 <= i < j < |items| ==> items[i].key != items[j].key
  }

  ghost predicate Genuine(item: Item, ttl: Time, plain: map<string, Stamp>) {
    item.key in plain && item.answer == plain[item.key].answer && item.expires == plain[item.key].at + ttl
  }

  /** Everything behind an item was put or hit after it was. */
  ghost predicate InOrder(items: seq<Item>, others: map<string, set<string>>) {
    && (forall i :: 0 <= i < |items| ==> items[i].key in others)
    && (forall i, j :: 0 <= i < j < |items| ==> items[j].key in others[items[i].key])
  }

  /** The key is gone for one of the two reasons there are. */
  ghost predicate Gone(h: History, key: string)
    requires key in h.plain
  {
    || (h.clock.Some? && h.plain[key].at + h.cache.ttl <= h.clock.value)
    || (key in h.others && |h.others[key]| >= h.cache.max)
  }

  ghost predicate Agrees(h: History) {
    && Distinct(h.cache.items) && |h.cache.items| <= h.cache.max
    && (forall i :: 0 <= i < |h.cache.items| ==> Genuine(h.cache.items[i], h.cache.ttl, h.plain))
    && InOrder(h.cache.items, h.others)
    && (forall key :: key in h.plain ==> IndexOf(h.cache.items, key) >= 0 || Gone(h, key))
  }

  // ---------------------------------------------------------------- the cache in place

  class InPlace {
    const ttl: Time
    const max: nat
    var items: seq<Item>
    var evictions: nat

    function Contents(): Cache
      reads this
    {
      Cache(ttl, max, items, evictions)
    }

    constructor (ttl: Time, maxEntries: int)
      ensures Contents() == Cache(ttl, if maxEntries < 0 then 0 else maxEntries, [], 0)
    {
      this.ttl := ttl;
      max := if maxEntries < 0 then 0 else maxEntries;
      items, evictions := [], 0;
    }

    method Get(key: string, now: Time) returns (found: Option<Answer>)
      modifies this`items
      ensures var (after, result) := After(old(Contents()), Call.Get(key, now));
        Contents() == after && result == if found.Some? then Found(found.value) else Missing
    {
      if max == 0 {
        return None;
      }
      var i := IndexOf(items, key);
      if i < 0 {
        return None;
      }
      var item := items[i];
      items := items[..i] + items[i + 1..];
      if now >= item.expires {
        return None;
      }
      items := items + [item];
      found := Some(item.answer);
    }

    method Put(key: string, answer: Answer, now: Time)
      modifies this
      ensures Contents() == After(old(Contents()), Call.Put(key, answer, now)).0
    {
      hide FirstStale, Spared, Hits, IndexOf, Evicted;
      if max == 0 {
        return;
      }
      var i := IndexOf(items, key);
      if i >= 0 {
        items := items[..i] + items[i + 1..];
      }
      assert items == Forget(old(items), key);
      items := items + [Item(key, now + ttl, answer)];
      Shrink();
    }

    /** Pop the least recently used until the size fits. */
    method Shrink()
      modifies this
      ensures items == Evicted(old(items), max)
      ensures evictions == old(evictions) + Max(0, |old(items)| - max)
    {
      var n := 0;
      while |items| > max
        invariant n <= |old(items)| && (n == 0 || |old(items)| - n >= max)
        invariant items == old(items)[n..]
        invariant evictions == old(evictions) + n
        decreases |items|
      {
        items := items[1..];
        evictions := evictions + 1;
        n := n + 1;
      }
    }

    method Invalidate(key: string) returns (was: bool)
      modifies this`items
      ensures (Contents(), Dropped(was)) == After(old(Contents()), Call.Invalidate(key))
    {
      var i := IndexOf(items, key);
      was := i >= 0;
      if was {
        items := items[..i] + items[i + 1..];
      }
    }

    method Clear() returns (count: nat)
      modifies this`items
      ensures (Contents(), Counted(count)) == After(old(Contents()), Call.Clear)
    {
      count := |items|;
      items := [];
    }

    /** `None` when the dictionary raises under the scan. */
    method InvalidateWhere(doomed: set<Answer>, now: Time) returns (count: Option<nat>)
      requires Distinct(items)
      modifies this`items
      ensures var (after, result) := After(old(Contents()), Call.InvalidateWhere(doomed, now));
        Contents() == after && result == if count.Some? then Counted(count.value) else Raised
    {
      ghost var walked := items;
      var keys, raised := Scan(doomed, now);
      if raised {
        return None;
      }
      ghost var seen := walked[..FirstStale(walked, now)];
      SparedIsTheRest(seen, doomed, now);
      PopAll(keys);
      count := Some(|keys|);
    }

    /** The comprehension: it picks keys, and deletes what it finds expired. */
    method Scan(doomed: set<Answer>, now: Time) returns (keys: seq<string>, raised: bool)
      requires Distinct(items)
      modifies this`items
      ensures var walked, i := old(items), FirstStale(old(items), now);
        && raised == (i + 1 < |walked|)
        && items == (if i < |walked| then Without(walked, i) else walked)
        && (!raised ==> items == walked[..i] && keys == Hits(walked[..i], doomed, now))
    {
      hide IndexOf, FirstStale, Distinct;
      var walked := items;
      var deleted := false;
      keys, raised := [], false;
      for k := 0 to |walked|
        invariant FirstStale(walked, now) >= if deleted then k - 1 else k
        invariant deleted ==> k > 0 && FirstStale(walked, now) == k - 1
        invariant items == if deleted then Without(walked, k - 1) else walked
        invariant keys == Hits(walked[..if deleted then k - 1 else k], doomed, now)
      {
        if deleted {
          raised := true;
          return;
        }
        assert walked[..k + 1][..k] == walked[..k];
        FoundWhereItStands(walked, k);
        var item := walked[k];
        if item.answer.Identity? {
          if now >= item.expires {
            items := Forget(items, item.key);
            assert items == Without(walked, k);
            deleted := true;
          } else if item.answer in doomed {
            keys := keys + [item.key];
          }
        }
      }
      assert walked[..|walked|] == walked;
    }

    method PopAll(keys: seq<string>)
      requires Distinct(items)
      modifies this`items
      ensures items == Minus(old(items), Elements(keys))
    {
      NothingTaken(items);
      assert Elements(keys[..0]) == {};
      for k := 0 to |keys|
        invariant items == Minus(old(items), Elements(keys[..k]))
      {
        MinusKeepsDistinct(old(items), Elements(keys[..k]));
        ForgetIsMinus(items, keys[k]);
        MinusTwice(old(items), Elements(keys[..k]), {keys[k]});
        assert Elements(keys[..k]) + {keys[k]} == Elements(keys[..k + 1]);
        items := Forget(items, keys[k]);
      }
      assert keys[..|keys|] == keys;
    }
  }

  // ---------------------------------------------------------------- the scan

  function Elements(keys: seq<string>): set<string> {
    set key | key in keys
  }

  function Minus(items: seq<Item>, keys: set<string>): seq<Item> {
    if items == [] then []
    else
      var last := items[|items| - 1];
      Minus(items[..|items| - 1], keys) + (if last.key in keys then [] else [last])
  }

  lemma FoundWhereItStands(items: seq<Item>, k: nat)
    requires Distinct(items) && k < |items|
    ensures IndexOf(items, items[k].key) == k
  {
  }

  lemma {:induction false} NothingTaken(items: seq<Item>)
    ensures Minus(items, {}) == items
  {
    if items != [] { NothingTaken(items[..|items| - 1]); }
  }

  lemma {:induction false} MinusMembers(items: seq<Item>, keys: set<string>)
    ensures forall item :: item in Minus(items, keys) <==> item in items && item.key !in keys
  {
    if items != [] {
      MinusMembers(items[..|items| - 1], keys);
      assert forall item :: item in items <==> item in items[..|items| - 1] || item == items[|items| - 1];
    }
  }

  lemma ForgetSnoc(front: seq<Item>, last: Item, key: string)
    ensures Forget(front + [last], key) == if last.key == key then front else Forget(front, key) + [last]
  {
    var items := front + [last];
    assert items[..|front|] == front;
    if last.key == key {
      assert Without(items, |front|) == front;
    } else if IndexOf(front, key) >= 0 {
      assert Without(items, IndexOf(front, key)) == Without(front, IndexOf(front, key)) + [last];
    }
  }

  lemma {:induction false} ForgetIsMinus(items: seq<Item>, key: string)
    requires Distinct(items)
    ensures Forget(items, key) == Minus(items, {key})
  {
    hide Forget;
    if items == [] {
      ForgetNothing(key);
    } else {
      var front, last := items[..|items| - 1], items[|items| - 1];
      ForgetIsMinus(front, key);
      assert front + [last] == items;
      ForgetSnoc(front, last, key);
      if last.key == key {
        SameMinus(front, {}, {key}, key);
        NothingTaken(front);
        assert front + [] == front;
      }
    }
  }

  lemma ForgetNothing(key: string)
    ensures Forget([], key) == []
  {
  }

  lemma {:induction false} MinusTwice(items: seq<Item>, a: set<string>, b: set<string>)
    ensures Minus(Minus(items, a), b) == Minus(items, a + b)
  {
    if items != [] {
      var front, last := items[..|items| - 1], items[|items| - 1];
      MinusTwice(front, a, b);
      var kept := Minus(front, a);
      if last.key in a {
        assert kept + [] == kept && Minus(front, a + b) + [] == Minus(front, a + b);
      } else {
        assert (kept + [last])[..|kept|] == kept;
      }
    }
  }

  lemma {:induction false} MinusKeepsDistinct(items: seq<Item>, keys: set<string>)
    requires Distinct(items)
    ensures Distinct(Minus(items, keys))
  {
    if items != [] {
      MinusKeepsDistinct(items[..|items| - 1], keys);
      MinusMembers(items[..|items| - 1], keys);
      assert forall item :: item in Minus(items[..|items| - 1], keys) ==> item.key != items[|items| - 1].key;
    }
  }

  lemma {:induction false} SparedIsTheRest(items: seq<Item>, doomed: set<Answer>, now: Time)
    requires Distinct(items)
    ensures Minus(items, Elements(Hits(items, doomed, now))) == Spared(items, doomed, now)
    ensures |Hits(items, doomed, now)| == |items| - |Spared(items, doomed, now)|
    ensures forall key :: key in Hits(items, doomed, now) ==> exists i :: 0 <= i < |items| && items[i].key == key
  {
    if items != [] {
      var front, last := items[..|items| - 1], items[|items| - 1];
      SparedIsTheRest(front, doomed, now);
      var hits, all := Hits(front, doomed, now), Hits(items, doomed, now);
      assert last.key !in hits;
      SameMinus(front, Elements(hits), Elements(all), last.key);
    }
  }

  lemma {:induction false} SameMinus(items: seq<Item>, keys: set<string>, more: set<string>, key: string)
    requires keys <= more <= keys + {key} && forall i :: 0 <= i < |items| ==> items[i].key != key
    ensures Minus(items, keys) == Minus(items, more)
  {
    if items != [] { SameMinus(items[..|items| - 1], keys, more, key); }
  }

  // ---------------------------------------------------------------- agreement with the plain map

  /** The items of `some` are items of `all`, in the same order. */
  ghost predicate Picked(some: seq<Item>, all: seq<Item>) {
    exists at: seq<nat> :: PickedAt(some, all, at)
  }

  ghost predicate PickedAt(some: seq<Item>, all: seq<Item>, at: seq<nat>) {
    && |at| == |some|
    && (forall i :: 0 <= i < |at| ==> at[i] < |all| && all[at[i]] == some[i])
    && (forall i, j :: 0 <= i < j < |at| ==> at[i] < at[j])
  }

  lemma PickedStaysInOrder(some: seq<Item>, all: seq<Item>, others: map<string, set<string>>)
    requires Picked(some, all) && Distinct(all) && InOrder(all, others)
    ensures Distinct(some) && InOrder(some, others) && |some| <= |all|
  {
    var at :| PickedAt(some, all, at);
    forall i, j | 0 <= i < j < |some|
      ensures some[i].key != some[j].key && some[i].key in others && some[j].key in others[some[i].key]
    {
      assert at[i] < at[j] && all[at[i]] == some[i] && all[at[j]] == some[j];
    }
    PickedIsShorter(at, |all|);
  }

  lemma {:induction false} PickedIsShorter(at: seq<nat>, bound: nat)
    requires forall i :: 0 <= i < |at| ==> at[i] < bound
    requires forall i, j :: 0 <= i < j < |at| ==> at[i] < at[j]
    ensures |at| <= bound
  {
    if at != [] { PickedIsShorter(at[..|at| - 1], at[|at| - 1]); }
  }

  lemma WithoutIsPicked(items: seq<Item>, k: nat)
    requires k < |items|
    ensures Picked(Without(items, k), items)
  {
    var at := seq(|items| - 1, i requires 0 <= i < |items| - 1 => (if i < k then i else i + 1) as nat);
    assert PickedAt(Without(items, k), items, at);
  }

  lemma FrontIsPicked(items: seq<Item>, k: nat)
    requires k <= |items|
    ensures Picked(items[..k], items)
  {
    assert PickedAt(items[..k], items, seq(k, i requires 0 <= i < k => i as nat));
  }

  lemma PickedGrows(some: seq<Item>, all: seq<Item>, last: Item)
    requires Picked(some, all)
    ensures Picked(some, all + [last]) && Picked(some + [last], all + [last])
  {
    var at: seq<nat> :| PickedAt(some, all, at);
    assert PickedAt(some, all + [last], at);
    assert PickedAt(some + [last], all + [last], at + [|all|]);
  }

  lemma {:induction false} SparedIsPicked(items: seq<Item>, doomed: set<Answer>, now: Time)
    ensures Picked(Spared(items, doomed, now), items)
    ensures forall item :: item in Spared(items, doomed, now) <==> item in items && !Doomed(item, doomed, now)
  {
    hide Doomed, Picked;
    if items == [] {
      AllIsPicked([]);
    } else {
      var front, last := items[..|items| - 1], items[|items| - 1];
      SparedIsPicked(front, doomed, now);
      PickedGrows(Spared(front, doomed, now), front, last);
      assert front + [last] == items && Spared(front, doomed, now) + [] == Spared(front, doomed, now);
      assert forall item :: item in items <==> item in front || item == last;
    }
  }

  /** Against `h`, items were taken out: each had expired, or its key was taken back. */
  ghost predicate TakenOut(h: History, after: History) {
    && after.cache.ttl == h.cache.ttl && after.cache.max == h.cache.max && after.others == h.others
    && (h.clock.Some? ==> after.clock.Some? && h.clock.value <= after.clock.value)
    && (forall key :: key in after.plain ==> key in h.plain && after.plain[key] == h.plain[key])
    && Picked(after.cache.items, h.cache.items)
    && (forall i :: 0 <= i < |after.cache.items| ==> after.cache.items[i].key in after.plain)
    && (forall i :: 0 <= i < |h.cache.items| && h.cache.items[i] !in after.cache.items
                    && h.cache.items[i].key in after.plain ==>
          after.clock.Some? && h.cache.items[i].expires <= after.clock.value)
  }

  lemma TakingOutAgrees(h: History, after: History)
    requires Agrees(h) && TakenOut(h, after)
    ensures Agrees(after)
  {
    var items := after.cache.items;
    PickedStaysInOrder(items, h.cache.items, h.others);
    var at :| PickedAt(items, h.cache.items, at);
    forall i | 0 <= i < |items|
      ensures Genuine(items[i], h.cache.ttl, after.plain)
    {
      assert Genuine(h.cache.items[at[i]], h.cache.ttl, h.plain);
    }
    forall key | key in after.plain && IndexOf(items, key) < 0
      ensures Gone(after, key)
    {
      var k := IndexOf(h.cache.items, key);
      if k >= 0 {
        assert Genuine(h.cache.items[k], h.cache.ttl, h.plain);
      }
    }
  }

  lemma MissAgrees(h: History, call: Call)
    requires Agrees(h) && OnTime(h, call) && call.Get? && (h.cache.max == 0 || IndexOf(h.cache.items, call.key) < 0)
    ensures Agrees(Lived(h, call))
  {
    hide Picked, Genuine, InOrder, Distinct, IndexOf;
    AllInPlain(h);
    AllIsPicked(h.cache.items);
    TakingOutAgrees(h, Lived(h, call));
  }

  lemma ExpiredAgrees(h: History, call: Call, i: nat)
    requires Agrees(h) && OnTime(h, call) && call.Get? && h.cache.max > 0 && i == IndexOf(h.cache.items, call.key)
    requires call.now >= h.cache.items[i].expires
    ensures Agrees(Lived(h, call))
  {
    hide Picked, Genuine, InOrder, IndexOf, Without;
    AllInPlain(h);
    WithoutIsPicked(h.cache.items, i);
    MembersWithout(h.cache.items, i);
    TakingOutAgrees(h, Lived(h, call));
  }

  lemma HitAgrees(h: History, call: Call, i: nat)
    requires Agrees(h) && OnTime(h, call) && call.Get? && h.cache.max > 0 && i == IndexOf(h.cache.items, call.key)
    requires call.now < h.cache.items[i].expires
    ensures Agrees(Lived(h, call))
  {
    hide Picked, Genuine, InOrder, IndexOf, Touched;
    var rest, item := Without(h.cache.items, i), h.cache.items[i];
    WithoutIsPicked(h.cache.items, i);
    MembersWithout(h.cache.items, i);
    assert Genuine(item, h.cache.ttl, h.plain);
    assert |rest + [item]| == |h.cache.items|;
    TouchAgrees(h, Lived(h, call), rest, item);
  }

  lemma GetAgrees(h: History, call: Call)
    requires Agrees(h) && OnTime(h, call) && call.Get?
    ensures Agrees(Lived(h, call))
  {
    hide Lived, Distinct, Genuine, InOrder;
    var i := if h.cache.max == 0 then -1 else IndexOf(h.cache.items, call.key);
    if i < 0 {
      MissAgrees(h, call);
    } else if call.now >= h.cache.items[i].expires {
      ExpiredAgrees(h, call, i);
    } else {
      HitAgrees(h, call, i);
    }
  }

  lemma AllIsPicked(items: seq<Item>)
    ensures Picked(items, items)
  {
    FrontIsPicked(items, |items|);
    assert items[..|items|] == items;
  }

  lemma MembersWithout(items: seq<Item>, i: nat)
    requires Distinct(items) && i < |items|
    ensures forall item :: item in Without(items, i) <==> item in items && item != items[i]
  {
    assert items == items[..i] + [items[i]] + items[i + 1..];
    assert items[i] !in items[..i] && items[i] !in items[i + 1..];
  }

  /** A key put or hit: its item goes behind all others, which it then counts from anew. */
  ghost predicate TouchedLast(h: History, after: History, rest: seq<Item>, last: Item) {
    && after.cache.ttl == h.cache.ttl && after.cache.max == h.cache.max && after.others == Touched(h.others, last.key)
    && (h.clock.Some? ==> after.clock.Some? && h.clock.value <= after.clock.value)
    && Picked(rest, h.cache.items)
    && (forall item :: item in h.cache.items && item.key != last.key ==> item in rest)
    && (forall i :: 0 <= i < |rest| ==> rest[i].key != last.key)
    && (forall key :: key != last.key ==> (key in after.plain <==> key in h.plain))
    && (forall key :: key != last.key && key in h.plain ==> after.plain[key] == h.plain[key])
    && Genuine(last, h.cache.ttl, after.plain)
    && after.cache.items == Evicted(rest + [last], h.cache.max)
  }

  lemma {:induction false} DistinctKeys(items: seq<Item>, keys: set<string>)
    requires Distinct(items) && forall i :: 0 <= i < |items| ==> items[i].key in keys
    ensures |items| <= |keys|
  {
    if items != [] {
      DistinctKeys(items[1..], keys - {items[0].key});
    }
  }

  lemma SubsetIsSmaller(a: set<string>, b: set<string>)
    requires a <= b
    ensures |a| <= |b|
  {
    assert b == a + (b - a);
  }

  /** Before eviction: the touched item is behind the rest, and everything is still in order. */
  lemma TouchKeepsOrder(h: History, after: History, rest: seq<Item>, last: Item)
    requires Agrees(h) && TouchedLast(h, after, rest, last)
    ensures Distinct(rest + [last]) && InOrder(rest + [last], after.others)
    ensures forall i :: 0 <= i <= |rest| ==> Genuine((rest + [last])[i], h.cache.ttl, after.plain)
  {
    hide IndexOf, Gone, Picked, Evicted;
    PickedStaysInOrder(rest, h.cache.items, h.others);
    GenuineRest(h, after, rest, last);
  }

  lemma GenuineRest(h: History, after: History, rest: seq<Item>, last: Item)
    requires Agrees(h) && TouchedLast(h, after, rest, last)
    ensures forall i :: 0 <= i < |rest| ==> Genuine(rest[i], h.cache.ttl, after.plain)
  {
    hide InOrder, Distinct, IndexOf, Gone, Touched, Evicted;
    var at: seq<nat> :| PickedAt(rest, h.cache.items, at);
    forall i | 0 <= i < |rest|
      ensures Genuine(rest[i], h.cache.ttl, after.plain)
    {
      assert Genuine(h.cache.items[at[i]], h.cache.ttl, h.plain);
    }
  }

  /** An item pushed out had that many others behind it. */
  lemma PushedOut(all: seq<Item>, others: map<string, set<string>>, max: nat, d: nat)
    requires Distinct(all) && InOrder(all, others) && d + max < |all|
    ensures all[d].key in others && |others[all[d].key]| >= max
  {
    DistinctKeys(all[d + 1..], others[all[d].key]);
  }

  lemma TouchAgrees(h: History, after: History, rest: seq<Item>, last: Item)
    requires Agrees(h) && h.cache.max > 0 && TouchedLast(h, after, rest, last)
    ensures Agrees(after)
  {
    hide Picked, Genuine, IndexOf, Distinct, InOrder;
    var all, kept := rest + [last], after.cache.items;
    TouchKeepsOrder(h, after, rest, last);
    SuffixStays(all, after.others, kept);
    assert kept[|kept| - 1] == last;
    forall i | 0 <= i < |kept|
      ensures Genuine(kept[i], h.cache.ttl, after.plain)
    {
      assert kept[i] == all[|all| - |kept| + i];
    }
    forall key | key in after.plain && IndexOf(kept, key) < 0
      ensures Gone(after, key)
    {
      assert key != last.key;
      var k := IndexOf(h.cache.items, key);
      if k >= 0 {
        var d :| 0 <= d < |rest| && rest[d] == h.cache.items[k];
        assert all[d].key == key;
        LateOnesAreKept(all, kept, d);
        PushedOut(all, after.others, h.cache.max, d);
      } else if key in h.others {
        SubsetIsSmaller(h.others[key], after.others[key]);
      }
    }
  }

  lemma SuffixStays(all: seq<Item>, others: map<string, set<string>>, kept: seq<Item>)
    requires Distinct(all) && InOrder(all, others) && |kept| <= |all| && kept == all[|all| - |kept|..]
    ensures Distinct(kept) && InOrder(kept, others)
  {
    var n := |all| - |kept|;
    forall i, j | 0 <= i < j < |kept|
      ensures kept[i].key != kept[j].key && kept[i].key in others && kept[j].key in others[kept[i].key]
    {
      assert kept[i] == all[n + i] && kept[j] == all[n + j];
    }
    forall i | 0 <= i < |kept|
      ensures kept[i].key in others
    {
      assert kept[i] == all[n + i];
    }
  }

  lemma LateOnesAreKept(all: seq<Item>, kept: seq<Item>, d: nat)
    requires d < |all| && |kept| <= |all| && kept == all[|all| - |kept|..]
    ensures d + |kept| >= |all| ==> exists i :: 0 <= i < |kept| && kept[i] == all[d]
  {
    if d + |kept| >= |all| {
      assert kept[d - (|all| - |kept|)] == all[d];
    }
  }

  lemma ForgottenIsPicked(items: seq<Item>, key: string)
    requires Distinct(items)
    ensures Picked(Forget(items, key), items)
    ensures forall item :: item in Forget(items, key) <==> item in items && item.key != key
  {
    hide Picked;
    ForgetIsMinus(items, key);
    MinusMembers(items, {key});
    if IndexOf(items, key) >= 0 {
      WithoutIsPicked(items, IndexOf(items, key));
    } else {
      AllIsPicked(items);
    }
  }

  lemma PutAgrees(h: History, call: Call)
    requires Agrees(h) && OnTime(h, call) && call.Put?
    ensures Agrees(Lived(h, call))
  {
    hide Picked, InOrder, Forget, Distinct;
    var items, after := h.cache.items, Lived(h, call);
    if h.cache.max == 0 {
      NothingStored(h, call);
    } else {
      ForgottenIsPicked(items, call.key);
      var last := Item(call.key, call.now + h.cache.ttl, call.answer);
      assert Genuine(last, h.cache.ttl, after.plain);
      TouchAgrees(h, after, Forget(items, call.key), last);
    }
  }

  lemma NothingStored(h: History, call: Call)
    requires Agrees(h) && OnTime(h, call) && h.cache.max == 0 && call.Put?
    ensures Agrees(Lived(h, call))
  {
    forall key | key in Lived(h, call).plain
      ensures Gone(Lived(h, call), key)
    {
      assert key != call.key ==> Gone(h, key);
    }
  }

  lemma InvalidateAgrees(h: History, call: Call)
    requires Agrees(h) && call.Invalidate?
    ensures Agrees(Lived(h, call))
  {
    hide Picked, InOrder, Forget, IndexOf, Distinct;
    ForgottenIsPicked(h.cache.items, call.key);
    forall i | 0 <= i < |h.cache.items|
      ensures h.cache.items[i].key in h.plain
    {
      assert Genuine(h.cache.items[i], h.cache.ttl, h.plain);
    }
    TakingOutAgrees(h, Lived(h, call));
  }

  lemma ScanRaisedAgrees(h: History, call: Call)
    requires Agrees(h) && OnTime(h, call) && call.InvalidateWhere?
    requires FirstStale(h.cache.items, call.now) + 1 < |h.cache.items|
    ensures Agrees(Lived(h, call))
  {
    hide Picked, InOrder, IndexOf, Genuine;
    var items, i := h.cache.items, FirstStale(h.cache.items, call.now);
    WithoutIsPicked(items, i);
    MembersWithout(items, i);
    AllInPlain(h);
    assert Lived(h, call).cache.items == Without(items, i);
    TakingOutAgrees(h, Lived(h, call));
  }

  lemma AllInPlain(h: History)
    requires Agrees(h)
    ensures forall item :: item in h.cache.items ==>
      item.key in h.plain && item.answer == h.plain[item.key].answer
        && item.expires == h.plain[item.key].at + h.cache.ttl
  {
    forall i | 0 <= i < |h.cache.items|
      ensures Genuine(h.cache.items[i], h.cache.ttl, h.plain)
    {
    }
  }

  lemma ScanDoneAgrees(h: History, call: Call)
    requires Agrees(h) && OnTime(h, call) && call.InvalidateWhere?
    requires FirstStale(h.cache.items, call.now) + 1 >= |h.cache.items|
    ensures Agrees(Lived(h, call))
  {
    hide Picked, InOrder, IndexOf, Genuine, Hits, Spared, Distinct, Lived, Stale, Doomed;
    var items, i, after := h.cache.items, FirstStale(h.cache.items, call.now), Lived(h, call);
    var seen := items[..i];
    FrontIsPicked(items, i);
    SparedIsPicked(seen, call.doomed, call.now);
    ScanDone(h, call);
    PickedTwice(after.cache.items, seen, items);
    TakingOutAgrees(h, after);
  }

  /** What a finished scan leaves: the fresh that were not asked for. */
  lemma ScanDone(h: History, call: Call)
    requires Agrees(h) && call.InvalidateWhere? && FirstStale(h.cache.items, call.now) + 1 >= |h.cache.items|
    ensures var items, after := h.cache.items, Lived(h, call);
      && after.cache == h.cache.(items := Spared(items[..FirstStale(items, call.now)], call.doomed, call.now))
      && after.others == h.others && after.clock == Some(call.now)
      && (forall key :: key in after.plain ==> key in h.plain && after.plain[key] == h.plain[key])
      && (forall i :: 0 <= i < |after.cache.items| ==> after.cache.items[i].key in after.plain)
      && (forall i :: 0 <= i < |items| && items[i] !in after.cache.items && items[i].key in after.plain ==>
         items[i].expires <= call.now)
  {
    hide Picked, InOrder, IndexOf, Genuine, Hits, Spared, Distinct, FirstStale;
    var items, i, after := h.cache.items, FirstStale(h.cache.items, call.now), Lived(h, call);
    var seen := items[..i];
    SparedIsPicked(seen, call.doomed, call.now);
    AllInPlain(h);
    SeenIsFresh(items, call.now);
    forall k | 0 <= k < |after.cache.items|
      ensures after.cache.items[k].key in after.plain
    {
      assert after.cache.items[k] in after.cache.items;
    }
  }

  /** What the scan passes is fresh; what it does not pass has expired. */
  lemma SeenIsFresh(items: seq<Item>, now: Time)
    ensures var i := FirstStale(items, now);
      && (forall item :: item in items[..i] ==> item in items && !Stale(item, now))
      && (forall k :: 0 <= k < i ==> items[k] in items[..i])
      && (i < |items| ==> items[i].expires <= now)
  {
    var seen := items[..FirstStale(items, now)];
    forall k | 0 <= k < |seen|
      ensures seen[k] in items && !Stale(seen[k], now) && items[k] in seen
    {
      assert seen[k] == items[k];
    }
  }

  lemma PickedTwice(a: seq<Item>, b: seq<Item>, c: seq<Item>)
    requires Picked(a, b) && Picked(b, c)
    ensures Picked(a, c)
  {
    var x: seq<nat> :| PickedAt(a, b, x);
    var y: seq<nat> :| PickedAt(b, c, y);
    assert PickedAt(a, c, seq(|x|, i requires 0 <= i < |x| => y[x[i]]));
  }

  lemma ClearAgrees(h: History)
    requires Agrees(h)
    ensures Agrees(Lived(h, Clear))
  {
  }

  lemma AgreesNext(h: History, call: Call)
    requires Agrees(h) && OnTime(h, call)
    ensures Agrees(Lived(h, call))
  {
    hide Agrees, Lived;
    match call
    case Get(_, _) => GetAgrees(h, call);
    case Put(_, _, _) => PutAgrees(h, call);
    case Invalidate(_) => InvalidateAgrees(h, call);
    case Clear => ClearAgrees(h);
    case InvalidateWhere(_, now) =>
      if FirstStale(h.cache.items, now) + 1 < |h.cache.items| {
        ScanRaisedAgrees(h, call);
      } else {
        ScanDoneAgrees(h, call);
      }
  }

  // ---------------------------------------------------------------- every run

  /** The clock of a history is the last moment read. */
  lemma {:induction false} ClockIsLast(ttl: Time, max: nat, calls: seq<Call>)
    ensures var clock := Run(ttl, max, calls).clock;
      && (clock.Some? ==> exists i :: 0 <= i < |calls| && Moment(calls[i]) == clock)
    ensures Run(ttl, max, calls).cache.ttl == ttl && Run(ttl, max, calls).cache.max == max
  {
    if calls != [] {
      ClockIsLast(ttl, max, calls[..|calls| - 1]);
      var before, clock := Run(ttl, max, calls[..|calls| - 1]).clock, Run(ttl, max, calls).clock;
      if clock.Some? {
        if Moment(calls[|calls| - 1]).None? {
          var i :| 0 <= i < |calls| - 1 && Moment(calls[..|calls| - 1][i]) == before;
          assert Moment(calls[i]) == clock;
        }
      }
    }
  }

  lemma {:induction false} RunAgrees(ttl: Time, max: nat, calls: seq<Call>)
    requires Clocked(calls)
    ensures Agrees(Run(ttl, max, calls))
  {
    hide Agrees, Lived;
    if calls == [] {
      EmptyAgrees(ttl, max);
    } else {
      var front, last := calls[..|calls| - 1], calls[|calls| - 1];
      assert Clocked(front) by { FrontIsClocked(calls); }
      RunAgrees(ttl, max, front);
      NextOnTime(ttl, max, front, last);
      AgreesNext(Run(ttl, max, front), last);
    }
  }

  lemma FrontIsClocked(calls: seq<Call>)
    requires Clocked(calls) && calls != []
    ensures Clocked(calls[..|calls| - 1]) && calls[..|calls| - 1] + [calls[|calls| - 1]] == calls
  {
  }

  lemma NextOnTime(ttl: Time, max: nat, calls: seq<Call>, next: Call)
    requires Clocked(calls + [next])
    ensures OnTime(Run(ttl, max, calls), next)
  {
    hide Run;
    ClockIsLast(ttl, max, calls);
    var clock := Run(ttl, max, calls).clock;
    if clock.Some? && Moment(next).Some? {
      var i :| 0 <= i < |calls| && Moment(calls[i]) == clock;
      assert (calls + [next])[i] == calls[i] && (calls + [next])[|calls|] == next;
    }
  }

  lemma EmptyAgrees(ttl: Time, max: nat)
    ensures Agrees(Run(ttl, max, []))
  {
  }

  /**
   In every run with a clock that does not run backwards: a `get` answers only what the plain map holds
   and only while it is young enough; and it does answer that, unless `max` other keys were put or hit
   since this one was. The size never exceeds the maximum.
   */
  lemma CacheIsAPlainMap(ttl: Time, max: nat, calls: seq<Call>, key: string, now: Time)
    requires Clocked(calls + [Get(key, now)])
    ensures var h := Run(ttl, max, calls);
      var result := After(h.cache, Get(key, now)).1;
      && |h.cache.items| <= max
      && (result.Found? ==> key in h.plain && result.answer == h.plain[key].answer && now < h.plain[key].at + ttl)
      && (key in h.plain && now < h.plain[key].at + ttl && key in h.others && |h.others[key]| < max ==>
           result == Found(h.plain[key].answer))
      && (key in h.plain ==> key in h.others)
  {
    hide Run, Remembered, OthersAfter, InOrder, Distinct;
    var h := Run(ttl, max, calls);
    ClockIsLast(ttl, max, calls);
    assert Clocked(calls) by {
      assert (calls + [Get(key, now)])[..|calls + [Get(key, now)]| - 1] == calls;
      FrontIsClocked(calls + [Get(key, now)]);
    }
    RunAgrees(ttl, max, calls);
    NextOnTime(ttl, max, calls, Get(key, now));
    PutKeysHaveOthers(ttl, max, calls);
    AllInPlain(h);
    var i := IndexOf(h.cache.items, key);
    if key in h.plain && i < 0 {
      assert Gone(h, key);
    }
  }

  lemma {:induction false} PutKeysHaveOthers(ttl: Time, max: nat, calls: seq<Call>)
    ensures forall key :: key in Run(ttl, max, calls).plain ==> key in Run(ttl, max, calls).others
  {
    hide After;
    if calls != [] {
      PutKeysHaveOthers(ttl, max, calls[..|calls| - 1]);
    }
  }

  // ---------------------------------------------------------------- what the calls count

  ghost predicate Holds(items: seq<Item>, key: string) {
    exists i :: 0 <= i < |items| && items[i].key == key
  }

  ghost predicate HoldsExpired(items: seq<Item>, now: Time) {
    exists i :: 0 <= i < |items| && items[i].answer.Identity? && items[i].expires <= now
  }

  /** A put loses as many entries as it counts evictions, and loses one only when the cache is full. */
  lemma PutCounts(c: Cache, key: string, answer: Answer, now: Time)
    requires Distinct(c.items) && |c.items| <= c.max
    ensures var after := After(c, Put(key, answer, now)).0;
      if c.max == 0 then after == c
      else
        && |after.items| + after.evictions
           == |c.items| + c.evictions + (if Holds(c.items, key) then 0 else 1)
        && (after.evictions != c.evictions ==> |after.items| == c.max)
        && c.evictions <= after.evictions
  {
    hide Forget, IndexOf, Holds, Distinct;
    HeldIsFound(c.items, key);
  }

  lemma HeldIsFound(items: seq<Item>, key: string)
    ensures IndexOf(items, key) >= 0 <==> Holds(items, key)
    ensures |Forget(items, key)| == |items| - if Holds(items, key) then 1 else 0
  {
  }

  /** Taking back answers for what was taken: whether the key was held, how many identities went, and how many were. */
  lemma TakingBackCounts(c: Cache, call: Call)
    requires Distinct(c.items) && (call.Invalidate? || call.InvalidateWhere? || call.Clear?)
    ensures var (after, result) := After(c, call);
      && after.evictions == c.evictions
      && (call.Invalidate? ==>
            && result == Dropped(Holds(c.items, call.key))
            && |after.items| == |c.items| - if Holds(c.items, call.key) then 1 else 0)
      && (call.InvalidateWhere? && !result.Raised? ==>
            && result.Counted?
            && |after.items| + result.count == |c.items| - if HoldsExpired(c.items, call.now) then 1 else 0)
      && (call.Clear? ==> result == Counted(|c.items|) && after.items == [])
  {
    hide Spared, Hits;
    if call.Invalidate? { HeldIsFound(c.items, call.key); }
    if call.InvalidateWhere? {
      var i := FirstStale(c.items, call.now);
      if i + 1 >= |c.items| {
        SparedIsTheRest(c.items[..i], call.doomed, call.now);
        assert i < |c.items| <==> HoldsExpired(c.items, call.now);
      }
    }
  }

  // ---------------------------------------------------------------- when the scan raises

  /**
   `invalidate_where` raises if and only if an expired identity is not the last entry; then nothing it was
   asked to take back is taken back. Else no fresh identity it was asked to take back is left.
   */
  lemma ScanRaisesIff(c: Cache, doomed: set<Answer>, now: Time)
    requires Distinct(c.items)
    ensures var (after, result) := After(c, InvalidateWhere(doomed, now));
      && (result.Raised? <==>
            exists i :: 0 <= i < |c.items| - 1 && c.items[i].answer.Identity? && c.items[i].expires <= now)
      && (result.Raised? ==> forall item :: item in c.items && now < item.expires ==> item in after.items)
      && (!result.Raised? ==> forall item :: item in after.items <==>
           item in c.items && (item.answer.Reject? || (now < item.expires && item.answer !in doomed)))
  {
    hide Hits, Spared, Picked;
    var i := FirstStale(c.items, now);
    if i + 1 < |c.items| {
      MembersWithout(c.items, i);
    } else {
      var seen := c.items[..i];
      SparedIsPicked(seen, doomed, now);
      forall item
        ensures item in seen <==> item in c.items && !Stale(item, now)
      {
        if item in seen {
          var k :| 0 <= k < |seen| && seen[k] == item;
          assert c.items[k] == item;
        }
        if item in c.items && !Stale(item, now) {
          var k :| 0 <= k < |c.items| && c.items[k] == item;
          assert k < i && seen[k] == item;
        }
      }
    }
  }

  /** A matching identity survives its invalidation: an older entry had expired unnoticed. */
  lemma RaisingScanSparesTheDoomed()
    ensures var first, wanted := Identity(1), Identity(2);
      var h := Run(10, 4, [Put("a", first, 0), Put("b", wanted, 5), InvalidateWhere({wanted}, 12)]);
      After(h.cache, Get("b", 12)).1 == Found(wanted)
  {
    hide After;
    var first, wanted := Identity(1), Identity(2);
    var c0, c1, c2 := Put("a", first, 0), Put("b", wanted, 5), InvalidateWhere({wanted}, 12);
    assert [c0, c1, c2][..2] == [c0, c1] && [c0, c1][..1] == [c0] && [c0][..0] == [];
    var calls: seq<Call> := [];
    assert Run(10, 4, calls).cache == Cache(10, 4, [], 0);
    assert Run(10, 4, [c0]) == Lived(Run(10, 4, calls), c0);
    assert Run(10, 4, [c0, c1]) == Lived(Run(10, 4, [c0]), c1);
    assert Run(10, 4, [c0, c1, c2]) == Lived(Run(10, 4, [c0, c1]), c2);
    ScanOfTwo(Item("a", 10, first), Item("b", 15, wanted));
  }

  lemma IndexInOne(item: Item, key: string)
    ensures IndexOf([item], key) == if item.key == key then 0 else -1
  {
    assert [item][..0] == [];
  }

  lemma ScanOfTwo(a: Item, b: Item)
    requires a == Item("a", 10, Identity(1)) && b == Item("b", 15, Identity(2))
    ensures After(Cache(10, 4, [], 0), Put("a", a.answer, 0)).0 == Cache(10, 4, [a], 0)
    ensures After(Cache(10, 4, [a], 0), Put("b", b.answer, 5)).0 == Cache(10, 4, [a, b], 0)
    ensures After(Cache(10, 4, [a, b], 0), InvalidateWhere({b.answer}, 12)).0 == Cache(10, 4, [b], 0)
    ensures After(Cache(10, 4, [b], 0), Get("b", 12)).1 == Found(b.answer)
  {
    hide After;
    PutTwo(a, b);
    ScanTwo(a, b);
    GetOne(b);
  }

  lemma PutTwo(a: Item, b: Item)
    requires a == Item("a", 10, Identity(1)) && b == Item("b", 15, Identity(2))
    ensures After(Cache(10, 4, [], 0), Put("a", a.answer, 0)).0 == Cache(10, 4, [a], 0)
    ensures After(Cache(10, 4, [a], 0), Put("b", b.answer, 5)).0 == Cache(10, 4, [a, b], 0)
  {
    hide IndexOf, FirstStale, Hits, Spared;
    var none: seq<Item> := [];
    assert IndexOf(none, "a") == -1;
    IndexInOne(a, "b");
    assert none + [a] == [a] && [a] + [b] == [a, b];
  }

  lemma ScanTwo(a: Item, b: Item)
    requires a == Item("a", 10, Identity(1)) && b == Item("b", 15, Identity(2))
    ensures After(Cache(10, 4, [a, b], 0), InvalidateWhere({b.answer}, 12)).0 == Cache(10, 4, [b], 0)
  {
    hide IndexOf, FirstStale, Hits, Spared;
    assert Without([a, b], 0) == [b];
    assert FirstStale([a, b], 12) == 0 by { assert Stale([a, b][0], 12) && !Stale([a, b][1], 12); }
  }

  lemma GetOne(b: Item)
    requires b == Item("b", 15, Identity(2))
    ensures After(Cache(10, 4, [b], 0), Get("b", 12)).1 == Found(b.answer)
  {
    hide IndexOf, FirstStale, Hits, Spared;
    IndexInOne(b, "b");
  }
}
