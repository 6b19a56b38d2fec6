/**
 Packing the items of a session into NOTIFY payloads under a byte limit.

 Only the encoded size of each item matters. An encoded batch is its items with a comma between them,
 inside two brackets.
 */
module NotifyBatches {

  /** The largest payload NOTIFY carries, and the room kept for what wraps a batch of live items. */
  const NOTIFY_LIMIT := 8000
  const LIVE_HEADROOM := 256

  function Total<T>(items: seq<T>, size: T -> nat): (n: nat)
    ensures n >= |items|
  {
    if items == [] then 0 else Total(items[..|items| - 1], size) + size(items[|items| - 1]) + 1
  }

  /** The bytes of the batch as a JSON array. */
  function EncodedSize<T>(batch: seq<T>, size: T -> nat): nat {
    if batch == [] then 2 else 2 + Total(batch, size) - 1
  }

  function Concat<T>(split: seq<seq<T>>): seq<T> {
    if split == [] then [] else Concat(split[..|split| - 1]) + split[|split| - 1]
  }

  /** Contiguous non-empty batches; one of several items encodes to less than the limit. */
  ghost predicate Fits<T>(split: seq<seq<T>>, size: T -> nat, limit: int) {
    forall i :: 0 <= i < |split| ==> split[i] != [] && (|split[i]| > 1 ==> EncodedSize(split[i], size) < limit)
  }

  /** No batch had room for the first item of the next. */
  ghost predicate Full<T>(split: seq<seq<T>>, size: T -> nat, limit: int) {
    forall i :: 0 <= i < |split| - 1 && split[i + 1] != [] ==> EncodedSize(split[i] + [split[i + 1][0]], size) >= limit
  }

  /** What was put aside, and the batch being filled if there is one. */
  ghost function WithCurrent<T>(batches: seq<seq<T>>, current: seq<T>): seq<seq<T>> {
    if current == [] then batches else batches + [current]
  }

  method SplitNotifyBatches<T>(items: seq<T>, size: T -> nat, limit: int) returns (batches: seq<seq<T>>)
    ensures Concat(batches) == items
    ensures Fits(batches, size, limit) && Full(batches, size, limit)
  {
    hide Fits, Full, EncodedSize, Concat, Total;
    batches := [];
    var current: seq<T> := [];
    var currentSize := 2;
    NoBatches(size, limit);
    for k := 0 to |items|
      invariant Concat(WithCurrent(batches, current)) == items[..k]
      invariant if k == 0 then batches == [] && current == [] else current != []
      invariant currentSize == 2 + Total(current, size)
      invariant Fits(WithCurrent(batches, current), size, limit) && Full(WithCurrent(batches, current), size, limit)
    {
      var item := items[k];
      var cost := size(item);
      if current != [] && currentSize + 1 + cost > limit {
        OpenABatch(batches, current, item, size, limit);
        ConcatGrows(batches, current);
        batches := batches + [current];
        current := [];
        currentSize := 2;
      } else {
        FillTheBatch(batches, current, item, size, limit);
        ConcatGrows(batches, current);
      }
      ConcatGrows(batches, current + [item]);
      TotalGrows(current, item, size);
      current := current + [item];
      currentSize := currentSize + cost + 1;
    }
    if current != [] {
      batches := batches + [current];
    }
    assert items[..|items|] == items;
  }

  lemma TotalGrows<T>(items: seq<T>, item: T, size: T -> nat)
    ensures Total(items + [item], size) == Total(items, size) + size(item) + 1
  {
    assert (items + [item])[..|items|] == items;
  }

  lemma NoBatches<T>(size: T -> nat, limit: int)
    ensures Fits<T>([], size, limit) && Full<T>([], size, limit)
    ensures Concat<T>([]) == [] && Total<T>([], size) == 0
  {
  }

  lemma FillTheBatch<T>(batches: seq<seq<T>>, current: seq<T>, item: T, size: T -> nat, limit: int)
    requires Fits(WithCurrent(batches, current), size, limit) && Full(WithCurrent(batches, current), size, limit)
    requires if current == [] then batches == [] else 2 + Total(current, size) + 1 + size(item) <= limit
    ensures Fits(batches + [current + [item]], size, limit) && Full(batches + [current + [item]], size, limit)
  {
    var before, after := WithCurrent(batches, current), batches + [current + [item]];
    assert (current + [item])[..|current|] == current;
    forall i | 0 <= i < |after|
      ensures after[i] != [] && (|after[i]| > 1 ==> EncodedSize(after[i], size) < limit)
    {
      if i < |batches| { assert after[i] == before[i]; }
    }
    forall i | 0 <= i < |after| - 1
      ensures EncodedSize(after[i] + [after[i + 1][0]], size) >= limit
    {
      assert after[i] == before[i] && after[i + 1][0] == before[i + 1][0];
    }
  }

  lemma OpenABatch<T>(batches: seq<seq<T>>, current: seq<T>, item: T, size: T -> nat, limit: int)
    requires Fits(batches + [current], size, limit) && Full(batches + [current], size, limit)
    requires current != [] && 2 + Total(current, size) + 1 + size(item) > limit
    ensures Fits(batches + [current] + [[] + [item]], size, limit)
    ensures Full(batches + [current] + [[] + [item]], size, limit)
  {
    var before, after := batches + [current], batches + [current] + [[] + [item]];
    assert (current + [item])[..|current|] == current;
    forall i | 0 <= i < |after| - 1
      ensures EncodedSize(after[i] + [after[i + 1][0]], size) >= limit
    {
      assert after[i] == before[i];
      if i + 1 < |before| { assert after[i + 1] == before[i + 1]; }
    }
    forall i | 0 <= i < |after|
      ensures after[i] != [] && (|after[i]| > 1 ==> EncodedSize(after[i], size) < limit)
    {
      if i < |before| { assert after[i] == before[i]; }
    }
  }

  // ---------------------------------------------------------------- few batches

  /** How many items the first k batches hold. */
  ghost function Covered<T>(split: seq<seq<T>>, k: nat): nat
    requires k <= |split|
  {
    |Concat(split[..k])|
  }

  lemma ConcatGrows<T>(split: seq<seq<T>>, batch: seq<T>)
    ensures Concat(split + [batch]) == Concat(split) + batch
  {
    assert (split + [batch])[..|split|] == split;
  }

  lemma ConcatOfNone<T>()
    ensures Concat<T>([]) == []
  {
  }

  lemma {:induction false} ConcatJoins<T>(a: seq<seq<T>>, b: seq<seq<T>>)
    ensures Concat(a + b) == Concat(a) + Concat(b)
  {
    hide Concat;
    if b == [] {
      assert a + b == a;
      ConcatOfNone<T>();
      assert Concat(a) + [] == Concat(a);
    } else {
      var front, last := b[..|b| - 1], b[|b| - 1];
      ConcatJoins(a, front);
      ConcatGrows(a + front, last);
      ConcatGrows(front, last);
      assert a + b == (a + front) + [last] && front + [last] == b;
    }
  }

  /** A batch is a slice of the items. */
  lemma BatchIsASlice<T>(split: seq<seq<T>>, k: nat)
    requires k < |split|
    ensures Covered(split, k) + |split[k]| == Covered(split, k + 1) <= |Concat(split)|
    ensures split[k] == Concat(split)[Covered(split, k)..Covered(split, k + 1)]
  {
    assert split[..k + 1][..k] == split[..k];
    assert split == split[..k + 1] + split[k + 1..];
    ConcatJoins(split[..k + 1], split[k + 1..]);
  }

  lemma {:induction false} TotalJoins<T>(a: seq<T>, b: seq<T>, size: T -> nat)
    ensures Total(a + b, size) == Total(a, size) + Total(b, size)
  {
    if b == [] {
      assert a + b == a;
    } else {
      assert (a + b)[..|a + b| - 1] == a + b[..|b| - 1];
      TotalJoins(a, b[..|b| - 1], size);
    }
  }

  lemma SliceCostsLess<T>(items: seq<T>, size: T -> nat, a: nat, c: nat, e: nat, b: nat)
    requires a <= c < e <= b <= |items|
    ensures EncodedSize(items[c..e], size) <= EncodedSize(items[a..b], size)
  {
    assert items[a..b] == items[a..c] + items[c..e] + items[e..b];
    TotalJoins(items[a..c] + items[c..e], items[e..b], size);
    TotalJoins(items[a..c], items[c..e], size);
  }

  /** The first k full batches hold at least as many items as the first k batches of any split that fits. */
  lemma {:induction false} FullBatchesStayAhead<T>(full: seq<seq<T>>, other: seq<seq<T>>, size: T -> nat, limit: int,
                                                   k: nat)
    requires Fits(full, size, limit) && Full(full, size, limit) && Fits(other, size, limit)
    requires Concat(full) == Concat(other) && k <= |full| && k <= |other|
    ensures Covered(full, k) >= Covered(other, k)
  {
    hide EncodedSize;
    if k > 0 {
      FullBatchesStayAhead(full, other, size, limit, k - 1);
      BatchIsASlice(full, k - 1);
      BatchIsASlice(other, k - 1);
      if k == |full| {
        assert full[..k] == full;
      } else if Covered(full, k) < Covered(other, k) {
        OvertakingOverflows(full, other, size, limit, k - 1);
        assert false;
      }
    }
  }

  /** A batch that starts no later and ends later than a full one is too big. */
  lemma OvertakingOverflows<T>(full: seq<seq<T>>, other: seq<seq<T>>, size: T -> nat, limit: int, k: nat)
    requires Fits(full, size, limit) && Full(full, size, limit)
    requires Concat(full) == Concat(other) && k + 1 < |full| && k < |other|
    requires Covered(other, k) <= Covered(full, k) && Covered(full, k + 1) < Covered(other, k + 1)
    ensures |other[k]| > 1 && EncodedSize(other[k], size) >= limit
  {
    hide *;
    BatchIsASlice(full, k);
    BatchIsASlice(full, k + 1);
    BatchIsASlice(other, k);
    FullAt(full, size, limit, k);
    var items := Concat(full);
    var a, c, e, b := Covered(other, k), Covered(full, k), Covered(full, k + 1), Covered(other, k + 1);
    AndTheNext(items, c, e, Covered(full, k + 2));
    SliceCostsLess(items, size, a, c, e + 1, b);
  }

  lemma FullAt<T>(full: seq<seq<T>>, size: T -> nat, limit: int, k: nat)
    requires Fits(full, size, limit) && Full(full, size, limit) && k + 1 < |full|
    ensures full[k] != [] && full[k + 1] != [] && EncodedSize(full[k] + [full[k + 1][0]], size) >= limit
  {
  }

  lemma AndTheNext<T>(items: seq<T>, c: nat, e: nat, g: nat)
    requires c <= e < g <= |items|
    ensures items[c..e] + [items[e..g][0]] == items[c..e + 1]
  {
  }

  /** No way of cutting the items into batches that fit uses fewer batches. */
  lemma FullBatchesAreFewest<T>(full: seq<seq<T>>, other: seq<seq<T>>, size: T -> nat, limit: int)
    requires Fits(full, size, limit) && Full(full, size, limit) && Fits(other, size, limit)
    requires Concat(full) == Concat(other)
    ensures |full| <= |other|
  {
    if |other| < |full| {
      var n := |other|;
      FullBatchesStayAhead(full, other, size, limit, n);
      assert other[..n] == other;
      BatchIsASlice(full, n);
      assert false;
    }
  }

  /** The items and the limit determine the batches. */
  lemma FullBatchesAreUnique<T>(full: seq<seq<T>>, other: seq<seq<T>>, size: T -> nat, limit: int)
    requires Fits(full, size, limit) && Full(full, size, limit)
    requires Fits(other, size, limit) && Full(other, size, limit)
    requires Concat(full) == Concat(other)
    ensures full == other
  {
    hide Fits, Full, Concat, Covered;
    FullBatchesAreFewest(full, other, size, limit);
    FullBatchesAreFewest(other, full, size, limit);
    forall k | 0 <= k < |full|
      ensures full[k] == other[k]
    {
      FullBatchesStayAhead(full, other, size, limit, k);
      FullBatchesStayAhead(other, full, size, limit, k);
      FullBatchesStayAhead(full, other, size, limit, k + 1);
      FullBatchesStayAhead(other, full, size, limit, k + 1);
      BatchIsASlice(full, k);
      BatchIsASlice(other, k);
    }
  }
}
