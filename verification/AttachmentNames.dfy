/**
 Safe names for attached files, and free paths for them.

 Which characters Unicode calls control, format, private, unassigned or separators, and which it calls
 white space, are the two predicates `dropped` and `space`.
 */
module AttachmentNames {
  import opened Decimal

  const MAX_NAME_BYTES := 200
  const MAX_EXTENSION_BYTES := 16
  const ATTACHMENTS_DIR := "attachments"

  /** The bytes of a character in UTF-8 (section 3 of RFC 3629). */
  function Width(c: char): (n: nat)
    ensures 1 <= n <= 4
  {
    var code := c as int;
    if code < 0x80 then 1 else if code < 0x800 then 2 else if code < 0x1_0000 then 3 else 4
  }

  function Bytes(s: string): (n: nat)
    ensures n >= |s|
  {
    if s == [] then 0 else Bytes(s[..|s| - 1]) + Width(s[|s| - 1])
  }

  predicate Separator(c: char) {
    c == '/' || c == '\\'
  }

  function LastSegment(s: string): (r: string)
    ensures forall i :: 0 <= i < |r| ==> !Separator(r[i]) && r[i] in s
  {
    if s == [] || Separator(s[|s| - 1]) then [] else LastSegment(s[..|s| - 1]) + [s[|s| - 1]]
  }

  function Kept(s: string, dropped: char -> bool): (r: string)
    ensures forall i :: 0 <= i < |r| ==> !dropped(r[i]) && r[i] in s
  {
    if s == [] then [] else Kept(s[..|s| - 1], dropped) + (if dropped(s[|s| - 1]) then [] else [s[|s| - 1]])
  }

  /** Without white space at either end. */
  function Strip(s: string, space: char -> bool): (r: string)
    ensures forall i :: 0 <= i < |r| ==> r[i] in s
    ensures r != [] ==> !space(r[0]) && !space(r[|r| - 1])
  {
    if s == [] then []
    else if space(s[0]) then Strip(s[1..], space)
    else if space(s[|s| - 1]) then Strip(s[..|s| - 1], space)
    else s
  }

  /** The cleaned last segment, before anything is cut. */
  function Cleaned(filename: string, dropped: char -> bool, space: char -> bool): string {
    var name := Strip(Kept(LastSegment(filename), dropped), space);
    if name == "" || name == "." || name == ".." then "file" else name
  }

  /** The position of the last dot, or -1. */
  function LastDot(s: string): (i: int)
    ensures -1 <= i < |s|
    ensures i >= 0 ==> s[i] == '.'
    ensures forall k :: i < k < |s| ==> s[k] != '.'
  {
    if s == [] then -1 else if s[|s| - 1] == '.' then |s| - 1 else LastDot(s[..|s| - 1])
  }

  /** The part a cut keeps: the extension, if it is short and has a stem. */
  function Tail(name: string): (tail: string)
    ensures |tail| <= |name| && tail == name[|name| - |tail|..]
    ensures tail != [] ==>
      |tail| < |name| && tail[0] == '.' && '.' !in tail[1..] && Bytes(tail[1..]) <= MAX_EXTENSION_BYTES
    ensures tail == [] ==>
      forall i :: 0 < i < |name| && name[i] == '.' && '.' !in name[i + 1..] ==>
        Bytes(name[i + 1..]) > MAX_EXTENSION_BYTES
  {
    var i := LastDot(name);
    if i > 0 && Bytes(name[i + 1..]) <= MAX_EXTENSION_BYTES then name[i..] else []
  }

  /** The longest prefix that still fits in front of the tail. */
  function Cut(head: string, tail: string): string {
    if head == [] || Bytes(head + tail) <= MAX_NAME_BYTES then head else Cut(head[..|head| - 1], tail)
  }

  function SafeName(filename: string, dropped: char -> bool, space: char -> bool): string {
    var name := Cleaned(filename, dropped, space);
    if Bytes(name) <= MAX_NAME_BYTES then name
    else
      var tail := Tail(name);
      Cut(name[..|name| - |tail|], tail) + tail
  }

  method AttachmentName(filename: string, dropped: char -> bool, space: char -> bool) returns (name: string)
    ensures name == SafeName(filename, dropped, space)
  {
    hide Cleaned, Bytes, LastDot;
    name := Cleaned(filename, dropped, space);
    if Bytes(name) <= MAX_NAME_BYTES {
      return;
    }
    var dot := LastDot(name);
    var tail := "";
    if dot > 0 && Bytes(name[dot + 1..]) <= MAX_EXTENSION_BYTES {
      tail := name[dot..];
    }
    TailIsShort(name);
    var head := CutToFit(name[..|name| - |tail|], tail);
    name := head + tail;
  }

  method CutToFit(whole: string, tail: string) returns (head: string)
    requires Bytes(tail) <= MAX_NAME_BYTES
    ensures head == Cut(whole, tail)
  {
    hide Bytes;
    head := whole;
    assert [] + tail == tail;
    while Bytes(head + tail) > MAX_NAME_BYTES
      invariant Cut(head, tail) == Cut(whole, tail)
      decreases |head|
    {
      head := head[..|head| - 1];
    }
  }

  // ---------------------------------------------------------------- what a safe name is

  lemma {:induction false} BytesJoin(a: string, b: string)
    ensures Bytes(a + b) == Bytes(a) + Bytes(b)
  {
    if b == [] {
      assert a + b == a;
    } else {
      assert (a + b)[..|a + b| - 1] == a + b[..|b| - 1];
      BytesJoin(a, b[..|b| - 1]);
    }
  }

  lemma TailIsShort(name: string)
    ensures Bytes(Tail(name)) <= MAX_EXTENSION_BYTES + 1
  {
    var i := LastDot(name);
    if i > 0 {
      assert name[i..] == ['.'] + name[i + 1..];
      BytesJoin(['.'], name[i + 1..]);
      assert ['.'][..0] == [];
    }
  }

  /** What is cut is as little as the limit asks for. */
  lemma {:induction false} CutIsLongest(head: string, tail: string)
    requires Bytes(tail) <= MAX_NAME_BYTES
    ensures var cut := Cut(head, tail);
      && |cut| <= |head| && cut == head[..|cut|] && Bytes(cut + tail) <= MAX_NAME_BYTES
      && (|cut| < |head| ==> Bytes(head[..|cut| + 1] + tail) > MAX_NAME_BYTES)
  {
    if head == [] {
      assert head + tail == tail;
    } else if Bytes(head + tail) > MAX_NAME_BYTES {
      CutIsLongest(head[..|head| - 1], tail);
      var cut := Cut(head, tail);
      if |cut| == |head| - 1 {
        assert head[..|cut| + 1] == head;
      } else {
        assert head[..|head| - 1][..|cut| + 1] == head[..|cut| + 1];
      }
    }
  }

  ghost predicate SegmentFrom(s: string, n: nat, r: string) {
    && n <= |s| && r == s[n..] && (n > 0 ==> Separator(s[n - 1]))
    && forall k :: n <= k < |s| ==> !Separator(s[k])
  }

  lemma SegmentNext(s: string, n: nat, r: string)
    requires s != [] && SegmentFrom(s[..|s| - 1], n, r) && !Separator(s[|s| - 1])
    ensures SegmentFrom(s, n, r + [s[|s| - 1]])
  {
    var front := s[..|s| - 1];
    assert s[n..] == front[n..] + [s[|s| - 1]];
    forall k | n <= k < |s|
      ensures !Separator(s[k])
    {
      if k < |front| { assert front[k] == s[k]; }
    }
  }

  lemma SegmentAtEnd(s: string)
    requires s == [] || Separator(s[|s| - 1])
    ensures SegmentFrom(s, |s|, [])
  {
  }

  /** The last segment is what follows the last separator. */
  lemma {:induction false} SegmentIsLast(s: string) returns (n: nat)
    ensures SegmentFrom(s, n, LastSegment(s))
  {
    hide SegmentFrom;
    if s == [] || Separator(s[|s| - 1]) {
      n := |s|;
      SegmentAtEnd(s);
    } else {
      n := SegmentIsLast(s[..|s| - 1]);
      SegmentNext(s, n, LastSegment(s[..|s| - 1]));
    }
  }

  /** The places of the characters that are not dropped. */
  ghost predicate KeptAt(s: string, dropped: char -> bool, kept: string, at: seq<nat>) {
    && |at| == |kept| && (forall i :: 0 <= i < |at| ==> at[i] < |s| && kept[i] == s[at[i]])
    && (forall i, j :: 0 <= i < j < |at| ==> at[i] < at[j])
    && (forall k :: 0 <= k < |s| ==> (k in at <==> !dropped(s[k])))
  }

  lemma KeptNext(s: string, dropped: char -> bool, kept: string, at: seq<nat>)
    requires s != [] && KeptAt(s[..|s| - 1], dropped, kept, at)
    ensures var n := |s| - 1;
      if dropped(s[n]) then KeptAt(s, dropped, kept, at) else KeptAt(s, dropped, kept + [s[n]], at + [n])
  {
    var n := |s| - 1;
    var front := s[..n];
    assert forall k :: k in at ==> k < n;
    forall k | 0 <= k < n
      ensures k in at <==> !dropped(s[k])
    {
      assert front[k] == s[k];
    }
  }

  /** What is kept are exactly the characters not dropped, in their order. */
  lemma {:induction false} KeptInOrder(s: string, dropped: char -> bool) returns (at: seq<nat>)
    ensures KeptAt(s, dropped, Kept(s, dropped), at)
  {
    hide KeptAt;
    if s == [] {
      at := [];
      NothingKept(dropped);
    } else {
      var n := |s| - 1;
      var front := KeptInOrder(s[..n], dropped);
      KeptNext(s, dropped, Kept(s[..n], dropped), front);
      at := if dropped(s[n]) then front else front + [n];
      assert dropped(s[n]) ==> Kept(s[..n], dropped) + [] == Kept(s[..n], dropped);
    }
  }

  lemma NothingKept(dropped: char -> bool)
    ensures KeptAt([], dropped, [], [])
  {
  }

  /** What is stripped at either end is white space. */
  ghost predicate StrippedAt(s: string, space: char -> bool, r: string, i: nat) {
    && i + |r| <= |s| && r == s[i..i + |r|]
    && (forall k :: 0 <= k < i || i + |r| <= k < |s| ==> space(s[k]))
    && (r != [] ==> !space(r[0]) && !space(r[|r| - 1]))
  }

  lemma StrippedInFront(s: string, space: char -> bool, r: string, j: nat)
    requires s != [] && space(s[0]) && StrippedAt(s[1..], space, r, j)
    ensures StrippedAt(s, space, r, j + 1)
  {
    var rest := s[1..];
    forall k | 0 <= k < j + 1 || j + 1 + |r| <= k < |s|
      ensures space(s[k])
    {
      if k > 0 { assert rest[k - 1] == s[k]; }
    }
  }

  lemma StrippedBehind(s: string, space: char -> bool, r: string, i: nat)
    requires s != [] && space(s[|s| - 1]) && StrippedAt(s[..|s| - 1], space, r, i)
    ensures StrippedAt(s, space, r, i)
  {
    var front := s[..|s| - 1];
    forall k | 0 <= k < i || i + |r| <= k < |s|
      ensures space(s[k])
    {
      if k < |front| { assert front[k] == s[k]; }
    }
  }

  lemma NothingStripped(s: string, space: char -> bool)
    requires s == [] || (!space(s[0]) && !space(s[|s| - 1]))
    ensures StrippedAt(s, space, s, 0)
  {
  }

  lemma {:induction false} StripTakesSpaces(s: string, space: char -> bool) returns (i: nat)
    ensures StrippedAt(s, space, Strip(s, space), i)
  {
    hide StrippedAt;
    if s == [] || (!space(s[0]) && !space(s[|s| - 1])) {
      NothingStripped(s, space);
      i := 0;
    } else if space(s[0]) {
      var j := StripTakesSpaces(s[1..], space);
      StrippedInFront(s, space, Strip(s[1..], space), j);
      i := j + 1;
    } else {
      i := StripTakesSpaces(s[..|s| - 1], space);
      StrippedBehind(s, space, Strip(s[..|s| - 1], space), i);
    }
  }

  lemma SegmentEnds(s: string, n: nat, r: string)
    requires SegmentFrom(s, n, r)
    ensures n <= |s| && r == s[n..]
  {
  }

  /** The cleaned name, without naming how it is found: the last segment, less what is dropped, less its ends. */
  lemma CleanedIsTheLastSegment(filename: string, dropped: char -> bool, space: char -> bool)
    returns (n: nat, kept: string, at: seq<nat>, name: string, i: nat)
    ensures n <= |filename| && SegmentFrom(filename, n, filename[n..])
    ensures KeptAt(filename[n..], dropped, kept, at) && StrippedAt(kept, space, name, i)
    ensures Cleaned(filename, dropped, space) == if name in {"", ".", ".."} then "file" else name
  {
    hide Kept, Strip, KeptAt, StrippedAt, LastSegment, SegmentFrom;
    var segment := LastSegment(filename);
    n := SegmentIsLast(filename);
    SegmentEnds(filename, n, segment);
    kept := Kept(segment, dropped);
    at := KeptInOrder(segment, dropped);
    name := Strip(kept, space);
    i := StripTakesSpaces(kept, space);
  }

  /** The letters of the fallback name are not among those dropped. */
  predicate KeepsLetters(dropped: char -> bool) {
    !dropped('f') && !dropped('i') && !dropped('l') && !dropped('e')
  }

  lemma CleanedIsClean(filename: string, dropped: char -> bool, space: char -> bool)
    requires KeepsLetters(dropped)
    ensures var name := Cleaned(filename, dropped, space);
      && name != "" && name != "." && name != ".."
      && forall i :: 0 <= i < |name| ==> !Separator(name[i]) && !dropped(name[i])
  {
    hide Strip, Kept, LastSegment;
    var segment := LastSegment(filename);
    var kept := Kept(segment, dropped);
    var name := Strip(kept, space);
    forall i | 0 <= i < |name|
      ensures !Separator(name[i]) && !dropped(name[i])
    {
      var j :| 0 <= j < |kept| && kept[j] == name[i];
      var k :| 0 <= k < |segment| && segment[k] == kept[j];
    }
  }

  /**
   Whatever the file name: a name of at most 200 bytes, that is no path and no dot name, without dropped
   characters; the cleaned name itself if it fits, else its longest fitting prefix with the extension.
   */
  lemma SafeNameIsSafe(filename: string, dropped: char -> bool, space: char -> bool)
    requires KeepsLetters(dropped)
    ensures var name, whole := SafeName(filename, dropped, space), Cleaned(filename, dropped, space);
      && Bytes(name) <= MAX_NAME_BYTES && name != "" && name != "." && name != ".."
      && (forall i :: 0 <= i < |name| ==> !Separator(name[i]) && !dropped(name[i]))
      && (Bytes(whole) <= MAX_NAME_BYTES ==> name == whole)
      && (Bytes(whole) > MAX_NAME_BYTES ==>
            exists k :: 0 <= k < |whole| - |Tail(whole)| && name == whole[..k] + Tail(whole)
                        && Bytes(whole[..k + 1] + Tail(whole)) > MAX_NAME_BYTES)
  {
    hide Cleaned, Tail, Cut, Bytes;
    var whole := Cleaned(filename, dropped, space);
    CleanedIsClean(filename, dropped, space);
    if Bytes(whole) > MAX_NAME_BYTES {
      var tail := Tail(whole);
      var head := whole[..|whole| - |tail|];
      TailIsShort(whole);
      CutIsLongest(head, tail);
      var k := |Cut(head, tail)|;
      assert head + tail == whole;
      assert head[..k] == whole[..k];
      if k < |head| { assert head[..k + 1] == whole[..k + 1]; }
      CutIsNotShort(whole[..k + 1], tail);
      assert Bytes(whole[..k + 1] + tail) > MAX_NAME_BYTES;
      var name := whole[..k] + tail;
      forall i | 0 <= i < |name|
        ensures name[i] == whole[if i < k then i else |whole| - |tail| + (i - k)]
      {
      }
    }
  }

  lemma CutIsNotShort(next: string, tail: string)
    requires next != [] && Bytes(next + tail) > MAX_NAME_BYTES
    ensures |next| + |tail| > 50
  {
    FourBytesEach(next + tail);
  }

  lemma {:induction false} FourBytesEach(s: string)
    ensures Bytes(s) <= 4 * |s|
  {
    if s != [] { FourBytesEach(s[..|s| - 1]); }
  }

  // ---------------------------------------------------------------- a free path

  /** The name up to its extension, and the extension with its dot. */
  function Stem(name: string): string {
    var i := LastDot(name);
    if i > 0 then name[..i] else name
  }

  function Extension(name: string): (r: string)
    ensures Stem(name) + r == name
  {
    var i := LastDot(name);
    if i > 0 then name[i..] else []
  }

  function PlainPath(name: string): string {
    ATTACHMENTS_DIR + "/" + name
  }

  function NumberedPath(name: string, n: nat): string {
    ATTACHMENTS_DIR + "/" + Stem(name) + " (" + Numeral(n) + ")" + Extension(name)
  }

  /** The n-th path tried: the plain one, then those numbered from 2. */
  function Probe(name: string, k: nat): string {
    if k == 0 then PlainPath(name) else NumberedPath(name, k + 1)
  }

  /** The paths tried: the plain one, then the stem with a number from 2 on in front of the extension. */
  lemma PathsTried(name: string, k: nat) returns (stem: string, extension: string)
    ensures stem + extension == name && (extension == "" ==> forall i :: 0 < i < |name| ==> name[i] != '.')
    ensures extension != "" ==> stem != "" && extension[0] == '.' && '.' !in extension[1..]
    ensures Probe(name, k)
         == if k == 0 then "attachments/" + name else "attachments/" + stem + " (" + Numeral(k + 1) + ")" + extension
  {
    hide Stem, Extension, Numeral;
    stem, extension := Stem(name), Extension(name);
    StemAndExtension(name);
  }

  lemma StemAndExtension(name: string)
    ensures var stem, extension := Stem(name), Extension(name);
      && stem + extension == name && (extension == "" ==> forall i :: 0 < i < |name| ==> name[i] != '.')
      && (extension != "" ==> stem != "" && extension[0] == '.' && '.' !in extension[1..])
  {
    hide LastDot;
  }

  lemma PathTellsItsNumber(name: string, n: nat)
    ensures var front, path := ATTACHMENTS_DIR + "/" + Stem(name) + " (", NumberedPath(name, n);
      |front| + |Numeral(n)| <= |path| && |path| == |front| + |Numeral(n)| + 1 + |Extension(name)|
      && path[|front|..|front| + |Numeral(n)|] == Numeral(n)
      && |path| > |PlainPath(name)|
  {
  }

  /** No path is tried twice. */
  lemma ProbesDiffer(name: string, j: nat, k: nat)
    requires j < k
    ensures Probe(name, j) != Probe(name, k)
  {
    hide NumberedPath, PlainPath, Numeral, Stem, Extension;
    PathTellsItsNumber(name, k + 1);
    if j > 0 {
      PathTellsItsNumber(name, j + 1);
      if NumberedPath(name, j + 1) == NumberedPath(name, k + 1) {
        NumeralInjective(j + 1, k + 1);
      }
    }
  }

  /** The first path tried that is not taken. */
  ghost predicate FirstFree(name: string, taken: set<string>, path: string, k: nat) {
    path == Probe(name, k) && path !in taken && forall j :: 0 <= j < k ==> Probe(name, j) in taken
  }

  /** The paths tried and found taken are as many as were tried: the search ends by then. */
  ghost function Tried(name: string, k: nat): (s: set<string>) {
    if k == 0 then {} else Tried(name, k - 1) + {Probe(name, k - 1)}
  }

  lemma {:induction false} TriedAreDistinct(name: string, k: nat)
    ensures |Tried(name, k)| == k && forall p :: p in Tried(name, k) <==> exists j :: 0 <= j < k && p == Probe(name, j)
  {
    hide Probe;
    if k > 0 {
      TriedAreDistinct(name, k - 1);
      if Probe(name, k - 1) in Tried(name, k - 1) {
        var j :| 0 <= j < k - 1 && Probe(name, k - 1) == Probe(name, j);
        ProbesDiffer(name, j, k - 1);
      }
      forall p
        ensures p in Tried(name, k) <==> exists j :: 0 <= j < k && p == Probe(name, j)
      {
        if p in Tried(name, k - 1) {
          var j :| 0 <= j < k - 1 && p == Probe(name, j);
          assert 0 <= j < k && p == Probe(name, j);
        }
      }
    }
  }

  lemma TakenBoundsTheSearch(name: string, taken: set<string>, k: nat)
    requires forall j :: 0 <= j < k ==> Probe(name, j) in taken
    ensures k <= |taken|
  {
    hide Probe;
    TriedAreDistinct(name, k);
    forall p | p in Tried(name, k)
      ensures p in taken
    {
      var j :| 0 <= j < k && p == Probe(name, j);
    }
    assert taken == Tried(name, k) + (taken - Tried(name, k));
  }

  /** A path that is not taken, found within as many tries as there are paths taken, and one more. */
  method FreeAttachmentPath(filename: string, taken: set<string>, dropped: char -> bool, space: char -> bool)
    returns (path: string)
    ensures exists k: nat :: k <= |taken| && FirstFree(SafeName(filename, dropped, space), taken, path, k)
  {
    hide Numeral, Stem, Extension, SafeName;
    var name := AttachmentName(filename, dropped, space);
    var stem, extension := Stem(name), Extension(name);
    path := PlainPath(name);
    var number := 2;
    ghost var k := 0;
    while path in taken
      invariant k == number - 2 && path == Probe(name, k)
      invariant forall j :: 0 <= j < k ==> Probe(name, j) in taken
      decreases |taken| - k
    {
      TakenBoundsTheSearch(name, taken, k + 1);
      path := ATTACHMENTS_DIR + "/" + stem + " (" + Numeral(number) + ")" + extension;
      number := number + 1;
      k := k + 1;
    }
    TakenBoundsTheSearch(name, taken, k);
    assert FirstFree(name, taken, path, k);
  }

  /** The name and the paths taken determine the path. */
  lemma FirstFreeIsUnique(name: string, taken: set<string>, p: string, j: nat, q: string, k: nat)
    requires FirstFree(name, taken, p, j) && FirstFree(name, taken, q, k)
    ensures p == q && j == k
  {
    assert j < k ==> Probe(name, j) in taken;
    assert k < j ==> Probe(name, k) in taken;
  }
}
