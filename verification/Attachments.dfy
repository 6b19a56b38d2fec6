/** Attaching files to a session's workspace, and taking the attachments of a failed start back. */
module Attachments {
  import opened Common
  import opened AttachmentNames

  /** A file as a message names it; its path is set by attaching it. */
  datatype InputFile = InputFile(fileId: string, filename: string, path: Option<string>)

  datatype Binding = Binding(path: Option<string>)

  /** What one attach made: new bindings, and paths set on older ones. */
  datatype Made = Made(created: seq<string>, placed: seq<string>)

  const NOTHING := Made([], [])

  datatype AttachResult = Attached(files: seq<InputFile>, made: Made) | NotFound | TooLarge(need: int)

  type Bindings = map<string, Binding>

  predicate HasPath(bindings: Bindings, f: string) {
    f in bindings && bindings[f].path.Some? && bindings[f].path.value != ""
  }

  predicate Binds(bindings: Bindings, f: string) {
    f in bindings && bindings[f].path.Some?
  }

  /** The unique index on a session's paths, and no path is empty. */
  ghost predicate Proper(bindings: Bindings) {
    && (forall f :: Binds(bindings, f) ==> bindings[f].path != Some(""))
    && (forall f, g :: Binds(bindings, f) && Binds(bindings, g) && bindings[f].path == bindings[g].path ==> f == g)
  }

  function Paths(bindings: Bindings): set<string> {
    set f | f in bindings && HasPath(bindings, f) :: bindings[f].path.value
  }

  function Bound(bindings: Bindings): set<string> {
    set f | f in bindings && Binds(bindings, f)
  }

  function Ids(files: seq<InputFile>): set<string> {
    set i | 0 <= i < |files| :: files[i].fileId
  }

  /** The bytes of these files. */
  ghost function Total(files: set<string>, sizeOf: string -> nat): nat {
    if files == {} then 0
    else
      var f :| f in files;
      sizeOf(f) + Total(files - {f}, sizeOf)
  }

  lemma TotalWithout(files: set<string>, f: string, sizeOf: string -> nat)
    requires f in files
    ensures Total(files, sizeOf) == sizeOf(f) + Total(files - {f}, sizeOf)
  {
    var g :| g in files && Total(files, sizeOf) == sizeOf(g) + Total(files - {g}, sizeOf);
    if g != f {
      TotalWithout(files - {g}, f, sizeOf);
      TotalWithout(files - {f}, g, sizeOf);
      assert files - {g} - {f} == files - {f} - {g};
    }
  }

  /** What a session needs once these files are attached. */
  ghost function Need(bindings: Bindings, files: seq<InputFile>, sizeOf: string -> nat, agentBytes: nat): nat {
    agentBytes + Total(Bound(bindings) + Ids(files), sizeOf)
  }

  /** The files named, each once, in the order they are first named. */
  function Order(files: seq<InputFile>): seq<string> {
    if files == [] then []
    else
      var front, f := files[..|files| - 1], files[|files| - 1].fileId;
      Order(front) + (if f in Order(front) then [] else [f])
  }

  function Only(list: seq<string>, those: set<string>): seq<string> {
    if list == [] then []
    else Only(list[..|list| - 1], those) + (if list[|list| - 1] in those then [list[|list| - 1]] else [])
  }

  /** The first free path for this name: everything tried before it is in use. */
  ghost predicate NamedFor(name: string, path: string, used: set<string>) {
    exists k: nat :: path == Probe(name, k) && forall j :: 0 <= j < k ==> Probe(name, j) in used
  }

  function Pathless(bindings: Bindings): set<string> {
    set f | f in bindings && !HasPath(bindings, f)
  }

  /** The bindings after a successful attach, against those before. */
  ghost predicate Placed(before: Bindings, after: Bindings, files: seq<InputFile>, agentPaths: set<string>) {
    && after.Keys == before.Keys + Ids(files)
    && (forall f :: f in before && (f !in Ids(files) || HasPath(before, f)) ==> after[f] == before[f])
    && (forall f :: f in Ids(files) ==> HasPath(after, f))
    && (forall f :: f in Ids(files) && !HasPath(before, f) ==>
          after[f].path.value !in agentPaths && after[f].path.value !in Paths(before))
  }

  /** Every path given is the first free one for the name the file came under. */
  ghost predicate Named(before: Bindings, after: Bindings, files: seq<InputFile>, agentPaths: set<string>,
                        dropped: char -> bool, space: char -> bool)
  {
    forall f :: f in Ids(files) && !HasPath(before, f) && HasPath(after, f) ==>
      NamedAmong(files, f, after[f].path.value, agentPaths + Paths(after), dropped, space)
  }

  /** One of the files comes under a name for which this is the first free path. */
  ghost predicate NamedAmong(files: seq<InputFile>, f: string, path: string, used: set<string>,
                             dropped: char -> bool, space: char -> bool)
  {
    exists i :: 0 <= i < |files| && files[i].fileId == f
      && NamedFor(SafeName(files[i].filename, dropped, space), path, used)
  }

  function MadeBy(before: Bindings, files: seq<InputFile>): Made {
    Made(Only(Order(files), Ids(files) - before.Keys), Only(Order(files), Pathless(before)))
  }

  function WithPaths(files: seq<InputFile>, bindings: Bindings): seq<InputFile>
    requires forall f :: f in Ids(files) ==> f in bindings
  {
    seq(|files|, i requires 0 <= i < |files| =>
      assert files[i].fileId in Ids(files);
      files[i].(path := bindings[files[i].fileId].path))
  }

  // ---------------------------------------------------------------- one file

  lemma IdsNext(files: seq<InputFile>, k: nat)
    requires k < |files|
    ensures Ids(files[..k + 1]) == Ids(files[..k]) + {files[k].fileId}
  {
    forall f | f in Ids(files[..k + 1])
      ensures f in Ids(files[..k]) + {files[k].fileId}
    {
      var i :| 0 <= i < k + 1 && files[..k + 1][i].fileId == f;
      if i < k { assert files[..k][i].fileId == f; }
    }
    forall f | f in Ids(files[..k]) + {files[k].fileId}
      ensures f in Ids(files[..k + 1])
    {
      if f in Ids(files[..k]) {
        var i :| 0 <= i < k && files[..k][i].fileId == f;
        assert files[..k + 1][i].fileId == f;
      } else {
        assert files[..k + 1][k].fileId == f;
      }
    }
  }

  lemma {:induction false} OrderIsIds(files: seq<InputFile>)
    ensures forall f :: f in Order(files) <==> f in Ids(files)
  {
    if files != [] {
      OrderIsIds(files[..|files| - 1]);
      IdsNext(files, |files| - 1);
      assert files[..|files|] == files;
    }
  }

  lemma {:induction false} OnlyMembers(list: seq<string>, those: set<string>)
    ensures forall f :: f in Only(list, those) <==> f in list && f in those
  {
    if list != [] {
      OnlyMembers(list[..|list| - 1], those);
      assert forall f :: f in list <==> f in list[..|list| - 1] || f == list[|list| - 1];
    }
  }

  lemma {:induction false} OnlySame(list: seq<string>, a: set<string>, b: set<string>)
    requires forall f :: f in list ==> (f in a <==> f in b)
    ensures Only(list, a) == Only(list, b)
  {
    if list != [] { OnlySame(list[..|list| - 1], a, b); }
  }

  /** How the record of one attach grows with one more file. */
  lemma MadeNext(before: Bindings, files: seq<InputFile>, k: nat)
    requires k < |files|
    ensures var f, made, next := files[k].fileId, MadeBy(before, files[..k]), MadeBy(before, files[..k + 1]);
      if f in Ids(files[..k]) || HasPath(before, f) then next == made
      else if f in before then next == made.(placed := made.placed + [f])
      else next == made.(created := made.created + [f])
  {
    var front, f := files[..k], files[k].fileId;
    assert files[..k + 1][..k] == front;
    OrderIsIds(front);
    IdsNext(files, k);
    var order := Order(front);
    OnlySame(order, Ids(front) - before.Keys, Ids(files[..k + 1]) - before.Keys);
    if f in Ids(front) {
      assert order + [] == order && Ids(files[..k + 1]) == Ids(front);
    } else {
      assert (order + [f])[..|order|] == order;
      NoneMore(Only(order, Ids(files[..k + 1]) - before.Keys));
      NoneMore(Only(order, Pathless(before)));
    }
  }

  lemma NoneMore(list: seq<string>)
    ensures list + [] == list
  {
  }

  lemma KeepsPlaced(before: Bindings, bindings: Bindings, files: seq<InputFile>, k: nat, agentPaths: set<string>)
    requires k < |files| && (files[k].fileId in Ids(files[..k]) || HasPath(before, files[k].fileId))
    requires Placed(before, bindings, files[..k], agentPaths)
    ensures Placed(before, bindings, files[..k + 1], agentPaths)
  {
    hide Ids, Paths;
    IdsNext(files, k);
  }

  lemma KeepsNamed(before: Bindings, bindings: Bindings, files: seq<InputFile>, k: nat, agentPaths: set<string>,
                   dropped: char -> bool, space: char -> bool)
    requires k < |files| && (files[k].fileId in Ids(files[..k]) || HasPath(before, files[k].fileId))
    requires Named(before, bindings, files[..k], agentPaths, dropped, space)
    ensures Named(before, bindings, files[..k + 1], agentPaths, dropped, space)
  {
    hide NamedFor, NamedAmong, SafeName, Paths, Ids;
    IdsNext(files, k);
    NamedStays(before, bindings, bindings, files, k, agentPaths, dropped, space);
  }

  lemma KeepsItsPath(before: Bindings, bindings: Bindings, files: seq<InputFile>, k: nat, agentPaths: set<string>,
                     dropped: char -> bool, space: char -> bool)
    requires k < |files| && (files[k].fileId in Ids(files[..k]) || HasPath(before, files[k].fileId))
    requires Placed(before, bindings, files[..k], agentPaths)
    requires Named(before, bindings, files[..k], agentPaths, dropped, space)
    ensures Placed(before, bindings, files[..k + 1], agentPaths)
    ensures Named(before, bindings, files[..k + 1], agentPaths, dropped, space)
  {
    hide *;
    KeepsPlaced(before, bindings, files, k, agentPaths);
    KeepsNamed(before, bindings, files, k, agentPaths, dropped, space);
  }

  /** A path stays the first free one while more paths are used. */
  lemma NamedStays(before: Bindings, bindings: Bindings, after: Bindings, files: seq<InputFile>, k: nat,
                   agentPaths: set<string>,
                   dropped: char -> bool, space: char -> bool)
    requires k < |files| && Named(before, bindings, files[..k], agentPaths, dropped, space)
    requires Paths(bindings) <= Paths(after)
    ensures forall f :: f in Ids(files[..k]) && !HasPath(before, f) && HasPath(bindings, f) && HasPath(after, f)
                        && after[f] == bindings[f] ==>
      NamedAmong(files[..k + 1], f, after[f].path.value, agentPaths + Paths(after), dropped, space)
  {
    hide SafeName, Paths;
    forall f | f in Ids(files[..k]) && !HasPath(before, f) && HasPath(bindings, f) && HasPath(after, f)
      && after[f] == bindings[f]
      ensures NamedAmong(files[..k + 1], f, after[f].path.value, agentPaths + Paths(after), dropped, space)
    {
      var i :| 0 <= i < k && files[..k][i].fileId == f
        && NamedFor(SafeName(files[..k][i].filename, dropped, space), bindings[f].path.value,
                    agentPaths + Paths(bindings));
      assert files[..k + 1][i] == files[..k][i];
      assert NamedFor(SafeName(files[..k + 1][i].filename, dropped, space), after[f].path.value,
                      agentPaths + Paths(after));
    }
  }

  lemma PathsNext(bindings: Bindings, f: string, path: string)
    requires !HasPath(bindings, f) && path != ""
    ensures Paths(bindings[f := Binding(Some(path))]) == Paths(bindings) + {path}
  {
    var after := bindings[f := Binding(Some(path))];
    forall p | p in Paths(bindings)
      ensures p in Paths(after)
    {
      var g :| g in bindings && HasPath(bindings, g) && bindings[g].path.value == p;
      assert HasPath(after, g) && after[g].path.value == p;
    }
    assert HasPath(after, f);
    forall p | p in Paths(after)
      ensures p in Paths(bindings) + {path}
    {
      var g :| g in after && HasPath(after, g) && after[g].path.value == p;
      if g != f { assert HasPath(bindings, g); }
    }
  }

  lemma PathIsUsed(bindings: Bindings, f: string)
    requires HasPath(bindings, f)
    ensures bindings[f].path.value in Paths(bindings)
  {
  }

  lemma ProbeIsNotEmpty(name: string, k: nat)
    ensures Probe(name, k) != ""
  {
  }

  /** A path nobody uses keeps the paths distinct. */
  lemma ProperNext(bindings: Bindings, f: string, path: string)
    requires Proper(bindings) && path != "" && path !in Paths(bindings)
    ensures Proper(bindings[f := Binding(Some(path))])
  {
    hide Paths;
    forall g | Binds(bindings, g)
      ensures bindings[g].path.value != path
    {
      assert HasPath(bindings, g);
      PathIsUsed(bindings, g);
    }
  }

  lemma PlacedNext(before: Bindings, bindings: Bindings, files: seq<InputFile>, k: nat, agentPaths: set<string>,
                   path: string)
    requires k < |files| && files[k].fileId !in Ids(files[..k]) && !HasPath(before, files[k].fileId)
    requires Paths(before) <= Paths(bindings) && Placed(before, bindings, files[..k], agentPaths)
    requires path != "" && path !in agentPaths + Paths(bindings)
    ensures Placed(before, bindings[files[k].fileId := Binding(Some(path))], files[..k + 1], agentPaths)
  {
    hide Paths, Ids;
    IdsNext(files, k);
  }

  lemma GetsAPath(before: Bindings, bindings: Bindings, files: seq<InputFile>, k: nat, agentPaths: set<string>,
                  path: string, n: nat, dropped: char -> bool, space: char -> bool)
    requires k < |files| && files[k].fileId !in Ids(files[..k]) && !HasPath(before, files[k].fileId)
    requires !HasPath(bindings, files[k].fileId)
    requires Proper(bindings) && Paths(before) <= Paths(bindings)
    requires Placed(before, bindings, files[..k], agentPaths)
    requires Named(before, bindings, files[..k], agentPaths, dropped, space)
    requires FirstFree(SafeName(files[k].filename, dropped, space), agentPaths + Paths(bindings), path, n)
    ensures var after := bindings[files[k].fileId := Binding(Some(path))];
      && Placed(before, after, files[..k + 1], agentPaths)
      && Named(before, after, files[..k + 1], agentPaths, dropped, space)
      && Proper(after) && Paths(after) == Paths(bindings) + {path}
  {
    hide SafeName, Probe, Paths, Placed, Proper;
    var f := files[k].fileId;
    var after := bindings[f := Binding(Some(path))];
    IdsNext(files, k);
    ProbeIsNotEmpty(SafeName(files[k].filename, dropped, space), n);
    PathsNext(bindings, f, path);
    PlacedNext(before, bindings, files, k, agentPaths, path);
    ProperNext(bindings, f, path);
    NamedStays(before, bindings, after, files, k, agentPaths, dropped, space);
    assert files[..k + 1][k].fileId == f;
    assert NamedFor(SafeName(files[..k + 1][k].filename, dropped, space), path, agentPaths + Paths(after));
    forall g | g in Ids(files[..k + 1]) && !HasPath(before, g) && HasPath(after, g)
      ensures NamedAmong(files[..k + 1], g, after[g].path.value, agentPaths + Paths(after), dropped, space)
    {
      if g != f {
        OtherPathSame(bindings, f, path, g);
        assert after[g] == bindings[g] && g in Ids(files[..k]);
      }
    }
  }

  lemma OtherPathSame(bindings: Bindings, f: string, path: string, g: string)
    requires g != f
    ensures HasPath(bindings[f := Binding(Some(path))], g) == HasPath(bindings, g)
    ensures HasPath(bindings, g) ==> g in bindings
  {
  }

  /** The dictionaries the loop fills: the paths of the files seen, the sizes of what is bound with a path. */
  ghost predicate Tables(bindings: Bindings, ids: set<string>, paths: map<string, string>, sizes: map<string, nat>,
                         sizeOf: string -> nat)
  {
    && paths.Keys == ids && (forall f :: f in paths ==> f in bindings && bindings[f].path == Some(paths[f]))
    && sizes.Keys == Bound(bindings) && (forall f :: f in sizes ==> sizes[f] == sizeOf(f))
  }

  lemma TablesNext(bindings: Bindings, ids: set<string>, paths: map<string, string>, sizes: map<string, nat>,
                   sizeOf: string -> nat, f: string, path: string)
    requires Tables(bindings, ids, paths, sizes, sizeOf) && f !in ids
    ensures Tables(bindings[f := Binding(Some(path))], ids + {f}, paths[f := path], sizes[f := sizeOf(f)], sizeOf)
  {
  }

  lemma TablesKeep(bindings: Bindings, ids: set<string>, paths: map<string, string>, sizes: map<string, nat>,
                   sizeOf: string -> nat, f: string)
    requires Tables(bindings, ids, paths, sizes, sizeOf) && HasPath(bindings, f)
    ensures Tables(bindings, ids + {f}, paths[f := bindings[f].path.value], sizes, sizeOf)
  {
  }

  lemma EmptyTables(bindings: Bindings, sizes: map<string, nat>, sizeOf: string -> nat)
    requires sizes.Keys == Bound(bindings) && forall f :: f in sizes ==> sizes[f] == sizeOf(f)
    ensures Tables(bindings, Ids([]), map[], sizes, sizeOf)
  {
  }

  lemma SeenIds(bindings: Bindings, ids: set<string>, paths: map<string, string>, sizes: map<string, nat>,
                sizeOf: string -> nat)
    requires Tables(bindings, ids, paths, sizes, sizeOf)
    ensures paths.Keys == ids
  {
  }

  lemma AsBefore(before: Bindings, bindings: Bindings, files: seq<InputFile>, agentPaths: set<string>, f: string)
    requires Placed(before, bindings, files, agentPaths) && f !in Ids(files)
    ensures HasPath(bindings, f) == HasPath(before, f) && (f in bindings <==> f in before)
  {
  }

  // ---------------------------------------------------------------- attaching, in place

  class SessionFiles {
    var bindings: Bindings

    constructor (bindings: Bindings)
      ensures this.bindings == bindings
    {
      this.bindings := bindings;
    }

    /**
     `attach_session_files`. The paths of a session stay distinct, old paths stay, new ones are free and
     avoid the agent's inputs. It fails if a row is missing, or if the files need more than the limit.
     */
    method AttachSessionFiles(files: seq<InputFile>, sessionExists: bool, visible: set<string>, agentPaths: set<string>,
                              agentBytes: nat, sizeOf: string -> nat, limit: int,
                              dropped: char -> bool, space: char -> bool)
      returns (result: AttachResult)
      requires Proper(bindings)
      modifies this
      ensures result.Attached? <==>
        files == [] ||
        (sessionExists && Ids(files) <= visible && Need(old(bindings), files, sizeOf, agentBytes) <= limit)
      ensures result.NotFound? <==> files != [] && !(sessionExists && Ids(files) <= visible)
      ensures result.TooLarge? ==> result.need == Need(old(bindings), files, sizeOf, agentBytes)
      ensures result.Attached? ==>
        && Proper(bindings) && Placed(old(bindings), bindings, files, agentPaths)
        && Named(old(bindings), bindings, files, agentPaths, dropped, space)
        && result == Attached(WithPaths(files, bindings), MadeBy(old(bindings), files))
    {
      hide Named, Order, Only, Proper, HasPath, Paths, Placed, Tables;
      ghost var before := bindings;
      if files == [] {
        NothingPlaced(before, agentPaths, dropped, space);
        return Attached([], NOTHING);
      }
      if !sessionExists {
        return NotFound;
      }
      if exists i :: 0 <= i < |files| && files[i].fileId !in visible {
        return NotFound;
      }
      var sizes: map<string, nat> := map f | f in bindings && Binds(bindings, f) :: sizeOf(f);
      var made, paths: map<string, string>;
      made, paths, sizes := PlaceAll(files, agentPaths, sizes, sizeOf, dropped, space);
      TablesOf(bindings, files, paths, sizes, sizeOf);
      var total := SumOf(sizes, sizeOf);
      AllBound(before, bindings, files, agentPaths);
      if agentBytes + total > limit {
        return TooLarge(agentBytes + total);
      }
      var attached := AllPaths(files, paths);
      ThosePaths(files, attached, bindings, paths, sizes, sizeOf);
      return Attached(attached, made);
    }

    /** The files with the paths they got. */
    method AllPaths(files: seq<InputFile>, paths: map<string, string>) returns (attached: seq<InputFile>)
      requires paths.Keys == Ids(files)
      ensures |attached| == |files|
      ensures forall i :: 0 <= i < |files| ==>
        files[i].fileId in paths && attached[i] == files[i].(path := Some(paths[files[i].fileId]))
    {
      attached := [];
      for k := 0 to |files|
        invariant |attached| == k
        invariant forall i :: 0 <= i < k ==>
          files[i].fileId in paths && attached[i] == files[i].(path := Some(paths[files[i].fileId]))
      {
        assert files[k].fileId in Ids(files);
        attached := attached + [files[k].(path := Some(paths[files[k].fileId]))];
      }
    }

    /** The loop over the files: keep a path, or take the first free one. */
    method PlaceAll(files: seq<InputFile>, agentPaths: set<string>, oldSizes: map<string, nat>, sizeOf: string -> nat,
                    dropped: char -> bool, space: char -> bool)
      returns (made: Made, paths: map<string, string>, sizes: map<string, nat>)
      requires Proper(bindings) && oldSizes.Keys == Bound(bindings)
      requires forall f :: f in oldSizes ==> oldSizes[f] == sizeOf(f)
      modifies this
      ensures Proper(bindings) && Placed(old(bindings), bindings, files, agentPaths)
      ensures Named(old(bindings), bindings, files, agentPaths, dropped, space) && made == MadeBy(old(bindings), files)
      ensures Tables(bindings, Ids(files), paths, sizes, sizeOf)
    {
      hide Named, SafeName, FirstFree, Paths, MadeBy, Proper, Placed, Tables, Ids;
      ghost var before := bindings;
      var taken := agentPaths + Paths(bindings);
      made, paths, sizes := NOTHING, map[], oldSizes;
      NothingPlaced(before, agentPaths, dropped, space);
      assert files[..0] == [];
      EmptyTables(bindings, sizes, sizeOf);
      for k := 0 to |files|
        invariant Proper(bindings) && Placed(before, bindings, files[..k], agentPaths)
        invariant Named(before, bindings, files[..k], agentPaths, dropped, space) && made == MadeBy(before, files[..k])
        invariant taken == agentPaths + Paths(bindings) && Paths(before) <= Paths(bindings)
        invariant Tables(bindings, Ids(files[..k]), paths, sizes, sizeOf)
      {
        var item := files[k];
        MadeNext(before, files, k);
        IdsNext(files, k);
        SeenIds(bindings, Ids(files[..k]), paths, sizes, sizeOf);
        if item.fileId in paths {
          KeepsItsPath(before, bindings, files, k, agentPaths, dropped, space);
          assert Ids(files[..k]) + {item.fileId} == Ids(files[..k]);
          continue;
        }
        AsBefore(before, bindings, files[..k], agentPaths, item.fileId);
        if HasPath(bindings, item.fileId) {
          KeepsItsPath(before, bindings, files, k, agentPaths, dropped, space);
          TablesKeep(bindings, Ids(files[..k]), paths, sizes, sizeOf, item.fileId);
          paths := paths[item.fileId := bindings[item.fileId].path.value];
          continue;
        }
        var path := FreeAttachmentPath(item.filename, taken, dropped, space);
        ghost var n: nat :| FirstFree(SafeName(item.filename, dropped, space), taken, path, n);
        GetsAPath(before, bindings, files, k, agentPaths, path, n, dropped, space);
        TablesNext(bindings, Ids(files[..k]), paths, sizes, sizeOf, item.fileId, path);
        taken := taken + {path};
        if item.fileId in bindings {
          made := made.(placed := made.placed + [item.fileId]);
        } else {
          made := made.(created := made.created + [item.fileId]);
        }
        bindings := bindings[item.fileId := Binding(Some(path))];
        paths := paths[item.fileId := path];
        sizes := sizes[item.fileId := sizeOf(item.fileId)];
      }
      assert files[..|files|] == files;
    }

    /** `FileService.attach`: one transaction, so a failure leaves the bindings as they were. */
    method Attach(files: seq<InputFile>, sessionExists: bool, visible: set<string>, agentPaths: set<string>,
                  agentBytes: nat, sizeOf: string -> nat, limit: int,
                              dropped: char -> bool, space: char -> bool)
      returns (result: AttachResult)
      requires Proper(bindings)
      modifies this
      ensures Proper(bindings)
      ensures result.Attached? <==>
        files == [] ||
        (sessionExists && Ids(files) <= visible && Need(old(bindings), files, sizeOf, agentBytes) <= limit)
      ensures !result.Attached? ==> bindings == old(bindings)
      ensures result.Attached? ==>
        && Placed(old(bindings), bindings, files, agentPaths)
        && result == Attached(WithPaths(files, bindings), MadeBy(old(bindings), files))
    {
      var saved := bindings;
      result := AttachSessionFiles(files, sessionExists, visible, agentPaths, agentBytes, sizeOf, limit, dropped,
                                   space);
      if !result.Attached? {
        bindings := saved;
      }
    }

    /** Undo the bindings of a turn that did not start; a failing store leaves them. */
    method Unbind(made: Made, fails: bool) returns (left: Made)
      modifies this
      ensures bindings == if fails then old(bindings) else Undone(old(bindings), made)
      ensures left == NOTHING
    {
      if (made.created != [] || made.placed != []) && !fails {
        bindings := map f | f in bindings && f !in made.created :: bindings[f];
        bindings := map f | f in bindings :: if f in made.placed then Binding(None) else bindings[f];
      }
      left := NOTHING;
      if made == NOTHING { assert Undone(old(bindings), made) == old(bindings); }
    }
  }

  lemma NothingPlaced(before: Bindings, agentPaths: set<string>, dropped: char -> bool, space: char -> bool)
    ensures Placed(before, before, [], agentPaths) && Named(before, before, [], agentPaths, dropped, space)
    ensures MadeBy(before, []) == NOTHING
  {
  }

  /** What is bound with a path afterwards is what was before, and the files. */
  lemma TablesOf(bindings: Bindings, files: seq<InputFile>, paths: map<string, string>, sizes: map<string, nat>,
                 sizeOf: string -> nat)
    requires Tables(bindings, Ids(files), paths, sizes, sizeOf)
    ensures paths.Keys == Ids(files) && sizes.Keys == Bound(bindings)
    ensures forall f :: f in sizes ==> sizes[f] == sizeOf(f)
    ensures forall f :: f in Ids(files) ==> f in bindings
  {
  }

  lemma ThosePaths(files: seq<InputFile>, attached: seq<InputFile>, bindings: Bindings, paths: map<string, string>,
                   sizes: map<string, nat>, sizeOf: string -> nat)
    requires Tables(bindings, Ids(files), paths, sizes, sizeOf) && |attached| == |files|
    requires forall f :: f in Ids(files) ==> f in bindings
    requires forall i :: 0 <= i < |files| ==>
      files[i].fileId in paths && attached[i] == files[i].(path := Some(paths[files[i].fileId]))
    ensures attached == WithPaths(files, bindings)
  {
  }

  lemma AllBound(before: Bindings, after: Bindings, files: seq<InputFile>, agentPaths: set<string>)
    requires Placed(before, after, files, agentPaths)
    ensures Bound(after) == Bound(before) + Ids(files)
  {
    forall f
      ensures f in Bound(after) <==> f in Bound(before) || f in Ids(files)
    {
      if f in Ids(files) { assert HasPath(after, f); }
    }
  }

  /** `sum(sizes.values())`. */
  method SumOf(sizes: map<string, nat>, sizeOf: string -> nat) returns (total: nat)
    requires forall f :: f in sizes ==> sizes[f] == sizeOf(f)
    ensures total == Total(sizes.Keys, sizeOf)
  {
    var left := sizes.Keys;
    total := 0;
    while left != {}
      invariant left <= sizes.Keys && total + Total(left, sizeOf) == Total(sizes.Keys, sizeOf)
      decreases left
    {
      var f :| f in left;
      TotalWithout(left, f, sizeOf);
      total := total + sizes[f];
      left := left - {f};
    }
  }

  // ---------------------------------------------------------------- taking back

  function Undone(bindings: Bindings, made: Made): Bindings {
    map f | f in bindings && f !in made.created :: if f in made.placed then Binding(None) else bindings[f]
  }

  /**
   Unbinding what one attach made gives its files back their bindings from before, whatever happened to
   the session's other files in between, and leaves those as they are.
   */
  lemma UnbindUndoesAttach(before: Bindings, after: Bindings, later: Bindings, files: seq<InputFile>,
                           agentPaths: set<string>)
    requires Proper(before) && Placed(before, after, files, agentPaths)
    requires forall f :: f in Ids(files) && !HasPath(before, f) ==> f in later && later[f] == after[f]
    ensures var end := Undone(later, MadeBy(before, files));
      && (forall f :: f in Ids(files) && !HasPath(before, f) ==>
         (f in end <==> f in before) && (f in end ==> end[f] == before[f]))
      && (forall f :: f !in Ids(files) || HasPath(before, f) ==>
         (f in end <==> f in later) && (f in end ==> end[f] == later[f]))
    ensures Undone(after, MadeBy(before, files)) == before
  {
    hide HasPath, Paths, Order, Only;
    OrderIsIds(files);
    OnlyMembers(Order(files), Ids(files) - before.Keys);
    OnlyMembers(Order(files), Pathless(before));
    forall f | f in before && !HasPath(before, f)
      ensures before[f] == Binding(None)
    {
      NoPathIsNone(before, f);
    }
    forall f | f in Ids(files) && f !in before
      ensures !HasPath(before, f)
    {
      NotBoundHasNoPath(before, f);
    }
  }

  lemma NoPathIsNone(before: Bindings, f: string)
    requires Proper(before) && f in before && !HasPath(before, f)
    ensures before[f] == Binding(None)
  {
  }

  lemma NotBoundHasNoPath(before: Bindings, f: string)
    requires f !in before
    ensures !HasPath(before, f)
  {
  }
}
