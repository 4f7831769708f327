// Listing again with the cache of an earlier index, and what that saves.
module GrowfsListing {
  import opened Wrappers
  import opened Text
  import opened Growfs

  /** What listing file `l` prints as its checksum is its true digest. */
  predicate Fresh(l: Leaf, cache: Cache) {
    l.node.File? ==> Checksum(l.node, l.path, cache, true) == l.node.digest
  }

  predicate AllFresh(ls: seq<Leaf>, cache: Cache) {
    forall i :: 0 <= i < |ls| ==> Fresh(ls[i], cache)
  }

  lemma {:induction false} ListAgrees(es: seq<Entry>, path: string, cache: Cache)
    requires AllFresh(Leaves(es, path), cache)
    ensures List(es, path, cache, true) == List(es, path, map[], true)
    decreases es
  {
    if es != [] {
      var first := LeavesOf(es[0], path);
      assert forall i :: 0 <= i < |first| ==> first[i] == Leaves(es, path)[i];
      assert forall i :: 0 <= i < |Leaves(es[1..], path)| ==> Leaves(es[1..], path)[i] == Leaves(es, path)[i + |first|];
      if es[0].node.Dir? && !Skipped(es[0].name) {
        ListAgrees(es[0].node.entries, path + "/" + es[0].name, cache);
      } else if !Skipped(es[0].name) {
        assert Fresh(first[0], cache);
      }
      ListAgrees(es[1..], path, cache);
    }
  }

  /** The listing made with a cache equals the one that computes every checksum exactly when no file is given a
      checksum other than its own. */
  lemma CachedListingIff(top: string, t: Node, cache: Cache)
    requires WellFormedTree(t) && WordsOnly(cache)
    ensures Index(top, t, cache, true) == Index(top, t, map[], true) <==> AllFresh(Leaves(t.entries, top), cache)
  {
    var ls := Leaves(t.entries, top);
    if AllFresh(ls, cache) {
      ListAgrees(t.entries, top, cache);
    }
    if Index(top, t, cache, true) == Index(top, t, map[], true) {
      IndexRoundTrip(top, t, cache, true);
      IndexRoundTrip(top, t, map[], true);
      forall i | 0 <= i < |ls|
        ensures Fresh(ls[i], cache)
      {
        assert Recorded(ls[i], cache, true) == Recorded(ls[i], map[], true);
      }
    }
  }

  /** The earlier listing of `t0`, made with cache `c0`, gave every file of `t1` whose path, size and time it shows
      the digest the file has now. */
  ghost predicate StatTells(top: string, t0: Node, c0: Cache, mode0: bool, t1: Node)
    requires t0.Dir? && t1.Dir?
  {
    var now := Leaves(t1.entries, top);
    forall j :: 0 <= j < |now| && now[j].node.File? ==> Told(Leaves(t0.entries, top), c0, mode0, now[j])
  }

  ghost predicate Told(before: seq<Leaf>, c0: Cache, mode0: bool, l: Leaf)
    requires l.node.File?
  {
    forall i :: 0 <= i < |before| && SameStat(before[i], l)
      ==> Checksum(before[i].node, before[i].path, c0, mode0) == l.node.digest
  }

  predicate SameStat(a: Leaf, b: Leaf) {
    a.path == b.path && a.node.size == b.node.size && a.node.mtime == b.node.mtime
  }

  /** A file is given its own checksum exactly when no earlier entry with its path, size and time recorded another. */
  lemma FreshIff(top: string, t0: Node, c0: Cache, mode0: bool, l: Leaf)
    requires WellFormedTree(t0) && WordsOnly(c0) && l.node.File?
    ensures var before := Leaves(t0.entries, top);
            Fresh(l, Reload(top, Index(top, t0, c0, mode0)).1)
            <==> Told(before, c0, mode0, l)
  {
    IndexRoundTrip(top, t0, c0, mode0);
    LeavesDistinct(t0.entries, top);
    hide Reload, Index, WellFormed, WordsOnly;
    FreshInExact(Leaves(t0.entries, top), c0, mode0, Reload(top, Index(top, t0, c0, mode0)).1, l);
  }

  lemma SameStatHits(b: Leaf, c0: Cache, mode0: bool, c: Cache, l: Leaf)
    requires b.path == l.path && l.path in c && c[l.path] == Recorded(b, c0, mode0)
    ensures Hit(l.node, l.path, c) <==> SameStat(b, l)
    ensures c[l.path].checksum == Checksum(b.node, b.path, c0, mode0)
  {
    NumberOfPrint(b.node.mtime - GROW_EPOCH);
    NumberOfPrint(b.node.size);
    hide PrintInt, Number;
  }

  lemma FreshInExact(before: seq<Leaf>, c0: Cache, mode0: bool, c: Cache, l: Leaf)
    requires l.node.File? && HoldsExactly(c, before, c0, mode0) && Distinct(before)
    ensures Fresh(l, c) <==> Told(before, c0, mode0, l)
  {
    hide Recorded;
    if exists i :: 0 <= i < |before| && before[i].path == l.path {
      var i :| 0 <= i < |before| && before[i].path == l.path;
      SameStatHits(before[i], c0, mode0, c, l);
      assert forall k :: 0 <= k < |before| && SameStat(before[k], l) ==> k == i;
    }
  }

  lemma ReloadIsClean(top: string, t: Node, cache: Cache, checksums: bool)
    requires WellFormedTree(t) && WordsOnly(cache)
    ensures WordsOnly(Reload(top, Index(top, t, cache, checksums)).1)
  {
    IndexRoundTrip(top, t, cache, checksums);
    var ls := Leaves(t.entries, top);
    var c := Reload(top, Index(top, t, cache, checksums)).1;
    LeavesClean(t.entries, top);
    forall p | p in c
      ensures BlankFree(c[p].checksum)
    {
      var i :| 0 <= i < |ls| && ls[i].path == p;
      assert IsWord("0");
    }
  }

  predicate CleanLeaves(ls: seq<Leaf>) {
    forall i :: 0 <= i < |ls| && ls[i].node.File? ==> IsWord(ls[i].node.digest)
  }

  lemma {:induction false} LeavesClean(es: seq<Entry>, path: string)
    requires WellFormed(es)
    ensures CleanLeaves(Leaves(es, path))
    decreases es
  {
    if es != [] {
      assert WellFormedEntry(es[0]) && WellFormed(es[1..]);
      if es[0].node.Dir? {
        LeavesClean(es[0].node.entries, path + "/" + es[0].name);
      }
      LeavesClean(es[1..], path);
      assert CleanLeaves(LeavesOf(es[0], path));
    }
  }

  /** Reusing the checksums of an earlier index gives the full listing exactly when size and time told the truth. */
  lemma IncrementalIff(top: string, t0: Node, c0: Cache, mode0: bool, t1: Node)
    requires WellFormedTree(t0) && WellFormedTree(t1) && WordsOnly(c0)
    ensures Index(top, t1, Reload(top, Index(top, t0, c0, mode0)).1, true) == Index(top, t1, map[], true)
            <==> StatTells(top, t0, c0, mode0, t1)
  {
    var c := Reload(top, Index(top, t0, c0, mode0)).1;
    var before, now := Leaves(t0.entries, top), Leaves(t1.entries, top);
    ReloadIsClean(top, t0, c0, mode0);
    CachedListingIff(top, t1, c);
    forall j | 0 <= j < |now| && now[j].node.File?
      ensures Fresh(now[j], c) <==> Told(before, c0, mode0, now[j])
    {
      FreshIff(top, t0, c0, mode0, now[j]);
    }
  }

  // ---- Any number of listings ----

  ghost predicate AllTrees(trees: seq<Node>) {
    forall i :: 0 <= i < |trees| ==> trees[i].Dir? && WellFormed(trees[i].entries)
  }

  /** The index after listing a succession of trees, each with the cache of the index before. */
  function Generation(top: string, trees: seq<Node>): string
    requires forall i :: 0 <= i < |trees| ==> trees[i].Dir?
  {
    if trees == [] then ""
    else
      var before := trees[..|trees| - 1];
      var cache := if before == [] then map[] else Reload(top, Generation(top, before)).1;
      Index(top, trees[|trees| - 1], cache, true)
  }

  /** While size and time tell from each tree to the next, the last index is the full one, however many came before.
      */
  lemma {:induction false} GenerationsStayFull(top: string, trees: seq<Node>)
    requires trees != [] && AllTrees(trees)
    requires forall i :: 0 <= i < |trees| - 1 ==> StatTells(top, trees[i], map[], true, trees[i + 1])
    ensures Generation(top, trees) == Index(top, trees[|trees| - 1], map[], true)
  {
    var n := |trees|;
    if n > 1 {
      GenerationsStayFull(top, trees[..n - 1]);
      IncrementalIff(top, trees[n - 2], map[], true, trees[n - 1]);
    }
  }

  /** An index made without checksums poisons the next one: listing the same unchanged tree with checksums on then
      prints zeros instead of the digests. */
  lemma UncheckedIndexPoisons(top: string, t: Node, k: nat)
    requires WellFormedTree(t) && k < |Leaves(t.entries, top)|
    requires Leaves(t.entries, top)[k].node.File? && Leaves(t.entries, top)[k].node.digest != "0"
    ensures Index(top, t, Reload(top, Index(top, t, map[], false)).1, true) != Index(top, t, map[], true)
  {
    IncrementalIff(top, t, map[], false, t);
    var l := Leaves(t.entries, top)[k];
    assert SameStat(l, l) && Checksum(l.node, l.path, map[], false) == "0";
  }

  // ---- The program ----

  /** The files among the leaves whose checksum has to be computed. */
  function Misses(ls: seq<Leaf>, cache: Cache): nat {
    if ls == [] then 0
    else Misses(ls[1..], cache) + if ls[0].node.File? && !Hit(ls[0].node, ls[0].path, cache) then 1 else 0
  }

  function Counted(checksumMode: bool, ls: seq<Leaf>, cache: Cache): nat {
    if checksumMode then Misses(ls, cache) else 0
  }

  lemma {:induction false} MissesSplit(a: seq<Leaf>, b: seq<Leaf>, cache: Cache)
    ensures Misses(a + b, cache) == Misses(a, cache) + Misses(b, cache)
  {
    if a == [] {
      assert a + b == b;
    } else {
      assert (a + b)[1..] == a[1..] + b;
      MissesSplit(a[1..], b, cache);
    }
  }

  /** The counters of what has been listed. */
  datatype Seen = Seen(files: nat, links: nat, dirs: nat) {
    function Plus(s: Seen): Seen {
      Seen(files + s.files, links + s.links, dirs + s.dirs)
    }
  }

  function Files(ls: seq<Leaf>): nat {
    if ls == [] then 0 else Files(ls[1..]) + if ls[0].node.File? then 1 else 0
  }

  function Links(ls: seq<Leaf>): nat {
    if ls == [] then 0 else Links(ls[1..]) + if ls[0].node.Link? then 1 else 0
  }

  /** The listed directories among some entries, at any depth. */
  function Dirs(es: seq<Entry>): nat
    decreases es
  {
    if es == [] then 0 else DirsOf(es[0]) + Dirs(es[1..])
  }

  function DirsOf(e: Entry): nat
    decreases e
  {
    if Skipped(e.name) || !e.node.Dir? then 0 else 1 + Dirs(e.node.entries)
  }

  function SeenIn(es: seq<Entry>, path: string): Seen {
    Seen(Files(Leaves(es, path)), Links(Leaves(es, path)), Dirs(es))
  }

  function SeenOf(e: Entry, path: string): Seen {
    Seen(Files(LeavesOf(e, path)), Links(LeavesOf(e, path)), DirsOf(e))
  }

  lemma {:induction false} SeenSplit(a: seq<Leaf>, b: seq<Leaf>)
    ensures Files(a + b) == Files(a) + Files(b) && Links(a + b) == Links(a) + Links(b)
  {
    if a == [] {
      assert a + b == b;
    } else {
      assert (a + b)[1..] == a[1..] + b;
      SeenSplit(a[1..], b);
    }
  }

  lemma {:induction false} LeavesUnfold(es: seq<Entry>, path: string)
    requires es != []
    ensures Leaves(es, path) == LeavesOf(es[0], path) + Leaves(es[1..], path)
    ensures Dirs(es) == DirsOf(es[0]) + Dirs(es[1..])
  {
  }

  lemma SeenUnfolds(es: seq<Entry>, path: string)
    requires es != []
    ensures SeenIn(es, path) == SeenOf(es[0], path).Plus(SeenIn(es[1..], path))
  {
    hide Leaves, LeavesOf, Dirs, DirsOf, Files, Links;
    LeavesUnfold(es, path);
    SeenSplit(LeavesOf(es[0], path), Leaves(es[1..], path));
  }

  lemma {:induction false} SeenOne(e: Entry, path: string)
    ensures SeenOf(e, path)
            == if Skipped(e.name) then Seen(0, 0, 0)
               else match e.node
                 case File(_, _, _, _) => Seen(1, 0, 0)
                 case Link(_, _, _, _) => Seen(0, 1, 0)
                 case Dir(_, _, _, entries) => SeenIn(entries, path + "/" + e.name).Plus(Seen(0, 0, 1))
  {
    if !Skipped(e.name) && !e.node.Dir? {
      var ls := LeavesOf(e, path);
      assert ls[1..] == [] && Files(ls[1..]) == 0 && Links(ls[1..]) == 0;
    }
  }

  lemma SeenRegroup(a: Seen, b: Seen, c: Seen)
    ensures a.Plus(b).Plus(c) == a.Plus(b.Plus(c))
    ensures a.Plus(Seen(0, 0, 0)) == a
    ensures Seen(0, 0, 0).Plus(b) == b
  {
  }

  /** Every listed leaf is counted as a file or as a link, and no more checksums are computed than there are files. */
  lemma {:induction false} SeenAddsUp(ls: seq<Leaf>, cache: Cache)
    requires NoDirs(ls)
    ensures Files(ls) + Links(ls) == |ls| && Misses(ls, cache) <= Files(ls)
  {
    if ls != [] { SeenAddsUp(ls[1..], cache); }
  }

  predicate NoDirs(ls: seq<Leaf>) {
    forall i :: 0 <= i < |ls| ==> !ls[i].node.Dir?
  }

  lemma {:induction false} LeavesAreLeaves(es: seq<Entry>, path: string)
    ensures NoDirs(Leaves(es, path))
    decreases es
  {
    if es != [] {
      if es[0].node.Dir? {
        LeavesAreLeaves(es[0].node.entries, path + "/" + es[0].name);
      }
      LeavesAreLeaves(es[1..], path);
      assert NoDirs(LeavesOf(es[0], path));
    }
  }

  /** The counters account for every listed path, and no more checksums are computed than there are files. */
  lemma CountersAddUp(es: seq<Entry>, path: string, cache: Cache)
    ensures SeenIn(es, path).files + SeenIn(es, path).links == |Leaves(es, path)|
    ensures Counted(true, Leaves(es, path), cache) <= SeenIn(es, path).files
  {
    LeavesAreLeaves(es, path);
    SeenAddsUp(Leaves(es, path), cache);
  }

  /** The script: one file handle read and then written, three hashes filled while reading, and four counters. */
  class Grower {
    var dirfile: string
    var mtimeCache: map<string, string>
    var sizeCache: map<string, string>
    var checksumCache: map<string, string>
    var totalFiles: nat
    var totalLinks: nat
    var totalDirs: nat
    var totalChecksums: nat

    constructor ()
      ensures Valid() && Contents() == map[] && totalChecksums == 0 && Counters() == Seen(0, 0, 0)
    {
      dirfile, mtimeCache, sizeCache, checksumCache := "", map[], map[], map[];
      totalFiles, totalLinks, totalDirs, totalChecksums := 0, 0, 0, 0;
    }

    function Counters(): Seen
      reads this`totalFiles, this`totalLinks, this`totalDirs
    {
      Seen(totalFiles, totalLinks, totalDirs)
    }

    ghost predicate Valid()
      reads this`mtimeCache, this`sizeCache, this`checksumCache
    {
      mtimeCache.Keys == sizeCache.Keys == checksumCache.Keys
    }

    ghost function Contents(): Cache
      reads this`mtimeCache, this`sizeCache, this`checksumCache
      requires Valid()
    {
      map p | p in mtimeCache :: Cached(mtimeCache[p], sizeCache[p], checksumCache[p])
    }

    method Store(path: string, mtime: string, size: string, checksum: string)
      requires Valid()
      modifies this`mtimeCache, this`sizeCache, this`checksumCache
      ensures Valid() && Contents() == old(Contents())[path := Cached(mtime, size, checksum)]
    {
      mtimeCache := mtimeCache[path := mtime];
      sizeCache := sizeCache[path := size];
      checksumCache := checksumCache[path := checksum];
    }

    /** Read entries of `dirpath` up to the `E` that closes it. */
    method LoadCache(dirpath: string)
      requires Valid()
      modifies this`dirfile, this`mtimeCache, this`sizeCache, this`checksumCache
      ensures Valid() && (dirfile, Contents()) == Load(old(dirfile), dirpath, old(Contents()))
      decreases |dirfile|
    {
      hide Contents, Split, Valid;
      while dirfile != ""
        invariant Valid() && |dirfile| <= |old(dirfile)|
        invariant Load(dirfile, dirpath, Contents()) == Load(old(dirfile), dirpath, old(Contents()))
        decreases |dirfile|
      {
        var n := LineLength(dirfile);
        var w := Split(dirfile[..n]);
        dirfile := dirfile[n..];
        var path := dirpath + "/" + WordAt(w, 1);
        if WordAt(w, 0) == "D" {
          LoadCache(path);
        } else if WordAt(w, 0) == "E" {
          return;
        } else {
          Store(path, WordAt(w, 4), WordAt(w, 3), WordAt(w, 5));
        }
      }
    }

    /** Print the entries of `dirname`, and count the checksums that had to be computed. */
    method ListDir(dirname: string, es: seq<Entry>, checksumMode: bool)
      requires Valid()
      modifies this`dirfile, this`totalFiles, this`totalLinks, this`totalDirs, this`totalChecksums
      ensures Counters() == old(Counters()).Plus(SeenIn(es, dirname))
      ensures dirfile == old(dirfile) + List(es, dirname, Contents(), checksumMode)
      ensures totalChecksums == old(totalChecksums) + Counted(checksumMode, Leaves(es, dirname), Contents())
      decreases es
    {
      hide List, ListOne, Leaves, LeavesOf, Misses, Contents, SeenIn, SeenOf, Counters, Seen.Plus;
      ghost var c := Contents();
      ListNothing(dirname, c, checksumMode);
      var i := 0;
      assert es[0..] == es;
      while i < |es|
        invariant 0 <= i <= |es|
        invariant Counters().Plus(SeenIn(es[i..], dirname)) == old(Counters()).Plus(SeenIn(es, dirname))
        invariant dirfile + List(es[i..], dirname, c, checksumMode)
                  == old(dirfile) + List(es, dirname, c, checksumMode)
        invariant totalChecksums + Counted(checksumMode, Leaves(es[i..], dirname), c)
                  == old(totalChecksums) + Counted(checksumMode, Leaves(es, dirname), c)
      {
        ListUnfolds(es[i..], dirname, c, checksumMode);
        MissesSplit(LeavesOf(es[i], dirname), Leaves(es[i + 1..], dirname), c);
        SeenUnfolds(es[i..], dirname);
        SeenRegroup(Counters(), SeenOf(es[i], dirname), SeenIn(es[i..][1..], dirname));
        assert es[i..][1..] == es[i + 1..];
        Regroup(dirfile, ListOne(es[i], dirname, c, checksumMode), List(es[i + 1..], dirname, c, checksumMode), "");
        ListEntry(dirname, es[i], checksumMode);
        i := i + 1;
      }
      SeenRegroup(Counters(), Seen(0, 0, 0), Seen(0, 0, 0));
      assert es[i..] == [] && dirfile + "" == dirfile;
    }

    /** The checksum to print for a file or link: the cached one if size and time still match. */
    method ChecksumFor(path: string, n: Node, checksumMode: bool) returns (checksum: string)
      requires Valid() && !n.Dir?
      modifies this`totalChecksums
      ensures checksum == Checksum(n, path, Contents(), checksumMode)
      ensures totalChecksums == old(totalChecksums)
                                + if checksumMode && n.File? && !Hit(n, path, Contents()) then 1 else 0
    {
      checksum := "0";
      if n.File? && checksumMode {
        if path in mtimeCache && Number(mtimeCache[path]) == n.mtime - GROW_EPOCH
           && Number(sizeCache[path]) == n.size {
          checksum := checksumCache[path];
        } else {
          checksum := n.digest;
          totalChecksums := totalChecksums + 1;
        }
      }
    }

    method ListEntry(dirname: string, e: Entry, checksumMode: bool)
      requires Valid()
      modifies this`dirfile, this`totalFiles, this`totalLinks, this`totalDirs, this`totalChecksums
      ensures Counters() == old(Counters()).Plus(SeenOf(e, dirname))
      ensures dirfile == old(dirfile) + ListOne(e, dirname, Contents(), checksumMode)
      ensures totalChecksums == old(totalChecksums) + Counted(checksumMode, LeavesOf(e, dirname), Contents())
      decreases e
    {
      hide List, ListOne, Leaves, LeavesOf, Misses, Contents, SeenIn, SeenOf, Hit, Skipped, Checksum, LeafLine;
      hide DirLine, Valid;
      ghost var c := Contents();
      ListOneUnfolds(e, dirname, c, checksumMode);
      SeenOne(e, dirname);
      if Skipped(e.name) {
        return;
      }
      var subdirname := dirname + "/" + e.name;
      if e.node.Dir? {
        dirfile := dirfile + (DirLine(e.name, e.node) + "\n");
        ListDir(subdirname, e.node.entries, checksumMode);
        dirfile := dirfile + "E\n";
        totalDirs := totalDirs + 1;
        Regroup(old(dirfile), DirLine(e.name, e.node) + "\n", List(e.node.entries, subdirname, c, checksumMode), "E\n");
      } else {
        var checksum := ChecksumFor(subdirname, e.node, checksumMode);
        dirfile := dirfile + (LeafLine(e.name, e.node, checksum) + "\n");
        if e.node.Link? {
          totalLinks := totalLinks + 1;
        } else {
          totalFiles := totalFiles + 1;
        }
      }
    }

    /** Skip the header of the index that is there, if any, and load the rest. */
    method LoadExisting(top: string, previous: Option<string>)
      requires Valid() && Contents() == map[]
      modifies this`dirfile, this`mtimeCache, this`sizeCache, this`checksumCache
      ensures Valid() && Contents() == if previous.None? then map[] else Reload(top, previous.value).1
    {
      hide Load, LineLength, Contents, Valid;
      if previous.Some? {
        dirfile := previous.value[LineLength(previous.value)..];
        LoadCache(top);
      }
    }

    /** Write the new index over whatever the handle held. */
    method WriteIndex(top: string, t: Node, checksumMode: bool)
      requires Valid() && t.Dir?
      modifies this`dirfile, this`totalFiles, this`totalLinks, this`totalDirs, this`totalChecksums
      ensures dirfile == Index(top, t, Contents(), checksumMode)
      ensures Counters() == old(Counters()).Plus(SeenIn(t.entries, top))
      ensures totalChecksums == old(totalChecksums) + Counted(checksumMode, Leaves(t.entries, top), Contents())
    {
      hide List, Leaves, Misses, SeenIn, DirLine, Counters, Contents, Valid, Seen.Plus, Counted;
      dirfile := DirLine("root", t) + "\n";
      ListDir(top, t.entries, checksumMode);
      dirfile := dirfile + "E\n";
    }

    /** Load the index that is there, if any, and write the new one. */
    method Run(top: string, previous: Option<string>, t: Node, checksumMode: bool) returns (index: string)
      requires Valid() && Contents() == map[] && totalChecksums == 0 && Counters() == Seen(0, 0, 0) && t.Dir?
      modifies this
      ensures Valid() && Counters() == SeenIn(t.entries, top)
      ensures var cache := if previous.None? then map[] else Reload(top, previous.value).1;
              index == Index(top, t, cache, checksumMode)
              && totalChecksums == Counted(checksumMode, Leaves(t.entries, top), cache)
    {
      hide Index, Reload, Leaves, SeenIn, Counted, Counters, Contents, Valid, Seen.Plus;
      LoadExisting(top, previous);
      SeenRegroup(Seen(0, 0, 0), SeenIn(t.entries, top), Seen(0, 0, 0));
      WriteIndex(top, t, checksumMode);
      index := dirfile;
    }
  }

  lemma {:induction false} ListUnfolds(es: seq<Entry>, path: string, cache: Cache, checksums: bool)
    requires es != []
    ensures List(es, path, cache, checksums)
            == ListOne(es[0], path, cache, checksums) + List(es[1..], path, cache, checksums)
    ensures Leaves(es, path) == LeavesOf(es[0], path) + Leaves(es[1..], path)
  {
  }

  lemma Regroup(o: string, a: string, b: string, c: string)
    ensures o + a + b + c == o + (a + b + c) && o + a + b == o + (a + b)
  {
  }

  lemma ListNothing(path: string, cache: Cache, checksums: bool)
    ensures List([], path, cache, checksums) == "" && Misses(Leaves([], path), cache) == 0
    ensures SeenIn([], path) == Seen(0, 0, 0)
  {
  }

  lemma ListOneUnfolds(e: Entry, path: string, cache: Cache, checksums: bool)
    ensures var p := path + "/" + e.name;
            if Skipped(e.name) then
              ListOne(e, path, cache, checksums) == "" && Misses(LeavesOf(e, path), cache) == 0
            else if e.node.Dir? then
              ListOne(e, path, cache, checksums)
              == DirLine(e.name, e.node) + "\n" + List(e.node.entries, p, cache, checksums) + "E\n"
              && LeavesOf(e, path) == Leaves(e.node.entries, p)
            else
              ListOne(e, path, cache, checksums)
                == LeafLine(e.name, e.node, Checksum(e.node, p, cache, checksums)) + "\n"
              && Misses(LeavesOf(e, path), cache) == if e.node.File? && !Hit(e.node, p, cache) then 1 else 0
  {
    var l := Leaf(path + "/" + e.name, e.node);
    assert Misses([l], cache) == Misses([], cache) + if e.node.File? && !Hit(e.node, l.path, cache) then 1 else 0;
  }
}
