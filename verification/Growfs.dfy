// The directory index: a recursive listing of a tree, the cache that is read back from it, and the next listing,
// which reuses the cached checksums of files whose size and time still match.
module Growfs {
  import opened Text

  const GROW_EPOCH := 1199163600

  /** A directory tree after links that leave it have been followed. Entries are in the order the directory gives. */
  datatype Node =
    | File(mode: int, size: int, mtime: int, digest: string)
    | Link(mode: int, size: int, mtime: int, target: string)
    | Dir(mode: int, size: int, mtime: int, entries: seq<Entry>)

  datatype Entry = Entry(name: string, node: Node)

  /** What the cache holds for one path: three words of the listing, as text. */
  datatype Cached = Cached(mtime: string, size: string, checksum: string)

  type Cache = map<string, Cached>

  // ---- Writing ----

  /** `.growfs` after at least one character, the directory itself and its parent are not listed. */
  predicate Skipped(name: string) {
    name == "." || name == ".." || exists i :: 1 <= i <= |name| && MarkedAt(name, i)
  }

  predicate MarkedAt(name: string, i: nat) {
    i + 6 <= |name| && name[i..i + 6] == "growfs"
  }

  predicate Hit(n: Node, path: string, cache: Cache) {
    path in cache && Number(cache[path].mtime) == n.mtime - GROW_EPOCH && Number(cache[path].size) == n.size
  }

  function Checksum(n: Node, path: string, cache: Cache, checksums: bool): string {
    if !n.File? || !checksums then "0"
    else if Hit(n, path, cache) then cache[path].checksum
    else n.digest
  }

  /** Kind, name, tab, mode, size, time since the epoch of the format, and the rest. */
  function IndexLine(kind: string, name: string, n: Node, tail: string): string {
    kind + [' '] + (name + ['\t'] + (PrintInt(n.mode) + [' '] + (PrintInt(n.size) + [' ']
    + (PrintInt(n.mtime - GROW_EPOCH) + [' '] + tail))))
  }

  function LeafLine(name: string, n: Node, checksum: string): string {
    if n.Link? then IndexLine("L", name, n, "0 " + n.target) else IndexLine("F", name, n, checksum)
  }

  function DirLine(name: string, n: Node): string {
    IndexLine("D", name, n, "0")
  }

  function List(es: seq<Entry>, path: string, cache: Cache, checksums: bool): string
    decreases es
  {
    if es == [] then ""
    else ListOne(es[0], path, cache, checksums) + List(es[1..], path, cache, checksums)
  }

  function ListOne(e: Entry, path: string, cache: Cache, checksums: bool): string
    decreases e
  {
    var p := path + "/" + e.name;
    if Skipped(e.name) then ""
    else if e.node.Dir? then DirLine(e.name, e.node) + "\n" + List(e.node.entries, p, cache, checksums) + "E\n"
    else LeafLine(e.name, e.node, Checksum(e.node, p, cache, checksums)) + "\n"
  }

  // ---- Reading back ----

  /** Read up to the `E` that closes the current directory; what remains, and the cache. */
  function Load(text: string, path: string, cache: Cache): (r: (string, Cache))
    ensures |r.0| <= |text|
    decreases |text|
  {
    if text == "" then (text, cache)
    else
      var n := LineLength(text);
      var w := Split(text[..n]);
      var rest := text[n..];
      if WordAt(w, 0) == "D" then
        var (after, inner) := Load(rest, path + "/" + WordAt(w, 1), cache);
        Load(after, path, inner)
      else if WordAt(w, 0) == "E" then (rest, cache)
      else Load(rest, path, cache[path + "/" + WordAt(w, 1) := Cached(WordAt(w, 4), WordAt(w, 3), WordAt(w, 5))])
  }

  // ---- What an index holds ----

  datatype Leaf = Leaf(path: string, node: Node)

  /** The listed files and links with their paths, in listing order. */
  function Leaves(es: seq<Entry>, path: string): seq<Leaf>
    decreases es
  {
    if es == [] then [] else LeavesOf(es[0], path) + Leaves(es[1..], path)
  }

  function LeavesOf(e: Entry, path: string): seq<Leaf>
    decreases e
  {
    var p := path + "/" + e.name;
    if Skipped(e.name) then []
    else if e.node.Dir? then Leaves(e.node.entries, p)
    else [Leaf(p, e.node)]
  }

  function Recorded(l: Leaf, cache: Cache, checksums: bool): Cached {
    Cached(PrintInt(l.node.mtime - GROW_EPOCH), PrintInt(l.node.size), Checksum(l.node, l.path, cache, checksums))
  }

  /** `base` with the leaves recorded into it one after another. */
  function Record(ls: seq<Leaf>, cache: Cache, checksums: bool, base: Cache): Cache {
    if ls == [] then base
    else Record(ls[1..], cache, checksums, base[ls[0].path := Recorded(ls[0], cache, checksums)])
  }

  /** Names are words without a slash, different within a directory; link targets stay on one line; digests are words.
      */
  predicate WellFormed(es: seq<Entry>)
    decreases es
  {
    && (forall i :: 0 <= i < |es| ==> WellFormedEntry(es[i]))
    && (forall i, j :: 0 <= i < j < |es| ==> es[i].name != es[j].name)
  }

  predicate WellFormedEntry(e: Entry)
    decreases e
  {
    && IsWord(e.name) && '/' !in e.name
    && match e.node
       case File(_, _, _, digest) => IsWord(digest)
       case Link(_, _, _, target) => '\n' !in target
       case Dir(_, _, _, entries) => WellFormed(entries)
  }

  predicate BlankFree(s: string) {
    s == "" || IsWord(s)
  }

  predicate WordsOnly(cache: Cache) {
    forall p :: p in cache ==> BlankFree(cache[p].checksum)
  }

  // ---- One line ----

  lemma LineWords(kind: string, name: string, n: Node, tail: string)
    requires IsWord(kind) && IsWord(name)
    ensures Split(IndexLine(kind, name, n, tail) + "\n")
            == [kind, name, PrintInt(n.mode), PrintInt(n.size), PrintInt(n.mtime - GROW_EPOCH)] + Split(tail + "\n")
  {
    var m, s, t := PrintInt(n.mode), PrintInt(n.size), PrintInt(n.mtime - GROW_EPOCH);
    LineEnd(kind, name, n, tail);
    IntRoundTrip(n.mode);
    IntRoundTrip(n.size);
    IntRoundTrip(n.mtime - GROW_EPOCH);
    hide Split, PrintInt, IsWord;
    var d := tail + "\n";
    var c := t + [' '] + d;
    var b := s + [' '] + c;
    var a := m + [' '] + b;
    SplitCons(kind, ' ', name + ['\t'] + a);
    SplitCons(name, '\t', a);
    SplitCons(m, ' ', b);
    SplitCons(s, ' ', c);
    SplitCons(t, ' ', d);
  }

  lemma LineEnd(kind: string, name: string, n: Node, tail: string)
    ensures IndexLine(kind, name, n, tail) + "\n" == IndexLine(kind, name, n, tail + "\n")
  {
    hide PrintInt;
    var t := PrintInt(n.mtime - GROW_EPOCH);
    assert t + [' '] + tail + "\n" == t + [' '] + (tail + "\n");
  }

  lemma NoBreak(a: string, c: char, b: string)
    requires '\n' !in a && c != '\n' && '\n' !in b
    ensures '\n' !in a + [c] + b
  {
  }

  lemma OneLine(kind: string, name: string, n: Node, tail: string)
    requires IsWord(kind) && IsWord(name) && '\n' !in tail
    ensures '\n' !in IndexLine(kind, name, n, tail)
  {
    hide PrintInt;
    var mode, size, time := PrintInt(n.mode), PrintInt(n.size), PrintInt(n.mtime - GROW_EPOCH);
    IntRoundTrip(n.mode);
    IntRoundTrip(n.size);
    IntRoundTrip(n.mtime - GROW_EPOCH);
    NoBreak(time, ' ', tail);
    NoBreak(size, ' ', time + [' '] + tail);
    NoBreak(mode, ' ', size + [' '] + (time + [' '] + tail));
    NoBreak(name, '\t', mode + [' '] + (size + [' '] + (time + [' '] + tail)));
    NoBreak(kind, ' ', name + ['\t'] + (mode + [' '] + (size + [' '] + (time + [' '] + tail))));
  }

  /** The lines of an index, character for character. */
  lemma LineFormat(name: string, n: Node, checksum: string)
    ensures var stat := PrintInt(n.mode) + " " + PrintInt(n.size) + " " + PrintInt(n.mtime - 1199163600);
            && (n.File? ==> LeafLine(name, n, checksum) == "F " + name + "\t" + stat + " " + checksum)
            && (n.Link? ==> LeafLine(name, n, checksum) == "L " + name + "\t" + stat + " 0 " + n.target)
            && (n.Dir? ==> DirLine(name, n) == "D " + name + "\t" + stat + " 0")
  {
    hide PrintInt, IndexLine;
    assert "F" + " " == "F " && "L" + " " == "L " && "D" + " " == "D ";
    Spaced("F", name, n, checksum);
    Spaced("D", name, n, "0");
    if n.Link? {
      Spaced("L", name, n, "0 " + n.target);
      ZeroAndTarget("L " + name + "\t" + Stat(n), n.target);
    }
  }

  function Stat(n: Node): string {
    PrintInt(n.mode) + " " + PrintInt(n.size) + " " + PrintInt(n.mtime - GROW_EPOCH)
  }

  lemma Spaced(kind: string, name: string, n: Node, tail: string)
    ensures IndexLine(kind, name, n, tail) == kind + " " + name + "\t" + Stat(n) + " " + tail
  {
    hide PrintInt;
    Flatten(kind, name, PrintInt(n.mode), PrintInt(n.size), PrintInt(n.mtime - GROW_EPOCH), tail);
  }

  lemma Flatten(kind: string, name: string, m: string, s: string, t: string, tail: string)
    ensures kind + [' '] + (name + ['\t'] + (m + [' '] + (s + [' '] + (t + [' '] + tail))))
            == kind + " " + name + "\t" + (m + " " + s + " " + t) + " " + tail
  {
  }

  lemma ZeroAndTarget(head: string, target: string)
    ensures head + " " + ("0 " + target) == head + " 0 " + target
  {
    assert "0 " + target == "0" + " " + target;
    assert " 0 " == " " + "0" + " ";
  }

  lemma LeafLineWords(name: string, n: Node, checksum: string)
    requires IsWord(name) && !n.Dir? && BlankFree(checksum)
    requires n.Link? ==> checksum == "0" && '\n' !in n.target
    ensures var line := LeafLine(name, n, checksum);
            var w := Split(line + "\n");
            && '\n' !in line
            && WordAt(w, 0) == (if n.Link? then "L" else "F") && WordAt(w, 1) == name
            && WordAt(w, 3) == PrintInt(n.size) && WordAt(w, 4) == PrintInt(n.mtime - GROW_EPOCH)
            && WordAt(w, 5) == checksum
  {
    hide Split, PrintInt, IndexLine;
    if n.Link? {
      LineWords("L", name, n, "0 " + n.target);
      OneLine("L", name, n, "0 " + n.target);
      SplitCons("0", ' ', n.target + "\n");
      assert "0 " + n.target + "\n" == "0" + [' '] + (n.target + "\n");
    } else {
      LineWords("F", name, n, checksum);
      OneLine("F", name, n, checksum);
      if checksum == "" {
        SplitBlank('\n', "");
        SplitNothing();
        assert checksum + "\n" == ['\n'] + "";
      } else {
        SplitCons(checksum, '\n', "");
        assert checksum + "\n" == checksum + ['\n'] + "";
      }
    }
  }

  lemma SplitNothing()
    ensures Split("") == []
  {
  }

  lemma DirLineWords(name: string, n: Node)
    requires IsWord(name) && n.Dir?
    ensures var w := Split(DirLine(name, n) + "\n");
            '\n' !in DirLine(name, n) && WordAt(w, 0) == "D" && WordAt(w, 1) == name
  {
    hide Split;
    LineWords("D", name, n, "0");
    OneLine("D", name, n, "0");
  }

  // ---- Printing, then parsing ----

  lemma {:induction false} RecordSplits(a: seq<Leaf>, b: seq<Leaf>, cache: Cache, checksums: bool, base: Cache)
    ensures Record(a + b, cache, checksums, base) == Record(b, cache, checksums, Record(a, cache, checksums, base))
  {
    if a == [] {
      assert a + b == b;
    } else {
      assert (a + b)[1..] == a[1..] + b;
      RecordSplits(a[1..], b, cache, checksums, base[a[0].path := Recorded(a[0], cache, checksums)]);
    }
  }

  /** Parsing the listing of some entries and the closing `E` consumes exactly those, and records their leaves. */
  lemma {:induction false} LoadList(es: seq<Entry>, path: string, cache: Cache, checksums: bool, rest: string,
                                    base: Cache)
    requires WellFormed(es) && WordsOnly(cache)
    ensures Load(List(es, path, cache, checksums) + "E\n" + rest, path, base)
            == (rest, Record(Leaves(es, path), cache, checksums, base))
    decreases es
  {
    if es == [] {
      LoadEnd(rest, path, base);
      assert List(es, path, cache, checksums) + "E\n" + rest == "E\n" + rest;
    } else {
      assert WellFormedEntry(es[0]) && WellFormed(es[1..]);
      ListCons(es, path, cache, checksums, rest);
      hide *;
      LoadOne(es[0], path, cache, checksums, List(es[1..], path, cache, checksums) + "E\n" + rest, base);
      LoadList(es[1..], path, cache, checksums, rest, Record(LeavesOf(es[0], path), cache, checksums, base));
      RecordSplits(LeavesOf(es[0], path), Leaves(es[1..], path), cache, checksums, base);
    }
  }

  lemma ListCons(es: seq<Entry>, path: string, cache: Cache, checksums: bool, rest: string)
    requires es != []
    ensures List(es, path, cache, checksums) + "E\n" + rest
            == ListOne(es[0], path, cache, checksums) + (List(es[1..], path, cache, checksums) + "E\n" + rest)
    ensures Leaves(es, path) == LeavesOf(es[0], path) + Leaves(es[1..], path)
  {
    hide ListOne, LeavesOf;
  }

  lemma LoadStep(line: string, rest: string, path: string, base: Cache)
    requires '\n' !in line
    ensures var w := Split(line + "\n");
            var p := path + "/" + WordAt(w, 1);
            Load(line + "\n" + rest, path, base)
            == if WordAt(w, 0) == "D" then
                 var (after, inner) := Load(rest, p, base);
                 Load(after, path, inner)
               else if WordAt(w, 0) == "E" then (rest, base)
               else Load(rest, path, base[p := Cached(WordAt(w, 4), WordAt(w, 3), WordAt(w, 5))])
  {
    FirstLine(line, rest);
    assert line + "\n" + rest != "";
  }

  lemma LoadEnd(rest: string, path: string, base: Cache)
    ensures Load("E\n" + rest, path, base) == (rest, base)
  {
    SplitCons("E", '\n', "");
    assert "E" + ['\n'] + "" == "E\n" && "E" + "\n" == "E\n";
    LoadStep("E", rest, path, base);
  }

  lemma {:induction false} LoadOne(e: Entry, path: string, cache: Cache, checksums: bool, more: string, base: Cache)
    requires WellFormedEntry(e) && WordsOnly(cache)
    ensures Load(ListOne(e, path, cache, checksums) + more, path, base)
            == Load(more, path, Record(LeavesOf(e, path), cache, checksums, base))
    decreases e
  {
    hide Load, DirLine, Split, WordsOnly;
    if Skipped(e.name) {
      assert ListOne(e, path, cache, checksums) + more == more;
    } else if e.node.Dir? {
      var p := path + "/" + e.name;
      var inner := List(e.node.entries, p, cache, checksums);
      var line := DirLine(e.name, e.node);
      LoadList(e.node.entries, p, cache, checksums, more, base);
      DirLineWords(e.name, e.node);
      LoadStep(line, inner + "E\n" + more, path, base);
      hide List, Leaves;
      assert ListOne(e, path, cache, checksums) == line + "\n" + inner + "E\n";
      assert line + "\n" + inner + "E\n" + more == line + "\n" + (inner + "E\n" + more);
    } else {
      LoadLeaf(e, path, cache, checksums, more, base);
    }
  }

  lemma LoadLeaf(e: Entry, path: string, cache: Cache, checksums: bool, more: string, base: Cache)
    requires WellFormedEntry(e) && WordsOnly(cache) && !Skipped(e.name) && !e.node.Dir?
    ensures Load(ListOne(e, path, cache, checksums) + more, path, base)
            == Load(more, path, Record(LeavesOf(e, path), cache, checksums, base))
  {
    hide *;
    var p := path + "/" + e.name;
    var checksum := Checksum(e.node, p, cache, checksums);
    var line := LeafLine(e.name, e.node, checksum);
    ListedLeaf(e, path, cache, checksums);
    LeafIsClean(e, p, cache, checksums);
    RecordOne(Leaf(p, e.node), cache, checksums, base);
    LeafLineWords(e.name, e.node, checksum);
    LoadStep(line, more, path, base);
  }

  lemma ListedLeaf(e: Entry, path: string, cache: Cache, checksums: bool)
    requires !Skipped(e.name) && !e.node.Dir?
    ensures var p := path + "/" + e.name;
            ListOne(e, path, cache, checksums) == LeafLine(e.name, e.node, Checksum(e.node, p, cache, checksums)) + "\n"
            && LeavesOf(e, path) == [Leaf(p, e.node)]
  {
  }

  lemma LeafIsClean(e: Entry, p: string, cache: Cache, checksums: bool)
    requires WellFormedEntry(e) && WordsOnly(cache) && !e.node.Dir?
    ensures var checksum := Checksum(e.node, p, cache, checksums);
            IsWord(e.name) && BlankFree(checksum) && (e.node.Link? ==> checksum == "0" && '\n' !in e.node.target)
  {
    assert IsWord("0");
  }

  lemma RecordOne(l: Leaf, cache: Cache, checksums: bool, base: Cache)
    ensures Record([l], cache, checksums, base)
            == base[l.path := Cached(PrintInt(l.node.mtime - GROW_EPOCH), PrintInt(l.node.size),
                                     Checksum(l.node, l.path, cache, checksums))]
  {
  }

  // ---- Every listed path is different ----

  /** `p` is `q`, or lies below it. */
  predicate Under(q: string, p: string) {
    |q| <= |p| && p[..|q|] == q && (|p| == |q| || p[|q|] == '/')
  }

  predicate Distinct(ls: seq<Leaf>) {
    forall i, j :: 0 <= i < j < |ls| ==> ls[i].path != ls[j].path
  }

  lemma LongerHasSlash(path: string, a: string, b: string, p: string)
    requires Under(path + "/" + a, p) && Under(path + "/" + b, p) && |a| < |b|
    ensures '/' in b
  {
    assert p[|path| + 1 + |a|] == b[|a|];
  }

  lemma UnderOne(path: string, a: string, b: string, p: string)
    requires '/' !in a && '/' !in b && Under(path + "/" + a, p) && Under(path + "/" + b, p)
    ensures a == b
  {
    var k := |path| + 1;
    assert p[k..k + |a|] == a && p[k..k + |b|] == b;
    hide Under;
    if |a| < |b| {
      LongerHasSlash(path, a, b, p);
    } else if |b| < |a| {
      LongerHasSlash(path, b, a, p);
    }
  }

  lemma {:induction false} LeafOwner(es: seq<Entry>, path: string, i: nat) returns (k: nat)
    requires i < |Leaves(es, path)|
    ensures k < |es| && Under(path + "/" + es[k].name, Leaves(es, path)[i].path)
    decreases es
  {
    var first := LeavesOf(es[0], path);
    if i < |first| {
      k := 0;
      LeafUnder(es[0], path, i);
    } else {
      var j := LeafOwner(es[1..], path, i - |first|);
      k := j + 1;
    }
  }

  lemma {:induction false} LeafUnder(e: Entry, path: string, i: nat)
    requires i < |LeavesOf(e, path)|
    ensures Under(path + "/" + e.name, LeavesOf(e, path)[i].path)
    decreases e
  {
    if e.node.Dir? {
      var p := path + "/" + e.name;
      var k := LeafOwner(e.node.entries, p, i);
      assert (p + "/" + e.node.entries[k].name)[..|p|] == p;
    }
  }

  lemma {:induction false} LeavesDistinct(es: seq<Entry>, path: string)
    requires WellFormed(es)
    ensures Distinct(Leaves(es, path))
    decreases es
  {
    if es != [] {
      assert WellFormedEntry(es[0]) && WellFormed(es[1..]);
      if es[0].node.Dir? {
        LeavesDistinct(es[0].node.entries, path + "/" + es[0].name);
      }
      LeavesDistinct(es[1..], path);
      var a, b := LeavesOf(es[0], path), Leaves(es[1..], path);
      forall i, j | 0 <= i < |a| && 0 <= j < |b|
        ensures a[i].path != b[j].path
      {
        LeafUnder(es[0], path, i);
        var k := LeafOwner(es[1..], path, j);
        assert WellFormedEntry(es[1..][k]);
        if a[i].path == b[j].path {
          UnderOne(path, es[0].name, es[k + 1].name, a[i].path);
        }
      }
    }
  }

  /** `c` holds exactly the given leaves, each with what was recorded for it. */
  ghost predicate HoldsExactly(c: Cache, ls: seq<Leaf>, cache: Cache, checksums: bool) {
    && (forall p :: p in c ==> exists i :: 0 <= i < |ls| && ls[i].path == p)
    && (forall i :: 0 <= i < |ls| ==> ls[i].path in c && c[ls[i].path] == Recorded(ls[i], cache, checksums))
  }

  predicate Listed(ls: seq<Leaf>, p: string) {
    exists i :: 0 <= i < |ls| && ls[i].path == p
  }

  lemma ListedCons(ls: seq<Leaf>, p: string)
    requires ls != []
    ensures Listed(ls, p) <==> ls[0].path == p || Listed(ls[1..], p)
  {
    if Listed(ls, p) {
      var i :| 0 <= i < |ls| && ls[i].path == p;
      assert i > 0 ==> ls[1..][i - 1] == ls[i];
    }
    if Listed(ls[1..], p) {
      var i :| 0 <= i < |ls[1..]| && ls[1..][i].path == p;
      assert ls[i + 1].path == p;
    }
  }

  /** A path is recorded if it was before or is listed, and one that is not listed keeps its record. */
  lemma {:induction false} RecordedPaths(ls: seq<Leaf>, cache: Cache, checksums: bool, base: Cache, p: string)
    ensures var c := Record(ls, cache, checksums, base);
            (p in c <==> p in base || Listed(ls, p)) && (p in base && !Listed(ls, p) ==> c[p] == base[p])
  {
    if ls != [] {
      hide Recorded, Listed;
      ListedCons(ls, p);
      RecordedPaths(ls[1..], cache, checksums, base[ls[0].path := Recorded(ls[0], cache, checksums)], p);
    }
  }

  /** Each of different leaves is recorded as itself. */
  lemma {:induction false} RecordedLeaf(ls: seq<Leaf>, cache: Cache, checksums: bool, base: Cache, i: nat)
    requires Distinct(ls) && i < |ls|
    ensures var c := Record(ls, cache, checksums, base);
            ls[i].path in c && c[ls[i].path] == Recorded(ls[i], cache, checksums)
  {
    hide Recorded;
    var first := base[ls[0].path := Recorded(ls[0], cache, checksums)];
    RecordedPaths(ls[1..], cache, checksums, first, ls[i].path);
    if i > 0 {
      RecordedLeaf(ls[1..], cache, checksums, first, i - 1);
    }
  }

  lemma RecordExact(ls: seq<Leaf>, cache: Cache, checksums: bool)
    requires Distinct(ls)
    ensures HoldsExactly(Record(ls, cache, checksums, map[]), ls, cache, checksums)
  {
    hide Record, Recorded, Distinct;
    forall p ensures p in Record(ls, cache, checksums, map[]) ==> Listed(ls, p) {
      RecordedPaths(ls, cache, checksums, map[], p);
    }
    forall i | 0 <= i < |ls|
      ensures ls[i].path in Record(ls, cache, checksums, map[])
      ensures Record(ls, cache, checksums, map[])[ls[i].path] == Recorded(ls[i], cache, checksums)
    {
      RecordedLeaf(ls, cache, checksums, map[], i);
    }
  }

  // ---- The whole index ----

  predicate WellFormedTree(t: Node) {
    t.Dir? && WellFormed(t.entries)
  }

  /** The index file of the tree at `top`, listed with a given cache. */
  function Index(top: string, t: Node, cache: Cache, checksums: bool): string
    requires t.Dir?
  {
    DirLine("root", t) + "\n" + List(t.entries, top, cache, checksums) + "E\n"
  }

  /** Skip the header, then load: what is left unread, and the cache. */
  function Reload(top: string, text: string): (string, Cache) {
    Load(text[LineLength(text)..], top, map[])
  }

  /** Printing then parsing is the identity on index contents: nothing is left over, and the cache holds exactly the
      listed files and links, at any depth, each with its time, size and printed checksum. */
  lemma IndexRoundTrip(top: string, t: Node, cache: Cache, checksums: bool)
    requires WellFormedTree(t) && WordsOnly(cache)
    ensures var (left, c) := Reload(top, Index(top, t, cache, checksums));
            left == "" && HoldsExactly(c, Leaves(t.entries, top), cache, checksums)
  {
    LeavesDistinct(t.entries, top);
    RecordExact(Leaves(t.entries, top), cache, checksums);
    ReloadBody(top, t, cache, checksums);
    hide List, Load, Leaves, Record, Recorded, WellFormed, WordsOnly;
    var body := List(t.entries, top, cache, checksums) + "E\n";
    LoadList(t.entries, top, cache, checksums, "", map[]);
    assert body + "" == body;
  }

  lemma ReloadBody(top: string, t: Node, cache: Cache, checksums: bool)
    requires t.Dir?
    ensures Reload(top, Index(top, t, cache, checksums))
            == Load(List(t.entries, top, cache, checksums) + "E\n", top, map[])
  {
    hide List, Load, Split, DirLine;
    DirLineWords("root", t);
    var body := List(t.entries, top, cache, checksums) + "E\n";
    FirstLine(DirLine("root", t), body);
    assert Index(top, t, cache, checksums) == DirLine("root", t) + "\n" + body;
  }
}
