// Everything that an index says: a reader that rebuilds the listed tree from the text alone.
module GrowfsReader {
  import opened Text
  import opened Growfs

  // ---- One line ----

  /** The field that a line starts with, and what follows the one separator after it. */
  function Field(s: string): (string, string) {
    var n := WordLength(s);
    (s[..n], if n < |s| then s[n + 1..] else "")
  }

  lemma FieldOf(w: string, c: char, rest: string)
    requires IsWord(w) && IsBlank(c)
    ensures Field(w + [c] + rest) == (w, rest)
  {
    var s := w + [c] + rest;
    assert forall i :: 0 <= i < |w| ==> s[i] == w[i];
    assert s[|w|] == c;
    assert s[..|w|] == w && s[|w| + 1..] == rest;
  }

  /** Five fields, and all the rest. */
  datatype Fields = Fields(kind: string, name: string, mode: string, size: string, time: string, tail: string)

  function FieldsOf(line: string): Fields {
    var (kind, a) := Field(line);
    var (name, b) := Field(a);
    var (mode, c) := Field(b);
    var (size, d) := Field(c);
    var (time, tail) := Field(d);
    Fields(kind, name, mode, size, time, tail)
  }

  lemma FieldsOfIndexLine(kind: string, name: string, n: Node, tail: string)
    requires IsWord(kind) && IsWord(name)
    ensures FieldsOf(IndexLine(kind, name, n, tail))
            == Fields(kind, name, PrintInt(n.mode), PrintInt(n.size), PrintInt(n.mtime - GROW_EPOCH), tail)
  {
    hide Field, PrintInt, IsWord;
    var m, s, t := PrintInt(n.mode), PrintInt(n.size), PrintInt(n.mtime - GROW_EPOCH);
    IntRoundTrip(n.mode);
    IntRoundTrip(n.size);
    IntRoundTrip(n.mtime - GROW_EPOCH);
    var c := t + [' '] + tail;
    var b := s + [' '] + c;
    var a := m + [' '] + b;
    FieldOf(kind, ' ', name + ['\t'] + a);
    FieldOf(name, '\t', a);
    FieldOf(m, ' ', b);
    FieldOf(s, ' ', c);
    FieldOf(t, ' ', tail);
  }

  /** What a line says. Times count from a fixed moment; a link's target comes after a zero in the place of the
      checksum. */
  function EntryOf(f: Fields, inner: seq<Entry>): Entry {
    var mode, size, mtime := Number(f.mode), Number(f.size), Number(f.time) + 1199163600;
    if f.kind == "D" then Entry(f.name, Dir(mode, size, mtime, inner))
    else if f.kind == "L" then Entry(f.name, Link(mode, size, mtime, if |f.tail| < 2 then "" else f.tail[2..]))
    else Entry(f.name, File(mode, size, mtime, f.tail))
  }

  // ---- Whole listings ----

  /** The entries up to the `E` that closes their directory, and what is left. */
  function ReadEntries(text: string): (r: (seq<Entry>, string))
    ensures |r.1| <= |text|
    decreases |text|
  {
    if text == "" then ([], "")
    else
      var n := LineLength(text);
      var line := if text[n - 1] == '\n' then text[..n - 1] else text[..n];
      var f := FieldsOf(line);
      if line == "E" then ([], text[n..])
      else
        var (inner, after) := if f.kind == "D" then ReadEntries(text[n..]) else ([], text[n..]);
        var (more, left) := ReadEntries(after);
        ([EntryOf(f, inner)] + more, left)
  }

  /** The entries that are listed, at any depth, each file with the checksum that is printed for it. */
  function Visible(es: seq<Entry>, path: string, cache: Cache, checksums: bool): seq<Entry>
    decreases es
  {
    if es == [] then []
    else VisibleOf(es[0], path, cache, checksums) + Visible(es[1..], path, cache, checksums)
  }

  function VisibleOf(e: Entry, path: string, cache: Cache, checksums: bool): seq<Entry>
    decreases e
  {
    var p := path + "/" + e.name;
    if Skipped(e.name) then []
    else
      match e.node
      case File(mode, size, mtime, _) => [Entry(e.name, File(mode, size, mtime, Checksum(e.node, p, cache, checksums)))]
      case Link(_, _, _, _) => [e]
      case Dir(mode, size, mtime, entries) =>
        [Entry(e.name, Dir(mode, size, mtime, Visible(entries, p, cache, checksums)))]
  }

  lemma ReadStep(line: string, rest: string)
    requires '\n' !in line && line != "E"
    ensures var f := FieldsOf(line);
            var (inner, after) := if f.kind == "D" then ReadEntries(rest) else ([], rest);
            ReadEntries(line + "\n" + rest) == ([EntryOf(f, inner)] + ReadEntries(after).0, ReadEntries(after).1)
  {
    hide FieldsOf, EntryOf;
    FirstLine(line, rest);
    var text := line + "\n" + rest;
    assert text[|line|] == '\n' && text[..|line|] == line;
  }

  lemma ReadEnd(rest: string)
    ensures ReadEntries("E\n" + rest) == ([], rest)
  {
    hide FieldsOf, EntryOf;
    FirstLine("E", rest);
    var text := "E" + "\n" + rest;
    assert text == "E\n" + rest && text[1] == '\n' && text[..1] == "E";
  }

  /** Reading the listing of some entries and the closing `E` gives exactly what is listed of them. */
  lemma {:induction false} ReadList(es: seq<Entry>, path: string, cache: Cache, checksums: bool, rest: string)
    requires WellFormed(es) && WordsOnly(cache)
    ensures ReadEntries(List(es, path, cache, checksums) + "E\n" + rest) == (Visible(es, path, cache, checksums), rest)
    decreases es
  {
    hide ReadEntries, ListOne, VisibleOf, WordsOnly, WellFormedEntry;
    if es == [] {
      ReadEnd(rest);
      assert List(es, path, cache, checksums) + "E\n" + rest == "E\n" + rest;
    } else {
      assert WellFormedEntry(es[0]) && WellFormed(es[1..]);
      ListCons(es, path, cache, checksums, rest);
      ReadOne(es[0], path, cache, checksums, List(es[1..], path, cache, checksums) + "E\n" + rest);
      ReadList(es[1..], path, cache, checksums, rest);
    }
  }

  lemma {:induction false} ReadOne(e: Entry, path: string, cache: Cache, checksums: bool, more: string)
    requires WellFormedEntry(e) && WordsOnly(cache)
    ensures ReadEntries(ListOne(e, path, cache, checksums) + more)
            == (VisibleOf(e, path, cache, checksums) + ReadEntries(more).0, ReadEntries(more).1)
    decreases e
  {
    hide ReadEntries, DirLine, WordsOnly;
    if Skipped(e.name) {
      assert ListOne(e, path, cache, checksums) + more == more;
      assert [] + ReadEntries(more).0 == ReadEntries(more).0;
    } else if e.node.Dir? {
      var p := path + "/" + e.name;
      var inner := List(e.node.entries, p, cache, checksums);
      ReadList(e.node.entries, p, cache, checksums, more);
      ReadDir(e.name, e.node, inner + "E\n" + more);
      hide List, Visible;
      assert ListOne(e, path, cache, checksums) + more == DirLine(e.name, e.node) + "\n" + (inner + "E\n" + more);
    } else {
      ReadLeaf(e, path, cache, checksums, more);
    }
  }

  lemma ReadDir(name: string, n: Node, rest: string)
    requires IsWord(name) && n.Dir?
    ensures var (inner, after) := ReadEntries(rest);
            ReadEntries(DirLine(name, n) + "\n" + rest)
            == ([Entry(name, Dir(n.mode, n.size, n.mtime, inner))] + ReadEntries(after).0, ReadEntries(after).1)
  {
    hide ReadEntries, FieldsOf, IndexLine;
    var line := DirLine(name, n);
    OneLine("D", name, n, "0");
    FieldsOfIndexLine("D", name, n, "0");
    LongerThanE("D", name, n, "0");
    NumberOfPrint(n.mode);
    NumberOfPrint(n.size);
    NumberOfPrint(n.mtime - GROW_EPOCH);
    ReadStep(line, rest);
    hide Number, PrintInt;
  }

  lemma LongerThanE(kind: string, name: string, n: Node, tail: string)
    ensures kind != "" ==> IndexLine(kind, name, n, tail) != "E"
  {
    hide PrintInt;
    assert |IndexLine(kind, name, n, tail)| > |kind|;
  }

  /** A line of a file or a link. */
  lemma ReadLine(kind: string, name: string, n: Node, tail: string, more: string)
    requires (kind == "F" || kind == "L") && IsWord(name) && '\n' !in tail
    ensures var node := if kind == "F" then File(n.mode, n.size, n.mtime, tail)
                        else Link(n.mode, n.size, n.mtime, if |tail| < 2 then "" else tail[2..]);
            ReadEntries(IndexLine(kind, name, n, tail) + "\n" + more)
            == ([Entry(name, node)] + ReadEntries(more).0, ReadEntries(more).1)
  {
    hide ReadEntries, FieldsOf, IndexLine, Number, PrintInt;
    OneLine(kind, name, n, tail);
    FieldsOfIndexLine(kind, name, n, tail);
    LongerThanE(kind, name, n, tail);
    NumberOfPrint(n.mode);
    NumberOfPrint(n.size);
    NumberOfPrint(n.mtime - GROW_EPOCH);
    ReadStep(IndexLine(kind, name, n, tail), more);
  }

  lemma ReadLeaf(e: Entry, path: string, cache: Cache, checksums: bool, more: string)
    requires WellFormedEntry(e) && WordsOnly(cache) && !Skipped(e.name) && !e.node.Dir?
    ensures ReadEntries(ListOne(e, path, cache, checksums) + more)
            == (VisibleOf(e, path, cache, checksums) + ReadEntries(more).0, ReadEntries(more).1)
  {
    hide ReadEntries, IndexLine, Checksum, Skipped, WordsOnly;
    var n, checksum := e.node, Checksum(e.node, path + "/" + e.name, cache, checksums);
    LeafIsClean(e, path + "/" + e.name, cache, checksums);
    if n.Link? {
      var tail := "0 " + n.target;
      assert tail[2..] == n.target;
      ReadLine("L", e.name, n, tail, more);
    } else {
      ReadLine("F", e.name, n, checksum, more);
    }
  }

  /** Nothing that is listed gets lost: the text of an index alone gives back every listed entry, at its depth, with its
      kind, name, mode, size and time, and its checksum, target or entries. */
  lemma IndexIsFaithful(top: string, t: Node, cache: Cache, checksums: bool)
    requires WellFormedTree(t) && WordsOnly(cache)
    ensures ReadEntries(Index(top, t, cache, checksums))
            == ([Entry("root", Dir(t.mode, t.size, t.mtime, Visible(t.entries, top, cache, checksums)))], "")
  {
    hide ReadEntries, List, DirLine, Visible, WordsOnly, WellFormed;
    var body := List(t.entries, top, cache, checksums) + "E\n";
    ReadList(t.entries, top, cache, checksums, "");
    assert body + "" == body;
    ReadDir("root", t, body);
    NothingToRead();
    var root := Entry("root", Dir(t.mode, t.size, t.mtime, Visible(t.entries, top, cache, checksums)));
    assert [root] + [] == [root];
    assert Index(top, t, cache, checksums) == DirLine("root", t) + "\n" + body;
  }

  lemma NothingToRead()
    ensures ReadEntries("") == ([], "")
  {
  }

  // ---- Two trees ----

  /** The listed part of a tree. */
  function ListedPart(es: seq<Entry>): seq<Entry>
    decreases es
  {
    if es == [] then [] else ListedPartOf(es[0]) + ListedPart(es[1..])
  }

  function ListedPartOf(e: Entry): seq<Entry>
    decreases e
  {
    if Skipped(e.name) then []
    else if e.node.Dir? then [Entry(e.name, e.node.(entries := ListedPart(e.node.entries)))]
    else [e]
  }

  lemma {:induction false} FullListingShowsAll(es: seq<Entry>, path: string)
    ensures Visible(es, path, map[], true) == ListedPart(es)
    decreases es
  {
    hide Skipped;
    if es != [] {
      if es[0].node.Dir? {
        FullListingShowsAll(es[0].node.entries, path + "/" + es[0].name);
      }
      FullListingShowsAll(es[1..], path);
    }
  }

  /** Trees with the same full index have the same listed part. */
  lemma SameIndexSameTree(top: string, t: Node, u: Node)
    requires WellFormedTree(t) && WellFormedTree(u) && Index(top, t, map[], true) == Index(top, u, map[], true)
    ensures t.(entries := ListedPart(t.entries)) == u.(entries := ListedPart(u.entries))
  {
    hide ReadEntries, Index, Visible, ListedPart, WellFormed;
    IndexIsFaithful(top, t, map[], true);
    IndexIsFaithful(top, u, map[], true);
    FullListingShowsAll(t.entries, top);
    FullListingShowsAll(u.entries, top);
  }

  // ---- What is not listed ----

  /** Exactly the directory itself, its parent, and every name that has `growfs` in it after at least one character. */
  lemma SkippedIff(name: string)
    ensures Skipped(name) <==>
              name == "." || name == ".."
              || exists a: string, b: string :: a != "" && name == a + "growfs" + b
  {
    if exists i :: 1 <= i <= |name| && MarkedAt(name, i) {
      var i :| 1 <= i <= |name| && MarkedAt(name, i);
      assert name == name[..i] + "growfs" + name[i + 6..];
    }
    if exists a: string, b: string :: a != "" && name == a + "growfs" + b {
      var a: string, b: string :| a != "" && name == a + "growfs" + b;
      assert MarkedAt(name, |a|);
    }
  }

  /** The program's own files are never listed. */
  lemma OwnFilesSkipped()
    ensures Skipped(".growfsdir") && Skipped(".growfsdirtmp") && Skipped(".growfschecksum") && !Skipped("growfs")
  {
    assert MarkedAt(".growfsdir", 1) && MarkedAt(".growfsdirtmp", 1) && MarkedAt(".growfschecksum", 1);
  }
}
