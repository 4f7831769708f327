// The cluster audit: one pass over every host's lines fills redundant tables by host, by user, and by both.
module Audit {
  import opened Wrappers
  import opened Text

  datatype Tally = Tally(files: int, dirs: int, bytes: int) {
    function Plus(t: Tally): Tally {
      Tally(files + t.files, dirs + t.dirs, bytes + t.bytes)
    }
  }

  const ZERO := Tally(0, 0, 0)

  type Table = map<string, Tally>

  type CrossTable = map<string, Table>

  /** One usable line of a host's audit. */
  datatype Row = Row(host: string, user: string, usage: Tally)

  datatype Axis = Host | User

  function Key(r: Row, axis: Axis): string {
    if axis == Host then r.host else r.user
  }

  function Get(t: Table, k: string): Tally {
    if k in t then t[k] else ZERO
  }

  function Cell(t: CrossTable, a: string, b: string): Tally {
    if a in t then Get(t[a], b) else ZERO
  }

  function Add(t: Table, k: string, usage: Tally): Table {
    t[k := Get(t, k).Plus(usage)]
  }

  function AddCell(t: CrossTable, a: string, b: string, usage: Tally): CrossTable {
    t[a := Add(if a in t then t[a] else map[], b, usage)]
  }

  // ---- The lines ----

  predicate IsError(line: string) {
    WordAt(Split(line), 0) == "couldn't"
  }

  function RowOf(host: string, line: string): Row {
    var w := Split(line);
    Row(host, WordAt(w, 3), Tally(Number(WordAt(w, 0)), Number(WordAt(w, 1)), Number(WordAt(w, 2))))
  }

  function RowsOfHost(host: string, lines: seq<string>): seq<Row> {
    if lines == [] then []
    else RowsOfHost(host, lines[..|lines| - 1])
         + if IsError(lines[|lines| - 1]) then [] else [RowOf(host, lines[|lines| - 1])]
  }

  function LinesOf(data: map<string, seq<string>>, host: string): seq<string> {
    if host in data then data[host] else []
  }

  function Rows(hosts: seq<string>, data: map<string, seq<string>>): seq<Row> {
    if hosts == [] then []
    else
      var h := hosts[|hosts| - 1];
      Rows(hosts[..|hosts| - 1], data) + RowsOfHost(h, LinesOf(data, h))
  }

  // ---- The tables, and what each entry means ----

  function Grouped(rows: seq<Row>, axis: Axis): Table {
    if rows == [] then map[]
    else
      var r := rows[|rows| - 1];
      Add(Grouped(rows[..|rows| - 1], axis), Key(r, axis), r.usage)
  }

  function Crossed(rows: seq<Row>, outer: Axis, inner: Axis): CrossTable {
    if rows == [] then map[]
    else
      var r := rows[|rows| - 1];
      AddCell(Crossed(rows[..|rows| - 1], outer, inner), Key(r, outer), Key(r, inner), r.usage)
  }

  /** The usage of the rows with the given host and user, where given. */
  function Total(rows: seq<Row>, host: Option<string>, user: Option<string>): Tally {
    if rows == [] then ZERO
    else
      var r := rows[|rows| - 1];
      var before := Total(rows[..|rows| - 1], host, user);
      if (host.Some? ==> r.host == host.value) && (user.Some? ==> r.user == user.value) then before.Plus(r.usage)
      else before
  }

  function TotalBy(rows: seq<Row>, axis: Axis, k: string): Tally {
    if axis == Host then Total(rows, Some(k), None) else Total(rows, None, Some(k))
  }

  function TotalCell(rows: seq<Row>, outer: Axis, a: string, b: string): Tally {
    if outer == Host then Total(rows, Some(a), Some(b)) else Total(rows, Some(b), Some(a))
  }

  predicate Mentions(rows: seq<Row>, axis: Axis, k: string) {
    exists i :: 0 <= i < |rows| && Key(rows[i], axis) == k
  }

  /** The sum over all entries of a table. */
  ghost function SumTable(t: Table): Tally {
    if t == map[] then ZERO
    else
      var k :| k in t;
      SumTable(t - {k}).Plus(t[k])
  }

  lemma PlusSwaps(a: Tally, b: Tally, c: Tally)
    ensures a.Plus(b).Plus(c) == a.Plus(c).Plus(b)
  {
  }

  lemma {:induction false} SumRemove(t: Table, k: string)
    requires k in t
    ensures SumTable(t) == SumTable(t - {k}).Plus(t[k])
    decreases |t|
  {
    var j :| j in t && SumTable(t) == SumTable(t - {j}).Plus(t[j]);
    if j != k {
      SumRemove(t - {j}, k);
      SumRemove(t - {k}, j);
      assert t - {j} - {k} == t - {k} - {j};
      PlusSwaps(SumTable(t - {j} - {k}), t[k], t[j]);
    }
  }

  lemma SumAdd(t: Table, k: string, usage: Tally)
    ensures SumTable(Add(t, k, usage)) == SumTable(t).Plus(usage)
  {
    var u := Add(t, k, usage);
    SumRemove(u, k);
    if k in t {
      SumRemove(t, k);
      assert u - {k} == t - {k};
    } else {
      assert u - {k} == t;
    }
  }

  /** The entries of a one-way table add up to the grand total. */
  lemma {:induction false} GroupedConserves(rows: seq<Row>, axis: Axis)
    ensures SumTable(Grouped(rows, axis)) == Total(rows, None, None)
  {
    if rows != [] {
      var front, r := rows[..|rows| - 1], rows[|rows| - 1];
      GroupedConserves(front, axis);
      SumAdd(Grouped(front, axis), Key(r, axis), r.usage);
    }
  }

  /** Every one-way entry is the sum of the matching rows, and there is one exactly when some row matches. */
  lemma {:induction false} GroupedIsTotal(rows: seq<Row>, axis: Axis, k: string)
    ensures Get(Grouped(rows, axis), k) == TotalBy(rows, axis, k)
    ensures k in Grouped(rows, axis) <==> Mentions(rows, axis, k)
  {
    if rows != [] {
      var front, r := rows[..|rows| - 1], rows[|rows| - 1];
      GroupedIsTotal(front, axis, k);
      assert Mentions(rows, axis, k) <==> Mentions(front, axis, k) || k == Key(r, axis) by {
        assert forall i :: 0 <= i < |front| ==> front[i] == rows[i];
        assert rows[|rows| - 1] == r;
      }
    }
  }

  /** Every two-way entry is the sum of the rows with that host and that user. */
  lemma {:induction false} CrossedIsTotal(rows: seq<Row>, outer: Axis, inner: Axis, a: string, b: string)
    requires outer != inner
    ensures Cell(Crossed(rows, outer, inner), a, b) == TotalCell(rows, outer, a, b)
  {
    if rows != [] {
      CrossedIsTotal(rows[..|rows| - 1], outer, inner, a, b);
    }
  }

  predicate HasCell(t: CrossTable, a: string, b: string) {
    a in t && b in t[a]
  }

  /** The two two-way tables are transposes: the same cells, with the same contents. */
  lemma {:induction false} Transposes(rows: seq<Row>, h: string, u: string)
    ensures HasCell(Crossed(rows, Host, User), h, u) <==> HasCell(Crossed(rows, User, Host), u, h)
    ensures Cell(Crossed(rows, Host, User), h, u) == Cell(Crossed(rows, User, Host), u, h)
  {
    CrossedIsTotal(rows, Host, User, h, u);
    CrossedIsTotal(rows, User, Host, u, h);
    if rows != [] {
      Transposes(rows[..|rows| - 1], h, u);
    }
  }

  /** The rows of a two-way table add up to the entries of the one-way table. */
  lemma {:induction false} RowSums(rows: seq<Row>, outer: Axis, inner: Axis)
    ensures Crossed(rows, outer, inner).Keys == Grouped(rows, outer).Keys
    ensures forall a :: a in Crossed(rows, outer, inner) ==>
              SumTable(Crossed(rows, outer, inner)[a]) == Grouped(rows, outer)[a]
  {
    if rows != [] {
      var front, r := rows[..|rows| - 1], rows[|rows| - 1];
      RowSums(front, outer, inner);
      var t := Crossed(front, outer, inner);
      var a := Key(r, outer);
      SumAdd(if a in t then t[a] else map[], Key(r, inner), r.usage);
    }
  }

  ghost function RowTotals(t: CrossTable): Table {
    map a | a in t :: SumTable(t[a])
  }

  /** Hosts, users, and either two-way table all add up to the same grand total. */
  lemma AllTablesConserve(rows: seq<Row>, outer: Axis, inner: Axis)
    ensures RowTotals(Crossed(rows, outer, inner)) == Grouped(rows, outer)
    ensures SumTable(RowTotals(Crossed(rows, outer, inner))) == SumTable(Grouped(rows, outer))
            == Total(rows, None, None)
  {
    RowSums(rows, outer, inner);
    GroupedConserves(rows, outer);
  }

  // ---- Counting lines ----

  type Counts = map<string, nat>

  function Bump(t: Counts, k: string): Counts {
    t[k := 1 + if k in t then t[k] else 0]
  }

  /** How many lines there are for each host, or for each user. */
  function Lines(rows: seq<Row>, axis: Axis): Counts {
    if rows == [] then map[]
    else Bump(Lines(rows[..|rows| - 1], axis), Key(rows[|rows| - 1], axis))
  }

  /** The rows as usages of one file each, so that counting lines is adding usages up. */
  function Units(rows: seq<Row>): (units: seq<Row>)
    ensures |units| == |rows|
    ensures forall i :: 0 <= i < |rows| ==> units[i] == Row(rows[i].host, rows[i].user, Tally(1, 0, 0))
  {
    seq(|rows|, i requires 0 <= i < |rows| => Row(rows[i].host, rows[i].user, Tally(1, 0, 0)))
  }

  ghost function AsTable(t: Counts): Table {
    map k | k in t :: Tally(t[k], 0, 0)
  }

  ghost function SumCounts(t: Counts): int {
    SumTable(AsTable(t)).files
  }

  lemma {:induction false} LinesAreUnits(rows: seq<Row>, axis: Axis)
    ensures AsTable(Lines(rows, axis)) == Grouped(Units(rows), axis)
    ensures Total(Units(rows), None, None) == Tally(|rows|, 0, 0)
  {
    if rows != [] {
      var front := rows[..|rows| - 1];
      LinesAreUnits(front, axis);
      assert Units(rows)[..|front|] == Units(front);
    }
  }

  /** The counters of lines add up to the number of lines, by host and by user. */
  lemma LinesConserve(rows: seq<Row>, axis: Axis)
    ensures SumCounts(Lines(rows, axis)) == |rows|
  {
    LinesAreUnits(rows, axis);
    GroupedConserves(Units(rows), axis);
  }

  /** How many rows have the given key. */
  function Occurrences(rows: seq<Row>, axis: Axis, k: string): nat {
    if rows == [] then 0
    else Occurrences(rows[..|rows| - 1], axis, k) + if Key(rows[|rows| - 1], axis) == k then 1 else 0
  }

  /** Each counter is the number of its rows, and there is one exactly for the hosts or users that have rows. */
  lemma {:induction false} LinesAreCounted(rows: seq<Row>, axis: Axis, k: string)
    ensures k in Lines(rows, axis) <==> k in Grouped(rows, axis)
    ensures Occurrences(rows, axis, k) == if k in Lines(rows, axis) then Lines(rows, axis)[k] else 0
  {
    if rows != [] { LinesAreCounted(rows[..|rows| - 1], axis, k); }
  }

  // ---- The reports ----

  /** The rows that a report prints, of those it goes through: empty ones are skipped. */
  function Printed(t: Table, keys: seq<string>): seq<string> {
    if keys == [] then []
    else if Get(t, keys[0]).bytes == 0 then Printed(t, keys[1..])
    else [keys[0]] + Printed(t, keys[1..])
  }

  /** The bytes that rows for `keys` show in all. */
  function Bytes(t: Table, keys: seq<string>): int {
    if keys == [] then 0 else Get(t, keys[0]).bytes + Bytes(t, keys[1..])
  }

  /** Exactly the rows with bytes are printed. */
  lemma {:induction false} PrintedAreNonempty(t: Table, keys: seq<string>, k: string)
    ensures k in Printed(t, keys) <==> k in keys && Get(t, k).bytes != 0
  {
    if keys != [] {
      PrintedAreNonempty(t, keys[1..], k);
      assert keys == [keys[0]] + keys[1..];
    }
  }

  /** Skipping the empty rows leaves the sum of what is printed unchanged. */
  lemma {:induction false} SkippingKeepsSum(t: Table, keys: seq<string>)
    ensures Bytes(t, Printed(t, keys)) == Bytes(t, keys)
  {
    if keys != [] {
      var rest := Printed(t, keys[1..]);
      SkippingKeepsSum(t, keys[1..]);
      assert ([keys[0]] + rest)[1..] == rest;
    }
  }

  /** Rows for distinct keys that cover a table, in any order, show the sum of the table. */
  lemma {:induction false} BytesAreWhole(t: Table, keys: seq<string>)
    requires NoRepeats(keys) && forall k :: k in t ==> k in keys
    ensures Bytes(t, keys) == SumTable(t).bytes
  {
    if keys == [] {
      assert t == map[];
    } else {
      var k := keys[0];
      var rest := t - {k};
      forall j | j in rest
        ensures j in keys[1..]
      {
        assert j in keys && keys == [k] + keys[1..];
      }
      BytesAreWhole(rest, keys[1..]);
      BytesAgree(t, rest, keys[1..], k);
      if k in t { SumRemove(t, k); } else { assert rest == t; }
    }
  }

  lemma {:induction false} BytesAgree(t: Table, rest: Table, keys: seq<string>, k: string)
    requires k !in keys && rest == t - {k}
    ensures Bytes(t, keys) == Bytes(rest, keys)
  {
    if keys != [] {
      assert keys[0] in keys && keys[0] != k;
      BytesAgree(t, rest, keys[1..], k);
    }
  }

  /** What a report that skips empty rows shows, for distinct keys that cover the table, is the sum of the table. */
  lemma PrintedIsWhole(t: Table, keys: seq<string>)
    requires NoRepeats(keys) && forall k :: k in t ==> k in keys
    ensures Bytes(t, Printed(t, keys)) == SumTable(t).bytes
  {
    SkippingKeepsSum(t, keys);
    BytesAreWhole(t, keys);
  }

  predicate NoRepeats(keys: seq<string>) {
    forall i, j :: 0 <= i < j < |keys| ==> keys[i] != keys[j]
  }

  /** The one-way reports, for distinct keys in any order, account for every byte: the report by host skips empty
      rows, the one by user does not. */
  lemma ReportsConserve(hosts: seq<string>, data: map<string, seq<string>>, order: seq<string>, users: seq<string>)
    requires NoRepeats(order) && forall h :: h in hosts ==> h in order
    requires NoRepeats(users) && forall u :: u in Grouped(Rows(hosts, data), User) ==> u in users
    ensures var rows := Rows(hosts, data);
            Bytes(Grouped(rows, Host), Printed(Grouped(rows, Host), order)) == Total(rows, None, None).bytes
            && Bytes(Grouped(rows, User), users) == Total(rows, None, None).bytes
  {
    var rows := Rows(hosts, data);
    GroupedConserves(rows, Host);
    GroupedConserves(rows, User);
    RowsNameHosts(hosts, data);
    forall h | h in Grouped(rows, Host)
      ensures h in order
    {
      GroupedIsTotal(rows, Host, h);
    }
    PrintedIsWhole(Grouped(rows, Host), order);
    BytesAreWhole(Grouped(rows, User), users);
  }

  /** In the two-way reports, what is printed under a heading accounts for the heading's bytes. */
  lemma SectionsConserve(rows: seq<Row>, outer: Axis, inner: Axis, a: string, keys: seq<string>)
    requires outer != inner && a in Grouped(rows, outer)
    requires NoRepeats(keys) && forall k :: k in Grouped(rows, inner) ==> k in keys
    ensures a in Crossed(rows, outer, inner)
            && var section := Crossed(rows, outer, inner)[a];
               Bytes(section, Printed(section, keys)) == Grouped(rows, outer)[a].bytes
  {
    RowSums(rows, outer, inner);
    forall k | k in Crossed(rows, outer, inner)[a]
      ensures k in keys
    {
      InnerKeys(rows, outer, inner, a, k);
    }
    PrintedIsWhole(Crossed(rows, outer, inner)[a], keys);
  }

  /** The bytes of all lines under all headings of a two-way report. */
  function ReportBytes(t: CrossTable, headings: seq<string>, keys: seq<string>): int {
    if headings == [] then 0
    else
      var section := if headings[0] in t then t[headings[0]] else map[];
      Bytes(section, Printed(section, keys)) + ReportBytes(t, headings[1..], keys)
  }

  lemma {:induction false} HeadingsConserve(rows: seq<Row>, outer: Axis, inner: Axis, headings: seq<string>,
                                            keys: seq<string>)
    requires outer != inner && forall a :: a in headings ==> a in Grouped(rows, outer)
    requires NoRepeats(keys) && forall k :: k in Grouped(rows, inner) ==> k in keys
    ensures ReportBytes(Crossed(rows, outer, inner), headings, keys) == Bytes(Grouped(rows, outer), headings)
  {
    if headings != [] {
      assert headings[0] in headings;
      SectionsConserve(rows, outer, inner, headings[0], keys);
      HeadingsConserve(rows, outer, inner, headings[1..], keys);
    }
  }

  /** Both two-way reports, which skip empty headings and empty lines, account for every byte. */
  lemma TwoWayConserves(rows: seq<Row>, outer: Axis, inner: Axis, order: seq<string>, keys: seq<string>)
    requires outer != inner
    requires NoRepeats(order) && forall a :: a in Grouped(rows, outer) ==> a in order
    requires NoRepeats(keys) && forall k :: k in Grouped(rows, inner) ==> k in keys
    ensures var headings := Printed(Grouped(rows, outer), order);
            ReportBytes(Crossed(rows, outer, inner), headings, keys) == Total(rows, None, None).bytes
  {
    var t := Grouped(rows, outer);
    var headings := Printed(t, order);
    forall a | a in headings ensures a in t { PrintedAreNonempty(t, order, a); }
    HeadingsConserve(rows, outer, inner, headings, keys);
    PrintedIsWhole(t, order);
    GroupedConserves(rows, outer);
  }

  lemma {:induction false} RowsNameHosts(hosts: seq<string>, data: map<string, seq<string>>)
    ensures forall i :: 0 <= i < |Rows(hosts, data)| ==> Rows(hosts, data)[i].host in hosts
  {
    if hosts != [] {
      var h := hosts[|hosts| - 1];
      RowsNameHosts(hosts[..|hosts| - 1], data);
      HostRowsNameHost(h, LinesOf(data, h));
    }
  }

  lemma {:induction false} HostRowsNameHost(h: string, lines: seq<string>)
    ensures forall i :: 0 <= i < |RowsOfHost(h, lines)| ==> RowsOfHost(h, lines)[i].host == h
  {
    if lines != [] {
      HostRowsNameHost(h, lines[..|lines| - 1]);
    }
  }

  lemma {:induction false} InnerKeys(rows: seq<Row>, outer: Axis, inner: Axis, a: string, b: string)
    requires HasCell(Crossed(rows, outer, inner), a, b)
    ensures b in Grouped(rows, inner)
  {
    var front := rows[..|rows| - 1];
    if HasCell(Crossed(front, outer, inner), a, b) {
      InnerKeys(front, outer, inner, a, b);
    }
  }

  // ---- From what the hosts print to the rows ----

  type UserName = w: string | IsWord(w) witness "u"

  /** What a host prints, line by line: the usage of a user, or why there is none. */
  datatype Report = Usage(user: UserName, usage: Tally) | Failure(why: string)

  function LineOf(r: Report): string {
    match r
    case Usage(user, usage) =>
      PrintInt(usage.files) + " " + PrintInt(usage.dirs) + " " + PrintInt(usage.bytes) + " " + user
    case Failure(why) => "couldn't " + why
  }

  function LinesFor(reports: seq<Report>): seq<string> {
    if reports == [] then [] else LinesFor(reports[..|reports| - 1]) + [LineOf(reports[|reports| - 1])]
  }

  /** The usages among what a host prints. */
  function Usages(host: string, reports: seq<Report>): seq<Row> {
    if reports == [] then []
    else
      var r := reports[|reports| - 1];
      Usages(host, reports[..|reports| - 1]) + if r.Usage? then [Row(host, r.user, r.usage)] else []
  }

  function Failures(reports: seq<Report>): nat {
    if reports == [] then 0
    else Failures(reports[..|reports| - 1]) + if reports[|reports| - 1].Failure? then 1 else 0
  }

  /** A printed number is not the word that marks an error. */
  lemma NumberIsNoError(i: int)
    ensures PrintInt(i) != "couldn't"
  {
    IntRoundTrip(i);
    assert !AllDigits("couldn't") by { assert "couldn't"[0] == 'c'; }
    assert ParseInt("couldn't") == None;
  }

  lemma FourWords(a: string, b: string, c: string, d: string)
    requires IsWord(a) && IsWord(b) && IsWord(c) && IsWord(d)
    ensures Split(a + " " + b + " " + c + " " + d) == [a, b, c, d]
  {
    hide Split, IsWord;
    assert a + " " + b + " " + c + " " + d == a + [' '] + (b + [' '] + (c + [' '] + d));
    SplitCons(a, ' ', b + [' '] + (c + [' '] + d));
    SplitCons(b, ' ', c + [' '] + d);
    SplitCons(c, ' ', d);
    SplitOne(d);
  }

  /** A line with a usage is read as that usage: files, directories, bytes, user. */
  lemma UsageIsRead(host: string, user: UserName, usage: Tally)
    ensures !IsError(LineOf(Usage(user, usage))) && RowOf(host, LineOf(Usage(user, usage))) == Row(host, user, usage)
  {
    IntRoundTrip(usage.files);
    IntRoundTrip(usage.dirs);
    IntRoundTrip(usage.bytes);
    hide PrintInt, Split, Number;
    FourWords(PrintInt(usage.files), PrintInt(usage.dirs), PrintInt(usage.bytes), user);
    NumberIsNoError(usage.files);
    NumberOfPrint(usage.files);
    NumberOfPrint(usage.dirs);
    NumberOfPrint(usage.bytes);
  }

  /** A line that reports a failure is an error line. */
  lemma FailureIsError(why: string)
    ensures IsError(LineOf(Failure(why)))
  {
    assert IsWord("couldn't");
    assert "couldn't " + why == "couldn't" + [' '] + why;
    SplitCons("couldn't", ' ', why);
    hide Split;
  }

  /** However usages and failures are mixed, a host's lines give exactly its usages, and its failures are counted. */
  lemma {:induction false} LinesAreRead(host: string, reports: seq<Report>)
    ensures RowsOfHost(host, LinesFor(reports)) == Usages(host, reports)
    ensures Errors(LinesFor(reports)) == Failures(reports)
  {
    if reports != [] {
      var front, r := reports[..|reports| - 1], reports[|reports| - 1];
      LinesAreRead(host, front);
      assert LinesFor(reports)[..|LinesFor(reports)| - 1] == LinesFor(front);
      match r
      case Usage(user, usage) => UsageIsRead(host, user, usage);
      case Failure(why) => FailureIsError(why);
    }
  }

  type Cluster = map<string, seq<Report>>

  /** The lines that the hosts of a cluster print. */
  function DataOf(cluster: Cluster): map<string, seq<string>> {
    map h | h in cluster :: LinesFor(cluster[h])
  }

  function ReportsOf(cluster: Cluster, host: string): seq<Report> {
    if host in cluster then cluster[host] else []
  }

  function AllUsages(hosts: seq<string>, cluster: Cluster): seq<Row> {
    if hosts == [] then []
    else
      var h := hosts[|hosts| - 1];
      AllUsages(hosts[..|hosts| - 1], cluster) + Usages(h, ReportsOf(cluster, h))
  }

  function AllFailures(hosts: seq<string>, cluster: Cluster): nat {
    if hosts == [] then 0
    else AllFailures(hosts[..|hosts| - 1], cluster) + Failures(ReportsOf(cluster, hosts[|hosts| - 1]))
  }

  /** What the whole cluster prints gives exactly the usages it reports, so that the tables are about those. */
  lemma {:induction false} ClusterIsRead(hosts: seq<string>, cluster: Cluster)
    ensures Rows(hosts, DataOf(cluster)) == AllUsages(hosts, cluster)
    ensures ErrorLines(hosts, DataOf(cluster)) == AllFailures(hosts, cluster)
  {
    if hosts != [] {
      var h := hosts[|hosts| - 1];
      ClusterIsRead(hosts[..|hosts| - 1], cluster);
      LinesAreRead(h, ReportsOf(cluster, h));
      assert LinesOf(DataOf(cluster), h) == LinesFor(ReportsOf(cluster, h));
    }
  }

  // ---- The pass ----

  /** The rows once the first `n` lines of a host have been taken. */
  ghost function RowsSoFar(before: seq<Row>, host: string, lines: seq<string>, n: nat): seq<Row>
    requires n <= |lines|
  {
    before + RowsOfHost(host, lines[..n])
  }

  ghost function ErrorsSoFar(lines: seq<string>, n: nat): nat
    requires n <= |lines|
  {
    Errors(lines[..n])
  }

  lemma LineByLine(before: seq<Row>, host: string, lines: seq<string>)
    ensures RowsSoFar(before, host, lines, 0) == before && ErrorsSoFar(lines, 0) == 0
    ensures RowsSoFar(before, host, lines, |lines|) == before + RowsOfHost(host, lines)
    ensures ErrorsSoFar(lines, |lines|) == Errors(lines)
  {
    assert lines[..|lines|] == lines;
  }

  lemma OneMoreLine(before: seq<Row>, host: string, lines: seq<string>, n: nat)
    requires n < |lines|
    ensures RowsSoFar(before, host, lines, n + 1)
            == if IsError(lines[n]) then RowsSoFar(before, host, lines, n)
               else RowsSoFar(before, host, lines, n) + [RowOf(host, lines[n])]
    ensures ErrorsSoFar(lines, n + 1) == ErrorsSoFar(lines, n) + if IsError(lines[n]) then 1 else 0
  {
    assert lines[..n + 1][..n] == lines[..n];
  }

  lemma OneMoreHost(hosts: seq<string>, data: map<string, seq<string>>, i: nat)
    requires i < |hosts|
    ensures Rows(hosts[..i + 1], data) == Rows(hosts[..i], data) + RowsOfHost(hosts[i], LinesOf(data, hosts[i]))
    ensures ErrorLines(hosts[..i + 1], data) == ErrorLines(hosts[..i], data) + Errors(LinesOf(data, hosts[i]))
  {
    assert hosts[..i + 1][..i] == hosts[..i];
  }

  lemma OneMoreRow(rows: seq<Row>, r: Row, outer: Axis, inner: Axis)
    ensures Grouped(rows + [r], outer) == Add(Grouped(rows, outer), Key(r, outer), r.usage)
    ensures Crossed(rows + [r], outer, inner)
            == AddCell(Crossed(rows, outer, inner), Key(r, outer), Key(r, inner), r.usage)
    ensures Lines(rows + [r], outer) == Bump(Lines(rows, outer), Key(r, outer))
    ensures Total(rows + [r], None, None) == Total(rows, None, None).Plus(r.usage)
  {
    assert (rows + [r])[..|rows|] == rows;
  }

  class Auditor {
    var hostTable: Table
    var userTable: Table
    var userHost: CrossTable
    var hostUser: CrossTable
    var total: Tally
    var hostUsers: Counts
    var userHosts: Counts
    var users: Counts
    var totalHosts: nat
    var errors: nat

    constructor ()
      ensures Tabulates([]) && errors == 0
    {
      hostTable, userTable, userHost, hostUser, total := map[], map[], map[], map[], ZERO;
      hostUsers, userHosts, users, totalHosts, errors := map[], map[], map[], 0, 0;
    }

    /** The tables are those of the given rows. */
    ghost predicate Tabulates(rows: seq<Row>)
      reads this`hostTable, this`userTable, this`userHost, this`hostUser, this`total
      reads this`hostUsers, this`userHosts, this`users, this`totalHosts
    {
      hostTable == Grouped(rows, Host) && userTable == Grouped(rows, User)
      && userHost == Crossed(rows, User, Host) && hostUser == Crossed(rows, Host, User)
      && total == Total(rows, None, None)
      && hostUsers == Lines(rows, Host) && userHosts == users == Lines(rows, User) && totalHosts == |rows|
    }

    /** The tables of a cluster are those of exactly the usages that its hosts report, whatever errors come between. */
    method CollateCluster(hosts: seq<string>, cluster: Cluster)
      requires Tabulates([]) && errors == 0
      modifies this
      ensures Tabulates(AllUsages(hosts, cluster)) && errors == AllFailures(hosts, cluster)
    {
      hide *;
      ClusterIsRead(hosts, cluster);
      Collate(hosts, DataOf(cluster));
    }

    method Collate(hosts: seq<string>, data: map<string, seq<string>>)
      requires Tabulates([]) && errors == 0
      modifies this
      ensures Tabulates(Rows(hosts, data))
      ensures errors == ErrorLines(hosts, data)
    {
      var i := 0;
      while i < |hosts|
        invariant 0 <= i <= |hosts|
        invariant Tabulates(Rows(hosts[..i], data)) && errors == ErrorLines(hosts[..i], data)
      {
        hide *;
        CollateHost(Rows(hosts[..i], data), hosts[i], LinesOf(data, hosts[i]));
        OneMoreHost(hosts, data, i);
        i := i + 1;
      }
      assert hosts[..i] == hosts;
    }

    method CollateHost(ghost before: seq<Row>, host: string, lines: seq<string>)
      requires Tabulates(before)
      modifies this
      ensures Tabulates(before + RowsOfHost(host, lines))
      ensures errors == old(errors) + Errors(lines)
    {
      hide *;
      LineByLine(before, host, lines);
      var n := 0;
      while n < |lines|
        invariant 0 <= n <= |lines|
        invariant Tabulates(RowsSoFar(before, host, lines, n)) && errors == old(errors) + ErrorsSoFar(lines, n)
      {
        OneMoreLine(before, host, lines, n);
        if IsError(lines[n]) {
          errors := errors + 1;
        } else {
          Count(RowsSoFar(before, host, lines, n), RowOf(host, lines[n]));
        }
        n := n + 1;
      }
    }

    method Count(ghost rows: seq<Row>, r: Row)
      requires Tabulates(rows)
      modifies this`hostTable, this`userTable, this`userHost, this`hostUser, this`total
      modifies this`hostUsers, this`userHosts, this`users, this`totalHosts
      ensures Tabulates(rows + [r])
    {
      OneMoreRow(rows, r, Host, User);
      OneMoreRow(rows, r, User, Host);
      hide Grouped, Crossed, Total, Lines, Add, AddCell, Bump;
      hostTable, hostUsers := Add(hostTable, r.host, r.usage), Bump(hostUsers, r.host);
      userTable, userHosts := Add(userTable, r.user, r.usage), Bump(userHosts, r.user);
      users := Bump(users, r.user);
      userHost := AddCell(userHost, r.user, r.host, r.usage);
      hostUser := AddCell(hostUser, r.host, r.user, r.usage);
      total, totalHosts := total.Plus(r.usage), totalHosts + 1;
    }
  }

  function Errors(lines: seq<string>): nat {
    if lines == [] then 0
    else Errors(lines[..|lines| - 1]) + if IsError(lines[|lines| - 1]) then 1 else 0
  }

  function ErrorLines(hosts: seq<string>, data: map<string, seq<string>>): nat {
    if hosts == [] then 0
    else ErrorLines(hosts[..|hosts| - 1], data) + Errors(LinesOf(data, hosts[|hosts| - 1]))
  }
}
