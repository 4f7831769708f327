// The host's three command tables: requests sent, requests retired, results received.
module Commands {
  import opened Wrappers
  import opened Common

  datatype Request = Request(timestamp: real, to: VmId, cmd: string, args: string, env: string, path: string,
                             fileForStdin: string)

  /** The results of a command. The host files whatever fields come with a command's id; `Odd` are other fields than
      those that machines send. */
  datatype Results =
    | Results(out: string, err: string, finished: bool, code: int, resources: string)
    | Odd(fields: map<string, string>)

  datatype Tables = Tables(sent: map<CmdId, Request>, retired: map<CmdId, Request>, rcvd: map<CmdId, Results>)

  const EMPTY := Tables(map[], map[], map[])

  function Issue(t: Tables, id: CmdId, r: Request): Tables {
    t.(sent := t.sent[id := r])
  }

  /** A result arrives: its request must still be outstanding. */
  function Accept(t: Tables, id: CmdId, r: Results): Result<Tables, HostError> {
    if id !in t.sent then Err(AssertionFailed)
    else Ok(Tables(t.sent - {id}, t.retired[id := t.sent[id]], t.rcvd[id := r]))
  }

  function Pop(t: Tables, id: CmdId): (Tables, Option<Results>) {
    if id in t.rcvd then (t.(rcvd := t.rcvd - {id}), Some(t.rcvd[id])) else (t, None)
  }

  function Details(t: Tables, id: CmdId): Option<Request> {
    if id in t.sent then Some(t.sent[id]) else if id in t.retired then Some(t.retired[id]) else None
  }

  // ---- Runs ----

  datatype Act = Sends(id: CmdId, request: Request) | Arrives(id: CmdId, results: Results) | Pops(id: CmdId)

  /** The tables, and how often each result has been handed to a caller. */
  datatype Desk = Desk(tables: Tables, handed: multiset<CmdId>)

  function Step(d: Desk, a: Act): Desk {
    match a
    case Sends(id, r) => d.(tables := Issue(d.tables, id, r))
    case Arrives(id, r) =>
      var t := Accept(d.tables, id, r);
      if t.Ok? then d.(tables := t.value) else d
    case Pops(id) =>
      var (t, r) := Pop(d.tables, id);
      Desk(t, if r.Some? then d.handed + multiset{id} else d.handed)
  }

  function Run(acts: seq<Act>): Desk {
    if acts == [] then Desk(EMPTY, multiset{}) else Step(Run(acts[..|acts| - 1]), acts[|acts| - 1])
  }

  function IssuedIds(acts: seq<Act>): set<CmdId> {
    set i | 0 <= i < |acts| && acts[i].Sends? :: acts[i].id
  }

  predicate FreshIds(acts: seq<Act>) {
    forall i, j :: 0 <= i < j < |acts| && acts[i].Sends? && acts[j].Sends? ==> acts[i].id != acts[j].id
  }

  /** Outstanding and retired are apart, results belong to retired requests, and a retired request's result is either
      waiting or has been handed out exactly once. */
  ghost predicate Orderly(d: Desk) {
    && d.tables.sent.Keys !! d.tables.retired.Keys
    && d.tables.rcvd.Keys <= d.tables.retired.Keys
    && forall id :: d.handed[id] + (if id in d.tables.rcvd then 1 else 0) == if id in d.tables.retired then 1 else 0
  }

  lemma StepOrderly(d: Desk, a: Act)
    requires Orderly(d) && (a.Sends? ==> a.id !in d.tables.sent && a.id !in d.tables.retired)
    ensures Orderly(Step(d, a))
    ensures forall id :: id in d.tables.sent || id in d.tables.retired ==>
              Details(Step(d, a).tables, id) == Details(d.tables, id)
  {
  }

  lemma FreshSnoc(acts: seq<Act>, a: Act)
    requires FreshIds(acts + [a])
    ensures FreshIds(acts) && (a.Sends? ==> a.id !in IssuedIds(acts))
    ensures IssuedIds(acts + [a]) == IssuedIds(acts) + if a.Sends? then {a.id} else {}
  {
    var all := acts + [a];
    assert all[|acts|] == a;
    assert forall i :: 0 <= i < |acts| ==> all[i] == acts[i];
  }

  /** Over any run with fresh ids: sent and retired partition the issued ids, and the tables are orderly. */
  lemma {:induction false} Lifecycle(acts: seq<Act>)
    requires FreshIds(acts)
    ensures var d := Run(acts);
            Orderly(d) && d.tables.sent.Keys + d.tables.retired.Keys == IssuedIds(acts)
  {
    if acts != [] {
      var front, a := acts[..|acts| - 1], acts[|acts| - 1];
      assert acts == front + [a];
      FreshSnoc(front, a);
      Lifecycle(front);
      hide Orderly, FreshIds, IssuedIds;
      StepOrderly(Run(front), a);
    }
  }

  /** No result is ever handed out twice. */
  lemma HandedAtMostOnce(acts: seq<Act>, id: CmdId)
    requires FreshIds(acts)
    ensures Run(acts).handed[id] <= 1
    ensures Run(acts).handed[id] == 1 ==> id in Run(acts).tables.retired && id !in Run(acts).tables.rcvd
  {
    Lifecycle(acts);
  }

  lemma RunSnoc(acts: seq<Act>, a: Act)
    ensures Run(acts + [a]) == Step(Run(acts), a)
  {
    assert (acts + [a])[..|acts|] == acts;
  }

  /** An issued command shows the same record in every later state, before and after it is retired. */
  lemma {:induction false} DetailsNeverChange(acts: seq<Act>, more: seq<Act>, id: CmdId)
    requires FreshIds(acts + more) && id in IssuedIds(acts)
    ensures id in IssuedIds(acts + more) && Details(Run(acts).tables, id).Some?
    ensures Details(Run(acts + more).tables, id) == Details(Run(acts).tables, id)
    decreases |more|
  {
    if more == [] {
      assert acts + more == acts;
      Lifecycle(acts);
    } else {
      var front, a := more[..|more| - 1], more[|more| - 1];
      var some := acts + front;
      assert acts + more == some + [a];
      hide Run, Details, IssuedIds, FreshIds, Orderly, Step;
      FreshSnoc(some, a);
      DetailsNeverChange(acts, front, id);
      Lifecycle(some);
      RunSnoc(some, a);
      IssuedShowsUp(Run(some), id);
      StepOrderly(Run(some), a);
    }
  }

  lemma IssuedShowsUp(d: Desk, id: CmdId)
    ensures Details(d.tables, id).Some? <==> id in d.tables.sent.Keys + d.tables.retired.Keys
  {
  }
}
