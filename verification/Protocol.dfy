// What holds in every state that the host, the machines and the network can reach.
module Protocol {
  import opened Wrappers
  import opened Common
  import opened Network
  import Commands
  import Executer
  import HostEngine
  import Pings
  import Registry
  import VmEngine
  import Words

  predicate Issued(w: World, id: CmdId) {
    id in w.host.cmds.sent || id in w.host.cmds.retired
  }

  /** An issued command is counted once, over all the places where it can be; what has been started is not asked for
      any more, what is running has been started, and what has been reported is neither asked for nor running. */
  ghost predicate Placed(w: World, id: CmdId) {
    var asked, running, reported := Count(w.pool, Asked, id), Count(w.pool, Running, id), Count(w.pool, Reported, id);
    var issued := if Issued(w, id) then 1 else 0;
    && asked + running + reported + (if id in w.lost then 1 else 0) + (if id in w.host.cmds.retired then 1 else 0)
      == issued
    && (id in w.started ==> asked == 0 && issued == 1) && (running == 1 ==> id in w.started)
    && (id in w.reports ==> asked == 0 && running == 0 && issued == 1)
  }

  /** The process runs what the request asked for. */
  predicate Starts(eval: Executer.Evaluator, r: Commands.Request, launch: Executer.Launch) {
    && launch.Spawned?
    && eval.list(r.args).Some? && launch.argv == [r.cmd] + eval.list(r.args).value
    && eval.value(r.env) == Some(launch.env) && eval.value(r.path) == Some(launch.path)
  }

  /** A request's copy for its target says what the host recorded; a process is at the machine that was named, and
      runs what was asked; a result says what was published. */
  predicate Fits(eval: Executer.Evaluator, w: World, p: Item) {
    var sent := w.host.cmds.sent;
    match p
    case ToVM(vm, m) => m.CmdRun? && m.to == vm ==> m.cmdId in sent && m == RunOf(m.cmdId, sent[m.cmdId])
    case Process(vm, id, launch) => id in sent && vm == sent[id].to && Starts(eval, sent[id], launch)
    case ToHost(m) => m.CmdResult? ==> m.cmdId in w.reports && w.reports[m.cmdId] == m.results
  }

  /** A received result is the one that was published. */
  predicate Genuine(w: World, id: CmdId) {
    id in w.host.cmds.rcvd ==> id in w.reports && w.host.cmds.rcvd[id] == w.reports[id]
  }

  predicate AllFit(eval: Executer.Evaluator, w: World) {
    forall p :: p in w.pool ==> Fits(eval, w, p)
  }

  ghost predicate AllPlaced(w: World) {
    forall id :: Placed(w, id) && Genuine(w, id)
  }

  ghost predicate Inv(eval: Executer.Evaluator, w: World) {
    && Distinct(w.up) && Distinct(w.started)
    && Commands.Orderly(Commands.Desk(w.host.cmds, w.handed))
    && AllPlaced(w)
    && AllFit(eval, w)
  }

  /** Whether an item fits depends on what the host has outstanding and on what has been published. */
  lemma FitsSame(eval: Executer.Evaluator, v: World, w: World, o: Item)
    requires v.host.cmds.sent == w.host.cmds.sent && v.reports == w.reports
    ensures Fits(eval, v, o) == Fits(eval, w, o)
  {
    hide Starts;
  }

  lemma AllFitSame(eval: Executer.Evaluator, v: World, w: World)
    requires v.host.cmds.sent == w.host.cmds.sent && v.reports == w.reports && AllFit(eval, v)
    requires forall o :: o in w.pool ==> o in v.pool
    ensures AllFit(eval, w)
  {
    hide Fits;
    forall o | o in w.pool ensures Fits(eval, w, o) {
      assert Fits(eval, v, o);
      FitsSame(eval, v, w, o);
    }
  }

  /** The counts with the item `p` at the end of the pool. */
  lemma Counts(w: World, p: Item, id: CmdId)
    ensures Count(w.pool + [p], Asked, id) == Count(w.pool, Asked, id) + if Carries(p, Asked, id) then 1 else 0
    ensures Count(w.pool + [p], Running, id) == Count(w.pool, Running, id) + if Carries(p, Running, id) then 1 else 0
    ensures Count(w.pool + [p], Reported, id) == Count(w.pool, Reported, id) + if Carries(p, Reported, id) then 1 else 0
  {
    CountSnoc(w.pool, p, Asked, id);
    CountSnoc(w.pool, p, Running, id);
    CountSnoc(w.pool, p, Reported, id);
  }

  // ---- One item leaves the pool ----

  lemma TakeOut(eval: Executer.Evaluator, w: World, k: nat)
    requires Inv(eval, w) && k < |w.pool|
    ensures Inv(eval, w.(pool := Without(w.pool, k) + [w.pool[k]]))
  {
    var v := w.(pool := Without(w.pool, k) + [w.pool[k]]);
    forall id ensures Placed(v, id) && Genuine(v, id) {
      assert Placed(w, id) && Genuine(w, id);
      hide Count;
      CountTaken(w.pool, k, Asked, id);
      CountTaken(w.pool, k, Running, id);
      CountTaken(w.pool, k, Reported, id);
    }
    AllFitSame(eval, w, v);
  }

  lemma MislaidPlaced(w: World, p: Item, id: CmdId)
    requires Placed(w.(pool := w.pool + [p]), id)
    ensures Placed(Mislaid(w, p), id)
  {
    hide Count;
    Counts(w, p, id);
  }

  lemma MislaidInv(eval: Executer.Evaluator, w: World, p: Item)
    requires Inv(eval, w.(pool := w.pool + [p]))
    ensures Inv(eval, Mislaid(w, p))
  {
    var v, u := w.(pool := w.pool + [p]), Mislaid(w, p);
    hide Placed, AllFit, Commands.Orderly;
    forall id ensures Placed(u, id) && Genuine(u, id) {
      assert Placed(v, id) && Genuine(v, id);
      MislaidPlaced(w, p, id);
    }
    AllFitSame(eval, v, u);
  }

  lemma QuietCount(extra: seq<Item>, s: Stage, id: CmdId)
    requires forall q :: q in extra ==> CommandOf(q) == None
    ensures Count(extra, s, id) == 0
  {
    if Count(extra, s, id) >= 1 {
      var q := CountWitness(extra, s, id);
    }
  }

  /** Items that stand for no command may be added. */
  lemma QuietInv(eval: Executer.Evaluator, w: World, extra: seq<Item>)
    requires Inv(eval, w) && forall q :: q in extra ==> CommandOf(q) == None
    ensures Inv(eval, w.(pool := w.pool + extra))
  {
    var u := w.(pool := w.pool + extra);
    hide Commands.Orderly, Count;
    forall id ensures Placed(u, id) && Genuine(u, id) {
      assert Placed(w, id) && Genuine(w, id);
      forall s ensures Count(u.pool, s, id) == Count(w.pool, s, id) {
        CountJoin(w.pool, extra, s, id);
        QuietCount(extra, s, id);
      }
    }
    hide Placed, Starts;
    forall q | q in u.pool ensures Fits(eval, u, q) {
      assert q in w.pool ==> Fits(eval, w, q);
    }
  }

  lemma StartPlaced(w: World, p: Item, q: Item, id: CmdId, i: CmdId)
    requires Carries(p, Asked, id) && Carries(q, Running, id) && Placed(w.(pool := w.pool + [p]), i)
    ensures Placed(w.(pool := w.pool + [q], started := w.started + [id]), i)
    ensures i == id ==> id !in w.started && id in w.host.cmds.sent
  {
    hide Count;
    Counts(w, p, i);
    Counts(w, q, i);
  }

  /** The machine named by a request starts its process. */
  lemma StartInv(eval: Executer.Evaluator, w: World, p: Item, launch: Executer.Launch)
    requires p.ToVM? && p.m.CmdRun? && p.m.to == p.vm && Inv(eval, w.(pool := w.pool + [p]))
    requires p.m.cmdId in w.host.cmds.sent ==> Starts(eval, w.host.cmds.sent[p.m.cmdId], launch)
    ensures var id := p.m.cmdId;
            Inv(eval, w.(pool := w.pool + [Process(p.vm, id, launch)], started := w.started + [id]))
  {
    var id := p.m.cmdId;
    var q := Process(p.vm, id, launch);
    var v, u := w.(pool := w.pool + [p]), w.(pool := w.pool + [q], started := w.started + [id]);
    assert Fits(eval, v, p) by { assert p in v.pool; }
    assert Fits(eval, u, q);
    hide Placed, Fits, Commands.Orderly;
    forall i
      ensures Placed(u, i) && Genuine(u, i)
      ensures i == id ==> id !in w.started
    {
      assert Placed(v, i) && Genuine(v, i);
      StartPlaced(w, p, q, id, i);
    }
    assert id !in w.started by { assert Placed(u, id); }
    forall o | o in w.pool ensures Fits(eval, u, o) {
      assert o in v.pool && Fits(eval, v, o);
      FitsSame(eval, v, u, o);
    }
  }

  lemma ReportPlaced(w: World, p: Item, id: CmdId, r: Commands.Results, i: CmdId)
    requires !p.ToHost? && CommandOf(p) == Some(id) && Placed(w.(pool := w.pool + [p]), i) && Genuine(w, i)
    ensures i == id ==> id !in w.reports && Count(w.pool, Reported, id) == 0
    ensures Placed(Says(w, Words.CmdResult(id, r)), i) && Genuine(Says(w, Words.CmdResult(id, r)), i)
  {
    hide Count;
    Counts(w, p, i);
    Counts(w, ToHost(Words.CmdResult(id, r)), i);
  }

  lemma ReportFits(eval: Executer.Evaluator, w: World, id: CmdId, r: Commands.Results, o: Item)
    requires id !in w.reports && Count(w.pool, Reported, id) == 0
    requires o in Says(w, Words.CmdResult(id, r)).pool && (o in w.pool ==> Fits(eval, w, o))
    ensures Fits(eval, Says(w, Words.CmdResult(id, r)), o)
  {
    hide Count, Starts;
    if o in w.pool && Carries(o, Reported, id) {
      CountMember(w.pool, o, Reported, id);
    }
  }

  /** A machine reports on the command it was asked for, or was running. */
  lemma ReportInv(eval: Executer.Evaluator, w: World, p: Item, id: CmdId, r: Commands.Results)
    requires !p.ToHost? && CommandOf(p) == Some(id) && Inv(eval, w.(pool := w.pool + [p]))
    ensures id !in w.reports
    ensures Inv(eval, Says(w, Words.CmdResult(id, r)))
  {
    var v, u := w.(pool := w.pool + [p]), Says(w, Words.CmdResult(id, r));
    hide Count, Commands.Orderly, Placed, Fits, Carries, CommandOf;
    assert id !in w.reports && Count(w.pool, Reported, id) == 0 by {
      assert Placed(v, id) && Genuine(v, id);
      ReportPlaced(w, p, id, r, id);
    }
    forall i ensures Placed(u, i) && Genuine(u, i) {
      assert Placed(v, i) && Genuine(v, i);
      ReportPlaced(w, p, id, r, i);
    }
    hide Genuine;
    forall o | o in u.pool ensures Fits(eval, u, o) {
      if o in w.pool {
        assert o in v.pool && Fits(eval, v, o);
        FitsSame(eval, v, w, o);
      }
      ReportFits(eval, w, id, r, o);
    }
  }

  lemma AcceptPlaced(w: World, id: CmdId, r: Commands.Results, i: CmdId)
    requires Placed(w.(pool := w.pool + [ToHost(Words.CmdResult(id, r))]), i) && Genuine(w, i)
    requires id in w.reports && w.reports[id] == r
    ensures i == id ==> id in w.host.cmds.sent && forall s :: Count(w.pool, s, id) == 0
    ensures id in w.host.cmds.sent ==>
              var u := w.(host := w.host.(cmds := Commands.Accept(w.host.cmds, id, r).value));
              Placed(u, i) && Genuine(u, i)
  {
    hide Count;
    Counts(w, ToHost(Words.CmdResult(id, r)), i);
    if i == id {
      forall s ensures Count(w.pool, s, id) == 0 {
        match s
        case Retired => NothingElseCounts(w.pool, s, id);
        case Lost => NothingElseCounts(w.pool, s, id);
        case Asked =>
        case Running =>
        case Reported =>
      }
    }
  }

  /** When a result arrives its request is outstanding, so that the assertion holds, and the tables stay sound. */
  lemma AcceptInv(eval: Executer.Evaluator, w: World, id: CmdId, r: Commands.Results)
    requires Inv(eval, w.(pool := w.pool + [ToHost(Words.CmdResult(id, r))]))
    ensures var t := Commands.Accept(w.host.cmds, id, r);
            t.Ok? && Inv(eval, w.(host := w.host.(cmds := t.value)))
  {
    var p := ToHost(Words.CmdResult(id, r));
    var v := w.(pool := w.pool + [p]);
    assert Fits(eval, v, p) by { assert p in v.pool; }
    hide Count, Placed, Starts;
    assert id in w.host.cmds.sent && forall s :: Count(w.pool, s, id) == 0 by {
      assert Placed(v, id) && Genuine(v, id);
      AcceptPlaced(w, id, r, id);
    }
    Commands.StepOrderly(Commands.Desk(w.host.cmds, w.handed), Commands.Arrives(id, r));
    hide Commands.Orderly;
    var u := w.(host := w.host.(cmds := Commands.Accept(w.host.cmds, id, r).value));
    forall i ensures Placed(u, i) && Genuine(u, i) {
      assert Placed(v, i) && Genuine(v, i);
      AcceptPlaced(w, id, r, i);
    }
    forall o | o in u.pool ensures Fits(eval, u, o) {
      assert o in v.pool && Fits(eval, v, o);
      if CommandOf(o) == Some(id) { CountMember(w.pool, o, StageOf(o), id); }
    }
  }

  // ---- Requests ----

  lemma RequestPlaced(w: World, id: CmdId, r: Commands.Request, i: CmdId)
    requires Distinct(w.up) && !Issued(w, id) && Placed(w, i) && Genuine(w, i) && r.to in w.host.roster
    ensures Placed(Requested(w, id, r), i) && Genuine(Requested(w, id, r), i)
  {
    var m := RunOf(id, r);
    var extra := Broadcast(w.up, m);
    hide Count, Broadcast, Distinct;
    forall s ensures Count(w.pool + extra, s, i) == Count(w.pool, s, i) + Count(extra, s, i) {
      CountJoin(w.pool, extra, s, i);
    }
    CountBroadcast(w.up, m, Asked, i);
    CountBroadcast(w.up, m, Running, i);
    CountBroadcast(w.up, m, Reported, i);
  }

  lemma RequestFits(eval: Executer.Evaluator, w: World, id: CmdId, r: Commands.Request, o: Item)
    requires !Issued(w, id) && r.to in w.host.roster
    requires o in Requested(w, id, r).pool && (o in w.pool ==> Fits(eval, w, o))
    ensures Fits(eval, Requested(w, id, r), o)
  {
    hide Broadcast, Starts;
    if o in Broadcast(w.up, RunOf(id, r)) {
      BroadcastOnly(w.up, RunOf(id, r), o);
    }
  }

  lemma RequestInv(eval: Executer.Evaluator, w: World, id: CmdId, r: Commands.Request)
    requires Inv(eval, w) && !Issued(w, id)
    ensures Inv(eval, Requested(w, id, r))
  {
    if r.to in w.host.roster {
      var u := Requested(w, id, r);
      Commands.StepOrderly(Commands.Desk(w.host.cmds, w.handed), Commands.Sends(id, r));
      hide Placed, Broadcast, Fits, Commands.Orderly, RunOf, Distinct;
      forall i ensures Placed(u, i) && Genuine(u, i) {
        assert Placed(w, i) && Genuine(w, i);
        RequestPlaced(w, id, r, i);
      }
      forall o | o in u.pool ensures Fits(eval, u, o) {
        assert o in w.pool ==> Fits(eval, w, o);
        RequestFits(eval, w, id, r, o);
      }
    }
  }

  lemma PopInv(eval: Executer.Evaluator, w: World, id: CmdId)
    requires Inv(eval, w)
    ensures var (cmds, r) := Commands.Pop(w.host.cmds, id);
            var handed := if r.Some? then w.handed + multiset{id} else w.handed;
            Inv(eval, w.(host := w.host.(cmds := cmds), handed := handed))
  {
    var (cmds, r) := Commands.Pop(w.host.cmds, id);
    var u := w.(host := w.host.(cmds := cmds), handed := if r.Some? then w.handed + multiset{id} else w.handed);
    Commands.StepOrderly(Commands.Desk(w.host.cmds, w.handed), Commands.Pops(id));
    hide Count, AllFit, Commands.Orderly;
    forall i ensures Placed(u, i) && Genuine(u, i) {
      assert Placed(w, i) && Genuine(w, i);
    }
    AllFitSame(eval, w, u);
  }

  // ---- Every step ----

  lemma LaunchStarts(eval: Executer.Evaluator, open: Executer.Opener, r: Commands.Request)
    ensures var launch := Executer.LaunchOf(eval, open, Executer.Params(r.cmd, r.args, r.env, r.path, r.fileForStdin));
            launch.Spawned? ==> Starts(eval, r, launch)
  {
  }

  /** A machine deals with its copy of a message. */
  lemma HeededInv(codec: Words.Codec, eval: Executer.Evaluator, w: World, vm: VmId, m: Words.Message,
                  open: Executer.Opener, resources: string)
    requires Inv(eval, w.(pool := w.pool + [ToVM(vm, m)]))
    ensures Inv(eval, Heeded(w, vm, m, VmEngine.Hears(codec, eval, open, resources, vm, m)))
  {
    var p := ToVM(vm, m);
    var v := w.(pool := w.pool + [p]);
    assert Fits(eval, v, p) by { assert p in v.pool; }
    hide Inv, Executer.LaunchOf, Starts;
    var heed := VmEngine.Hears(codec, eval, open, resources, vm, m);
    if m.CmdRun? && m.to == vm {
      if heed.starts.Some? {
        LaunchStarts(eval, open, w.host.cmds.sent[m.cmdId]);
        StartInv(eval, w, p, heed.starts.value);
      } else if heed.says != [] {
        ReportInv(eval, w, p, m.cmdId, heed.says[0].results);
      } else {
        MislaidInv(eval, w, p);
      }
    } else {
      MislaidInv(eval, w, p);
      if heed.says != [] {
        QuietInv(eval, w, [ToHost(heed.says[0])]);
      }
    }
  }

  /** Only the command tables of the host matter. */
  lemma HostInv(eval: Executer.Evaluator, w: World, host: HostEngine.Host)
    requires Inv(eval, w) && host.cmds == w.host.cmds
    ensures Inv(eval, w.(host := host))
  {
    var u := w.(host := host);
    hide Commands.Orderly, Count, AllFit;
    forall i ensures Placed(u, i) && Genuine(u, i) {
      assert Placed(w, i) && Genuine(w, i);
    }
    AllFitSame(eval, w, u);
  }

  lemma UpInv(eval: Executer.Evaluator, w: World, up: seq<VmId>)
    requires Inv(eval, w) && Distinct(up)
    ensures Inv(eval, w.(up := up))
  {
    var u := w.(up := up);
    hide Commands.Orderly, Count, AllFit;
    forall i ensures Placed(u, i) && Genuine(u, i) {
      assert Placed(w, i) && Genuine(w, i);
    }
    AllFitSame(eval, w, u);
  }

  lemma DeliveredInv(setting: Setting, w: World, p: Item, at: real, file: Result<seq<string>, string>,
                     resources: string)
    requires Pings.Valid(w.host.pings) && Inv(setting.eval, w.(pool := w.pool + [p]))
    ensures Inv(setting.eval, Delivered(setting, w, p, at, file, resources))
  {
    hide Inv, Heeded, Pings.Valid;
    match p
    case ToVM(vm, m) =>
      if vm !in w.up {
        MislaidInv(setting.eval, w, p);
      } else {
        HeededInv(setting.codec, setting.eval, w, vm, m, (name: string) => file, resources);
      }
    case ToHost(m) =>
      if m.CmdResult? {
        AcceptInv(setting.eval, w, m.cmdId, m.results);
      } else {
        MislaidInv(setting.eval, w, p);
        HostInv(setting.eval, w, HostEngine.Hears(setting.names, w.host, m, at).0);
      }
    case Process(_, _, _) =>
  }

  lemma EndedInv(codec: Words.Codec, eval: Executer.Evaluator, w: World, p: Item, chunks: seq<Executer.Chunk>,
                 exit: Executer.Exit, resources: string)
    requires p.Process? && Inv(eval, w.(pool := w.pool + [p]))
    ensures Inv(eval, Ended(codec, w, p, chunks, exit, resources))
  {
    hide Inv;
    var says := Executer.Published(codec, p.id, p.launch, chunks, Some(exit), resources);
    if says == [] {
      MislaidInv(eval, w, p);
    } else {
      ReportInv(eval, w, p, p.id, says[0].results);
    }
  }

  lemma ConnectInv(eval: Executer.Evaluator, w: World, vm: VmId, m: Words.Message)
    requires Inv(eval, w) && !m.CmdResult?
    ensures Inv(eval, Says(w.(up := if vm in w.up then w.up else w.up + [vm]), m))
  {
    var up := if vm in w.up then w.up else w.up + [vm];
    UpInv(eval, w, up);
    hide Inv;
    QuietInv(eval, w.(up := up), [ToHost(m)]);
  }

  lemma SaysInv(eval: Executer.Evaluator, w: World, m: Words.Message)
    requires Inv(eval, w) && !m.CmdResult?
    ensures Inv(eval, Says(w, m))
  {
    hide Inv;
    QuietInv(eval, w, [ToHost(m)]);
  }

  lemma AskPingInv(eval: Executer.Evaluator, w: World, m: Words.Message, host: HostEngine.Host)
    requires Inv(eval, w) && m.Ping? && host.cmds == w.host.cmds
    ensures Inv(eval, w.(host := host, pool := w.pool + Broadcast(w.up, m)))
  {
    hide Inv, Broadcast;
    forall q | q in Broadcast(w.up, m) ensures CommandOf(q) == None { BroadcastOnly(w.up, m, q); }
    QuietInv(eval, w, Broadcast(w.up, m));
    HostInv(eval, w.(pool := w.pool + Broadcast(w.up, m)), host);
  }

  /** A step that takes an item out of the pool. */
  lemma PoolStepInv(setting: Setting, w: World, e: Event)
    requires Pings.Valid(w.host.pings) && Inv(setting.eval, w) && (e.Delivers? || e.Drops? || e.Ends?)
    ensures Inv(setting.eval, Step(setting, w, e))
  {
    hide Inv, Pings.Valid, Without, Delivered, Ended, Mislaid;
    if e.k < |w.pool| {
      TakeOut(setting.eval, w, e.k);
      var rest := w.(pool := Without(w.pool, e.k));
      match e
      case Delivers(k, at, file, resources) => DeliveredInv(setting, rest, w.pool[k], at, file, resources);
      case Drops(k) => MislaidInv(setting.eval, rest, w.pool[k]);
      case Ends(k, chunks, exit, resources) =>
        if w.pool[k].Process? {
          EndedInv(setting.codec, setting.eval, rest, w.pool[k], chunks, exit, resources);
        }
    }
  }

  /** Every step keeps the invariant, if requests get fresh ids. */
  lemma StepInv(setting: Setting, w: World, e: Event)
    requires Pings.Valid(w.host.pings) && Inv(setting.eval, w) && (e.Requests? ==> !Issued(w, e.id))
    ensures Inv(setting.eval, Step(setting, w, e))
  {
    var eval := setting.eval;
    assert Distinct(w.up);
    hide Inv, Issued, Pings.Valid, Pings.Send, Pings.Step, Commands.Pop, Registry.Collect;
    hide Delivered, Ended, Requested, Mislaid, Broadcast, Others, Says, Without;
    match e
    case Requests(to, id, cmd, args, env, path, fileForStdin, at) =>
      RequestInv(eval, w, id, Commands.Request(at, to, cmd, args, env, path, fileForStdin));
    case AsksPing(to, stamp) => AskPingInv(eval, w, Words.Ping(to, stamp), Step(setting, w, e).host);
    case Timer(_) => HostInv(eval, w, Step(setting, w, e).host);
    case Pops(id) => PopInv(eval, w, id);
    case Tick(_) => HostInv(eval, w, Step(setting, w, e).host);
    case Connects(vm, ip) => ConnectInv(eval, w, vm, Words.Hello(vm, ip));
    case Disconnects(vm) =>
      OthersDistinct(w.up, vm);
      UpInv(eval, w, Others(w.up, vm));
    case Beacons(vm, ip) => SaysInv(eval, w, Words.StillAlive(vm, ip));
    case Leaves(vm, ip) => SaysInv(eval, w, Words.Bye(vm, ip));
    case Delivers(_, _, _, _) => PoolStepInv(setting, w, e);
    case Drops(_) => PoolStepInv(setting, w, e);
    case Ends(_, _, _, _) => PoolStepInv(setting, w, e);
  }

  // ---- Every run ----

  function IssuedIds(events: seq<Event>): set<CmdId> {
    set i | 0 <= i < |events| && events[i].Requests? :: events[i].id
  }

  predicate FreshIds(events: seq<Event>) {
    forall i, j :: 0 <= i < j < |events| && events[i].Requests? && events[j].Requests? ==> events[i].id != events[j].id
  }

  lemma FreshSnoc(events: seq<Event>, e: Event)
    requires FreshIds(events + [e])
    ensures FreshIds(events) && (e.Requests? ==> e.id !in IssuedIds(events))
    ensures IssuedIds(events + [e]) == IssuedIds(events) + if e.Requests? then {e.id} else {}
  {
    var all := events + [e];
    assert all[|events|] == e;
    assert forall i :: 0 <= i < |events| ==> all[i] == events[i];
  }

  lemma StepIssues(setting: Setting, w: World, e: Event, id: CmdId)
    requires Pings.Valid(w.host.pings)
    ensures Issued(Step(setting, w, e), id) ==> Issued(w, id) || (e.Requests? && e.id == id)
  {
  }

  lemma StartInvariant(eval: Executer.Evaluator)
    ensures Inv(eval, NEW_WORLD)
  {
  }

  /** However requests, messages, timers, failures and losses interleave, the invariant holds. */
  lemma {:induction false} RunInv(setting: Setting, events: seq<Event>)
    requires FreshIds(events)
    ensures Inv(setting.eval, Run(setting, events))
    ensures forall id :: Issued(Run(setting, events), id) ==> id in IssuedIds(events)
  {
    if events == [] {
      StartInvariant(setting.eval);
    } else {
      var front, e := events[..|events| - 1], events[|events| - 1];
      assert events == front + [e];
      FreshSnoc(front, e);
      RunInv(setting, front);
      var w := Run(setting, front);
      hide Inv, Step, FreshIds, IssuedIds, Issued, Pings.Valid;
      StepInv(setting, w, e);
      forall id | Issued(Step(setting, w, e), id) ensures id in IssuedIds(events) { StepIssues(setting, w, e, id); }
    }
  }

  // ---- What follows ----

  /** The command is at the given stage. */
  predicate At(w: World, id: CmdId, s: Stage) {
    match s
    case Retired => id in w.host.cmds.retired
    case Lost => id in w.lost
    case _ => exists p :: p in w.pool && Carries(p, s, id)
  }

  /** The one stage that an issued command is in. */
  ghost function Place(w: World, id: CmdId): Stage {
    if Count(w.pool, Asked, id) >= 1 then Asked
    else if Count(w.pool, Running, id) >= 1 then Running
    else if Count(w.pool, Reported, id) >= 1 then Reported
    else if id in w.host.cmds.retired then Retired
    else Lost
  }

  lemma NothingElseCounts(pool: seq<Item>, s: Stage, id: CmdId)
    requires s.Retired? || s.Lost?
    ensures Count(pool, s, id) == 0
  {
    if Count(pool, s, id) >= 1 {
      var p := CountWitness(pool, s, id);
    }
  }

  lemma AtIsCounted(w: World, id: CmdId, s: Stage)
    requires s in {Asked, Running, Reported}
    ensures At(w, id, s) <==> Count(w.pool, s, id) >= 1
  {
    if Count(w.pool, s, id) >= 1 {
      var p := CountWitness(w.pool, s, id);
    }
    if At(w, id, s) {
      var p :| p in w.pool && Carries(p, s, id);
      CountMember(w.pool, p, s, id);
    }
  }

  lemma PlacedOnce(w: World, id: CmdId)
    requires Placed(w, id)
    ensures Issued(w, id) ==> forall t :: At(w, id, t) <==> t == Place(w, id)
    ensures !Issued(w, id) ==> forall t :: !At(w, id, t)
  {
    hide Count;
    forall t
      ensures Issued(w, id) ==> (At(w, id, t) <==> t == Place(w, id))
      ensures !Issued(w, id) ==> !At(w, id, t)
    {
      if t in {Asked, Running, Reported} {
        hide At;
        AtIsCounted(w, id, t);
      }
    }
  }

  /** In every reachable state each issued command is in exactly one stage, by exactly one item if it is under way,
      and a command that was never issued is in none. */
  lemma OneStage(setting: Setting, events: seq<Event>, id: CmdId)
    requires FreshIds(events)
    ensures var w := Run(setting, events);
            && (Issued(w, id) ==> exists s :: At(w, id, s) && forall t :: At(w, id, t) ==> t == s)
            && (!Issued(w, id) ==> forall t :: !At(w, id, t))
            && forall s :: Count(w.pool, s, id) <= 1
  {
    RunInv(setting, events);
    var w := Run(setting, events);
    assert Placed(w, id);
    hide Run, Inv, Count, FreshIds, IssuedIds, At, Place;
    PlacedOnce(w, id);
    forall s ensures Count(w.pool, s, id) <= 1 {
      if s in {Retired, Lost} { NothingElseCounts(w.pool, s, id); }
    }
    if Issued(w, id) {
      assert At(w, id, Place(w, id));
    }
  }

  /** The assertion that an arriving result belongs to an outstanding request never fails: whichever result is
      delivered next, the host accepts it. */
  lemma AssertionNeverFails(setting: Setting, events: seq<Event>, p: Item, at: real)
    requires FreshIds(events)
    requires var w := Run(setting, events); p in w.pool && p.ToHost? && p.m.CmdResult?
    ensures var w := Run(setting, events);
            p.m.cmdId in w.host.cmds.sent && HostEngine.Hears(setting.names, w.host, p.m, at).1 == None
  {
    RunInv(setting, events);
    var w := Run(setting, events);
    var k :| 0 <= k < |w.pool| && w.pool[k] == p;
    hide Run, Inv, Pings.Valid;
    TakeOut(setting.eval, w, k);
    AcceptInv(setting.eval, w.(pool := Without(w.pool, k)), p.m.cmdId, p.m.results);
  }

  /** Every process that is running was asked for, is at the machine that was named, and runs what was asked. */
  lemma RunsAsAsked(setting: Setting, events: seq<Event>, p: Item)
    requires FreshIds(events) && p in Run(setting, events).pool && p.Process?
    ensures var sent := Run(setting, events).host.cmds.sent;
            && p.id in sent && p.vm == sent[p.id].to && Starts(setting.eval, sent[p.id], p.launch)
            && p.id in Run(setting, events).started
  {
    RunInv(setting, events);
    var w := Run(setting, events);
    hide Run;
    assert Fits(setting.eval, w, p);
    CountMember(w.pool, p, Running, p.id);
    assert Placed(w, p.id);
  }

  /** No command is started twice, and no result is handed out twice. */
  lemma AtMostOnce(setting: Setting, events: seq<Event>)
    requires FreshIds(events)
    ensures var w := Run(setting, events);
            && (forall i, j :: 0 <= i < j < |w.started| ==> w.started[i] != w.started[j])
            && (forall id :: w.handed[id] <= 1)
  {
    RunInv(setting, events);
  }

  /** What a caller is handed is what the machine published. */
  lemma PopsWhatWasPublished(setting: Setting, events: seq<Event>, id: CmdId)
    requires FreshIds(events) && id in Run(setting, events).host.cmds.rcvd
    ensures var w := Run(setting, events);
            id in w.reports && Commands.Pop(w.host.cmds, id).1 == Some(w.reports[id])
  {
    RunInv(setting, events);
    var w := Run(setting, events);
    hide Run, Placed, AllFit;
    assert Genuine(w, id);
  }

  /** Once nothing is under way any more, every issued command has been retired or is lost for good. */
  lemma NothingLeftOver(setting: Setting, events: seq<Event>, id: CmdId)
    requires FreshIds(events) && Run(setting, events).pool == [] && Issued(Run(setting, events), id)
    ensures var w := Run(setting, events); id in w.host.cmds.retired <==> id !in w.lost
  {
    RunInv(setting, events);
    var w := Run(setting, events);
    hide Run, AllFit;
    assert Placed(w, id);
  }
}
