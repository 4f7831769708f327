// Commands only move forward: from asked for, to running, to reported, to retired, or off the path for good.
module Progress {
  import opened Wrappers
  import opened Common
  import opened Network
  import opened Protocol
  import Commands
  import Executer
  import HostEngine
  import Pings
  import Registry
  import VmEngine
  import Words

  /** The stages that may follow one another. A request whose file cannot be opened is reported without running. */
  predicate Next(s: Stage, t: Stage) {
    match s
    case Asked => t in {Running, Reported, Lost}
    case Running => t in {Reported, Lost}
    case Reported => t in {Retired, Lost}
    case Retired => false
    case Lost => false
  }

  /** What only grows, and what only shrinks, for a command that has been issued. */
  ghost predicate Onward(w: World, u: World, id: CmdId) {
    && (id in w.host.cmds.retired ==> id in u.host.cmds.retired)
    && (id in u.host.cmds.retired && id !in w.host.cmds.retired ==> Count(w.pool, Reported, id) >= 1)
    && (id in w.lost ==> id in u.lost)
    && (id in w.reports ==> id in u.reports && u.reports[id] == w.reports[id])
    && Count(u.pool, Asked, id) <= Count(w.pool, Asked, id)
  }

  lemma CountsLast(w: World, p: Item, id: CmdId)
    ensures Count(w.pool + [p], Asked, id) == Count(w.pool, Asked, id) + if Carries(p, Asked, id) then 1 else 0
    ensures Count(w.pool + [p], Reported, id) >= if Carries(p, Reported, id) then 1 else 0
  {
    CountSnoc(w.pool, p, Asked, id);
    CountSnoc(w.pool, p, Reported, id);
  }

  lemma QuietCounts(w: World, m: Words.Message, id: CmdId)
    ensures Count(w.pool + [ToHost(m)], Asked, id) == Count(w.pool, Asked, id)
  {
    CountsLast(w, ToHost(m), id);
  }

  lemma MislaidOnward(w: World, p: Item, id: CmdId)
    ensures Onward(w.(pool := w.pool + [p]), Mislaid(w, p), id)
  {
    hide Count, Carries, CommandOf;
    CountsLast(w, p, id);
  }

  lemma SaysOnward(w: World, p: Item, m: Words.Message, id: CmdId)
    requires m.CmdResult? ==> m.cmdId !in w.reports
    ensures Onward(w.(pool := w.pool + [p]), Says(w, m), id)
  {
    hide Count, Carries;
    CountsLast(w, p, id);
    QuietCounts(w, m, id);
  }

  lemma StartsOnward(w: World, p: Item, q: Item, i: CmdId, id: CmdId)
    requires q.Process?
    ensures Onward(w.(pool := w.pool + [p]), w.(pool := w.pool + [q], started := w.started + [i]), id)
  {
    hide Count;
    CountsLast(w, p, id);
    CountsLast(w, q, id);
  }

  lemma HostOnward(names: Names, w: World, m: Words.Message, at: real, id: CmdId)
    requires Pings.Valid(w.host.pings)
    ensures Onward(w.(pool := w.pool + [ToHost(m)]), w.(host := HostEngine.Hears(names, w.host, m, at).0), id)
  {
    hide Pings.Valid, Pings.Pong, Registry.AddVM, Registry.KeepVM, Registry.RemoveVM, Count;
    CountsLast(w, ToHost(m), id);
  }

  lemma HeededOnward(codec: Words.Codec, eval: Executer.Evaluator, w: World, vm: VmId, m: Words.Message,
                     open: Executer.Opener, resources: string, id: CmdId)
    requires Inv(eval, w.(pool := w.pool + [ToVM(vm, m)]))
    ensures Onward(w.(pool := w.pool + [ToVM(vm, m)]),
                   Heeded(w, vm, m, VmEngine.Hears(codec, eval, open, resources, vm, m)), id)
  {
    var p := ToVM(vm, m);
    var heed := VmEngine.Hears(codec, eval, open, resources, vm, m);
    hide Inv, Onward, Executer.LaunchOf;
    if heed.starts.Some? {
      StartsOnward(w, p, Process(vm, m.cmdId, heed.starts.value), m.cmdId, id);
    } else if heed.says != [] {
      if m.CmdRun? { ReportInv(eval, w, p, m.cmdId, heed.says[0].results); }
      SaysOnward(w, p, heed.says[0], id);
    } else {
      MislaidOnward(w, p, id);
    }
  }

  lemma DeliveredOnward(setting: Setting, w: World, p: Item, at: real, file: Result<seq<string>, string>,
                        resources: string,
                        id: CmdId)
    requires Pings.Valid(w.host.pings) && Inv(setting.eval, w.(pool := w.pool + [p]))
    ensures Onward(w.(pool := w.pool + [p]), Delivered(setting, w, p, at, file, resources), id)
  {
    hide Inv, Pings.Valid, Mislaid, Heeded;
    match p
    case ToVM(vm, m) =>
      hide Onward;
      if vm in w.up {
        HeededOnward(setting.codec, setting.eval, w, vm, m, (name: string) => file, resources, id);
      } else {
        MislaidOnward(w, p, id);
      }
    case ToHost(m) =>
      hide Onward;
      HostOnward(setting.names, w, m, at, id);
    case Process(_, _, _) =>
  }

  lemma EndedOnward(codec: Words.Codec, eval: Executer.Evaluator, w: World, p: Item, chunks: seq<Executer.Chunk>,
                    exit: Executer.Exit, resources: string, id: CmdId)
    requires p.Process? && Inv(eval, w.(pool := w.pool + [p]))
    ensures Onward(w.(pool := w.pool + [p]), Ended(codec, w, p, chunks, exit, resources), id)
  {
    hide Inv, Onward, Mislaid, Says;
    var says := Executer.Published(codec, p.id, p.launch, chunks, Some(exit), resources);
    if says == [] {
      MislaidOnward(w, p, id);
    } else {
      ReportInv(eval, w, p, p.id, says[0].results);
      SaysOnward(w, p, says[0], id);
    }
  }

  lemma TakenOnward(w: World, k: nat, u: World, id: CmdId)
    requires k < |w.pool| && Onward(w.(pool := Without(w.pool, k) + [w.pool[k]]), u, id)
    ensures Onward(w, u, id)
  {
    CountTaken(w.pool, k, Asked, id);
    CountTaken(w.pool, k, Reported, id);
  }

  lemma PoolStepOnward(setting: Setting, w: World, e: Event, id: CmdId)
    requires Pings.Valid(w.host.pings) && Inv(setting.eval, w)
    requires (e.Delivers? || e.Drops? || e.Ends?) && e.k < |w.pool| && (e.Ends? ==> w.pool[e.k].Process?)
    ensures Onward(w, Step(setting, w, e), id)
  {
    hide Inv, Onward, Pings.Valid, Without, Mislaid, Delivered, Ended;
    TakeOut(setting.eval, w, e.k);
    var rest, p := w.(pool := Without(w.pool, e.k)), w.pool[e.k];
    match e {
      case Delivers(_, at, file, resources) => DeliveredOnward(setting, rest, p, at, file, resources, id);
      case Drops(_) => MislaidOnward(rest, p, id);
      case Ends(_, chunks, exit, resources) =>
        EndedOnward(setting.codec, setting.eval, rest, p, chunks, exit, resources, id);
    }
    TakenOnward(w, e.k, Step(setting, w, e), id);
  }

  lemma BroadcastOnward(w: World, m: Words.Message, id: CmdId)
    requires Distinct(w.up) && (m.CmdRun? ==> m.cmdId != id)
    ensures Count(w.pool + Broadcast(w.up, m), Asked, id) == Count(w.pool, Asked, id)
  {
    CountJoin(w.pool, Broadcast(w.up, m), Asked, id);
    CountBroadcast(w.up, m, Asked, id);
  }

  lemma RequestOnward(w: World, i: CmdId, r: Commands.Request, id: CmdId)
    requires Distinct(w.up) && i != id
    ensures Onward(w, Requested(w, i, r), id)
  {
    hide Distinct, Count, Broadcast;
    BroadcastOnward(w, RunOf(i, r), id);
  }

  /** A step that takes nothing out of the pool. */
  lemma OtherStepOnward(setting: Setting, w: World, e: Event, id: CmdId)
    requires Pings.Valid(w.host.pings) && Distinct(w.up) && Issued(w, id) && (e.Requests? ==> !Issued(w, e.id))
    requires (e.Delivers? || e.Drops? || e.Ends?) ==> e.k >= |w.pool| || (e.Ends? && !w.pool[e.k].Process?)
    ensures Onward(w, Step(setting, w, e), id)
  {
    hide Pings.Valid, Distinct, Count, Broadcast, Others, Carries, Requested, Pings.Send, Pings.Step, Registry.Collect;
    match e
    case Requests(to, i, cmd, args, env, path, fileForStdin, at) =>
      RequestOnward(w, i, Commands.Request(at, to, cmd, args, env, path, fileForStdin), id);
    case AsksPing(to, stamp) => BroadcastOnward(w, Words.Ping(to, stamp), id);
    case Connects(vm, ip) => QuietCounts(w, Words.Hello(vm, ip), id);
    case Beacons(vm, ip) => QuietCounts(w, Words.StillAlive(vm, ip), id);
    case Leaves(vm, ip) => QuietCounts(w, Words.Bye(vm, ip), id);
    case _ =>
  }

  /** Every step of a reachable state takes an issued command onward, if at all. */
  lemma StepOnward(setting: Setting, w: World, e: Event, id: CmdId)
    requires Pings.Valid(w.host.pings) && Inv(setting.eval, w) && Issued(w, id) && (e.Requests? ==> !Issued(w, e.id))
    ensures Onward(w, Step(setting, w, e), id)
  {
    assert Distinct(w.up);
    hide Inv, Onward, Pings.Valid, Issued, Step, Distinct;
    if (e.Delivers? || e.Drops? || e.Ends?) && e.k < |w.pool| && (e.Ends? ==> w.pool[e.k].Process?) {
      PoolStepOnward(setting, w, e, id);
    } else {
      OtherStepOnward(setting, w, e, id);
    }
  }

  /** The stage an issued command is in never goes back. */
  lemma StagesAdvance(setting: Setting, events: seq<Event>, e: Event, id: CmdId)
    requires FreshIds(events + [e]) && Issued(Run(setting, events), id)
    ensures var w, u := Run(setting, events), Run(setting, events + [e]);
            && Issued(u, id)
            && (Place(u, id) == Place(w, id) || Next(Place(w, id), Place(u, id)))
  {
    FreshSnoc(events, e);
    RunInv(setting, events);
    RunInv(setting, events + [e]);
    assert (events + [e])[..|events|] == events;
    var w, u := Run(setting, events), Run(setting, events + [e]);
    hide Run, FreshIds, Pings.Valid, Inv, Step;
    StepKeepsIssued(setting, w, e, id);
    StepOnward(setting, w, e, id);
    Facts(setting.eval, w, id);
    Facts(setting.eval, u, id);
  }

  lemma StepKeepsIssued(setting: Setting, w: World, e: Event, id: CmdId)
    requires Pings.Valid(w.host.pings) && Issued(w, id)
    ensures Issued(Step(setting, w, e), id)
  {
    hide Pings.Valid;
  }

  /** What the invariant says about one command. */
  lemma Facts(eval: Executer.Evaluator, w: World, id: CmdId)
    requires Inv(eval, w)
    ensures Placed(w, id)
    ensures Count(w.pool, Reported, id) >= 1 ==> id in w.reports
  {
    assert Placed(w, id);
    if Count(w.pool, Reported, id) >= 1 {
      var p := CountWitness(w.pool, Reported, id);
      assert Fits(eval, w, p);
    }
  }

  /** What has been published for a command never changes, so that what is handed out later is what was published. */
  lemma {:induction false} ReportKept(setting: Setting, events: seq<Event>, more: seq<Event>, id: CmdId)
    requires FreshIds(events + more) && id in Run(setting, events).reports
    ensures id in Run(setting, events + more).reports
    ensures Run(setting, events + more).reports[id] == Run(setting, events).reports[id]
    decreases |more|
  {
    if more == [] {
      assert events + more == events;
    } else {
      var front, e := more[..|more| - 1], more[|more| - 1];
      var some := events + front;
      assert events + more == some + [e] && (some + [e])[..|some|] == some;
      FreshSnoc(some, e);
      ReportKept(setting, events, front, id);
      RunInv(setting, some);
      hide Run, FreshIds, Pings.Valid, Inv, Step, IssuedIds;
      var w := Run(setting, some);
      Facts(setting.eval, w, id);
      StepOnward(setting, w, e, id);
    }
  }
}
