// Everything between the host and the machines: the host's tables, messages on their way, processes under way.
module Network {
  import opened Wrappers
  import opened Common
  import Commands
  import Executer
  import HostEngine
  import Pings
  import Registry
  import VmEngine
  import Words

  /** Something on its way or under way: one subscriber's copy of a request, a message to the host, a process. */
  datatype Item =
    | ToVM(vm: VmId, m: Words.Message)
    | ToHost(m: Words.Message)
    | Process(vm: VmId, id: CmdId, launch: Executer.Launch)

  /** The pool is a list only so that equal items can be told apart: any of them may be next. `up` are the machines
      subscribed to requests. The rest keeps account: results handed to callers, commands that nobody will report on
      any more, commands in the order they were started, and the results that were published. */
  datatype World = World(host: HostEngine.Host, pool: seq<Item>, up: seq<VmId>, handed: multiset<CmdId>,
                         lost: set<CmdId>, started: seq<CmdId>, reports: map<CmdId, Commands.Results>)

  const NEW_WORLD := World(HostEngine.NEW_HOST, [], [], multiset{}, {}, [], map[])

  /** What does not change during a run. */
  datatype Setting = Setting(names: Names, grace: real, eval: Executer.Evaluator, codec: Words.Codec)

  datatype Event =
    | Requests(to: VmId, id: CmdId, cmd: string, args: string, env: string, path: string, fileForStdin: string,
               at: real)
    | AsksPing(to: VmId, stamp: string)
    | Timer(ping: nat)
    | Pops(id: CmdId)
    | Tick(at: real)
    | Connects(vm: VmId, ip: string)
    | Disconnects(vm: VmId)
    | Beacons(vm: VmId, ip: string)
    | Leaves(vm: VmId, ip: string)
    | Delivers(k: nat, at: real, file: Result<seq<string>, string>, resources: string)
    | Drops(k: nat)
    | Ends(k: nat, chunks: seq<Executer.Chunk>, exit: Executer.Exit, resources: string)

  // ---- One step ----

  function Without(pool: seq<Item>, k: nat): seq<Item>
    requires k < |pool|
  {
    pool[..k] + pool[k + 1..]
  }

  function Broadcast(up: seq<VmId>, m: Words.Message): seq<Item> {
    if up == [] then [] else Broadcast(up[..|up| - 1], m) + [ToVM(up[|up| - 1], m)]
  }

  /** The command that an item stands for: only the copy of a request for the machine it names counts. */
  function CommandOf(p: Item): Option<CmdId> {
    match p
    case ToVM(vm, m) => if m.CmdRun? && m.to == vm then Some(m.cmdId) else None
    case ToHost(m) => if m.CmdResult? then Some(m.cmdId) else None
    case Process(_, id, _) => Some(id)
  }

  /** The item is gone without a trace. */
  function Mislaid(w: World, p: Item): World {
    match CommandOf(p)
    case None => w
    case Some(id) => w.(lost := w.lost + {id})
  }

  function Says(w: World, m: Words.Message): World {
    w.(pool := w.pool + [ToHost(m)], reports := if m.CmdResult? then w.reports[m.cmdId := m.results] else w.reports)
  }

  function RunOf(id: CmdId, r: Commands.Request): Words.Message {
    Words.CmdRun(r.to, id, r.cmd, r.args, r.env, r.path, r.fileForStdin)
  }

  /** A request for an unregistered machine raises an error; for a registered one that is not listening, it is
      recorded and reaches nobody. */
  function Requested(w: World, id: CmdId, r: Commands.Request): World {
    if r.to !in w.host.roster then w
    else
      w.(host := w.host.(cmds := Commands.Issue(w.host.cmds, id, r)), pool := w.pool + Broadcast(w.up, RunOf(id, r)),
         lost := if r.to in w.up then w.lost else w.lost + {id})
  }

  /** A machine has dealt with the message `m`. */
  function Heeded(w: World, vm: VmId, m: Words.Message, heed: VmEngine.Heed): World {
    if heed.starts.Some? && m.CmdRun? then
      w.(pool := w.pool + [Process(vm, m.cmdId, heed.starts.value)], started := w.started + [m.cmdId])
    else if heed.says != [] then Says(w, heed.says[0])
    else Mislaid(w, ToVM(vm, m))
  }

  function Delivered(setting: Setting, w: World, p: Item, at: real, file: Result<seq<string>, string>,
                     resources: string)
    : (r: World)
    requires Pings.Valid(w.host.pings)
    ensures Pings.Valid(r.host.pings)
  {
    match p
    case ToVM(vm, m) =>
      if vm !in w.up then Mislaid(w, p)
      else Heeded(w, vm, m, VmEngine.Hears(setting.codec, setting.eval, (name: string) => file, resources, vm, m))
    case ToHost(m) => w.(host := HostEngine.Hears(setting.names, w.host, m, at).0)
    case Process(_, _, _) => w.(pool := w.pool + [p])
  }

  /** The process has ended: its result is published, or there is none. */
  function Ended(codec: Words.Codec, w: World, p: Item, chunks: seq<Executer.Chunk>, exit: Executer.Exit,
                 resources: string): World
    requires p.Process?
  {
    var says := Executer.Published(codec, p.id, p.launch, chunks, Some(exit), resources);
    if says == [] then Mislaid(w, p) else Says(w, says[0])
  }

  function Step(setting: Setting, w: World, e: Event): (r: World)
    requires Pings.Valid(w.host.pings)
    ensures Pings.Valid(r.host.pings)
  {
    match e
    case Requests(to, id, cmd, args, env, path, fileForStdin, at) =>
      Requested(w, id, Commands.Request(at, to, cmd, args, env, path, fileForStdin))
    case AsksPing(to, stamp) =>
      w.(host := w.host.(pings := Pings.Send(w.host.pings, stamp, to)),
         pool := w.pool + Broadcast(w.up, Words.Ping(to, stamp)))
    case Timer(ping) => w.(host := w.host.(pings := Pings.Step(setting.names, w.host.pings, Pings.Timer(ping))))
    case Pops(id) =>
      var (cmds, r) := Commands.Pop(w.host.cmds, id);
      w.(host := w.host.(cmds := cmds), handed := if r.Some? then w.handed + multiset{id} else w.handed)
    case Tick(at) => w.(host := w.host.(roster := Registry.Collect(w.host.roster, at, setting.grace)))
    case Connects(vm, ip) => Says(w.(up := if vm in w.up then w.up else w.up + [vm]), Words.Hello(vm, ip))
    case Disconnects(vm) => w.(up := Others(w.up, vm))
    case Beacons(vm, ip) => if vm in w.up then Says(w, Words.StillAlive(vm, ip)) else w
    case Leaves(vm, ip) => if vm in w.up then Says(w, Words.Bye(vm, ip)) else w
    case Delivers(k, at, file, resources) =>
      if k >= |w.pool| then w
      else Delivered(setting, w.(pool := Without(w.pool, k)), w.pool[k], at, file, resources)
    case Drops(k) => if k >= |w.pool| then w else Mislaid(w.(pool := Without(w.pool, k)), w.pool[k])
    case Ends(k, chunks, exit, resources) =>
      if k >= |w.pool| || !w.pool[k].Process? then w
      else Ended(setting.codec, w.(pool := Without(w.pool, k)), w.pool[k], chunks, exit, resources)
  }

  function Others(up: seq<VmId>, vm: VmId): seq<VmId> {
    if up == [] then []
    else if up[|up| - 1] == vm then Others(up[..|up| - 1], vm)
    else Others(up[..|up| - 1], vm) + [up[|up| - 1]]
  }

  function Run(setting: Setting, events: seq<Event>): (w: World)
    ensures Pings.Valid(w.host.pings)
  {
    if events == [] then NEW_WORLD else Step(setting, Run(setting, events[..|events| - 1]), events[|events| - 1])
  }

  // ---- What each step does ----

  /** A machine that is listening answers a ping that reaches it, and only if the ping is for it. */
  lemma PingIsAnswered(setting: Setting, w: World, k: nat, vm: VmId, to: VmId, stamp: string, at: real,
                       file: Result<seq<string>, string>, resources: string)
    requires Pings.Valid(w.host.pings) && k < |w.pool| && w.pool[k] == ToVM(vm, Words.Ping(to, stamp))
    ensures Step(setting, w, Delivers(k, at, file, resources))
            == if vm in w.up && vm == to then w.(pool := Without(w.pool, k) + [ToHost(Words.Pong(vm, stamp))])
               else w.(pool := Without(w.pool, k))
  {
    hide Pings.Valid, Without;
  }

  /** A machine says what it says only while it is listening; what it says goes to the host. */
  lemma MachinesSpeak(setting: Setting, w: World, vm: VmId, ip: string)
    requires Pings.Valid(w.host.pings)
    ensures var u := Step(setting, w, Connects(vm, ip));
            u == w.(pool := w.pool + [ToHost(Words.Hello(vm, ip))], up := u.up)
            && forall v :: v in u.up <==> v in w.up || v == vm
    ensures Step(setting, w, Beacons(vm, ip))
            == if vm in w.up then w.(pool := w.pool + [ToHost(Words.StillAlive(vm, ip))]) else w
    ensures Step(setting, w, Leaves(vm, ip))
            == if vm in w.up then w.(pool := w.pool + [ToHost(Words.Bye(vm, ip))]) else w
  {
    hide Pings.Valid;
  }

  lemma {:induction false} OthersAre(up: seq<VmId>, vm: VmId)
    ensures forall v :: v in Others(up, vm) <==> v in up && v != vm
  {
    if up != [] {
      var front, last := up[..|up| - 1], up[|up| - 1];
      OthersAre(front, vm);
      assert up == front + [last];
    }
  }

  /** A machine that is cut off no longer listens; nothing else changes. */
  lemma CutOff(setting: Setting, w: World, vm: VmId)
    requires Pings.Valid(w.host.pings)
    ensures var u := Step(setting, w, Disconnects(vm));
            u == w.(up := u.up) && forall v :: v in u.up <==> v in w.up && v != vm
  {
    OthersAre(w.up, vm);
    hide Pings.Valid, Others;
  }

  /** What the host broadcasts reaches exactly the machines that are listening, one copy each. */
  lemma HostBroadcasts(setting: Setting, w: World, to: VmId, stamp: string)
    requires Pings.Valid(w.host.pings)
    ensures var u := Step(setting, w, AsksPing(to, stamp));
            && w.pool <= u.pool && |u.pool| == |w.pool| + |w.up|
            && forall i :: 0 <= i < |w.up| ==> u.pool[|w.pool| + i] == ToVM(w.up[i], Words.Ping(to, stamp))
  {
    CopyEach(w.up, Words.Ping(to, stamp));
    hide Pings.Valid, Broadcast;
  }

  lemma {:induction false} CopyEach(up: seq<VmId>, m: Words.Message)
    ensures |Broadcast(up, m)| == |up|
    ensures forall i :: 0 <= i < |up| ==> Broadcast(up, m)[i] == ToVM(up[i], m)
  {
    if up != [] {
      CopyEach(up[..|up| - 1], m);
    }
  }

  /** A message to the host takes effect there, and is gone. */
  lemma HostListens(setting: Setting, w: World, k: nat, m: Words.Message, at: real, file: Result<seq<string>, string>,
                    resources: string)
    requires Pings.Valid(w.host.pings) && k < |w.pool| && w.pool[k] == ToHost(m)
    ensures Step(setting, w, Delivers(k, at, file, resources))
            == w.(pool := Without(w.pool, k), host := HostEngine.Hears(setting.names, w.host, m, at).0)
  {
    hide Pings.Valid, Without, HostEngine.Hears;
  }

  // ---- Counting ----

  datatype Stage = Asked | Running | Reported | Retired | Lost

  function StageOf(p: Item): Stage {
    match p
    case ToVM(_, _) => Asked
    case ToHost(_) => Reported
    case Process(_, _, _) => Running
  }

  predicate Carries(p: Item, s: Stage, id: CmdId) {
    StageOf(p) == s && CommandOf(p) == Some(id)
  }

  function Count(pool: seq<Item>, s: Stage, id: CmdId): nat {
    if pool == [] then 0
    else Count(pool[..|pool| - 1], s, id) + if Carries(pool[|pool| - 1], s, id) then 1 else 0
  }

  lemma CountSnoc(pool: seq<Item>, p: Item, s: Stage, id: CmdId)
    ensures Count(pool + [p], s, id) == Count(pool, s, id) + if Carries(p, s, id) then 1 else 0
  {
    assert (pool + [p])[..|pool|] == pool;
  }

  lemma {:induction false} CountJoin(a: seq<Item>, b: seq<Item>, s: Stage, id: CmdId)
    ensures Count(a + b, s, id) == Count(a, s, id) + Count(b, s, id)
  {
    if b == [] {
      assert a + b == a;
    } else {
      var front, p := b[..|b| - 1], b[|b| - 1];
      assert a + b == a + front + [p] && b == front + [p];
      CountSnoc(a + front, p, s, id);
      CountSnoc(front, p, s, id);
      CountJoin(a, front, s, id);
    }
  }

  /** Taking an item to the end changes no count. */
  lemma CountTaken(pool: seq<Item>, k: nat, s: Stage, id: CmdId)
    requires k < |pool|
    ensures Count(Without(pool, k) + [pool[k]], s, id) == Count(pool, s, id)
  {
    var a, p, b := pool[..k], pool[k], pool[k + 1..];
    assert pool == a + [p] + b;
    CountJoin(a + [p], b, s, id);
    CountSnoc(a, p, s, id);
    CountSnoc(a + b, p, s, id);
    CountJoin(a, b, s, id);
  }

  lemma CountMember(pool: seq<Item>, p: Item, s: Stage, id: CmdId)
    requires p in pool && Carries(p, s, id)
    ensures Count(pool, s, id) >= 1
  {
    var k :| 0 <= k < |pool| && pool[k] == p;
    CountTaken(pool, k, s, id);
    CountSnoc(Without(pool, k), p, s, id);
  }

  lemma {:induction false} CountWitness(pool: seq<Item>, s: Stage, id: CmdId) returns (p: Item)
    requires Count(pool, s, id) >= 1
    ensures p in pool && Carries(p, s, id)
  {
    p := pool[|pool| - 1];
    if !Carries(p, s, id) {
      p := CountWitness(pool[..|pool| - 1], s, id);
    }
  }

  predicate Distinct(ids: seq<string>) {
    forall i, j :: 0 <= i < j < |ids| ==> ids[i] != ids[j]
  }

  /** Of a broadcast request exactly one copy counts, if the machine it names is listening. */
  lemma {:induction false} CountBroadcast(up: seq<VmId>, m: Words.Message, s: Stage, id: CmdId)
    requires Distinct(up)
    ensures Count(Broadcast(up, m), s, id) == if s == Asked && m.CmdRun? && m.cmdId == id && m.to in up then 1 else 0
  {
    if up != [] {
      var front, vm := up[..|up| - 1], up[|up| - 1];
      CountBroadcast(front, m, s, id);
      CountSnoc(Broadcast(front, m), ToVM(vm, m), s, id);
      assert up == front + [vm];
    }
  }

  /** A broadcast is a copy for each machine that is listening, and nothing else. */
  lemma {:induction false} BroadcastOnly(up: seq<VmId>, m: Words.Message, p: Item)
    ensures p in Broadcast(up, m) <==> p.ToVM? && p.m == m && p.vm in up
  {
    if up != [] {
      var front, vm := up[..|up| - 1], up[|up| - 1];
      BroadcastOnly(front, m, p);
      assert up == front + [vm];
    }
  }

  lemma {:induction false} OthersDistinct(up: seq<VmId>, vm: VmId)
    requires Distinct(up)
    ensures Distinct(Others(up, vm))
  {
    OthersAre(up, vm);
    if up != [] {
      OthersAre(up[..|up| - 1], vm);
      var front, last := up[..|up| - 1], up[|up| - 1];
      OthersDistinct(front, vm);
      assert up == front + [last] && last !in front;
    }
  }
}
