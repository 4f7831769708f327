// The host: its tables as one value, what hearing a message does to them, and the engine object that keeps them.
module HostEngine {
  import opened Wrappers
  import opened Common
  import Commands
  import Pings
  import Registry
  import Text
  import Words

  /** Everything the host keeps. */
  datatype Host = Host(roster: Registry.Roster, pings: Pings.PingTable, cmds: Commands.Tables)

  const NEW_HOST := Host(map[], Pings.NO_PINGS, Commands.EMPTY)

  /** The host after hearing a message, and the error that the handler raised, if any. To its own words it would have
      to answer with a machine id, which it has not got. */
  function Hears(names: Names, h: Host, m: Words.Message, now: real): (r: (Host, Option<HostError>))
    requires Pings.Valid(h.pings)
    ensures Pings.Valid(r.0.pings)
  {
    match m
    case Hello(id, ip) => Enrolled(h, Registry.AddVM(names, h.roster, id, ip, now))
    case StillAlive(id, ip) => Enrolled(h, Registry.KeepVM(names, h.roster, id, ip, now))
    case Bye(id, _) => Enrolled(h, Registry.RemoveVM(h.roster, id))
    case Pong(sender, stamp) =>
      var (t, e) := Pings.Pong(names, h.pings, stamp, Some(sender));
      (h.(pings := t), e)
    case CmdResult(id, results) =>
      (match Commands.Accept(h.cmds, id, results)
       case Ok(t) => (h.(cmds := t), None)
       case Err(e) => (h, Some(e)))
    case Ping(_, _) => (h, Some(AttributeMissing))
    case CmdRun(_, _, _, _, _, _, _) => (h, Some(AttributeMissing))
  }

  /** The host after a frame arrives. A word the protocol does not have is only noted. A frame that lacks what its
      handler looks up is an error, and nothing has changed by then, but for a pong without a sender: its Deferred is
      out. */
  function Interprets(codec: Words.Codec, names: Names, h: Host, f: Words.Frame, now: real): (Host, Option<HostError>)
    requires Pings.Valid(h.pings)
  {
    match Words.Heard(codec, f)
    case Some(m) => Hears(names, h, m, now)
    case None =>
      match Words.Dispatch(f.body)
      case Some(AINT) => (h, None)
      case Some(PING) => (h, Some(AttributeMissing))
      case Some(CMD_RUN) => (h, Some(AttributeMissing))
      case Some(PONG) =>
        if !Words.Has(f, "timestamp") then (h, Some(KeyMissing))
        else
          var (t, e) := Pings.Pong(names, h.pings, f.headers["timestamp"], None);
          (h.(pings := t), e)
      case _ => (h, Some(KeyMissing))
  }

  function Enrolled(h: Host, r: Result<Registry.Roster, HostError>): (Host, Option<HostError>) {
    match r
    case Ok(roster) => (h.(roster := roster), None)
    case Err(e) => (h, Some(e))
  }

  /** Which messages make the host's handlers raise, and what: words it says itself, machines it does not know or does
      not have, pongs and results that nobody is waiting for. */
  lemma Raises(names: Names, h: Host, m: Words.Message, now: real)
    requires Pings.Valid(h.pings)
    ensures Hears(names, h, m, now).1 == Some(AttributeMissing) <==> m.Ping? || m.CmdRun?
    ensures Hears(names, h, m, now).1 == Some(AssertionFailed) <==>
              (m.Pong? && m.timestamp !in h.pings.pending) || (m.CmdResult? && m.cmdId !in h.cmds.sent)
    ensures Hears(names, h, m, now).1 == Some(KeyMissing) <==> m.Bye? && m.id !in h.roster
    ensures Hears(names, h, m, now).1 == Some(NoSuchVirtualMachine) <==>
              || (m.Hello? && !Known(names, m.id))
              || (m.StillAlive? && m.id !in h.roster && !Known(names, m.id))
              || (m.Pong? && m.timestamp in h.pings.pending && !Known(names, m.sender))
    ensures Hears(names, h, m, now).1 != Some(NotRegistered)
  {
    hide Pings.Valid, Pings.Settle;
  }

  /** What a frame that is not understood makes them raise. */
  lemma MisheardRaises(codec: Words.Codec, names: Names, h: Host, f: Words.Frame, now: real)
    requires Pings.Valid(h.pings) && Words.Heard(codec, f).None? && Text.Split(f.body) != []
    ensures var word := Text.Split(f.body)[0];
            var error := Interprets(codec, names, h, f, now).1;
            && (error == Some(AttributeMissing) <==> word == "PING" || word == "CMD_RUN")
            && (error == Some(KeyMissing) <==>
                  || word in ["CMD_RESULT", "HELLO", "BYE", "STILL_ALIVE"]
                  || (word == "PONG" && (!Words.Has(f, "timestamp") || f.headers["timestamp"] in h.pings.pending)))
            && (error == Some(AssertionFailed) <==>
                  word == "PONG" && Words.Has(f, "timestamp") && f.headers["timestamp"] !in h.pings.pending)
  {
    hide Text.Split, Words.Heard, Pings.Valid;
  }

  /** A frame made by saying a message has the effect of hearing that message. */
  lemma SaidIsHeard(codec: Words.Codec, names: Names, h: Host, m: Words.Message, now: real)
    requires Words.Lawful(codec) && Words.Sayable(codec, m) && Pings.Valid(h.pings)
    ensures Interprets(codec, names, h, Words.FrameOf(codec, m), now) == Hears(names, h, m, now)
  {
    Words.HeardAsSaid(codec, m);
  }

  /** A word the protocol does not have has no effect and raises nothing. */
  lemma UnknownWordIgnored(codec: Words.Codec, names: Names, h: Host, f: Words.Frame, now: real)
    requires Pings.Valid(h.pings) && Text.Split(f.body) != []
    requires Text.Split(f.body)[0] !in {"PING", "PONG", "CMD_RUN", "CMD_RESULT", "HELLO", "BYE", "STILL_ALIVE"}
    ensures Interprets(codec, names, h, f, now) == (h, None)
  {
    hide Text.Split, Pings.Valid;
  }

  /** Of the frames that are not understood, exactly the pongs without a sender that hit a filed ping change anything.
      */
  lemma MisheardChangesIff(codec: Words.Codec, names: Names, h: Host, f: Words.Frame, now: real)
    requires Pings.Valid(h.pings) && Words.Heard(codec, f).None?
    ensures Interprets(codec, names, h, f, now).0 != h <==>
              Words.Dispatch(f.body) == Some(Words.PONG) && Words.Has(f, "timestamp")
              && f.headers["timestamp"] in h.pings.pending
  {
    hide Words.Dispatch, Words.Heard, Pings.Valid;
    if Words.Has(f, "timestamp") && f.headers["timestamp"] in h.pings.pending {
      assert h.pings.pending - {f.headers["timestamp"]} != h.pings.pending;
    }
  }

  class VMRef {
    const id: VmId
    const ip: string
    const name: string
    var beacon: real

    /** Building the record counts as a beacon. */
    constructor (id: VmId, ip: string, name: string, now: real)
      ensures this.id == id && this.ip == ip && this.name == name && beacon == now
    {
      this.id, this.ip, this.name, beacon := id, ip, name, now;
    }

    function View(): Registry.VMRec
      reads this`beacon
    {
      Registry.VMRec(id, ip, name, beacon)
    }
  }

  class Deferred {
    /** For the proofs: how many were made before it, and for which ping. */
    ghost const slot: nat
    ghost const stamp: string
    ghost const to: VmId
    var outcome: Pings.Outcome

    constructor (ghost slot: nat, ghost stamp: string, ghost to: VmId)
      ensures View() == Pings.Ping(stamp, to, Pings.Waiting) && this.slot == slot
    {
      this.slot, this.stamp, this.to, outcome := slot, stamp, to, Pings.Waiting;
    }

    /** Firing a second time is an error. */
    method Fire(outcome: Pings.Outcome)
      requires this.outcome == Pings.Waiting
      modifies this`outcome
      ensures this.outcome == outcome
    {
      this.outcome := outcome;
    }

    ghost function View(): Pings.Ping
      reads this`outcome
    {
      Pings.Ping(stamp, to, outcome)
    }
  }

  ghost function Views(ds: seq<Deferred>): (r: seq<Pings.Ping>)
    reads ds
    ensures |r| == |ds| && forall i :: 0 <= i < |ds| ==> r[i] == ds[i].View()
  {
    if ds == [] then [] else Views(ds[..|ds| - 1]) + [ds[|ds| - 1].View()]
  }

  ghost function Slots(pings: map<string, Deferred>): map<string, nat> {
    map s | s in pings :: pings[s].slot
  }

  lemma SlotsFile(pings: map<string, Deferred>, stamp: string, d: Deferred)
    ensures Slots(pings[stamp := d]) == Slots(pings)[stamp := d.slot]
  {
  }

  lemma SlotsLess(pings: map<string, Deferred>, stamp: string)
    ensures Slots(pings - {stamp}) == Slots(pings) - {stamp}
  {
  }

  lemma ViewsSnoc(ds: seq<Deferred>, d: Deferred)
    ensures Views(ds + [d]) == Views(ds) + [d.View()]
  {
    assert (ds + [d])[..|ds|] == ds;
  }

  lemma SendKeepsValid(t: Pings.PingTable, stamp: string, to: VmId)
    requires Pings.Valid(t)
    ensures Pings.Valid(Pings.Send(t, stamp, to))
  {
  }

  lemma TakingOutKeepsValid(t: Pings.PingTable, stamp: string)
    requires Pings.Valid(t)
    ensures Pings.Valid(t.(pending := t.pending - {stamp}))
    ensures forall outcome :: stamp in t.pending ==> Pings.Valid(Pings.Settle(t, stamp, outcome))
  {
  }

  class HostStompEngine {
    const names: Names
    const grace: real
    var vms: map<VmId, VMRef>
    var pings: map<string, Deferred>
    var cmdReqsSent: map<CmdId, Commands.Request>
    var cmdReqsRetired: map<CmdId, Commands.Request>
    var cmdReqsRcvd: map<CmdId, Commands.Results>
    var outbox: seq<Words.Message>
    /** Every Deferred ever made. */
    ghost var issued: seq<Deferred>

    constructor (names: Names, grace: real)
      ensures this.names == names && this.grace == grace && outbox == []
      ensures Valid() && View() == NEW_HOST
    {
      this.names, this.grace := names, grace;
      vms, pings := map[], map[];
      cmdReqsSent, cmdReqsRetired, cmdReqsRcvd := map[], map[], map[];
      outbox, issued := [], [];
    }

    // ---- What the fields stand for ----

    ghost function RosterView(): Registry.Roster
      reads this`vms, vms.Values
    {
      map id | id in vms :: vms[id].View()
    }

    ghost function PingView(): Pings.PingTable
      reads this`pings, this`issued, issued
    {
      Pings.PingTable(Slots(pings), Views(issued))
    }

    ghost function CmdView(): Commands.Tables
      reads this`cmdReqsSent, this`cmdReqsRetired, this`cmdReqsRcvd
    {
      Commands.Tables(cmdReqsSent, cmdReqsRetired, cmdReqsRcvd)
    }

    ghost function View(): Host
      reads this, vms.Values, issued
    {
      Host(RosterView(), PingView(), CmdView())
    }

    ghost predicate VmsValid()
      reads this`vms
    {
      forall id :: id in vms ==> vms[id].id == id
    }

    ghost predicate PingsValid()
      reads this`pings, this`issued, issued
    {
      && (forall i :: 0 <= i < |issued| ==> issued[i].slot == i)
      && (forall s :: s in pings ==> pings[s].slot < |issued| && issued[pings[s].slot] == pings[s])
      && Pings.Valid(PingView())
    }

    ghost predicate Valid()
      reads this, issued
    {
      VmsValid() && PingsValid()
    }

    /** The host subscribes to what machines say, and not to what it says itself. */
    method Connected() returns (destinations: seq<string>)
      ensures destinations == [Words.CONN_DESTINATION, Words.CMD_RES_DESTINATION]
      ensures forall codec, m :: Words.Sayable(codec, m) ==>
                (Words.Destination(codec, m) in destinations <==> !(m.Ping? || m.CmdRun?))
    {
      destinations := [Words.CONN_DESTINATION];
      destinations := destinations + [Words.CMD_RES_DESTINATION];
      forall codec, m | Words.Sayable(codec, m)
        ensures Words.Destination(codec, m) in destinations <==> !(m.Ping? || m.CmdRun?)
      {
        Words.Routed(codec, m);
      }
    }

    // ---- Commands ----

    method RequestCmdExecution(to: VmId, cmdId: CmdId, cmd: string, args: string, env: string, path: string,
                               fileForStdin: string, now: real) returns (error: Option<HostError>)
      modifies this`outbox, this`cmdReqsSent
      ensures to !in vms ==>
        && error == Some(if Known(names, to) then NotRegistered else NoSuchVirtualMachine)
        && outbox == old(outbox) && CmdView() == old(CmdView())
      ensures to in vms ==>
        && error == None
        && outbox == old(outbox) + [Words.CmdRun(to, cmdId, cmd, args, env, path, fileForStdin)]
        && CmdView() == Commands.Issue(old(CmdView()), cmdId,
                                       Commands.Request(now, to, cmd, args, env, path, fileForStdin))
        && Commands.Details(CmdView(), cmdId) == Some(Commands.Request(now, to, cmd, args, env, path, fileForStdin))
      ensures forall id :: id != cmdId ==> Commands.Details(CmdView(), id) == Commands.Details(old(CmdView()), id)
    {
      if to !in vms {
        match NameOf(names, to) {
          case None => return Some(NoSuchVirtualMachine);
          case Some(_) => return Some(NotRegistered);
        }
      }
      outbox := outbox + [Words.CmdRun(to, cmdId, cmd, args, env, path, fileForStdin)];
      cmdReqsSent := cmdReqsSent[cmdId := Commands.Request(now, to, cmd, args, env, path, fileForStdin)];
      error := None;
    }

    method ProcessCmdResult(cmdId: CmdId, results: Commands.Results) returns (error: Option<HostError>)
      modifies this`cmdReqsSent, this`cmdReqsRetired, this`cmdReqsRcvd
      ensures match Commands.Accept(old(CmdView()), cmdId, results)
              case Ok(t) => error == None && CmdView() == t
              case Err(e) => error == Some(e) && CmdView() == old(CmdView())
    {
      if cmdId !in cmdReqsSent {
        return Some(AssertionFailed);
      }
      cmdReqsRcvd := cmdReqsRcvd[cmdId := results];
      var request := cmdReqsSent[cmdId];
      cmdReqsSent := cmdReqsSent - {cmdId};
      cmdReqsRetired := cmdReqsRetired[cmdId := request];
      error := None;
    }

    method PopCmdResults(cmdId: CmdId) returns (results: Option<Commands.Results>)
      modifies this`cmdReqsRcvd
      ensures (CmdView(), results) == Commands.Pop(old(CmdView()), cmdId)
    {
      if cmdId !in cmdReqsRcvd {
        return None;
      }
      results := Some(cmdReqsRcvd[cmdId]);
      cmdReqsRcvd := cmdReqsRcvd - {cmdId};
    }

    /** The commands for which asking for the result would give one. */
    method ListFinishedCmds() returns (ids: set<CmdId>)
      ensures forall id :: id in ids <==> Commands.Pop(CmdView(), id).1.Some?
    {
      ids := cmdReqsRcvd.Keys;
    }

    method GetCmdDetails(cmdId: CmdId) returns (details: Option<Commands.Request>)
      ensures details == Commands.Details(CmdView(), cmdId)
    {
      details := if cmdId in cmdReqsSent then Some(cmdReqsSent[cmdId]) else None;
      if details.None? && cmdId in cmdReqsRetired {
        details := Some(cmdReqsRetired[cmdId]);
      }
    }

    // ---- Pings ----

    method Ping(to: VmId, timestamp: string) returns (d: Deferred)
      requires PingsValid()
      modifies this`pings, this`outbox, this`issued
      ensures fresh(d) && issued == old(issued) + [d]
      ensures PingsValid() && PingView() == Pings.Send(old(PingView()), timestamp, to)
      ensures outbox == old(outbox) + [Words.Ping(to, timestamp)]
    {
      hide Views, Slots, Pings.Valid;
      ghost var before := PingView();
      d := new Deferred(|issued|, timestamp, to);
      SlotsFile(pings, timestamp, d);
      ViewsSnoc(issued, d);
      pings, issued := pings[timestamp := d], issued + [d];
      SendKeepsValid(before, timestamp, to);
      outbox := outbox + [Words.Ping(to, timestamp)];
    }

    /** Take a filed Deferred out without firing it. */
    method Discard(timestamp: string)
      requires PingsValid()
      modifies this`pings
      ensures PingsValid() && PingView() == old(PingView()).(pending := old(PingView()).pending - {timestamp})
    {
      hide Views, Slots, Pings.Valid;
      TakingOutKeepsValid(PingView(), timestamp);
      SlotsLess(pings, timestamp);
      pings := pings - {timestamp};
    }

    /** Take a filed Deferred out and fire it. */
    method Resolve(timestamp: string, outcome: Pings.Outcome)
      requires PingsValid() && timestamp in pings && outcome != Pings.Waiting
      modifies this`pings, pings[timestamp]
      ensures PingsValid() && PingView() == Pings.Settle(old(PingView()), timestamp, outcome)
    {
      hide Views;
      var d := pings[timestamp];
      ghost var before, k := PingView(), d.slot;
      assert timestamp in before.pending && before.issued[k] == d.View();
      pings := pings - {timestamp};
      assert Slots(pings) == before.pending - {timestamp};
      d.Fire(outcome);
      assert Views(issued) == before.issued[k := before.issued[k].(outcome := outcome)];
    }

    /** What the timer of a ping does when it goes off. */
    method OnTimeout(to: VmId, timestamp: string) returns (error: Option<HostError>)
      requires PingsValid()
      modifies this`pings, pings.Values
      ensures PingsValid() && (PingView(), error) == Pings.Timeout(names, old(PingView()), timestamp, to)
    {
      hide Views, Pings.Valid, Pings.Settle;
      if timestamp !in pings {
        return None;
      }
      match NameOf(names, to) {
        case None =>
          Discard(timestamp);
          error := Some(NoSuchVirtualMachine);
        case Some(name) =>
          Resolve(timestamp, Pings.TimedOut(name));
          error := None;
      }
    }

    /** The sender is looked for only once the Deferred is out. */
    method ProcessPong(sender: Option<VmId>, timestamp: string) returns (error: Option<HostError>)
      requires PingsValid()
      modifies this`pings, pings.Values
      ensures PingsValid() && (PingView(), error) == Pings.Pong(names, old(PingView()), timestamp, sender)
    {
      hide Views, Pings.Valid, Pings.Settle;
      if timestamp !in pings {
        return Some(AssertionFailed);
      }
      if sender.None? {
        Discard(timestamp);
        return Some(KeyMissing);
      }
      match NameOf(names, sender.value) {
        case None =>
          Discard(timestamp);
          error := Some(NoSuchVirtualMachine);
        case Some(name) =>
          Resolve(timestamp, Pings.Answered(name));
          error := None;
      }
    }

    // ---- The registry ----

    ghost predicate Enrols(r: Result<Registry.Roster, HostError>, before: Registry.Roster, error: Option<HostError>)
      reads this`vms, vms.Values
    {
      match r
      case Ok(roster) => error == None && RosterView() == roster
      case Err(e) => error == Some(e) && RosterView() == before
    }

    method AddVM(id: VmId, ip: string, now: real) returns (error: Option<HostError>)
      requires VmsValid()
      modifies this`vms
      ensures VmsValid() && Enrols(Registry.AddVM(names, old(RosterView()), id, ip, now), old(RosterView()), error)
      ensures if Known(names, id) then
                error == None
                && RosterView() == old(RosterView())[id := Registry.VMRec(id, ip, names[id], now)]
              else error == Some(NoSuchVirtualMachine) && RosterView() == old(RosterView())
      ensures forall v :: v in vms.Values ==> v in old(vms.Values) || fresh(v)
    {
      match NameOf(names, id) {
        case None => error := Some(NoSuchVirtualMachine);
        case Some(name) =>
          var ref := new VMRef(id, ip, name, now);
          vms := vms[id := ref];
          error := None;
      }
    }

    method RemoveVM(id: VmId) returns (error: Option<HostError>)
      requires VmsValid()
      modifies this`vms
      ensures VmsValid() && vms == old(vms) - {id}
      ensures Enrols(Registry.RemoveVM(old(RosterView()), id), old(RosterView()), error)
      ensures error == if id in old(vms) then None else Some(KeyMissing)
    {
      if id !in vms {
        return Some(KeyMissing);
      }
      vms := vms - {id};
      error := None;
    }

    method KeepVMForNow(id: VmId, ip: string, now: real) returns (error: Option<HostError>)
      requires VmsValid()
      modifies this`vms, vms.Values
      ensures VmsValid() && Enrols(Registry.KeepVM(names, old(RosterView()), id, ip, now), old(RosterView()), error)
      ensures forall v :: v in vms.Values ==> v in old(vms.Values) || fresh(v)
    {
      if id !in vms {
        error := AddVM(id, ip, now);
      } else {
        vms[id].beacon := now;
        error := None;
      }
    }

    /** The machines that commands can be sent to. */
    method GetRegisteredVMs() returns (ids: set<VmId>)
      ensures ids == vms.Keys == RosterView().Keys
    {
      ids := vms.Keys;
    }

    /** Remove the dead, and name those that are merely late. */
    method PerformVMsGC(now: real) returns (warned: set<VmId>)
      requires VmsValid()
      modifies this`vms
      ensures VmsValid() && RosterView() == Registry.Collect(old(RosterView()), now, grace)
      ensures forall id :: id in warned <==>
                id in old(RosterView()) && grace < now - old(RosterView())[id].beacon <= 1.5 * grace
    {
      hide Registry.RemoveVM, Enrols, Views, Pings.Valid;
      var offending := set v | v in vms.Values && now - v.beacon > grace;
      var dead := set v | v in offending && now - v.beacon > 1.5 * grace;
      warned := set v | v in offending && v !in dead :: v.id;
      while dead != {}
        invariant VmsValid()
        invariant forall v :: v in dead ==> v.id in vms && vms[v.id] == v
        invariant forall id :: id in vms ==> id in old(vms) && vms[id] == old(vms)[id]
        invariant forall id :: id in old(vms) ==>
          (id in vms <==> old(vms)[id] in dead || !Registry.Dead(old(vms)[id].View(), now, grace))
        decreases dead
      {
        var v :| v in dead;
        dead := dead - {v};
        var _ := RemoveVM(v.id);
      }
    }

    // ---- Listening ----

    /** The handler that a message's word selects. */
    method Listen(m: Words.Message, now: real) returns (error: Option<HostError>)
      requires Valid()
      modifies this, vms.Values, pings.Values
      ensures Valid() && (View(), error) == Hears(names, old(View()), m, now)
      ensures outbox == old(outbox)
    {
      hide Registry.AddVM, Registry.KeepVM, Registry.RemoveVM, Pings.Pong, Pings.Valid, Commands.Accept;
      hide RosterView, PingView, CmdView, VmsValid, PingsValid;
      match m {
        case Hello(id, ip) => error := AddVM(id, ip, now);
        case StillAlive(id, ip) => error := KeepVMForNow(id, ip, now);
        case Bye(id, _) => error := RemoveVM(id);
        case Pong(sender, stamp) => error := ProcessPong(Some(sender), stamp);
        case CmdResult(id, results) => error := ProcessCmdResult(id, results);
        case Ping(_, _) => error := Some(AttributeMissing);
        case CmdRun(_, _, _, _, _, _, _) => error := Some(AttributeMissing);
      }
    }

    /** A frame arrives: its first word selects the class that listens to it. */
    method Interpret(codec: Words.Codec, f: Words.Frame, now: real) returns (error: Option<HostError>)
      requires Valid()
      modifies this, vms.Values, pings.Values
      ensures Valid() && (View(), error) == Interprets(codec, names, old(View()), f, now)
      ensures outbox == old(outbox)
    {
      hide Hears, Pings.Pong, Pings.Valid, Words.Heard, Words.Dispatch;
      hide RosterView, PingView, CmdView, VmsValid, PingsValid;
      match Words.Heard(codec, f) {
        case Some(m) => error := Listen(m, now);
        case None =>
          match Words.Dispatch(f.body) {
            case Some(AINT) => error := None;
            case Some(PING) => error := Some(AttributeMissing);
            case Some(CMD_RUN) => error := Some(AttributeMissing);
            case Some(PONG) =>
              if Words.Has(f, "timestamp") {
                error := ProcessPong(None, f.headers["timestamp"]);
              } else {
                error := Some(KeyMissing);
              }
            case _ => error := Some(KeyMissing);
          }
      }
    }
  }
}
