// A virtual machine's side: what it does about each message that reaches it, and the engine object that speaks for it.
module VmEngine {
  import opened Wrappers
  import opened Common
  import Commands
  import Executer
  import Words

  /** What a machine does about a message: what it says at once, and the process it starts. */
  datatype Heed = Heed(says: seq<Words.Message>, starts: Option<Executer.Launch>)

  /** Every subscriber gets a copy of a request; only the machine it names acts on it. A file that cannot be opened is
      reported without starting anything. */
  function Hears(codec: Words.Codec, eval: Executer.Evaluator, open: Executer.Opener, resources: string, id: VmId,
                 m: Words.Message): Heed
  {
    match m
    case Ping(to, stamp) => if to == id then Heed([Words.Pong(id, stamp)], None) else Heed([], None)
    case CmdRun(to, cmdId, cmd, args, env, path, fileForStdin) =>
      if to != id then Heed([], None)
      else
        var launch := Executer.LaunchOf(eval, open, Executer.Params(cmd, args, env, path, fileForStdin));
        Heed(Executer.Published(codec, cmdId, launch, [], None, resources),
             if launch.Spawned? then Some(launch) else None)
    case Pong(_, _) => Heed([], None)
    case CmdResult(_, _) => Heed([], None)
    case Hello(_, _) => Heed([], None)
    case Bye(_, _) => Heed([], None)
    case StillAlive(_, _) => Heed([], None)
  }

  /** What the broker is sent in reply to its greeting. */
  datatype Reply = Subscribe(destination: string) | Say(m: Words.Message)

  class VMStompEngine {
    const id: VmId
    const ip: string
    var outbox: seq<Words.Message>
    /** The beacon loops that are running: nothing ever stops one. */
    var loops: nat

    constructor (id: VmId, ip: string)
      ensures this.id == id && this.ip == ip && outbox == [] && loops == 0
    {
      this.id, this.ip, outbox, loops := id, ip, [], 0;
    }

    /** Subscribe, announce, and start one more loop that sends beacons. */
    method Connected() returns (replies: seq<Reply>)
      modifies this`loops
      ensures replies == [Subscribe(Words.CMD_REQ_DESTINATION), Say(Words.Hello(id, ip))]
      ensures loops == old(loops) + 1
    {
      replies := [Subscribe(Words.CMD_REQ_DESTINATION)];
      replies := replies + [Say(Words.Hello(id, ip))];
      loops := loops + 1;
    }

    method SendBeacon()
      modifies this`outbox
      ensures outbox == old(outbox) + [Words.StillAlive(id, ip)]
    {
      outbox := outbox + [Words.StillAlive(id, ip)];
    }

    /** A beacon interval has passed: each loop has sent one beacon, so that there is one for every time the machine
        was connected. */
    method PeriodElapsed()
      modifies this`outbox
      ensures |outbox| == |old(outbox)| + loops && old(outbox) <= outbox
      ensures forall i :: |old(outbox)| <= i < |outbox| ==> outbox[i] == Words.StillAlive(id, ip)
    {
      for n := 0 to loops
        invariant |outbox| == |old(outbox)| + n && old(outbox) <= outbox
        invariant forall i :: |old(outbox)| <= i < |outbox| ==> outbox[i] == Words.StillAlive(id, ip)
      {
        SendBeacon();
      }
    }

    method Pong(timestamp: string)
      modifies this`outbox
      ensures outbox == old(outbox) + [Words.Pong(id, timestamp)]
    {
      outbox := outbox + [Words.Pong(id, timestamp)];
    }

    /** Send the results, unless putting them into words raises. */
    method DealWithExecutionResults(codec: Words.Codec, results: Words.Message)
      requires results.CmdResult?
      modifies this`outbox
      ensures outbox == old(outbox) + Executer.Sent(codec, results)
    {
      var vocabulary := new Words.Vocabulary();
      vocabulary.Instantiate(Words.CMD_RESULT);
      var packed := vocabulary.HowToSay(codec, results);
      if packed.Some? {
        outbox := outbox + [results];
      } else {
        assert outbox + [] == outbox;
      }
    }

    /** The handler that a message's word selects, up to where it waits for a process. */
    method Listen(codec: Words.Codec, eval: Executer.Evaluator, open: Executer.Opener, resources: string,
                  m: Words.Message)
      returns (starts: Option<Executer.Launch>)
      modifies this`outbox
      ensures starts == Hears(codec, eval, open, resources, id, m).starts
      ensures outbox == old(outbox) + Hears(codec, eval, open, resources, id, m).says
      ensures m.Ping? ==>
                starts == None
                && outbox == if m.to == id then old(outbox) + [Words.Pong(id, m.timestamp)] else old(outbox)
      ensures m.CmdRun? && m.to == id ==>
                match Executer.LaunchOf(eval, open, Executer.Params(m.cmd, m.args, m.env, m.path, m.fileForStdin))
                case Unreadable(why) =>
                  var results := Commands.Results("", why, false, -1, resources);
                  starts == None && outbox == old(outbox) + Executer.Sent(codec, Words.CmdResult(m.cmdId, results))
                case Rejected => starts == None && outbox == old(outbox)
                case Spawned(argv, env, path, fed) =>
                  starts == Some(Executer.Spawned(argv, env, path, fed)) && outbox == old(outbox)
      ensures !m.Ping? && !(m.CmdRun? && m.to == id) ==> starts == None && outbox == old(outbox)
    {
      starts := None;
      if m.Ping? && m.to == id {
        Pong(m.timestamp);
      } else if m.CmdRun? && m.to == id {
        var p := Executer.Params(m.cmd, m.args, m.env, m.path, m.fileForStdin);
        var executer := new Executer.CommandExecuter(m.cmdId, p);
        var launch := executer.ExecuteCommand(eval, open, p);
        match launch {
          case Unreadable(why) =>
            var results := Executer.Conclude(Executer.Fired(false, "", why, Some(-1)), resources);
            DealWithExecutionResults(codec, Words.CmdResult(executer.cmdId, results.value));
          case Rejected => assert outbox + [] == outbox;
          case Spawned(_, _, _, _) => starts := Some(launch);
        }
      }
    }
  }
}
