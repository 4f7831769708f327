// Running one command on a virtual machine: what becomes of a CMD_RUN, and which results are published for it.
module Executer {
  import opened Wrappers
  import opened Common
  import opened Commands
  import Words

  /** Literal evaluation of header text, as a list and as any other value; it may fail. */
  datatype Evaluator = Evaluator(list: string -> Option<seq<string>>, value: string -> Option<string>)

  /** Opening a file yields what successive reads return, or the text of the error. */
  type Opener = string -> Result<seq<string>, string>

  datatype Chunk = Out(data: string) | Err(data: string)

  /** How a process ends: normally, or with an error that has no exit code when a signal ended it. */
  datatype Exit = ProcessDone | ProcessError(exitCode: Option<int>)

  /** The outcome a Deferred was fired with. */
  datatype Fired = Fired(ok: bool, out: string, err: string, code: Option<int>)

  function OutOf(chunks: seq<Chunk>): string {
    if chunks == [] then ""
    else if chunks[|chunks| - 1].Out? then OutOf(chunks[..|chunks| - 1]) + chunks[|chunks| - 1].data
    else OutOf(chunks[..|chunks| - 1])
  }

  function ErrOf(chunks: seq<Chunk>): string {
    if chunks == [] then ""
    else if chunks[|chunks| - 1].Err? then ErrOf(chunks[..|chunks| - 1]) + chunks[|chunks| - 1].data
    else ErrOf(chunks[..|chunks| - 1])
  }

  /** What feeding a file to a process writes: every block up to the first empty one. */
  function Fed(blocks: seq<string>): string {
    if blocks == [] || blocks[0] == "" then "" else blocks[0] + Fed(blocks[1..])
  }

  function Joined(blocks: seq<string>): string {
    if blocks == [] then "" else Joined(blocks[..|blocks| - 1]) + blocks[|blocks| - 1]
  }

  /** The whole file is fed, block after block, up to the read that gives nothing; what would be read later is not. */
  lemma {:induction false} FedIsWhole(blocks: seq<string>, later: seq<string>)
    requires "" !in blocks
    ensures Fed(blocks) == Joined(blocks)
    ensures Fed(blocks + [""] + later) == Joined(blocks)
  {
    if blocks == [] {
      assert blocks + [""] + later == [""] + later;
    } else {
      var first, rest := blocks[0], blocks[1..];
      assert blocks + [""] + later == [first] + (rest + [""] + later);
      assert first in blocks;
      FedIsWhole(rest, later);
      JoinedCons(first, rest);
      assert blocks == [first] + rest;
    }
  }

  lemma {:induction false} JoinedCons(first: string, rest: seq<string>)
    ensures Joined([first] + rest) == first + Joined(rest)
  {
    var all := [first] + rest;
    if rest == [] {
      assert all[..0] == [];
    } else {
      var front, last := rest[..|rest| - 1], rest[|rest| - 1];
      assert all[..|all| - 1] == [first] + front;
      JoinedCons(first, front);
      Regroup(first, Joined(front), last);
    }
  }

  class StdinEnabledCommandProtocol {
    var stdout: string
    var stderr: string
    var fired: Option<Fired>
    var written: string
    var stdinClosed: bool

    constructor ()
      ensures stdout == stderr == written == "" && fired == None && !stdinClosed
    {
      stdout, stderr, written, fired, stdinClosed := "", "", "", None, false;
    }

    method ConnectionMade(fileToInput: Option<seq<string>>)
      modifies this`written, this`stdinClosed
      ensures stdinClosed
      ensures written == old(written) + if fileToInput.Some? then Fed(fileToInput.value) else ""
    {
      if fileToInput.Some? {
        var left := fileToInput.value;
        while left != [] && left[0] != ""
          invariant written + Fed(left) == old(written) + Fed(fileToInput.value)
          decreases |left|
        {
          assert written + (left[0] + Fed(left[1..])) == written + left[0] + Fed(left[1..]);
          written := written + left[0];
          left := left[1..];
        }
      }
      stdinClosed := true;
    }

    method Received(c: Chunk)
      modifies this`stdout, this`stderr
      ensures stdout == if c.Out? then old(stdout) + c.data else old(stdout)
      ensures stderr == if c.Err? then old(stderr) + c.data else old(stderr)
    {
      match c {
        case Out(data) => stdout := stdout + data;
        case Err(data) => stderr := stderr + data;
      }
    }

    /** A Deferred is fired once. */
    method ProcessEnded(reason: Exit)
      requires fired == None
      modifies this`fired
      ensures fired == Some(Fired(reason.ProcessDone?, stdout, stderr, CodeOf(reason)))
    {
      fired := Some(Fired(reason.ProcessDone?, stdout, stderr, CodeOf(reason)));
    }
  }

  function CodeOf(reason: Exit): Option<int> {
    match reason
    case ProcessDone => Some(0)
    case ProcessError(code) => code
  }

  /** The callback chain: both handlers format the code as a number, so without one the chain ends in an error and
      nothing is published. */
  function Conclude(f: Fired, resources: string): Option<Results> {
    if f.code.None? then None else Some(Results(f.out, f.err, f.ok, f.code.value, resources))
  }

  // ---- Starting ----

  datatype Params = Params(cmd: string, args: string, env: string, path: string, fileForStdin: string)

  datatype Launch =
    | Unreadable(why: string)
    | Rejected
    | Spawned(argv: seq<string>, env: string, path: string, fed: string)

  function Opened(open: Opener, name: string): Result<seq<string>, string> {
    if name == "" then Ok([]) else open(name)
  }

  /** Headers that evaluate, the arguments to a list. */
  predicate Evaluable(eval: Evaluator, p: Params) {
    eval.list(p.args).Some? && eval.value(p.env).Some? && eval.value(p.path).Some?
  }

  /** The file is tried first; only then are the headers evaluated. */
  function LaunchOf(eval: Evaluator, open: Opener, p: Params): Launch {
    match Opened(open, p.fileForStdin)
    case Err(why) => Unreadable(why)
    case Ok(blocks) =>
      if !Evaluable(eval, p) then Rejected
      else Spawned([p.cmd] + eval.list(p.args).value, eval.value(p.env).value, eval.value(p.path).value, Fed(blocks))
  }

  datatype Param = Raw(text: string) | Items(items: seq<string>) | Value(value: string)

  /** The text of a parameter that is to be evaluated. */
  function TextOf(p: Params, k: string): string {
    if k == "args" then p.args else if k == "env" then p.env else p.path
  }

  /** What evaluation makes of a parameter. */
  function Evaluated(eval: Evaluator, k: string, text: string): Option<Param> {
    if k == "args" then
      (match eval.list(text) case None => None case Some(items) => Some(Items(items)))
    else
      match eval.value(text) case None => None case Some(value) => Some(Value(value))
  }

  class CommandExecuter {
    const cmdId: string
    var parameters: map<string, Param>

    constructor (cmdId: string, p: Params)
      ensures this.cmdId == cmdId && Holds(p)
    {
      this.cmdId := cmdId;
      parameters := map["cmd" := Raw(p.cmd), "args" := Raw(p.args), "env" := Raw(p.env), "path" := Raw(p.path),
                        "fileForStdin" := Raw(p.fileForStdin)];
    }

    ghost predicate Holds(p: Params)
      reads this
    {
      parameters == map["cmd" := Raw(p.cmd), "args" := Raw(p.args), "env" := Raw(p.env), "path" := Raw(p.path),
                        "fileForStdin" := Raw(p.fileForStdin)]
    }

    /** Evaluate every parameter that is left, in place and in whatever order they come. */
    method EvaluateParameters(eval: Evaluator, ghost p: Params) returns (ok: bool)
      requires parameters == map["args" := Raw(p.args), "env" := Raw(p.env), "path" := Raw(p.path)]
      modifies this
      ensures ok == Evaluable(eval, p)
      ensures ok ==> parameters == map["args" := Items(eval.list(p.args).value),
                                       "env" := Value(eval.value(p.env).value),
                                       "path" := Value(eval.value(p.path).value)]
    {
      var pending := parameters.Keys;
      while pending != {}
        invariant pending <= parameters.Keys == {"args", "env", "path"}
        invariant forall k :: k in parameters ==>
          if k in pending then parameters[k] == Raw(TextOf(p, k))
          else Evaluated(eval, k, TextOf(p, k)) == Some(parameters[k])
        decreases pending
      {
        var k :| k in pending;
        pending := pending - {k};
        var v := Evaluated(eval, k, parameters[k].text);
        if v.None? {
          return false;
        }
        parameters := parameters[k := v.value];
      }
      ok := true;
    }

    /** Take the command and the file name out, evaluate what is left, take the arguments out. */
    method ExecuteCommand(eval: Evaluator, open: Opener, ghost p: Params) returns (launch: Launch)
      requires Holds(p)
      modifies this
      ensures launch == LaunchOf(eval, open, p)
      ensures launch.Spawned? ==> parameters == map["env" := Value(launch.env), "path" := Value(launch.path)]
    {
      var cmd := parameters["cmd"].text;
      var fileForStdin := parameters["fileForStdin"].text;
      parameters := parameters - {"cmd", "fileForStdin"};
      var blocks := [];
      if fileForStdin != "" {
        match open(fileForStdin) {
          case Err(why) => return Unreadable(why);
          case Ok(r) => blocks := r;
        }
      }
      var ok := EvaluateParameters(eval, p);
      if !ok {
        return Rejected;
      }
      var args := parameters["args"].items;
      parameters := parameters - {"args"};
      launch := Spawned([cmd] + args, parameters["env"].value, parameters["path"].value, Fed(blocks));
    }
  }

  // ---- A whole command ----

  /** The results that the callbacks arrive at: the file could not be read, or the process ended with a numeric code.
      */
  function Concluded(launch: Launch, chunks: seq<Chunk>, exit: Option<Exit>, resources: string): Option<Results> {
    match launch
    case Unreadable(why) => Some(Results("", why, false, -1, resources))
    case Rejected => None
    case Spawned(_, _, _, _) =>
      if exit.None? || CodeOf(exit.value).None? then None
      else Some(Results(OutOf(chunks), ErrOf(chunks), exit.value.ProcessDone?, CodeOf(exit.value).value, resources))
  }

  /** What is sent when `m` is to be said: nothing if the writer raises. */
  function Sent(codec: Words.Codec, m: Words.Message): seq<Words.Message> {
    if Words.Sayable(codec, m) then [m] else []
  }

  /** What is published for a command. */
  function Published(codec: Words.Codec, id: CmdId, launch: Launch, chunks: seq<Chunk>, exit: Option<Exit>,
                     resources: string): seq<Words.Message>
  {
    match Concluded(launch, chunks, exit, resources)
    case None => []
    case Some(results) => Sent(codec, Words.CmdResult(id, results))
  }

  /** The JSON library writes these results. */
  predicate Writable(codec: Words.Codec, id: CmdId, out: string, err: string, finished: bool, code: int,
                     resources: string)
  {
    codec.serialize(id, Results(out, err, finished, code, resources)).Some?
  }

  /** What can be told from outside: the file cannot be read, or the headers evaluate and the process ends other than
      by a signal; and in either case the text that there is to report can be written. */
  predicate Reportable(codec: Words.Codec, eval: Evaluator, open: Opener, id: CmdId, p: Params, chunks: seq<Chunk>,
                       exit: Option<Exit>, resources: string)
  {
    match Opened(open, p.fileForStdin)
    case Err(why) => Writable(codec, id, "", why, false, -1, resources)
    case Ok(_) =>
      Evaluable(eval, p)
      && match exit
         case None => false
         case Some(ProcessDone) => Writable(codec, id, OutOf(chunks), ErrOf(chunks), true, 0, resources)
         case Some(ProcessError(None)) => false
         case Some(ProcessError(Some(code))) =>
           Writable(codec, id, OutOf(chunks), ErrOf(chunks), false, code, resources)
  }

  /** A process's life as its protocol object sees it. */
  method Attend(file: Option<seq<string>>, chunks: seq<Chunk>, exit: Option<Exit>)
    returns (fired: Option<Fired>, fed: string)
    ensures fed == if file.Some? then Fed(file.value) else ""
    ensures fired == if exit.None? then None
                     else Some(Fired(exit.value.ProcessDone?, OutOf(chunks), ErrOf(chunks), CodeOf(exit.value)))
  {
    var pp := new StdinEnabledCommandProtocol();
    pp.ConnectionMade(file);
    fed := pp.written;
    assert file.Some? ==> fed == "" + Fed(file.value) == Fed(file.value);
    for n := 0 to |chunks|
      invariant pp.stdout == OutOf(chunks[..n]) && pp.stderr == ErrOf(chunks[..n]) && pp.fired == None
    {
      assert chunks[..n + 1][..n] == chunks[..n];
      pp.Received(chunks[n]);
    }
    assert chunks[..|chunks|] == chunks;
    if exit.Some? {
      pp.ProcessEnded(exit.value);
    }
    fired := pp.fired;
  }

  /** From the accepted request to what is published, through every callback: exactly one result if the command is
      reportable, and none otherwise. It has the command's id and the output in arrival order, and says finished
      exactly when the process ended normally. */
  method RunCommand(codec: Words.Codec, eval: Evaluator, open: Opener, id: CmdId, p: Params, chunks: seq<Chunk>,
                    exit: Option<Exit>, resources: string) returns (published: seq<Words.Message>)
    ensures published == Published(codec, id, LaunchOf(eval, open, p), chunks, exit, resources)
    ensures |published| == if Reportable(codec, eval, open, id, p, chunks, exit, resources) then 1 else 0
    ensures forall m :: m in published ==> m.CmdResult? && m.cmdId == id && m.results.Results?
    ensures forall m :: m in published && Opened(open, p.fileForStdin).Ok? ==>
              && m.results.out == OutOf(chunks) && m.results.err == ErrOf(chunks)
              && (m.results.finished <==> exit == Some(ProcessDone))
  {
    published := [];
    var executer := new CommandExecuter(id, p);
    var launch := executer.ExecuteCommand(eval, open, p);
    var outcome: Option<Fired> := None;
    if launch.Unreadable? {
      outcome := Some(Fired(false, "", launch.why, Some(-1)));
    } else if launch.Spawned? {
      var fed;
      outcome, fed := Attend(if p.fileForStdin == "" then None else Some(open(p.fileForStdin).value), chunks, exit);
      assert fed == launch.fed;
    }
    if outcome.Some? {
      var results := Conclude(outcome.value, resources);
      if results.Some? {
        var m := Words.CmdResult(executer.cmdId, results.value);
        var vocabulary := new Words.Vocabulary();
        vocabulary.Instantiate(Words.CMD_RESULT);
        var packed := vocabulary.HowToSay(codec, m);
        if packed.Some? {
          published := [m];
        }
      }
    }
  }

  /** A process killed by a signal is never reported, whatever it printed. */
  lemma KilledIsNeverReported(codec: Words.Codec, eval: Evaluator, open: Opener, id: CmdId, p: Params,
                              chunks: seq<Chunk>, resources: string)
    requires Evaluable(eval, p) && Opened(open, p.fileForStdin).Ok?
    ensures LaunchOf(eval, open, p).Spawned?
    ensures Published(codec, id, LaunchOf(eval, open, p), chunks, Some(ProcessError(None)), resources) == []
  {
  }

  /** Nor is a process that ends normally, if the writer refuses what it printed. */
  lemma UnwritableIsNeverReported(codec: Words.Codec, eval: Evaluator, open: Opener, id: CmdId, p: Params,
                                  chunks: seq<Chunk>, resources: string)
    requires Evaluable(eval, p) && Opened(open, p.fileForStdin).Ok?
    requires !Writable(codec, id, OutOf(chunks), ErrOf(chunks), true, 0, resources)
    ensures LaunchOf(eval, open, p).Spawned?
    ensures Published(codec, id, LaunchOf(eval, open, p), chunks, Some(ProcessDone), resources) == []
  {
  }

  lemma Unfolds(a: seq<Chunk>, c: Chunk)
    ensures OutOf(a + [c]) == if c.Out? then OutOf(a) + c.data else OutOf(a)
    ensures ErrOf(a + [c]) == if c.Err? then ErrOf(a) + c.data else ErrOf(a)
  {
    assert (a + [c])[..|a|] == a;
  }

  lemma Regroup(a: string, b: string, c: string)
    ensures a + b + c == a + (b + c)
  {
  }

  /** Output is gathered in arrival order, each stream for itself. */
  lemma {:induction false} OutputSplits(a: seq<Chunk>, b: seq<Chunk>)
    ensures OutOf(a + b) == OutOf(a) + OutOf(b) && ErrOf(a + b) == ErrOf(a) + ErrOf(b)
  {
    if b == [] {
      assert a + b == a;
    } else {
      var front, c := b[..|b| - 1], b[|b| - 1];
      OutputSplits(a, front);
      assert a + b == a + front + [c] && b == front + [c] by { hide *; }
      Unfolds(a + front, c);
      Unfolds(front, c);
      Regroup(OutOf(a), OutOf(front), c.data);
      Regroup(ErrOf(a), ErrOf(front), c.data);
      hide *;
    }
  }
}
