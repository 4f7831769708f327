// The words of the protocol: how each message is put into a frame, and how a frame is understood.
module Words {
  import opened Wrappers
  import opened Text
  import opened Common
  import opened Commands

  datatype Word = PING | PONG | CMD_RUN | CMD_RESULT | HELLO | BYE | STILL_ALIVE | AINT

  function Name(w: Word): string {
    match w
    case PING => "PING"
    case PONG => "PONG"
    case CMD_RUN => "CMD_RUN"
    case CMD_RESULT => "CMD_RESULT"
    case HELLO => "HELLO"
    case BYE => "BYE"
    case STILL_ALIVE => "STILL_ALIVE"
    case AINT => "AINT"
  }

  const CMD_REQ_DESTINATION := "/topic/cmd_requests"
  const CMD_RES_DESTINATION := "/topic/cmd_responses"
  const CONN_DESTINATION := "/topic/connections"

  datatype Frame = Frame(cmd: string, headers: map<string, string>, body: string)

  /** What is said: one constructor for each word, with its arguments. */
  datatype Message =
    | Ping(to: VmId, timestamp: string)
    | Pong(sender: VmId, timestamp: string)
    | CmdRun(to: VmId, cmdId: CmdId, cmd: string, args: string, env: string, path: string, fileForStdin: string)
    | CmdResult(cmdId: CmdId, results: Results)
    | Hello(id: VmId, ip: string)
    | Bye(id: VmId, ip: string)
    | StillAlive(id: VmId, ip: string)

  function WordOf(m: Message): Word {
    match m
    case Ping(_, _) => PING
    case Pong(_, _) => PONG
    case CmdRun(_, _, _, _, _, _, _) => CMD_RUN
    case CmdResult(_, _) => CMD_RESULT
    case Hello(_, _) => HELLO
    case Bye(_, _) => BYE
    case StillAlive(_, _) => STILL_ALIVE
  }

  /** The JSON library: only that it reads back what it wrote, and that an object's text starts with a brace. It
      refuses to write output that is not proper text. */
  datatype Codec = Codec(serialize: (CmdId, Results) -> Option<string>,
                         deserialize: string -> Option<(CmdId, Results)>)

  ghost predicate Lawful(codec: Codec) {
    forall id, r :: codec.serialize(id, r).Some? ==>
      var text := codec.serialize(id, r).value;
      codec.deserialize(text) == Some((id, r)) && text != "" && text[0] == '{'
  }

  /** Saying `m` does not raise. */
  predicate Sayable(codec: Codec, m: Message) {
    m.CmdResult? ==> codec.serialize(m.cmdId, m.results).Some?
  }

  // ---- Saying ----

  /** The frame that instantiating a word leaves in its class. */
  function Fresh(w: Word): Frame {
    Frame("", map[], Name(w))
  }

  /** What saying `m` makes of its class's frame. Results only add to the headers and to the body that are there. */
  function Said(codec: Codec, f: Frame, m: Message): Frame
    requires Sayable(codec, m)
  {
    match m
    case Ping(to, timestamp) =>
      f.(cmd := "SEND", headers := map["destination" := CMD_REQ_DESTINATION, "to" := to, "timestamp" := timestamp])
    case Pong(sender, timestamp) =>
      f.(cmd := "SEND", headers := map["destination" := CMD_RES_DESTINATION, "from" := sender,
                                       "timestamp" := timestamp])
    case CmdRun(to, cmdId, cmd, args, env, path, fileForStdin) =>
      f.(cmd := "SEND", headers := map["destination" := CMD_REQ_DESTINATION, "to" := to, "cmd-id" := cmdId,
                                       "cmd" := cmd, "args" := args, "env" := env, "path" := path,
                                       "fileForStdin" := fileForStdin])
    case CmdResult(cmdId, results) =>
      Frame("SEND", f.headers["destination" := CMD_RES_DESTINATION]["cmd-id" := cmdId],
            f.body + " " + codec.serialize(cmdId, results).value)
    case Hello(id, ip) => f.(cmd := "SEND", headers := Announcement(id, ip))
    case Bye(id, ip) => f.(cmd := "SEND", headers := Announcement(id, ip))
    case StillAlive(id, ip) => f.(cmd := "SEND", headers := Announcement(id, ip))
  }

  function Announcement(id: VmId, ip: string): map<string, string> {
    map["destination" := CONN_DESTINATION, "id" := id, "ip" := ip]
  }

  /** What an attempt to say `m` leaves in the class's frame: the body is extended last. */
  function Left(codec: Codec, f: Frame, m: Message): Frame {
    if Sayable(codec, m) then Said(codec, f, m)
    else Frame("SEND", f.headers["destination" := CMD_RES_DESTINATION]["cmd-id" := m.cmdId], f.body)
  }

  /** The frame of a message, said by a fresh instance. */
  function FrameOf(codec: Codec, m: Message): Frame
    requires Sayable(codec, m)
  {
    Said(codec, Fresh(WordOf(m)), m)
  }

  /** Where the frame of a message is sent. */
  function Destination(codec: Codec, m: Message): string
    requires Sayable(codec, m)
  {
    FrameOf(codec, m).headers["destination"]
  }

  /** Requests go to the topic that machines subscribe to, everything else to one of the host's two topics. */
  lemma Routed(codec: Codec, m: Message)
    requires Sayable(codec, m)
    ensures Destination(codec, m) == CMD_REQ_DESTINATION <==> m.Ping? || m.CmdRun?
    ensures Destination(codec, m) in {CONN_DESTINATION, CMD_RES_DESTINATION} <==> !(m.Ping? || m.CmdRun?)
  {
    assert CMD_REQ_DESTINATION[7..10] == "cmd" && CONN_DESTINATION[7..10] == "con";
    assert CMD_REQ_DESTINATION[11..14] == "req" && CMD_RES_DESTINATION[11..14] == "res";
  }

  /** What goes over the wire for each word: command, headers and body. */
  lemma WireFormat(codec: Codec, m: Message)
    requires Sayable(codec, m)
    ensures FrameOf(codec, m) ==
            match m
            case Ping(to, timestamp) =>
              Frame("SEND", map["destination" := "/topic/cmd_requests", "to" := to, "timestamp" := timestamp], "PING")
            case Pong(sender, timestamp) =>
              Frame("SEND", map["destination" := "/topic/cmd_responses", "from" := sender, "timestamp" := timestamp],
                    "PONG")
            case CmdRun(to, cmdId, cmd, args, env, path, fileForStdin) =>
              Frame("SEND", map["destination" := "/topic/cmd_requests", "to" := to, "cmd-id" := cmdId, "cmd" := cmd,
                                "args" := args, "env" := env, "path" := path, "fileForStdin" := fileForStdin],
                    "CMD_RUN")
            case CmdResult(cmdId, results) =>
              Frame("SEND", map["destination" := "/topic/cmd_responses", "cmd-id" := cmdId],
                    "CMD_RESULT " + codec.serialize(cmdId, results).value)
            case Hello(id, ip) =>
              Frame("SEND", map["destination" := "/topic/connections", "id" := id, "ip" := ip], "HELLO")
            case Bye(id, ip) =>
              Frame("SEND", map["destination" := "/topic/connections", "id" := id, "ip" := ip], "BYE")
            case StillAlive(id, ip) =>
              Frame("SEND", map["destination" := "/topic/connections", "id" := id, "ip" := ip], "STILL_ALIVE")
  {
    if m.CmdResult? {
      var text := codec.serialize(m.cmdId, m.results).value;
      assert "CMD_RESULT" + " " + text == "CMD_RESULT " + text;
    }
  }

  // ---- Hearing ----

  /** The class that the first word of a body names. */
  function WordNamed(name: string): Word {
    if name == "PING" then PING
    else if name == "PONG" then PONG
    else if name == "CMD_RUN" then CMD_RUN
    else if name == "CMD_RESULT" then CMD_RESULT
    else if name == "HELLO" then HELLO
    else if name == "BYE" then BYE
    else if name == "STILL_ALIVE" then STILL_ALIVE
    else AINT
  }

  /** Dispatch on the first word; a body without words is an error. */
  function Dispatch(body: string): Option<Word> {
    if Split(body) == [] then None else Some(WordNamed(Split(body)[0]))
  }

  /** `body.split(None, 1)[1]`: what follows the first word and the blanks after it. */
  function Payload(body: string): Option<string> {
    var t := DropBlank(body);
    var rest := DropBlank(t[WordLength(t)..]);
    if rest == "" then None else Some(rest)
  }

  predicate Has(f: Frame, k: string) {
    k in f.headers
  }

  /** What the given class takes from a frame; nothing if a header it needs is missing. */
  function Taken(codec: Codec, w: Word, f: Frame): Option<Message> {
    match w
    case PING =>
      if Has(f, "to") && Has(f, "timestamp") then Some(Ping(f.headers["to"], f.headers["timestamp"])) else None
    case PONG =>
      if Has(f, "timestamp") && Has(f, "from") then Some(Pong(f.headers["from"], f.headers["timestamp"])) else None
    case CMD_RUN =>
      if Has(f, "to") && Has(f, "cmd-id") && Has(f, "cmd") && Has(f, "args") && Has(f, "env") && Has(f, "path") then
        Some(CmdRun(f.headers["to"], f.headers["cmd-id"], f.headers["cmd"], f.headers["args"], f.headers["env"],
                    f.headers["path"], if Has(f, "fileForStdin") then f.headers["fileForStdin"] else ""))
      else None
    case CMD_RESULT =>
      (match Payload(f.body)
       case None => None
       case Some(text) =>
         match codec.deserialize(text)
         case None => None
         case Some(p) => Some(CmdResult(p.0, p.1)))
    case HELLO => if Announces(f) then Some(Hello(f.headers["id"], f.headers["ip"])) else None
    case BYE =>
      if Has(f, "id") then Some(Bye(f.headers["id"], if Has(f, "ip") then f.headers["ip"] else "")) else None
    case STILL_ALIVE => if Announces(f) then Some(StillAlive(f.headers["id"], f.headers["ip"])) else None
    case AINT => None
  }

  predicate Announces(f: Frame) {
    Has(f, "id") && Has(f, "ip")
  }

  /** What a listener takes a frame to say. */
  function Heard(codec: Codec, f: Frame): Option<Message> {
    match Dispatch(f.body)
    case None => None
    case Some(w) => Taken(codec, w, f)
  }

  lemma NameIsWord(w: Word)
    ensures IsWord(Name(w)) && WordNamed(Name(w)) == w
  {
  }

  lemma BodyWords(w: Word, text: string)
    requires text == "" || text[0] == '{'
    ensures var body := if text == "" then Name(w) else Name(w) + " " + text;
            Dispatch(body) == Some(w) && Payload(body) == if text == "" then None else Some(text)
  {
    var name := Name(w);
    NameIsWord(w);
    hide IsWord, Name, WordNamed;
    if text == "" {
      assert name + "" == name;
      NameLength(name, "");
      SplitOne(name);
    } else {
      assert name + " " + text == name + (" " + text) == name + [' '] + text;
      NameLength(name, " " + text);
      SplitCons(name, ' ', text);
      assert (name + (" " + text))[|name|..] == " " + text;
      hide Split;
      assert (" " + text)[1..] == text;
    }
  }

  lemma NameLength(name: string, rest: string)
    requires IsWord(name) && (rest == "" || IsBlank(rest[0]))
    ensures DropBlank(name + rest) == name + rest && WordLength(name + rest) == |name|
  {
    var s := name + rest;
    assert forall i :: 0 <= i < |name| ==> s[i] == name[i];
    assert rest != "" ==> s[|name|] == rest[0];
  }

  lemma PingTaken(codec: Codec, m: Message)
    requires m.Ping? || m.Pong?
    ensures Taken(codec, WordOf(m), FrameOf(codec, m)) == Some(m)
  {
  }

  lemma RunTaken(codec: Codec, m: Message)
    requires m.CmdRun?
    ensures Taken(codec, CMD_RUN, FrameOf(codec, m)) == Some(m)
  {
  }

  lemma AnnouncementTaken(codec: Codec, m: Message)
    requires m.Hello? || m.Bye? || m.StillAlive?
    ensures Taken(codec, WordOf(m), FrameOf(codec, m)) == Some(m)
  {
  }

  lemma BodyOf(codec: Codec, m: Message)
    requires Sayable(codec, m)
    ensures FrameOf(codec, m).body
            == Name(WordOf(m)) + if m.CmdResult? then " " + codec.serialize(m.cmdId, m.results).value else ""
  {
  }

  /** Dispatch on the first word selects the class that spoke, and every argument comes back as it was said. */
  lemma HeardAsSaid(codec: Codec, m: Message)
    requires Lawful(codec) && Sayable(codec, m)
    ensures Dispatch(FrameOf(codec, m).body) == Some(WordOf(m))
    ensures Heard(codec, FrameOf(codec, m)) == Some(m)
  {
    if m.CmdResult? {
      assert codec.serialize(m.cmdId, m.results).Some?;
    }
    var text := if m.CmdResult? then codec.serialize(m.cmdId, m.results).value else "";
    BodyWords(WordOf(m), text);
    BodyOf(codec, m);
    hide Dispatch, Payload, Lawful, Name, Said, Fresh, FrameOf;
    match m
    case Ping(_, _) => PingTaken(codec, m);
    case Pong(_, _) => PingTaken(codec, m);
    case CmdRun(_, _, _, _, _, _, _) => RunTaken(codec, m);
    case CmdResult(_, _) =>
      assert Name(CMD_RESULT) + " " + text == Name(CMD_RESULT) + (" " + text);
    case Hello(_, _) => AnnouncementTaken(codec, m);
    case Bye(_, _) => AnnouncementTaken(codec, m);
    case StillAlive(_, _) => AnnouncementTaken(codec, m);
  }

  /** The headers without which a word is not understood: the address in a farewell and the id beside the results are
      never missed. */
  predicate Needs(m: Message, k: string) {
    match m
    case Ping(_, _) => k in ["to", "timestamp"]
    case Pong(_, _) => k in ["from", "timestamp"]
    case CmdRun(_, _, _, _, _, _, _) => k == "to"
    case CmdResult(_, _) => false
    case Hello(_, _) => k in ["id", "ip"]
    case Bye(_, _) => k == "id"
    case StillAlive(_, _) => k in ["id", "ip"]
  }

  /** What is left of a message when a header that is not needed is lost. */
  function Blanked(m: Message, k: string): Message {
    match m
    case CmdRun(to, cmdId, cmd, args, env, path, file) =>
      CmdRun(to, cmdId, cmd, args, env, path, if k == "fileForStdin" then "" else file)
    case Bye(id, ip) => Bye(id, if k == "ip" then "" else ip)
    case _ => m
  }

  function Cut(f: Frame, k: string): Frame {
    f.(headers := f.headers - {k})
  }

  lemma LostFromPing(codec: Codec, m: Message, k: string)
    requires m.Ping? || m.Pong?
    ensures Taken(codec, WordOf(m), Cut(FrameOf(codec, m), k)) == if Needs(m, k) then None else Some(Blanked(m, k))
  {
    WireFormat(codec, m);
    hide FrameOf;
  }

  lemma LostFromRun(codec: Codec, m: Message, k: string)
    requires m.CmdRun? && k !in ["cmd-id", "cmd", "args", "env", "path"]
    ensures Taken(codec, CMD_RUN, Cut(FrameOf(codec, m), k)) == if Needs(m, k) then None else Some(Blanked(m, k))
  {
    WireFormat(codec, m);
    hide FrameOf;
  }

  lemma LostFromAnnouncement(codec: Codec, m: Message, k: string)
    requires m.Hello? || m.Bye? || m.StillAlive?
    ensures Taken(codec, WordOf(m), Cut(FrameOf(codec, m), k)) == if Needs(m, k) then None else Some(Blanked(m, k))
  {
    WireFormat(codec, m);
    hide FrameOf;
  }

  /** A frame that loses one header is understood exactly if its word does not need it, and says the rest. Of the
      headers of a request only the name of the machine and of the file are considered. */
  lemma LostHeader(codec: Codec, m: Message, k: string)
    requires Lawful(codec) && Sayable(codec, m)
    requires m.CmdRun? ==> k !in ["cmd-id", "cmd", "args", "env", "path"]
    ensures Heard(codec, Cut(FrameOf(codec, m), k)) == if Needs(m, k) then None else Some(Blanked(m, k))
  {
    HeardAsSaid(codec, m);
    hide Dispatch, Payload, Lawful, FrameOf;
    match m
    case Ping(_, _) => LostFromPing(codec, m, k);
    case Pong(_, _) => LostFromPing(codec, m, k);
    case CmdRun(_, _, _, _, _, _, _) => LostFromRun(codec, m, k);
    case CmdResult(_, _) =>
      assert Taken(codec, CMD_RESULT, Cut(FrameOf(codec, m), k)) == Taken(codec, CMD_RESULT, FrameOf(codec, m));
    case Hello(_, _) => LostFromAnnouncement(codec, m, k);
    case Bye(_, _) => LostFromAnnouncement(codec, m, k);
    case StillAlive(_, _) => LostFromAnnouncement(codec, m, k);
  }

  /** Different messages never share a frame. */
  lemma FramesDiffer(codec: Codec, a: Message, b: Message)
    requires Lawful(codec) && Sayable(codec, a) && Sayable(codec, b) && FrameOf(codec, a) == FrameOf(codec, b)
    ensures a == b
  {
    HeardAsSaid(codec, a);
    HeardAsSaid(codec, b);
  }

  /** Without a fresh frame, a second result would be sent behind the first. */
  lemma StaleFrameAccumulates(codec: Codec, a: Message, b: Message)
    requires Lawful(codec) && a.CmdResult? && b.CmdResult? && Sayable(codec, a) && Sayable(codec, b)
    ensures var s, t := codec.serialize(a.cmdId, a.results).value, codec.serialize(b.cmdId, b.results).value;
            Payload(Said(codec, FrameOf(codec, a), b).body) == Some(s + " " + t)
  {
    var s, t := codec.serialize(a.cmdId, a.results).value, codec.serialize(b.cmdId, b.results).value;
    BodyWords(CMD_RESULT, s + " " + t);
    assert Name(CMD_RESULT) + " " + (s + " " + t) == Name(CMD_RESULT) + " " + s + " " + t;
  }

  /** An attempt that raises half-way leaves the headers in the class's frame and nothing in its body, so that the next
      results said with it are sent as if it had not been made. */
  lemma FailedAttempt(codec: Codec, a: Message, b: Message)
    requires a.CmdResult? && !Sayable(codec, a) && b.CmdResult? && Sayable(codec, b)
    ensures Left(codec, Fresh(CMD_RESULT), a)
            == Frame("SEND", map["destination" := "/topic/cmd_responses", "cmd-id" := a.cmdId], "CMD_RESULT")
    ensures Said(codec, Left(codec, Fresh(CMD_RESULT), a), b) == FrameOf(codec, b)
  {
    var headers := map["destination" := CMD_RES_DESTINATION, "cmd-id" := a.cmdId];
    assert headers["destination" := CMD_RES_DESTINATION]["cmd-id" := b.cmdId]
           == map["destination" := CMD_RES_DESTINATION]["cmd-id" := b.cmdId];
  }

  /** The word classes: one frame a class, shared by all its instances. */
  class Vocabulary {
    var frames: map<Word, Frame>

    constructor ()
      ensures frames == map[]
    {
      frames := map[];
    }

    /** Instantiating a word gives its class a new frame. */
    method Instantiate(w: Word)
      modifies this
      ensures frames == old(frames)[w := Fresh(w)]
    {
      frames := frames[w := Fresh(w)];
    }

    /** What is packed, unless the writer raises. */
    method HowToSay(codec: Codec, m: Message) returns (packed: Option<Frame>)
      requires WordOf(m) in frames
      modifies this
      ensures packed == if Sayable(codec, m) then Some(Said(codec, old(frames)[WordOf(m)], m)) else None
      ensures frames == old(frames)[WordOf(m) := Left(codec, old(frames)[WordOf(m)], m)]
    {
      var f := frames[WordOf(m)];
      f := f.(cmd := "SEND");
      match m {
        case Ping(to, timestamp) =>
          f := f.(headers := map["destination" := CMD_REQ_DESTINATION, "to" := to, "timestamp" := timestamp]);
        case Pong(sender, timestamp) =>
          f := f.(headers := map["destination" := CMD_RES_DESTINATION, "from" := sender, "timestamp" := timestamp]);
        case CmdRun(to, cmdId, cmd, args, env, path, fileForStdin) =>
          f := f.(headers := map["destination" := CMD_REQ_DESTINATION, "to" := to, "cmd-id" := cmdId, "cmd" := cmd,
                                 "args" := args, "env" := env, "path" := path, "fileForStdin" := fileForStdin]);
        case CmdResult(cmdId, results) =>
          f := f.(headers := f.headers["destination" := CMD_RES_DESTINATION]);
          f := f.(headers := f.headers["cmd-id" := cmdId]);
          var text := codec.serialize(cmdId, results);
          if text.None? {
            frames := frames[CMD_RESULT := f];
            return None;
          }
          f := f.(body := f.body + " " + text.value);
        case Hello(id, ip) => f := f.(headers := Announcement(id, ip));
        case Bye(id, ip) => f := f.(headers := Announcement(id, ip));
        case StillAlive(id, ip) => f := f.(headers := Announcement(id, ip));
      }
      frames := frames[WordOf(m) := f];
      packed := Some(f);
    }

    /** However many messages were said before, or failed to be, each packed frame depends on its own arguments alone.
        */
    method SayAll(codec: Codec, messages: seq<Message>) returns (packed: seq<Option<Frame>>)
      modifies this
      ensures |packed| == |messages|
      ensures forall i :: 0 <= i < |messages| ==>
                packed[i] == if Sayable(codec, messages[i]) then Some(FrameOf(codec, messages[i])) else None
    {
      packed := [];
      for n := 0 to |messages|
        invariant |packed| == n
        invariant forall i :: 0 <= i < n ==>
          packed[i] == if Sayable(codec, messages[i]) then Some(FrameOf(codec, messages[i])) else None
      {
        Instantiate(WordOf(messages[n]));
        var f := HowToSay(codec, messages[n]);
        packed := packed + [f];
      }
    }
  }
}
