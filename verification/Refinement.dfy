// What happens to each of the host's tables while the whole system runs is a run of that table on its own, so that
// everything proved about the tables alone holds in the system.
module Refinement {
  import opened Wrappers
  import opened Common
  import opened Network
  import Commands
  import Pings
  import Protocol
  import Registry
  import Words

  /** The message that an event brings to the host, if any. */
  function Brought(w: World, e: Event): Option<Words.Message> {
    if e.Delivers? && e.k < |w.pool| && w.pool[e.k].ToHost? then Some(w.pool[e.k].m) else None
  }

  /** What an event is to the command tables. */
  function CmdAct(w: World, e: Event): Option<Commands.Act> {
    match e
    case Requests(to, id, cmd, args, env, path, fileForStdin, at) =>
      if to !in w.host.roster then None
      else Some(Commands.Sends(id, Commands.Request(at, to, cmd, args, env, path, fileForStdin)))
    case Pops(id) => Some(Commands.Pops(id))
    case _ =>
      match Brought(w, e)
      case Some(CmdResult(id, results)) => Some(Commands.Arrives(id, results))
      case _ => None
  }

  /** What an event is to the pings. */
  function PingAct(w: World, e: Event): Option<Pings.Act> {
    match e
    case AsksPing(to, stamp) => Some(Pings.Sends(stamp, to))
    case Timer(ping) => Some(Pings.Timer(ping))
    case _ =>
      match Brought(w, e)
      case Some(Pong(sender, stamp)) => Some(Pings.Pongs(stamp, Some(sender)))
      case _ => None
  }

  /** What an event is to the registry. */
  function RosterEvent(w: World, e: Event): Option<Registry.Event> {
    if e.Tick? then Some(Registry.Tick(e.at))
    else
      match Brought(w, e)
      case Some(Hello(id, ip)) => Some(Registry.Hello(id, ip, e.at))
      case Some(StillAlive(id, ip)) => Some(Registry.StillAlive(id, ip, e.at))
      case Some(Bye(id, _)) => Some(Registry.Bye(id, e.at))
      case _ => None
  }

  function AsSeq<T>(o: Option<T>): seq<T> {
    if o.Some? then [o.value] else []
  }

  function CmdTrace(setting: Setting, events: seq<Event>): seq<Commands.Act> {
    if events == [] then []
    else
      var front := events[..|events| - 1];
      CmdTrace(setting, front) + AsSeq(CmdAct(Run(setting, front), events[|events| - 1]))
  }

  function PingTrace(setting: Setting, events: seq<Event>): seq<Pings.Act> {
    if events == [] then []
    else
      var front := events[..|events| - 1];
      PingTrace(setting, front) + AsSeq(PingAct(Run(setting, front), events[|events| - 1]))
  }

  function RosterTrace(setting: Setting, events: seq<Event>): seq<Registry.Event> {
    if events == [] then []
    else
      var front := events[..|events| - 1];
      RosterTrace(setting, front) + AsSeq(RosterEvent(Run(setting, front), events[|events| - 1]))
  }

  // ---- One step ----

  function DeskOf(w: World): Commands.Desk {
    Commands.Desk(w.host.cmds, w.handed)
  }

  lemma CmdStep(setting: Setting, w: World, e: Event)
    requires Pings.Valid(w.host.pings)
    ensures var a := CmdAct(w, e);
            DeskOf(Step(setting, w, e)) == if a.Some? then Commands.Step(DeskOf(w), a.value) else DeskOf(w)
  {
    hide Pings.Valid, Pings.Step, Pings.Send, Pings.Pong, Registry.AddVM, Registry.KeepVM, Registry.RemoveVM,
      Registry.Collect;
  }

  lemma PingStep(setting: Setting, w: World, e: Event)
    requires Pings.Valid(w.host.pings)
    ensures var a := PingAct(w, e);
            Step(setting, w, e).host.pings
            == if a.Some? then Pings.Step(setting.names, w.host.pings, a.value) else w.host.pings
  {
    hide Pings.Valid, Pings.Timeout, Pings.Send, Pings.Pong, Registry.AddVM, Registry.KeepVM, Registry.RemoveVM,
      Registry.Collect, Commands.Accept, Commands.Issue, Commands.Pop;
  }

  lemma RosterStep(setting: Setting, w: World, e: Event)
    requires Pings.Valid(w.host.pings)
    ensures var a := RosterEvent(w, e);
            Step(setting, w, e).host.roster
            == if a.Some? then Registry.Step(setting.names, setting.grace, w.host.roster, a.value) else w.host.roster
  {
    hide Pings.Valid, Pings.Step, Pings.Send, Pings.Pong, Registry.AddVM, Registry.KeepVM, Registry.RemoveVM,
      Registry.Collect, Commands.Accept, Commands.Issue, Commands.Pop;
  }

  // ---- Whole runs ----

  /** The three tables of every reachable state are what their own runs make of them. */
  lemma {:induction false} RunsRefine(setting: Setting, events: seq<Event>)
    ensures DeskOf(Run(setting, events)) == Commands.Run(CmdTrace(setting, events))
    ensures Run(setting, events).host.pings == Pings.Run(setting.names, PingTrace(setting, events))
    ensures Run(setting, events).host.roster == Registry.Run(setting.names, setting.grace, RosterTrace(setting, events))
  {
    if events != [] {
      var front, e := events[..|events| - 1], events[|events| - 1];
      RunsRefine(setting, front);
      var w := Run(setting, front);
      var c, p, r := CmdAct(w, e), PingAct(w, e), RosterEvent(w, e);
      var cs, ps, rs := CmdTrace(setting, front), PingTrace(setting, front), RosterTrace(setting, front);
      assert CmdTrace(setting, events) == cs + AsSeq(c);
      assert PingTrace(setting, events) == ps + AsSeq(p);
      assert RosterTrace(setting, events) == rs + AsSeq(r);
      assert Run(setting, events) == Step(setting, w, e);
      hide Run, CmdTrace, PingTrace, RosterTrace, CmdAct, PingAct, RosterEvent, Step;
      hide Commands.Run, Commands.Step, Pings.Run, Pings.Step, Pings.Valid, Registry.Run, Registry.Step;
      CmdStep(setting, w, e);
      PingStep(setting, w, e);
      RosterStep(setting, w, e);
      if c.Some? { Commands.RunSnoc(cs, c.value); } else { assert cs + AsSeq(c) == cs; }
      if p.Some? { Pings.RunSnoc(setting.names, ps, p.value); } else { assert ps + AsSeq(p) == ps; }
      if r.Some? { Registry.RunSnoc(setting.names, setting.grace, rs, r.value); } else { assert rs + AsSeq(r) == rs; }
    }
  }

  /** In the whole system a machine is registered exactly when it is known and its latest HELLO or STILL_ALIVE to
      reach the host came after its latest BYE or collection. */
  lemma RegisteredInRuns(setting: Setting, events: seq<Event>, id: VmId)
    requires setting.grace >= 0.0
    ensures id in Run(setting, events).host.roster <==>
            Known(setting.names, id)
            && exists i: nat :: Registry.Standing(setting.grace, RosterTrace(setting, events), id, i)
  {
    RunsRefine(setting, events);
    hide Run, RosterTrace, CmdTrace, PingTrace;
    Registry.RegisteredIff(setting.names, setting.grace, RosterTrace(setting, events), id);
  }

  /** In the whole system the table of pings files exactly the unsettled ones if and only if every act on it was
      harmless. */
  lemma PingsInRuns(setting: Setting, events: seq<Event>)
    ensures Pings.Tidy(Run(setting, events).host.pings)
            <==> Pings.AllHarmless(setting.names, PingTrace(setting, events))
  {
    RunsRefine(setting, events);
    hide Run, RosterTrace, CmdTrace, PingTrace;
    Pings.TidyIffHarmless(setting.names, PingTrace(setting, events));
  }

  lemma {:induction false} RosterTraceGrows(setting: Setting, events: seq<Event>, more: seq<Event>)
    returns (rest: seq<Registry.Event>)
    ensures RosterTrace(setting, events + more) == RosterTrace(setting, events) + rest
    decreases |more|
  {
    if more == [] {
      assert events + more == events;
      rest := [];
    } else {
      var front, e := more[..|more| - 1], more[|more| - 1];
      var all := events + front + [e];
      assert events + more == all && all[..|events + front|] == events + front;
      var some := RosterTraceGrows(setting, events, front);
      rest := some + AsSeq(RosterEvent(Run(setting, events + front), e));
    }
  }

  /** In the whole system a known machine whose beats reach the host steadily and whose farewell never does is
      registered at every moment from its first beat to its last one. */
  lemma SteadyInRuns(setting: Setting, events: seq<Event>, more: seq<Event>, id: VmId, first: nat, last: nat)
    requires var h := RosterTrace(setting, events + more);
             && setting.grace >= 0.0 && Known(setting.names, id)
             && Registry.InOrder(h) && Registry.NoBye(h, id) && Registry.Steady(setting.grace, h, id)
             && first < |RosterTrace(setting, events)| <= last + 1 <= |h|
             && Registry.IsBeat(h[first], id) && Registry.IsBeat(h[last], id)
    ensures id in Run(setting, events).host.roster
  {
    var h, m := RosterTrace(setting, events + more), |RosterTrace(setting, events)|;
    var rest := RosterTraceGrows(setting, events, more);
    assert h[..m] == RosterTrace(setting, events);
    RunsRefine(setting, events);
    hide Run, RosterTrace, CmdTrace, PingTrace, Registry.Run, Registry.Steady, Registry.InOrder, Registry.NoBye;
    Registry.SteadyNeverCollected(setting.names, setting.grace, h, id, first, last, m);
  }

  /** In the whole system a known machine that sends its beats regularly over a network with bounded delay, and whose
      farewell never reaches the host, is registered at every moment from its first beat to its last one. */
  lemma PunctualInRuns(setting: Setting, events: seq<Event>, more: seq<Event>, id: VmId, sent: seq<real>,
                       arrivals: seq<nat>, p: real, d: real, first: nat, last: nat)
    requires var h := RosterTrace(setting, events + more);
             && setting.grace >= 0.0 && Known(setting.names, id)
             && Registry.InOrder(h) && Registry.NoBye(h, id)
             && Registry.Punctual(h, id, sent, arrivals, p, d) && p >= 0.0 && p + d <= 1.5 * setting.grace
             && first < |RosterTrace(setting, events)| <= last + 1 <= |h|
             && Registry.IsBeat(h[first], id) && Registry.IsBeat(h[last], id)
    ensures id in Run(setting, events).host.roster
  {
    hide Run, RosterTrace, Registry.Punctual, Registry.Steady, Registry.InOrder, Registry.NoBye;
    Registry.PunctualIsSteady(setting.grace, RosterTrace(setting, events + more), id, sent, arrivals, p, d);
    SteadyInRuns(setting, events, more, id, first, last);
  }

  /** In the whole system a machine that falls silent is gone once two and a half grace periods have passed. */
  lemma SilentInRuns(setting: Setting, events: seq<Event>, id: VmId, i: nat, start: real)
    requires var h := RosterTrace(setting, events);
             && setting.grace >= 0.0 && Registry.InOrder(h) && Registry.Ticking(setting.grace, h, start)
             && i < |h| && Registry.IsBeat(h[i], id) && start <= h[i].at
             && (forall j :: i < j < |h| ==> !Registry.IsBeat(h[j], id))
             && h[|h| - 1].at > h[i].at + 2.5 * setting.grace
    ensures id !in Run(setting, events).host.roster
  {
    RunsRefine(setting, events);
    hide Run, RosterTrace, CmdTrace, PingTrace, Registry.Run, Registry.Ticking, Registry.InOrder;
    Registry.SilentIsGone(setting.names, setting.grace, RosterTrace(setting, events), id, i, start);
  }

  lemma {:induction false} TraceFresh(setting: Setting, events: seq<Event>)
    requires Protocol.FreshIds(events)
    ensures Commands.FreshIds(CmdTrace(setting, events))
    ensures Commands.IssuedIds(CmdTrace(setting, events)) <= Protocol.IssuedIds(events)
  {
    if events != [] {
      var front, e := events[..|events| - 1], events[|events| - 1];
      assert events == front + [e];
      Protocol.FreshSnoc(front, e);
      TraceFresh(setting, front);
      var c, cs := CmdAct(Run(setting, front), e), CmdTrace(setting, front);
      assert CmdTrace(setting, events) == cs + AsSeq(c);
      assert forall i :: 0 <= i < |cs| ==> (cs + AsSeq(c))[i] == cs[i];
    }
  }

  lemma {:induction false} TraceGrows(setting: Setting, events: seq<Event>, more: seq<Event>)
    returns (rest: seq<Commands.Act>)
    ensures CmdTrace(setting, events + more) == CmdTrace(setting, events) + rest
    decreases |more|
  {
    if more == [] {
      assert events + more == events;
      rest := [];
    } else {
      var front, e := more[..|more| - 1], more[|more| - 1];
      assert events + more == events + front + [e] && (events + front + [e])[..|events + front|] == events + front;
      var some := TraceGrows(setting, events, front);
      rest := some + AsSeq(CmdAct(Run(setting, events + front), e));
    }
  }

  /** In the whole system an issued command shows the same record ever after, before and after it is retired. */
  lemma DetailsInRuns(setting: Setting, events: seq<Event>, more: seq<Event>, id: CmdId)
    requires Protocol.FreshIds(events + more) && Protocol.Issued(Run(setting, events), id)
    ensures Commands.Details(Run(setting, events + more).host.cmds, id)
            == Commands.Details(Run(setting, events).host.cmds, id)
  {
    TraceFresh(setting, events + more);
    RunsRefine(setting, events);
    RunsRefine(setting, events + more);
    var rest := TraceGrows(setting, events, more);
    var trace := CmdTrace(setting, events);
    hide Run, CmdTrace, PingTrace, RosterTrace, Commands.Run, Commands.IssuedIds, Commands.Details;
    assert Commands.FreshIds(trace) by { assert forall i :: 0 <= i < |trace| ==> (trace + rest)[i] == trace[i]; }
    Commands.Lifecycle(trace);
    Commands.DetailsNeverChange(trace, rest, id);
  }
}
