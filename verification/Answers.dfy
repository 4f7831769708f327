// Who answers a ping: with distinct timestamps the machine it was sent to, and no other; otherwise, exactly when an
// outcome names the wrong one.
module Answers {
  import opened Wrappers
  import opened Common
  import opened Network
  import Commands
  import Executer
  import HostEngine
  import Pings
  import Refinement
  import Words

  predicate Sent(t: Pings.PingTable, stamp: string, to: VmId) {
    exists k :: 0 <= k < |t.issued| && t.issued[k].stamp == stamp && t.issued[k].to == to
  }

  /** A ping under way was sent, and a pong under way comes from the machine that was pinged. */
  predicate Backed(t: Pings.PingTable, p: Item) {
    match p
    case ToVM(_, Ping(to, stamp)) => Sent(t, stamp, to)
    case ToHost(Pong(sender, stamp)) => Sent(t, stamp, sender)
    case _ => true
  }

  predicate AllBacked(w: World) {
    forall p :: p in w.pool ==> Backed(w.host.pings, p)
  }

  predicate OwnStamps(t: Pings.PingTable) {
    forall i, j :: 0 <= i < j < |t.issued| ==> t.issued[i].stamp != t.issued[j].stamp
  }

  lemma StepKeepsSent(names: Names, t: Pings.PingTable, a: Pings.Act, stamp: string, to: VmId)
    requires Pings.Valid(t) && Sent(t, stamp, to)
    ensures Sent(Pings.Step(names, t, a), stamp, to)
  {
    var k :| 0 <= k < |t.issued| && t.issued[k].stamp == stamp && t.issued[k].to == to;
    var u := Pings.Step(names, t, a);
    Pings.StepKeepsPing(names, t, a, k);
    assert u.issued[k].stamp == stamp && u.issued[k].to == to;
  }

  lemma StepTruthful(names: Names, t: Pings.PingTable, a: Pings.Act)
    requires Pings.Valid(t) && OwnStamps(t) && Pings.AllTruthful(names, t)
    requires a.Sends? ==> forall k :: 0 <= k < |t.issued| ==> t.issued[k].stamp != a.stamp
    requires a.Pongs? && a.sender.Some? ==> Sent(t, a.stamp, a.sender.value)
    ensures OwnStamps(Pings.Step(names, t, a)) && Pings.AllTruthful(names, Pings.Step(names, t, a))
  {
  }

  lemma JustSent(t: Pings.PingTable, stamp: string, to: VmId)
    ensures Sent(Pings.Send(t, stamp, to), stamp, to)
  {
    var u := Pings.Send(t, stamp, to);
    assert u.issued[|t.issued|] == Pings.Ping(stamp, to, Pings.Waiting);
  }

  /** Whatever a step puts into the pool is backed by a ping that was sent. */
  lemma NewcomersBacked(setting: Setting, w: World, e: Event, p: Item)
    requires Pings.Valid(w.host.pings) && AllBacked(w)
    requires p in Step(setting, w, e).pool && p !in w.pool
    ensures Backed(Step(setting, w, e).host.pings, p)
  {
    hide Pings.Valid, Sent, Pings.Send, Pings.Step, Executer.LaunchOf, HostEngine.Hears;
    match e
    case AsksPing(to, stamp) =>
      BroadcastOnly(w.up, Words.Ping(to, stamp), p);
      JustSent(w.host.pings, stamp, to);
    case Requests(to, id, cmd, args, env, path, fileForStdin, at) =>
      BroadcastOnly(w.up, RunOf(id, Commands.Request(at, to, cmd, args, env, path, fileForStdin)), p);
    case Delivers(k, _, _, _) => assert Backed(w.host.pings, w.pool[k]);
    case _ =>
  }

  lemma StepBacked(setting: Setting, w: World, e: Event)
    requires Pings.Valid(w.host.pings) && AllBacked(w)
    ensures AllBacked(Step(setting, w, e))
  {
    var u := Step(setting, w, e);
    var a := Refinement.PingAct(w, e);
    Refinement.PingStep(setting, w, e);
    hide Step, Pings.Step, Pings.Valid, Sent, Refinement.PingAct;
    forall p | p in u.pool ensures Backed(u.host.pings, p) {
      if p !in w.pool {
        NewcomersBacked(setting, w, e, p);
      } else {
        assert Backed(w.host.pings, p);
        if a.Some? { BackedKept(setting.names, w.host.pings, a.value, p); }
      }
    }
  }

  lemma BackedKept(names: Names, t: Pings.PingTable, a: Pings.Act, p: Item)
    requires Pings.Valid(t) && Backed(t, p)
    ensures Backed(Pings.Step(names, t, a), p)
  {
    hide Pings.Step, Sent, Pings.Valid;
    match p
    case ToVM(_, Ping(to, stamp)) => StepKeepsSent(names, t, a, stamp, to);
    case ToHost(Pong(sender, stamp)) => StepKeepsSent(names, t, a, stamp, sender);
    case _ =>
  }

  // ---- Whole runs ----

  /** No two pings are sent under the same timestamp. */
  predicate OwnTimes(events: seq<Event>) {
    forall i, j :: 0 <= i < j < |events| && events[i].AsksPing? && events[j].AsksPing?
      ==> events[i].stamp != events[j].stamp
  }

  function Stamps(events: seq<Event>): set<string> {
    set i | 0 <= i < |events| && events[i].AsksPing? :: events[i].stamp
  }

  /** Every timestamp in the table is that of a ping in the run. */
  predicate StampsFrom(t: Pings.PingTable, stamps: set<string>) {
    forall k :: 0 <= k < |t.issued| ==> t.issued[k].stamp in stamps
  }

  lemma OwnTimesSnoc(events: seq<Event>, e: Event)
    requires OwnTimes(events + [e])
    ensures OwnTimes(events) && (e.AsksPing? ==> e.stamp !in Stamps(events))
    ensures Stamps(events + [e]) == Stamps(events) + if e.AsksPing? then {e.stamp} else {}
  {
    var all := events + [e];
    assert all[|events|] == e;
    assert forall i :: 0 <= i < |events| ==> all[i] == events[i];
  }

  lemma StepStamps(names: Names, t: Pings.PingTable, a: Pings.Act, stamps: set<string>)
    requires Pings.Valid(t) && StampsFrom(t, stamps)
    ensures StampsFrom(Pings.Step(names, t, a), stamps + if a.Sends? then {a.stamp} else {})
  {
  }

  lemma {:induction false} RunTruthful(setting: Setting, events: seq<Event>)
    requires OwnTimes(events)
    ensures var w := Run(setting, events);
            AllBacked(w) && OwnStamps(w.host.pings) && Pings.AllTruthful(setting.names, w.host.pings)
            && StampsFrom(w.host.pings, Stamps(events))
  {
    if events != [] {
      var front, e := events[..|events| - 1], events[|events| - 1];
      assert events == front + [e];
      OwnTimesSnoc(front, e);
      RunTruthful(setting, front);
      var w := Run(setting, front);
      StepBacked(setting, w, e);
      Refinement.PingStep(setting, w, e);
      var a := Refinement.PingAct(w, e);
      assert e.AsksPing? <==> a.Some? && a.value.Sends?;
      assert e.AsksPing? ==> a.value.stamp == e.stamp;
      assert a.Some? && a.value.Pongs? ==>
          a.value.sender.Some? && ToHost(Words.Pong(a.value.sender.value, a.value.stamp)) in w.pool;
      hide Step, Refinement.PingAct, Pings.Step, Pings.Valid, OwnStamps, Pings.AllTruthful, OwnTimes, Stamps;
      if a.Some? {
        if a.value.Pongs? { assert Backed(w.host.pings, ToHost(Words.Pong(a.value.sender.value, a.value.stamp))); }
        StepTruthful(setting.names, w.host.pings, a.value);
        StepStamps(setting.names, w.host.pings, a.value, Stamps(front));
      }
    }
  }

  lemma SenderIsTarget(t: Pings.PingTable, sender: VmId, k: nat)
    requires OwnStamps(t) && k < |t.issued| && Sent(t, t.issued[k].stamp, sender)
    ensures sender == t.issued[k].to
  {
  }

  /** With distinct timestamps, a pong under way that has the timestamp of a ping comes from the machine it was sent
      to. */
  lemma PongsComeFromTarget(setting: Setting, events: seq<Event>, p: Item, k: nat)
    requires OwnTimes(events) && k < |Run(setting, events).host.pings.issued|
    requires p in Run(setting, events).pool && p.ToHost? && p.m.Pong?
    requires p.m.timestamp == Run(setting, events).host.pings.issued[k].stamp
    ensures p.m.sender == Run(setting, events).host.pings.issued[k].to
  {
    RunTruthful(setting, events);
    var w := Run(setting, events);
    hide Run, Sent, OwnStamps, Pings.AllTruthful, StampsFrom, OwnTimes;
    assert Backed(w.host.pings, p);
    SenderIsTarget(w.host.pings, p.m.sender, k);
  }

  /** Only a pong under the ping's timestamp makes a waiting ping answered. */
  lemma AnswerNeedsPong(names: Names, t: Pings.PingTable, a: Pings.Act, k: nat)
    requires Pings.Valid(t) && k < |t.issued| && t.issued[k].outcome == Pings.Waiting
    requires Pings.Step(names, t, a).issued[k].outcome.Answered?
    ensures a.Pongs? && a.stamp == t.issued[k].stamp
  {
  }

  /** With distinct timestamps, the step in which a ping gets its answer is the delivery of a pong from the machine it
      was sent to. */
  lemma AnsweredByTarget(setting: Setting, events: seq<Event>, e: Event, k: nat)
    requires OwnTimes(events + [e]) && k < |Run(setting, events).host.pings.issued|
    requires Run(setting, events).host.pings.issued[k].outcome == Pings.Waiting
    requires k < |Run(setting, events + [e]).host.pings.issued|
    requires Run(setting, events + [e]).host.pings.issued[k].outcome.Answered?
    ensures var w := Run(setting, events);
            var p := w.host.pings.issued[k];
            e.Delivers? && e.k < |w.pool| && w.pool[e.k] == ToHost(Words.Pong(p.to, p.stamp))
  {
    OwnTimesSnoc(events, e);
    assert (events + [e])[..|events|] == events;
    var w := Run(setting, events);
    var a := Refinement.PingAct(w, e);
    Refinement.PingStep(setting, w, e);
    assert Run(setting, events + [e]) == Step(setting, w, e);
    assert a.Some?;
    AnswerNeedsPong(setting.names, w.host.pings, a.value, k);
    assert e.Delivers? && e.k < |w.pool| && w.pool[e.k] == ToHost(Words.Pong(a.value.sender.value, a.value.stamp));
    PongsComeFromTarget(setting, events, w.pool[e.k], k);
  }

  /** In the whole system, every outcome names the machine that was pinged if and only if every act on the pings was
      honest. */
  lemma TruthfulInRuns(setting: Setting, events: seq<Event>)
    ensures Pings.AllTruthful(setting.names, Run(setting, events).host.pings)
            <==> Pings.AllHonest(setting.names, Refinement.PingTrace(setting, events))
  {
    Refinement.RunsRefine(setting, events);
    hide Run, Refinement.CmdTrace, Refinement.PingTrace, Refinement.RosterTrace, Pings.AllTruthful, Pings.AllHonest;
    Pings.TruthfulIffHonest(setting.names, Refinement.PingTrace(setting, events));
  }

  /** With distinct timestamps the outcome of a ping gives the name of the machine it was sent to. */
  lemma OutcomeNamesTarget(setting: Setting, events: seq<Event>, k: nat)
    requires OwnTimes(events) && k < |Run(setting, events).host.pings.issued|
    ensures var p := Run(setting, events).host.pings.issued[k];
            p.outcome != Pings.Waiting ==> NameOf(setting.names, p.to) == Some(p.outcome.name)
  {
    RunTruthful(setting, events);
    assert Pings.Truthful(setting.names, Run(setting, events).host.pings.issued[k]);
  }

  // ---- Pings can be answered ----

  lemma RunMore(setting: Setting, events: seq<Event>, e: Event)
    ensures Run(setting, events + [e]) == Step(setting, Run(setting, events), e)
  {
    assert (events + [e])[..|events|] == events;
  }

  const NOTHING: Result<seq<string>, string> := Ok([])

  /** A pong of the pinged machine, when it is delivered, answers the ping that is filed. */
  lemma PongAnswers(setting: Setting, w: World, k: nat, j: nat)
    requires Pings.Valid(w.host.pings) && k < |w.host.pings.issued| && Pings.Filed(w.host.pings, k)
    requires var p := w.host.pings.issued[k];
             j < |w.pool| && w.pool[j] == ToHost(Words.Pong(p.to, p.stamp)) && Known(setting.names, p.to)
    ensures var p := w.host.pings.issued[k];
            var u := Step(setting, w, Delivers(j, 0.0, NOTHING, ""));
            u.host.pings.issued == w.host.pings.issued[k := p.(outcome := Pings.Answered(setting.names[p.to]))]
  {
    var p := w.host.pings.issued[k];
    HostListens(setting, w, j, Words.Pong(p.to, p.stamp), 0.0, NOTHING, "");
    hide Step, Without;
  }

  lemma FromHeardPing(setting: Setting, events: seq<Event>, k: nat, j: nat) returns (more: seq<Event>)
    requires var t := Run(setting, events).host.pings;
             k < |t.issued| && Pings.Filed(t, k) && Known(setting.names, t.issued[k].to)
    requires var w := Run(setting, events);
             var p := w.host.pings.issued[k];
             p.to in w.up && j < |w.pool| && w.pool[j] == ToVM(p.to, Words.Ping(p.to, p.stamp))
    ensures |more| <= 2 && k < |Run(setting, events + more).host.pings.issued|
    ensures var p := Run(setting, events).host.pings.issued[k];
            Run(setting, events + more).host.pings.issued[k] == p.(outcome := Pings.Answered(setting.names[p.to]))
  {
    hide Run, Step, Pings.Valid, Pings.Filed;
    var w := Run(setting, events);
    var p := w.host.pings.issued[k];
    var hears := Delivers(j, 0.0, NOTHING, "");
    PingIsAnswered(setting, w, j, p.to, p.to, p.stamp, 0.0, NOTHING, "");
    RunMore(setting, events, hears);
    var u := Run(setting, events + [hears]);
    assert u.host == w.host && u.pool[|u.pool| - 1] == ToHost(Words.Pong(p.to, p.stamp));
    var answers := Delivers(|u.pool| - 1, 0.0, NOTHING, "");
    PongAnswers(setting, u, k, |u.pool| - 1);
    RunMore(setting, events + [hears], answers);
    more := [hears, answers];
    assert events + more == events + [hears] + [answers];
  }

  /** From every reachable state a filed ping to a known machine, whose copy is under way, can be answered by that
      machine in at most three steps: it subscribes again if it has to, hears the ping, and its pong is delivered. */
  lemma CanBeAnswered(setting: Setting, events: seq<Event>, k: nat, j: nat) returns (more: seq<Event>)
    requires var t := Run(setting, events).host.pings;
             k < |t.issued| && Pings.Filed(t, k) && Known(setting.names, t.issued[k].to)
    requires var w := Run(setting, events);
             var p := w.host.pings.issued[k];
             j < |w.pool| && w.pool[j] == ToVM(p.to, Words.Ping(p.to, p.stamp))
    ensures |more| <= 3 && k < |Run(setting, events + more).host.pings.issued|
    ensures var p := Run(setting, events).host.pings.issued[k];
            Run(setting, events + more).host.pings.issued[k] == p.(outcome := Pings.Answered(setting.names[p.to]))
  {
    hide Run, Step, Pings.Valid, Pings.Filed;
    var w := Run(setting, events);
    var p := w.host.pings.issued[k];
    if p.to in w.up {
      more := FromHeardPing(setting, events, k, j);
    } else {
      var back := Connects(p.to, "");
      MachinesSpeak(setting, w, p.to, "");
      RunMore(setting, events, back);
      var rest := FromHeardPing(setting, events + [back], k, j);
      more := [back] + rest;
      assert events + more == events + [back] + rest;
    }
  }

  /** From every reachable state, whatever happened before, a ping to a known machine that is listening can be sent and
      answered: three steps, of which the first sends it. */
  lemma NewPingCanBeAnswered(setting: Setting, events: seq<Event>, to: VmId, stamp: string) returns (more: seq<Event>)
    requires Known(setting.names, to) && to in Run(setting, events).up
    ensures |more| <= 3 && more != [] && more[0] == AsksPing(to, stamp)
    ensures var k := |Run(setting, events).host.pings.issued|;
            k < |Run(setting, events + more).host.pings.issued|
            && Run(setting, events + more).host.pings.issued[k]
               == Pings.Ping(stamp, to, Pings.Answered(setting.names[to]))
  {
    hide Run, Pings.Valid;
    var w, asks := Run(setting, events), AsksPing(to, stamp);
    var k := |w.host.pings.issued|;
    HostBroadcasts(setting, w, to, stamp);
    RunMore(setting, events, asks);
    var u := Run(setting, events + [asks]);
    assert u.up == w.up && u.host.pings == Pings.Send(w.host.pings, stamp, to);
    hide Step;
    var i :| 0 <= i < |w.up| && w.up[i] == to;
    assert u.pool[|w.pool| + i] == ToVM(to, Words.Ping(to, stamp));
    var rest := FromHeardPing(setting, events + [asks], k, |w.pool| + i);
    more := [asks] + rest;
    assert events + more == events + [asks] + rest;
  }
}
