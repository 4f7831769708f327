// What can still become of a command: from every reachable state, exactly which commands can be brought to an end.
module Prospects {
  import opened Wrappers
  import opened Common
  import opened Network
  import opened Protocol
  import Commands
  import Executer
  import HostEngine
  import Losses
  import Pings
  import Progress
  import Refinement
  import VmEngine
  import Words

  function ParamsOf(r: Commands.Request): Executer.Params {
    Executer.Params(r.cmd, r.args, r.env, r.path, r.fileForStdin)
  }

  /** A machine that gets the request can come to a result: the headers evaluate, or there is a file that may turn out
      not to open. */
  predicate Serviceable(eval: Executer.Evaluator, r: Commands.Request) {
    r.fileForStdin != "" || Executer.Evaluable(eval, ParamsOf(r))
  }

  /** Results without any text can be written down. */
  predicate BareWritable(codec: Words.Codec, id: CmdId) {
    Executer.Writable(codec, id, "", "", true, 0, "") && Executer.Writable(codec, id, "", "", false, -1, "")
  }

  // ---- One step towards the end ----

  lemma FreshMore(events: seq<Event>, e: Event)
    requires FreshIds(events) && !e.Requests?
    ensures FreshIds(events + [e])
  {
    var all := events + [e];
    assert forall i :: 0 <= i < |events| ==> all[i] == events[i];
  }

  lemma RunMore(setting: Setting, events: seq<Event>, e: Event)
    ensures Run(setting, events + [e]) == Step(setting, Run(setting, events), e)
  {
    assert (events + [e])[..|events|] == events;
  }

  const NOTHING: Result<seq<string>, string> := Ok([])

  /** Delivering a result retires its command. */
  lemma DeliverResult(setting: Setting, w: World, k: nat, id: CmdId, r: Commands.Results)
    requires Pings.Valid(w.host.pings) && Inv(setting.eval, w)
    requires k < |w.pool| && w.pool[k] == ToHost(Words.CmdResult(id, r))
    ensures id in Step(setting, w, Delivers(k, 0.0, NOTHING, "")).host.cmds.retired
  {
    hide Inv, Pings.Valid, Without;
    TakeOut(setting.eval, w, k);
    AcceptInv(setting.eval, w.(pool := Without(w.pool, k)), id, r);
  }

  /** A process that ends well puts a result under way. */
  lemma EndProcess(setting: Setting, w: World, k: nat, id: CmdId)
    requires Pings.Valid(w.host.pings) && Inv(setting.eval, w) && BareWritable(setting.codec, id)
    requires k < |w.pool| && w.pool[k].Process? && w.pool[k].id == id
    ensures var u := Step(setting, w, Ends(k, [], Executer.ProcessDone, ""));
            u.pool == Without(w.pool, k) + [ToHost(Words.CmdResult(id, Commands.Results("", "", true, 0, "")))]
  {
    assert Fits(setting.eval, w, w.pool[k]);
    hide Inv, Pings.Valid, Without;
    assert Executer.OutOf([]) == "" && Executer.ErrOf([]) == "";
  }

  /** A machine that is listening gets its request: a file that does not open puts a result under way, and otherwise
      headers that evaluate start a process. */
  lemma DeliverRequest(setting: Setting, w: World, k: nat, id: CmdId, r: Commands.Request)
    requires Pings.Valid(w.host.pings) && BareWritable(setting.codec, id) && Serviceable(setting.eval, r)
    requires k < |w.pool| && w.pool[k] == ToVM(r.to, RunOf(id, r)) && r.to in w.up
    ensures var file := if r.fileForStdin != "" then Err("") else NOTHING;
            var u := Step(setting, w, Delivers(k, 0.0, file, ""));
            if r.fileForStdin != "" then
              u.pool == Without(w.pool, k) + [ToHost(Words.CmdResult(id, Commands.Results("", "", false, -1, "")))]
            else
              |u.pool| == |w.pool| && u.pool[|w.pool| - 1].Process? && u.pool[|w.pool| - 1].id == id
  {
    hide Pings.Valid;
  }

  // ---- The whole way ----

  lemma FromReported(setting: Setting, events: seq<Event>, k: nat, id: CmdId) returns (more: seq<Event>)
    requires FreshIds(events) && k < |Run(setting, events).pool|
    requires Carries(Run(setting, events).pool[k], Reported, id)
    ensures |more| <= 1 && FreshIds(events + more) && id in Run(setting, events + more).host.cmds.retired
  {
    var w, e := Run(setting, events), Delivers(k, 0.0, NOTHING, "");
    more := [e];
    RunInv(setting, events);
    FreshMore(events, e);
    RunMore(setting, events, e);
    hide Run, Step, Inv, FreshIds, Pings.Valid;
    DeliverResult(setting, w, k, id, w.pool[k].m.results);
  }

  lemma FromRunning(setting: Setting, events: seq<Event>, k: nat, id: CmdId) returns (more: seq<Event>)
    requires FreshIds(events) && k < |Run(setting, events).pool| && BareWritable(setting.codec, id)
    requires Carries(Run(setting, events).pool[k], Running, id)
    ensures |more| <= 2 && FreshIds(events + more) && id in Run(setting, events + more).host.cmds.retired
  {
    var w, e := Run(setting, events), Ends(k, [], Executer.ProcessDone, "");
    RunInv(setting, events);
    FreshMore(events, e);
    RunMore(setting, events, e);
    hide Run, Step, Inv, FreshIds, Pings.Valid, BareWritable;
    EndProcess(setting, w, k, id);
    var rest := FromReported(setting, events + [e], |w.pool| - 1, id);
    more := [e] + rest;
    assert events + more == events + [e] + rest;
  }

  lemma AskedFits(eval: Executer.Evaluator, w: World, p: Item, id: CmdId)
    requires Inv(eval, w) && p in w.pool && Carries(p, Asked, id)
    ensures id in w.host.cmds.sent && p == ToVM(w.host.cmds.sent[id].to, RunOf(id, w.host.cmds.sent[id]))
  {
    assert Fits(eval, w, p);
  }

  lemma ConnectOnly(setting: Setting, w: World, vm: VmId)
    requires Pings.Valid(w.host.pings)
    ensures var u := Step(setting, w, Connects(vm, ""));
            vm in u.up && u.host.cmds == w.host.cmds && u.pool == w.pool + [ToHost(Words.Hello(vm, ""))]
  {
    hide Pings.Valid;
  }

  lemma FromListening(setting: Setting, events: seq<Event>, k: nat, id: CmdId) returns (more: seq<Event>)
    requires FreshIds(events) && k < |Run(setting, events).pool| && BareWritable(setting.codec, id)
    requires Carries(Run(setting, events).pool[k], Asked, id)
    requires var w := Run(setting, events);
             w.pool[k].vm in w.up && (id in w.host.cmds.sent ==> Serviceable(setting.eval, w.host.cmds.sent[id]))
    ensures |more| <= 3 && FreshIds(events + more) && id in Run(setting, events + more).host.cmds.retired
  {
    hide Run, Step, Inv, FreshIds, IssuedIds, Issued, Pings.Valid, BareWritable, Serviceable, RunOf, Carries;
    var w := Run(setting, events);
    RunInv(setting, events);
    AskedFits(setting.eval, w, w.pool[k], id);
    var r := w.host.cmds.sent[id];
    var e := Delivers(k, 0.0, if r.fileForStdin != "" then Err("") else NOTHING, "");
    FreshMore(events, e);
    RunMore(setting, events, e);
    DeliverRequest(setting, w, k, id, r);
    var last := |w.pool| - 1;
    var u := Run(setting, events + [e]);
    var rest;
    if r.fileForStdin != "" {
      assert u.pool[last] == ToHost(Words.CmdResult(id, Commands.Results("", "", false, -1, "")));
      ItemCarries(u.pool[last], id);
      rest := FromReported(setting, events + [e], last, id);
    } else {
      ItemCarries(u.pool[last], id);
      rest := FromRunning(setting, events + [e], last, id);
    }
    more := [e] + rest;
    assert events + more == events + [e] + rest;
  }

  lemma ItemCarries(p: Item, id: CmdId)
    ensures p.Process? && p.id == id ==> Carries(p, Running, id)
    ensures p.ToHost? && p.m.CmdResult? && p.m.cmdId == id ==> Carries(p, Reported, id)
  {
  }

  lemma FromAsked(setting: Setting, events: seq<Event>, k: nat, id: CmdId) returns (more: seq<Event>)
    requires FreshIds(events) && k < |Run(setting, events).pool| && BareWritable(setting.codec, id)
    requires Carries(Run(setting, events).pool[k], Asked, id)
    requires var sent := Run(setting, events).host.cmds.sent;
             id in sent ==> Serviceable(setting.eval, sent[id])
    ensures |more| <= 4 && FreshIds(events + more) && id in Run(setting, events + more).host.cmds.retired
  {
    hide Run, Step, Inv, FreshIds, IssuedIds, Issued, Pings.Valid, BareWritable, Serviceable, RunOf, Carries;
    var w := Run(setting, events);
    RunInv(setting, events);
    AskedFits(setting.eval, w, w.pool[k], id);
    var vm := w.pool[k].vm;
    if vm in w.up {
      more := FromListening(setting, events, k, id);
    } else {
      var e := Connects(vm, "");
      FreshMore(events, e);
      RunMore(setting, events, e);
      ConnectOnly(setting, w, vm);
      var rest := FromListening(setting, events + [e], k, id);
      more := [e] + rest;
      assert events + more == events + [e] + rest;
    }
  }

  /** From every reachable state, at most four further steps retire a given command that is not lost and whose request
      is serviceable: its machine subscribes again if it has to, gets the request, ends its process, and its result is
      delivered. */
  lemma CanBeRetired(setting: Setting, events: seq<Event>, id: CmdId) returns (more: seq<Event>)
    requires FreshIds(events) && Issued(Run(setting, events), id) && id !in Run(setting, events).lost
    requires BareWritable(setting.codec, id)
    requires var sent := Run(setting, events).host.cmds.sent;
             id in sent ==> Serviceable(setting.eval, sent[id])
    ensures |more| <= 4 && FreshIds(events + more) && id in Run(setting, events + more).host.cmds.retired
  {
    var w := Run(setting, events);
    RunInv(setting, events);
    hide Run, Inv, FreshIds, BareWritable, Serviceable, Count, Carries, Issued;
    if id !in w.host.cmds.retired {
      PlacedHere(setting.eval, w, id);
    }
    if id in w.host.cmds.retired {
      more := [];
      assert events + more == events;
    } else if Count(w.pool, Reported, id) >= 1 {
      var p := CountWitness(w.pool, Reported, id);
      var k :| 0 <= k < |w.pool| && w.pool[k] == p;
      more := FromReported(setting, events, k, id);
    } else if Count(w.pool, Running, id) >= 1 {
      var p := CountWitness(w.pool, Running, id);
      var k :| 0 <= k < |w.pool| && w.pool[k] == p;
      more := FromRunning(setting, events, k, id);
    } else {
      var p := CountWitness(w.pool, Asked, id);
      var k :| 0 <= k < |w.pool| && w.pool[k] == p;
      more := FromAsked(setting, events, k, id);
    }
  }

  lemma PlacedHere(eval: Executer.Evaluator, w: World, id: CmdId)
    requires Inv(eval, w) && Issued(w, id) && id !in w.lost && id !in w.host.cmds.retired
    ensures Count(w.pool, Asked, id) >= 1 || Count(w.pool, Running, id) >= 1 || Count(w.pool, Reported, id) >= 1
  {
    hide Count;
    assert Placed(w, id);
  }

  // ---- And no others ----

  /** What has been published for a command was for a serviceable request, and what is retired has been published. */
  predicate WasServed(eval: Executer.Evaluator, w: World, id: CmdId) {
    && (id in w.reports ==>
          var r := Commands.Details(w.host.cmds, id);
          r.Some? && Serviceable(eval, r.value))
    && (id in w.host.cmds.retired ==> id in w.reports)
  }

  lemma HeededReports(codec: Words.Codec, eval: Executer.Evaluator, w: World, vm: VmId, m: Words.Message,
                      open: Executer.Opener, resources: string, id: CmdId)
    requires Inv(eval, w.(pool := w.pool + [ToVM(vm, m)]))
    requires id in Heeded(w, vm, m, VmEngine.Hears(codec, eval, open, resources, vm, m)).reports && id !in w.reports
    ensures id in w.host.cmds.sent && Serviceable(eval, w.host.cmds.sent[id])
  {
    var v, p := w.(pool := w.pool + [ToVM(vm, m)]), ToVM(vm, m);
    assert Fits(eval, v, p) by { assert p in v.pool; }
    hide Inv;
  }

  lemma EndedReports(codec: Words.Codec, eval: Executer.Evaluator, w: World, p: Item, chunks: seq<Executer.Chunk>,
                     exit: Executer.Exit, resources: string, id: CmdId)
    requires p.Process? && Inv(eval, w.(pool := w.pool + [p]))
    requires id in Ended(codec, w, p, chunks, exit, resources).reports && id !in w.reports
    ensures id in w.host.cmds.sent && Serviceable(eval, w.host.cmds.sent[id])
  {
    var v := w.(pool := w.pool + [p]);
    assert Fits(eval, v, p) by { assert p in v.pool; }
    hide Inv;
  }

  /** A step of a reachable state publishes something only for a serviceable request that is outstanding. */
  lemma NewReportServed(setting: Setting, w: World, e: Event, id: CmdId)
    requires Pings.Valid(w.host.pings) && Inv(setting.eval, w)
    requires id in Step(setting, w, e).reports && id !in w.reports
    ensures id in w.host.cmds.sent && Serviceable(setting.eval, w.host.cmds.sent[id])
  {
    hide Inv, Pings.Valid, Without, Heeded, Ended, Broadcast, Others, HostEngine.Hears, Serviceable;
    if (e.Delivers? || e.Ends?) && e.k < |w.pool| {
      TakeOut(setting.eval, w, e.k);
      var rest, p := w.(pool := Without(w.pool, e.k)), w.pool[e.k];
      if e.Ends? && p.Process? {
        EndedReports(setting.codec, setting.eval, rest, p, e.chunks, e.exit, e.resources, id);
      } else if e.Delivers? && p.ToVM? && p.vm in w.up {
        HeededReports(setting.codec, setting.eval, rest, p.vm, p.m, (name: string) => e.file, e.resources, id);
      }
    }
  }

  lemma RetiredWasIssued(setting: Setting, w: World, e: Event, id: CmdId)
    requires Pings.Valid(w.host.pings) && id in Step(setting, w, e).host.cmds.retired
    ensures Issued(w, id)
  {
    Refinement.CmdStep(setting, w, e);
    hide Step, Pings.Valid, Refinement.CmdAct;
  }

  lemma DetailsStay(setting: Setting, w: World, e: Event, id: CmdId)
    requires Pings.Valid(w.host.pings) && Inv(setting.eval, w) && Issued(w, id) && (e.Requests? ==> !Issued(w, e.id))
    ensures Commands.Details(Step(setting, w, e).host.cmds, id) == Commands.Details(w.host.cmds, id)
  {
    var a := Refinement.CmdAct(w, e);
    Refinement.CmdStep(setting, w, e);
    assert a.Some? && a.value.Sends? ==> e.Requests? && a.value.id == e.id;
    hide Step, Pings.Valid, Refinement.CmdAct, Placed, AllFit;
    if a.Some? {
      Commands.StepOrderly(Refinement.DeskOf(w), a.value);
    }
  }

  lemma StepServed(setting: Setting, w: World, e: Event, id: CmdId)
    requires Pings.Valid(w.host.pings) && Inv(setting.eval, w) && (e.Requests? ==> !Issued(w, e.id))
    requires WasServed(setting.eval, w, id)
    ensures WasServed(setting.eval, Step(setting, w, e), id)
  {
    hide Inv, Pings.Valid, Step, Serviceable, Count;
    var u := Step(setting, w, e);
    if id in u.host.cmds.retired { RetiredWasIssued(setting, w, e, id); }
    if id in u.reports && id !in w.reports { NewReportServed(setting, w, e, id); }
    if Issued(w, id) {
      DetailsStay(setting, w, e, id);
      Progress.StepOnward(setting, w, e, id);
      Progress.Facts(setting.eval, w, id);
    }
  }

  lemma {:induction false} RunServed(setting: Setting, events: seq<Event>, id: CmdId)
    requires FreshIds(events)
    ensures WasServed(setting.eval, Run(setting, events), id)
  {
    if events != [] {
      var front, e := events[..|events| - 1], events[|events| - 1];
      assert events == front + [e];
      FreshSnoc(front, e);
      RunServed(setting, front, id);
      RunInv(setting, front);
      RunMore(setting, front, e);
      hide Run, Step, Inv, FreshIds, IssuedIds, WasServed, Pings.Valid;
      StepServed(setting, Run(setting, front), e, id);
    }
  }

  /** A lost command stays lost, and is never retired. */
  lemma {:induction false} LostForGood(setting: Setting, events: seq<Event>, more: seq<Event>, id: CmdId)
    requires FreshIds(events + more) && id in Run(setting, events).lost
    ensures id in Run(setting, events + more).lost && id !in Run(setting, events + more).host.cmds.retired
    decreases |more|
  {
    if more == [] {
      assert events + more == events;
    } else {
      var front, e := more[..|more| - 1], more[|more| - 1];
      var some := events + front;
      assert events + more == some + [e];
      FreshSnoc(some, e);
      LostForGood(setting, events, front, id);
      RunInv(setting, some);
      RunMore(setting, some, e);
      hide Run, Step, Inv, FreshIds, IssuedIds, Pings.Valid;
      Losses.LossIff(setting, Run(setting, some), e);
    }
    RunInv(setting, events + more);
    LostIsNotRetired(setting.eval, Run(setting, events + more), id);
  }

  lemma LostIsNotRetired(eval: Executer.Evaluator, w: World, id: CmdId)
    requires Inv(eval, w) && id in w.lost
    ensures id !in w.host.cmds.retired
  {
    hide Count;
    assert Placed(w, id);
  }

  /** Some continuation of the run retires the command. */
  ghost predicate Retirable(setting: Setting, events: seq<Event>, id: CmdId) {
    exists more: seq<Event> :: FreshIds(events + more) && id in Run(setting, events + more).host.cmds.retired
  }

  /** In every reachable state, exactly those issued commands can still be retired that are not lost and whose
      requests are serviceable. */
  lemma RetirableIff(setting: Setting, events: seq<Event>, id: CmdId)
    requires FreshIds(events) && Issued(Run(setting, events), id) && BareWritable(setting.codec, id)
    ensures Commands.Details(Run(setting, events).host.cmds, id).Some?
    ensures Retirable(setting, events, id) <==>
              id !in Run(setting, events).lost
              && Serviceable(setting.eval, Commands.Details(Run(setting, events).host.cmds, id).value)
  {
    hide Run, FreshIds, Serviceable, BareWritable, WasServed;
    if Retirable(setting, events, id) {
      var more :| FreshIds(events + more) && id in Run(setting, events + more).host.cmds.retired;
      if id in Run(setting, events).lost { LostForGood(setting, events, more, id); }
      RetiredWasServiceable(setting, events, more, id);
    } else if id !in Run(setting, events).lost
              && Serviceable(setting.eval, Commands.Details(Run(setting, events).host.cmds, id).value) {
      var more := CanBeRetired(setting, events, id);
    }
  }

  lemma RetiredWasServiceable(setting: Setting, events: seq<Event>, more: seq<Event>, id: CmdId)
    requires FreshIds(events + more) && Issued(Run(setting, events), id)
    requires id in Run(setting, events + more).host.cmds.retired
    ensures var r := Commands.Details(Run(setting, events).host.cmds, id);
            r.Some? && Serviceable(setting.eval, r.value)
  {
    hide Run, FreshIds, Serviceable;
    RunServed(setting, events + more, id);
    Refinement.DetailsInRuns(setting, events, more, id);
  }
}
