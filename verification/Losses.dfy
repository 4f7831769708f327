// When commands are lost: exactly in the steps that somebody could have told would lose one.
module Losses {
  import opened Wrappers
  import opened Common
  import opened Network
  import opened Protocol
  import Commands
  import Executer
  import HostEngine
  import Pings
  import Registry
  import VmEngine
  import Words

  /** The machine is listening, and the file cannot be opened, which can be written down, or the headers evaluate. */
  predicate Served(setting: Setting, w: World, vm: VmId, m: Words.Message, file: Result<seq<string>, string>,
                   resources: string)
    requires m.CmdRun?
  {
    && vm in w.up
    && if m.fileForStdin != "" && file.Err? then
         Executer.Writable(setting.codec, m.cmdId, "", file.error, false, -1, resources)
       else Executer.Evaluable(setting.eval, Executer.Params(m.cmd, m.args, m.env, m.path, m.fileForStdin))
  }

  /** The process ends other than by a signal, and what it printed can be written down. */
  predicate EndsWell(setting: Setting, id: CmdId, chunks: seq<Executer.Chunk>, exit: Executer.Exit, resources: string) {
    match exit
    case ProcessError(None) => false
    case ProcessError(Some(code)) =>
      Executer.Writable(setting.codec, id, Executer.OutOf(chunks), Executer.ErrOf(chunks), false, code, resources)
    case ProcessDone =>
      Executer.Writable(setting.codec, id, Executer.OutOf(chunks), Executer.ErrOf(chunks), true, 0, resources)
  }

  /** What can be told before the step: a request's target is listening, no copy for its target and no result and no
      process is dropped, a request is served, and a process ends well. */
  predicate Kind(setting: Setting, w: World, e: Event) {
    match e
    case Requests(to, _, _, _, _, _, _, _) => to in w.host.roster ==> to in w.up
    case Drops(k) => k < |w.pool| ==> CommandOf(w.pool[k]) == None
    case Delivers(k, _, file, resources) =>
      k < |w.pool| && w.pool[k].ToVM? && CommandOf(w.pool[k]).Some?
      ==> Served(setting, w, w.pool[k].vm, w.pool[k].m, file, resources)
    case Ends(k, chunks, exit, resources) =>
      k < |w.pool| && w.pool[k].Process? ==> EndsWell(setting, w.pool[k].id, chunks, exit, resources)
    case _ => true
  }

  lemma CarriedNotLost(eval: Executer.Evaluator, w: World, p: Item, id: CmdId)
    requires Inv(eval, w) && p in w.pool && CommandOf(p) == Some(id)
    ensures id !in w.lost
    ensures p.Process? ==> p.launch.Spawned?
  {
    CountMember(w.pool, p, StageOf(p), id);
    hide Count;
    assert Placed(w, id) && Fits(eval, w, p);
  }

  /** The steps that take nothing out of the pool. */
  lemma OtherLossIff(setting: Setting, w: World, e: Event)
    requires Pings.Valid(w.host.pings)
    requires (e.Requests? ==> e.id !in w.lost) && !e.Delivers? && !e.Drops? && !e.Ends?
    ensures Step(setting, w, e).lost == w.lost <==> Kind(setting, w, e)
    ensures w.lost <= Step(setting, w, e).lost
  {
    hide Pings.Valid, Broadcast, Others, Pings.Send, Pings.Step, Registry.Collect, Commands.Pop, Commands.Issue;
  }

  lemma HeededLossIff(setting: Setting, w: World, vm: VmId, m: Words.Message, file: Result<seq<string>, string>,
                      resources: string)
    requires var id := CommandOf(ToVM(vm, m)); id.Some? ==> id.value !in w.lost
    requires vm in w.up
    ensures var heed := VmEngine.Hears(setting.codec, setting.eval, (name: string) => file, resources, vm, m);
            var u := Heeded(w, vm, m, heed);
            && w.lost <= u.lost
            && (u.lost == w.lost <==> CommandOf(ToVM(vm, m)).Some? ==> Served(setting, w, vm, m, file, resources))
  {
  }

  /** The steps that take an item out of the pool. */
  lemma PoolLossIff(setting: Setting, w: World, e: Event)
    requires Pings.Valid(w.host.pings) && (e.Delivers? || e.Drops? || e.Ends?)
    requires e.k < |w.pool| && CommandOf(w.pool[e.k]).Some? ==> CommandOf(w.pool[e.k]).value !in w.lost
    requires e.k < |w.pool| && w.pool[e.k].Process? ==> w.pool[e.k].launch.Spawned?
    ensures Step(setting, w, e).lost == w.lost <==> Kind(setting, w, e)
    ensures w.lost <= Step(setting, w, e).lost
  {
    hide Pings.Valid, Without, Heeded, Served, HostEngine.Hears, VmEngine.Hears;
    if e.Delivers? && e.k < |w.pool| && w.pool[e.k].ToVM? && w.pool[e.k].vm in w.up {
      var rest, p := w.(pool := Without(w.pool, e.k)), w.pool[e.k];
      HeededLossIff(setting, rest, p.vm, p.m, e.file, e.resources);
    }
    ServedListens(setting, w, e);
  }

  /** Being served takes a machine that listens, and does not depend on the pool. */
  lemma ServedListens(setting: Setting, w: World, e: Event)
    ensures e.Delivers? && e.k < |w.pool| && w.pool[e.k].ToVM? && w.pool[e.k].m.CmdRun? ==>
              var p := w.pool[e.k];
              var rest := w.(pool := Without(w.pool, e.k));
              && Served(setting, rest, p.vm, p.m, e.file, e.resources)
                 == Served(setting, w, p.vm, p.m, e.file, e.resources)
              && (Served(setting, w, p.vm, p.m, e.file, e.resources) ==> p.vm in w.up)
  {
  }

  /** A step of a reachable state loses a command if and only if it was not kind. */
  lemma LossIff(setting: Setting, w: World, e: Event)
    requires Pings.Valid(w.host.pings) && Inv(setting.eval, w) && (e.Requests? ==> !Issued(w, e.id))
    ensures Step(setting, w, e).lost == w.lost <==> Kind(setting, w, e)
    ensures w.lost <= Step(setting, w, e).lost
  {
    hide Inv, Step, Kind, Pings.Valid, Issued;
    if e.Delivers? || e.Drops? || e.Ends? {
      if e.k < |w.pool| && CommandOf(w.pool[e.k]).Some? {
        CarriedNotLost(setting.eval, w, w.pool[e.k], CommandOf(w.pool[e.k]).value);
      }
      PoolLossIff(setting, w, e);
    } else {
      if e.Requests? { UnissuedNotLost(setting.eval, w, e.id); }
      OtherLossIff(setting, w, e);
    }
  }

  lemma UnissuedNotLost(eval: Executer.Evaluator, w: World, id: CmdId)
    requires Inv(eval, w) && !Issued(w, id)
    ensures id !in w.lost
  {
    hide Count;
    assert Placed(w, id);
  }

  predicate AllKind(setting: Setting, events: seq<Event>) {
    forall i :: 0 <= i < |events| ==> Kind(setting, Run(setting, events[..i]), events[i])
  }

  lemma KindSnoc(setting: Setting, events: seq<Event>, e: Event)
    ensures AllKind(setting, events + [e]) <==> AllKind(setting, events) && Kind(setting, Run(setting, events), e)
  {
    var all := events + [e];
    assert all[..|events|] == events && all[|events|] == e;
    assert forall i :: 0 <= i < |events| ==> all[..i] == events[..i] && all[i] == events[i];
  }

  /** Over any run: no command is lost if and only if every step was kind. */
  lemma {:induction false} NothingLostIff(setting: Setting, events: seq<Event>)
    requires FreshIds(events)
    ensures Run(setting, events).lost == {} <==> AllKind(setting, events)
  {
    if events != [] {
      var front, e := events[..|events| - 1], events[|events| - 1];
      assert events == front + [e];
      FreshSnoc(front, e);
      RunInv(setting, front);
      NothingLostIff(setting, front);
      KindSnoc(setting, front, e);
      assert Run(setting, events) == Step(setting, Run(setting, front), e);
      hide Run, Step, Inv, AllKind, Kind, FreshIds, IssuedIds, Pings.Valid;
      LossIff(setting, Run(setting, front), e);
    }
  }

  /** In a kind run in which nothing is under way any more, every issued command has been retired. */
  lemma KindRunsFinish(setting: Setting, events: seq<Event>, id: CmdId)
    requires FreshIds(events) && AllKind(setting, events)
    requires Run(setting, events).pool == [] && Issued(Run(setting, events), id)
    ensures id in Run(setting, events).host.cmds.retired
  {
    NothingLostIff(setting, events);
    NothingLeftOver(setting, events, id);
  }
}
