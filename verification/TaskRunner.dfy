// The wrapper's loop over its tasks, restarted from its checkpoint file after every end, clean or not.
module TaskRunner {
  import opened Wrappers
  import opened Checkpoint

  /** What happens to a task: it starts, it ends, and what it produced has been fetched and saved. */
  datatype Event = Started(task: int) | Ended(task: int, code: int) | Saved(task: int)

  /** How one rewriting of the checkpoint file goes. */
  datatype WriteFate = Completed | KilledAfter(chars: nat) | CannotOpen

  datatype Save = Save(cpu: CpuText, fate: WriteFate)

  /** What one turn of the polling loop meets. */
  datatype Observation =
    | Killed
    | Alive(quit: bool, snapshot: Option<Save>)
    | Exited(code: int, wrappedUp: bool, save: Save)

  /** The file on disk, and everything that has ever happened to the tasks. */
  datatype Box = Box(disk: Option<string>, log: seq<Event>)

  /** The file after `write_checkpoint`, and whether the run goes on after it. */
  function Write(disk: Option<string>, ntasks: int, save: Save): (Option<string>, bool) {
    var line := Line(ntasks, save.cpu);
    match save.fate
    case Completed => (Some(line), true)
    case KilledAfter(c) => (Some(line[..if c < |line| then c else |line|]), false)
    case CannotOpen => (disk, false)
  }

  /** Which of `n` tasks index `i` denotes: negative indices count from the end. */
  function TaskAt(n: nat, i: int): int {
    if i < 0 then n + i else i
  }

  /** About to start task `i`. */
  function Launch(n: nat, box: Box, i: int, script: seq<Observation>): Box
    decreases |script|, 1
  {
    if i >= n || i + n < 0 || script == [] then box
    else Attend(n, box.(log := box.log + [Started(TaskAt(n, i))]), i, script)
  }

  /** Polling task `i`. */
  function Attend(n: nat, box: Box, i: int, script: seq<Observation>): Box
    decreases |script|, 0
  {
    if script == [] then box else
      match script[0]
      case Killed => box
      case Alive(quit, snapshot) =>
        if quit then box
        else if snapshot.None? then Attend(n, box, i, script[1..])
        else
          var (disk, goesOn) := Write(box.disk, i, snapshot.value);
          if goesOn then Attend(n, box.(disk := disk), i, script[1..]) else box.(disk := disk)
      case Exited(code, wrappedUp, save) =>
        var ended := box.(log := box.log + [Ended(TaskAt(n, i), code)]);
        if code != 0 || !wrappedUp then ended
        else
          var saved := ended.(log := ended.log + [Saved(TaskAt(n, i))]);
          var (disk, goesOn) := Write(saved.disk, i + 1, save);
          if goesOn then Launch(n, saved.(disk := disk), i + 1, script[1..]) else saved.(disk := disk)
  }

  /** One run of the wrapper over a job of `n` tasks. */
  function Run(n: nat, box: Box, script: seq<Observation>, float: FloatParser): Box {
    var k := Read(box.disk, float).ntasks;
    if k >= n then box else Launch(n, box, k, script)
  }

  /** A history: any number of runs, each cut off wherever its script says. */
  function History(n: nat, scripts: seq<seq<Observation>>, float: FloatParser): Box {
    if scripts == [] then Box(None, [])
    else Run(n, History(n, scripts[..|scripts| - 1], float), scripts[|scripts| - 1], float)
  }

  /** The task has ended with exit code zero, and what it produced has been saved. */
  predicate Finished(log: seq<Event>, task: int) {
    Ended(task, 0) in log && Saved(task) in log
  }

  ghost predicate AllFinished(log: seq<Event>, k: int) {
    forall j :: 0 <= j < k ==> Finished(log, j)
  }

  /** No task was ever started before all earlier tasks had finished. */
  ghost predicate Ordered(log: seq<Event>) {
    forall q :: 0 <= q < |log| && log[q].Started? ==> 0 <= log[q].task && AllFinished(log[..q], log[q].task)
  }

  /** The file is what is left of some line whose count was earned. */
  ghost predicate Backed(n: nat, box: Box) {
    box.disk.Some? ==>
      exists k: nat, cpu: CpuText, p: nat ::
        k <= n && p <= |Line(k, cpu)| && box.disk.value == Line(k, cpu)[..p] && AllFinished(box.log, k)
  }

  ghost predicate Good(n: nat, box: Box) {
    Ordered(box.log) && Backed(n, box)
  }

  lemma LogGrows(n: nat, box: Box, e: Event)
    requires Good(n, box)
    requires e.Started? ==> 0 <= e.task && AllFinished(box.log, e.task)
    ensures Good(n, box.(log := box.log + [e]))
    ensures forall k :: AllFinished(box.log, k) ==> AllFinished(box.log + [e], k)
  {
    var log := box.log + [e];
    forall q | 0 <= q < |log| && log[q].Started?
      ensures 0 <= log[q].task && AllFinished(log[..q], log[q].task)
    {
      assert log[..q] == box.log[..q];
      assert box.log[..|box.log|] == box.log;
    }
    forall k | AllFinished(box.log, k)
      ensures AllFinished(log, k)
    {
      assert forall j :: Finished(box.log, j) ==> Finished(log, j);
    }
  }

  lemma WriteKeepsGood(n: nat, box: Box, k: nat, save: Save)
    requires Good(n, box) && k <= n && AllFinished(box.log, k)
    ensures Good(n, box.(disk := Write(box.disk, k, save).0))
  {
    var disk := Write(box.disk, k, save).0;
    var line := Line(k, save.cpu);
    if !save.fate.CannotOpen? {
      var p := if save.fate.KilledAfter? && save.fate.chars < |line| then save.fate.chars else |line|;
      assert line[..|line|] == line;
      assert disk.value == Line(k, save.cpu)[..p];
    }
  }

  lemma {:induction false} LaunchKeepsGood(n: nat, box: Box, i: nat, script: seq<Observation>)
    requires Good(n, box) && AllFinished(box.log, i)
    ensures Good(n, Launch(n, box, i, script))
    decreases |script|, 1
  {
    if i < n && script != [] {
      LogGrows(n, box, Started(i));
      AttendKeepsGood(n, box.(log := box.log + [Started(i)]), i, script);
    }
  }

  lemma {:induction false} AttendKeepsGood(n: nat, box: Box, i: nat, script: seq<Observation>)
    requires Good(n, box) && i < n && AllFinished(box.log, i)
    ensures Good(n, Attend(n, box, i, script))
    decreases |script|, 0
  {
    if script != [] {
      match script[0]
      case Killed =>
      case Alive(quit, snapshot) =>
        if !quit && snapshot.Some? {
          WriteKeepsGood(n, box, i, snapshot.value);
          var (disk, goesOn) := Write(box.disk, i, snapshot.value);
          AttendKeepsGood(n, box.(disk := disk), i, script[1..]);
        } else if !quit {
          AttendKeepsGood(n, box, i, script[1..]);
        }
      case Exited(code, wrappedUp, save) =>
        var ended := box.(log := box.log + [Ended(i, code)]);
        LogGrows(n, box, Ended(i, code));
        LogGrows(n, ended, Saved(i));
        if code == 0 && wrappedUp {
          var saved := ended.(log := ended.log + [Saved(i)]);
          assert Finished(saved.log, i);
          WriteKeepsGood(n, saved, i + 1, save);
          LaunchKeepsGood(n, saved.(disk := Write(saved.disk, i + 1, save).0), i + 1, script[1..]);
        }
    }
  }

  /** In a good box, whatever count the file shows was earned, and is in range. */
  lemma ReadIsEarned(n: nat, box: Box, float: FloatParser)
    requires Good(n, box)
    ensures var k := Read(box.disk, float).ntasks; 0 <= k <= n && AllFinished(box.log, k)
  {
    if box.disk.Some? {
      var k: nat, cpu: CpuText, p: nat :|
        k <= n && p <= |Line(k, cpu)| && box.disk.value == Line(k, cpu)[..p] && AllFinished(box.log, k);
      PrefixReads(k, cpu, p, float);
    }
  }

  /** Over any history of runs, cut off anywhere: a checkpoint that reads k means that tasks 0..k-1 have each ended with
      exit code zero and had their output saved, and no task ever starts before that holds of all earlier ones. */
  lemma {:induction false} HistoryIsSafe(n: nat, scripts: seq<seq<Observation>>, float: FloatParser)
    ensures var box := History(n, scripts, float);
            var k := Read(box.disk, float).ntasks;
            Ordered(box.log) && 0 <= k <= n && AllFinished(box.log, k)
  {
    HistoryIsGood(n, scripts, float);
    ReadIsEarned(n, History(n, scripts, float), float);
  }

  lemma {:induction false} HistoryIsGood(n: nat, scripts: seq<seq<Observation>>, float: FloatParser)
    ensures Good(n, History(n, scripts, float))
  {
    if scripts != [] {
      var before := scripts[..|scripts| - 1];
      HistoryIsGood(n, before, float);
      var box := History(n, before, float);
      ReadIsEarned(n, box, float);
      var k := Read(box.disk, float).ntasks;
      if k < n {
        LaunchKeepsGood(n, box, k, scripts[|scripts| - 1]);
      }
    }
  }

  /** A run does nothing if the checkpoint counts every task, and otherwise starts the task after those it counts. A
      count below zero, which no run writes, denotes a task from the end. */
  lemma WhereRunsStart(n: nat, box: Box, script: seq<Observation>, float: FloatParser)
    ensures var k := Read(box.disk, float).ntasks;
            && (k >= n ==> Run(n, box, script, float) == box)
            && (0 <= k < n && script != [] ==>
                  Run(n, box, script, float) == Attend(n, box.(log := box.log + [Started(k)]), k, script))
            && (k < 0 <= k + n && script != [] ==>
                  Run(n, box, script, float) == Attend(n, box.(log := box.log + [Started(n + k)]), k, script))
  {
    hide Attend, Read;
  }

  // ---- Runs that are cut short ----

  /** A run that is killed or told to quit ends there, and leaves everything as it was. */
  lemma StopsWhenTold(n: nat, box: Box, i: int, snapshot: Option<Save>, rest: seq<Observation>)
    ensures Attend(n, box, i, [Killed] + rest) == box
    ensures Attend(n, box, i, [Alive(true, snapshot)] + rest) == box
  {
  }

  /** A task that fails, or whose output cannot be fetched, ends the run there: the file stays as it was, and nothing
      but the end of the task goes on record. */
  lemma StopsOnFailure(n: nat, box: Box, i: nat, code: int, wrappedUp: bool, save: Save, rest: seq<Observation>)
    requires code != 0 || !wrappedUp
    ensures Attend(n, box, i, [Exited(code, wrappedUp, save)] + rest) == Box(box.disk, box.log + [Ended(i, code)])
  {
  }

  /** While a task is running a snapshot writes the count of the tasks before it; the run goes on with that file. */
  lemma SnapshotCounts(n: nat, box: Box, i: int, cpu: CpuText, rest: seq<Observation>)
    ensures Attend(n, box, i, [Alive(false, Some(Save(cpu, Completed)))] + rest)
            == Attend(n, Box(Some(Line(i, cpu)), box.log), i, rest)
  {
    var script := [Alive(false, Some(Save(cpu, Completed)))] + rest;
    assert script[1..] == rest;
  }

  /** A task that ends well is counted in the file before the next one starts. */
  lemma SuccessCounts(n: nat, box: Box, i: nat, cpu: CpuText, rest: seq<Observation>)
    ensures Attend(n, box, i, [Exited(0, true, Save(cpu, Completed))] + rest)
            == Launch(n, Box(Some(Line(i + 1, cpu)), box.log + [Ended(i, 0), Saved(i)]), i + 1, rest)
  {
    var script := [Exited(0, true, Save(cpu, Completed))] + rest;
    assert script[1..] == rest;
    assert box.log + [Ended(i, 0)] + [Saved(i)] == box.log + [Ended(i, 0), Saved(i)];
  }

  /** A poll that finds the task running, and writes nothing, changes nothing. */
  lemma IdlePoll(n: nat, box: Box, i: int, rest: seq<Observation>)
    ensures Attend(n, box, i, [Alive(false, None)] + rest) == Attend(n, box, i, rest)
  {
    assert ([Alive(false, None)] + rest)[1..] == rest;
  }

  /** A write that is killed, or cannot open the file, ends the run, at either place where the file is written. */
  lemma StopsOnWrite(n: nat, box: Box, i: nat, save: Save, rest: seq<Observation>)
    requires !save.fate.Completed?
    ensures Attend(n, box, i, [Alive(false, Some(save))] + rest) == box.(disk := Cut(box.disk, i, save))
    ensures Attend(n, box, i, [Exited(0, true, save)] + rest)
            == Box(Cut(box.disk, i + 1, save), box.log + [Ended(i, 0), Saved(i)])
  {
    assert Line(i, save.cpu)[..|Line(i, save.cpu)|] == Line(i, save.cpu);
    assert Line(i + 1, save.cpu)[..|Line(i + 1, save.cpu)|] == Line(i + 1, save.cpu);
    assert box.log + [Ended(i, 0)] + [Saved(i)] == box.log + [Ended(i, 0), Saved(i)];
  }

  /** What such a write leaves: the characters written so far, or what was there before. */
  function Cut(disk: Option<string>, count: int, save: Save): Option<string>
    requires !save.fate.Completed?
  {
    if save.fate.CannotOpen? then disk
    else
      var line := Line(count, save.cpu);
      Some(if save.fate.chars <= |line| then line[..save.fate.chars] else line)
  }

  // ---- Runs that are left alone ----

  /** What a run that is left alone adds to the log from task `i` on. */
  function CleanLog(n: nat, i: nat): seq<Event>
    decreases n - i
  {
    if i >= n then [] else [Started(i), Ended(i, 0), Saved(i)] + CleanLog(n, i + 1)
  }

  /** Nobody interferes, every file can be written, every task ends well. */
  predicate Undisturbed(o: Observation) {
    match o
    case Killed => false
    case Alive(quit, snapshot) => !quit && (snapshot.Some? ==> snapshot.value.fate.Completed?)
    case Exited(code, wrappedUp, save) => code == 0 && wrappedUp && save.fate.Completed?
  }

  function Exits(script: seq<Observation>): nat {
    if script == [] then 0 else Exits(script[1..]) + if script[0].Exited? then 1 else 0
  }

  /** The script of a run that is left alone until its last task has ended: any number of polls in between, with or
      without a checkpoint written, and `k` tasks that end. */
  predicate Untroubled(script: seq<Observation>, k: nat) {
    && (forall t :: 0 <= t < |script| ==> Undisturbed(script[t]))
    && script != [] && script[|script| - 1].Exited? && Exits(script) == k
  }

  function LastCpu(script: seq<Observation>): CpuText
    requires script != [] && script[|script| - 1].Exited?
  {
    script[|script| - 1].save.cpu
  }

  lemma {:induction false} SomeExits(script: seq<Observation>)
    requires script != [] && script[|script| - 1].Exited?
    ensures Exits(script) >= 1
  {
    if |script| > 1 { SomeExits(script[1..]); }
  }

  lemma UntroubledTail(script: seq<Observation>, k: nat)
    requires Untroubled(script, k)
    ensures !script[0].Exited? ==> Untroubled(script[1..], k) && LastCpu(script[1..]) == LastCpu(script)
    ensures script[0].Exited? && k > 1 ==> Untroubled(script[1..], k - 1) && LastCpu(script[1..]) == LastCpu(script)
    ensures script[0].Exited? && k == 1 ==> |script| == 1
  {
    if |script| > 1 {
      SomeExits(script[1..]);
    } else {
      assert Exits(script[1..]) == 0 && Exits(script) == 1;
    }
  }

  lemma CleanLogCons(log: seq<Event>, n: nat, i: nat)
    requires i < n
    ensures log + [Ended(i, 0)] + [Saved(i)] + CleanLog(n, i + 1)
            == log + ([Ended(i, 0), Saved(i)] + CleanLog(n, i + 1))
    ensures log + [Started(i)] + ([Ended(i, 0), Saved(i)] + CleanLog(n, i + 1)) == log + CleanLog(n, i)
    ensures i + 1 == n ==> CleanLog(n, i + 1) == []
  {
  }

  lemma {:induction false} CleanLaunch(n: nat, box: Box, i: nat, script: seq<Observation>)
    requires i < n && Untroubled(script, n - i)
    ensures Launch(n, box, i, script) == Box(Some(Line(n, LastCpu(script))), box.log + CleanLog(n, i))
    decreases |script|, 1
  {
    CleanLogCons(box.log, n, i);
    CleanAttend(n, box.(log := box.log + [Started(i)]), i, script);
  }

  lemma {:induction false} CleanAttend(n: nat, box: Box, i: nat, script: seq<Observation>)
    requires i < n && Untroubled(script, n - i)
    ensures Attend(n, box, i, script)
            == Box(Some(Line(n, LastCpu(script))), box.log + ([Ended(i, 0), Saved(i)] + CleanLog(n, i + 1)))
    decreases |script|, 0
  {
    UntroubledTail(script, n - i);
    assert Undisturbed(script[0]);
    match script[0]
    case Alive(_, snapshot) =>
      var disk := if snapshot.Some? then Write(box.disk, i, snapshot.value).0 else box.disk;
      CleanAttend(n, box.(disk := disk), i, script[1..]);
    case Exited(_, _, save) =>
      var saved := Box(Some(Line(i + 1, save.cpu)), box.log + [Ended(i, 0)] + [Saved(i)]);
      CleanLogCons(box.log, n, i);
      if i + 1 < n {
        CleanLaunch(n, saved, i + 1, script[1..]);
      }
  }

  /** A run that is left alone, however often its tasks are polled and checkpoints written in between, starts and
      finishes exactly the tasks the checkpoint does not count, each once and in order, and leaves the line that
      counts them all. */
  lemma CleanRunCompletes(n: nat, box: Box, script: seq<Observation>, float: FloatParser)
    requires var k := Read(box.disk, float).ntasks; 0 <= k < n && Untroubled(script, n - k)
    ensures Run(n, box, script, float)
            == Box(Some(Line(n, LastCpu(script))), box.log + CleanLog(n, Read(box.disk, float).ntasks))
    ensures var cpu := float(LastCpu(script));
            cpu.Some? ==> Read(Run(n, box, script, float).disk, float) == Progress(n, cpu.value)
  {
    CleanLaunch(n, box, Read(box.disk, float).ntasks, script);
    if float(LastCpu(script)).Some? {
      FullLineReads(n, LastCpu(script), float(LastCpu(script)).value, float);
    }
  }

  lemma {:induction false} CleanLogFinishes(n: nat, i: nat, j: int)
    requires i <= j < n
    ensures Finished(CleanLog(n, i), j)
    decreases n - i
  {
    if i < j { CleanLogFinishes(n, i + 1, j); }
  }

  /** Whatever happened before, one run that is left alone finishes the job: then all tasks have ended with exit code
      zero and had their output saved, in order. */
  lemma LeftAloneItFinishes(n: nat, scripts: seq<seq<Observation>>, script: seq<Observation>, float: FloatParser)
    requires var k := Read(History(n, scripts, float).disk, float).ntasks; k < n ==> Untroubled(script, n - k)
    ensures var after := History(n, scripts + [script], float);
            AllFinished(after.log, n) && Ordered(after.log)
  {
    var box := History(n, scripts, float);
    var after := History(n, scripts + [script], float);
    assert (scripts + [script])[..|scripts|] == scripts;
    HistoryIsSafe(n, scripts, float);
    HistoryIsSafe(n, scripts + [script], float);
    var k := Read(box.disk, float).ntasks;
    if k < n {
      CleanRunCompletes(n, box, script, float);
      forall j | 0 <= j < n ensures Finished(after.log, j) {
        if j < k { assert Finished(box.log, j); } else { CleanLogFinishes(n, k, j); }
      }
    }
  }

  /** The wrapper process and the disk it leaves behind. */
  class Wrapper {
    var disk: Option<string>
    ghost var log: seq<Event>

    constructor ()
      ensures disk == None && log == []
    {
      disk, log := None, [];
    }

    ghost function State(): Box
      reads this
    {
      Box(disk, log)
    }

    method WriteCheckpoint(ntasks: int, save: Save) returns (goesOn: bool)
      modifies this`disk
      ensures (disk, goesOn) == Write(old(disk), ntasks, save)
      ensures goesOn <==> save.fate.Completed?
      ensures disk == if goesOn then Some(Line(ntasks, save.cpu)) else Cut(old(disk), ntasks, save)
    {
      if save.fate.CannotOpen? {
        return false;
      }
      disk := Some("");
      var line := Line(ntasks, save.cpu);
      var i := 0;
      while i < |line| && !(save.fate.KilledAfter? && i == save.fate.chars)
        invariant 0 <= i <= |line| && disk == Some(line[..i])
        invariant save.fate.KilledAfter? ==> i <= save.fate.chars
      {
        assert line[..i + 1] == line[..i] + [line[i]];
        disk := Some(disk.value + [line[i]]);
        i := i + 1;
      }
      assert i == |line| ==> line[..i] == line;
      goesOn := save.fate.Completed?;
    }

    /** Poll task `i` until it ends, or the run does: whether it has ended, and how far the script has been read. */
    method Poll(n: nat, i: int, script: seq<Observation>, from: nat) returns (ready: bool, at: nat)
      requires from <= |script|
      modifies this`disk
      ensures ready ==> from < at <= |script| && script[at - 1].Exited?
      ensures Attend(n, old(State()), i, script[from..])
              == if ready then Attend(n, State(), i, script[at - 1..]) else State()
    {
      hide Write;
      ready, at := false, from;
      while at < |script|
        invariant from <= at <= |script|
        invariant Attend(n, old(State()), i, script[from..]) == Attend(n, State(), i, script[at..])
        decreases |script| - at
      {
        assert script[at..][1..] == script[at + 1..];
        match script[at]
        case Killed =>
          return;
        case Exited(_, _, _) =>
          ready, at := true, at + 1;
          return;
        case Alive(quit, snapshot) =>
          if quit {
            return;
          }
          if snapshot.Some? {
            var goesOn := WriteCheckpoint(i, snapshot.value);
            if !goesOn {
              return;
            }
          }
        at := at + 1;
      }
    }

    /** Read the checkpoint, then run the remaining tasks one after another, polling each until it ends. */
    method RunJob(n: nat, script: seq<Observation>, float: FloatParser)
      modifies this
      ensures State() == Run(n, old(State()), script, float)
    {
      hide Write, Read;
      var i := Read(disk, float).ntasks;
      var at := 0;
      assert script[0..] == script;
      while i < n
        invariant 0 <= at <= |script|
        invariant Run(n, old(State()), script, float) == Launch(n, State(), i, script[at..])
        decreases |script| - at
      {
        if i + n < 0 || at == |script| {
          return;
        }
        log := log + [Started(TaskAt(n, i))];
        var ready;
        ready, at := Poll(n, i, script, at);
        if !ready {
          return;
        }
        assert script[at - 1..][1..] == script[at..];
        var last := script[at - 1];
        log := log + [Ended(TaskAt(n, i), last.code)];
        if last.code != 0 || !last.wrappedUp {
          return;
        }
        log := log + [Saved(TaskAt(n, i))];
        var goesOn := WriteCheckpoint(i + 1, last.save);
        if !goesOn {
          return;
        }
        i := i + 1;
      }
    }
  }
}
