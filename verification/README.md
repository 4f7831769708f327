# Models of a volunteer-computing toolkit, with proofs

The repository runs jobs on virtual machines: a host asks machines over a STOMP broker to run commands and keeps track
of who is alive, a wrapper works through a list of tasks and survives being killed, and a few tools and a library go
with them. This project models five of its parts and proves what they are meant to guarantee. `dafny verify
dfyconfig.toml` checks everything.

**The command protocol.** One host, any number of machines, and a network that may delay, reorder or lose every single
copy of every message. Each callback is one atomic step. `Network` has the whole system as a transition system, and
`Protocol` the invariant of all its runs: every issued command is in exactly one stage. `Progress` shows that stages
only advance, `Losses` exactly when a command is lost, `Prospects` exactly which commands can still be brought to an
end, `Answers` that with distinct timestamps a ping is only ever answered by the machine it was sent to, and can be, and
`Refinement` that each of the host's tables evolves as if it were alone, so that what `Commands`, `Pings` and
`Registry` prove about one table over its own histories holds in the system. `HostEngine` and `VmEngine` have the two
engines as objects with mutable dictionaries, Deferreds and machine records, each method proved against the functions
the transition system is made of. `Words` models the message classes with their shared class-level frames, `Executer`
what becomes of one command.

**The job wrapper.** `Checkpoint` models the one-line checkpoint file and all its prefixes, `TaskRunner` the loops over
tasks and polls. A run is driven by a script of what it meets; it can be killed anywhere, also in the middle of writing
the file. A history is any number of runs. On record are when each task started and ended, and when its output was
saved.

**UUIDs.** `Bits` has shifts and bitwise operators on unbounded integers; `Uuid`, `UuidText` and `UuidMake` the six
fields, the stamping of variant and version, the texts, the bytes, the constructor with its errors, and the portable
time-based generator (RFC 4122).

**The directory index.** `Growfs` has the recursive printer and the recursive reader of a directory index,
`GrowfsReader` a full reader which shows that nothing listed is lost, `GrowfsListing` the reuse of checksums from one
listing to the next, and the program with its file handle and hashes.

**The cluster audit.** `Audit` has the pass that fills the cross-tabulation, its reports, and what the lines it reads
stand for.

`Wrappers`, `Common` and `Text` hold what these share; `Text` has splitting at blanks and decimal numbers, with round
trips.

## What turned out not to hold

- A process that a signal kills is never reported. It has no exit code; the handler of the failure formats the code as a
  number, which raises, and nothing follows. `Executer.RunCommand` states exactly when a result is published, and
  `Executer.KilledIsNeverReported` is the failing family. In the protocol such a command counts as lost.
- Nor is a process whose output the JSON writer refuses, such as bytes that are not UTF-8: putting the results into words
  raises in the last callback (`Executer.UnwritableIsNeverReported`). The same goes for the text of a failure to open a
  file. `Executer.RunCommand` and `Losses.Kind` have the condition.
- An outcome can name the wrong machine. Timestamps are the clock's text, which two pings can share; the answer of the
  first machine then settles the second one's ping (`Pings.SharedTimeMisleads`). `Pings.TruthfulIffHonest` has the exact
  condition over whole runs.
- The table of pings does not always hold exactly the unsettled ones. A pong takes the Deferred out before it looks for
  the header that names its sender, and a pong or a timer before it looks the machine's name up; a second ping under a
  timestamp in use replaces the first one's Deferred. Each way a ping is left that nobody can settle
  (`Pings.OrphanForever`). `Pings.StrangerOrphans` has runs of two steps that show it, `Pings.TidyIffHarmless` the exact
  condition over whole runs.
- A listing after one made with `-k` prints zeros for unchanged files, because the previous index's zeros are reused as
  checksums. `GrowfsListing.IncrementalIff` has the exact condition, `GrowfsListing.UncheckedIndexPoisons` the failing
  family.
- A checkpoint whose writing was interrupted mostly reads as no progress: work is repeated, but never skipped
  (`Checkpoint.PrefixReads`). When the file cannot be opened for writing, the handler only prints, the next line then
  uses a variable that was never assigned, and the run ends there (`CannotOpen`).

## Modelling choices

- Times are real numbers. The timestamp of a ping is the text the clock gives; that two pings may get the same text is
  covered. Time is an input of each step.
- A machine id without glob characters matches only itself, so matching is equality.
- JSON is any codec that may refuse to write, reads back what it wrote, and whose text for an object starts with a brace;
  results that come with other fields than machines send are filed like any others. Literal evaluation,
  float parsing and the opening of files are parameters that may fail.
- In `Network` the items under way form a list only so that equal ones can be told apart; any of them may be next. A
  dropped process stands for a machine that stops. The counts of lost, started and published commands are accounts kept
  beside the state; nothing the system does depends on them.
- The number under which a command is requested is taken as given and fresh. The XML-RPC service
  (vmcontroller/host/boincvm_host/xmlrpc/HostXMLRPCService.py:83) returns before it hands its id out.
- The host understands BYE although no machine in the repository says it; the model lets a machine say it at any time.
- Where code and documentation differ, the code is followed: `executeCommand` is documented to return both outputs and
  returns a Deferred that also carries the exit code, and the audit's count of "hosts" that could not be audited counts
  error lines.
- Whether it is time to write an intermediate checkpoint is left open (vmwrapper/VMWrapper.py:665).

## Model

| member | source | states |
|---|---|---|
| Protocol.OneStage | vmcontroller/host/boincvm_host/stomp/HostStompEngine.py:68-79 | in every state any run reaches, whatever is delivered, delayed, dropped, killed or reconnected, each issued command id is in exactly one of five stages (its request under way to the machine it names, its process running there, its result under way, retired, lost), by exactly one item if it is under way; an id never issued is in none |
| Protocol.StepInv | vmcontroller/host/boincvm_host/stomp/HostStompEngine.py:68-173 | every one of the twelve kinds of step keeps the whole invariant: places, fits between items and the host's records, order of the command tables, genuine results |
| Protocol.RunInv | vmcontroller/host/boincvm_host/stomp/HostStompEngine.py:68-173 | the invariant holds after every run whose requests have fresh ids, and only requested ids are issued |
| Protocol.AssertionNeverFails | vmcontroller/host/boincvm_host/stomp/HostStompEngine.py:145-156 | whichever result under way is delivered next, its id is among the requests sent, so that the embedded assertion holds and the host raises nothing |
| Protocol.AcceptInv | vmcontroller/host/boincvm_host/stomp/HostStompEngine.py:151-156 | accepting a result that was taken out of the network succeeds and keeps the invariant |
| Protocol.RunsAsAsked | vmcontroller/common/boincvm_common/stomp/protocol/words.py:75-94 | a process runs only at the machine its request named, for a command still outstanding, with the requested command, evaluated arguments, environment and path |
| Protocol.AtMostOnce | vmcontroller/host/boincvm_host/stomp/HostStompEngine.py:158-163 | over any run no command is started twice and no result is handed to a caller twice |
| Protocol.PopsWhatWasPublished | vmcontroller/host/boincvm_host/stomp/HostStompEngine.py:158-163 | a result that is waiting for a caller is the one the machine published for that command |
| Protocol.NothingLeftOver | vmcontroller/host/boincvm_host/stomp/HostStompEngine.py:145-163 | once nothing is under way, an issued command is retired exactly when it is not lost |
| Losses.NothingLostIff | vmcontroller/common/boincvm_common/stomp/protocol/words.py:75-94 | over any run no command is lost if and only if every step was kind, a condition that can be told before each step: the target of a request is listening, nothing that stands for a command is dropped, its file cannot be opened or its headers evaluate, no process is ended by a signal, and the text that there is to report can be written as JSON |
| Prospects.RetirableIff | vmcontroller/host/boincvm_host/stomp/HostStompEngine.py:145-156 | in every reachable state, if results without text can be written as JSON, exactly those issued commands can still be brought to an end by some continuation that are not lost and whose request is serviceable: its headers evaluate, or it names a file, which may turn out not to open |
| Prospects.CanBeRetired | vmcontroller/common/boincvm_common/stomp/protocol/words.py:75-113 | and for those at most four further steps are enough: the machine subscribes again if it has to, gets the request, ends its process, and its result is delivered |
| Prospects.LostForGood | vmcontroller/host/boincvm_host/stomp/HostStompEngine.py:68-79 | a lost command stays lost and is never retired, in any continuation |
| Losses.LossIff | vmcontroller/common/boincvm_common/stomp/protocol/words.py:75-94 | a step of a reachable state loses a command if and only if it was not kind, and never finds one again |
| Losses.KindRunsFinish | vmcontroller/host/boincvm_host/stomp/HostStompEngine.py:145-156 | in a kind run every issued command has been retired once nothing is under way |
| Progress.StagesAdvance | vmcontroller/host/boincvm_host/stomp/HostStompEngine.py:68-79 | from any reachable state one step leaves an issued command in its stage or moves it to a stage that may follow; retired and lost are final |
| Progress.ReportKept | vmcontroller/common/boincvm_common/stomp/protocol/CommandExecuter.py:104-120 | what was published for a command is the same in every later state |
| Network.CountBroadcast | vmcontroller/common/boincvm_common/stomp/protocol/words.py:75-81 | of the copies that subscribers get of a request, exactly one counts if the named machine is listening, and none otherwise |
| Network.PingIsAnswered | vmcontroller/common/boincvm_common/stomp/protocol/words.py:31-35 | a ping that reaches a listening machine leaves a pong of that machine with the same timestamp under way if it is for that machine, and nothing otherwise |
| Network.MachinesSpeak | vmcontroller/vm/boincvm_vm/stomp/VMStompEngine.py:26-42 | HELLO, STILL_ALIVE and BYE, each with the machine's id and address, are under way to the host after the machine connects, beats or leaves, and a machine that is cut off sends none |
| Network.HostBroadcasts | vmcontroller/host/boincvm_host/stomp/HostStompEngine.py:81-93 | a ping puts one copy for each listening machine under way, and nothing else |
| Network.HostListens | vmcontroller/host/boincvm_host/stomp/HostStompEngine.py:95-156 | a message to the host is gone once it has had its effect, and has no other |
| Refinement.RunsRefine | vmcontroller/host/boincvm_host/stomp/HostStompEngine.py:26-31 | in every run of the whole system the command tables, the pings and the registry are what their own runs, extracted from the system's run, make of them |
| Refinement.RegisteredInRuns | vmcontroller/host/boincvm_host/stomp/HostStompEngine.py:104-142 | the registry law holds in the whole system, for the messages as the network delivers them |
| Refinement.SteadyInRuns | vmcontroller/host/boincvm_host/stomp/HostStompEngine.py:133-142 | in the whole system a known machine whose beats reach the host steadily, and whose BYE never does, is registered at every moment from its first beat to its last |
| Refinement.PunctualInRuns | vmcontroller/vm/boincvm_vm/stomp/VMStompEngine.py:26-26 | in the whole system a known machine that sends a beat every p, over a network that delivers each within d and may reorder them, is registered at every moment from its first arrival to its last, if p + d is at most one and a half grace periods and no BYE of it arrives |
| Registry.PunctualIsSteady | vmcontroller/host/boincvm_host/stomp/HostStompEngine.py:133-142 | such a machine beats steadily as the host sees it: no two successive arrivals are more than p + d apart |
| Refinement.SilentInRuns | vmcontroller/host/boincvm_host/stomp/HostStompEngine.py:133-142 | in the whole system, with a collection every grace period, a machine from which no beat arrives any more is gone once two and a half grace periods have passed |
| Refinement.PingsInRuns | vmcontroller/host/boincvm_host/stomp/HostStompEngine.py:81-101 | the ping law holds in the whole system |
| Refinement.DetailsInRuns | vmcontroller/host/boincvm_host/stomp/HostStompEngine.py:169-173 | in the whole system an issued command shows the same record ever after, before and after it is retired |
| Answers.AnsweredByTarget | vmcontroller/host/boincvm_host/stomp/HostStompEngine.py:95-101 | with distinct timestamps, the step in which a ping gets its answer is the delivery of a pong that the machine it was sent to sent for it |
| Answers.PongsComeFromTarget | vmcontroller/common/boincvm_common/stomp/protocol/words.py:37-47 | with distinct timestamps, any pong under way with the timestamp of a ping comes from the machine the ping was sent to |
| Answers.TruthfulInRuns | vmcontroller/host/boincvm_host/stomp/HostStompEngine.py:81-101 | in the whole system every outcome names the machine that was pinged if and only if every act on the pings was honest |
| Answers.OutcomeNamesTarget | vmcontroller/host/boincvm_host/stomp/HostStompEngine.py:81-101 | with distinct timestamps the outcome of a ping, answered or timed out, gives the name of the machine it was sent to |
| Answers.RunTruthful | vmcontroller/common/boincvm_common/stomp/protocol/words.py:19-51 | over any run with distinct timestamps, a ping under way was sent, a pong under way comes from the machine that was pinged, and every outcome names that machine |
| Answers.CanBeAnswered | vmcontroller/host/boincvm_host/stomp/HostStompEngine.py:81-101 | from every reachable state, a filed ping to a known machine whose copy is under way can be answered with that machine's name in at most three steps: the machine subscribes again if it has to, hears the ping, and its pong is delivered |
| Answers.NewPingCanBeAnswered | vmcontroller/host/boincvm_host/stomp/HostStompEngine.py:81-101 | from every reachable state, whatever happened before, a new ping to a known machine that is listening can be sent and answered in three steps |
| Commands.Lifecycle | vmcontroller/host/boincvm_host/stomp/HostStompEngine.py:75-79 | over any run with fresh ids, sent and retired ids are disjoint and are together exactly the issued ids, received results belong to retired requests, and each retired result is either waiting or has been handed out once |
| Commands.HandedAtMostOnce | vmcontroller/host/boincvm_host/stomp/HostStompEngine.py:158-163 | a result is handed out at most once, and then its request is retired and the result is gone |
| Commands.DetailsNeverChange | vmcontroller/host/boincvm_host/stomp/HostStompEngine.py:169-173 | the record shown for an issued command is the same after any further acts |
| Pings.TidyIffHarmless | vmcontroller/host/boincvm_host/stomp/HostStompEngine.py:81-101 | over any run the table files exactly the unsettled pings if and only if no step reused a timestamp in use and no filed ping met a pong without a sender or an unknown machine id; the law is false of the code without that condition |
| Pings.TruthfulIffHonest | vmcontroller/host/boincvm_host/stomp/HostStompEngine.py:81-101 | over any run every outcome names the machine that was pinged if and only if, at every step that would settle a filed ping, the machine that the pong came from or the timer was for has the name of the one that ping was sent to; without that condition the law is false of the code |
| Pings.SharedTimeMisleads | vmcontroller/host/boincvm_host/stomp/HostStompEngine.py:88-101 | three steps that end untruthfully: two pings share a timestamp, and the first machine's answer settles the second machine's ping |
| Pings.StrangerOrphans | vmcontroller/host/boincvm_host/stomp/HostStompEngine.py:95-101 | a ping answered by a machine that is not known, or by a pong that names none, leaves the table without an unsettled ping: two steps that show the law fails |
| Pings.WellBehavedIsHarmless | vmcontroller/host/boincvm_host/stomp/HostStompEngine.py:81-101 | distinct timestamps, pongs that name their senders and known machines are enough for that |
| Pings.SettlesOnce | vmcontroller/host/boincvm_host/stomp/HostStompEngine.py:95-101 | no step changes a ping that is settled |
| Pings.OutcomeKept | vmcontroller/host/boincvm_host/stomp/HostStompEngine.py:81-101 | over any run a settled ping keeps its outcome |
| Pings.TimerSettles | vmcontroller/host/boincvm_host/stomp/HostStompEngine.py:82-86 | in a harmless run a ping is settled once its timer has run |
| Pings.LatePongRejected | vmcontroller/host/boincvm_host/stomp/HostStompEngine.py:95-98 | a late or second pong for a ping whose timestamp no other used is rejected by the assertion and changes nothing, whatever the table, and whether or not it names a sender |
| Pings.OrphanStays | vmcontroller/host/boincvm_host/stomp/HostStompEngine.py:95-100 | no step settles or files an unsettled ping that is not filed |
| Pings.OrphanForever | vmcontroller/host/boincvm_host/stomp/HostStompEngine.py:95-100 | a ping whose Deferred was taken out before its sender turned out to be missing or unknown is never settled, in any run |
| Registry.RegisteredIff | vmcontroller/host/boincvm_host/stomp/HostStompEngine.py:104-142 | over any history a machine is registered exactly when it is known and its latest HELLO or STILL_ALIVE came after its latest BYE or collection; its beacon is the time of that message and its name the known one |
| Registry.AddressFromLastJoin | vmcontroller/host/boincvm_host/stomp/HostStompEngine.py:104-126 | the address on record is that of the message that last made the host add the machine |
| Registry.BeaconNotInFuture | vmcontroller/host/boincvm_host/stomp/HostStompEngine.py:128-131 | with times in order no beacon is in the future |
| Registry.SteadyNeverCollected | vmcontroller/host/boincvm_host/stomp/HostStompEngine.py:133-142 | a known machine whose successive beats are at most one and a half grace periods apart and that never says BYE is registered at every moment between its first and its last beat, whatever the collections |
| Registry.SilentIsGone | vmcontroller/host/boincvm_host/stomp/HostStompEngine.py:133-142 | with a collection every grace period, a machine that falls silent is gone once two and a half grace periods have passed |
| Registry.CollectLeaves | vmcontroller/host/boincvm_host/stomp/HostStompEngine.py:133-142 | a collection leaves exactly the machines heard from within one and a half grace periods, unchanged |
| HostEngine.HostStompEngine.RequestCmdExecution | vmcontroller/host/boincvm_host/stomp/HostStompEngine.py:68-79 | the three outcomes with their whole effect: sent and recorded, unknown machine, known but unregistered machine |
| HostEngine.HostStompEngine.ProcessCmdResult | vmcontroller/host/boincvm_host/stomp/HostStompEngine.py:145-156 | moves the request to the retired table and files the result, or rejects it and changes nothing |
| HostEngine.HostStompEngine.PopCmdResults | vmcontroller/host/boincvm_host/stomp/HostStompEngine.py:158-163 | hands the result out and forgets it |
| HostEngine.HostStompEngine.ListFinishedCmds | vmcontroller/host/boincvm_host/stomp/HostStompEngine.py:166-167 | lists exactly the commands for which asking for the result would give one |
| HostEngine.HostStompEngine.GetCmdDetails | vmcontroller/host/boincvm_host/stomp/HostStompEngine.py:169-173 | the outstanding record, else the retired one |
| HostEngine.HostStompEngine.Ping | vmcontroller/host/boincvm_host/stomp/HostStompEngine.py:81-93 | makes a new Deferred, files it under the timestamp, sends the PING; nothing else changes |
| HostEngine.HostStompEngine.OnTimeout | vmcontroller/host/boincvm_host/stomp/HostStompEngine.py:82-86 | what the timer does in each of its three cases, on the very Deferred that is filed |
| HostEngine.HostStompEngine.ProcessPong | vmcontroller/host/boincvm_host/stomp/HostStompEngine.py:95-101 | what a pong does in each of its three cases |
| HostEngine.HostStompEngine.AddVM | vmcontroller/host/boincvm_host/stomp/HostStompEngine.py:104-108 | registers a known machine with a fresh beacon, else raises and changes nothing |
| HostEngine.HostStompEngine.KeepVMForNow | vmcontroller/host/boincvm_host/stomp/HostStompEngine.py:119-131 | adds a stranger, or renews the beacon of the existing record in place |
| HostEngine.HostStompEngine.RemoveVM | vmcontroller/host/boincvm_host/stomp/HostStompEngine.py:110-113 | removes one machine, or raises and changes nothing |
| HostEngine.HostStompEngine.GetRegisteredVMs | vmcontroller/host/boincvm_host/stomp/HostStompEngine.py:115-117 | lists exactly the registered machines |
| HostEngine.HostStompEngine.PerformVMsGC | vmcontroller/host/boincvm_host/stomp/HostStompEngine.py:133-142 | the loop over dead records removes exactly those that the specification collects, and warns exactly of those between one and one and a half grace periods old |
| HostEngine.HostStompEngine.Listen | vmcontroller/common/boincvm_common/stomp/protocol/words.py:48-51 | each heard message changes the whole state of the engine as specified, and raises the specified error |
| HostEngine.HostStompEngine.Interpret | vmcontroller/common/boincvm_common/stomp/protocol/MsgInterpreter.py:13-23 | the effect and the error of every frame that arrives: what the word that its body starts with does with what it takes, a word the protocol does not have, or a frame that lacks what its handler looks up |
| HostEngine.SaidIsHeard | vmcontroller/common/boincvm_common/stomp/protocol/words.py:12-160 | a frame made by saying a message has, on arrival, exactly the effect and the error of that message |
| HostEngine.MisheardChangesIff | vmcontroller/host/boincvm_host/stomp/HostStompEngine.py:95-101 | a frame that is not understood changes something if and only if it is a PONG without a sender whose timestamp is that of a filed ping |
| HostEngine.Raises | vmcontroller/host/boincvm_host/stomp/HostStompEngine.py:81-156 | which error the host's handler of a message raises, and exactly when: for its own words, for machines it does not know or does not have, for pongs and results that nobody waits for |
| HostEngine.MisheardRaises | vmcontroller/common/boincvm_common/stomp/protocol/MsgInterpreter.py:13-23 | which error a frame raises that lacks what its handler looks up, and exactly when |
| HostEngine.UnknownWordIgnored | vmcontroller/common/boincvm_common/stomp/protocol/MsgInterpreter.py:18-23 | a word the protocol does not have has no effect and raises nothing |
| VmEngine.VMStompEngine.Listen | vmcontroller/common/boincvm_common/stomp/protocol/words.py:31-94 | the machine answers a ping for itself with a pong that has the ping's timestamp, reports a file that cannot be opened, starts a command for itself as it was asked, and sends nothing for a message meant for another machine or for the host |
| VmEngine.VMStompEngine.Connected | vmcontroller/vm/boincvm_vm/stomp/VMStompEngine.py:31-42 | replies with the subscription to requests and then the announcement, and starts one more loop of beacons |
| VmEngine.VMStompEngine.PeriodElapsed | vmcontroller/vm/boincvm_vm/stomp/VMStompEngine.py:26-26 | an interval sends one beacon for every time the machine was connected, since no loop is ever stopped: none before the first, n after n |
| HostEngine.HostStompEngine.Connected | vmcontroller/host/boincvm_host/stomp/HostStompEngine.py:43-49 | the host subscribes to its two topics, and these carry exactly the messages that are not pings or requests |
| Words.Routed | vmcontroller/common/boincvm_common/stomp/protocol/words.py:20-160 | pings and requests go to the topic of the machines, everything else to one of the host's two |
| Words.HeardAsSaid | vmcontroller/common/boincvm_common/stomp/protocol/words.py:19-160 | for every message that can be said: dispatch on the first word selects the class that spoke, and every argument comes back as it was said, results through the JSON text |
| Words.FramesDiffer | vmcontroller/common/boincvm_common/stomp/protocol/words.py:12-17 | different messages never share a frame |
| Words.WireFormat | vmcontroller/common/boincvm_common/stomp/protocol/words.py:19-160 | what goes over the wire for each word: SEND, the headers with the exact topic, and the body, which is the word and for results a blank and the JSON text |
| Words.LostHeader | vmcontroller/common/boincvm_common/stomp/protocol/words.py:28-160 | a frame that loses one header is understood if and only if its word does not look that header up, and then says the rest: a request without a file name has none, a farewell needs no address, results need no id beside them |
| Words.FailedAttempt | vmcontroller/common/boincvm_common/stomp/protocol/words.py:96-109 | results that the JSON writer refuses leave headers but no text in the class's frame, so that what is said with it next is as if they had not been tried |
| Words.StaleFrameAccumulates | vmcontroller/common/boincvm_common/stomp/protocol/words.py:96-109 | without a new frame for each instance a second result would be sent behind the first |
| Words.Vocabulary.SayAll | vmcontroller/common/boincvm_common/stomp/protocol/words.py:12-17 | over any sequence of sends through the shared class-level frames, also after sends that raised, each packed frame depends on its own arguments alone |
| Words.Vocabulary.HowToSay | vmcontroller/common/boincvm_common/stomp/protocol/words.py:54-109 | what is packed and what is left in the class's frame, word by word, also when the JSON writer raises half-way |
| Executer.RunCommand | vmcontroller/common/boincvm_common/stomp/protocol/CommandExecuter.py:73-120 | from the accepted request to what is published: exactly one result if and only if the file cannot be opened, or the headers evaluate and the process ends other than by a signal, and the text to be reported can be written as JSON; it has the command's id and the output in arrival order, and says finished exactly when the process ended normally |
| Executer.KilledIsNeverReported | vmcontroller/common/boincvm_common/stomp/protocol/CommandExecuter.py:113-120 | a process killed by a signal has no exit code, formatting which raises, so that no result is ever published for it |
| Executer.UnwritableIsNeverReported | vmcontroller/common/boincvm_common/support.py:9-17 | a process that ends normally after printing what the JSON writer refuses is never reported either |
| Executer.Attend | vmcontroller/common/boincvm_common/stomp/protocol/CommandExecuter.py:31-60 | standard input gets the file up to its end, and the Deferred fires once, with both outputs in arrival order |
| Executer.OutputSplits | vmcontroller/common/boincvm_common/stomp/protocol/CommandExecuter.py:50-53 | each stream is gathered for itself, in arrival order, however the chunks are cut |
| Executer.FedIsWhole | vmcontroller/common/boincvm_common/stomp/protocol/CommandExecuter.py:42-48 | what a process is fed is all blocks of the file joined, up to the read that gives nothing |
| Executer.CommandExecuter.ExecuteCommand | vmcontroller/common/boincvm_common/stomp/protocol/CommandExecuter.py:73-102 | takes parameters out, evaluates the rest in place in any order, and ends in a failure, a rejection, or a process with exactly the evaluated arguments |
| TaskRunner.HistoryIsSafe | vmwrapper/VMWrapper.py:626-720 | over any history of runs, each cut off at any step including any character of a checkpoint write: a checkpoint that reads k means that tasks 0..k-1 have each ended with exit code zero and had their output saved, and no task ever started before that held of all earlier ones |
| TaskRunner.CleanRunCompletes | vmwrapper/VMWrapper.py:626-720 | a run left alone, with any number of polls and any checkpoints in between and any CPU times, starts and finishes exactly the tasks the checkpoint does not count, once each and in order, and leaves exactly the line that counts them all with the last CPU time |
| TaskRunner.LeftAloneItFinishes | vmwrapper/VMWrapper.py:540-720 | whatever happened in any runs before, one more run that is left alone ends with all tasks ended with exit code zero and their output saved, and none ever started out of order |
| TaskRunner.StopsOnFailure | vmwrapper/VMWrapper.py:653-714 | a task that exits with another code than zero, or whose output cannot be copied, ends the run there and leaves the file as it was |
| TaskRunner.SuccessCounts | vmwrapper/VMWrapper.py:719-720 | a task that ended well and had its output saved is counted in the file before the next one starts |
| TaskRunner.SnapshotCounts | vmwrapper/VMWrapper.py:665-667 | while a task is running a snapshot writes the count of the tasks before it, with the CPU time so far, and the run goes on with that file |
| TaskRunner.StopsWhenTold | vmwrapper/VMWrapper.py:661-663 | a run that is killed or told to quit ends there and leaves file and history as they were |
| TaskRunner.StopsOnWrite | vmwrapper/VMWrapper.py:497-504 | a write that is cut off or cannot open the file ends the run, at either place where the file is written |
| TaskRunner.WhereRunsStart | vmwrapper/VMWrapper.py:539-550 | a run does nothing if the checkpoint counts every task, and otherwise starts with the first task that it does not count |
| TaskRunner.Wrapper.RunJob | vmwrapper/VMWrapper.py:626-720 | the two nested loops over tasks and polls do what the step-by-step specification says, on file and history |
| TaskRunner.Wrapper.WriteCheckpoint | vmwrapper/VMWrapper.py:497-504 | the file after a write that completes, is killed after any number of characters, or cannot be opened, and whether the run goes on |
| Checkpoint.PrefixReads | vmwrapper/VMWrapper.py:448-467 | for every prefix of a written line: the count is read exactly when enough of the CPU time survives to parse, and otherwise no progress, never another count |
| Checkpoint.FullLineReads | vmwrapper/VMWrapper.py:448-467 | the whole line reads back as exactly the count and the time |
| Checkpoint.RestIgnored | vmwrapper/VMWrapper.py:456-467 | whatever stands behind the first two words of the file, on that line or later, does not count |
| Uuid.PackThenUnpack | vmcontroller/common/boincvm_common/uuid.py:134-153 | in-range fields packed by shifts and ors come back from the getters, and the integer has 128 bits (section 4.1.2 of RFC 4122) |
| Uuid.UnpackThenPack | vmcontroller/common/boincvm_common/uuid.py:198-244 | any 128-bit integer unpacks to in-range fields that pack to it: with the above, a bijection |
| Uuid.StampSets | vmcontroller/common/boincvm_common/uuid.py:157-165 | stamping makes the variant RFC 4122 and the version the given one, keeps 128 bits, and leaves the other 122 bits as they were (sections 4.1.1 and 4.1.3) |
| Uuid.LastStampWins | vmcontroller/common/boincvm_common/uuid.py:157-165 | stamping twice is stamping with the last version; in particular it is idempotent |
| Uuid.VariantTable | vmcontroller/common/boincvm_common/uuid.py:256-264 | the variant is the one that section 4.1.1 assigns to the three highest bits of the clock sequence, in all eight cases |
| Uuid.VersionTable | vmcontroller/common/boincvm_common/uuid.py:268-271 | only that variant has a version, the four highest bits of the third field |
| UuidText.TextRoundTrip | vmcontroller/common/boincvm_common/uuid.py:185-188 | every 128-bit value printed plain or canonical, bare, braced or as a URN, parses back to itself (section 3) |
| UuidText.AnyFormParses | vmcontroller/common/boincvm_common/uuid.py:124-129 | any hyphenated text with 32 digits parses to the value of its digits, whatever its braces and prefix |
| UuidText.ParseHexIff | vmcontroller/common/boincvm_common/uuid.py:124-129 | what is left once prefixes, braces and hyphens are gone is refused for its length exactly if it has not 32 characters; of these exactly the hexadecimal numbers in one of their forms are accepted, with blanks, a plus sign, 0x and a final L, each as the value of its digits |
| UuidText.LongHexIff | vmcontroller/common/boincvm_common/uuid.py:129-129 | exactly the texts that can be taken apart into blanks, sign, prefix, digits, suffix and blanks are read as a number, each as the value of its digits |
| UuidText.CanonicalForm | vmcontroller/common/boincvm_common/uuid.py:185-188 | the printed form has 36 characters: hyphens at 8, 13, 18 and 23, and lower-case digits everywhere else (section 3) |
| UuidText.GetBytes | vmcontroller/common/boincvm_common/uuid.py:190-194 | the loop over shifts builds the big-endian bytes |
| UuidText.BytesOfValue | vmcontroller/common/boincvm_common/uuid.py:130-133 | bytes, value, bytes again is the identity, for any number of bytes |
| UuidMake.Init | vmcontroller/common/boincvm_common/uuid.py:122-166 | the constructor, with each of its errors in the order the code finds them, narrows down to the specified value |
| UuidMake.MakeIff | vmcontroller/common/boincvm_common/uuid.py:122-166 | the constructor succeeds if and only if exactly one form is given, that form is 16 bytes, six fields in range, an integer of 128 bits or a text that parses, and the version, if any, is between 1 and 5 |
| UuidMake.Complaints | vmcontroller/common/boincvm_common/uuid.py:122-166 | and otherwise raises the error of the first of these that is not so |
| UuidMake.FormsSurvive | vmcontroller/common/boincvm_common/uuid.py:122-166 | without a version the fields, the number, the bytes and the text's value come back as they were given |
| UuidMake.VersionIsSet | vmcontroller/common/boincvm_common/uuid.py:157-165 | a requested version is the version of the result, whose variant is RFC 4122 and whose other 122 bits are those that the arguments give without it |
| UuidMake.DerivedVersions | vmcontroller/common/boincvm_common/uuid.py:443-467 | name-based and random UUIDs have version 3, 4 or 5 and all other bits of the hash or the random bytes they are made of |
| UuidMake.BytesSurvive | vmcontroller/common/boincvm_common/uuid.py:130-133 | every 16-byte string survives the constructor and the bytes accessor |
| UuidMake.ValueSurvives | vmcontroller/common/boincvm_common/uuid.py:124-133 | every 128-bit value survives the constructor through its bytes and through each of its texts |
| UuidMake.TimeBasedReadsBack | vmcontroller/common/boincvm_common/uuid.py:425-441 | a time-based UUID reads back the timestamp mod 2^60, the sequence number mod 2^14 and the exact node, with the variant and version set (sections 4.1.4, 4.1.5 and 4.2.2) |
| UuidMake.TimeBasedNeverCollide | vmcontroller/common/boincvm_common/uuid.py:425-441 | two time-based UUIDs are equal if and only if those three agree |
| Growfs.IndexRoundTrip | cctools-3.0.1-i686-linux-2.6/bin/make_growfs:211-230 | for any well-formed tree, loading what was listed leaves nothing unread and gives exactly the map from every file and link path, at any depth, to its time, size and printed checksum |
| Growfs.LoadList | cctools-3.0.1-i686-linux-2.6/bin/make_growfs:32-56 | parsing the listing of some entries and the closing E consumes exactly those lines, whatever follows |
| Growfs.LeavesDistinct | cctools-3.0.1-i686-linux-2.6/bin/make_growfs:83-83 | no two listed files or links have the same path |
| Growfs.LineFormat | cctools-3.0.1-i686-linux-2.6/bin/make_growfs:58-62 | each line character for character: kind, name, tab, mode, size, time less the format's epoch, and checksum or target |
| GrowfsReader.IndexIsFaithful | cctools-3.0.1-i686-linux-2.6/bin/make_growfs:64-160 | a reader of the text alone gets back every listed entry, at its depth, with its kind, name, mode, size and time, and its checksum, target or entries |
| GrowfsReader.SameIndexSameTree | cctools-3.0.1-i686-linux-2.6/bin/make_growfs:64-160 | trees with the same full index have the same listed part |
| GrowfsReader.SkippedIff | cctools-3.0.1-i686-linux-2.6/bin/make_growfs:75-81 | left out are exactly the directory itself, its parent, and every name with growfs in it after at least one character |
| GrowfsListing.CachedListingIff | cctools-3.0.1-i686-linux-2.6/bin/make_growfs:141-156 | a listing that reuses a cache equals the one that computes every checksum if and only if no file is given a checksum other than its own |
| GrowfsListing.IncrementalIff | cctools-3.0.1-i686-linux-2.6/bin/make_growfs:211-230 | a listing that reuses the previous index equals the full one if and only if every earlier entry with the same path, size and time recorded the digest the file has now |
| GrowfsListing.GenerationsStayFull | cctools-3.0.1-i686-linux-2.6/bin/make_growfs:211-232 | while that holds from each tree to the next, the last of any number of listings is the full one |
| GrowfsListing.UncheckedIndexPoisons | cctools-3.0.1-i686-linux-2.6/bin/make_growfs:188-191 | an index made without checksums makes the next listing of the same unchanged tree wrong |
| GrowfsListing.Grower.Run | cctools-3.0.1-i686-linux-2.6/bin/make_growfs:209-235 | the program: loads what is there, writes the specified index, counts exactly the files whose checksum it had to compute, and counts the listed files, links and directories |
| GrowfsListing.CountersAddUp | cctools-3.0.1-i686-linux-2.6/bin/make_growfs:135-156 | the counters of files and links account for every listed path, and no more checksums are computed than there are files |
| GrowfsListing.Grower.ListDir | cctools-3.0.1-i686-linux-2.6/bin/make_growfs:64-160 | the recursive printer appends the specified listing and adds the cache misses, files, links and directories to the four counters |
| GrowfsListing.Grower.LoadCache | cctools-3.0.1-i686-linux-2.6/bin/make_growfs:32-56 | the recursive reader fills the three hashes as specified and leaves the handle after the closing E |
| Audit.AllTablesConserve | cctools-3.0.1-i686-linux-2.6/bin/chirp_audit_cluster:41-63 | the row sums of either two-way table are the one-way table, and both add up to the grand total |
| Audit.GroupedConserves | cctools-3.0.1-i686-linux-2.6/bin/chirp_audit_cluster:41-50 | the entries of the host table and of the user table each add up to the grand total, in files, directories and bytes |
| Audit.GroupedIsTotal | cctools-3.0.1-i686-linux-2.6/bin/chirp_audit_cluster:41-50 | every one-way entry is the sum of the rows of that host or user, and exists exactly when there are such rows |
| Audit.CrossedIsTotal | cctools-3.0.1-i686-linux-2.6/bin/chirp_audit_cluster:52-58 | every two-way cell is the sum of the rows with that host and that user |
| Audit.Transposes | cctools-3.0.1-i686-linux-2.6/bin/chirp_audit_cluster:52-58 | the two two-way tables have the same cells with the same contents, transposed |
| Audit.PrintedIsWhole | cctools-3.0.1-i686-linux-2.6/bin/chirp_audit_cluster:122-125 | the list of rows that is left when the empty ones are skipped shows, for distinct keys in any order, the sum of the table |
| Audit.PrintedAreNonempty | cctools-3.0.1-i686-linux-2.6/bin/chirp_audit_cluster:122-125 | exactly the rows with bytes are printed |
| Audit.ReportsConserve | cctools-3.0.1-i686-linux-2.6/bin/chirp_audit_cluster:105-125 | both one-way reports, the one that skips empty rows and the one that does not, account for every byte |
| Audit.TwoWayConserves | cctools-3.0.1-i686-linux-2.6/bin/chirp_audit_cluster:140-174 | either two-way report, skipping empty headings and empty lines, accounts for every byte |
| Audit.SectionsConserve | cctools-3.0.1-i686-linux-2.6/bin/chirp_audit_cluster:140-174 | what is printed under a heading of a two-way report accounts for the bytes of the heading |
| Audit.Auditor.Collate | cctools-3.0.1-i686-linux-2.6/bin/chirp_audit_cluster:26-65 | the one pass fills every table and every counter of lines with what the rows of all hosts amount to, and counts exactly the error lines, which contribute nothing else |
| Audit.Auditor.CollateCluster | cctools-3.0.1-i686-linux-2.6/bin/chirp_audit_cluster:26-65 | for lines printed from given usages, with failures anywhere between them, the tables are those of exactly these usages, and the errors counted are the failures |
| Audit.UsageIsRead | cctools-3.0.1-i686-linux-2.6/bin/chirp_audit_cluster:32-63 | a line of three numbers and a user is read as files, directories and bytes of that user |
| Audit.FailureIsError | cctools-3.0.1-i686-linux-2.6/bin/chirp_audit_cluster:34-38 | a line that says what could not be done is an error |
| Audit.ClusterIsRead | cctools-3.0.1-i686-linux-2.6/bin/chirp_audit_cluster:26-65 | what all hosts print gives exactly the usages and the failures that they report, host by host and in order |
| Audit.LinesConserve | cctools-3.0.1-i686-linux-2.6/bin/chirp_audit_cluster:44-63 | the counters of lines by host, and those by user, add up to the number of lines |
| Audit.LinesAreCounted | cctools-3.0.1-i686-linux-2.6/bin/chirp_audit_cluster:44-50 | each counter is the number of lines of that host or user, and there is one exactly where there are lines |

## Left out

- Pings.TidyIffHarmless: holds for every run only under the condition it states, because the law without it is false of the code.
- Executer.RunCommand: publishes a result only under the condition it states, because the law for every ended process is false of the code.
- HostEngine.HostStompEngine.GetCmdDetails: gives the record itself, not its JSON text.
- Registry.SilentIsGone: takes the regular collections as given, since the timer is not part of this model.
- TaskRunner.HistoryIsSafe: says nothing about CPU time, which the program reads from a field it never sets.
- HostEngine.HostStompEngine.Interpret: does not model that the interpreter evaluates a first word which names something else in its module or is not a name.
- Words.HeardAsSaid: leaves out a CMD_RUN frame without an id, command, arguments, environment or path, with which the original goes on as if they were None.
- Words.LostHeader: does not say what becomes of a request that loses one of these five headers, for the same reason.
- Copying files to and from machines, the controllers, the XML-RPC service, sockets, reconnection, the broker itself.
- The connection that is lost when a handler raises: what is then lost is covered by the loss of single messages.
- Resource usage, which is carried along as text; the differences of the counters are not computed.
- Suspending, resuming and starting virtual machines, copying their files, the parsing of the job file, progress fractions.
- Node discovery, system UUID generators and hashing (uuid.py), which call the platform or other libraries.
- Following symbolic links, cyclic directories, unreadable entries and file names with blanks: the tree is the one after links have been followed.
- Numbers with fractions or exponents in index files and audit lines, which Perl would also read.
- Running the audit on the hosts, the headings of the reports, sorting the reports and formatting their columns.
