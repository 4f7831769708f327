// Pings, pongs and timers: a Deferred for every ping, filed under its timestamp until someone settles it.
module Pings {
  import opened Wrappers
  import opened Common

  datatype Outcome = Waiting | Answered(name: string) | TimedOut(name: string)

  datatype Ping = Ping(stamp: string, to: VmId, outcome: Outcome)

  /** Every ping so far, and the index of the one filed under each timestamp. */
  datatype PingTable = PingTable(pending: map<string, nat>, issued: seq<Ping>)

  const NO_PINGS := PingTable(map[], [])

  /** A pong may lack the header that names its sender. */
  datatype Act = Sends(stamp: string, to: VmId) | Pongs(stamp: string, sender: Option<VmId>) | Timer(k: nat)

  ghost predicate Valid(t: PingTable) {
    forall s :: s in t.pending ==>
      t.pending[s] < |t.issued| && t.issued[t.pending[s]].stamp == s && t.issued[t.pending[s]].outcome == Waiting
  }

  function Settle(t: PingTable, stamp: string, outcome: Outcome): PingTable
    requires Valid(t) && stamp in t.pending
  {
    var k := t.pending[stamp];
    PingTable(t.pending - {stamp}, t.issued[k := t.issued[k].(outcome := outcome)])
  }

  function Send(t: PingTable, stamp: string, to: VmId): PingTable {
    PingTable(t.pending[stamp := |t.issued|], t.issued + [Ping(stamp, to, Waiting)])
  }

  /** That the sender is missing or unknown is discovered only after the Deferred has been taken out. */
  function Pong(names: Names, t: PingTable, stamp: string, sender: Option<VmId>): (PingTable, Option<HostError>)
    requires Valid(t)
  {
    if stamp !in t.pending then (t, Some(AssertionFailed))
    else if sender.None? then (t.(pending := t.pending - {stamp}), Some(KeyMissing))
    else match NameOf(names, sender.value)
      case None => (t.(pending := t.pending - {stamp}), Some(NoSuchVirtualMachine))
      case Some(name) => (Settle(t, stamp, Answered(name)), None)
  }

  /** The timer set for a ping to `to` under `stamp`. */
  function Timeout(names: Names, t: PingTable, stamp: string, to: VmId): (PingTable, Option<HostError>)
    requires Valid(t)
  {
    if stamp !in t.pending then (t, None)
    else match NameOf(names, to)
      case None => (t.(pending := t.pending - {stamp}), Some(NoSuchVirtualMachine))
      case Some(name) => (Settle(t, stamp, TimedOut(name)), None)
  }

  function Step(names: Names, t: PingTable, a: Act): (r: PingTable)
    requires Valid(t)
    ensures Valid(r)
  {
    match a
    case Sends(stamp, to) => Send(t, stamp, to)
    case Pongs(stamp, sender) => Pong(names, t, stamp, sender).0
    case Timer(k) => if k < |t.issued| then Timeout(names, t, t.issued[k].stamp, t.issued[k].to).0 else t
  }

  function Run(names: Names, acts: seq<Act>): (t: PingTable)
    ensures Valid(t)
  {
    if acts == [] then NO_PINGS else Step(names, Run(names, acts[..|acts| - 1]), acts[|acts| - 1])
  }

  /** A settled ping is never settled again, whatever happens. */
  lemma SettlesOnce(names: Names, t: PingTable, a: Act, k: nat)
    requires Valid(t) && k < |t.issued| && t.issued[k].outcome != Waiting
    ensures k < |Step(names, t, a).issued| && Step(names, t, a).issued[k] == t.issued[k]
  {
  }

  /** A late or duplicate pong is rejected, and changes nothing, however untidy the table. */
  lemma LatePongRejected(names: Names, t: PingTable, k: nat, sender: Option<VmId>)
    requires Valid(t) && k < |t.issued| && t.issued[k].outcome != Waiting && Unshared(t, k)
    ensures Pong(names, t, t.issued[k].stamp, sender) == (t, Some(AssertionFailed))
  {
  }

  /** No other ping used the same timestamp. */
  predicate Unshared(t: PingTable, k: nat)
    requires k < |t.issued|
  {
    forall j :: 0 <= j < |t.issued| && j != k ==> t.issued[j].stamp != t.issued[k].stamp
  }

  predicate Filed(t: PingTable, k: nat)
    requires k < |t.issued|
  {
    t.issued[k].stamp in t.pending && t.pending[t.issued[k].stamp] == k
  }

  /** The table files exactly the unsettled pings. */
  ghost predicate Tidy(t: PingTable) {
    forall k :: 0 <= k < |t.issued| ==> (t.issued[k].outcome == Waiting <==> Filed(t, k))
  }

  /** What a caller can check beforehand: the timestamp is not in use; the machine is named and known, or nothing is
      filed. */
  predicate Harmless(names: Names, t: PingTable, a: Act) {
    match a
    case Sends(stamp, _) => stamp !in t.pending
    case Pongs(stamp, sender) => stamp in t.pending ==> sender.Some? && Known(names, sender.value)
    case Timer(k) => k < |t.issued| && t.issued[k].stamp in t.pending ==> Known(names, t.issued[k].to)
  }

  predicate AllHarmless(names: Names, acts: seq<Act>) {
    forall i :: 0 <= i < |acts| ==> Harmless(names, Run(names, acts[..i]), acts[i])
  }

  lemma StepTidyIff(names: Names, t: PingTable, a: Act)
    requires Valid(t) && Tidy(t)
    ensures Tidy(Step(names, t, a)) <==> Harmless(names, t, a)
  {
    var u := Step(names, t, a);
    if !Harmless(names, t, a) {
      var stamp := match a case Sends(s, _) => s case Pongs(s, _) => s case Timer(k) => t.issued[k].stamp;
      var k := t.pending[stamp];
      assert u.issued[k].outcome == Waiting && !Filed(u, k);
    } else {
      forall k | 0 <= k < |u.issued|
        ensures u.issued[k].outcome == Waiting <==> Filed(u, k)
      {
        assert k < |t.issued| ==> (t.issued[k].outcome == Waiting <==> Filed(t, k));
      }
    }
  }

  /** An unsettled ping that is no longer filed stays so in every step. */
  lemma OrphanStays(names: Names, t: PingTable, a: Act, k: nat)
    requires Valid(t) && k < |t.issued| && t.issued[k].outcome == Waiting && !Filed(t, k)
    ensures var u := Step(names, t, a);
            k < |u.issued| && u.issued[k] == t.issued[k] && !Filed(u, k)
  {
  }

  lemma RunSnoc(names: Names, acts: seq<Act>, a: Act)
    ensures Run(names, acts + [a]) == Step(names, Run(names, acts), a)
  {
    assert (acts + [a])[..|acts|] == acts;
  }

  lemma HarmlessSnoc(names: Names, acts: seq<Act>, a: Act)
    ensures AllHarmless(names, acts + [a]) <==> AllHarmless(names, acts) && Harmless(names, Run(names, acts), a)
  {
    var all := acts + [a];
    assert all[..|acts|] == acts && all[|acts|] == a;
    assert forall i :: 0 <= i < |acts| ==> all[..i] == acts[..i] && all[i] == acts[i];
  }

  /** Untidiness stays, and a harmless step keeps tidiness. */
  lemma StepTidyExactly(names: Names, t: PingTable, a: Act)
    requires Valid(t)
    ensures Tidy(Step(names, t, a)) <==> Tidy(t) && Harmless(names, t, a)
  {
    hide Step, Harmless, Valid;
    if Tidy(t) {
      StepTidyIff(names, t, a);
    } else {
      var k :| 0 <= k < |t.issued| && (t.issued[k].outcome == Waiting) != Filed(t, k);
      if Filed(t, k) { FiledWaits(t, k); }
      OrphanStays(names, t, a, k);
      assert Step(names, t, a).issued[k].outcome == Waiting;
    }
  }

  lemma FiledWaits(t: PingTable, k: nat)
    requires Valid(t) && k < |t.issued| && Filed(t, k)
    ensures t.issued[k].outcome == Waiting
  {
  }

  /** Over any run: the table files exactly the unsettled pings if and only if every step was harmless. */
  lemma {:induction false} TidyIffHarmless(names: Names, acts: seq<Act>)
    ensures Tidy(Run(names, acts)) <==> AllHarmless(names, acts)
  {
    if acts != [] {
      var front, a := acts[..|acts| - 1], acts[|acts| - 1];
      assert acts == front + [a];
      hide Run, AllHarmless, Step, Harmless, Tidy, Valid;
      TidyIffHarmless(names, front);
      HarmlessSnoc(names, front, a);
      RunSnoc(names, front, a);
      StepTidyExactly(names, Run(names, front), a);
    }
  }

  lemma RunOfTwo(names: Names, a: Act, b: Act)
    ensures Run(names, [a, b]) == Step(names, Step(names, NO_PINGS, a), b)
  {
    hide Step;
    RunSnoc(names, [], a);
    RunSnoc(names, [a], b);
    assert [] + [a] == [a] && [a] + [b] == [a, b];
  }

  /** Two steps after which an unsettled ping is not filed: its pong came from a machine nobody knows, or did not say
      where it came from. */
  lemma StrangerOrphans(names: Names, stamp: string, to: VmId, sender: Option<VmId>)
    requires sender.Some? ==> !Known(names, sender.value)
    ensures !Tidy(Run(names, [Sends(stamp, to), Pongs(stamp, sender)]))
  {
    RunOfTwo(names, Sends(stamp, to), Pongs(stamp, sender));
    hide Run;
    var t := Pong(names, Send(NO_PINGS, stamp, to), stamp, sender).0;
    assert t.issued[0].outcome == Waiting && !Filed(t, 0);
  }

  /** In a harmless run every ping is settled once its timer has run. */
  lemma TimerSettles(names: Names, before: seq<Act>, k: nat)
    requires AllHarmless(names, before + [Timer(k)]) && k < |Run(names, before).issued|
    ensures var t := Run(names, before + [Timer(k)]);
            && k < |t.issued| && t.issued[k].outcome != Waiting
            && (Run(names, before).issued[k].outcome == Waiting ==> t.issued[k].outcome.TimedOut?)
  {
    HarmlessSnoc(names, before, Timer(k));
    TidyIffHarmless(names, before);
    TidyIffHarmless(names, before + [Timer(k)]);
    RunSnoc(names, before, Timer(k));
    hide Run, AllHarmless;
    var u := Run(names, before + [Timer(k)]);
    assert !Filed(u, k);
  }

  /** And whatever outcome a ping has got, it keeps, in any run. */
  lemma {:induction false} OutcomeKept(names: Names, acts: seq<Act>, more: seq<Act>, k: nat)
    requires k < |Run(names, acts).issued| && Run(names, acts).issued[k].outcome != Waiting
    ensures k < |Run(names, acts + more).issued|
    ensures Run(names, acts + more).issued[k] == Run(names, acts).issued[k]
    decreases |more|
  {
    if more == [] {
      assert acts + more == acts;
    } else {
      var front, a := more[..|more| - 1], more[|more| - 1];
      assert acts + more == acts + front + [a];
      hide Run;
      OutcomeKept(names, acts, front, k);
      RunSnoc(names, acts + front, a);
      SettlesOnce(names, Run(names, acts + front), a, k);
    }
  }

  /** And an unsettled ping that is not filed is never settled, in any run. */
  lemma {:induction false} OrphanForever(names: Names, acts: seq<Act>, more: seq<Act>, k: nat)
    requires var t := Run(names, acts);
             k < |t.issued| && t.issued[k].outcome == Waiting && !Filed(t, k)
    ensures var u := Run(names, acts + more);
            k < |u.issued| && u.issued[k] == Run(names, acts).issued[k] && !Filed(u, k)
    decreases |more|
  {
    if more == [] {
      assert acts + more == acts;
    } else {
      var front, a := more[..|more| - 1], more[|more| - 1];
      assert acts + more == acts + front + [a];
      hide Run, Step;
      OrphanForever(names, acts, front, k);
      RunSnoc(names, acts + front, a);
      OrphanStays(names, Run(names, acts + front), a, k);
    }
  }

  /** Distinct timestamps, and machines that are all known. */
  predicate WellBehaved(names: Names, acts: seq<Act>) {
    && (forall i :: 0 <= i < |acts| ==> match acts[i]
          case Sends(_, to) => Known(names, to)
          case Pongs(_, sender) => sender.Some? && Known(names, sender.value)
          case Timer(_) => true)
    && (forall i, j :: 0 <= i < j < |acts| && acts[i].Sends? && acts[j].Sends? ==> acts[i].stamp != acts[j].stamp)
  }

  lemma StepKeepsPing(names: Names, t: PingTable, a: Act, k: nat)
    requires Valid(t) && k < |t.issued|
    ensures var u := Step(names, t, a);
            k < |u.issued| && u.issued[k].stamp == t.issued[k].stamp && u.issued[k].to == t.issued[k].to
  {
  }

  lemma StepIssues(names: Names, t: PingTable, a: Act, k: nat)
    requires Valid(t) && k < |Step(names, t, a).issued|
    ensures var p := Step(names, t, a).issued[k];
            if k < |t.issued| then p.stamp == t.issued[k].stamp && p.to == t.issued[k].to else a == Sends(p.stamp, p.to)
  {
  }

  lemma {:induction false} IssuedFromSends(names: Names, acts: seq<Act>, k: nat) returns (j: nat)
    requires k < |Run(names, acts).issued|
    ensures var p := Run(names, acts).issued[k]; j < |acts| && acts[j] == Sends(p.stamp, p.to)
  {
    var front, a := acts[..|acts| - 1], acts[|acts| - 1];
    hide Step;
    StepIssues(names, Run(names, front), a, k);
    if k < |Run(names, front).issued| {
      j := IssuedFromSends(names, front, k);
    } else {
      j := |front|;
    }
  }

  lemma NotFiled(names: Names, acts: seq<Act>, stamp: string)
    requires forall j :: 0 <= j < |acts| && acts[j].Sends? ==> acts[j].stamp != stamp
    ensures stamp !in Run(names, acts).pending
  {
    var t := Run(names, acts);
    hide Run;
    if stamp in t.pending {
      var j := IssuedFromSends(names, acts, t.pending[stamp]);
    }
  }

  /** With distinct timestamps and known machines, any interleaving of pings, pongs and timers is harmless. */
  lemma WellBehavedIsHarmless(names: Names, acts: seq<Act>)
    requires WellBehaved(names, acts)
    ensures AllHarmless(names, acts)
  {
    forall i | 0 <= i < |acts|
      ensures Harmless(names, Run(names, acts[..i]), acts[i])
    {
      var t := Run(names, acts[..i]);
      hide Run;
      match acts[i]
      case Sends(stamp, _) => NotFiled(names, acts[..i], stamp);
      case Pongs(_, _) =>
      case Timer(k) =>
        if k < |t.issued| {
          var j := IssuedFromSends(names, acts[..i], k);
          assert acts[..i][j] == acts[j];
        }
    }
  }

  // ---- Whom an outcome names ----

  /** Whatever became of a ping, it names the machine that was pinged. */
  predicate Truthful(names: Names, p: Ping) {
    match p.outcome
    case Waiting => true
    case Answered(name) => NameOf(names, p.to) == Some(name)
    case TimedOut(name) => NameOf(names, p.to) == Some(name)
  }

  predicate AllTruthful(names: Names, t: PingTable) {
    forall k :: 0 <= k < |t.issued| ==> Truthful(names, t.issued[k])
  }

  /** If the machine is known, it has the name of the one that the ping filed under the timestamp was sent to. */
  predicate SameName(names: Names, t: PingTable, stamp: string, id: VmId)
    requires Valid(t)
  {
    stamp in t.pending && Known(names, id) ==> NameOf(names, id) == NameOf(names, t.issued[t.pending[stamp]].to)
  }

  /** What a caller can check beforehand: a pong comes from the machine that the filed ping was sent to, and a timer
      finds its own ping filed, as far as names tell. */
  predicate Honest(names: Names, t: PingTable, a: Act)
    requires Valid(t)
  {
    match a
    case Sends(_, _) => true
    case Pongs(stamp, sender) => sender.Some? ==> SameName(names, t, stamp, sender.value)
    case Timer(k) => k < |t.issued| ==> SameName(names, t, t.issued[k].stamp, t.issued[k].to)
  }

  predicate AllHonest(names: Names, acts: seq<Act>) {
    forall i :: 0 <= i < |acts| ==> Honest(names, Run(names, acts[..i]), acts[i])
  }

  lemma StepTruthfulExactly(names: Names, t: PingTable, a: Act)
    requires Valid(t)
    ensures AllTruthful(names, Step(names, t, a)) <==> AllTruthful(names, t) && Honest(names, t, a)
  {
    var u := Step(names, t, a);
    if !AllTruthful(names, t) {
      var k :| 0 <= k < |t.issued| && !Truthful(names, t.issued[k]);
      SettlesOnce(names, t, a, k);
    } else if !Honest(names, t, a) {
      var stamp := match a case Pongs(s, _) => s case Timer(k) => t.issued[k].stamp;
      assert !Truthful(names, u.issued[t.pending[stamp]]);
    } else {
      forall k | 0 <= k < |u.issued| ensures Truthful(names, u.issued[k]) {
        assert k < |t.issued| ==> Truthful(names, t.issued[k]);
      }
    }
  }

  lemma HonestSnoc(names: Names, acts: seq<Act>, a: Act)
    ensures AllHonest(names, acts + [a]) <==> AllHonest(names, acts) && Honest(names, Run(names, acts), a)
  {
    var all := acts + [a];
    assert all[..|acts|] == acts && all[|acts|] == a;
    assert forall i :: 0 <= i < |acts| ==> all[..i] == acts[..i] && all[i] == acts[i];
  }

  /** Over any run: every outcome names the machine that was pinged if and only if every step was honest. */
  lemma {:induction false} TruthfulIffHonest(names: Names, acts: seq<Act>)
    ensures AllTruthful(names, Run(names, acts)) <==> AllHonest(names, acts)
  {
    if acts != [] {
      var front, a := acts[..|acts| - 1], acts[|acts| - 1];
      assert acts == front + [a];
      hide Run, AllHonest, Step, Honest, AllTruthful, Valid;
      TruthfulIffHonest(names, front);
      HonestSnoc(names, front, a);
      RunSnoc(names, front, a);
      StepTruthfulExactly(names, Run(names, front), a);
    }
  }

  /** Three steps that end untruthfully: two pings share a timestamp, and the answer of the first machine is taken for
      that of the second. */
  lemma SharedTimeMisleads(names: Names, stamp: string, a: VmId, b: VmId)
    requires Known(names, a) && Known(names, b) && names[a] != names[b]
    ensures var t := Run(names, [Sends(stamp, a), Sends(stamp, b), Pongs(stamp, Some(a))]);
            t.issued == [Ping(stamp, a, Waiting), Ping(stamp, b, Answered(names[a]))] && !AllTruthful(names, t)
  {
    var first, second, pong := Sends(stamp, a), Sends(stamp, b), Pongs(stamp, Some(a));
    RunOfTwo(names, first, second);
    RunSnoc(names, [first, second], pong);
    assert [first, second] + [pong] == [first, second, pong];
    hide Run;
    var t := Pong(names, Send(Send(NO_PINGS, stamp, a), stamp, b), stamp, Some(a)).0;
    assert !Truthful(names, t.issued[1]);
  }
}
