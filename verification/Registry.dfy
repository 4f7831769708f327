// The registry of virtual machines: who has been heard from, and who has been silent for too long.
module Registry {
  import opened Wrappers
  import opened Common

  datatype VMRec = VMRec(id: VmId, ip: string, name: string, beacon: real)

  type Roster = map<VmId, VMRec>

  // ---- One operation at a time ----

  function AddVM(names: Names, r: Roster, id: VmId, ip: string, now: real): Result<Roster, HostError> {
    match NameOf(names, id)
    case None => Err(NoSuchVirtualMachine)
    case Some(name) => Ok(r[id := VMRec(id, ip, name, now)])
  }

  function RemoveVM(r: Roster, id: VmId): Result<Roster, HostError> {
    if id in r then Ok(r - {id}) else Err(KeyMissing)
  }

  /** A beacon: a stranger is added, a registered machine only has its beacon renewed. */
  function KeepVM(names: Names, r: Roster, id: VmId, ip: string, now: real): Result<Roster, HostError> {
    if id !in r then AddVM(names, r, id, ip, now) else Ok(r[id := r[id].(beacon := now)])
  }

  /** Silent for so long that a warning is not enough. */
  predicate Dead(rec: VMRec, now: real, grace: real) {
    now - rec.beacon > grace && now - rec.beacon > 1.5 * grace
  }

  function Collect(r: Roster, now: real, grace: real): Roster {
    map v | v in r && !Dead(r[v], now, grace) :: r[v]
  }

  // ---- Histories ----

  datatype Event =
    | Hello(id: VmId, ip: string, at: real)
    | StillAlive(id: VmId, ip: string, at: real)
    | Bye(id: VmId, at: real)
    | Tick(at: real)

  function OrElse(r: Result<Roster, HostError>, before: Roster): Roster {
    if r.Ok? then r.value else before
  }

  function Step(names: Names, grace: real, r: Roster, e: Event): Roster {
    match e
    case Hello(id, ip, at) => OrElse(AddVM(names, r, id, ip, at), r)
    case StillAlive(id, ip, at) => OrElse(KeepVM(names, r, id, ip, at), r)
    case Bye(id, _) => OrElse(RemoveVM(r, id), r)
    case Tick(at) => Collect(r, at, grace)
  }

  function Run(names: Names, grace: real, h: seq<Event>): Roster {
    if h == [] then map[] else Step(names, grace, Run(names, grace, h[..|h| - 1]), h[|h| - 1])
  }

  predicate IsBeat(e: Event, id: VmId) {
    (e.Hello? || e.StillAlive?) && e.id == id
  }

  /** After a beat at time `t`: no later beat, no farewell, and no tick that finds it too old. */
  predicate Quiet(e: Event, id: VmId, t: real, grace: real) {
    match e
    case Hello(i, _, _) => i != id
    case StillAlive(i, _, _) => i != id
    case Bye(i, _) => i != id
    case Tick(at) => at - t <= 1.5 * grace
  }

  /** Event `i` is the beat that a registration of `id` would rest on. */
  ghost predicate Standing(grace: real, h: seq<Event>, id: VmId, i: nat) {
    i < |h| && IsBeat(h[i], id) && forall j :: i < j < |h| ==> Quiet(h[j], id, h[i].at, grace)
  }

  lemma StandingSnoc(grace: real, h: seq<Event>, e: Event, id: VmId, i: nat)
    requires i < |h|
    ensures Standing(grace, h + [e], id, i) <==> Standing(grace, h, id, i) && Quiet(e, id, h[i].at, grace)
  {
    var all := h + [e];
    assert all[|h|] == e;
    assert forall j :: 0 <= j < |h| ==> all[j] == h[j];
  }

  lemma RunSnoc(names: Names, grace: real, h: seq<Event>, e: Event)
    ensures Run(names, grace, h + [e]) == Step(names, grace, Run(names, grace, h), e)
  {
    assert (h + [e])[..|h|] == h;
  }

  /** The registry is a function of the message history: a machine is registered exactly when it is known and its
      latest HELLO or STILL_ALIVE came after its latest BYE or collection, and its beacon is the time of that message.
      */
  lemma {:induction false} RegisteredIff(names: Names, grace: real, h: seq<Event>, id: VmId)
    requires grace >= 0.0
    ensures id in Run(names, grace, h) <==> Known(names, id) && exists i: nat :: Standing(grace, h, id, i)
    ensures id in Run(names, grace, h) ==>
              var rec := Run(names, grace, h)[id];
              rec.id == id && NameOf(names, id) == Some(rec.name)
              && forall i: nat :: Standing(grace, h, id, i) ==> rec.beacon == h[i].at
  {
    if h != [] {
      var front, e := h[..|h| - 1], h[|h| - 1];
      assert h == front + [e];
      RegisteredIff(names, grace, front, id);
      RunSnoc(names, grace, front, e);
      hide Run;
      forall i | 0 <= i < |front|
        ensures Standing(grace, h, id, i) <==> Standing(grace, front, id, i) && Quiet(e, id, front[i].at, grace)
      {
        StandingSnoc(grace, front, e, id, i);
      }
      if IsBeat(e, id) {
        assert Standing(grace, h, id, |front|);
      }
    }
  }

  /** Event `a` is one on which the host adds `id`: a HELLO, or a beacon from a machine it does not have. */
  predicate Joins(names: Names, grace: real, h: seq<Event>, id: VmId, a: nat) {
    a < |h| && IsBeat(h[a], id) && Known(names, id) && (h[a].Hello? || id !in Run(names, grace, h[..a]))
  }

  ghost predicate LastJoin(names: Names, grace: real, h: seq<Event>, id: VmId, a: nat) {
    Joins(names, grace, h, id, a) && forall b: nat :: a < b ==> !Joins(names, grace, h, id, b)
  }

  lemma JoinsSnoc(names: Names, grace: real, h: seq<Event>, e: Event, id: VmId, a: nat)
    ensures a < |h| ==> (Joins(names, grace, h + [e], id, a) <==> Joins(names, grace, h, id, a))
    ensures a > |h| ==> !Joins(names, grace, h + [e], id, a)
    ensures a == |h| && Joins(names, grace, h + [e], id, a) ==>
              IsBeat(e, id) && Known(names, id) && (e.Hello? || id !in Run(names, grace, h))
    ensures a == |h| && IsBeat(e, id) && Known(names, id) && (e.Hello? || id !in Run(names, grace, h)) ==>
              Joins(names, grace, h + [e], id, a)
  {
    var all := h + [e];
    assert a < |h| ==> all[..a] == h[..a] && all[a] == h[a];
    assert all[..|h|] == h && all[|h|] == e;
  }

  /** The address on record is the one in the message that last made the host add the machine. */
  lemma {:induction false} AddressFromLastJoin(names: Names, grace: real, h: seq<Event>, id: VmId) returns (a: nat)
    requires id in Run(names, grace, h)
    ensures LastJoin(names, grace, h, id, a) && Run(names, grace, h)[id].ip == h[a].ip
  {
    var front, e := h[..|h| - 1], h[|h| - 1];
    assert h == front + [e];
    RunSnoc(names, grace, front, e);
    JoinsSnoc(names, grace, front, e, id, |front|);
    if Joins(names, grace, h, id, |front|) {
      a := |front|;
    } else {
      a := AddressFromLastJoin(names, grace, front, id);
      JoinsSnoc(names, grace, front, e, id, a);
    }
    forall b: nat | a < b
      ensures !Joins(names, grace, h, id, b)
    {
      JoinsSnoc(names, grace, front, e, id, b);
    }
  }

  predicate InOrder(h: seq<Event>) {
    forall i, j :: 0 <= i < j < |h| ==> h[i].at <= h[j].at
  }

  /** A beacon is never in the future. */
  lemma BeaconNotInFuture(names: Names, grace: real, h: seq<Event>, id: VmId, now: real)
    requires grace >= 0.0 && InOrder(h) && (h != [] ==> h[|h| - 1].at <= now)
    requires id in Run(names, grace, h)
    ensures Run(names, grace, h)[id].beacon <= now
  {
    RegisteredIff(names, grace, h, id);
    var i: nat :| Standing(grace, h, id, i);
  }

  // ---- Liveness ----

  predicate NoBye(h: seq<Event>, id: VmId) {
    forall j :: 0 <= j < |h| && h[j].Bye? ==> h[j].id != id
  }

  /** `i` and `k` are successive beats of `id`. */
  predicate Successive(h: seq<Event>, id: VmId, i: nat, k: nat) {
    i < k < |h| && IsBeat(h[i], id) && IsBeat(h[k], id) && forall j :: i < j < k ==> !IsBeat(h[j], id)
  }

  /** Successive beats are at most one and a half grace periods apart. */
  ghost predicate Steady(grace: real, h: seq<Event>, id: VmId) {
    forall i: nat, k: nat :: Successive(h, id, i, k) ==> h[k].at - h[i].at <= 1.5 * grace
  }

  lemma {:induction false} LastBeatBefore(h: seq<Event>, id: VmId, first: nat, m: nat) returns (i: nat)
    requires first < m <= |h| && IsBeat(h[first], id)
    ensures first <= i < m && IsBeat(h[i], id) && forall j :: i < j < m ==> !IsBeat(h[j], id)
  {
    if IsBeat(h[m - 1], id) {
      i := m - 1;
    } else {
      i := LastBeatBefore(h, id, first, m - 1);
    }
  }

  lemma {:induction false} NextBeatFrom(h: seq<Event>, id: VmId, m: nat, last: nat) returns (k: nat)
    requires m <= last < |h| && IsBeat(h[last], id)
    ensures m <= k <= last && IsBeat(h[k], id) && forall j :: m <= j < k ==> !IsBeat(h[j], id)
    decreases last - m
  {
    if IsBeat(h[m], id) {
      k := m;
    } else {
      k := NextBeatFrom(h, id, m + 1, last);
    }
  }

  /** A known machine that beats steadily and never says BYE is registered at every moment from its first beat to its
      last one, however many collections happen in between. */
  lemma SteadyNeverCollected(names: Names, grace: real, h: seq<Event>, id: VmId, first: nat, last: nat, m: nat)
    requires grace >= 0.0 && InOrder(h) && NoBye(h, id) && Known(names, id) && Steady(grace, h, id)
    requires first < m <= last + 1 <= |h| && IsBeat(h[first], id) && IsBeat(h[last], id)
    ensures id in Run(names, grace, h[..m])
  {
    var i := LastBeatBefore(h, id, first, m);
    forall j | i < j < m
      ensures Quiet(h[j], id, h[i].at, grace)
    {
      var k := NextBeatFrom(h, id, m, last);
      assert Successive(h, id, i, k);
    }
    assert Standing(grace, h[..m], id, i);
    RegisteredIff(names, grace, h[..m], id);
  }

  // ---- Machines that send regularly over a network with bounded delay ----

  /** Beats are sent at most `p` apart, and each of them, and nothing else, is a beat that arrives no more than `d`
      later: the `m`-th is event `arrivals[m]`. They may overtake one another. */
  ghost predicate Punctual(h: seq<Event>, id: VmId, sent: seq<real>, arrivals: seq<nat>, p: real, d: real) {
    && |sent| == |arrivals|
    && (forall m, n :: 0 <= m <= n < |sent| ==> sent[m] <= sent[n])
    && (forall m :: 0 <= m < |sent| - 1 ==> sent[m + 1] <= sent[m] + p)
    && (forall m :: 0 <= m < |sent| ==>
          arrivals[m] < |h| && IsBeat(h[arrivals[m]], id) && sent[m] <= h[arrivals[m]].at <= sent[m] + d)
    && (forall k :: 0 <= k < |h| && IsBeat(h[k], id) ==> k in arrivals)
  }

  /** Between one that has arrived by event `i` and a later one that has not, there are two in a row. */
  lemma {:induction false} LastArrivedBy(arrivals: seq<nat>, i: nat, m: nat, n: nat) returns (r: nat)
    requires m < n < |arrivals| && arrivals[m] <= i < arrivals[n]
    ensures m <= r < n && arrivals[r] <= i < arrivals[r + 1]
    decreases n - m
  {
    if arrivals[m + 1] > i {
      r := m;
    } else {
      r := LastArrivedBy(arrivals, i, m + 1, n);
    }
  }

  lemma GapIsBounded(h: seq<Event>, id: VmId, sent: seq<real>, arrivals: seq<nat>, p: real, d: real, i: nat, k: nat)
    requires InOrder(h) && Punctual(h, id, sent, arrivals, p, d) && Successive(h, id, i, k) && p >= 0.0
    ensures h[k].at - h[i].at <= p + d
  {
    var m :| 0 <= m < |arrivals| && arrivals[m] == i;
    var n :| 0 <= n < |arrivals| && arrivals[n] == k;
    if m < n {
      var r := LastArrivedBy(arrivals, i, m, n);
      assert arrivals[r + 1] >= k;
      assert h[k].at <= h[arrivals[r + 1]].at && h[arrivals[r]].at <= h[i].at;
      assert sent[r + 1] <= sent[r] + p;
    } else {
      assert sent[n] <= sent[m];
    }
  }

  /** A machine that sends a beat every `p`, over a network that delivers each within `d`, beats steadily as the host
      sees it, if both together are at most one and a half grace periods. */
  lemma PunctualIsSteady(grace: real, h: seq<Event>, id: VmId, sent: seq<real>, arrivals: seq<nat>, p: real, d: real)
    requires InOrder(h) && Punctual(h, id, sent, arrivals, p, d) && p >= 0.0 && p + d <= 1.5 * grace
    ensures Steady(grace, h, id)
  {
    forall i: nat, k: nat | Successive(h, id, i, k)
      ensures h[k].at - h[i].at <= 1.5 * grace
    {
      GapIsBounded(h, id, sent, arrivals, p, d, i, k);
    }
  }

  /** The time of the last collection before event `j`, or of the start of the timer. */
  function LastTick(h: seq<Event>, j: nat, start: real): real
    requires j <= |h|
  {
    if j == 0 then start
    else if h[j - 1].Tick? then h[j - 1].at
    else LastTick(h, j - 1, start)
  }

  lemma {:induction false} LastTickAt(h: seq<Event>, j: nat, start: real)
    requires j <= |h|
    ensures LastTick(h, j, start) == start || exists k :: 0 <= k < j && h[k].Tick? && h[k].at == LastTick(h, j, start)
  {
    if j > 0 && !h[j - 1].Tick? { LastTickAt(h, j - 1, start); }
  }

  /** Collections happen every `grace`: whenever something happens, the last one was no longer ago. */
  ghost predicate Ticking(grace: real, h: seq<Event>, start: real) {
    forall j :: 0 <= j < |h| ==> h[j].at - LastTick(h, j, start) <= grace
  }

  /** The collection that finds the machine too old. */
  lemma LateTick(grace: real, h: seq<Event>, b: real, start: real) returns (k: nat)
    requires InOrder(h) && Ticking(grace, h, start) && h != []
    requires start <= b && h[|h| - 1].at > b + 2.5 * grace && grace >= 0.0
    ensures k < |h| && h[k].Tick? && h[k].at > b + 1.5 * grace
  {
    var n := |h| - 1;
    assert h[n].at - LastTick(h, n, start) <= grace;
    LastTickAt(h, n, start);
    k :| 0 <= k < n && h[k].Tick? && h[k].at == LastTick(h, n, start);
  }

  lemma NoneStanding(grace: real, h: seq<Event>, id: VmId, i: nat, k: nat, s: nat)
    requires i < k < |h| && IsBeat(h[i], id) && h[k].Tick? && h[k].at > h[i].at + 1.5 * grace
    requires forall j :: i < j < |h| ==> !IsBeat(h[j], id)
    ensures !Standing(grace, h, id, s)
  {
    if s < i {
      assert !Quiet(h[i], id, h[s].at, grace);
    } else if s == i {
      assert !Quiet(h[k], id, h[s].at, grace);
    }
  }

  /** A machine that falls silent is gone once more than two and a half grace periods have passed since its last beat.
      */
  lemma SilentIsGone(names: Names, grace: real, h: seq<Event>, id: VmId, i: nat, start: real)
    requires grace >= 0.0 && InOrder(h) && Ticking(grace, h, start)
    requires i < |h| && IsBeat(h[i], id) && start <= h[i].at && forall j :: i < j < |h| ==> !IsBeat(h[j], id)
    requires h[|h| - 1].at > h[i].at + 2.5 * grace
    ensures id !in Run(names, grace, h)
  {
    hide Run, Standing, Quiet, Ticking;
    var k := LateTick(grace, h, h[i].at, start);
    assert i < k;
    hide *;
    forall s: nat
      ensures !Standing(grace, h, id, s)
    {
      NoneStanding(grace, h, id, i, k, s);
    }
    RegisteredIff(names, grace, h, id);
  }

  /** Each collection leaves exactly the machines that were heard from within one and a half grace periods. */
  lemma CollectLeaves(r: Roster, now: real, grace: real, id: VmId)
    requires grace >= 0.0
    ensures id in Collect(r, now, grace) <==> id in r && now - r[id].beacon <= 1.5 * grace
    ensures id in Collect(r, now, grace) ==> Collect(r, now, grace)[id] == r[id]
  {
  }
}
