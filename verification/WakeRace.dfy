/**
 Concurrent wakes of one tenant, without a lock of their own. A call is cut at
 its awaits: the Docker calls between two awaits run in one piece because they
 block the one API process; a row update holds the row's database lock until
 its transaction ends; and the insert of the tenant's data key waits for another
 pending insert of it and fails once a key is committed. Any number of calls
 interleave, any of them may fail at any await, and a start may also fail half
 way through its Docker calls.
 */
module WakeRace {
  import opened Prelude
  import opened Naming
  import opened Docker
  import opened Envelope
  import opened Database
  import opened Provider
  import opened Tenants
  import opened Lifecycle

  datatype Kind = Touching | Waking | Starting

  /** `mine` marks a call whose transaction has inserted the data key. */
  datatype Call =
    | Idle
    | Checked(kind: Kind)
    | NoKey
    | Ready(mine: bool)
    | Launched(id: nat, mine: bool)
    | Holding(kind: Kind, pending: TenantRow, answer: Option<nat>, mine: bool)
    | Returned(kind: Kind, answer: Option<nat>)
    | Failed(torn: bool)

  /** The committed row, whether a data key is committed, the host, the row lock's holder, and every call's progress. */
  datatype Race = Race(row: TenantRow, keyed: bool, host: Host, lock: Option<nat>, calls: seq<Call>)

  datatype Step =
    | Check(p: nat)
    | LookKey(p: nat)
    | InsertKey(p: nat)
    | Launch(p: nat, env: map<string, string>)
    | HalfLaunch(p: nat, env: map<string, string>, half: Half)
    | Update(p: nat, now: int)
    | Commit(p: nat)
    | Fail(p: nat)

  predicate Inserted(c: Call) {
    (c.Ready? || c.Launched? || c.Holding?) && c.mine
  }

  /** Another call's transaction holds an uncommitted data key. */
  predicate KeyBlocked(s: Race, p: nat) {
    exists q :: 0 <= q < |s.calls| && q != p && Inserted(s.calls[q])
  }

  predicate Unfinished(c: Call) {
    !c.Returned? && !c.Failed?
  }

  predicate Enabled(s: Race, step: Step) {
    && step.p < |s.calls|
    && match step
       case Check(p) => s.calls[p].Idle?
       case LookKey(p) => s.calls[p] == Checked(Starting)
       case InsertKey(p) => s.calls[p].NoKey? && !KeyBlocked(s, p)
       case Launch(p, _) => s.calls[p].Ready?
       case HalfLaunch(p, _, _) => s.calls[p].Ready?
       case Update(p, _) => s.lock.None? && (s.calls[p] in {Checked(Touching), Checked(Waking)} || s.calls[p].Launched?)
       case Commit(p) => s.calls[p].Holding? && s.lock == Some(p)
       case Fail(p) => Unfinished(s.calls[p])
  }

  /** A call that has made the container run and not yet committed its row. */
  predicate Effectful(c: Call) {
    c == Checked(Waking) || c.Launched? || (c.Holding? && c.kind != Touching)
  }

  function Set(s: Race, p: nat, c: Call): Race
    requires p < |s.calls|
  {
    s.(calls := s.calls[p := c])
  }

  function Take(t: Uuid, s: Race, step: Step): Race
    requires Enabled(s, step)
  {
    match step
    case Check(p) =>
      (match StateOf(s.host, t)
       case StateRunning => Set(s, p, Checked(Touching))
       case StatePaused => Set(s.(host := Unpaused(s.host, t)), p, Checked(Waking))
       case _ => Set(s, p, Checked(Starting)))
    case LookKey(p) => Set(s, p, if s.keyed then Ready(false) else NoKey)
    case InsertKey(p) => Set(s, p, if s.keyed then Failed(false) else Ready(true))
    case Launch(p, env) =>
      var host := Started(s.host, t, env);
      Set(s.(host := host), p, Launched(host.containers[ContainerName(t)].id, s.calls[p].mine))
    case HalfLaunch(p, env, half) => Set(s.(host := HalfStarted(s.host, t, env, half)), p, Failed(false))
    case Update(p, now) =>
      var locked := s.(lock := Some(p));
      (match s.calls[p]
       case Launched(id, mine) => Set(locked, p, Holding(Starting, RowRunning(s.row, id, now), Some(id), mine))
       case Checked(Waking) => Set(locked, p, Holding(Waking, RowWoken(s.row, now), s.row.containerId, false))
       case _ => Set(locked, p, Holding(Touching, RowTouched(s.row, now), s.row.containerId, false)))
    case Commit(p) =>
      var c := s.calls[p];
      Set(s.(row := c.pending, keyed := s.keyed || c.mine, lock := None), p, Returned(c.kind, c.answer))
    case Fail(p) =>
      Set(s.(lock := if s.lock == Some(p) then None else s.lock), p, Failed(Effectful(s.calls[p])))
  }

  predicate Legal(t: Uuid, s: Race, steps: seq<Step>)
    decreases |steps|
  {
    steps != [] ==> Enabled(s, steps[0]) && Legal(t, Take(t, s, steps[0]), steps[1..])
  }

  function Run(t: Uuid, s: Race, steps: seq<Step>): Race
    requires Legal(t, s, steps)
    decreases |steps|
  {
    if steps == [] then s else Run(t, Take(t, s, steps[0]), steps[1..])
  }

  /** A tenant in step, and calls that have not begun. */
  ghost predicate Start(t: Uuid, s: Race) {
    && Agrees(t, s)
    && s.lock.None?
    && forall p :: 0 <= p < |s.calls| ==> s.calls[p].Idle?
  }

  ghost predicate Agrees(t: Uuid, s: Race) {
    && ContainerAgrees(s.row, Lookup(s.host.containers, ContainerName(t)))
    && NetworkAgrees(s.row, Lookup(s.host.networks, NetworkName(t)))
  }

  // --- The invariant of every interleaving ---

  predicate Up(t: Uuid, host: Host) {
    ContainerName(t) in host.containers && host.containers[ContainerName(t)].status == Running
  }

  /** The id of the running container. */
  function TheId(t: Uuid, host: Host): Option<nat> {
    if Up(t, host) then Some(host.containers[ContainerName(t)].id) else None
  }

  /** The container is the one of the start, perhaps running now; or there was none, and there may be a new one. */
  ghost predicate HostInv(t: Uuid, s0: Race, host: Host) {
    var name := ContainerName(t);
    && host.networks == s0.host.networks
    && (forall n :: n != name ==> SameAt(s0.host.containers, host.containers, n))
    && if name in s0.host.containers
       then
         && name in host.containers
         && host.containers[name] in {s0.host.containers[name], s0.host.containers[name].(status := Running)}
       else name in host.containers ==> host.containers[name].status in {Created, Running}
  }

  predicate RowSet(t: Uuid, host: Host, row: TenantRow) {
    Up(t, host) && row.status == RUNNING && row.containerId == TheId(t, host)
  }

  predicate SameButActivity(a: TenantRow, b: TenantRow) {
    b == a.(lastActivity := b.lastActivity)
  }

  ghost predicate RowInv(t: Uuid, s0: Race, host: Host, row: TenantRow) {
    && (SameButActivity(s0.row, row) || RowSet(t, host, row))
    && row.networkId == s0.row.networkId
  }

  ghost predicate CallInv(t: Uuid, s0: Race, s: Race, p: nat)
    requires p < |s.calls|
  {
    match s.calls[p]
    case Idle => true
    case Checked(Touching) => Up(t, s.host)
    case Checked(Waking) => Up(t, s.host) && s0.row.containerId == TheId(t, s.host)
    case Checked(Starting) => ContainerName(t) !in s0.host.containers
    case NoKey => ContainerName(t) !in s0.host.containers
    case Ready(_) => ContainerName(t) !in s0.host.containers
    case Launched(id, _) => Up(t, s.host) && Some(id) == TheId(t, s.host)
    case Holding(kind, pending, answer, _) =>
      && s.lock == Some(p)
      && Up(t, s.host)
      && pending.networkId == s0.row.networkId
      && answer in {None, TheId(t, s.host)}
      && if kind == Touching then SameButActivity(s.row, pending) else RowSet(t, s.host, pending)
    case Returned(kind, answer) =>
      && Up(t, s.host)
      && answer in {None, TheId(t, s.host)}
      && (kind != Touching ==> s.row.status == RUNNING)
    case Failed(_) => true
  }

  /** Some call has committed a row it changed. */
  ghost predicate Settled(s: Race) {
    exists p :: 0 <= p < |s.calls| && s.calls[p].Returned? && s.calls[p].kind != Touching
  }

  predicate Stirring(c: Call) {
    Effectful(c) || c == Failed(true) || (c.Returned? && c.kind != Touching)
  }

  /** Some call has made the container run: it is still on its way, has committed, or has failed after doing so. */
  ghost predicate Stirred(s: Race) {
    exists p :: 0 <= p < |s.calls| && Stirring(s.calls[p])
  }

  ghost predicate RaceInv(t: Uuid, s0: Race, s: Race) {
    && HostInv(t, s0, s.host)
    && RowInv(t, s0, s.host, s.row)
    && |s.calls| == |s0.calls|
    && (forall p :: 0 <= p < |s.calls| ==> CallInv(t, s0, s, p))
    && (s.lock.Some? ==> s.lock.value < |s.calls| && s.calls[s.lock.value].Holding?)
    && (s.row.status == RUNNING <==> s0.row.status == RUNNING || Settled(s))
    && (Up(t, s.host) && s0.row.status != RUNNING ==> Stirred(s))
  }

  lemma StartHolds(t: Uuid, s0: Race)
    requires Start(t, s0)
    ensures RaceInv(t, s0, s0)
  {
  }

  /** A running container keeps running unchanged, whatever step is taken. */
  lemma UpStays(t: Uuid, s: Race, step: Step)
    requires Up(t, s.host) && Enabled(s, step)
    ensures Up(t, Take(t, s, step).host)
    ensures Take(t, s, step).host.containers == s.host.containers
    ensures Take(t, s, step).host.next == s.host.next
  {
    var name, host := ContainerName(t), s.host;
    assert host.containers[name].(status := Running) == host.containers[name];
    assert host.containers[name := host.containers[name]] == host.containers;
  }

  /** A call's claims outlive every step that keeps the running container and the row's status. */
  lemma OthersClaims(t: Uuid, s0: Race, s: Race, s': Race, q: nat)
    requires q < |s.calls| == |s'.calls| && s'.calls[q] == s.calls[q] && CallInv(t, s0, s, q)
    requires Up(t, s.host) ==> Up(t, s'.host) && TheId(t, s'.host) == TheId(t, s.host)
    requires s.calls[q].Holding? ==> s'.lock == s.lock && s'.row == s.row
    requires s.row.status == RUNNING ==> s'.row.status == RUNNING
    ensures CallInv(t, s0, s', q)
  {
  }

  /** A call that has not finished takes nothing away from the others. */
  lemma OneCallMoves(s: Race, s': Race, p: nat)
    requires p < |s.calls| == |s'.calls| && s'.calls == s.calls[p := s'.calls[p]]
    requires Unfinished(s.calls[p])
    ensures Settled(s) ==> Settled(s')
    ensures Settled(s') ==> Settled(s) || (s'.calls[p].Returned? && s'.calls[p].kind != Touching)
    ensures Stirred(s) && !Effectful(s.calls[p]) ==> Stirred(s')
  {
    if Settled(s) {
      var q :| 0 <= q < |s.calls| && s.calls[q].Returned? && s.calls[q].kind != Touching;
      assert s'.calls[q] == s.calls[q];
    }
    if Settled(s') && !(s'.calls[p].Returned? && s'.calls[p].kind != Touching) {
      var q :| 0 <= q < |s'.calls| && s'.calls[q].Returned? && s'.calls[q].kind != Touching;
      assert s'.calls[q] == s.calls[q];
    }
    if Stirred(s) && !Effectful(s.calls[p]) {
      var q :| 0 <= q < |s.calls| && Stirring(s.calls[q]);
      assert s'.calls[q] == s.calls[q];
    }
  }

  lemma CheckKeeps(t: Uuid, s0: Race, s: Race, step: Step)
    requires Start(t, s0) && RaceInv(t, s0, s) && Enabled(s, step) && step.Check?
    ensures RaceInv(t, s0, Take(t, s, step))
  {
    hide OnlyTouches;
    var s' := Take(t, s, step);
    if Up(t, s.host) {
      UpStays(t, s, step);
    }
    assert HostInv(t, s0, s'.host) by {
      forall n | n != ContainerName(t) ensures SameAt(s0.host.containers, s'.host.containers, n) {
        assert SameAt(s0.host.containers, s.host.containers, n);
      }
    }
    forall q | 0 <= q < |s'.calls| && q != step.p ensures CallInv(t, s0, s', q) {
      OthersClaims(t, s0, s, s', q);
    }
    OneCallMoves(s, s', step.p);
    if StateOf(s.host, t) == StatePaused {
      assert Stirring(s'.calls[step.p]);
    }
  }

  lemma KeyKeeps(t: Uuid, s0: Race, s: Race, step: Step)
    requires Start(t, s0) && RaceInv(t, s0, s) && Enabled(s, step) && (step.LookKey? || step.InsertKey?)
    ensures RaceInv(t, s0, Take(t, s, step))
  {
    hide Agrees, KeyBlocked;
    var s' := Take(t, s, step);
    assert CallInv(t, s0, s, step.p);
    forall q | 0 <= q < |s'.calls| && q != step.p ensures CallInv(t, s0, s', q) {
      OthersClaims(t, s0, s, s', q);
    }
    OneCallMoves(s, s', step.p);
  }

  /** The first completed launch makes the container run; every later one finds it running and keeps it. */
  lemma LaunchKeepsHost(t: Uuid, s0: Race, s: Race, env: map<string, string>)
    requires Start(t, s0) && HostInv(t, s0, s.host) && ContainerName(t) !in s0.host.containers
    ensures HostInv(t, s0, Started(s.host, t, env)) && Up(t, Started(s.host, t, env))
  {
    var after := Started(s.host, t, env);
    forall n | n != ContainerName(t) ensures SameAt(s0.host.containers, after.containers, n) {
      assert SameAt(s0.host.containers, s.host.containers, n);
    }
  }

  /** A launch that fails half way leaves no container or one that has never run. */
  lemma HalfKeepsHost(t: Uuid, s0: Race, s: Race, env: map<string, string>, half: Half)
    requires Start(t, s0) && HostInv(t, s0, s.host) && ContainerName(t) !in s0.host.containers
    ensures HostInv(t, s0, HalfStarted(s.host, t, env, half))
    ensures Up(t, HalfStarted(s.host, t, env, half)) <==> Up(t, s.host)
  {
    var after := HalfStarted(s.host, t, env, half);
    forall n | n != ContainerName(t) ensures SameAt(s0.host.containers, after.containers, n) {
      assert SameAt(s0.host.containers, s.host.containers, n);
    }
  }

  lemma LaunchKeeps(t: Uuid, s0: Race, s: Race, step: Step)
    requires Start(t, s0) && RaceInv(t, s0, s) && Enabled(s, step) && (step.Launch? || step.HalfLaunch?)
    ensures RaceInv(t, s0, Take(t, s, step))
  {
    hide Started, HalfStarted, Agrees, HostInv;
    assert CallInv(t, s0, s, step.p);
    LaunchKeepsHost(t, s0, s, step.env);
    if step.HalfLaunch? {
      HalfKeepsHost(t, s0, s, step.env, step.half);
    }
    if Up(t, s.host) {
      UpStays(t, s, step);
    }
    var s' := Take(t, s, step);
    forall q | 0 <= q < |s'.calls| && q != step.p ensures CallInv(t, s0, s', q) {
      OthersClaims(t, s0, s, s', q);
    }
    OneCallMoves(s, s', step.p);
    assert step.Launch? ==> Stirring(s'.calls[step.p]);
  }

  /** What the row of a start records is the container it has. */
  lemma StartsIdled(t: Uuid, s0: Race)
    requires Start(t, s0)
    ensures s0.row.containerId == TheStart(t, s0)
    ensures forall host :: HostInv(t, s0, host) && Up(t, host) ==> TheStart(t, s0) in {None, TheId(t, host)}
  {
  }

  /** The id of the container there was at the start. */
  function TheStart(t: Uuid, s0: Race): Option<nat> {
    if ContainerName(t) in s0.host.containers then Some(s0.host.containers[ContainerName(t)].id) else None
  }

  lemma UpdateClaim(t: Uuid, s0: Race, s: Race, step: Step)
    requires Start(t, s0) && HostInv(t, s0, s.host) && RowInv(t, s0, s.host, s.row)
    requires Enabled(s, step) && step.Update? && CallInv(t, s0, s, step.p)
    ensures CallInv(t, s0, Take(t, s, step), step.p)
  {
    StartsIdled(t, s0);
    hide HostInv, Start;
  }

  lemma UpdateKeeps(t: Uuid, s0: Race, s: Race, step: Step)
    requires Start(t, s0) && RaceInv(t, s0, s) && Enabled(s, step) && step.Update?
    ensures RaceInv(t, s0, Take(t, s, step))
  {
    hide HostInv, Start, RowInv, CallInv;
    var s' := Take(t, s, step);
    assert CallInv(t, s0, s, step.p);
    UpdateClaim(t, s0, s, step);
    forall q | 0 <= q < |s'.calls| && q != step.p ensures CallInv(t, s0, s', q) {
      NoHolder(t, s0, s, q);
      OthersClaims(t, s0, s, s', q);
    }
    OneCallMoves(s, s', step.p);
    assert Effectful(s.calls[step.p]) ==> Stirring(s'.calls[step.p]);
  }

  lemma NoHolder(t: Uuid, s0: Race, s: Race, q: nat)
    requires q < |s.calls| && CallInv(t, s0, s, q) && s.lock.None?
    ensures !s.calls[q].Holding?
  {
  }

  lemma CommitKeeps(t: Uuid, s0: Race, s: Race, step: Step)
    requires Start(t, s0) && RaceInv(t, s0, s) && Enabled(s, step) && step.Commit?
    ensures RaceInv(t, s0, Take(t, s, step))
  {
    hide Agrees;
    var s' := Take(t, s, step);
    assert CallInv(t, s0, s, step.p);
    forall q | 0 <= q < |s'.calls| && q != step.p ensures CallInv(t, s0, s', q) {
      assert CallInv(t, s0, s, q);
      OthersClaims(t, s0, s, s', q);
    }
    OneCallMoves(s, s', step.p);
    if s.calls[step.p].kind != Touching {
      assert Stirring(s'.calls[step.p]);
    }
  }

  lemma FailKeeps(t: Uuid, s0: Race, s: Race, step: Step)
    requires Start(t, s0) && RaceInv(t, s0, s) && Enabled(s, step) && step.Fail?
    ensures RaceInv(t, s0, Take(t, s, step))
  {
    hide Agrees;
    var s' := Take(t, s, step);
    forall q | 0 <= q < |s'.calls| && q != step.p ensures CallInv(t, s0, s', q) {
      assert CallInv(t, s0, s, q);
      OthersClaims(t, s0, s, s', q);
    }
    OneCallMoves(s, s', step.p);
    assert Effectful(s.calls[step.p]) ==> Stirring(s'.calls[step.p]);
  }

  lemma StepKeeps(t: Uuid, s0: Race, s: Race, step: Step)
    requires Start(t, s0) && RaceInv(t, s0, s) && Enabled(s, step)
    ensures RaceInv(t, s0, Take(t, s, step))
  {
    hide RaceInv, Take;
    match step
    case Check(_) => CheckKeeps(t, s0, s, step);
    case LookKey(_) => KeyKeeps(t, s0, s, step);
    case InsertKey(_) => KeyKeeps(t, s0, s, step);
    case Launch(_, _) => LaunchKeeps(t, s0, s, step);
    case HalfLaunch(_, _, _) => LaunchKeeps(t, s0, s, step);
    case Update(_, _) => UpdateKeeps(t, s0, s, step);
    case Commit(_) => CommitKeeps(t, s0, s, step);
    case Fail(_) => FailKeeps(t, s0, s, step);
  }

  lemma {:induction false} RunKeeps(t: Uuid, s0: Race, s: Race, steps: seq<Step>)
    requires Start(t, s0) && RaceInv(t, s0, s) && Legal(t, s, steps)
    ensures RaceInv(t, s0, Run(t, s, steps))
    decreases |steps|
  {
    hide RaceInv, Take, Start, Enabled;
    if steps != [] {
      StepKeeps(t, s0, s, steps[0]);
      RunKeeps(t, s0, Take(t, s, steps[0]), steps[1..]);
    }
  }

  // --- At most one container runs ---

  function HalfLaunches(steps: seq<Step>): nat
    decreases |steps|
  {
    if steps == [] then 0 else HalfLaunches(steps[1..]) + if steps[0].HalfLaunch? then 1 else 0
  }

  lemma {:induction false} UpForGood(t: Uuid, s: Race, steps: seq<Step>)
    requires Up(t, s.host) && Legal(t, s, steps)
    ensures Run(t, s, steps).host.containers == s.host.containers
    decreases |steps|
  {
    hide Take, Enabled;
    if steps != [] {
      UpStays(t, s, steps[0]);
      UpForGood(t, Take(t, s, steps[0]), steps[1..]);
    }
  }

  /** A step draws an id only to run the container, once, or to leave a husk behind. */
  lemma StepDraws(t: Uuid, s: Race, step: Step)
    requires NetworkName(t) in s.host.networks && Enabled(s, step)
    ensures NetworkName(t) in Take(t, s, step).host.networks
    ensures
      var s' := Take(t, s, step);
      s'.host.next <= s.host.next
        + (if step.HalfLaunch? then 1 else 0) + (if Up(t, s'.host) && !Up(t, s.host) then 1 else 0)
  {
    if Up(t, s.host) {
      UpStays(t, s, step);
    }
  }

  lemma {:induction false} RunDraws(t: Uuid, s: Race, steps: seq<Step>)
    requires NetworkName(t) in s.host.networks && Legal(t, s, steps)
    ensures Run(t, s, steps).host.next <= s.host.next + HalfLaunches(steps) + (if Up(t, s.host) then 0 else 1)
    decreases |steps|
  {
    hide Take, Enabled;
    if steps != [] {
      StepDraws(t, s, steps[0]);
      if Up(t, s.host) {
        UpStays(t, s, steps[0]);
      }
      RunDraws(t, Take(t, s, steps[0]), steps[1..]);
    }
  }

  /**
   However calls interleave and fail, at most one container ever runs: once one
   does, it stays, unchanged, to the end; every call that returns gives its id
   or the empty string; and apart from what half-failed starts leave behind, at
   most one container is created.
   */
  lemma AtMostOneRuns(t: Uuid, s0: Race, before: seq<Step>, after: seq<Step>)
    requires Start(t, s0) && Legal(t, s0, before) && Legal(t, Run(t, s0, before), after)
    ensures
      var mid := Run(t, s0, before);
      var end := Run(t, mid, after);
      && (Up(t, mid.host) ==> end.host.containers == mid.host.containers)
      && (forall p :: 0 <= p < |mid.calls| && mid.calls[p].Returned? ==>
            Up(t, mid.host) && mid.calls[p].answer in {None, TheId(t, mid.host)})
      && mid.host.networks == s0.host.networks
      && mid.host.next <= s0.host.next + 1 + HalfLaunches(before)
  {
    StartHolds(t, s0);
    RunKeeps(t, s0, s0, before);
    RunDraws(t, s0, before);
    var mid := Run(t, s0, before);
    if Up(t, mid.host) {
      UpForGood(t, mid, after);
    }
    forall p | 0 <= p < |mid.calls| && mid.calls[p].Returned?
      ensures Up(t, mid.host) && mid.calls[p].answer in {None, TheId(t, mid.host)}
    {
      assert CallInv(t, s0, mid, p);
    }
  }

  // --- Where several containers may be created ---

  /** The promise: no more than one container is ever created. */
  ghost predicate CreatesAtMostOne(t: Uuid, s0: Race) {
    forall steps {:trigger Legal(t, s0, steps)} ::
      Legal(t, s0, steps) ==> Run(t, s0, steps).host.next <= s0.host.next + 1
  }

  /** Exactly when it is kept: there is a container already, or no second call. */
  lemma CreatesExactly(t: Uuid, s0: Race)
    requires Start(t, s0)
    ensures CreatesAtMostOne(t, s0) <==> ContainerName(t) in s0.host.containers || |s0.calls| <= 1
  {
    if ContainerName(t) in s0.host.containers || |s0.calls| <= 1 {
      forall steps | Legal(t, s0, steps) ensures Run(t, s0, steps).host.next <= s0.host.next + 1 {
        StartHolds(t, s0);
        if |s0.calls| <= 1 {
          LoneCallDraws(t, s0, steps);
        } else {
          NothingDrawn(t, s0, s0, steps);
        }
      }
    } else {
      TwoCreated(t, s0);
    }
  }

  /** A call that will not start a container any more. */
  predicate PastStart(c: Call) {
    c in {Checked(Touching), Checked(Waking)} || c.Launched? || c.Holding? || c.Returned? || c.Failed?
  }

  lemma LoneStepDraws(t: Uuid, s: Race, step: Step)
    requires NetworkName(t) in s.host.networks && |s.calls| == 1 && Enabled(s, step)
    ensures
      var s' := Take(t, s, step);
      && NetworkName(t) in s'.host.networks && |s'.calls| == 1
      && (PastStart(s.calls[0]) ==> PastStart(s'.calls[0]) && s'.host.next == s.host.next)
      && s'.host.next <= s.host.next + (if PastStart(s'.calls[0]) then 1 else 0)
  {
    hide Started, HalfStarted, StateOf;
    if step.Launch? || step.HalfLaunch? {
      StartDraws(s.host, t, step.env, if step.HalfLaunch? then step.half else Untouched);
    }
  }

  lemma StartDraws(h: Host, t: Uuid, env: map<string, string>, half: Half)
    requires NetworkName(t) in h.networks
    ensures Started(h, t, env).networks == h.networks && HalfStarted(h, t, env, half).networks == h.networks
    ensures Started(h, t, env).next <= h.next + 1 && HalfStarted(h, t, env, half).next <= h.next + 1
  {
  }

  lemma {:induction false} LoneCallDraws(t: Uuid, s: Race, steps: seq<Step>)
    requires NetworkName(t) in s.host.networks && |s.calls| <= 1 && Legal(t, s, steps)
    ensures Run(t, s, steps).host.next <= s.host.next + (if |s.calls| == 1 && PastStart(s.calls[0]) then 0 else 1)
    decreases |steps|
  {
    hide Take, PastStart;
    if steps != [] {
      LoneStepDraws(t, s, steps[0]);
      LoneCallDraws(t, Take(t, s, steps[0]), steps[1..]);
    }
  }

  /** With a container there from the start no call gets as far as starting one. */
  lemma {:induction false} NothingDrawn(t: Uuid, s0: Race, s: Race, steps: seq<Step>)
    requires Start(t, s0) && RaceInv(t, s0, s) && Legal(t, s, steps) && ContainerName(t) in s0.host.containers
    ensures Run(t, s, steps).host.next == s.host.next
    decreases |steps|
  {
    hide RaceInv, Start, HalfStarted, Started, KeyBlocked;
    if steps != [] {
      assert CallInv(t, s0, s, steps[0].p) by { ClaimOf(t, s0, s, steps[0].p); }
      StepKeeps(t, s0, s, steps[0]);
      NothingDrawn(t, s0, Take(t, s, steps[0]), steps[1..]);
    }
  }

  lemma ClaimOf(t: Uuid, s0: Race, s: Race, p: nat)
    requires RaceInv(t, s0, s) && p < |s.calls|
    ensures CallInv(t, s0, s, p)
  {
  }

  /** One call creates a container and fails to start it; the next one removes it and creates another. */
  lemma TwoCreated(t: Uuid, s0: Race)
    requires Start(t, s0) && ContainerName(t) !in s0.host.containers && |s0.calls| >= 2
    ensures
      var first := ReadySteps(s0.keyed, 0) + [HalfLaunch(0, map[], Made)];
      var steps := first + ReadySteps(s0.keyed, 1) + [Launch(1, map[])];
      && Legal(t, s0, first) && Legal(t, s0, steps)
      && Lookup(Run(t, s0, first).host.containers, ContainerName(t)) == Some(Husk(s0.host.next, t, map[]))
      && TheId(t, Run(t, s0, steps).host) == Some(s0.host.next + 1)
      && Run(t, s0, steps).host.next == s0.host.next + 2
    ensures !CreatesAtMostOne(t, s0)
  {
    hide Legal, Run, ReadySteps, Started, HalfStarted, Husk, Agrees;
    GetsReady(t, s0, 0) by { StartHasNoContainer(t, s0); }
    var half := HalfLaunch(0, map[], Made);
    OneStep(t, s0, ReadySteps(s0.keyed, 0), half);
    var first := ReadySteps(s0.keyed, 0) + [half];
    HuskThenStart(t, s0.host) by { StartHasNoContainer(t, s0); }
    var s := Run(t, s0, first);
    assert s == s0.(host := HalfStarted(s0.host, t, map[], Made), calls := s0.calls[0 := Failed(false)]);
    GetsReady(t, s, 1);
    RunConcat(t, s0, first, ReadySteps(s0.keyed, 1));
    OneStep(t, s0, first + ReadySteps(s0.keyed, 1), Launch(1, map[]));
  }

  lemma StartHasNoContainer(t: Uuid, s0: Race)
    requires Start(t, s0) && ContainerName(t) !in s0.host.containers
    ensures !Awake(s0.host, t) && NetworkName(t) in s0.host.networks
  {
  }

  lemma HuskThenStart(t: Uuid, h: Host)
    requires ContainerName(t) !in h.containers && NetworkName(t) in h.networks
    ensures
      var half := HalfStarted(h, t, map[], Made);
      && !Awake(half, t) && Lookup(half.containers, ContainerName(t)) == Some(Husk(h.next, t, map[]))
      && TheId(t, Started(half, t, map[])) == Some(h.next + 1)
      && Started(half, t, map[]).next == h.next + 2
  {
  }

  // --- When row and container agree in the end ---

  ghost predicate Quiet(s: Race) {
    forall p :: 0 <= p < |s.calls| ==> !Unfinished(s.calls[p])
  }

  ghost predicate SomeReturned(s: Race) {
    exists p :: 0 <= p < |s.calls| && s.calls[p].Returned?
  }

  ghost predicate AgreesRunning(t: Uuid, s: Race) {
    Agrees(t, s) && s.row.status == RUNNING
  }

  /** Once every call has finished: agreement is the doing of the start, or of a call that committed a new status. */
  lemma QuietAgreement(t: Uuid, s0: Race, steps: seq<Step>)
    requires Start(t, s0) && Legal(t, s0, steps) && Quiet(Run(t, s0, steps))
    ensures AgreesRunning(t, Run(t, s0, steps)) <==> s0.row.status == RUNNING || Settled(Run(t, s0, steps))
  {
    StartHolds(t, s0);
    RunKeeps(t, s0, s0, steps);
  }

  /** If no call failed after making the container run, one success is enough to settle the tenant. */
  lemma OneSuccessSettles(t: Uuid, s0: Race, s: Race)
    requires Start(t, s0) && RaceInv(t, s0, s) && Quiet(s) && SomeReturned(s) && Failed(true) !in s.calls
    ensures AgreesRunning(t, s)
  {
    var p :| 0 <= p < |s.calls| && s.calls[p].Returned?;
    assert CallInv(t, s0, s, p);
    if s0.row.status != RUNNING {
      var q :| 0 <= q < |s.calls| && Stirring(s.calls[q]);
      assert s.calls[q] in s.calls;
      assert s.calls[q].Returned?;
    }
  }

  /** The promise: whenever all calls have finished and one has succeeded, the tenant is in step and RUNNING. */
  ghost predicate AlwaysSettles(t: Uuid, s0: Race) {
    forall steps {:trigger Legal(t, s0, steps)} ::
      Legal(t, s0, steps) && Quiet(Run(t, s0, steps)) && SomeReturned(Run(t, s0, steps)) ==>
        AgreesRunning(t, Run(t, s0, steps))
  }

  /** Exactly when the promise is kept: the tenant was RUNNING anyway, or there is no second call. */
  lemma SettlesExactly(t: Uuid, s0: Race)
    requires Start(t, s0)
    ensures AlwaysSettles(t, s0) <==> s0.row.status == RUNNING || |s0.calls| <= 1
  {
    if s0.row.status == RUNNING || |s0.calls| <= 1 {
      forall steps | Legal(t, s0, steps) && Quiet(Run(t, s0, steps)) && SomeReturned(Run(t, s0, steps))
        ensures AgreesRunning(t, Run(t, s0, steps))
      {
        FewCallsSettle(t, s0, steps);
      }
    } else {
      LostStart(t, s0);
    }
  }

  lemma FewCallsSettle(t: Uuid, s0: Race, steps: seq<Step>)
    requires Start(t, s0) && (s0.row.status == RUNNING || |s0.calls| <= 1)
    requires Legal(t, s0, steps) && Quiet(Run(t, s0, steps)) && SomeReturned(Run(t, s0, steps))
    ensures AgreesRunning(t, Run(t, s0, steps))
  {
    StartHolds(t, s0);
    RunKeeps(t, s0, s0, steps);
    QuietAgreement(t, s0, steps);
    if |s0.calls| <= 1 {
      OneSuccessSettles(t, s0, Run(t, s0, steps));
    }
  }

  // --- The runs that break it ---

  lemma {:induction false} RunConcat(t: Uuid, s: Race, a: seq<Step>, b: seq<Step>)
    requires Legal(t, s, a) && Legal(t, Run(t, s, a), b)
    ensures Legal(t, s, a + b) && Run(t, s, a + b) == Run(t, Run(t, s, a), b)
    decreases |a|
  {
    hide Take, Enabled;
    if a == [] {
      assert a + b == b;
    } else {
      assert (a + b)[0] == a[0] && (a + b)[1..] == a[1..] + b;
      RunConcat(t, Take(t, s, a[0]), a[1..], b);
    }
  }

  lemma Alone(t: Uuid, s: Race, step: Step)
    requires Enabled(s, step)
    ensures Legal(t, s, [step]) && Run(t, s, [step]) == Take(t, s, step)
  {
    hide Take, Enabled;
    assert [step][1..] == [];
  }

  lemma OneStep(t: Uuid, s: Race, steps: seq<Step>, step: Step)
    requires Legal(t, s, steps) && Enabled(Run(t, s, steps), step)
    ensures Legal(t, s, steps + [step]) && Run(t, s, steps + [step]) == Take(t, Run(t, s, steps), step)
  {
    hide Take, Enabled;
    Alone(t, Run(t, s, steps), step);
    RunConcat(t, s, steps, [step]);
  }

  lemma TwoSteps(t: Uuid, s: Race, a: Step, b: Step)
    requires Enabled(s, a) && Enabled(Take(t, s, a), b)
    ensures Legal(t, s, [a, b]) && Run(t, s, [a, b]) == Take(t, Take(t, s, a), b)
  {
    hide Take, Enabled;
    assert [a, b] == [a] + [b];
    Alone(t, s, a);
    OneStep(t, s, [a], b);
  }

  /** A call gets hold of a data key, inserting one if none is committed. */
  function ReadySteps(keyed: bool, p: nat): seq<Step> {
    if keyed then [Check(p), LookKey(p)] else [Check(p), LookKey(p)] + [InsertKey(p)]
  }

  lemma GetsReady(t: Uuid, s: Race, p: nat)
    requires p < |s.calls| && s.calls[p].Idle? && !Awake(s.host, t)
    requires forall q :: 0 <= q < |s.calls| ==> !Inserted(s.calls[q])
    ensures Legal(t, s, ReadySteps(s.keyed, p))
    ensures Run(t, s, ReadySteps(s.keyed, p)) == Set(s, p, Ready(!s.keyed))
  {
    hide Legal, Run;
    TwoSteps(t, s, Check(p), LookKey(p));
    var looked := Set(s, p, if s.keyed then Ready(false) else NoKey);
    assert Run(t, s, [Check(p), LookKey(p)]) == looked;
    if !s.keyed {
      assert !KeyBlocked(looked, p);
      OneStep(t, s, [Check(p), LookKey(p)], InsertKey(p));
    }
  }

  /** The first call makes the container run: it unpauses it, or gets hold of a key and starts one. */
  function FirstSteps(t: Uuid, s0: Race): seq<Step> {
    if ContainerName(t) in s0.host.containers then [Check(0)] else ReadySteps(s0.keyed, 0) + [Launch(0, map[])]
  }

  lemma FirstStirs(t: Uuid, s0: Race)
    requires Start(t, s0) && s0.row.status != RUNNING && |s0.calls| >= 2
    ensures
      && Legal(t, s0, FirstSteps(t, s0))
      && var s := Run(t, s0, FirstSteps(t, s0));
      && Up(t, s.host) && |s.calls| == |s0.calls| && (s.calls[0] == Checked(Waking) || s.calls[0].Launched?)
      && s == s0.(host := s.host, calls := s0.calls[0 := s.calls[0]])
  {
    if ContainerName(t) in s0.host.containers {
      Alone(t, s0, Check(0));
    } else {
      FirstStarts(t, s0);
    }
  }

  lemma FirstStarts(t: Uuid, s0: Race)
    requires Start(t, s0) && |s0.calls| >= 1 && ContainerName(t) !in s0.host.containers
    ensures
      && Legal(t, s0, FirstSteps(t, s0))
      && var s := Run(t, s0, FirstSteps(t, s0));
      && Up(t, s.host) && |s.calls| == |s0.calls| && s.calls[0].Launched?
      && s == s0.(host := s.host, calls := s0.calls[0 := s.calls[0]])
  {
    hide Started, Agrees, Legal, Run, ReadySteps;
    GetsReady(t, s0, 0);
    OneStep(t, s0, ReadySteps(s0.keyed, 0), Launch(0, map[]));
    LaunchKeepsHost(t, s0, s0, map[]) by { StartHolds(t, s0); }
  }

  /** The second finds it running; the first loses its transaction; the second records its visit and returns. */
  const SECOND: seq<Step> := [Check(1), Fail(0)] + [Update(1, 0)] + [Commit(1)]

  lemma SecondReturns(t: Uuid, s: Race)
    requires |s.calls| >= 2 && s.calls[1].Idle? && s.lock.None? && Up(t, s.host)
    requires s.calls[0] == Checked(Waking) || s.calls[0].Launched?
    ensures
      && Legal(t, s, SECOND)
      && Run(t, s, SECOND) == s.(
           row := RowTouched(s.row, 0), calls := s.calls[0 := Failed(true)][1 := Returned(Touching, s.row.containerId)])
  {
    hide Legal, Run;
    TwoSteps(t, s, Check(1), Fail(0));
    var found := Run(t, s, [Check(1), Fail(0)]);
    assert found == s.(calls := s.calls[0 := Failed(true)][1 := Checked(Touching)]);
    OneStep(t, s, [Check(1), Fail(0)], Update(1, 0));
    OneStep(t, s, [Check(1), Fail(0)] + [Update(1, 0)], Commit(1));
  }

  function FailFrom(k: nat, n: nat): seq<Step>
    decreases n - k
  {
    if k >= n then [] else [Fail(k)] + FailFrom(k + 1, n)
  }

  /** Every further call fails before it has begun. */
  lemma {:induction false} RestFail(t: Uuid, s: Race, k: nat)
    requires k <= |s.calls| && s.lock.None? && forall p :: k <= p < |s.calls| ==> s.calls[p].Idle?
    ensures Legal(t, s, FailFrom(k, |s.calls|))
    ensures
      var end := Run(t, s, FailFrom(k, |s.calls|));
      && end == s.(calls := end.calls) && |end.calls| == |s.calls|
      && (forall p :: 0 <= p < k ==> end.calls[p] == s.calls[p])
      && (forall p :: k <= p < |s.calls| ==> end.calls[p] == Failed(false))
    decreases |s.calls| - k
  {
    if k < |s.calls| {
      var s' := Take(t, s, Fail(k));
      assert s' == s.(calls := s.calls[k := Failed(false)]);
      RestFail(t, s', k + 1);
      assert FailFrom(k, |s.calls|)[1..] == FailFrom(k + 1, |s.calls|);
    }
  }

  /**
   From any start that is not RUNNING and with any number of calls from two up,
   stopped or paused, with a data key or without: the first call makes the container
   run and fails, the second succeeds, and the row still does not say RUNNING.
   */
  lemma LostStart(t: Uuid, s0: Race)
    requires Start(t, s0) && s0.row.status != RUNNING && |s0.calls| >= 2
    ensures
      var steps := FirstSteps(t, s0) + SECOND + FailFrom(2, |s0.calls|);
      && Legal(t, s0, steps)
      && Quiet(Run(t, s0, steps)) && SomeReturned(Run(t, s0, steps))
      && Up(t, Run(t, s0, steps).host)
      && Run(t, s0, steps).row.status == s0.row.status
      && !AgreesRunning(t, Run(t, s0, steps))
    ensures !AlwaysSettles(t, s0)
  {
    hide Legal, Run, FirstSteps, FailFrom, Agrees;
    FirstStirs(t, s0);
    var stirred := Run(t, s0, FirstSteps(t, s0));
    SecondReturns(t, stirred);
    RunConcat(t, s0, FirstSteps(t, s0), SECOND);
    var returned := Run(t, stirred, SECOND);
    RestFail(t, returned, 2);
    RunConcat(t, s0, FirstSteps(t, s0) + SECOND, FailFrom(2, |s0.calls|));
    var end := Run(t, returned, FailFrom(2, |s0.calls|));
    assert end.calls[1] == Returned(Touching, stirred.row.containerId);
    assert end.calls[0] == Failed(true);
  }

  // --- Waiting ---

  /** A call that found no data key, when by now one is committed: its insert can only fail. */
  predicate Loser(s: Race, c: Call) {
    c.NoKey? && s.keyed
  }

  /** A step that takes its call forward. */
  predicate Advances(t: Uuid, s: Race, step: Step) {
    !step.Fail? && !step.HalfLaunch? && Enabled(s, step) && !Take(t, s, step).calls[step.p].Failed?
  }

  /**
   Waiting never ends in a deadlock: while some call is unfinished and is not a
   loser of the race for the data key, some call can take a step forward. What
   a loser can still do is fail; where the key was committed all along, there
   are no losers.
   */
  lemma Progress(t: Uuid, s0: Race, steps: seq<Step>)
    requires Start(t, s0) && Legal(t, s0, steps)
    ensures
      var s := Run(t, s0, steps);
      && ((exists p :: 0 <= p < |s.calls| && Unfinished(s.calls[p]) && !Loser(s, s.calls[p])) <==>
            (exists step :: Advances(t, s, step)))
      && (forall p :: 0 <= p < |s.calls| && Loser(s, s.calls[p]) && Enabled(s, InsertKey(p)) ==>
            Take(t, s, InsertKey(p)) == Set(s, p, Failed(false)))
      && (s0.keyed ==> forall p :: 0 <= p < |s.calls| ==> !s.calls[p].NoKey?)
  {
    StartHolds(t, s0);
    RunKeeps(t, s0, s0, steps);
    var s := Run(t, s0, steps);
    if p :| 0 <= p < |s.calls| && Unfinished(s.calls[p]) && !Loser(s, s.calls[p]) {
      SomeoneAdvances(t, s0, s, p);
    }
    if s0.keyed {
      KeyedHasNoLosers(t, s0, steps);
    }
  }

  lemma SomeoneAdvances(t: Uuid, s0: Race, s: Race, p: nat)
    requires RaceInv(t, s0, s) && p < |s.calls| && Unfinished(s.calls[p]) && !Loser(s, s.calls[p])
    ensures exists step :: Advances(t, s, step)
  {
    hide Started, StateOf, Unpaused;
    if s.lock.Some? {
      assert CallInv(t, s0, s, s.lock.value);
      assert Advances(t, s, Commit(s.lock.value));
    } else {
      assert CallInv(t, s0, s, p);
      if s.calls[p].NoKey? && KeyBlocked(s, p) {
        var q :| 0 <= q < |s.calls| && q != p && Inserted(s.calls[q]);
        assert CallInv(t, s0, s, q);
        assert Advances(t, s, if s.calls[q].Ready? then Launch(q, map[]) else Update(q, 0));
      } else {
        var step :=
          match s.calls[p]
          case Idle => Check(p)
          case Checked(Starting) => LookKey(p)
          case NoKey => InsertKey(p)
          case Ready(_) => Launch(p, map[])
          case _ => Update(p, 0);
        assert Advances(t, s, step);
      }
    }
  }

  /** The promise: no call ever loses the race for the data key. */
  ghost predicate NobodyLoses(t: Uuid, s0: Race) {
    forall steps, p {:trigger Legal(t, s0, steps), s0.calls[p]} ::
      Legal(t, s0, steps) && 0 <= p < |s0.calls| && p < |Run(t, s0, steps).calls| ==>
        !Loser(Run(t, s0, steps), Run(t, s0, steps).calls[p])
  }

  /** Exactly when it is kept: the key is committed already, or there is a container already, or no second call. */
  lemma LosesExactly(t: Uuid, s0: Race)
    requires Start(t, s0)
    ensures NobodyLoses(t, s0) <==> s0.keyed || ContainerName(t) in s0.host.containers || |s0.calls| <= 1
  {
    if s0.keyed || ContainerName(t) in s0.host.containers || |s0.calls| <= 1 {
      forall steps, p | Legal(t, s0, steps) && 0 <= p < |s0.calls| && p < |Run(t, s0, steps).calls|
        ensures !Loser(Run(t, s0, steps), Run(t, s0, steps).calls[p])
      {
        NoLoser(t, s0, steps, p);
      }
    } else {
      SecondLoses(t, s0);
    }
  }

  lemma NoLoser(t: Uuid, s0: Race, steps: seq<Step>, p: nat)
    requires Start(t, s0) && Legal(t, s0, steps) && p < |Run(t, s0, steps).calls|
    requires s0.keyed || ContainerName(t) in s0.host.containers || |s0.calls| <= 1
    ensures !Loser(Run(t, s0, steps), Run(t, s0, steps).calls[p])
  {
    StartHolds(t, s0);
    RunKeeps(t, s0, s0, steps);
    ClaimOf(t, s0, Run(t, s0, steps), p);
    if s0.keyed {
      KeyedHasNoLosers(t, s0, steps);
    } else if |s0.calls| <= 1 {
      LoneCallWins(t, s0, steps);
    }
  }

  lemma LoneStepWins(t: Uuid, s: Race, step: Step)
    requires |s.calls| == 1 && !Loser(s, s.calls[0]) && Enabled(s, step)
    ensures |Take(t, s, step).calls| == 1 && !Loser(Take(t, s, step), Take(t, s, step).calls[0])
  {
    hide Started, HalfStarted, StateOf, Unpaused, KeyBlocked;
  }

  lemma {:induction false} LoneCallWins(t: Uuid, s: Race, steps: seq<Step>)
    requires |s.calls| <= 1 && Legal(t, s, steps) && forall p :: 0 <= p < |s.calls| ==> !Loser(s, s.calls[p])
    ensures forall p :: 0 <= p < |Run(t, s, steps).calls| ==> !Loser(Run(t, s, steps), Run(t, s, steps).calls[p])
    decreases |steps|
  {
    hide Take, Loser;
    if steps != [] {
      LoneStepWins(t, s, steps[0]);
      LoneCallWins(t, Take(t, s, steps[0]), steps[1..]);
    }
  }

  /** The second call finds no key; the first inserts one, starts the container and commits. */
  lemma SecondLoses(t: Uuid, s0: Race)
    requires Start(t, s0) && !s0.keyed && ContainerName(t) !in s0.host.containers && |s0.calls| >= 2
    ensures
      var steps := [Check(1), LookKey(1)] + FirstSteps(t, s0) + [Update(0, 0)] + [Commit(0)];
      && Legal(t, s0, steps)
      && |Run(t, s0, steps).calls| == |s0.calls| && Loser(Run(t, s0, steps), Run(t, s0, steps).calls[1])
    ensures !NobodyLoses(t, s0)
  {
    hide Legal, Run, ReadySteps, Started, Agrees;
    StartHasNoContainer(t, s0);
    TwoSteps(t, s0, Check(1), LookKey(1));
    var looked := Set(s0, 1, NoKey);
    assert Run(t, s0, [Check(1), LookKey(1)]) == looked;
    GetsReady(t, looked, 0);
    OneStep(t, looked, ReadySteps(false, 0), Launch(0, map[]));
    var steps := [Check(1), LookKey(1)] + FirstSteps(t, s0);
    RunConcat(t, s0, [Check(1), LookKey(1)], FirstSteps(t, s0));
    OneStep(t, s0, steps, Update(0, 0));
    OneStep(t, s0, steps + [Update(0, 0)], Commit(0));
    assert s0.calls[1].Idle?;
  }

  lemma {:induction false} KeyedHasNoLosers(t: Uuid, s: Race, steps: seq<Step>)
    requires s.keyed && (forall p :: 0 <= p < |s.calls| ==> !s.calls[p].NoKey?) && Legal(t, s, steps)
    ensures forall p :: 0 <= p < |Run(t, s, steps).calls| ==> !Run(t, s, steps).calls[p].NoKey?
    decreases |steps|
  {
    hide Started, HalfStarted, StateOf, Unpaused, KeyBlocked;
    if steps != [] {
      KeyedHasNoLosers(t, Take(t, s, steps[0]), steps[1..]);
    }
  }

  // --- One call alone ---

  function Solo(w: World, t: Uuid): Race
    requires t in w.db.tenants
  {
    Race(w.db.tenants[t], t in w.db.deks, w.host, None, [Idle])
  }

  function SoloSteps(w: World, t: Uuid, now: int, env: map<string, string>): seq<Step> {
    (if Awake(w.host, t) then [Check(0)]
     else if t in w.db.deks then [Check(0), LookKey(0)] + [Launch(0, env)]
     else [Check(0), LookKey(0)] + [InsertKey(0)] + [Launch(0, env)])
    + [Update(0, now)] + [Commit(0)]
  }

  /** What one call has done when its transaction ends. */
  function SoloEnd(w: World, t: Uuid, kind: Kind, answer: Option<nat>): Race
    requires t in w.db.tenants
  {
    Race(w.db.tenants[t], t in w.db.deks, w.host, None, [Returned(kind, answer)])
  }

  lemma SoloChecks(w: World, t: Uuid, now: int)
    requires t in w.db.tenants && Awake(w.host, t)
    ensures
      var kind := if StateOf(w.host, t) == StateRunning then Touching else Waking;
      var row := w.db.tenants[t];
      var checked := Solo(w, t).(host := Unpaused(w.host, t), calls := [Checked(kind)]);
      var pending := if kind == Touching then RowTouched(row, now) else RowWoken(row, now);
      var holding := checked.(lock := Some(0), calls := [Holding(kind, pending, row.containerId, false)]);
      && Enabled(Solo(w, t), Check(0)) && Take(t, Solo(w, t), Check(0)) == checked
      && Enabled(checked, Update(0, now)) && Take(t, checked, Update(0, now)) == holding
      && Enabled(holding, Commit(0))
      && Take(t, holding, Commit(0)) == checked.(row := pending, calls := [Returned(kind, row.containerId)])
  {
  }

  lemma SoloTouch(kek: Key, cfg: Settings, w: World, t: Uuid, now: int, secrets: map<string, string>)
    requires t in w.db.tenants && Awake(w.host, t)
    ensures
      var woken := TenantWoken(kek, cfg, w, t, now, secrets);
      var kind := if StateOf(w.host, t) == StateRunning then Touching else Waking;
      && Legal(t, Solo(w, t), SoloSteps(w, t, now, map[]))
      && woken.result.Ok? && t in woken.world.db.tenants
      && Run(t, Solo(w, t), SoloSteps(w, t, now, map[])) == SoloEnd(woken.world, t, kind, woken.result.value)
  {
    hide Legal, Run, TenantStarted, Take, Enabled;
    SoloChecks(w, t, now);
    Alone(t, Solo(w, t), Check(0));
    OneStep(t, Solo(w, t), [Check(0)], Update(0, now));
    OneStep(t, Solo(w, t), [Check(0)] + [Update(0, now)], Commit(0));
  }

  lemma SoloLaunch(w: World, t: Uuid, now: int, env: map<string, string>)
    requires t in w.db.tenants && !Awake(w.host, t)
    ensures
      var steps := SoloSteps(w, t, now, env);
      var host := Started(w.host, t, env);
      var id := host.containers[ContainerName(t)].id;
      && Legal(t, Solo(w, t), steps)
      && Run(t, Solo(w, t), steps)
         == Race(RowRunning(w.db.tenants[t], id, now), true, host, None, [Returned(Starting, Some(id))])
  {
    hide Legal, Run, Started, Take, Enabled, Awake, StateOf;
    var keyed := t in w.db.deks;
    SoloReady(w, t);
    var steps := [Check(0), LookKey(0)] + if keyed then [] else [InsertKey(0)];
    SoloFromReady(t, w.db.tenants[t], keyed, w.host, now, env);
    RunConcat(t, Solo(w, t), steps, [Launch(0, env), Update(0, now)] + [Commit(0)]);
    assert SoloSteps(w, t, now, env) == steps + ([Launch(0, env), Update(0, now)] + [Commit(0)]);
  }

  lemma SoloReady(w: World, t: Uuid)
    requires t in w.db.tenants && !Awake(w.host, t)
    ensures
      var keyed := t in w.db.deks;
      var steps := [Check(0), LookKey(0)] + if keyed then [] else [InsertKey(0)];
      && Legal(t, Solo(w, t), steps)
      && Run(t, Solo(w, t), steps) == Race(w.db.tenants[t], keyed, w.host, None, [Ready(!keyed)])
  {
    hide Legal, Run;
    TwoSteps(t, Solo(w, t), Check(0), LookKey(0));
    if t in w.db.deks {
      assert [Check(0), LookKey(0)] + [] == [Check(0), LookKey(0)];
    } else {
      OneStep(t, Solo(w, t), [Check(0), LookKey(0)], InsertKey(0));
    }
  }

  lemma SoloFromReady(t: Uuid, row: TenantRow, keyed: bool, before: Host, now: int, env: map<string, string>)
    ensures
      var ready := Race(row, keyed, before, None, [Ready(!keyed)]);
      var steps := [Launch(0, env), Update(0, now)] + [Commit(0)];
      var host := Started(before, t, env);
      var id := host.containers[ContainerName(t)].id;
      && Legal(t, ready, steps)
      && Run(t, ready, steps) == Race(RowRunning(row, id, now), true, host, None, [Returned(Starting, Some(id))])
  {
    hide Legal, Run, Started;
    var ready := Race(row, keyed, before, None, [Ready(!keyed)]);
    TwoSteps(t, ready, Launch(0, env), Update(0, now));
    OneStep(t, ready, [Launch(0, env), Update(0, now)], Commit(0));
  }

  lemma SoloStart(kek: Key, cfg: Settings, w: World, t: Uuid, now: int, secrets: map<string, string>)
    requires t in w.db.tenants && !Awake(w.host, t) && ProviderVar(w.db.tenants[t]).Ok?
    ensures
      var started := TenantStarted(kek, cfg, w, t, now, secrets);
      var env := ContainerEnv(cfg, ProviderVar(w.db.tenants[t]).value, secrets);
      && Legal(t, Solo(w, t), SoloSteps(w, t, now, env))
      && started.result.Ok? && t in started.world.db.tenants
      && Run(t, Solo(w, t), SoloSteps(w, t, now, env))
         == SoloEnd(started.world, t, Starting, Some(started.result.value))
  {
    hide ContainerEnv, ProviderVar, Started, Legal, Run, SoloSteps;
    SoloLaunch(w, t, now, ContainerEnv(cfg, ProviderVar(w.db.tenants[t]).value, secrets));
  }

  /** The race's steps refine the whole operation: one call, undisturbed, is exactly wake_tenant. */
  lemma SoloIsWake(kek: Key, cfg: Settings, w: World, t: Uuid, now: int, secrets: map<string, string>)
    requires t in w.db.tenants && ProviderVar(w.db.tenants[t]).Ok?
    ensures
      var env := ContainerEnv(cfg, ProviderVar(w.db.tenants[t]).value, secrets);
      var woken := TenantWoken(kek, cfg, w, t, now, secrets);
      var steps := SoloSteps(w, t, now, env);
      && Legal(t, Solo(w, t), steps)
      && woken.result.Ok? && t in woken.world.db.tenants
      && exists kind :: Run(t, Solo(w, t), steps) == SoloEnd(woken.world, t, kind, woken.result.value)
  {
    hide ContainerEnv, ProviderVar, TenantStarted, TenantWoken, Run, Legal, Take;
    if Awake(w.host, t) {
      SoloTouch(kek, cfg, w, t, now, secrets);
    } else {
      SoloStart(kek, cfg, w, t, now, secrets);
      WokenBySoloStart(kek, cfg, w, t, now, secrets);
    }
  }

  lemma WokenBySoloStart(kek: Key, cfg: Settings, w: World, t: Uuid, now: int, secrets: map<string, string>)
    requires !Awake(w.host, t) && TenantStarted(kek, cfg, w, t, now, secrets).result.Ok?
    ensures
      var started := TenantStarted(kek, cfg, w, t, now, secrets);
      TenantWoken(kek, cfg, w, t, now, secrets) == Outcome(started.world, Ok(Some(started.result.value)))
  {
    hide TenantStarted;
  }
}
