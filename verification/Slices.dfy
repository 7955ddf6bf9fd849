/**
 One tenant's share of the world. Requests made for other tenants leave it
 exactly as it is, and sweeps change it by a rule that looks at nothing else.
 */
module Slices {
  import opened Prelude
  import opened Naming
  import opened Docker
  import opened Envelope
  import opened Database
  import opened Vault
  import opened Provider
  import opened Tenants
  import opened Hibernation
  import opened Runs

  datatype Slice = Slice(
    row: Option<TenantRow>,
    holdings: Holdings,
    dek: Option<DekRow>,
    secrets: map<(Uuid, string), SecretRow>,
    members: map<(Uuid, UserId), Role>)

  /** The entries of a table keyed by tenant that carry t's id. */
  function Share<K(==), V>(m: map<(Uuid, K), V>, t: Uuid): map<(Uuid, K), V> {
    map k | k in m && k.0 == t :: m[k]
  }

  lemma ShareOfUpdate<K, V>(m: map<(Uuid, K), V>, k: (Uuid, K), v: V, t: Uuid)
    requires k.0 != t
    ensures Share(m[k := v], t) == Share(m, t)
  {
  }

  lemma ShareOfRemoval<K, V>(m: map<(Uuid, K), V>, k: (Uuid, K), t: Uuid)
    requires k.0 != t
    ensures Share(m - {k}, t) == Share(m, t)
  {
  }

  lemma ShareOfCascade<K, V>(m: map<(Uuid, K), V>, gone: Uuid, t: Uuid)
    requires gone != t
    ensures Share(map k | k in m && k.0 != gone :: m[k], t) == Share(m, t)
  {
  }

  function SliceOf(w: World, t: Uuid): Slice {
    Slice(
      Lookup(w.db.tenants, t), HoldingsOf(w.host, t), Lookup(w.db.deks, t), Share(w.db.secrets, t),
      Share(w.db.memberships, t))
  }

  /** Two databases that agree on everything of t's. */
  ghost predicate SameRows(a: Db, b: Db, t: Uuid) {
    && SameAt(a.tenants, b.tenants, t)
    && SameAt(a.deks, b.deks, t)
    && Share(a.secrets, t) == Share(b.secrets, t)
    && Share(a.memberships, t) == Share(b.memberships, t)
  }

  lemma SameSlice(a: World, b: World, t: Uuid)
    requires SameRows(a.db, b.db, t) && HoldingsOf(a.host, t) == HoldingsOf(b.host, t)
    ensures SliceOf(a, t) == SliceOf(b, t)
  {
  }

  // --- Completed Docker calls touch one tenant's names ---

  lemma CreateTouches(h: Host, t: Uuid)
    ensures OnlyTouches(h, NetworkCreated(DirsCreated(h, t), t), t)
  {
  }

  lemma StopTouches(h: Host, t: Uuid)
    ensures OnlyTouches(h, Stopped(h, t), t)
    ensures OnlyTouches(h, CleanedUp(h, t), t)
  {
  }

  lemma PauseTouches(h: Host, t: Uuid)
    ensures OnlyTouches(h, PausedHost(h, t), t)
    ensures OnlyTouches(h, Unpaused(h, t), t)
  {
  }

  lemma StartTouches(h: Host, t: Uuid, env: map<string, string>)
    ensures OnlyTouches(h, Started(h, t, env), t)
  {
    if !Awake(h, t) {
      CreateTouches(h, t);
      TouchesTwice(h, NetworkCreated(DirsCreated(h, t), t), Started(h, t, env), t);
    }
  }

  lemma StartTenantTouches(d: Deployment, w: World, t: Uuid, now: int, secrets: map<string, string>)
    ensures OnlyTouches(w.host, TenantStarted(d.kek, d.cfg, w, t, now, secrets).world.host, t)
  {
    if t in w.db.tenants && ProviderVar(w.db.tenants[t]).Ok? {
      StartTouches(w.host, t, ContainerEnv(d.cfg, ProviderVar(w.db.tenants[t]).value, secrets));
    }
  }

  lemma WakeTouches(d: Deployment, w: World, t: Uuid, now: int, secrets: map<string, string>)
    ensures OnlyTouches(w.host, TenantWoken(d.kek, d.cfg, w, t, now, secrets).world.host, t)
  {
    hide TenantStarted, OnlyTouches, Unpaused, StateOf;
    TouchesNothing(w.host, t);
    PauseTouches(w.host, t);
    StartTenantTouches(d, w, t, now, secrets);
  }

  lemma CreateTenantTouches(w: World, op: Op)
    requires op.Create?
    ensures OnlyTouches(w.host, TenantCreated(w, op.t, op.slug, op.name, op.creator, op.now).world.host, op.t)
  {
    hide OnlyTouches, NetworkCreated, DirsCreated;
    TouchesNothing(w.host, op.t);
    CreateTouches(w.host, op.t);
  }

  /** Requests about members, secrets, logins and activity never reach Docker. */
  predicate RowsOnly(op: Op) {
    op.Touch? || op.Join? || op.Leave? || op.SetSecret? || op.DropSecret? || op.Login?
  }

  lemma RowsOnlyKeepHost(d: Deployment, w: World, op: Op)
    requires RowsOnly(op)
    ensures Apply(d, w, op).host == w.host
  {
    hide Stored, DekEnsured, DekOf, UserEnsured, Updated;
  }

  lemma RequestTouches(d: Deployment, w: World, op: Op)
    requires Addressee(op).Some?
    ensures OnlyTouches(w.host, Apply(d, w, op).host, Addressee(op).value)
  {
    hide OnlyTouches, TenantCreated, TenantStarted, TenantWoken;
    var t := Addressee(op).value;
    TouchesNothing(w.host, t);
    match op
    case Create(_, _, _, _, _) => CreateTenantTouches(w, op);
    case Start(_, now, secrets) => StartTenantTouches(d, w, t, now, secrets);
    case Stop(_) => StopTouches(w.host, t);
    case Pause(_) => PauseTouches(w.host, t);
    case Wake(_, now, secrets) => WakeTouches(d, w, t, now, secrets);
    case Delete(_, _) => StopTouches(w.host, t);
    case _ => RowsOnlyKeepHost(d, w, op);
  }

  // --- Rows a request writes all carry its addressee's id ---

  lemma StatusKeepsRows(w: World, t: Uuid, now: int, other: Uuid)
    requires t != other
    ensures SameRows(w.db, TenantStopped(w, t).world.db, other)
    ensures SameRows(w.db, TenantPaused(w, t).world.db, other)
    ensures SameRows(w.db, TenantTouched(w, t, now).world.db, other)
  {
  }

  lemma CreateKeepsRows(w: World, op: Op, other: Uuid)
    requires op.Create? && op.t != other
    ensures SameRows(w.db, TenantCreated(w, op.t, op.slug, op.name, op.creator, op.now).world.db, other)
  {
    hide NetworkCreated, DirsCreated;
    if op.creator.Some? {
      ShareOfUpdate(w.db.memberships, (op.t, op.creator.value), TenantAdmin, other);
    }
  }

  lemma DeleteKeepsRows(w: World, t: Uuid, actor: Option<UserId>, other: Uuid)
    requires t != other
    ensures SameRows(w.db, TenantDeleted(w, t, actor).world.db, other)
  {
    hide CleanedUp;
    ShareOfCascade(w.db.secrets, t, other);
    ShareOfCascade(w.db.memberships, t, other);
  }

  lemma MembersKeepRows(w: World, op: Op, other: Uuid)
    requires (op.Join? && op.t != other) || (op.Leave? && op.t != other) || op.Login?
    ensures op.Join? ==> SameRows(w.db, MemberAdded(w, op.t, op.email, op.role, op.newId, op.actor).world.db, other)
    ensures op.Leave? ==> SameRows(w.db, MemberRemoved(w, op.t, op.member, op.actor).world.db, other)
    ensures op.Login? ==> SameRows(w.db, UserEnsured(w.db, op.email, op.newId), other)
  {
    match op
    case Join(t, email, role, newId, _) =>
      ShareOfUpdate(w.db.memberships, (t, UserEnsured(w.db, email, newId).users[email]), role, other);
    case Leave(t, u, _) => ShareOfRemoval(w.db.memberships, (t, u), other);
    case _ =>
  }

  lemma SecretSetKeepsRows(kek: Key, w: World, t: Uuid, name: string, s: Secret, other: Uuid)
    requires t != other
    ensures SameRows(w.db, SecretSet(kek, w, t, name, s).world.db, other)
  {
    var keyed := DekEnsured(kek, w.db, w.drawn, t);
    if DekOf(kek, keyed, t).Some? {
      var row := SealedSecret(DekOf(kek, keyed, t).value, DrawnByDek(w.db, w.drawn, t), s);
      ShareOfUpdate(w.db.secrets, (t, name), row, other);
    }
  }

  lemma StartKeepsRows(d: Deployment, w: World, t: Uuid, now: int, secrets: map<string, string>, other: Uuid)
    requires t != other
    ensures SameRows(w.db, TenantStarted(d.kek, d.cfg, w, t, now, secrets).world.db, other)
  {
    hide ContainerEnv, ProviderVar, Started, Share;
  }

  lemma WakeKeepsRows(d: Deployment, w: World, t: Uuid, now: int, secrets: map<string, string>, other: Uuid)
    requires t != other
    ensures SameRows(w.db, TenantWoken(d.kek, d.cfg, w, t, now, secrets).world.db, other)
  {
    hide TenantStarted, Unpaused, StateOf, Share;
    StartKeepsRows(d, w, t, now, secrets, other);
  }

  lemma RequestKeepsRows(d: Deployment, w: World, op: Op, other: Uuid)
    requires Addressee(op) != Some(other) && !op.Sweep?
    ensures SameRows(w.db, Apply(d, w, op).db, other)
  {
    hide TenantCreated, TenantStarted, TenantStopped, TenantPaused, TenantWoken, TenantTouched, TenantDeleted;
    hide MemberAdded, MemberRemoved, SecretSet, UserEnsured, Share;
    match op
    case Create(_, _, _, _, _) => CreateKeepsRows(w, op, other);
    case Start(t, now, secrets) => StartKeepsRows(d, w, t, now, secrets, other);
    case Stop(t) => StatusKeepsRows(w, t, 0, other);
    case Pause(t) => StatusKeepsRows(w, t, 0, other);
    case Touch(t, now) => StatusKeepsRows(w, t, now, other);
    case Wake(t, now, secrets) => WakeKeepsRows(d, w, t, now, secrets, other);
    case Delete(t, actor) => DeleteKeepsRows(w, t, actor, other);
    case SetSecret(t, name, s) => SecretSetKeepsRows(d.kek, w, t, name, s, other);
    case DropSecret(t, name) => ShareOfRemoval(w.db.secrets, (t, name), other);
    case Join(_, _, _, _, _) => MembersKeepRows(w, op, other);
    case Leave(_, _, _) => MembersKeepRows(w, op, other);
    case Login(_, _) => MembersKeepRows(w, op, other);
  }

  /** A request addressed to another tenant, or to none, leaves t's share alone. */
  lemma RequestFrames(d: Deployment, w: World, op: Op, t: Uuid)
    requires Addressee(op) != Some(t) && !op.Sweep?
    ensures SliceOf(Apply(d, w, op), t) == SliceOf(w, t)
  {
    RequestKeepsRows(d, w, op, t);
    if Addressee(op).Some? {
      RequestTouches(d, w, op);
      OthersUntouched(w.host, Apply(d, w, op).host, Addressee(op).value, t);
    }
    SameSlice(w, Apply(d, w, op), t);
  }

  // --- Sweeps, one slice at a time ---

  function SweptSlice(cfg: Settings, s: Slice, now: int): Slice {
    match s.row
    case None => s
    case Some(row) =>
      var d := Decide(cfg, row, now);
      var container := match d {
        case Keep => s.holdings.container
        case PauseIt =>
          if s.holdings.container.Some? then Some(PausedContainer(s.holdings.container.value)) else None
        case StopIt => None
      };
      s.(row := Some(SweptRow(row, d)), holdings := s.holdings.(container := container))
  }

  lemma SweepActsOnHoldings(cfg: Settings, w: World, now: int, t: Uuid)
    ensures HoldingsOf(Swept(cfg, w, now).host, t) == SweptSlice(cfg, SliceOf(w, t), now).holdings
  {
    hide SweptContainers, Decide;
    SweepActsOnContainer(cfg, w.db.tenants, w.host.containers, now, t);
  }

  lemma SweepActsOnContainer(cfg: Settings, rows: map<Uuid, TenantRow>, cs: map<string, Container>, now: int, t: Uuid)
    ensures
      var after := SweptContainers(cfg, rows, cs, now);
      && Lookup(after, InitName(t)) == Lookup(cs, InitName(t))
      && Lookup(after, ContainerName(t)) == match if t in rows then Decide(cfg, rows[t], now) else Keep {
           case Keep => Lookup(cs, ContainerName(t))
           case PauseIt => if ContainerName(t) in cs then Some(PausedContainer(cs[ContainerName(t)])) else None
           case StopIt => None
         }
  {
    hide Decide;
    assert Fate(cfg, rows, InitName(t), now) == Keep;
    assert Fate(cfg, rows, ContainerName(t), now) == if t in rows then Decide(cfg, rows[t], now) else Keep;
  }

  lemma SweepActsOnSlice(cfg: Settings, w: World, now: int, t: Uuid)
    ensures SliceOf(Swept(cfg, w, now), t) == SweptSlice(cfg, SliceOf(w, t), now)
  {
    SweepActsOnHoldings(cfg, w, now, t);
    var after := Swept(cfg, w, now);
    assert after.db == w.db.(tenants := after.db.tenants);
  }

  function SweepTimes(events: seq<Event>): seq<int>
    decreases |events|
  {
    if events == [] then []
    else
      var rest := SweepTimes(events[1..]);
      if events[0].Do? && events[0].op.Sweep? then [events[0].op.now] + rest else rest
  }

  /** No request is addressed to t, and no disturbance touches what the host holds for it. */
  predicate LeavesAlone(d: Deployment, w: World, events: seq<Event>, t: Uuid)
    decreases |events|
  {
    events != [] ==>
      && (match events[0]
          case Do(op) => Addressee(op) != Some(t)
          case Disturb(host) => HoldingsOf(host, t) == HoldingsOf(w.host, t))
      && LeavesAlone(d, Happen(d, w, events[0]), events[1..], t)
  }

  function SliceAfter(cfg: Settings, s: Slice, e: Event): Slice {
    if e.Do? && e.op.Sweep? then SweptSlice(cfg, s, e.op.now) else s
  }

  lemma EventFrames(d: Deployment, w: World, e: Event, t: Uuid)
    requires match e {
      case Do(op) => Addressee(op) != Some(t)
      case Disturb(host) => HoldingsOf(host, t) == HoldingsOf(w.host, t)
    }
    ensures SliceOf(Happen(d, w, e), t) == SliceAfter(d.cfg, SliceOf(w, t), e)
  {
    match e
    case Do(op) =>
      if op.Sweep? {
        SweepActsOnSlice(d.cfg, w, op.now, t);
      } else {
        RequestFrames(d, w, op, t);
      }
    case Disturb(host) => SameSlice(w, w.(host := host), t);
  }

  lemma {:induction false} SameSweeps(cfg: Settings, a: World, b: World, times: seq<int>, t: Uuid)
    requires SliceOf(a, t) == SliceOf(b, t)
    ensures SliceOf(SweptAll(cfg, a, times), t) == SliceOf(SweptAll(cfg, b, times), t)
    decreases |times|
  {
    hide SliceOf, Swept, SweptSlice;
    if times != [] {
      SweepActsOnSlice(cfg, a, times[0], t);
      SweepActsOnSlice(cfg, b, times[0], t);
      SameSweeps(cfg, Swept(cfg, a, times[0]), Swept(cfg, b, times[0]), times[1..], t);
    }
  }

  /** Over any run that leaves t alone, t's share is what the sweeps by themselves would have made of it. */
  lemma {:induction false} OthersInvisible(d: Deployment, w: World, events: seq<Event>, t: Uuid)
    requires LeavesAlone(d, w, events, t)
    ensures SliceOf(Run(d, w, events), t) == SliceOf(SweptAll(d.cfg, w, SweepTimes(events)), t)
    decreases |events|
  {
    hide SliceOf, SweptSlice, Swept, Apply;
    if events != [] {
      var next := Happen(d, w, events[0]);
      EventFrames(d, w, events[0], t);
      OthersInvisible(d, next, events[1..], t);
      if events[0].Do? && events[0].op.Sweep? {
        assert SweepTimes(events)[1..] == SweepTimes(events[1..]);
        SweepIsSwept(d, w, events[0].op.now);
      } else {
        SameSweeps(d.cfg, next, w, SweepTimes(events[1..]), t);
      }
    }
  }

  lemma SweepIsSwept(d: Deployment, w: World, now: int)
    ensures Apply(d, w, Sweep(now)) == Swept(d.cfg, w, now)
  {
  }

  /** Without sweeps, nothing of t's changes at all. */
  lemma TenantFraming(d: Deployment, w: World, events: seq<Event>, t: Uuid)
    requires LeavesAlone(d, w, events, t) && SweepTimes(events) == []
    ensures SliceOf(Run(d, w, events), t) == SliceOf(w, t)
  {
    OthersInvisible(d, w, events, t);
  }

  // --- The timed bound ---

  lemma EarlySweepKeeps(cfg: Settings, w: World, now: int, t: Uuid)
    requires t in w.db.tenants
    requires now <= LastActive(w.db.tenants[t]) + cfg.idlePause && now <= LastActive(w.db.tenants[t]) + cfg.idleStop
    ensures SliceOf(Swept(cfg, w, now), t) == SliceOf(w, t)
    ensures t in Swept(cfg, w, now).db.tenants && Swept(cfg, w, now).db.tenants[t] == w.db.tenants[t]
  {
    SweepActsOnSlice(cfg, w, now, t);
  }

  lemma {:induction false} EarlySweepsKeep(cfg: Settings, w: World, times: seq<int>, t: Uuid)
    requires t in w.db.tenants
    requires forall i :: 0 <= i < |times| ==>
      && times[i] <= LastActive(w.db.tenants[t]) + cfg.idlePause
      && times[i] <= LastActive(w.db.tenants[t]) + cfg.idleStop
    ensures SliceOf(SweptAll(cfg, w, times), t) == SliceOf(w, t)
    decreases |times|
  {
    hide SliceOf, Swept;
    if times != [] {
      EarlySweepKeeps(cfg, w, times[0], t);
      EarlySweepsKeep(cfg, Swept(cfg, w, times[0]), times[1..], t);
    }
  }

  /** A tenant is untouched by every sweep up to its last activity plus the smaller threshold. */
  lemma AwakeWhileActive(d: Deployment, w: World, events: seq<Event>, t: Uuid)
    requires LeavesAlone(d, w, events, t) && t in w.db.tenants
    requires forall i :: 0 <= i < |SweepTimes(events)| ==>
      && SweepTimes(events)[i] <= LastActive(w.db.tenants[t]) + d.cfg.idlePause
      && SweepTimes(events)[i] <= LastActive(w.db.tenants[t]) + d.cfg.idleStop
    ensures SliceOf(Run(d, w, events), t) == SliceOf(w, t)
  {
    hide Run, LeavesAlone, SweptAll, SweepTimes, SliceOf;
    OthersInvisible(d, w, events, t);
    EarlySweepsKeep(d.cfg, w, SweepTimes(events), t);
  }

  /**
   With sweeps no further apart than `interval`, a tenant left alone is not
   RUNNING once idlePause and one interval have passed since its last activity,
   and neither RUNNING nor PAUSED once idleStop and one interval have: it is then
   STOPPED, without a container, if it was either of the two.
   */
  lemma AsleepInTime(d: Deployment, w: World, events: seq<Event>, t: Uuid, interval: int, now: int)
    requires LeavesAlone(d, w, events, t) && t in w.db.tenants
    requires SweepTimes(events) != [] && Nondecreasing(SweepTimes(events))
    requires now - interval <= SweepTimes(events)[|SweepTimes(events)| - 1]
    ensures t in Run(d, w, events).db.tenants
    ensures LastActive(w.db.tenants[t]) + d.cfg.idlePause + interval < now ==>
      Run(d, w, events).db.tenants[t].status != RUNNING
    ensures LastActive(w.db.tenants[t]) + d.cfg.idleStop + interval < now ==>
      && Run(d, w, events).db.tenants[t].status !in {RUNNING, PAUSED}
      && (w.db.tenants[t].status in {RUNNING, PAUSED} ==>
            && Run(d, w, events).db.tenants[t].status == STOPPED
            && ContainerName(t) !in Run(d, w, events).host.containers)
  {
    hide Run, LeavesAlone, SweptAll, SweepTimes, SliceOf, Nondecreasing, Swept;
    var last := SweepTimes(events)[|SweepTimes(events)| - 1];
    OthersInvisible(d, w, events, t);
    OnlyLastSweepCounts(d.cfg, w, SweepTimes(events));
    SameShown(Run(d, w, events), Swept(d.cfg, w, last), t);
    SweepEffect(d.cfg, w, last, t);
    StoppedHasNoContainer(d.cfg, w, last, t);
  }

  /** Equal slices, equal rows and containers. */
  lemma SameShown(a: World, b: World, t: Uuid)
    requires SliceOf(a, t) == SliceOf(b, t)
    ensures t in a.db.tenants <==> t in b.db.tenants
    ensures t in a.db.tenants ==> a.db.tenants[t] == b.db.tenants[t]
    ensures Lookup(a.host.containers, ContainerName(t)) == Lookup(b.host.containers, ContainerName(t))
    ensures StateOf(a.host, t) == StateOf(b.host, t)
  {
    hide Share;
    assert SliceOf(a, t).row == Lookup(a.db.tenants, t) && SliceOf(b, t).row == Lookup(b.db.tenants, t);
    assert SliceOf(a, t).holdings.container == Lookup(a.host.containers, ContainerName(t));
    assert SliceOf(b, t).holdings.container == Lookup(b.host.containers, ContainerName(t));
  }

  lemma StoppedHasNoContainer(cfg: Settings, w: World, now: int, t: Uuid)
    requires t in w.db.tenants
    ensures t in Swept(cfg, w, now).db.tenants
    ensures w.db.tenants[t].status in {RUNNING, PAUSED} && Swept(cfg, w, now).db.tenants[t].status == STOPPED ==>
      ContainerName(t) !in Swept(cfg, w, now).host.containers
  {
    assert Fate(cfg, w.db.tenants, ContainerName(t), now) == Decide(cfg, w.db.tenants[t], now);
  }
}
