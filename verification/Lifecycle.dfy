/**
 The invariant that keeps rows and containers in step, kept by every run of
 completed requests and sweeps, and which requests repair which drift when it
 has been lost.
 */
module Lifecycle {
  import opened Prelude
  import opened Naming
  import opened Docker
  import opened Database
  import opened Vault
  import opened Provider
  import opened Tenants
  import opened Hibernation
  import opened Runs
  import opened Slices

  /** A row's status and container id match its container. */
  ghost predicate ContainerAgrees(row: TenantRow, container: Option<Container>) {
    match row.status
    case RUNNING =>
      container.Some? && container.value.status == Running && row.containerId == Some(container.value.id)
    case STOPPED => container.None? && row.containerId.None?
    case PAUSED =>
      || (container.None? && row.containerId.None?)
      || (container.Some? && container.value.status == Paused && row.containerId == Some(container.value.id))
    case _ => false
  }

  ghost predicate NetworkAgrees(row: TenantRow, network: Option<nat>) {
    network.Some? && row.networkId == network
  }

  /** One tenant in step: a row agrees with what Docker holds, and no row means no container. */
  ghost predicate InStep(s: Slice) {
    match s.row
    case None => s.holdings.container.None?
    case Some(row) => ContainerAgrees(row, s.holdings.container) && NetworkAgrees(row, s.holdings.network)
  }

  ghost predicate Lifecycle(w: World) {
    forall t: Uuid {:trigger SliceOf(w, t)} :: InStep(SliceOf(w, t))
  }

  /** RUNNING in the row is exactly running in Docker under the recorded id. */
  lemma RunningExactly(w: World, t: Uuid)
    requires Lifecycle(w) && t in w.db.tenants
    ensures w.db.tenants[t].status == RUNNING <==> StateOf(w.host, t) == StateRunning
    ensures StateOf(w.host, t) in {StateRunning, StatePaused, StateNotFound}
    ensures StateOf(w.host, t) != StateNotFound ==>
      w.db.tenants[t].containerId == Some(w.host.containers[ContainerName(t)].id)
  {
    assert InStep(SliceOf(w, t));
  }

  lemma SweepKeeps(cfg: Settings, s: Slice, now: int)
    requires InStep(s)
    ensures InStep(SweptSlice(cfg, s, now))
  {
  }

  lemma CreateKeeps(w: World, t: Uuid, slug: string, name: string, creator: Option<UserId>, now: int)
    requires InStep(SliceOf(w, t))
    ensures
      var o := TenantCreated(w, t, slug, name, creator, now);
      InStep(SliceOf(if o.result.Ok? then o.world else o.world.(db := w.db), t))
  {
  }

  lemma StopKeeps(w: World, t: Uuid)
    requires InStep(SliceOf(w, t))
    ensures TenantStopped(w, t).result.Ok? && InStep(SliceOf(TenantStopped(w, t).world, t))
  {
  }

  lemma PauseKeeps(w: World, t: Uuid)
    requires InStep(SliceOf(w, t))
    ensures TenantPaused(w, t).result.Ok? && InStep(SliceOf(TenantPaused(w, t).world, t))
  {
  }

  lemma DeleteKeeps(w: World, t: Uuid, actor: Option<UserId>)
    requires InStep(SliceOf(w, t))
    ensures TenantDeleted(w, t, actor).result.Ok? && InStep(SliceOf(TenantDeleted(w, t, actor).world, t))
  {
  }

  lemma StartKeeps(d: Deployment, w: World, t: Uuid, now: int, secrets: map<string, string>)
    requires InStep(SliceOf(w, t))
    ensures
      var o := TenantStarted(d.kek, d.cfg, w, t, now, secrets);
      InStep(SliceOf(if o.result.Ok? then o.world else o.world.(db := w.db), t))
  {
    hide ContainerEnv, ProviderVar;
  }

  lemma WakeKeeps(d: Deployment, w: World, t: Uuid, now: int, secrets: map<string, string>)
    requires InStep(SliceOf(w, t))
    ensures
      var o := TenantWoken(d.kek, d.cfg, w, t, now, secrets);
      InStep(SliceOf(if o.result.Ok? then o.world else o.world.(db := w.db), t))
  {
    hide TenantStarted;
    StartKeeps(d, w, t, now, secrets);
  }

  lemma RowsOnlyKeepStatus(d: Deployment, w: World, op: Op, t: Uuid)
    requires RowsOnly(op)
    ensures
      var before, after := Lookup(w.db.tenants, t), Lookup(Apply(d, w, op).db.tenants, t);
      before.Some? == after.Some?
      && (before.Some? ==> after.value == before.value.(lastActivity := after.value.lastActivity))
  {
    hide DekOf;
  }

  /** Requests about members, secrets, logins and activity keep status, ids and Docker. */
  lemma OthersKeep(d: Deployment, w: World, op: Op, t: Uuid)
    requires RowsOnly(op)
    requires InStep(SliceOf(w, t))
    ensures InStep(SliceOf(Apply(d, w, op), t))
  {
    hide Share, Apply;
    RowsOnlyKeepHost(d, w, op);
    RowsOnlyKeepStatus(d, w, op, t);
  }

  lemma RequestKeeps(d: Deployment, w: World, op: Op, t: Uuid)
    requires Lifecycle(w)
    ensures InStep(SliceOf(Apply(d, w, op), t))
  {
    hide SliceOf, TenantCreated, TenantStarted, TenantStopped, TenantPaused, TenantWoken, TenantDeleted, InStep;
    assert InStep(SliceOf(w, t));
    if op.Sweep? {
      SweepActsOnSlice(d.cfg, w, op.now, t);
      SweepKeeps(d.cfg, SliceOf(w, t), op.now);
    } else if Addressee(op) != Some(t) {
      RequestFrames(d, w, op, t);
    } else {
      match op
      case Create(_, slug, name, creator, now) => CreateKeeps(w, t, slug, name, creator, now);
      case Start(_, now, secrets) => StartKeeps(d, w, t, now, secrets);
      case Stop(_) => StopKeeps(w, t);
      case Pause(_) => PauseKeeps(w, t);
      case Wake(_, now, secrets) => WakeKeeps(d, w, t, now, secrets);
      case Delete(_, actor) => DeleteKeeps(w, t, actor);
      case _ => OthersKeep(d, w, op, t);
    }
  }

  /** The lifecycle invariant over every run of completed or cleanly refused requests and sweeps. */
  lemma {:induction false} RunKeepsLifecycle(d: Deployment, w: World, events: seq<Event>)
    requires Lifecycle(w) && Undisturbed(events)
    ensures Lifecycle(Run(d, w, events))
    decreases |events|
  {
    hide Lifecycle, Apply;
    if events != [] {
      RequestKeepsAll(d, w, events[0].op);
      RunKeepsLifecycle(d, Happen(d, w, events[0]), events[1..]);
    }
  }

  lemma RequestKeepsAll(d: Deployment, w: World, op: Op)
    requires Lifecycle(w)
    ensures Lifecycle(Apply(d, w, op))
  {
    hide Apply, InStep, SliceOf;
    forall t: Uuid ensures InStep(SliceOf(Apply(d, w, op), t)) {
      RequestKeeps(d, w, op, t);
    }
  }

  // --- Repair from arbitrary drift ---

  /** A completed start leaves a RUNNING row and its running container, whatever was there before. */
  lemma StartConverges(d: Deployment, w: World, t: Uuid, now: int, secrets: map<string, string>)
    requires TenantStarted(d.kek, d.cfg, w, t, now, secrets).result.Ok?
    ensures
      var after := SliceOf(TenantStarted(d.kek, d.cfg, w, t, now, secrets).world, t);
      && after.row.Some? && after.row.value.status == RUNNING
      && ContainerAgrees(after.row.value, after.holdings.container)
      && after.row.value.containerId == Some(TenantStarted(d.kek, d.cfg, w, t, now, secrets).result.value)
  {
    hide ContainerEnv, ProviderVar;
  }

  /**
   A start does not repair the network: one that is missing is made again under
   a new id while the row keeps the old one. So the whole tenant is in step
   after a start exactly when its network already was.
   */
  lemma StartRepairsAllButNetwork(d: Deployment, w: World, t: Uuid, now: int, secrets: map<string, string>)
    requires TenantStarted(d.kek, d.cfg, w, t, now, secrets).result.Ok?
    requires w.db.tenants[t].networkId.Some? ==> w.db.tenants[t].networkId.value < w.host.next
    ensures InStep(SliceOf(TenantStarted(d.kek, d.cfg, w, t, now, secrets).world, t))
      <==> NetworkAgrees(w.db.tenants[t], SliceOf(w, t).holdings.network)
  {
    hide ContainerEnv, ProviderVar;
    StartConverges(d, w, t, now, secrets);
  }

  lemma StopConverges(w: World, t: Uuid)
    requires t in w.db.tenants
    ensures
      var after := SliceOf(TenantStopped(w, t).world, t);
      && after.row.Some? && after.row.value.status == STOPPED
      && ContainerAgrees(after.row.value, after.holdings.container)
  {
  }

  lemma DeleteConverges(w: World, t: Uuid, actor: Option<UserId>)
    requires t in w.db.tenants
    ensures
      var after := SliceOf(TenantDeleted(w, t, actor).world, t);
      && after.row.None? && after.dek.None? && after.secrets == map[] && after.members == map[]
      && after.holdings.container.None? && after.holdings.network.None? && after.holdings.dir.None?
  {
  }

  /**
   A completed wake always leaves a running container. It repairs the row too
   exactly when it had to start one, or when the row already recorded the
   container's id and, for a running container, RUNNING.
   */
  lemma WakeConverges(d: Deployment, w: World, t: Uuid, now: int, secrets: map<string, string>)
    requires TenantWoken(d.kek, d.cfg, w, t, now, secrets).result.Ok?
    ensures
      var after := SliceOf(TenantWoken(d.kek, d.cfg, w, t, now, secrets).world, t);
      && after.holdings.container.Some? && after.holdings.container.value.status == Running
      && after.row.Some?
      && (ContainerAgrees(after.row.value, after.holdings.container) <==>
            match StateOf(w.host, t)
            case StateRunning =>
              && w.db.tenants[t].status == RUNNING
              && w.db.tenants[t].containerId == Some(w.host.containers[ContainerName(t)].id)
            case StatePaused => w.db.tenants[t].containerId == Some(w.host.containers[ContainerName(t)].id)
            case _ => true)
  {
    hide TenantStarted;
    if !Awake(w.host, t) {
      WokenByStart(d, w, t, now, secrets);
      StartConverges(d, w, t, now, secrets);
    }
  }

  lemma WokenByStart(d: Deployment, w: World, t: Uuid, now: int, secrets: map<string, string>)
    requires !Awake(w.host, t)
    ensures TenantWoken(d.kek, d.cfg, w, t, now, secrets).world == TenantStarted(d.kek, d.cfg, w, t, now, secrets).world
    ensures TenantWoken(d.kek, d.cfg, w, t, now, secrets).result.Ok?
      <==> TenantStarted(d.kek, d.cfg, w, t, now, secrets).result.Ok?
  {
    hide TenantStarted;
  }

  // --- Container and network ids ---

  lemma StartKeepsSupply(h: Host, t: Uuid, env: map<string, string>)
    requires SupplyAhead(h)
    ensures SupplyAhead(Started(h, t, env))
  {
    hide SupplyAhead, NetworkCreated;
    StatusKeepsSupply(h, t);
    if Awake(h, t) {
      IdInUse(h, ContainerName(t));
      var c := h.containers[ContainerName(t)].(status := Running);
      PutKeepsSupply(DirsCreated(h, t), ContainerName(t), c, h.next);
    } else {
      var ready := NetworkCreated(DirsCreated(h, t), t);
      PutKeepsSupply(ready, ContainerName(t), NewContainer(ready.next, t, env), ready.next + 1);
    }
  }

  lemma IdInUse(h: Host, n: string)
    requires SupplyAhead(h) && n in h.containers
    ensures h.containers[n].id < h.next
  {
  }

  lemma PutKeepsSupply(h: Host, n: string, c: Container, next: nat)
    requires SupplyAhead(h) && h.next <= next && c.id < next
    requires h.next <= c.id || (n in h.containers && h.containers[n].id == c.id)
    ensures SupplyAhead(h.(containers := h.containers[n := c], next := next))
  {
  }

  lemma StatusKeepsSupply(h: Host, t: Uuid)
    requires SupplyAhead(h)
    ensures SupplyAhead(Stopped(h, t)) && SupplyAhead(PausedHost(h, t)) && SupplyAhead(Unpaused(h, t))
    ensures SupplyAhead(CleanedUp(h, t)) && SupplyAhead(NetworkCreated(DirsCreated(h, t), t))
    ensures SupplyAhead(DirsCreated(h, t))
  {
    hide ContainerName, NetworkName, TenantDir, SupplyAhead;
    SupplyFrame(h, Stopped(h, t));
    SupplyFrame(h, PausedHost(h, t));
    SupplyFrame(h, Unpaused(h, t));
    SupplyFrame(h, CleanedUp(h, t));
    SupplyFrame(h, DirsCreated(h, t));
    NetworkKeepsSupply(h, t);
  }

  lemma NetworkKeepsSupply(h: Host, t: Uuid)
    requires SupplyAhead(h)
    ensures SupplyAhead(NetworkCreated(DirsCreated(h, t), t))
  {
    hide ContainerName, NetworkName, TenantDir, SupplyAhead;
    SupplyFrame(h, NetworkCreated(DirsCreated(h, t), t));
  }

  /** No container under a new id, no network under one not drawn. */
  lemma SupplyFrame(a: Host, b: Host)
    requires SupplyAhead(a) && a.next <= b.next
    requires forall n :: n in b.containers ==> n in a.containers && b.containers[n].id == a.containers[n].id
    requires forall n :: n in b.networks ==>
      (n in a.networks && b.networks[n] == a.networks[n]) || b.networks[n] < b.next
    ensures SupplyAhead(b)
  {
  }

  lemma WakeKeepsSupply(d: Deployment, w: World, t: Uuid, now: int, secrets: map<string, string>)
    requires SupplyAhead(w.host)
    ensures SupplyAhead(TenantStarted(d.kek, d.cfg, w, t, now, secrets).world.host)
    ensures SupplyAhead(TenantWoken(d.kek, d.cfg, w, t, now, secrets).world.host)
  {
    hide Started, Unpaused, StateOf, ContainerEnv, ProviderVar, SupplyAhead;
    StatusKeepsSupply(w.host, t);
    if t in w.db.tenants && ProviderVar(w.db.tenants[t]).Ok? {
      StartKeepsSupply(w.host, t, ContainerEnv(d.cfg, ProviderVar(w.db.tenants[t]).value, secrets));
    }
  }

  lemma RequestKeepsSupply(d: Deployment, w: World, op: Op)
    requires SupplyAhead(w.host)
    ensures SupplyAhead(Apply(d, w, op).host)
  {
    hide TenantStarted, TenantWoken, SupplyAhead, Stopped, PausedHost, CleanedUp, NetworkCreated, DirsCreated;
    if op.Sweep? {
      SweepKeepsSupply(d.cfg, w, op.now);
    } else if RowsOnly(op) {
      RowsOnlyKeepHost(d, w, op);
    } else {
      StatusKeepsSupply(w.host, op.t);
      match op
      case Start(t, now, secrets) => WakeKeepsSupply(d, w, t, now, secrets);
      case Wake(t, now, secrets) => WakeKeepsSupply(d, w, t, now, secrets);
      case _ =>
    }
  }

  lemma SweepKeepsSupply(cfg: Settings, w: World, now: int)
    requires SupplyAhead(w.host)
    ensures SupplyAhead(Swept(cfg, w, now).host)
  {
    hide Fate;
  }

  /** Over every run of requests and sweeps each id in use was drawn, so the next one drawn is new. */
  lemma {:induction false} RunKeepsSupply(d: Deployment, w: World, events: seq<Event>)
    requires SupplyAhead(w.host) && Undisturbed(events)
    ensures SupplyAhead(Run(d, w, events).host)
    decreases |events|
  {
    hide Apply, SupplyAhead;
    if events != [] {
      RequestKeepsSupply(d, w, events[0].op);
      RunKeepsSupply(d, Happen(d, w, events[0]), events[1..]);
    }
  }

  /** A stop drops every container a drifted host may hold, and a start then builds a fresh one. */
  lemma RestartIsFresh(d: Deployment, w: World, t: Uuid, now: int, secrets: map<string, string>)
    requires TenantStarted(d.kek, d.cfg, TenantStopped(w, t).world, t, now, secrets).result.Ok?
    requires SupplyAhead(w.host)
    ensures
      var id := TenantStarted(d.kek, d.cfg, TenantStopped(w, t).world, t, now, secrets).result.value;
      forall n :: n in w.host.containers ==> w.host.containers[n].id != id
  {
    hide ContainerEnv, ProviderVar;
  }
}
