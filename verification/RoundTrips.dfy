/** Operations that undo one another, activity that postpones hibernation, and isolation between containers. */
module RoundTrips {
  import opened Prelude
  import opened Naming
  import opened Docker
  import opened Database
  import opened Vault
  import opened Provider
  import opened Tenants
  import opened Hibernation
  import opened Runs
  import opened Slices
  import opened Lifecycle

  // --- Undoing ---

  /** Deleting a tenant just created restores every table and the host; only the log and the id supply remember it. */
  lemma CreateDeleteRestores(
    w: World, t: Uuid, slug: string, name: string, creator: Option<UserId>, now: int, actor: Option<UserId>)
    requires Sound(w.db)
    requires TenantCreated(w, t, slug, name, creator, now).result.Ok?
    requires HoldingsOf(w.host, t) == Holdings(None, None, None, None)
    ensures
      var after := TenantDeleted(TenantCreated(w, t, slug, name, creator, now).world, t, actor).world;
      && after.db == w.db.(
           audit := w.db.audit + [AuditEvent(t, creator, TenantCreate(slug)), AuditEvent(t, actor, TenantDelete)])
      && after.host == w.host.(next := after.host.next)
  {
    hide DirsCreated, NetworkCreated, CleanedUp, Cascaded, Sound, HoldingsOf;
    CreateDeleteHost(w.host, t);
    var created := TenantCreated(w, t, slug, name, creator, now).world;
    CascadeUndoes(w.db, t, created.db.tenants[t], creator, created.db.audit + [AuditEvent(t, actor, TenantDelete)]);
  }

  /** Cascading a tenant that has at most its creator's membership gives the tables back. */
  lemma CascadeUndoes(db: Db, t: Uuid, row: TenantRow, creator: Option<UserId>, audit: seq<AuditEvent>)
    requires Sound(db) && t !in db.tenants
    ensures
      var members := if creator.Some? then db.memberships[(t, creator.value) := TenantAdmin] else db.memberships;
      Cascaded(db.(tenants := db.tenants[t := row], memberships := members, audit := audit), t) == db.(audit := audit)
  {
    var members := if creator.Some? then db.memberships[(t, creator.value) := TenantAdmin] else db.memberships;
    var after := Cascaded(db.(tenants := db.tenants[t := row], memberships := members, audit := audit), t);
    assert after.tenants == db.tenants && after.deks == db.deks;
    MapsEqual(after.secrets, db.secrets) by {
      forall k ensures SameAt(after.secrets, db.secrets, k) {}
    }
    MapsEqual(after.memberships, db.memberships) by {
      forall k ensures SameAt(after.memberships, db.memberships, k) {}
    }
  }

  lemma CreateDeleteHost(h: Host, t: Uuid)
    requires HoldingsOf(h, t) == Holdings(None, None, None, None)
    ensures
      var created := NetworkCreated(DirsCreated(h, t), t);
      CleanedUp(created, t) == h.(next := created.next)
  {
    assert ContainerName(t) !in h.containers && NetworkName(t) !in h.networks && TenantDir(t) !in h.dirs;
    assert h.containers - {ContainerName(t)} == h.containers;
    assert h.networks[NetworkName(t) := h.next] - {NetworkName(t)} == h.networks;
    assert h.dirs[TenantDir(t) := Dir(None)] - {TenantDir(t)} == h.dirs;
  }

  /** Waking a tenant just paused gives back its container and row, with fresh activity. */
  lemma PauseWakeRestores(d: Deployment, w: World, t: Uuid, now: int, secrets: map<string, string>)
    requires InStep(SliceOf(w, t)) && t in w.db.tenants && w.db.tenants[t].status == RUNNING
    ensures
      var woken := TenantWoken(d.kek, d.cfg, TenantPaused(w, t).world, t, now, secrets);
      && woken.result == Ok(w.db.tenants[t].containerId)
      && woken.world.host == w.host
      && woken.world.db.tenants == w.db.tenants[t := RowTouched(w.db.tenants[t], now)]
  {
    hide PausedHost, Unpaused, StateOf, TenantStarted, InStep, SliceOf, HoldingsOf;
    PauseUnpause(w, t);
    var rows := w.db.tenants;
    assert rows[t := RowPaused(rows[t])][t := RowWoken(RowPaused(rows[t]), now)] == rows[t := RowTouched(rows[t], now)];
  }

  lemma PauseUnpause(w: World, t: Uuid)
    requires InStep(SliceOf(w, t)) && t in w.db.tenants && w.db.tenants[t].status == RUNNING
    ensures StateOf(PausedHost(w.host, t), t) == StatePaused
    ensures Unpaused(PausedHost(w.host, t), t) == w.host
  {
    hide Share;
    var paused := PausedHost(w.host, t);
    var c := w.host.containers[ContainerName(t)];
    assert c.(status := Paused).(status := Running) == c;
    assert Unpaused(paused, t).containers == w.host.containers;
  }

  /** Removing a member just added restores the table; the user account stays. */
  lemma JoinLeaveRestores(
    w: World, t: Uuid, email: string, role: Role, newId: UserId, actor: Option<UserId>)
    requires MemberAdded(w, t, email, role, newId, actor).result.Ok?
    ensures
      var joined := MemberAdded(w, t, email, role, newId, actor);
      var left := MemberRemoved(joined.world, t, joined.result.value, actor).world;
      && left.db.memberships == w.db.memberships
      && left.db.users == UserEnsured(w.db, email, newId).users
      && left.db.users[email] == joined.result.value
  {
  }

  // --- Activity ---

  /** Every way of using a tenant records the time of use. */
  lemma UseIsActivity(d: Deployment, w: World, op: Op)
    requires op.Start? || op.Wake? || op.Touch?
    requires Attempt(d, w, op).result.Ok? && op.t in w.db.tenants
    ensures op.t in Apply(d, w, op).db.tenants && LastActive(Apply(d, w, op).db.tenants[op.t]) == op.now
  {
    hide TenantStarted, TenantWoken;
    match op
    case Start(t, now, secrets) => StartIsActivity(d, w, t, now, secrets);
    case Wake(t, now, secrets) => WakeIsActivity(d, w, t, now, secrets);
    case Touch(_, _) =>
  }

  lemma StartIsActivity(d: Deployment, w: World, t: Uuid, now: int, secrets: map<string, string>)
    requires TenantStarted(d.kek, d.cfg, w, t, now, secrets).result.Ok?
    ensures
      var rows := TenantStarted(d.kek, d.cfg, w, t, now, secrets).world.db.tenants;
      t in rows && LastActive(rows[t]) == now
  {
    hide ContainerEnv, ProviderVar, Started, DekOf;
  }

  lemma WakeIsActivity(d: Deployment, w: World, t: Uuid, now: int, secrets: map<string, string>)
    requires TenantWoken(d.kek, d.cfg, w, t, now, secrets).result.Ok?
    ensures
      var rows := TenantWoken(d.kek, d.cfg, w, t, now, secrets).world.db.tenants;
      t in rows && LastActive(rows[t]) == now
  {
    hide TenantStarted, StateOf, Unpaused;
    if TenantStarted(d.kek, d.cfg, w, t, now, secrets).result.Ok? {
      StartIsActivity(d, w, t, now, secrets);
    }
  }

  /** So a use postpones hibernation by the smaller threshold, whatever else the system does meanwhile. */
  lemma UsePostponesHibernation(d: Deployment, w: World, op: Op, events: seq<Event>)
    requires op.Start? || op.Wake? || op.Touch?
    requires Attempt(d, w, op).result.Ok? && op.t in w.db.tenants
    requires LeavesAlone(d, Apply(d, w, op), events, op.t)
    requires forall i :: 0 <= i < |SweepTimes(events)| ==>
      SweepTimes(events)[i] <= op.now + d.cfg.idlePause && SweepTimes(events)[i] <= op.now + d.cfg.idleStop
    ensures SliceOf(Run(d, Apply(d, w, op), events), op.t) == SliceOf(Apply(d, w, op), op.t)
  {
    hide Apply, LeavesAlone, SweepTimes, SliceOf;
    UseIsActivity(d, w, op);
    AwakeWhileActive(d, Apply(d, w, op), events, op.t);
  }

  // --- Isolation ---

  /** A tenant's container sees its own directory and its own network only. */
  ghost predicate Isolated(container: Option<Container>, t: Uuid) {
    container.Some? ==>
      && container.value.mounts == map[
           "/home/node/.openclaw" := TenantDir(t) + "/state",
           "/home/node/.openclaw/workspace" := TenantDir(t) + "/workspace"]
      && container.value.nets == map[NetworkName(t) := Some(container.value.id)]
  }

  ghost predicate AllIsolated(h: Host) {
    forall t: Uuid {:trigger HoldingsOf(h, t)} :: Isolated(HoldingsOf(h, t).container, t)
  }

  lemma StartIsolates(h: Host, t: Uuid, env: map<string, string>)
    requires Isolated(HoldingsOf(h, t).container, t)
    ensures Isolated(HoldingsOf(Started(h, t, env), t).container, t)
  {
  }

  lemma StatusKeepsIsolated(h: Host, t: Uuid)
    requires Isolated(HoldingsOf(h, t).container, t)
    ensures Isolated(HoldingsOf(Stopped(h, t), t).container, t)
    ensures Isolated(HoldingsOf(PausedHost(h, t), t).container, t)
    ensures Isolated(HoldingsOf(Unpaused(h, t), t).container, t)
    ensures Isolated(HoldingsOf(CleanedUp(h, t), t).container, t)
    ensures Isolated(HoldingsOf(NetworkCreated(DirsCreated(h, t), t), t).container, t)
  {
  }

  lemma WakeIsolates(d: Deployment, w: World, t: Uuid, now: int, secrets: map<string, string>)
    requires Isolated(HoldingsOf(w.host, t).container, t)
    ensures Isolated(HoldingsOf(TenantWoken(d.kek, d.cfg, w, t, now, secrets).world.host, t).container, t)
    ensures Isolated(HoldingsOf(TenantStarted(d.kek, d.cfg, w, t, now, secrets).world.host, t).container, t)
  {
    hide Started, Unpaused, StateOf, HoldingsOf, ContainerEnv, ProviderVar, Isolated;
    StatusKeepsIsolated(w.host, t);
    if t in w.db.tenants && ProviderVar(w.db.tenants[t]).Ok? {
      StartIsolates(w.host, t, ContainerEnv(d.cfg, ProviderVar(w.db.tenants[t]).value, secrets));
    }
  }

  lemma RequestIsolates(d: Deployment, w: World, op: Op, t: Uuid)
    requires Isolated(HoldingsOf(w.host, t).container, t)
    ensures Isolated(HoldingsOf(Apply(d, w, op).host, t).container, t)
  {
    hide TenantWoken, TenantStarted, HoldingsOf, DirsCreated, NetworkCreated, Stopped, PausedHost, CleanedUp, Isolated;
    if op.Sweep? {
      SweepIsolates(d.cfg, w, op.now, t);
    } else if Addressee(op) != Some(t) {
      RequestFrames(d, w, op, t);
      assert SliceOf(Apply(d, w, op), t).holdings == SliceOf(w, t).holdings;
    } else if RowsOnly(op) {
      RowsOnlyKeepHost(d, w, op);
    } else {
      StatusKeepsIsolated(w.host, t);
      match op
      case Start(_, now, secrets) => WakeIsolates(d, w, t, now, secrets);
      case Wake(_, now, secrets) => WakeIsolates(d, w, t, now, secrets);
      case _ =>
    }
  }

  lemma SweepIsolates(cfg: Settings, w: World, now: int, t: Uuid)
    requires Isolated(HoldingsOf(w.host, t).container, t)
    ensures Isolated(HoldingsOf(Swept(cfg, w, now).host, t).container, t)
  {
    hide Swept, HoldingsOf;
    SweepActsOnHoldings(cfg, w, now, t);
  }

  /** Over every run of requests and sweeps, no container ever gains another's directory or network. */
  lemma {:induction false} RunIsolates(d: Deployment, w: World, events: seq<Event>)
    requires AllIsolated(w.host) && Undisturbed(events)
    ensures AllIsolated(Run(d, w, events).host)
    decreases |events|
  {
    hide Apply, HoldingsOf;
    if events != [] {
      forall t: Uuid ensures Isolated(HoldingsOf(Happen(d, w, events[0]).host, t).container, t) {
        RequestIsolates(d, w, events[0].op, t);
      }
      RunIsolates(d, Happen(d, w, events[0]), events[1..]);
    }
  }

  /** Isolated containers of different tenants share no network and no mounted directory. */
  lemma NothingShared(h: Host, t: Uuid, u: Uuid, target1: string, target2: string)
    requires AllIsolated(h) && t != u
    requires ContainerName(t) in h.containers && ContainerName(u) in h.containers
    requires target1 in h.containers[ContainerName(t)].mounts && target2 in h.containers[ContainerName(u)].mounts
    ensures h.containers[ContainerName(t)].nets.Keys !! h.containers[ContainerName(u)].nets.Keys
    ensures h.containers[ContainerName(t)].mounts[target1] != h.containers[ContainerName(u)].mounts[target2]
  {
    assert Isolated(HoldingsOf(h, t).container, t) && Isolated(HoldingsOf(h, u).container, u);
    hide Mounts, TenantDir, ContainerName;
    assert ContainerName(t) != ContainerName(u) && NetworkName(t) != NetworkName(u);
    DirsSameLength(t, u);
    var x := MountInside(TenantDir(t), target1);
    var y := MountInside(TenantDir(u), target2);
    DifferentPaths(TenantDir(t), TenantDir(u), x, y);
  }

  /** And each has an address of its own on its network, under which the edge finds it. */
  lemma AddressesDiffer(h: Host, t: Uuid, u: Uuid)
    requires AllIsolated(h) && SupplyAhead(h) && t != u
    requires ContainerName(t) in h.containers && ContainerName(u) in h.containers
    ensures AddressOf(h, t).Some? && AddressOf(h, u).Some? && AddressOf(h, t) != AddressOf(h, u)
    ensures AddressOf(h, t) == h.containers[ContainerName(t)].nets[NetworkName(t)]
  {
    hide ContainerName, NetworkName, TenantDir;
    assert Isolated(HoldingsOf(h, t).container, t) && Isolated(HoldingsOf(h, u).container, u);
    assert ContainerName(t) != ContainerName(u) by { NamesDiffer(t, u); }
  }

  lemma NamesDiffer(t: Uuid, u: Uuid)
    requires t != u
    ensures ContainerName(t) != ContainerName(u)
  {
    assert Owner(ContainerName(t)) == Some(t) && Owner(ContainerName(u)) == Some(u);
  }

  lemma MountInside(dir: string, target: string) returns (inside: string)
    requires target in Mounts(dir)
    ensures Mounts(dir)[target] == dir + inside
  {
    inside := if target == WORKSPACE_TARGET then "/workspace" else "/state";
  }

  lemma DifferentPaths(a: string, b: string, x: string, y: string)
    requires |a| == |b| && a != b
    ensures a + x != b + y
  {
    assert (a + x)[..|a|] == a && (b + y)[..|b|] == b;
  }

  lemma DirsSameLength(t: Uuid, u: Uuid)
    ensures |TenantDir(t)| == |TenantDir(u)|
    ensures t != u ==> TenantDir(t) != TenantDir(u)
  {
    assert Decode(TENANT_BASE_DIR + "/", TenantDir(t)) == Some(t);
    assert Decode(TENANT_BASE_DIR + "/", TenantDir(u)) == Some(u);
  }
}
