/** Concrete states in which a promise that is not always kept is broken. */
module Witnesses {
  import opened Prelude
  import opened Naming
  import opened Docker
  import opened Envelope
  import opened Database
  import opened Provider
  import opened Tenants
  import opened Hibernation
  import opened Runs
  import opened Slices
  import L = Lifecycle
  import Traffic

  const T: Uuid := "00000000000000000000000000000000"

  /** Default thresholds, no provider keys. */
  const DEPLOYMENT: Deployment := Deployment(Key(0), Settings(None, None, None, 1800, 28800))

  function Row(status: TenantStatus, containerId: Option<nat>): TenantRow {
    TenantRow("acme", "Acme", status, containerId, Some(1), None, Some(0), 0)
  }

  function OneTenant(row: TenantRow, status: RawStatus, networks: map<string, nat>): World {
    World(
      EMPTY_DB.(tenants := map[T := row]),
      Host(
        map[ContainerName(T) := NewContainer(2, T, BASE_ENV).(status := status)], networks,
        map[TenantDir(T) := Dir(None)], 3),
      1)
  }

  function Busy(): World {
    OneTenant(Row(RUNNING, Some(2)), Running, map[NetworkName(T) := 1])
  }

  lemma BusyInStep()
    ensures L.InStep(SliceOf(Busy(), T)) && StateOf(Busy().host, T) == StateRunning
    ensures Busy().db.tenants == map[T := Row(RUNNING, Some(2))]
  {
    hide ContainerName, NetworkName, TenantDir, InitName, Mounts;
  }

  /** Visited every ten minutes for half an hour, and paused one second later. */
  lemma BusyTenantPaused()
    ensures
      var visits := [Traffic.Visit(T, 600, map[]), Traffic.Visit(T, 1200, map[]), Traffic.Visit(T, 1800, map[])];
      var after := Swept(DEPLOYMENT.cfg, Traffic.Lived(DEPLOYMENT, Busy(), visits), 1801);
      && L.InStep(SliceOf(Busy(), T))
      && T in after.db.tenants && after.db.tenants[T].status == PAUSED
      && StateOf(after.host, T) == StatePaused
  {
    hide Busy, SliceOf, StateOf, Swept, Traffic.Lived, Traffic.OnlyVisited, L.InStep;
    BusyInStep();
    var visits := [Traffic.Visit(T, 600, map[]), Traffic.Visit(T, 1200, map[]), Traffic.Visit(T, 1800, map[])];
    Traffic.VisitsAlone(DEPLOYMENT, Busy(), visits, T, 0);
    Traffic.BusyYetHibernated(DEPLOYMENT, Busy(), visits, T, 1801);
  }

  /** A stopped tenant whose data key was wrapped under another master key. */
  function Sealed(): World {
    World(
      EMPTY_DB.(tenants := map[T := Row(STOPPED, None)],
                deks := map[T := DekRow(Envelope.Sealed(Key(7), 8, KeyPayload(Key(9))), 8)]),
      Host(map[], map[NetworkName(T) := 1], map[TenantDir(T) := Dir(None)], 2),
      10)
  }

  /** It is in step and asleep, and still no visit counts: the wake fails on the key. */
  lemma SealedTenantSleepsOn(now: int, secrets: map<string, string>)
    ensures L.InStep(SliceOf(Sealed(), T)) && StateOf(Sealed().host, T) == StateNotFound
    ensures Traffic.Visited(DEPLOYMENT, Sealed(), T, now, secrets) == Sealed()
    ensures !Traffic.CountsAsActivity(DEPLOYMENT, Sealed(), T)
  {
    hide ContainerName, NetworkName, TenantDir, InitName, Traffic.CountsAsActivity;
    Traffic.CountsExactly(DEPLOYMENT, Sealed(), T);
  }

  /** A row that lost track of its running container: a wake succeeds, returns no id and repairs nothing. */
  lemma WakeLeavesDrift()
    ensures
      var w := OneTenant(Row(STOPPED, None), Running, map[NetworkName(T) := 1]);
      var woken := TenantWoken(DEPLOYMENT.kek, DEPLOYMENT.cfg, w, T, 60, map[]);
      && woken.result == Ok(None)
      && woken.world.db.tenants[T].status == STOPPED
      && !L.InStep(SliceOf(woken.world, T))
  {
    hide ContainerName, NetworkName, TenantDir;
    var w := OneTenant(Row(STOPPED, None), Running, map[NetworkName(T) := 1]);
    var woken := TenantWoken(DEPLOYMENT.kek, DEPLOYMENT.cfg, w, T, 60, map[]);
    assert SliceOf(woken.world, T).row == Some(RowTouched(Row(STOPPED, None), 60));
  }

  /** A network removed behind the tenant's back: a start succeeds, makes another one, and the row keeps the old id. */
  lemma StartLeavesNetworkDrift()
    ensures
      var w := OneTenant(Row(STOPPED, None), Exited, map[]);
      var started := TenantStarted(DEPLOYMENT.kek, DEPLOYMENT.cfg, w, T, 60, map[]);
      && started.result.Ok?
      && NetworkName(T) in started.world.host.networks
      && started.world.db.tenants[T].networkId != Some(started.world.host.networks[NetworkName(T)])
      && !L.InStep(SliceOf(started.world, T))
  {
    hide ContainerName, NetworkName, TenantDir, ContainerEnv;
    var w := OneTenant(Row(STOPPED, None), Exited, map[]);
    L.StartRepairsAllButNetwork(DEPLOYMENT, w, T, 60, map[]);
  }
}
