/**
 What each tenant operation does, as a step of one world: the session's view of
 the database, the Docker host and the random supply. The service class carries
 the operations out; everything proved about runs is proved about these steps.
 */
module Tenants {
  import opened Prelude
  import opened Naming
  import opened Docker
  import opened Envelope
  import opened Database
  import opened Vault
  import opened Provider

  datatype World = World(db: Db, host: Host, drawn: nat)

  /** Where an operation leaves the world, and what it returned or raised. */
  datatype Outcome<+T> = Outcome(world: World, result: Result<T>)

  const BASE_ENV: map<string, string> :=
    map["OPENCLAW_GATEWAY_BIND" := "lan", "OPENCLAW_GATEWAY_PORT" := "18789", "OPENCLAW_CANVAS_PORT" := "18790"]

  /** The container environment: base values, then the provider key, then the tenant's secrets on top. */
  function ContainerEnv(cfg: Settings, providerVar: Option<string>, secrets: map<string, string>): map<string, string> {
    var withKey :=
      if providerVar.Some? && ApiKey(cfg, providerVar.value).Some?
      then BASE_ENV[providerVar.value := ApiKey(cfg, providerVar.value).value]
      else BASE_ENV;
    withKey + secrets
  }

  /** The variable the row's provider takes its key from; no provider, no variable. */
  function ProviderVar(row: TenantRow): Result<Option<string>> {
    if row.provider.None? || row.provider.value == "" then Ok(None)
    else match GetProvider(row.provider.value)
      case Err(e) => Err(e)
      case Ok(spec) => Ok(Some(spec.envVar))
  }

  function RowRunning(row: TenantRow, id: nat, now: int): TenantRow {
    row.(status := RUNNING, containerId := Some(id), lastActivity := Some(now))
  }

  function RowWoken(row: TenantRow, now: int): TenantRow {
    row.(status := RUNNING, lastActivity := Some(now))
  }

  function RowTouched(row: TenantRow, now: int): TenantRow {
    row.(lastActivity := Some(now))
  }

  function RowStopped(row: TenantRow): TenantRow {
    row.(status := STOPPED, containerId := None)
  }

  function RowPaused(row: TenantRow): TenantRow {
    row.(status := PAUSED)
  }

  function TenantCreated(w: World, t: Uuid, slug: string, name: string, creator: Option<UserId>, now: int)
    : Outcome<()>
  {
    if t in w.db.tenants || SlugInUse(w.db, slug) then Outcome(w, Err(IntegrityError))
    else
      var host := NetworkCreated(DirsCreated(w.host, t), t);
      var row := TenantRow(slug, name, STOPPED, None, Some(host.networks[NetworkName(t)]), None, None, now);
      var db := Audited(w.db.(tenants := w.db.tenants[t := row]), t, creator, TenantCreate(slug));
      match creator
      case None => Outcome(World(db, host, w.drawn), Ok(()))
      case Some(u) =>
        if u !in w.db.users.Values || (t, u) in w.db.memberships then Outcome(w.(host := host), Err(IntegrityError))
        else Outcome(World(db.(memberships := db.memberships[(t, u) := TenantAdmin]), host, w.drawn), Ok(()))
  }

  /** `secrets` is the dictionary the vault handed back; the rows' order may have decided it. */
  function TenantStarted(kek: Key, cfg: Settings, w: World, t: Uuid, now: int, secrets: map<string, string>)
    : Outcome<nat>
  {
    if t !in w.db.tenants then Outcome(w, Err(TenantNotFound))
    else
      var drawn := DrawnByDek(w.db, w.drawn, t);
      match ProviderVar(w.db.tenants[t])
      case Err(e) => Outcome(w.(drawn := drawn), Err(e))
      case Ok(providerVar) =>
        var host := Started(w.host, t, ContainerEnv(cfg, providerVar, secrets));
        var id := host.containers[ContainerName(t)].id;
        var keyed := DekEnsured(kek, w.db, w.drawn, t);
        var db := Audited(Updated(keyed, t, row => RowRunning(row, id, now)), t, None, ContainerStart);
        Outcome(World(db, host, drawn), Ok(id))
  }

  /** Stopping and pausing write their audit event even when there is no such row. */
  function TenantStopped(w: World, t: Uuid): Outcome<()> {
    var db := Audited(Updated(w.db, t, RowStopped), t, None, ContainerStop);
    Outcome(World(db, Stopped(w.host, t), w.drawn), Ok(()))
  }

  function TenantPaused(w: World, t: Uuid): Outcome<()> {
    var db := Audited(Updated(w.db, t, RowPaused), t, None, ContainerPause);
    Outcome(World(db, PausedHost(w.host, t), w.drawn), Ok(()))
  }

  function TenantTouched(w: World, t: Uuid, now: int): Outcome<()> {
    Outcome(w.(db := Updated(w.db, t, row => RowTouched(row, now))), Ok(()))
  }

  /** None stands for the empty string `container_id or ""` gives. */
  function TenantWoken(kek: Key, cfg: Settings, w: World, t: Uuid, now: int, secrets: map<string, string>)
    : Outcome<Option<nat>>
  {
    match StateOf(w.host, t)
    case StateRunning =>
      if t !in w.db.tenants then Outcome(w, Err(AttributeError))
      else Outcome(TenantTouched(w, t, now).world, Ok(w.db.tenants[t].containerId))
    case StatePaused =>
      var host := Unpaused(w.host, t);
      if t !in w.db.tenants then Outcome(w.(host := host), Err(AttributeError))
      else
        var db := Audited(Updated(w.db, t, row => RowWoken(row, now)), t, None, ContainerWake);
        Outcome(World(db, host, w.drawn), Ok(w.db.tenants[t].containerId))
    case _ =>
      var started := TenantStarted(kek, cfg, w, t, now, secrets);
      Outcome(started.world, if started.result.Ok? then Ok(Some(started.result.value)) else Err(started.result.error))
  }

  function TenantDeleted(w: World, t: Uuid, user: Option<UserId>): Outcome<()> {
    if t !in w.db.tenants then Outcome(w, Ok(()))
    else Outcome(World(Cascaded(Audited(w.db, t, user, TenantDelete), t), CleanedUp(w.host, t), w.drawn), Ok(()))
  }

  function UserEnsured(db: Db, email: string, newId: UserId): Db {
    if email in db.users then db else db.(users := db.users[email := newId])
  }

  function MemberAdded(w: World, t: Uuid, email: string, role: Role, newId: UserId, actor: Option<UserId>)
    : Outcome<UserId>
  {
    var db := UserEnsured(w.db, email, newId);
    var u := db.users[email];
    if t !in w.db.tenants || (t, u) in w.db.memberships then Outcome(w, Err(IntegrityError))
    else
      var joined := db.(memberships := db.memberships[(t, u) := role]);
      Outcome(w.(db := Audited(joined, t, actor, MemberAdd(email, role))), Ok(u))
  }

  function MemberRemoved(w: World, t: Uuid, u: UserId, actor: Option<UserId>): Outcome<()> {
    if (t, u) !in w.db.memberships then Outcome(w, Ok(()))
    else
      var left := w.db.(memberships := w.db.memberships - {(t, u)});
      Outcome(w.(db := Audited(left, t, actor, MemberRemove(u))), Ok(()))
  }
}
