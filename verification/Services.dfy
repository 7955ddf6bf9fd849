/** The tenant service: session rows, vault and orchestrator driven together. */
module Services {
  import opened Prelude
  import opened Naming
  import opened Docker
  import opened Database
  import opened Vault
  import opened Provider
  import opened Tenants

  /** Failures of a daemon or a connection, which may strike at any await. */
  const FAULTS: set<Error> := {DockerError, DatabaseError}

  class TenantService {
    const orch: DockerOrchestrator
    const vault: VaultService
    const cfg: Settings

    constructor (orch: DockerOrchestrator, vault: VaultService, cfg: Settings)
      ensures this.orch == orch && this.vault == vault && this.cfg == cfg
    {
      this.orch, this.vault, this.cfg := orch, vault, cfg;
    }

    /** The world as this request sees it. */
    ghost function Sees(session: Session): World
      reads session, orch, vault.vault
    {
      World(session.db, orch.View(), vault.vault.drawn)
    }

    /** Neither the daemon nor the database will fail this request. */
    predicate Reliable(session: Session) {
      orch.reliable && session.reliable
    }

    method CreateResources(t: Uuid) returns (r: Result<nat>)
      modifies orch
      ensures orch.reliable ==> r.Ok?
      ensures r.Ok? ==> orch.View() == NetworkCreated(DirsCreated(old(orch.View()), t), t)
      ensures r.Ok? ==> NetworkName(t) in orch.networks && r.value == orch.networks[NetworkName(t)]
      ensures r.Err? ==> r.error == DockerError
      ensures OnlyTouches(old(orch.View()), orch.View(), t)
      ensures orch.containers == old(orch.containers)
    {
      var dirs := orch.CreateTenantDirs(t);
      if dirs.Err? {
        return Err(DockerError);
      }
      ghost var withDirs := orch.View();
      r := orch.CreateNetwork(t);
      TouchesTwice(old(orch.View()), withDirs, orch.View(), t);
      if r.Err? {
        return Err(DockerError);
      }
    }

    method CreateTenant(session: Session, t: Uuid, slug: string, name: string, creator: Option<UserId>, now: int)
      returns (r: Result<()>)
      modifies session`db, orch
      ensures r.Ok? ==> TenantCreated(old(Sees(session)), t, slug, name, creator, now) == Outcome(Sees(session), Ok(()))
      ensures r == Err(IntegrityError) ==>
        && TenantCreated(old(Sees(session)), t, slug, name, creator, now).result == r
        && TenantCreated(old(Sees(session)), t, slug, name, creator, now).world.host == orch.View()
      ensures r.Err? ==> r.error == IntegrityError || r.error in FAULTS
      ensures Reliable(session) ==>
        if TenantCreated(old(Sees(session)), t, slug, name, creator, now).result.Ok? then r.Ok?
        else r == Err(IntegrityError)
      ensures old(SlugInUse(session.db, slug)) ==> r.Err? && orch.View() == old(orch.View())
      ensures OnlyTouches(old(orch.View()), orch.View(), t)
      ensures orch.containers == old(orch.containers)
    {
      hide OnlyTouches, DirsCreated, NetworkCreated;
      TouchesNothing(orch.View(), t);
      var ok := session.Await();
      if !ok {
        return Err(DatabaseError);
      }
      if t in session.db.tenants || SlugInUse(session.db, slug) {
        return Err(IntegrityError);
      }
      var row := TenantRow(slug, name, PROVISIONING, None, None, None, None, now);
      session.db := session.db.(tenants := session.db.tenants[t := row]);
      var network := CreateResources(t);
      if network.Err? {
        return Err(DockerError);
      }
      row := row.(networkId := Some(network.value), status := STOPPED);
      session.db := session.db.(tenants := session.db.tenants[t := row]);
      assert session.db.tenants == old(session.db.tenants)[t := row];
      var audited := session.EmitAudit(t, creator, TenantCreate(slug));
      if audited.Err? {
        return Err(DatabaseError);
      }
      if creator.None? {
        return Ok(());
      }
      r := EnsureMembership(session, t, creator.value, TenantAdmin);
    }

    method EnsureMembership(session: Session, t: Uuid, u: UserId, role: Role) returns (r: Result<()>)
      modifies session`db
      ensures r.Ok? ==> session.db == old(session.db).(memberships := old(session.db.memberships)[(t, u) := role])
      ensures r.Ok? ==>
        t in session.db.tenants && u in session.db.users.Values && (t, u) !in old(session.db.memberships)
      ensures r == Err(IntegrityError) ==>
        t !in session.db.tenants || u !in session.db.users.Values || (t, u) in old(session.db.memberships)
      ensures r.Err? ==> session.db == old(session.db) && r.error in {IntegrityError, DatabaseError}
      ensures session.reliable ==> r != Err(DatabaseError)
    {
      var ok := session.Await();
      if !ok {
        return Err(DatabaseError);
      }
      if t !in session.db.tenants || u !in session.db.users.Values || (t, u) in session.db.memberships {
        return Err(IntegrityError);
      }
      session.db := session.db.(memberships := session.db.memberships[(t, u) := role]);
      return Ok(());
    }

    method DeleteTenant(session: Session, t: Uuid, user: Option<UserId>) returns (r: Result<()>)
      modifies session`db, orch
      ensures r.Ok? ==> TenantDeleted(old(Sees(session)), t, user) == Outcome(Sees(session), Ok(()))
      ensures Reliable(session) ==> r.Ok?
      ensures OnlyTouches(old(orch.View()), orch.View(), t)
    {
      var ok := session.Await();
      if !ok {
        return Err(DatabaseError);
      }
      if t !in session.db.tenants {
        return Ok(());
      }
      r := session.UpdateTenant(t, (row: TenantRow) => row.(status := DELETING));
      if r.Err? {
        return r;
      }
      r := orch.CleanupTenant(t);
      if r.Err? {
        return r;
      }
      r := session.EmitAudit(t, user, TenantDelete);
      if r.Err? {
        return r;
      }
      session.db := Cascaded(session.db, t);
      assert session.db.tenants == old(session.db.tenants) - {t};
    }

    method StartTenant(session: Session, t: Uuid, now: int) returns (r: Result<nat>, ghost secrets: map<string, string>)
      modifies session`db, orch, vault.vault
      ensures r.Ok? ==>
        && Fetched(vault.vault.kek, old(session.db), old(vault.vault.drawn), t, secrets)
        && TenantStarted(vault.vault.kek, cfg, old(Sees(session)), t, now, secrets) == Outcome(Sees(session), r)
      ensures r.Err? && r.error !in FAULTS + {InvalidTag} ==>
        && TenantStarted(vault.vault.kek, cfg, old(Sees(session)), t, now, secrets).result == r
        && orch.View() == old(orch.View())
      ensures r == Err(InvalidTag) ==>
        !Fetchable(vault.vault.kek, old(session.db), old(vault.vault.drawn), t) && orch.View() == old(orch.View())
      ensures Reliable(session) ==>
        if t !in old(session.db.tenants) || Fetchable(vault.vault.kek, old(session.db), old(vault.vault.drawn), t)
        then r == TenantStarted(vault.vault.kek, cfg, old(Sees(session)), t, now, secrets).result
        else r == Err(InvalidTag)
      ensures OnlyTouches(old(orch.View()), orch.View(), t)
    {
      secrets := map[];
      var ok := session.Await();
      if !ok {
        return Err(DatabaseError), secrets;
      }
      if t !in session.db.tenants {
        return Err(TenantNotFound), secrets;
      }
      var tenant := session.db.tenants[t];
      var decrypted := vault.GetDecryptedSecrets(session, t);
      if decrypted.Err? {
        return Err(decrypted.error), secrets;
      }
      secrets := decrypted.value;
      ghost var keyed := session.db;
      var providerVar: Option<string> := None;
      if tenant.provider.Some? && tenant.provider.value != "" {
        var spec := GetProvider(tenant.provider.value);
        if spec.Err? {
          return Err(spec.error), secrets;
        }
        providerVar := Some(spec.value.envVar);
      }
      assert ProviderVar(tenant) == Ok(providerVar);
      var env := ContainerEnv(cfg, providerVar, decrypted.value);
      var started := orch.StartContainer(t, env);
      if started.Err? {
        return Err(DockerError), secrets;
      }
      var id := started.value;
      var updated := session.UpdateTenant(t, row => RowRunning(row, id, now));
      if updated.Err? {
        return Err(DatabaseError), secrets;
      }
      assert session.db == Updated(keyed, t, row => RowRunning(row, id, now));
      var audited := session.EmitAudit(t, None, ContainerStart);
      if audited.Err? {
        return Err(DatabaseError), secrets;
      }
      return Ok(id), secrets;
    }

    method StopTenant(session: Session, t: Uuid) returns (r: Result<()>)
      modifies session`db, orch
      ensures r.Ok? ==> TenantStopped(old(Sees(session)), t) == Outcome(Sees(session), Ok(()))
      ensures r.Ok? ==> session.db == old(session.db).(
        tenants :=
          if t in old(session.db.tenants) then
            old(session.db.tenants)[t := old(session.db.tenants[t]).(status := STOPPED, containerId := None)]
          else old(session.db.tenants),
        audit := old(session.db.audit) + [AuditEvent(t, None, ContainerStop)])
      ensures r.Ok? ==> orch.View() == old(orch.View()).(containers := old(orch.containers) - {ContainerName(t)})
      ensures Reliable(session) ==> r.Ok?
      ensures OnlyTouches(old(orch.View()), orch.View(), t)
    {
      r := orch.StopContainer(t);
      if r.Ok? {
        r := session.UpdateTenant(t, RowStopped);
      }
      if r.Ok? {
        r := session.EmitAudit(t, None, ContainerStop);
      }
    }

    method PauseTenant(session: Session, t: Uuid) returns (r: Result<()>)
      modifies session`db, orch
      ensures r.Ok? ==> TenantPaused(old(Sees(session)), t) == Outcome(Sees(session), Ok(()))
      ensures Reliable(session) ==> r.Ok?
      ensures OnlyTouches(old(orch.View()), orch.View(), t)
    {
      r := orch.PauseContainer(t);
      if r.Ok? {
        r := session.UpdateTenant(t, RowPaused);
      }
      if r.Ok? {
        r := session.EmitAudit(t, None, ContainerPause);
      }
    }

    method TouchActivity(session: Session, t: Uuid, now: int) returns (r: Result<()>)
      modifies session`db
      ensures r.Ok? ==> TenantTouched(old(Sees(session)), t, now) == Outcome(Sees(session), Ok(()))
      ensures r.Err? ==> r.error in FAULTS
      ensures session.reliable ==> r.Ok?
    {
      r := session.UpdateTenant(t, row => RowTouched(row, now));
    }

    method WakeTenant(session: Session, t: Uuid, now: int)
      returns (r: Result<Option<nat>>, ghost secrets: map<string, string>)
      modifies session`db, orch, vault.vault
      ensures r.Ok? && !Awake(old(orch.View()), t) ==>
        Fetched(vault.vault.kek, old(session.db), old(vault.vault.drawn), t, secrets)
      ensures r.Ok? ==>
        TenantWoken(vault.vault.kek, cfg, old(Sees(session)), t, now, secrets) == Outcome(Sees(session), r)
      ensures r.Err? && r.error !in FAULTS + {InvalidTag} ==>
        && TenantWoken(vault.vault.kek, cfg, old(Sees(session)), t, now, secrets).result == r
        && TenantWoken(vault.vault.kek, cfg, old(Sees(session)), t, now, secrets).world.host == orch.View()
      ensures Reliable(session) ==>
        if || Awake(old(orch.View()), t) || t !in old(session.db.tenants)
           || Fetchable(vault.vault.kek, old(session.db), old(vault.vault.drawn), t)
        then r == TenantWoken(vault.vault.kek, cfg, old(Sees(session)), t, now, secrets).result
        else r == Err(InvalidTag)
      ensures OnlyTouches(old(orch.View()), orch.View(), t)
    {
      secrets := map[];
      var state := orch.GetContainerState(t);
      if state.Err? {
        return Err(DockerError), secrets;
      }
      if state.value == StateRunning {
        var touched := TouchActivity(session, t, now);
        if touched.Err? {
          return Err(touched.error), secrets;
        }
        if t !in session.db.tenants {
          return Err(AttributeError), secrets;
        }
        return Ok(session.db.tenants[t].containerId), secrets;
      }
      if state.value == StatePaused {
        var woken := orch.UnpauseContainer(t);
        if woken.Err? {
          return Err(DockerError), secrets;
        }
        var updated := session.UpdateTenant(t, row => RowWoken(row, now));
        if updated.Err? {
          return Err(DatabaseError), secrets;
        }
        var audited := session.EmitAudit(t, None, ContainerWake);
        if audited.Err? {
          return Err(DatabaseError), secrets;
        }
        if t !in session.db.tenants {
          return Err(AttributeError), secrets;
        }
        return Ok(session.db.tenants[t].containerId), secrets;
      }
      var started;
      started, secrets := StartTenant(session, t, now);
      return if started.Ok? then Ok(Some(started.value)) else Err(started.error), secrets;
    }

    method AddMember(session: Session, t: Uuid, email: string, role: Role, newId: UserId, actor: Option<UserId>)
      returns (r: Result<UserId>)
      modifies session`db
      ensures r.Ok? || r == Err(IntegrityError) ==>
        MemberAdded(old(Sees(session)), t, email, role, newId, actor).result == r
      ensures r.Ok? ==> MemberAdded(old(Sees(session)), t, email, role, newId, actor).world == Sees(session)
      ensures r.Ok? ==> session.db == old(session.db).(
        users := session.db.users,
        memberships := old(session.db.memberships)[(t, r.value) := role],
        audit := old(session.db.audit) + [AuditEvent(t, actor, MemberAdd(email, role))])
      ensures r.Ok? ==> email in session.db.users && session.db.users[email] == r.value
      ensures r.Ok? ==> session.db.users == old(session.db.users)[email := r.value]
      ensures r.Ok? ==> r.value == if email in old(session.db.users) then old(session.db.users)[email] else newId
      ensures session.reliable ==> r != Err(DatabaseError)
      ensures r.Err? ==> r.error in {IntegrityError, DatabaseError}
    {
      var ok := session.Await();
      if !ok {
        return Err(DatabaseError);
      }
      if email !in session.db.users {
        session.db := session.db.(users := session.db.users[email := newId]);
      }
      var u := session.db.users[email];
      assert u in session.db.users.Values;
      var joined := EnsureMembership(session, t, u, role);
      if joined.Err? {
        return Err(joined.error);
      }
      var audited := session.EmitAudit(t, actor, MemberAdd(email, role));
      return if audited.Ok? then Ok(u) else Err(DatabaseError);
    }

    method RemoveMember(session: Session, t: Uuid, u: UserId, actor: Option<UserId>) returns (r: Result<()>)
      modifies session`db
      ensures r.Ok? ==> MemberRemoved(old(Sees(session)), t, u, actor) == Outcome(Sees(session), Ok(()))
      ensures r.Err? ==> r.error == DatabaseError
      ensures session.reliable ==> r.Ok?
    {
      var ok := session.Await();
      if !ok {
        return Err(DatabaseError);
      }
      if (t, u) in session.db.memberships {
        session.db := session.db.(memberships := session.db.memberships - {(t, u)});
        r := session.EmitAudit(t, actor, MemberRemove(u));
      } else {
        return Ok(());
      }
    }
  }
}
