/**
 What each request and each sweep does, spelled out: which rows and which
 Docker objects come out of it, column by column and literal by literal, and
 exactly when it succeeds. The steps the services are proved against are
 measured here against the tables and the host alone.
 */
module Effects {
  import opened Prelude
  import opened Naming
  import opened Docker
  import opened Envelope
  import opened Database
  import opened Vault
  import opened Provider
  import opened Tenants
  import opened Hibernation
  import opened Runs

  // --- Docker ---

  /** Names are made of the canonical id text. */
  lemma NamesSpelled(t: Uuid)
    ensures ContainerName(t) == "octw_tenant_" + UuidText(t)
    ensures NetworkName(t) == "octw_tenant_" + UuidText(t)
    ensures InitName(t) == "octw_init_" + UuidText(t)
    ensures TenantDir(t) == "/var/lib/octw/tenants/" + UuidText(t)
  {
    assert TENANT_BASE_DIR + "/" == "/var/lib/octw/tenants/";
  }

  /** A new container, as a start leaves it. */
  ghost predicate NewFor(c: Container, t: Uuid, env: map<string, string>) {
    && c.status == Running && c.env == env
    && c.mounts == map[
         "/home/node/.openclaw" := TenantDir(t) + "/state",
         "/home/node/.openclaw/workspace" := TenantDir(t) + "/workspace"]
    && c.nets == map[NetworkName(t) := Some(c.id)]
  }

  /** A running container is left alone, a paused one runs again, and anything else gives way to a new one. */
  lemma StartedHost(h: Host, t: Uuid, env: map<string, string>)
    ensures
      var h' := Started(h, t, env);
      var name := ContainerName(t);
      && h'.dirs == (if TenantDir(t) in h.dirs then h.dirs else h.dirs[TenantDir(t) := Dir(None)])
      && name in h'.containers
      && h'.containers == h.containers[name := h'.containers[name]]
      && (if name in h.containers && h.containers[name].status == Running then
            h'.containers[name] == h.containers[name] && h'.networks == h.networks
          else if name in h.containers && h.containers[name].status == Paused then
            h'.containers[name] == h.containers[name].(status := Running) && h'.networks == h.networks
          else
            && NewFor(h'.containers[name], t, env) && h.next <= h'.containers[name].id < h'.next
            && h'.networks == if NetworkName(t) in h.networks then h.networks else h.networks[NetworkName(t) := h.next])
  {
    hide ContainerName, TenantDir;
    if Awake(h, t) && h.containers[ContainerName(t)].status == Running {
      var c := h.containers[ContainerName(t)];
      assert c.(status := Running) == c;
    }
  }

  /** What a start may have left behind when it failed on replacing a container, stage by stage. */
  lemma HalfStartedHost(h: Host, t: Uuid, env: map<string, string>)
    requires TenantDir(t) in h.dirs
    requires ContainerName(t) in h.containers ==> h.containers[ContainerName(t)].status !in {Running, Paused}
    ensures
      var name := ContainerName(t);
      var removed := h.(containers := h.containers - {name});
      var wired := if NetworkName(t) in h.networks then removed
                   else removed.(networks := h.networks[NetworkName(t) := h.next], next := h.next + 1);
      var husk := Container(
        wired.next, Created, env,
        map["/home/node/.openclaw" := TenantDir(t) + "/state",
            "/home/node/.openclaw/workspace" := TenantDir(t) + "/workspace"],
        map[NetworkName(t) := None]);
      && HalfStarted(h, t, env, Untouched) == h && HalfStarted(h, t, env, DirsMade) == h
      && HalfStarted(h, t, env, Cleared) == removed
      && HalfStarted(h, t, env, Wired) == wired
      && HalfStarted(h, t, env, Made)
         == wired.(containers := h.containers[name := husk], next := wired.next + 1)
  {
    var name := ContainerName(t);
    var husk := Husk(HalfStarted(h, t, env, Wired).next, t, env);
    assert (h.containers - {name})[name := husk] == h.containers[name := husk];
  }

  // --- The environment ---

  /** The base values, with the key of the row's own provider when the server has one, and the secrets on top. */
  lemma EnvironmentSpelled(cfg: Settings, row: TenantRow, secrets: map<string, string>)
    ensures ProviderVar(row).Ok? <==> row.provider in {None, Some(""), Some("zai"), Some("moonshot"), Some("minimax")}
    ensures ProviderVar(row).Err? ==> ProviderVar(row) == Err(UnknownProvider)
    ensures ProviderVar(row).Ok? ==>
      var base := map[
        "OPENCLAW_GATEWAY_BIND" := "lan", "OPENCLAW_GATEWAY_PORT" := "18789", "OPENCLAW_CANVAS_PORT" := "18790"];
      ContainerEnv(cfg, ProviderVar(row).value, secrets) ==
        if row.provider == Some("zai") && cfg.zaiKey.Some? && cfg.zaiKey.value != "" then
          base["ZAI_API_KEY" := cfg.zaiKey.value] + secrets
        else if row.provider == Some("moonshot") && cfg.moonshotKey.Some? && cfg.moonshotKey.value != "" then
          base["MOONSHOT_API_KEY" := cfg.moonshotKey.value] + secrets
        else if row.provider == Some("minimax") && cfg.minimaxKey.Some? && cfg.minimaxKey.value != "" then
          base["MINIMAX_API_KEY" := cfg.minimaxKey.value] + secrets
        else base + secrets
  {
  }

  // --- Life cycle ---

  lemma CreateEffect(d: Deployment, w: World, t: Uuid, slug: string, name: string, creator: Option<UserId>, now: int)
    ensures
      var o := Attempt(d, w, Create(t, slug, name, creator, now));
      && (o.result.Ok? <==>
            && t !in w.db.tenants && (forall u :: u in w.db.tenants ==> w.db.tenants[u].slug != slug)
            && (creator.Some? ==> creator.value in w.db.users.Values && (t, creator.value) !in w.db.memberships))
      && (o.result.Ok? ==>
            && NetworkName(t) in o.world.host.networks
            && var row :=
                 TenantRow(slug, name, STOPPED, None, Some(o.world.host.networks[NetworkName(t)]), None, None, now);
            && o.world.db == w.db.(
                 tenants := w.db.tenants[t := row],
                 memberships :=
                   if creator.Some? then w.db.memberships[(t, creator.value) := TenantAdmin] else w.db.memberships,
                 audit := w.db.audit + [AuditEvent(t, creator, TenantCreate(slug))])
            && o.world.host.containers == w.host.containers
            && o.world.host.dirs
               == (if TenantDir(t) in w.host.dirs then w.host.dirs else w.host.dirs[TenantDir(t) := Dir(None)])
            && o.world.host.networks
               == (if NetworkName(t) in w.host.networks then w.host.networks
                   else w.host.networks[NetworkName(t) := w.host.next]))
  {
    hide TenantDir, NetworkName;
  }

  lemma StartEffect(d: Deployment, w: World, t: Uuid, now: int, secrets: map<string, string>)
    ensures
      var o := TenantStarted(d.kek, d.cfg, w, t, now, secrets);
      && (o.result == Err(TenantNotFound) <==> t !in w.db.tenants)
      && (o.result == Err(UnknownProvider) <==>
            t in w.db.tenants
            && w.db.tenants[t].provider !in {None, Some(""), Some("zai"), Some("moonshot"), Some("minimax")})
      && (o.result.Err? ==> o.result.error in {TenantNotFound, UnknownProvider} && o.world.host == w.host)
      && (o.result.Ok? ==>
            && ContainerName(t) in o.world.host.containers
            && o.result.value == o.world.host.containers[ContainerName(t)].id
            && o.world.host == Started(w.host, t, ContainerEnv(d.cfg, ProviderVar(w.db.tenants[t]).value, secrets))
            && var row := w.db.tenants[t].(
                 status := RUNNING, containerId := Some(o.result.value), lastActivity := Some(now));
            && o.world.db == w.db.(
                 tenants := w.db.tenants[t := row],
                 deks := o.world.db.deks,
                 audit := w.db.audit + [AuditEvent(t, None, ContainerStart)])
            && o.world.db.deks.Keys == w.db.deks.Keys + {t}
            && (forall u :: u in w.db.deks ==> o.world.db.deks[u] == w.db.deks[u]))
    ensures Attempt(d, w, Start(t, now, secrets)).world == TenantStarted(d.kek, d.cfg, w, t, now, secrets).world
    ensures Attempt(d, w, Start(t, now, secrets)).result.Ok?
      <==> TenantStarted(d.kek, d.cfg, w, t, now, secrets).result.Ok?
  {
    hide ContainerEnv, Started, ProviderVar;
    if t in w.db.tenants {
      EnvironmentSpelled(d.cfg, w.db.tenants[t], secrets);
    }
  }

  /** A stop keeps every column of the row but two, and every other row and object. */
  lemma StopEffect(d: Deployment, w: World, t: Uuid)
    ensures
      var o := Attempt(d, w, Stop(t));
      && o.result.Ok?
      && o.world.db == w.db.(
           tenants :=
             if t in w.db.tenants then
               w.db.tenants[t := w.db.tenants[t].(status := STOPPED, containerId := None)]
             else w.db.tenants,
           audit := w.db.audit + [AuditEvent(t, None, ContainerStop)])
      && o.world.host == w.host.(containers := w.host.containers - {ContainerName(t)})
    ensures TenantStopped(w, t) == Attempt(d, w, Stop(t))
  {
  }

  lemma PauseEffect(d: Deployment, w: World, t: Uuid)
    ensures
      var o := Attempt(d, w, Pause(t));
      var name := ContainerName(t);
      && o.result.Ok?
      && o.world.db == w.db.(
           tenants :=
             if t in w.db.tenants then w.db.tenants[t := w.db.tenants[t].(status := PAUSED)] else w.db.tenants,
           audit := w.db.audit + [AuditEvent(t, None, ContainerPause)])
      && o.world.host ==
           if name in w.host.containers && w.host.containers[name].status == Running then
             w.host.(containers := w.host.containers[name := w.host.containers[name].(status := Paused)])
           else w.host
    ensures TenantPaused(w, t) == Attempt(d, w, Pause(t))
  {
    hide ContainerName;
    if ContainerName(t) in w.host.containers && w.host.containers[ContainerName(t)].status != Running {
      assert PausedHost(w.host, t).containers == w.host.containers;
    }
  }

  /** A running container is not touched, a paused one runs again, and any other state is a start. */
  lemma WakeEffect(d: Deployment, w: World, t: Uuid, now: int, secrets: map<string, string>)
    ensures
      var o := TenantWoken(d.kek, d.cfg, w, t, now, secrets);
      var name := ContainerName(t);
      var started := TenantStarted(d.kek, d.cfg, w, t, now, secrets);
      if name in w.host.containers && w.host.containers[name].status in {Running, Paused} then
        var paused := w.host.containers[name].status == Paused;
        && (o.result == Err(AttributeError) <==> t !in w.db.tenants) && (o.result.Ok? <==> t in w.db.tenants)
        && o.world.host == (
             if paused then
               w.host.(containers := w.host.containers[name := w.host.containers[name].(status := Running)])
             else w.host)
        && (o.result.Ok? ==>
              && o.result.value == w.db.tenants[t].containerId
              && o.world.db ==
                   if paused then
                     w.db.(
                       tenants :=
                         w.db.tenants[t := w.db.tenants[t].(status := RUNNING, lastActivity := Some(now))],
                       audit := w.db.audit + [AuditEvent(t, None, ContainerWake)])
                   else w.db.(tenants := w.db.tenants[t := w.db.tenants[t].(lastActivity := Some(now))]))
      else
        && o.world == started.world
        && o.result == if started.result.Ok? then Ok(Some(started.result.value)) else Err(started.result.error)
    ensures Attempt(d, w, Wake(t, now, secrets)).world == TenantWoken(d.kek, d.cfg, w, t, now, secrets).world
    ensures Attempt(d, w, Wake(t, now, secrets)).result.Ok?
      <==> TenantWoken(d.kek, d.cfg, w, t, now, secrets).result.Ok?
  {
    hide ContainerName, TenantStarted;
  }

  lemma TouchEffect(d: Deployment, w: World, t: Uuid, now: int)
    ensures
      var o := Attempt(d, w, Touch(t, now));
      && o.result.Ok?
      && o.world == w.(db := w.db.(tenants :=
           if t in w.db.tenants then w.db.tenants[t := w.db.tenants[t].(lastActivity := Some(now))] else w.db.tenants))
    ensures TenantTouched(w, t, now) == Attempt(d, w, Touch(t, now))
  {
  }

  /** Everything that carries the tenant's id goes, except the log. */
  lemma DeleteEffect(d: Deployment, w: World, t: Uuid, actor: Option<UserId>)
    ensures
      var o := Attempt(d, w, Delete(t, actor));
      && o.result.Ok?
      && if t !in w.db.tenants then o.world == w
         else
           && o.world.db == Db(
                w.db.tenants - {t},
                w.db.users,
                map k | k in w.db.memberships && k.0 != t :: w.db.memberships[k],
                w.db.deks - {t},
                map k | k in w.db.secrets && k.0 != t :: w.db.secrets[k],
                w.db.audit + [AuditEvent(t, actor, TenantDelete)])
           && o.world.host == w.host.(
                containers := w.host.containers - {ContainerName(t)},
                networks := w.host.networks - {NetworkName(t)},
                dirs := w.host.dirs - {TenantDir(t)})
    ensures TenantDeleted(w, t, actor) == Attempt(d, w, Delete(t, actor))
  {
  }

  // --- Members ---

  /** A member joins with the role given, and the log says so; the address keeps its user or gets a new one. */
  lemma JoinEffect(
    d: Deployment, w: World, t: Uuid, email: string, role: Role, newId: UserId, actor: Option<UserId>)
    ensures
      var o := MemberAdded(w, t, email, role, newId, actor);
      var u := if email in w.db.users then w.db.users[email] else newId;
      && (o.result == Err(IntegrityError) <==> t !in w.db.tenants || (t, u) in w.db.memberships)
      && (o.result.Err? ==> o.result.error == IntegrityError && o.world == w)
      && (o.result.Ok? ==>
            && o.result.value == u
            && o.world == w.(db := w.db.(
                 users := w.db.users[email := u],
                 memberships := w.db.memberships[(t, u) := role],
                 audit := w.db.audit + [AuditEvent(t, actor, MemberAdd(email, role))])))
    ensures Attempt(d, w, Join(t, email, role, newId, actor)).world
      == MemberAdded(w, t, email, role, newId, actor).world
    ensures Attempt(d, w, Join(t, email, role, newId, actor)).result.Ok?
      <==> MemberAdded(w, t, email, role, newId, actor).result.Ok?
  {
    if email in w.db.users {
      assert w.db.users[email := w.db.users[email]] == w.db.users;
    }
  }

  lemma LeaveEffect(d: Deployment, w: World, t: Uuid, u: UserId, actor: Option<UserId>)
    ensures
      var o := Attempt(d, w, Leave(t, u, actor));
      && o.result.Ok?
      && o.world ==
           if (t, u) in w.db.memberships then
             w.(db := w.db.(
               memberships := w.db.memberships - {(t, u)},
               audit := w.db.audit + [AuditEvent(t, actor, MemberRemove(u))]))
           else w
    ensures MemberRemoved(w, t, u, actor) == Attempt(d, w, Leave(t, u, actor))
  {
  }

  lemma LoginEffect(d: Deployment, w: World, email: string, newId: UserId)
    ensures
      var o := Attempt(d, w, Login(email, newId));
      && o.result.Ok?
      && o.world == w.(db := w.db.(users := if email in w.db.users then w.db.users else w.db.users[email := newId]))
  {
  }

  // --- Secrets ---

  /** One row under the tenant's key, with the type and target given, that opens to the text. */
  lemma SecretEffect(d: Deployment, w: World, t: Uuid, name: string, s: Secret)
    ensures
      var o := Attempt(d, w, SetSecret(t, name, s));
      && (o.result.Ok? <==>
            && t in w.db.tenants
            && (t in w.db.deks ==> OpenKey(d.kek, w.db.deks[t].nonce, w.db.deks[t].encryptedDek).Some?))
      && (o.result.Ok? ==>
            && o.world.host == w.host
            && o.world.db == w.db.(deks := o.world.db.deks, secrets := o.world.db.secrets)
            && t in o.world.db.deks
            && o.world.db.deks == w.db.deks[t := o.world.db.deks[t]]
            && (t in w.db.deks ==> o.world.db.deks == w.db.deks)
            && (t, name) in o.world.db.secrets
            && o.world.db.secrets == w.db.secrets[(t, name) := o.world.db.secrets[(t, name)]]
            && var key := OpenKey(d.kek, o.world.db.deks[t].nonce, o.world.db.deks[t].encryptedDek);
            && var row := o.world.db.secrets[(t, name)];
            && row.kind == s.kind && row.target == s.target
            && key.Some? && OpenText(key.value, row.nonce, row.ciphertext) == Some(s.text))
  {
  }

  lemma ForgetEffect(d: Deployment, w: World, t: Uuid, name: string)
    ensures
      var o := Attempt(d, w, DropSecret(t, name));
      o.result.Ok? && o.world == w.(db := w.db.(secrets := w.db.secrets - {(t, name)}))
  {
  }

  // --- The sweep ---

  /** What becomes of one tenant, threshold by threshold; everything that is not a tenant's row or container stays. */
  lemma SweepExactly(d: Deployment, w: World, now: int, t: Uuid)
    requires t in w.db.tenants
    ensures
      var o := Attempt(d, w, Sweep(now));
      var row := w.db.tenants[t];
      var last := if row.lastActivity.Some? then row.lastActivity.value else row.createdAt;
      var before := Lookup(w.host.containers, ContainerName(t));
      var after := Lookup(o.world.host.containers, ContainerName(t));
      && o.result.Ok?
      && t in o.world.db.tenants
      && (if row.status in {RUNNING, PAUSED} && last < now - d.cfg.idleStop then
            && o.world.db.tenants[t] == row.(status := STOPPED, containerId := None)
            && after == None
          else if row.status == RUNNING && last < now - d.cfg.idlePause then
            && o.world.db.tenants[t] == row.(status := PAUSED)
            && after == (if before.Some? && before.value.status == Running
                         then Some(before.value.(status := Paused)) else before)
          else o.world.db.tenants[t] == row && after == before)
      && o.world == w.(
           db := w.db.(tenants := o.world.db.tenants),
           host := w.host.(containers := o.world.host.containers))
      && o.world.db.tenants.Keys == w.db.tenants.Keys
  {
    assert Fate(d.cfg, w.db.tenants, ContainerName(t), now) == Decide(d.cfg, w.db.tenants[t], now);
  }

  /** A container of no tenant with a row is not swept. */
  lemma SweepKeepsStrangers(d: Deployment, w: World, now: int, n: string)
    requires forall t :: t in w.db.tenants ==> n != ContainerName(t)
    ensures Lookup(Attempt(d, w, Sweep(now)).world.host.containers, n) == Lookup(w.host.containers, n)
  {
    assert Fate(d.cfg, w.db.tenants, n, now) == Keep;
  }
}
